/**
  The game loop and the session around it: the page-load state, restart,
  the animation timer, one tick of gameLoop, the invariant every reachable
  world keeps, and what a tick promises about it.
 */
module Session {
  import opened Entities
  import opened Generator
  import opened Physics
  import opened Collision

  /** The ground and the two starting platforms (main.js:30-34, 232-236). */
  const InitialPlatforms: seq<Rect> := [
    Rect(0.0, GroundTop, 800.0, GroundHeight, Green),
    Rect(200.0, 250.0, 150.0, 20.0, Brown),
    Rect(500.0, 200.0, 100.0, 20.0, Brown)
  ]

  /** The state at page load, before the first frame (main.js:10-44). */
  function Initial(): World {
    World(Player(50.0, 250.0, 0.0, 0.0, false, 0, 0, 0),
          InitialPlatforms, [], 0.0, 800.0, 800.0, 0.0, false, false)
  }

  /**
    startGame: everything returns to its page-load value except the facing,
    the animation frame and timer, and the click listener, which stays.
   */
  function StartGame(w: World): (w': World)
    ensures w' == Initial().(
      player := Initial().player.(frameIndex := w.player.frameIndex,
                                  frameTimer := w.player.frameTimer,
                                  direction := w.player.direction),
      listening := w.listening)
  {
    w.(gameOver := false,
       player := w.player.(x := 50.0, y := 250.0, dx := 0.0, dy := 0.0, jumping := false),
       platforms := InitialPlatforms,
       obstacles := [],
       offsetX := 0.0,
       spawnX := 800.0,
       groundExtendX := 800.0,
       score := 0.0)
  }

  /** A restart depends only on what startGame leaves alone, not on the run before it. */
  lemma RestartForgetsHistory(w1: World, w2: World)
    requires w1.player.direction == w2.player.direction
    requires w1.player.frameIndex == w2.player.frameIndex
    requires w1.player.frameTimer == w2.player.frameTimer
    requires w1.listening == w2.listening
    ensures StartGame(w1) == StartGame(w2)
    ensures StartGame(StartGame(w1)) == StartGame(w1)
  {
  }

  /** The animation timer of drawPlayer: one step per tick, a new frame every 12. */
  function Animate(p: Player): (q: Player)
    ensures q == p.(frameIndex := q.frameIndex, frameTimer := q.frameTimer)
    ensures p.frameTimer + 1 < AnimationSpeed ==> q == p.(frameTimer := p.frameTimer + 1)
    ensures p.frameTimer + 1 >= AnimationSpeed ==>
      q.frameTimer == 0 && q.frameIndex == (p.frameIndex + 1) % 2
    ensures q.frameIndex < 2 || q.frameIndex == p.frameIndex
  {
    var t := p.frameTimer + 1;
    if t >= AnimationSpeed then p.(frameIndex := (p.frameIndex + 1) % 2, frameTimer := 0)
    else p.(frameTimer := t)
  }

  /** `n` ticks of the animation timer. */
  function AnimateN(p: Player, n: nat): Player
    decreases n
  {
    if n == 0 then p else Animate(AnimateN(p, n - 1))
  }

  lemma {:induction false} AnimationHolds(p: Player, n: nat)
    requires p.frameTimer + n < AnimationSpeed
    ensures AnimateN(p, n) == p.(frameTimer := p.frameTimer + n)
    decreases n
  {
    if n > 0 {
      AnimationHolds(p, n - 1);
    }
  }

  /**
    From a fresh timer the frame holds for 11 ticks and flips on the 12th,
    with the timer back at zero.
   */
  lemma AnimationPeriod(p: Player)
    requires p.frameTimer == 0 && p.frameIndex < 2
    ensures forall n :: 0 <= n < AnimationSpeed ==> AnimateN(p, n).frameIndex == p.frameIndex
    ensures AnimateN(p, AnimationSpeed) == p.(frameIndex := 1 - p.frameIndex)
  {
    forall n | 0 <= n < AnimationSpeed
      ensures AnimateN(p, n).frameIndex == p.frameIndex
    {
      AnimationHolds(p, n);
    }
    AnimationFlips(p, AnimationSpeed);
  }

  /** The tick that brings the timer to 12 flips the frame and resets the timer. */
  lemma AnimationFlips(p: Player, n: nat)
    requires 0 < n && p.frameTimer + n == AnimationSpeed && p.frameIndex < 2
    ensures AnimateN(p, n) == p.(frameIndex := 1 - p.frameIndex, frameTimer := 0)
  {
    var q := AnimateN(p, n - 1);
    AnimationHolds(p, n - 1);
    assert q.frameTimer + 1 == AnimationSpeed;
  }

  /** A cell of the 4 by 4 sprite sheet. */
  datatype Cell = Cell(row: nat, column: nat)

  /**
    The sprite cell drawPlayer shows: row 1 in the air, rows 2 and 3
    running left and right, row 0 standing; columns 2-3 for moving rows,
    0-1 for standing, picked by the animation frame. It is read off the
    player after `Animate`: the row depends only on fields `Animate` leaves
    alone, and the column uses the updated frame index (main.js:97).
   */
  function SpriteCell(p: Player): (c: Cell)
    requires p.frameIndex < 2
    ensures c.row < 4 && c.column < 4
    ensures c.row == 1 <==> p.jumping || p.dy > 0.0
    ensures c.row == 0 <==> !p.jumping && p.dy <= 0.0 && p.dx == 0.0
    ensures c.row == 3 <==> !p.jumping && p.dy <= 0.0 && p.dx != 0.0 && p.direction == 1
    ensures c.column % 2 == p.frameIndex
    ensures c.column < 2 <==> c.row == 0
  {
    if p.jumping || p.dy > 0.0 then Cell(1, p.frameIndex + 2)
    else if p.dx != 0.0 then Cell(if p.direction == 1 then 3 else 2, p.frameIndex + 2)
    else Cell(0, p.frameIndex)
  }

  /**
    The part of a tick after the scroll section (main.js:282-351): move and
    land the player, prune, advance the animation, test the obstacles, and
    recompute the score.
   */
  function Resolve(a: World): (w': World)
    ensures w'.player == Animate(Land(Move(a.player), a.platforms))
    ensures w'.platforms == Prune(a.platforms) && w'.obstacles == Prune(a.obstacles)
    ensures w'.score == w'.offsetX / 10.0
    ensures w'.gameOver <==> a.gameOver || Hit(w'.player, w'.obstacles)
    ensures !a.gameOver && w'.gameOver ==> w'.listening
    ensures w'.listening <==> a.listening || Hit(w'.player, w'.obstacles)
    ensures w' == a.(player := w'.player, platforms := w'.platforms, obstacles := w'.obstacles,
                     score := w'.score, gameOver := w'.gameOver, listening := w'.listening)
  {
    var p := Land(Move(a.player), a.platforms);
    var b := a.(player := Animate(p),
                platforms := Prune(a.platforms),
                obstacles := Prune(a.obstacles));
    var c := CheckObstacles(b);
    c.(score := c.offsetX / 10.0)
  }

  /** One call of gameLoop, without the drawing (main.js:253-352). */
  function Tick(w: World, draws: nat -> SpawnDraws): (w': World)
    requires !w.gameOver && ReadsGround(w) ==> |w.platforms| > 0
    requires DrawsFit(w, draws)
    ensures w.gameOver ==> w' == w
    ensures !w.gameOver ==> w'.score == w'.offsetX / 10.0
    ensures w'.gameOver <==> w.gameOver || Hit(w'.player, w'.obstacles)
    ensures !w.gameOver && w'.gameOver ==> w'.listening
    ensures w.listening ==> w'.listening
  {
    if w.gameOver then w else Resolve(Advance(w, draws))
  }

  /** The ground extent is a whole number of ground steps. */
  predicate GroundMultiple(g: real) {
    g >= GroundStep && g == GroundStep * (g / GroundStep).Floor as real
  }

  lemma GroundMultipleStep(g: real)
    requires GroundMultiple(g)
    ensures GroundMultiple(g + GroundStep)
  {
    var k := (g / GroundStep).Floor;
    assert (g + GroundStep) / GroundStep == k as real + 1.0;
    assert ((g + GroundStep) / GroundStep).Floor == k + 1;
  }

  /** The ground rectangle when the world has scrolled `offset` and the ground reaches `extent`. */
  function Ground(offset: real, extent: real): Rect {
    Rect(-offset, GroundTop, extent, GroundHeight, Green)
  }

  /**
    The player as the key handlers and the physics leave it: speed and
    facing are those the keys set, it is never below the canvas bottom or
    more than one step left of the screen, and the animation counters are
    in range.
   */
  predicate PlayerOk(p: Player) {
    && (p.dx == -RunSpeed || p.dx == 0.0 || p.dx == RunSpeed)
    && (p.dx == RunSpeed ==> p.direction == 1)
    && (p.dx == -RunSpeed ==> p.direction == -1)
    && -1 <= p.direction <= 1
    && p.x >= -RunSpeed
    && p.y + PlayerHeight <= CanvasHeight
    && p.frameIndex < 2
    && p.frameTimer < AnimationSpeed
  }

  /**
    The course: the ground is first and reaches a viewport past the
    distance travelled, in whole ground steps, and the frontier is a
    viewport ahead.
   */
  predicate CourseOk(w: World) {
    && |w.platforms| > 0
    && w.platforms[0] == Ground(w.offsetX, w.groundExtendX)
    && w.offsetX >= 0.0
    && w.groundExtendX >= w.offsetX + CanvasWidth
    && GroundMultiple(w.groundExtendX)
    && w.spawnX >= w.offsetX + CanvasWidth
  }

  /**
    What holds of every world the game can reach: the player and the
    course as above, the score follows the distance, and game over has
    registered the click listener.
   */
  predicate Inv(w: World) {
    && PlayerOk(w.player)
    && CourseOk(w)
    && w.score == w.offsetX / 10.0
    && (w.gameOver ==> w.listening)
  }

  lemma InitialInv()
    ensures Inv(Initial())
  {
    assert GroundMultiple(800.0) by {
      assert (800.0 / GroundStep).Floor == 1;
    }
  }

  /** A restart from any world whose animation fields are in range is a world the invariant covers. */
  lemma StartGameInv(w: World)
    requires -1 <= w.player.direction <= 1
    requires w.player.frameIndex < 2 && w.player.frameTimer < AnimationSpeed
    ensures Inv(StartGame(w))
  {
    var s := StartGame(w);
    assert GroundMultiple(800.0) by {
      assert (800.0 / GroundStep).Floor == 1;
    }
    assert s.platforms[0] == Ground(0.0, 800.0);
  }

  /** The scroll section keeps the course in shape and moves the distance on, never back. */
  lemma AdvanceInv(w: World, draws: nat -> SpawnDraws)
    requires Inv(w) && DrawsFit(w, draws)
    ensures CourseOk(Advance(w, draws))
    ensures PlayerOk(Advance(w, draws).player)
    ensures Advance(w, draws).offsetX >= w.offsetX
  {
    var a := Advance(w, draws);
    if Scrolls(w.player) {
      assert w.player.dx == RunSpeed;
      AdvanceGround(w, draws);
      AdvanceShifts(w, draws);
      assert a.platforms[0] == Ground(a.offsetX, a.groundExtendX);
      assert a.player == w.player.(x := w.player.x - RunSpeed);
    } else {
      assert a == w;
    }
  }

  /** In scroll mode the ground extent stays a whole number of steps past the viewport. */
  lemma AdvanceGround(w: World, draws: nat -> SpawnDraws)
    requires Inv(w) && DrawsFit(w, draws) && Scrolls(w.player)
    ensures GroundMultiple(Advance(w, draws).groundExtendX)
    ensures Advance(w, draws).groundExtendX >= Advance(w, draws).offsetX + CanvasWidth
  {
    var a := Advance(w, draws);
    assert a.offsetX == w.offsetX + RunSpeed;
    if a.groundExtendX != w.groundExtendX {
      assert a.groundExtendX == w.groundExtendX + GroundStep;
      GroundMultipleStep(w.groundExtendX);
    }
  }

  /**
    Generation places a new rectangle at screen position `platformSpawnX`,
    which counts distance travelled: in a reachable world it starts at
    least the distance already travelled beyond the right edge of the screen.
   */
  lemma SpawnsBeyondViewport(w: World, draws: nat -> SpawnDraws)
    requires Inv(w) && DrawsFit(w, draws)
    ensures var a := Advance(w, draws);
      && (forall i :: |w.platforms| <= i < |a.platforms| ==>
            a.platforms[i].x >= w.offsetX + CanvasWidth)
      && (forall i :: |w.obstacles| <= i < |a.obstacles| ==>
            a.obstacles[i].x >= w.offsetX + CanvasWidth)
  {
    if Scrolls(w.player) {
      AdvanceFresh(w, draws);
    }
  }

  /** A player at the left edge running left ends the tick one step off screen. */
  lemma LeftEdgeOvershoot(w: World, draws: nat -> SpawnDraws)
    requires !w.gameOver && DrawsFit(w, draws)
    requires w.player.x <= 0.0 && w.player.dx == -RunSpeed
    ensures Tick(w, draws).player.x == -RunSpeed
  {
    TickStill(w, draws);
  }

  /** The landing pass never moves the player down. */
  lemma LandNeverLowers(p: Player, ps: seq<Rect>)
    ensures Land(p, ps).y <= p.y
  {
    LandOutcome(p, ps);
  }

  /** The player's part of a tick: move, land, animate. */
  lemma PlayerStepOk(p: Player, ps: seq<Rect>)
    requires PlayerOk(p)
    ensures PlayerOk(Animate(Land(Move(p), ps)))
  {
    LandNeverLowers(Move(p), ps);
  }

  /** The part of a tick after the scroll section keeps the course in shape. */
  lemma ResolveCourse(a: World)
    requires CourseOk(a)
    ensures CourseOk(Resolve(a))
  {
    var r := Resolve(a);
    assert r.groundExtendX == a.groundExtendX && r.offsetX == a.offsetX && r.spawnX == a.spawnX;
    PruneKeepsVisibleHead(a.platforms);
    assert r.platforms[0] == a.platforms[0];
  }

  /** The part of a tick after the scroll section keeps the player in shape. */
  lemma ResolvePlayer(a: World)
    requires PlayerOk(a.player)
    ensures PlayerOk(Resolve(a).player)
  {
    PlayerStepOk(a.player, a.platforms);
  }

  /** The part of a tick after the scroll section restores the whole invariant. */
  lemma ResolveInv(a: World)
    requires CourseOk(a) && PlayerOk(a.player)
    requires a.gameOver ==> a.listening
    ensures Inv(Resolve(a))
  {
    ResolveCourse(a);
    ResolvePlayer(a);
  }

  /** Every tick keeps the invariant. */
  lemma TickInv(w: World, draws: nat -> SpawnDraws)
    requires Inv(w) && DrawsFit(w, draws)
    ensures Inv(Tick(w, draws))
  {
    if !w.gameOver {
      AdvanceInv(w, draws);
      ResolveInv(Advance(w, draws));
    }
  }

  /**
    A tick never scrolls back, never shrinks the ground, and never pulls
    the frontier in; the ground grows by one step or not at all.
   */
  lemma TickMonotone(w: World, draws: nat -> SpawnDraws)
    requires !w.gameOver && ReadsGround(w) ==> |w.platforms| > 0
    requires DrawsFit(w, draws)
    ensures Tick(w, draws).offsetX >= w.offsetX
    ensures Tick(w, draws).spawnX >= w.spawnX
    ensures || Tick(w, draws).groundExtendX == w.groundExtendX
            || Tick(w, draws).groundExtendX == w.groundExtendX + GroundStep
  {
  }

  /**
    In scroll mode a tick moves the distance on by exactly the player's
    speed and, unless the speed exceeds its position, leaves the player
    where it started on screen.
   */
  lemma TickScrolls(w: World, draws: nat -> SpawnDraws)
    requires !w.gameOver && Scrolls(w.player)
    requires ReadsGround(w) ==> |w.platforms| > 0
    requires DrawsFit(w, draws)
    ensures Tick(w, draws).offsetX == w.offsetX + w.player.dx
    ensures Tick(w, draws).player.x == Max(w.player.x - w.player.dx, 0.0) + w.player.dx
    ensures w.player.dx <= w.player.x ==> Tick(w, draws).player.x == w.player.x
  {
  }

  /**
    Outside scroll mode a tick leaves the distance, frontier and ground
    alone, only prunes the rectangles, and moves the player by its speed
    from the clamped position.
   */
  lemma TickStill(w: World, draws: nat -> SpawnDraws)
    requires !w.gameOver && !Scrolls(w.player)
    requires DrawsFit(w, draws)
    ensures Tick(w, draws).offsetX == w.offsetX
    ensures Tick(w, draws).spawnX == w.spawnX
    ensures Tick(w, draws).groundExtendX == w.groundExtendX
    ensures Tick(w, draws).platforms == Prune(w.platforms)
    ensures Tick(w, draws).obstacles == Prune(w.obstacles)
    ensures Tick(w, draws).player.x == Max(w.player.x, 0.0) + w.player.dx
  {
  }

  /** The ground is never pruned: after any tick it is still first. */
  lemma GroundNeverPruned(w: World, draws: nat -> SpawnDraws)
    requires Inv(w) && DrawsFit(w, draws)
    ensures |Tick(w, draws).platforms| > 0
    ensures Tick(w, draws).platforms[0].color == Green
    ensures Tick(w, draws).platforms[0].width == Tick(w, draws).groundExtendX
    ensures Visible(Tick(w, draws).platforms[0])
  {
    TickInv(w, draws);
  }

  /** In a reachable world the running row agrees with the key that set the speed. */
  lemma RunningRowFollowsKeys(w: World)
    requires Inv(w) && !w.player.jumping && w.player.dy <= 0.0
    ensures w.player.dx == RunSpeed ==> SpriteCell(w.player).row == 3
    ensures w.player.dx == -RunSpeed ==> SpriteCell(w.player).row == 2
  {
  }
}
