/**
  The scroll and integration step of one tick: scrolling the world under a
  player past mid-screen, generation and ground extension, the left clamp,
  gravity and the floor clamp, and pruning of off-screen rectangles.
 */
module Physics {
  import opened Entities
  import opened Generator

  /** Scroll mode: the player is right of mid-screen and moving right. */
  predicate Scrolls(p: Player) {
    p.x > CanvasWidth / 2.0 && p.dx > 0.0
  }

  /** Moves every rectangle `s` to the left. */
  function ShiftAll(rs: seq<Rect>, s: real): (out: seq<Rect>)
    ensures |out| == |rs|
    ensures forall i :: 0 <= i < |rs| ==> out[i] == rs[i].(x := rs[i].x - s)
  {
    seq(|rs|, i requires 0 <= i < |rs| => rs[i].(x := rs[i].x - s))
  }

  /** Adds `s` to the distance travelled and moves everything on screen left by `s`. */
  function ScrollBy(w: World, s: real): (w': World)
    ensures w'.offsetX == w.offsetX + s
    ensures w'.player == w.player.(x := w.player.x - s)
    ensures |w'.platforms| == |w.platforms| && |w'.obstacles| == |w.obstacles|
    ensures forall i :: 0 <= i < |w.platforms| ==>
      w'.platforms[i] == w.platforms[i].(x := w.platforms[i].x - s)
    ensures forall i :: 0 <= i < |w.obstacles| ==>
      w'.obstacles[i] == w.obstacles[i].(x := w.obstacles[i].x - s)
    ensures w' == w.(player := w'.player, platforms := w'.platforms,
                     obstacles := w'.obstacles, offsetX := w'.offsetX)
  {
    w.(offsetX := w.offsetX + s,
       player := w.player.(x := w.player.x - s),
       platforms := ShiftAll(w.platforms, s),
       obstacles := ShiftAll(w.obstacles, s))
  }

  /**
    Grows the ground by one step when the viewport reaches its end, and
    keeps the ground platform's width equal to the new extent.
   */
  function ExtendGround(w: World): (w': World)
    requires w.groundExtendX < w.offsetX + CanvasWidth ==> |w.platforms| > 0
    ensures w.groundExtendX >= w.offsetX + CanvasWidth ==> w' == w
    ensures w.groundExtendX < w.offsetX + CanvasWidth ==>
      && w'.groundExtendX == w.groundExtendX + GroundStep
      && w'.platforms == w.platforms[0 := w.platforms[0].(width := w'.groundExtendX)]
    ensures |w'.platforms| == |w.platforms|
    ensures forall i :: 1 <= i < |w.platforms| ==> w'.platforms[i] == w.platforms[i]
    ensures |w.platforms| > 0 ==> w'.platforms[0] == w.platforms[0].(width := w'.platforms[0].width)
    ensures w' == w.(groundExtendX := w'.groundExtendX, platforms := w'.platforms)
  {
    if w.groundExtendX < w.offsetX + CanvasWidth then
      var g := w.groundExtendX + GroundStep;
      w.(groundExtendX := g, platforms := w.platforms[0 := w.platforms[0].(width := g)])
    else w
  }

  /**
    Scroll mode reads the ground: when the frontier loop runs or the
    ground is extended.
   */
  predicate ReadsGround(w: World) {
    && Scrolls(w.player)
    && (|| w.spawnX < w.offsetX + w.player.dx + CanvasWidth
        || w.groundExtendX < w.offsetX + w.player.dx + CanvasWidth)
  }

  /** Scroll by `s`, then run the frontier loop over the scrolled world. */
  function ScrollAndFill(w: World, s: real, draws: nat -> SpawnDraws): (f: World)
    requires w.spawnX < w.offsetX + s + CanvasWidth ==> |w.platforms| > 0
    requires DrawsFit(w, draws)
    ensures f.offsetX == w.offsetX + s
    ensures f.player == w.player.(x := w.player.x - s)
    ensures f.spawnX >= f.offsetX + CanvasWidth
    ensures w.spawnX <= f.spawnX
    ensures |w.platforms| <= |f.platforms| && |w.obstacles| <= |f.obstacles|
    ensures forall i :: 0 <= i < |w.platforms| ==>
      f.platforms[i] == w.platforms[i].(x := w.platforms[i].x - s)
    ensures forall i :: 0 <= i < |w.obstacles| ==>
      f.obstacles[i] == w.obstacles[i].(x := w.obstacles[i].x - s)
    ensures forall i :: |w.platforms| <= i < |f.platforms| ==>
      FreshPlatform(f.platforms[i], w.spawnX, f.platforms[0])
    ensures forall i :: |w.obstacles| <= i < |f.obstacles| ==>
      |f.platforms| > 0 && FreshObstacle(f.obstacles[i], w.spawnX, f.platforms[0])
    ensures forall i :: |w.platforms| <= i < |f.platforms| ==>
      f.platforms[i].x < f.offsetX + CanvasWidth
    ensures w.spawnX >= f.offsetX + CanvasWidth ==>
      |f.platforms| == |w.platforms| && |f.obstacles| == |w.obstacles|
    ensures f == w.(player := f.player, platforms := f.platforms, obstacles := f.obstacles,
                    offsetX := f.offsetX, spawnX := f.spawnX)
  {
    var w1 := ScrollBy(w, s);
    assert |w.platforms| > 0 ==> w1.platforms[0].y == w.platforms[0].y;
    assert w1.spawnX == w.spawnX && w1.offsetX == w.offsetX + s;
    var w2 := Frontier(w1, draws, 0);
    assert w2.player == w1.player && w2.offsetX == w1.offsetX;
    PrefixAgrees(w1.platforms, w2.platforms);
    PrefixAgrees(w1.obstacles, w2.obstacles);
    w2
  }

  /** A sequence that starts with `a` agrees with `a` at each of its positions. */
  lemma PrefixAgrees(a: seq<Rect>, b: seq<Rect>)
    requires |a| <= |b| && b[..|a|] == a
    ensures forall i :: 0 <= i < |a| ==> b[i] == a[i]
  {
    forall i | 0 <= i < |a| ensures b[i] == a[i] {
      assert b[i] == b[..|a|][i];
    }
  }

  /**
    The scroll section of a tick: in scroll mode, scroll by the player's
    speed, fill the frontier and extend the ground; otherwise nothing.
   */
  function Advance(w: World, draws: nat -> SpawnDraws): (a: World)
    requires ReadsGround(w) ==> |w.platforms| > 0
    requires DrawsFit(w, draws)
    ensures !Scrolls(w.player) ==> a == w
    ensures Scrolls(w.player) ==>
      && a.offsetX == w.offsetX + w.player.dx
      && a.player == w.player.(x := w.player.x - w.player.dx)
      && a.spawnX >= a.offsetX + CanvasWidth
      && w.spawnX <= a.spawnX
      && |w.platforms| <= |a.platforms| && |w.obstacles| <= |a.obstacles|
    ensures || a.groundExtendX == w.groundExtendX
            || (&& a.groundExtendX == w.groundExtendX + GroundStep
                && |a.platforms| > 0 && a.platforms[0].width == a.groundExtendX)
    ensures Scrolls(w.player) && w.groundExtendX + GroundStep >= a.offsetX + CanvasWidth ==>
      a.groundExtendX >= a.offsetX + CanvasWidth
    ensures Scrolls(w.player) ==>
      (a.groundExtendX == w.groundExtendX + GroundStep <==> w.groundExtendX < a.offsetX + CanvasWidth)
    ensures Scrolls(w.player) && w.spawnX >= a.offsetX + CanvasWidth ==>
      |a.platforms| == |w.platforms| && |a.obstacles| == |w.obstacles|
    ensures a == w.(player := a.player, platforms := a.platforms, obstacles := a.obstacles,
                    offsetX := a.offsetX, spawnX := a.spawnX, groundExtendX := a.groundExtendX)
  {
    if Scrolls(w.player) then
      var f := ScrollAndFill(w, w.player.dx, draws);
      ExtendGround(f)
    else w
  }

  /**
    In scroll mode every rectangle already in the world moves left by the
    player's speed and is otherwise unchanged, except that the ground may
    grow wider.
   */
  lemma AdvanceShifts(w: World, draws: nat -> SpawnDraws)
    requires Scrolls(w.player)
    requires ReadsGround(w) ==> |w.platforms| > 0
    requires DrawsFit(w, draws)
    ensures var a := Advance(w, draws);
      && (forall i :: 1 <= i < |w.platforms| ==>
            a.platforms[i] == w.platforms[i].(x := w.platforms[i].x - w.player.dx))
      && (forall i :: 0 <= i < |w.obstacles| ==>
            a.obstacles[i] == w.obstacles[i].(x := w.obstacles[i].x - w.player.dx))
      && (|w.platforms| > 0 ==>
            a.platforms[0] == w.platforms[0].(
              x := w.platforms[0].x - w.player.dx,
              width := if a.groundExtendX == w.groundExtendX then w.platforms[0].width
                       else a.groundExtendX))
  {
    var f := ScrollAndFill(w, w.player.dx, draws);
    assert Advance(w, draws) == ExtendGround(f);
  }

  /**
    In scroll mode every rectangle the frontier loop adds lies at or past
    the frontier as it stood before the tick, and every platform it adds
    was placed while the frontier was still inside the viewport.
   */
  lemma AdvanceFresh(w: World, draws: nat -> SpawnDraws)
    requires Scrolls(w.player)
    requires ReadsGround(w) ==> |w.platforms| > 0
    requires DrawsFit(w, draws)
    ensures var a := Advance(w, draws);
      && (forall i :: |w.platforms| <= i < |a.platforms| ==>
            FreshPlatform(a.platforms[i], w.spawnX, a.platforms[0]))
      && (forall i :: |w.obstacles| <= i < |a.obstacles| ==>
            |a.platforms| > 0 && FreshObstacle(a.obstacles[i], w.spawnX, a.platforms[0]))
      && (forall i :: |w.platforms| <= i < |a.platforms| ==>
            a.platforms[i].x < a.offsetX + CanvasWidth)
  {
    var f := ScrollAndFill(w, w.player.dx, draws);
    var a := ExtendGround(f);
    assert Advance(w, draws) == a;
    assert |a.platforms| > 0 ==>
      a.platforms[0].y == f.platforms[0].y && a.platforms[0].height == f.platforms[0].height;
  }

  /** The left boundary: a player left of the screen edge is put back on it. */
  function ClampLeft(p: Player): (q: Player)
    ensures q.x >= 0.0
    ensures q.x == Max(p.x, 0.0)
    ensures p.x >= 0.0 ==> q == p
    ensures q == p.(x := q.x)
  {
    if p.x < 0.0 then p.(x := 0.0) else p
  }

  /** One step of gravity and velocity. */
  function Integrate(p: Player): (q: Player)
    ensures q.dy - p.dy == Gravity
    ensures q.x - p.x == p.dx && q.y - p.y == q.dy
    ensures q == p.(x := q.x, y := q.y, dy := q.dy)
  {
    var dy := p.dy + Gravity;
    p.(dy := dy, x := p.x + p.dx, y := p.y + dy)
  }

  /** The safety net at the bottom of the canvas. */
  function FloorClamp(p: Player): (q: Player)
    ensures q.y + PlayerHeight <= CanvasHeight
    ensures p.y + PlayerHeight <= CanvasHeight ==> q == p
    ensures p.y + PlayerHeight > CanvasHeight ==>
      q.y + PlayerHeight == CanvasHeight && q.dy == 0.0 && !q.jumping
    ensures q == p.(y := q.y, dy := q.dy, jumping := q.jumping)
  {
    if p.y + PlayerHeight > CanvasHeight then
      p.(y := CanvasHeight - PlayerHeight, dy := 0.0, jumping := false)
    else p
  }

  /** Clamp, integrate, and catch the player at the bottom, in source order. */
  function Move(p: Player): (q: Player)
    ensures q.x == Max(p.x, 0.0) + p.dx
    ensures q.y + PlayerHeight <= CanvasHeight
    ensures p.y + p.dy + Gravity + PlayerHeight <= CanvasHeight ==>
      q.y == p.y + p.dy + Gravity && q.dy == p.dy + Gravity && q.jumping == p.jumping
    ensures p.y + p.dy + Gravity + PlayerHeight > CanvasHeight ==>
      q.y + PlayerHeight == CanvasHeight && q.dy == 0.0 && !q.jumping
    ensures q == p.(x := q.x, y := q.y, dy := q.dy, jumping := q.jumping)
  {
    FloorClamp(Integrate(ClampLeft(p)))
  }

  /** A rectangle whose right edge is still right of the screen's left edge. */
  predicate Visible(r: Rect) {
    r.x + r.width > 0.0
  }

  /** `a` is `b` with some elements deleted. */
  predicate Subsequence<T(==)>(a: seq<T>, b: seq<T>)
    decreases |b|
  {
    || |a| == 0
    || (&& |b| > 0
        && ((a[0] == b[0] && Subsequence(a[1..], b[1..])) || Subsequence(a, b[1..])))
  }

  /**
    Drops the rectangles that have scrolled off to the left, keeping the
    others unchanged and in order.
   */
  function Prune(rs: seq<Rect>): (out: seq<Rect>)
    ensures Subsequence(out, rs)
    ensures forall i :: 0 <= i < |out| ==> Visible(out[i])
    ensures forall r :: Visible(r) ==> multiset(out)[r] == multiset(rs)[r]
    decreases |rs|
  {
    if |rs| == 0 then []
    else
      var rest := Prune(rs[1..]);
      assert rs == [rs[0]] + rs[1..];
      if Visible(rs[0]) then
        assert ([rs[0]] + rest)[1..] == rest;
        [rs[0]] + rest
      else
        assert |rest| > 0 ==> rest[0] != rs[0];
        rest
  }

  /** A visible first rectangle survives pruning and stays first. */
  lemma PruneKeepsVisibleHead(rs: seq<Rect>)
    requires |rs| > 0 && Visible(rs[0])
    ensures |Prune(rs)| > 0 && Prune(rs)[0] == rs[0]
  {
  }
}
