/**
  Procedural generation ahead of the scroll frontier: the rejection loop
  that keeps a new rectangle off the ground band, one platform, one
  obstacle attempt, and the loop that fills the frontier.
 */
module Generator {
  import opened Entities

  /** The candidate top of one draw: uniform in [150, 350). */
  function SampleY(u: Unit): real {
    u * 200.0 + 150.0
  }

  /**
    A 20-high rectangle at `y` misses the ground band that starts at
    `top` and is `height` high.
   */
  predicate GroundSafe(y: real, top: real, height: real) {
    !(y + 20.0 > top && y < top + height)
  }

  predicate Accepts(u: Unit, top: real, height: real) {
    GroundSafe(SampleY(u), top, height)
  }

  /**
    The draws handed to one do-while loop: some draw is accepted, so the
    loop stops within them.
   */
  predicate Stops(us: seq<Unit>, top: real, height: real) {
    exists i :: 0 <= i < |us| && Accepts(us[i], top, height)
  }

  /** The index of the draw at which the do-while loop stops. */
  function StopIndex(us: seq<Unit>, top: real, height: real): (k: nat)
    requires Stops(us, top, height)
    ensures k < |us| && Accepts(us[k], top, height)
    ensures forall j :: 0 <= j < k ==> !Accepts(us[j], top, height)
    decreases |us|
  {
    if Accepts(us[0], top, height) then 0
    else
      assert Stops(us[1..], top, height) by {
        var i :| 0 <= i < |us| && Accepts(us[i], top, height);
        assert us[1..][i - 1] == us[i];
      }
      1 + StopIndex(us[1..], top, height)
  }

  /** The `y` the do-while loop settles on. */
  function RedrawY(us: seq<Unit>, top: real, height: real): (y: real)
    requires Stops(us, top, height)
    ensures GroundSafe(y, top, height)
    ensures 150.0 <= y < 350.0
    ensures exists k :: 0 <= k < |us| && y == SampleY(us[k])
    ensures y == SampleY(us[StopIndex(us, top, height)])
  {
    SampleY(us[StopIndex(us, top, height)])
  }

  /**
    The Math.random() values one pass of the frontier loop consumes. The
    `Math.random() < 2` test between the two calls always passes, so its
    draw is not recorded.
   */
  datatype SpawnDraws = SpawnDraws(
    platformYs: seq<Unit>,
    platformWidth: Unit,
    platformGap: Unit,
    obstacleYs: seq<Unit>,
    obstacleWidth: Unit,
    obstacleGap: Unit)

  predicate Feasible(d: SpawnDraws, top: real, height: real) {
    Stops(d.platformYs, top, height) && Stops(d.obstacleYs, top, height)
  }

  /** Every pass of the frontier loop gets draws whose rejection loops stop. */
  ghost predicate DrawsFit(w: World, draws: nat -> SpawnDraws) {
    |w.platforms| > 0 ==>
      forall i :: Feasible(draws(i), w.platforms[0].y, w.platforms[0].height)
  }

  /** What every generated platform satisfies. */
  predicate FreshPlatform(r: Rect, frontier: real, ground: Rect) {
    && r.x >= frontier
    && 150.0 <= r.y < 350.0
    && GroundSafe(r.y, ground.y, ground.height)
    && 50.0 <= r.width < 150.0
    && r.height == 20.0
    && r.color == Brown
  }

  /** What every generated obstacle satisfies. */
  predicate FreshObstacle(r: Rect, frontier: real, ground: Rect) {
    && r.x >= frontier
    && 150.0 <= r.y < 350.0
    && GroundSafe(r.y, ground.y, ground.height)
    && 30.0 <= r.width < 80.0
    && r.height == 20.0
    && r.color == Black
  }

  /** Appends one platform at the frontier and moves the frontier on. */
  function GeneratePlatform(w: World, d: SpawnDraws): (w': World)
    requires |w.platforms| > 0
    requires Stops(d.platformYs, w.platforms[0].y, w.platforms[0].height)
    ensures |w'.platforms| == |w.platforms| + 1
    ensures w'.platforms[..|w.platforms|] == w.platforms
    ensures FreshPlatform(w'.platforms[|w.platforms|], w.spawnX, w.platforms[0])
    ensures w'.platforms[|w.platforms|].x == w.spawnX
    ensures w.spawnX + 100.0 <= w'.spawnX < w.spawnX + 250.0
    ensures w' == w.(platforms := w'.platforms, spawnX := w'.spawnX)
  {
    var ground := w.platforms[0];
    var y := RedrawY(d.platformYs, ground.y, ground.height);
    var width := d.platformWidth * 100.0 + 50.0;
    var r := Rect(w.spawnX, y, width, 20.0, Brown);
    w.(platforms := w.platforms + [r],
       spawnX := w.spawnX + d.platformGap * 150.0 + 100.0)
  }

  /** The rectangle an obstacle attempt proposes. */
  function ObstacleCandidate(w: World, d: SpawnDraws): (c: Rect)
    requires |w.platforms| > 0
    requires Stops(d.obstacleYs, w.platforms[0].y, w.platforms[0].height)
    ensures FreshObstacle(c, w.spawnX, w.platforms[0])
    ensures c.x == w.spawnX
  {
    var ground := w.platforms[0];
    var y := RedrawY(d.obstacleYs, ground.y, ground.height);
    Rect(w.spawnX, y, d.obstacleWidth * 50.0 + 30.0, 20.0, Black)
  }

  /** Some rectangle of `rs` strictly overlaps `b`. */
  predicate Blocked(b: Box, rs: seq<Rect>) {
    exists i :: 0 <= i < |rs| && Overlap(b, Bounds(rs[i]))
  }

  /** The scan over the platforms that stops at the first overlap. */
  function AnyOverlap(b: Box, rs: seq<Rect>): (hit: bool)
    ensures hit <==> Blocked(b, rs)
    decreases |rs|
  {
    if |rs| == 0 then false
    else if Overlap(b, Bounds(rs[0])) then true
    else
      var rest := AnyOverlap(b, rs[1..]);
      assert Blocked(b, rs[1..]) ==> Blocked(b, rs) by {
        if Blocked(b, rs[1..]) {
          var i :| 0 <= i < |rs[1..]| && Overlap(b, Bounds(rs[1..][i]));
          assert rs[i + 1] == rs[1..][i];
        }
      }
      assert Blocked(b, rs) ==> Blocked(b, rs[1..]) by {
        if Blocked(b, rs) {
          var i :| 0 <= i < |rs| && Overlap(b, Bounds(rs[i]));
          assert i > 0;
          assert rs[1..][i - 1] == rs[i];
        }
      }
      rest
  }

  /**
    Places an obstacle at the frontier unless it strictly overlaps an
    existing platform; only a placed obstacle moves the frontier.
   */
  function GenerateObstacle(w: World, d: SpawnDraws): (w': World)
    requires |w.platforms| > 0
    requires Stops(d.obstacleYs, w.platforms[0].y, w.platforms[0].height)
    ensures Blocked(Bounds(ObstacleCandidate(w, d)), w.platforms) ==> w' == w
    ensures !Blocked(Bounds(ObstacleCandidate(w, d)), w.platforms) ==>
      && w'.obstacles == w.obstacles + [ObstacleCandidate(w, d)]
      && w.spawnX + 50.0 <= w'.spawnX < w.spawnX + 150.0
    ensures w' == w.(obstacles := w'.obstacles, spawnX := w'.spawnX)
  {
    var c := ObstacleCandidate(w, d);
    if AnyOverlap(Bounds(c), w.platforms) then w
    else
      w.(obstacles := w.obstacles + [c],
         spawnX := w.spawnX + d.obstacleGap * 100.0 + 50.0)
  }

  /** No rectangle of `os` strictly overlaps one of `ps`. */
  predicate Apart(os: seq<Rect>, ps: seq<Rect>) {
    forall i, j :: 0 <= i < |os| && 0 <= j < |ps| ==>
      !Overlap(Bounds(os[i]), Bounds(ps[j]))
  }

  /** One pass of the loop body: a platform, then an obstacle attempt. */
  function SpawnOnce(w: World, d: SpawnDraws): (w': World)
    requires |w.platforms| > 0
    requires Feasible(d, w.platforms[0].y, w.platforms[0].height)
    ensures |w'.platforms| == |w.platforms| + 1
    ensures w'.platforms[..|w.platforms|] == w.platforms
    ensures FreshPlatform(w'.platforms[|w.platforms|], w.spawnX, w.platforms[0])
    ensures |w.obstacles| <= |w'.obstacles| <= |w.obstacles| + 1
    ensures w'.obstacles[..|w.obstacles|] == w.obstacles
    ensures forall i :: |w.obstacles| <= i < |w'.obstacles| ==>
      FreshObstacle(w'.obstacles[i], w.spawnX, w.platforms[0])
    ensures Apart(w'.obstacles[|w.obstacles|..], w'.platforms)
    ensures w'.platforms[|w.platforms|].x == w.spawnX
    ensures var w1 := GeneratePlatform(w, d);
      |w'.obstacles| == |w.obstacles| + 1 <==> !Blocked(Bounds(ObstacleCandidate(w1, d)), w1.platforms)
    ensures var w1 := GeneratePlatform(w, d); var c := ObstacleCandidate(w1, d);
      if Blocked(Bounds(c), w1.platforms) then
        w'.obstacles == w.obstacles && w'.spawnX == w1.spawnX
      else
        w'.obstacles == w.obstacles + [c] && w1.spawnX + 50.0 <= w'.spawnX < w1.spawnX + 150.0
    ensures w.spawnX + 100.0 <= w'.spawnX < w.spawnX + 400.0
    ensures w' == w.(platforms := w'.platforms, obstacles := w'.obstacles, spawnX := w'.spawnX)
  {
    var w1 := GeneratePlatform(w, d);
    assert w1.platforms[0] == w.platforms[0];
    var w2 := GenerateObstacle(w1, d);
    if w2.obstacles == w1.obstacles then
      assert w2.obstacles[|w.obstacles|..] == [];
      w2
    else
      var c := ObstacleCandidate(w1, d);
      assert w2.obstacles[|w.obstacles|..] == [c];
      assert !Blocked(Bounds(c), w1.platforms);
      w2
  }

  /**
    The loop of main.js:269-272: generate while the frontier lies inside
    the viewport that starts at `offsetX`. Pass `k` uses `draws(k)`.
   */
  function Frontier(w: World, draws: nat -> SpawnDraws, k: nat): (w': World)
    requires w.spawnX < w.offsetX + CanvasWidth ==> |w.platforms| > 0
    requires DrawsFit(w, draws)
    ensures w'.spawnX >= w.offsetX + CanvasWidth
    ensures w.spawnX >= w.offsetX + CanvasWidth ==> w' == w
    ensures w.spawnX < w.offsetX + CanvasWidth ==>
      && |w'.platforms| > |w.platforms|
      && w'.spawnX < w.offsetX + CanvasWidth + 400.0
    ensures w.spawnX <= w'.spawnX
    ensures |w.platforms| <= |w'.platforms| && w'.platforms[..|w.platforms|] == w.platforms
    ensures |w.obstacles| <= |w'.obstacles| && w'.obstacles[..|w.obstacles|] == w.obstacles
    ensures w'.spawnX - w.spawnX >= 100.0 * (|w'.platforms| - |w.platforms|) as real
    ensures |w'.obstacles| - |w.obstacles| <= |w'.platforms| - |w.platforms|
    ensures forall i :: |w.platforms| <= i < |w'.platforms| ==>
      FreshPlatform(w'.platforms[i], w.spawnX, w'.platforms[0])
    ensures forall i :: |w.obstacles| <= i < |w'.obstacles| ==>
      FreshObstacle(w'.obstacles[i], w.spawnX, w'.platforms[0])
    ensures Apart(w'.obstacles[|w.obstacles|..], w.platforms)
    ensures forall i :: |w.platforms| <= i < |w'.platforms| ==>
      w'.platforms[i].x < w.offsetX + CanvasWidth
    ensures w' == w.(platforms := w'.platforms, obstacles := w'.obstacles, spawnX := w'.spawnX)
    decreases (w.offsetX + CanvasWidth - w.spawnX).Floor
  {
    if w.spawnX < w.offsetX + CanvasWidth then
      var w1 := SpawnOnce(w, draws(k));
      assert w1.platforms[0] == w.platforms[0] && w1.offsetX == w.offsetX;
      MeasureDrops(w.offsetX + CanvasWidth - w.spawnX, w1.offsetX + CanvasWidth - w1.spawnX);
      var w2 := Frontier(w1, draws, k + 1);
      FrontierStep(w, w1, w2);
      FrontierInView(w, w1, w2);
      w2
    else w
  }

  /** The frontier loop's measure: a pass that moves the frontier 100 on lowers its floor. */
  lemma MeasureDrops(before: real, after: real)
    requires 0.0 < before && after <= before - 100.0
    ensures 0 <= before.Floor && after.Floor < before.Floor
  {
  }

  /**
    Every platform the loop adds was placed while the frontier was still
    inside the viewport: the pass that adds it starts inside.
   */
  lemma FrontierInView(w: World, w1: World, w2: World)
    requires w.spawnX < w.offsetX + CanvasWidth && w1.offsetX == w.offsetX
    requires |w1.platforms| == |w.platforms| + 1 && w1.platforms[|w.platforms|].x == w.spawnX
    requires |w1.platforms| <= |w2.platforms| && w2.platforms[..|w1.platforms|] == w1.platforms
    requires forall i :: |w1.platforms| <= i < |w2.platforms| ==>
      w2.platforms[i].x < w1.offsetX + CanvasWidth
    ensures forall i :: |w.platforms| <= i < |w2.platforms| ==>
      w2.platforms[i].x < w.offsetX + CanvasWidth
  {
    assert w2.platforms[|w.platforms|] == w2.platforms[..|w1.platforms|][|w.platforms|];
  }

  /** Chains the contract of one pass with that of the rest of the loop. */
  lemma FrontierStep(w: World, w1: World, w2: World)
    requires |w.platforms| > 0
    requires |w1.platforms| == |w.platforms| + 1
    requires w1.platforms[..|w.platforms|] == w.platforms
    requires FreshPlatform(w1.platforms[|w.platforms|], w.spawnX, w.platforms[0])
    requires |w.obstacles| <= |w1.obstacles| <= |w.obstacles| + 1
    requires w1.obstacles[..|w.obstacles|] == w.obstacles
    requires forall i :: |w.obstacles| <= i < |w1.obstacles| ==>
      FreshObstacle(w1.obstacles[i], w.spawnX, w.platforms[0])
    requires Apart(w1.obstacles[|w.obstacles|..], w1.platforms)
    requires w.spawnX + 100.0 <= w1.spawnX
    requires |w1.platforms| <= |w2.platforms| && w2.platforms[..|w1.platforms|] == w1.platforms
    requires |w1.obstacles| <= |w2.obstacles| && w2.obstacles[..|w1.obstacles|] == w1.obstacles
    requires w2.spawnX - w1.spawnX >= 100.0 * (|w2.platforms| - |w1.platforms|) as real
    requires |w2.obstacles| - |w1.obstacles| <= |w2.platforms| - |w1.platforms|
    requires forall i :: |w1.platforms| <= i < |w2.platforms| ==>
      FreshPlatform(w2.platforms[i], w1.spawnX, w2.platforms[0])
    requires forall i :: |w1.obstacles| <= i < |w2.obstacles| ==>
      FreshObstacle(w2.obstacles[i], w1.spawnX, w2.platforms[0])
    requires Apart(w2.obstacles[|w1.obstacles|..], w1.platforms)
    ensures |w.platforms| <= |w2.platforms| && w2.platforms[..|w.platforms|] == w.platforms
    ensures |w.obstacles| <= |w2.obstacles| && w2.obstacles[..|w.obstacles|] == w.obstacles
    ensures w2.spawnX - w.spawnX >= 100.0 * (|w2.platforms| - |w.platforms|) as real
    ensures |w2.obstacles| - |w.obstacles| <= |w2.platforms| - |w.platforms|
    ensures forall i :: |w.platforms| <= i < |w2.platforms| ==>
      FreshPlatform(w2.platforms[i], w.spawnX, w2.platforms[0])
    ensures forall i :: |w.obstacles| <= i < |w2.obstacles| ==>
      FreshObstacle(w2.obstacles[i], w.spawnX, w2.platforms[0])
    ensures Apart(w2.obstacles[|w.obstacles|..], w.platforms)
  {
    var n, m := |w.platforms|, |w.obstacles|;
    assert w2.platforms[..n] == w.platforms by {
      assert w2.platforms[..n] == w2.platforms[..|w1.platforms|][..n];
    }
    assert w2.obstacles[..m] == w.obstacles by {
      assert w2.obstacles[..m] == w2.obstacles[..|w1.obstacles|][..m];
    }
    assert w2.platforms[0] == w.platforms[0] by {
      assert w2.platforms[0] == w2.platforms[..n][0];
    }
    forall i | m <= i < |w2.obstacles|
      ensures FreshObstacle(w2.obstacles[i], w.spawnX, w2.platforms[0])
    {
      if i < |w1.obstacles| {
        assert w2.obstacles[i] == w2.obstacles[..|w1.obstacles|][i];
      }
    }
    forall i | n <= i < |w2.platforms|
      ensures FreshPlatform(w2.platforms[i], w.spawnX, w2.platforms[0])
    {
      if i == n {
        assert w2.platforms[i] == w2.platforms[..|w1.platforms|][i];
      }
    }
    forall i, j | 0 <= i < |w2.obstacles[m..]| && 0 <= j < n
      ensures !Overlap(Bounds(w2.obstacles[m..][i]), Bounds(w.platforms[j]))
    {
      assert w.platforms[j] == w1.platforms[j];
      if m + i < |w1.obstacles| {
        assert w2.obstacles[m..][i] == w1.obstacles[m..][i] by {
          assert w2.obstacles[m + i] == w2.obstacles[..|w1.obstacles|][m + i];
        }
      } else {
        assert w2.obstacles[m..][i] == w2.obstacles[|w1.obstacles|..][m + i - |w1.obstacles|];
      }
    }
  }
}
