/**
  The two collision passes of a tick: landing on platforms and death on
  obstacles. Both use the player's inset hit box, `Entities.HitBox`.
 */
module Collision {
  import opened Entities

  /**
    Platform `r` catches the player: the hit box strictly overlaps it, the
    player is falling, and the box's bottom was at or above the platform's
    top before this tick's vertical step.
   */
  predicate Lands(p: Player, r: Rect) {
    && Overlap(HitBox(p), Bounds(r))
    && p.dy > 0.0
    && HitBox(p).bottom - p.dy <= r.y
  }

  /** The check of one platform in the landing pass. */
  function LandOn(p: Player, r: Rect): (q: Player)
    ensures Lands(p, r) ==>
      && HitBox(q).bottom == r.y
      && q.dy == 0.0
      && !q.jumping
      && q == p.(y := q.y, dy := 0.0, jumping := false)
    ensures !Lands(p, r) ==> q == p
  {
    if Lands(p, r) then
      p.(y := r.y - PlayerHeight + 16.0, dy := 0.0, jumping := false)
    else p
  }

  /** A player who is not falling lands on nothing. */
  lemma RestingLandsNowhere(p: Player, r: Rect)
    requires p.dy <= 0.0
    ensures LandOn(p, r) == p
  {
  }

  /** The landing pass: each platform in order checks the player as it now is. */
  function Land(p: Player, ps: seq<Rect>): (q: Player)
    ensures (forall i :: 0 <= i < |ps| ==> !Lands(p, ps[i])) ==> q == p
    ensures q == p.(y := q.y, dy := q.dy, jumping := q.jumping)
    decreases |ps|
  {
    if |ps| == 0 then p
    else
      var p1 := LandOn(p, ps[0]);
      assert !Lands(p, ps[0]) ==> p1 == p;
      Land(p1, ps[1..])
  }

  /**
    The landing pass lands the player on the first platform that catches
    it and on no other: once landed the player is no longer falling.
   */
  lemma {:induction false} LandOnFirst(p: Player, ps: seq<Rect>, i: nat)
    requires i < |ps| && Lands(p, ps[i])
    requires forall j :: 0 <= j < i ==> !Lands(p, ps[j])
    ensures Land(p, ps) == LandOn(p, ps[i])
    decreases i
  {
    if i == 0 {
      var q := LandOn(p, ps[0]);
      assert forall j :: 0 <= j < |ps[1..]| ==> !Lands(q, ps[1..][j]);
    } else {
      assert LandOn(p, ps[0]) == p;
      assert ps[1..][i - 1] == ps[i];
      LandOnFirst(p, ps[1..], i - 1);
    }
  }

  /**
    The outcome of the landing pass: either nothing catches the player and
    it is unchanged, or it rests with its hit box bottom on a platform's top.
   */
  lemma LandOutcome(p: Player, ps: seq<Rect>)
    ensures || (Land(p, ps) == p && forall i :: 0 <= i < |ps| ==> !Lands(p, ps[i]))
            || (exists i :: && 0 <= i < |ps| && Lands(p, ps[i])
                  && HitBox(Land(p, ps)).bottom == ps[i].y
                  && Land(p, ps).dy == 0.0
                  && !Land(p, ps).jumping)
  {
    if exists i :: 0 <= i < |ps| && Lands(p, ps[i]) {
      var i := FirstLanding(p, ps);
      LandOnFirst(p, ps, i);
    }
  }

  /** The first platform that catches the player. */
  function FirstLanding(p: Player, ps: seq<Rect>): (i: nat)
    requires exists i :: 0 <= i < |ps| && Lands(p, ps[i])
    ensures i < |ps| && Lands(p, ps[i])
    ensures forall j :: 0 <= j < i ==> !Lands(p, ps[j])
    decreases |ps|
  {
    if Lands(p, ps[0]) then 0
    else
      assert exists i :: 0 <= i < |ps[1..]| && Lands(p, ps[1..][i]) by {
        var i :| 0 <= i < |ps| && Lands(p, ps[i]);
        assert ps[1..][i - 1] == ps[i];
      }
      1 + FirstLanding(p, ps[1..])
  }

  /** gameOver() of main.js: set the flag and register the click listener. */
  function GameOver(w: World): (w': World)
    ensures w'.gameOver && w'.listening
    ensures w' == w.(gameOver := true, listening := true)
  {
    w.(gameOver := true, listening := true)
  }

  /** Some obstacle strictly overlaps the player's hit box. */
  predicate Hit(p: Player, os: seq<Rect>) {
    exists i :: 0 <= i < |os| && Overlap(HitBox(p), Bounds(os[i]))
  }

  /**
    The death pass: every obstacle the hit box overlaps calls gameOver();
    the calls after the first change nothing.
   */
  function CheckEach(w: World, os: seq<Rect>): (w': World)
    ensures Hit(w.player, os) ==> w' == GameOver(w)
    ensures !Hit(w.player, os) ==> w' == w
    decreases |os|
  {
    if |os| == 0 then w
    else
      var w1 := if Overlap(HitBox(w.player), Bounds(os[0])) then GameOver(w) else w;
      assert Hit(w.player, os) <==> Overlap(HitBox(w.player), Bounds(os[0])) || Hit(w.player, os[1..]) by {
        if Hit(w.player, os) && !Overlap(HitBox(w.player), Bounds(os[0])) {
          var i :| 0 <= i < |os| && Overlap(HitBox(w.player), Bounds(os[i]));
          assert os[1..][i - 1] == os[i];
        }
        if Hit(w.player, os[1..]) {
          var i :| 0 <= i < |os[1..]| && Overlap(HitBox(w.player), Bounds(os[1..][i]));
          assert os[i + 1] == os[1..][i];
        }
      }
      CheckEach(w1, os[1..])
  }

  /** checkForObstaclesCollision over the world's own obstacles. */
  function CheckObstacles(w: World): (w': World)
    ensures w'.gameOver <==> w.gameOver || Hit(w.player, w.obstacles)
    ensures Hit(w.player, w.obstacles) ==> w'.listening
    ensures !Hit(w.player, w.obstacles) ==> w' == w
    ensures w' == w.(gameOver := w'.gameOver, listening := w'.listening)
  {
    CheckEach(w, w.obstacles)
  }
}
