/** Obstacle movement, culling with scoring, spawning and the collision scan. */
module Obstacles {
  import opened Config
  import opened Geometry
  import opened State
  import opened Score

  // ---------------------------------------------------------------- movement

  /** Every obstacle moves left by the current speed; nothing else changes. */
  function Advance(obs: seq<Rect>, speed: real): (r: seq<Rect>)
    ensures |r| == |obs|
    ensures forall i :: 0 <= i < |r| ==> r[i] == obs[i].(x := obs[i].x - speed)
  {
    seq(|obs|, i requires 0 <= i < |obs| => obs[i].(x := obs[i].x - speed))
  }

  /** n frames of movement at a fixed speed. */
  function AdvanceN(obs: seq<Rect>, speed: real, n: nat): seq<Rect> {
    if n == 0 then obs else Advance(AdvanceN(obs, speed, n - 1), speed)
  }

  /** Two moves in a row are one move by the sum of the speeds. */
  lemma AdvanceTwice(obs: seq<Rect>, a: real, b: real)
    ensures Advance(Advance(obs, a), b) == Advance(obs, a + b)
  {
    var l := Advance(Advance(obs, a), b);
    var r := Advance(obs, a + b);
    assert forall i :: 0 <= i < |l| ==> l[i] == r[i];
  }

  /** n frames at a fixed speed are one move by n times the speed. */
  lemma {:induction false} AdvanceNIsOneMove(obs: seq<Rect>, speed: real, n: nat)
    ensures AdvanceN(obs, speed, n) == Advance(obs, n as real * speed)
  {
    if n == 0 {
      var r := Advance(obs, 0.0);
      assert forall i :: 0 <= i < |r| ==> r[i] == obs[i];
      assert r == obs;
    } else {
      var k: nat := n - 1;
      var m := k as real * speed;
      AdvanceNIsOneMove(obs, speed, k);
      assert AdvanceN(obs, speed, n) == Advance(Advance(obs, m), speed);
      AdvanceTwice(obs, m, speed);
      assert m + speed == n as real * speed;
    }
  }

  /** Movement keeps every obstacle on the ground with its size. */
  lemma AdvanceKeepsObstaclesOk(obs: seq<Rect>, speed: real, ground: real)
    requires forall o :: o in obs ==> ObstacleOk(o, ground)
    ensures forall o :: o in Advance(obs, speed) ==> ObstacleOk(o, ground)
  {
    var r := Advance(obs, speed);
    forall o | o in r
      ensures ObstacleOk(o, ground)
    {
      var i :| 0 <= i < |r| && r[i] == o;
      assert obs[i] in obs;
    }
  }

  // ----------------------------------------------------------------- culling

  /** The right edge has passed the left border of the canvas. */
  predicate OffScreen(o: Rect) {
    o.x + o.w < 0.0
  }

  function OffCount(obs: seq<Rect>): nat {
    if |obs| == 0 then 0
    else OffCount(obs[..|obs| - 1]) + (if OffScreen(obs[|obs| - 1]) then 1 else 0)
  }

  /** a can be obtained from b by deleting elements: the order of a is the order in b. */
  predicate Subsequence<T(==)>(a: seq<T>, b: seq<T>)
    decreases |b|
  {
    if |a| == 0 then true
    else if |b| == 0 then false
    else
      (a[|a| - 1] == b[|b| - 1] && Subsequence(a[..|a| - 1], b[..|b| - 1]))
      || Subsequence(a, b[..|b| - 1])
  }

  /** The obstacles still visible, in their original order. */
  function Keep(obs: seq<Rect>): (r: seq<Rect>)
    ensures |r| + OffCount(obs) == |obs|
  {
    if |obs| == 0 then []
    else
      var last := obs[|obs| - 1];
      Keep(obs[..|obs| - 1]) + (if OffScreen(last) then [] else [last])
  }

  /** Culling removes exactly the off-screen obstacles. */
  lemma {:induction false} KeepMembers(obs: seq<Rect>)
    ensures forall o :: o in Keep(obs) <==> o in obs && !OffScreen(o)
  {
    if |obs| > 0 {
      var init := obs[..|obs| - 1];
      KeepMembers(init);
      assert obs == init + [obs[|obs| - 1]];
    }
  }

  /** The survivors keep their relative order. */
  lemma {:induction false} KeepOrdered(obs: seq<Rect>)
    ensures Subsequence(Keep(obs), obs)
  {
    if |obs| > 0 {
      var init := obs[..|obs| - 1];
      var last := obs[|obs| - 1];
      var r := Keep(obs);
      KeepOrdered(init);
      if OffScreen(last) {
        assert r == Keep(init);
      } else {
        assert r[..|r| - 1] == Keep(init);
        assert r[|r| - 1] == last;
      }
    }
  }

  /** With nothing off screen, culling keeps the list as it is. */
  lemma {:induction false} KeepAllVisible(obs: seq<Rect>)
    requires forall i :: 0 <= i < |obs| ==> !OffScreen(obs[i])
    ensures Keep(obs) == obs
    ensures OffCount(obs) == 0
  {
    if |obs| > 0 {
      KeepAllVisible(obs[..|obs| - 1]);
      assert obs == obs[..|obs| - 1] + [obs[|obs| - 1]];
    }
  }

  /** The high score after n points are awarded one at a time from s.score. */
  function HighAfter(s: RunState, n: nat): int {
    if n == 0 then s.high
    else if s.score + n > s.high then s.score + n
    else s.high
  }

  /** The state the loop over the first i obstacles should produce: the
      visible ones kept in order, the rest untouched, one point per removal. */
  function CullExpected(s: RunState, i: nat): RunState
    requires i <= |s.obstacles|
  {
    var n := OffCount(s.obstacles[..i]);
    s.(obstacles := Keep(s.obstacles[..i]) + s.obstacles[i..],
       score := s.score + n,
       high := HighAfter(s, n))
  }

  /** Removing an off-screen obstacle at index i-1 and awarding its point
      leaves the same expected outcome for the indices below. */
  lemma CullExpectedDrop(s: RunState, i: nat)
    requires 0 < i <= |s.obstacles| && OffScreen(s.obstacles[i - 1])
    ensures CullExpected(SetScore(s.(obstacles := s.obstacles[..i - 1] + s.obstacles[i..]), s.score + 1), i - 1)
            == CullExpected(s, i)
  {
    var obs := s.obstacles;
    var next := SetScore(s.(obstacles := obs[..i - 1] + obs[i..]), s.score + 1);
    var n := OffCount(obs[..i - 1]);
    assert obs[..i] == obs[..i - 1] + [obs[i - 1]];
    assert obs[..i][..i - 1] == obs[..i - 1];
    assert next.obstacles[..i - 1] == obs[..i - 1];
    assert next.obstacles[i - 1..] == obs[i..];
    assert Keep(obs[..i]) == Keep(obs[..i - 1]);
    assert OffCount(obs[..i]) == n + 1;
    assert HighAfter(next, n) == HighAfter(s, n + 1);
  }

  /** Keeping a visible obstacle at index i-1 leaves the same expected outcome. */
  lemma CullExpectedKeep(s: RunState, i: nat)
    requires 0 < i <= |s.obstacles| && !OffScreen(s.obstacles[i - 1])
    ensures CullExpected(s, i - 1) == CullExpected(s, i)
  {
    var obs := s.obstacles;
    var o := obs[i - 1];
    assert obs[..i] == obs[..i - 1] + [o];
    assert obs[..i][..i - 1] == obs[..i - 1];
    assert obs[i - 1..] == [o] + obs[i..];
    assert Keep(obs[..i]) == Keep(obs[..i - 1]) + [o];
    assert OffCount(obs[..i]) == OffCount(obs[..i - 1]);
  }

  /** The cull loop of the frame: indices i-1 down to 0 are examined, an
      off-screen obstacle is spliced out and the score set one higher. The
      result agrees with the reference description of the loop. */
  function CullBelow(s: RunState, i: nat): (r: RunState)
    requires i <= |s.obstacles|
    ensures r == CullExpected(s, i)
    decreases i
  {
    if i == 0 then
      assert s.obstacles[..0] == [];
      assert s.obstacles[0..] == s.obstacles;
      s
    else if OffScreen(s.obstacles[i - 1]) then
      CullExpectedDrop(s, i);
      CullBelow(SetScore(s.(obstacles := s.obstacles[..i - 1] + s.obstacles[i..]), s.score + 1), i - 1)
    else
      CullExpectedKeep(s, i);
      CullBelow(s, i - 1)
  }

  /** Culling after the move: exactly the off-screen obstacles go, the rest
      keep their order, and the score rises by the number removed. */
  function Cull(s: RunState): (r: RunState)
    ensures r.obstacles == Keep(s.obstacles)
    ensures r.score == s.score + OffCount(s.obstacles)
    ensures r.high >= s.high
    ensures OffCount(s.obstacles) == 0 ==> r.high == s.high
    ensures OffCount(s.obstacles) > 0 ==> r.high >= r.score && (r.high == s.high || r.high == r.score)
    ensures r == s.(obstacles := r.obstacles, score := r.score, high := r.high)
  {
    assert s.obstacles[..|s.obstacles|] == s.obstacles;
    assert s.obstacles[|s.obstacles|..] == [];
    CullBelow(s, |s.obstacles|)
  }

  // ---------------------------------------------------------------- spawning

  /** The gap before the next spawn: it shrinks as the speed rises and never
      drops below the floor. */
  function NextGap(speed: real, jitter: real): (r: real)
    ensures r >= MinGap
    ensures r == MinGap || r == BaseGap - (speed - BaseSpeed) * GapPerSpeed + jitter
    ensures r >= BaseGap - (speed - BaseSpeed) * GapPerSpeed + jitter
    ensures BaseSpeed <= speed && jitter < JitterSpan ==> r < BaseGap + JitterSpan
  {
    Max(MinGap, BaseGap - (speed - BaseSpeed) * GapPerSpeed + jitter)
  }

  /** A faster run never waits longer for the next obstacle. */
  lemma NextGapShrinks(slow: real, fast: real, jitter: real)
    requires slow <= fast
    ensures NextGap(fast, jitter) <= NextGap(slow, jitter)
  {
  }

  predicate SpawnDue(s: RunState, ts: real) {
    ts - s.lastSpawn >= s.nextGap
  }

  /** The obstacle a spawn creates: just beyond the right edge, on the ground. */
  function Spawned(c: Canvas, d: Draws): Rect {
    Rect(c.width + SpawnMargin, GroundLine(c) - d.h, d.w, d.h)
  }

  /** Spawns one obstacle when the gap since the last spawn has elapsed. */
  function MaybeSpawn(s: RunState, c: Canvas, ts: real, d: Draws): (r: RunState)
    requires DrawsInRange(d)
    ensures SpawnDue(s, ts) <==> |r.obstacles| == |s.obstacles| + 1
    ensures !SpawnDue(s, ts) ==> r == s
    ensures SpawnDue(s, ts) ==>
              && r.obstacles[..|s.obstacles|] == s.obstacles
              && r.obstacles[|s.obstacles|].x == c.width + SpawnMargin
              && r.obstacles[|s.obstacles|].w == d.w
              && r.obstacles[|s.obstacles|].h == d.h
              && ObstacleOk(r.obstacles[|s.obstacles|], GroundLine(c))
              && r.lastSpawn == ts
              && r.nextGap == NextGap(s.speed, d.jitter)
              && r.nextGap >= MinGap
              && (BaseSpeed <= s.speed ==> r.nextGap < BaseGap + JitterSpan)
              && r == s.(obstacles := r.obstacles, lastSpawn := ts, nextGap := r.nextGap)
  {
    if SpawnDue(s, ts) then
      var obs := s.obstacles + [Spawned(c, d)];
      assert obs[..|s.obstacles|] == s.obstacles;
      s.(obstacles := obs, lastSpawn := ts, nextGap := NextGap(s.speed, d.jitter))
    else s
  }

  // --------------------------------------------------------------- collision

  /** The scan over the obstacles in spawn order, stopping at the first hit. */
  function CollidesAny(box: Rect, obs: seq<Rect>): (r: bool)
    ensures r <==> exists o :: o in obs && Hit(box, o)
  {
    if |obs| == 0 then false
    else
      assert obs == [obs[0]] + obs[1..];
      Hit(box, obs[0]) || CollidesAny(box, obs[1..])
  }
}
