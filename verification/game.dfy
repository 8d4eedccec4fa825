/** The frame update, the frame loop's timestamp bookkeeping, and the
    start and end of a run. */
module Game {
  import opened Config
  import opened Geometry
  import opened State
  import opened Score
  import opened Physics
  import opened Obstacles
  import opened Speed

  /** Ends the run; everything else stays as it was. */
  function EndGame(s: RunState): (r: RunState)
    ensures !r.running
    ensures r == s.(running := false)
  {
    s.(running := false)
  }

  /** The collision step of a frame: the run ends when any obstacle hits the
      player; nothing else changes. */
  function CheckCollision(s: RunState): (r: RunState)
    ensures r == s.(running := s.running && !CollidesAny(PlayerBox(s.player), s.obstacles))
  {
    if CollidesAny(PlayerBox(s.player), s.obstacles) then EndGame(s) else s
  }

  /** The obstacles a frame keeps from the previous ones. */
  function Survivors(s: RunState): seq<Rect> {
    Keep(Advance(s.obstacles, s.speed))
  }

  /** One frame: gravity and the ground clamp, move and cull (scoring),
      spawn, collision, then the speed ramp. */
  function Update(s: RunState, c: Canvas, dt: real, ts: real, d: Draws): (r: RunState)
    requires DrawsInRange(d)
    ensures r.player == Fall(s.player, GroundLine(c))
    ensures r.player.y + PlayerH <= GroundLine(c)
    ensures r.score == s.score + OffCount(Advance(s.obstacles, s.speed))
    ensures r.high >= s.high
    ensures |Survivors(s)| <= |r.obstacles| <= |Survivors(s)| + 1
    ensures r.obstacles[..|Survivors(s)|] == Survivors(s)
    ensures |r.obstacles| == |Survivors(s)| + 1 <==> SpawnDue(s, ts)
    ensures SpawnDue(s, ts) ==> r.obstacles[|Survivors(s)|] == Spawned(c, d) && r.lastSpawn == ts
    ensures !SpawnDue(s, ts) ==> r.lastSpawn == s.lastSpawn && r.nextGap == s.nextGap
    ensures r.running <==> s.running && !CollidesAny(PlayerBox(r.player), r.obstacles)
    ensures r.accelTimer < SpeedEveryMs
    ensures SpawnDue(s, ts) ==> r.nextGap == NextGap(s.speed, d.jitter)
    ensures r.high == s.high || r.high == r.score
    ensures OffCount(Advance(s.obstacles, s.speed)) == 0 ==> r.high == s.high
    ensures OffCount(Advance(s.obstacles, s.speed)) > 0 ==> r.high >= r.score
    ensures s.accelTimer + dt >= SpeedEveryMs ==> r.accelTimer == 0.0 && r.speed == Bump(s.speed)
    ensures s.accelTimer + dt < SpeedEveryMs ==> r.accelTimer == s.accelTimer + dt && r.speed == s.speed
    ensures r.lastTs == s.lastTs
  {
    var moved := s.(player := Fall(s.player, GroundLine(c)));
    var culled := Cull(moved.(obstacles := Advance(moved.obstacles, moved.speed)));
    var spawned := MaybeSpawn(culled, c, ts, d);
    Accelerate(CheckCollision(spawned), dt)
  }

  /** The frame loop: nothing happens unless running; the first frame of a
      run (lastTs still 0) has a zero time step. */
  function Frame(s: RunState, c: Canvas, ts: real, d: Draws): (r: RunState)
    requires DrawsInRange(d)
    ensures !s.running ==> r == s
    ensures s.running ==> r.lastTs == ts
    ensures s.running ==>
              var dt := if s.lastTs == 0.0 then 0.0 else ts - s.lastTs;
              r == Update(s.(lastTs := ts), c, dt, ts, d)
    ensures s.running ==> r.player == Fall(s.player, GroundLine(c))
    ensures s.running ==> r.score == s.score + OffCount(Advance(s.obstacles, s.speed))
    ensures s.running ==> r.high >= s.high
    ensures s.running ==> (r.running <==> !CollidesAny(PlayerBox(r.player), r.obstacles))
    ensures s.running ==> (|r.obstacles| == |Survivors(s)| + 1 <==> SpawnDue(s, ts))
    ensures s.running ==>
              var dt := if s.lastTs == 0.0 then 0.0 else ts - s.lastTs;
              && (s.accelTimer + dt >= SpeedEveryMs ==> r.accelTimer == 0.0 && r.speed == Bump(s.speed))
              && (s.accelTimer + dt < SpeedEveryMs ==> r.accelTimer == s.accelTimer + dt && r.speed == s.speed)
  {
    if !s.running then s
    else
      var prev := if s.lastTs == 0.0 then ts else s.lastTs;
      Update(s.(lastTs := ts), c, ts - prev, ts, d)
  }

  /** Starts (or restarts) a run. The high score survives. */
  function StartGame(s: RunState, c: Canvas): (r: RunState)
    ensures Valid(r, c)
    ensures r.running && r.score == 0
    ensures r.speed == BaseSpeed && r.accelTimer == 0.0
    ensures r.player == Resting(GroundLine(c))
    ensures r.obstacles == []
    ensures r.lastSpawn == 0.0 && r.nextGap == FirstGap && r.lastTs == 0.0
    ensures r.high >= s.high && r.high >= 0
    ensures r.high == s.high || r.high == 0
  {
    var s1 := s.(running := true, lastTs := 0.0, accelTimer := 0.0, speed := BaseSpeed);
    var s2 := SetScore(s1, 0);
    s2.(player := Resting(GroundLine(c)),
        obstacles := [], lastSpawn := 0.0, nextGap := FirstGap)
  }

  /** The state before the first start: the player a little above the
      ground, no run in progress, the high score as stored. */
  function Initial(c: Canvas, storedHigh: int): RunState {
    RunState(Player(GroundLine(c) - BootLift, 0.0, true), [], 0.0, FirstGap,
             BaseSpeed, 0.0, 0, storedHigh, false, 0.0)
  }

  /** The page starts a run as soon as it loads. */
  function Boot(c: Canvas, storedHigh: int): (r: RunState)
    ensures Valid(r, c) && r.running
    ensures r.high == (if storedHigh >= 0 then storedHigh else 0)
  {
    StartGame(Initial(c, storedHigh), c)
  }

  // -------------------------------------------------------------- invariants

  lemma JumpPreservesValid(s: RunState, c: Canvas)
    requires Valid(s, c)
    ensures Valid(Jump(s), c)
  {
  }

  lemma EndGamePreservesValid(s: RunState, c: Canvas)
    requires Valid(s, c)
    ensures Valid(EndGame(s), c)
  {
  }

  lemma UpdatePreservesValid(s: RunState, c: Canvas, dt: real, ts: real, d: Draws)
    requires Valid(s, c) && DrawsInRange(d)
    ensures Valid(Update(s, c, dt, ts, d), c)
  {
    var g := GroundLine(c);
    FallKeepsGrounded(s.player, g);
    var moved := s.(player := Fall(s.player, g));
    var advanced := moved.(obstacles := Advance(moved.obstacles, moved.speed));
    AdvanceKeepsObstaclesOk(s.obstacles, s.speed, g);
    var culled := Cull(advanced);
    KeepMembers(advanced.obstacles);
    assert Valid(culled, c);
    var spawned := MaybeSpawn(culled, c, ts, d);
    assert Valid(spawned, c) by {
      if SpawnDue(culled, ts) {
        var n := |culled.obstacles|;
        assert spawned.obstacles == culled.obstacles + [spawned.obstacles[n]];
      }
    }
  }

  lemma FramePreservesValid(s: RunState, c: Canvas, ts: real, d: Draws)
    requires Valid(s, c) && DrawsInRange(d)
    ensures Valid(Frame(s, c, ts, d), c)
  {
    if s.running {
      var prev := if s.lastTs == 0.0 then ts else s.lastTs;
      UpdatePreservesValid(s.(lastTs := ts), c, ts - prev, ts, d);
    }
  }

  /** Within a run the speed never decreases and stays under the cap. */
  lemma FrameSpeedMonotone(s: RunState, c: Canvas, ts: real, d: Draws)
    requires Valid(s, c) && DrawsInRange(d)
    ensures s.speed <= Frame(s, c, ts, d).speed <= MaxSpeed
  {
  }

  /** Once the run has ended, frames and jumps change nothing. */
  lemma EndedRunIsFrozen(s: RunState, c: Canvas, ts: real, d: Draws)
    requires DrawsInRange(d)
    ensures Frame(EndGame(s), c, ts, d) == EndGame(s)
    ensures Jump(EndGame(s)) == EndGame(s)
  {
  }

  /** The first frame after a start has a zero time step, so the ramp does
      not move; the player stays on the ground; and because the spawn clock
      restarts at 0 while timestamps keep growing, the first obstacle appears
      in that very frame once the timestamp has reached the first gap. */
  lemma FirstFrameAfterStart(s: RunState, c: Canvas, ts: real, d: Draws)
    requires DrawsInRange(d)
    ensures Frame(StartGame(s, c), c, ts, d).lastTs == ts
    ensures Frame(StartGame(s, c), c, ts, d).accelTimer == 0.0
    ensures Frame(StartGame(s, c), c, ts, d).speed == BaseSpeed
    ensures Frame(StartGame(s, c), c, ts, d).score == 0
    ensures Frame(StartGame(s, c), c, ts, d).player == Resting(GroundLine(c))
    ensures Frame(StartGame(s, c), c, ts, d).obstacles ==
              (if ts >= FirstGap then [Spawned(c, d)] else [])
  {
    var g := GroundLine(c);
    RestingIsFixed(g);
    assert Advance([], BaseSpeed) == [];
    assert Keep([]) == [];
  }

  /** An obstacle lying inside the player's box after the frame's moves ends the run. */
  lemma ContainedObstacleEndsRun(s: RunState, c: Canvas, dt: real, ts: real, d: Draws, o: Rect)
    requires Valid(s, c) && DrawsInRange(d)
    requires o in Update(s, c, dt, ts, d).obstacles
    requires Contains(PlayerBox(Update(s, c, dt, ts, d).player), o)
    ensures !Update(s, c, dt, ts, d).running
  {
    UpdatePreservesValid(s, c, dt, ts, d);
    ContainmentHits(PlayerBox(Update(s, c, dt, ts, d).player), o);
  }

  // ------------------------------------------------------------------ inputs

  /** What can happen between two states: a jump press, an animation frame
      (with its timestamp and the random draws a spawn would use), or a
      click on the retry button. */
  datatype Input = Press | Tick(ts: real, d: Draws) | Retry

  predicate InputOk(e: Input) {
    e.Tick? ==> DrawsInRange(e.d)
  }

  function Step(s: RunState, c: Canvas, e: Input): RunState
    requires InputOk(e)
  {
    match e
    case Press => Jump(s)
    case Tick(ts, d) => Frame(s, c, ts, d)
    case Retry => StartGame(s, c)
  }

  function Run(s: RunState, c: Canvas, es: seq<Input>): RunState
    requires forall i :: 0 <= i < |es| ==> InputOk(es[i])
    decreases |es|
  {
    if |es| == 0 then s else Run(Step(s, c, es[0]), c, es[1..])
  }

  /** Every input keeps the state valid and never lowers the high score. */
  lemma StepPreservesValid(s: RunState, c: Canvas, e: Input)
    requires Valid(s, c) && InputOk(e)
    ensures Valid(Step(s, c, e), c)
    ensures Step(s, c, e).high >= s.high
  {
    match e
    case Press => JumpPreservesValid(s, c);
    case Tick(ts, d) => FramePreservesValid(s, c, ts, d);
    case Retry =>
  }

  /** Over any sequence of inputs, including restarts, the state stays valid
      and the high score never decreases. */
  lemma {:induction false} RunPreservesValid(s: RunState, c: Canvas, es: seq<Input>)
    requires Valid(s, c)
    requires forall i :: 0 <= i < |es| ==> InputOk(es[i])
    ensures Valid(Run(s, c, es), c)
    ensures Run(s, c, es).high >= s.high
    decreases |es|
  {
    if |es| > 0 {
      StepPreservesValid(s, c, es[0]);
      RunPreservesValid(Step(s, c, es[0]), c, es[1..]);
    }
  }
}
