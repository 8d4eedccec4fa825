/** The run state: everything the frame loop reads and writes. */
module State {
  import opened Config
  import opened Geometry

  /** The mutable part of the player; x and size are the constants in Config. */
  datatype Player = Player(y: real, vy: real, onGround: bool)

  datatype RunState = RunState(
    player: Player,
    obstacles: seq<Rect>,  // in spawn order
    lastSpawn: real,       // timestamp of the last spawn
    nextGap: real,         // time to wait after lastSpawn before the next spawn
    speed: real,           // pixels per frame
    accelTimer: real,      // time accumulated towards the next speed step
    score: nat,
    high: int,
    running: bool,
    lastTs: real           // timestamp of the previous frame, 0 before the first
  )

  /** The random values one spawn consumes (the cosmetic hue is not modelled). */
  datatype Draws = Draws(w: real, h: real, jitter: real)

  predicate DrawsInRange(d: Draws) {
    && MinObstacleW <= d.w < MaxObstacleW
    && MinObstacleH <= d.h < MaxObstacleH
    && -JitterSpan <= d.jitter < JitterSpan
  }

  function PlayerBox(p: Player): Rect {
    Rect(PlayerX, p.y, PlayerW, PlayerH)
  }

  /** The player rests on the ground line with y at the top of its box. */
  function Resting(ground: real): Player {
    Player(ground - PlayerH, 0.0, true)
  }

  /** The player never sinks below the ground, and the on-ground flag means
      standing still on the ground line. */
  predicate Grounded(p: Player, ground: real) {
    && p.y + PlayerH <= ground
    && (p.onGround ==> p.y + PlayerH == ground && p.vy == 0.0)
  }

  /** An obstacle stands on the ground and has a size the draws allow. */
  predicate ObstacleOk(o: Rect, ground: real) {
    && o.y + o.h == ground
    && MinObstacleW <= o.w < MaxObstacleW
    && MinObstacleH <= o.h < MaxObstacleH
  }

  /** What every reachable state satisfies. */
  predicate Valid(s: RunState, c: Canvas) {
    && Grounded(s.player, GroundLine(c))
    && (forall o :: o in s.obstacles ==> ObstacleOk(o, GroundLine(c)))
    && BaseSpeed <= s.speed <= MaxSpeed
    && MinGap <= s.nextGap < BaseGap + JitterSpan
    && s.accelTimer < SpeedEveryMs
    && s.score <= s.high
  }
}
