/** Constants of the runner: physics, speed ramp, spawn cadence and the
    fixed player box. Every length is in canvas pixels, every duration in
    milliseconds. The canvas size comes from the page, so it is a parameter. */
module Config {

  /** Height of the grass strip at the bottom of the canvas. */
  const GroundH: real := 60.0
  /** Added to the vertical velocity on every frame. */
  const Gravity: real := 0.5
  /** Vertical velocity given by a jump (negative is upwards). */
  const JumpV: real := -10.0

  const BaseSpeed: real := 3.6
  const MaxSpeed: real := 11.0
  /** Speed added by one step of the ramp. */
  const SpeedGain: real := 0.12
  /** Time the ramp accumulator must reach before the speed steps up. */
  const SpeedEveryMs: real := 1200.0

  /** The player box: its x and size never change. */
  const PlayerX: real := 100.0
  const PlayerW: real := 36.0
  const PlayerH: real := 36.0
  /** Before the first start the player is drawn this far above the ground line. */
  const BootLift: real := 40.0

  /** Obstacles appear this far beyond the right edge of the canvas. */
  const SpawnMargin: real := 20.0
  /** Gap before the first obstacle of a run. */
  const FirstGap: real := 850.0
  const BaseGap: real := 900.0
  const MinGap: real := 450.0
  /** How much one unit of speed above the base shortens the gap. */
  const GapPerSpeed: real := 60.0

  /** Ranges of the random draws: width and height in [min, max), jitter in [-span, span). */
  const MinObstacleW: real := 28.0
  const MaxObstacleW: real := 40.0
  const MinObstacleH: real := 36.0
  const MaxObstacleH: real := 70.0
  const JitterSpan: real := 80.0

  datatype Canvas = Canvas(width: real, height: real)

  /** y coordinate of the top of the ground strip. */
  function GroundLine(c: Canvas): real {
    c.height - GroundH
  }

  function Max(a: real, b: real): real {
    if a >= b then a else b
  }

  function Min(a: real, b: real): real {
    if a <= b then a else b
  }
}
