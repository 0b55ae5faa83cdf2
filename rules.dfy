/** The game's tuning constants (the GameRules interface). Time is counted in
    ticks of the fixed-step game loop. */
module Rules {

  // Small (ordinary) dots
  const SmallDotSpeedRatio: real := 0.02
  const SmallDotSizeRatio: real := 0.0625
  const SmallDotCreateInterval: int := 120

  // The bonus ("point") dot
  const PointDotSizeRatio: real := 0.125
  const PointDotValue: int := 5
  const PointDotSizeAnimationTime: int := 10
  const PointDotTimeBetween: int := 300
  const PointDotFadeTime: int := 150
  const PointDotPulseSpeed: int := 12

  // The player dot
  const PlayerDotSizeRatio: real := 0.125

  // Other settings
  const MaxTimeDifficulty: int := 7200
  const DotLimit: int := 200

  /** The fixed-step loop: at most this many catch-up ticks per iteration. */
  const MaxUpdatesBeforeRender: int := 5

  /** Kiosk (demo) mode stops spawning small dots at this many entries. */
  const KioskDotLimit: int := 10
}
