/** The coordinates of a light: what is asked of it, and the frames that show it. */
module Light {
  import opened Basics

  type Level = v: int | 1 <= v <= 254 witness 57

  /** Output coordinate: one level step is 9 units, the lowest level is 253. */
  type Brightness = v: int | 0 <= v <= 2530

  /** Colour temperature in mired. */
  type Temperature = v: int | 143 <= v <= 344 witness 303

  const MAX_BRIGHTNESS := 2530
  const DENOMINATOR := 253

  datatype LightState = LightState(on: bool, level: Level, temperature: Temperature)

  datatype OutputFrame = OutputFrame(state: LightState, brightness: Brightness)

  const DEFAULT_STATE: LightState := LightState(false, 57, 303)

  const DEFAULT_FRAME: OutputFrame := OutputFrame(DEFAULT_STATE, 0)

  predicate IsLevel(v: int) { 1 <= v <= 254 }

  predicate IsTemperature(v: int) { 143 <= v <= 344 }

  function FromLevel(level: Level): Brightness { 253 + 9 * (level - 1) }

  function ToLevelClamped(b: Brightness): Level
  {
    if b <= 253 then 1 else 1 + (b - 253 + 4) / 9
  }

  function FromState(s: LightState): OutputFrame
  {
    OutputFrame(s, if s.on then FromLevel(s.level) else 0)
  }

  /** The frame actually emits light. */
  predicate Lit(f: OutputFrame) { f.state.on && f.brightness > 0 }

  /** Rounding to a level is a nearest-point projection: no other level is closer, and levels are fixed points. */
  lemma ToLevelIsNearest(b: Brightness, other: Level)
    ensures ToLevelClamped(FromLevel(other)) == other
    ensures b >= 253 ==> Abs(FromLevel(ToLevelClamped(b)) - b) <= 4
    ensures Abs(FromLevel(ToLevelClamped(b)) - b) <= Abs(FromLevel(other) - b)
  {
  }
}
