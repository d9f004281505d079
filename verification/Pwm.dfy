/** Register encoding of a physical frame: stock warm/cool arithmetic and the PCA9635 output registers. */
module Pwm {
  import opened Basics
  import opened Light
  import opened Curve

  const FRAME_LEN := 22

  /** The 22 bytes behind the two mode registers: a duty per channel, two unused group bytes, four output selectors. */
  type FrameBytes = s: seq<byte> | |s| == FRAME_LEN witness seq(FRAME_LEN, _ => 0)

  /** `value as u8` */
  function NarrowToByte(value: nat): byte { value % 256 }

  function StockSteps(mix: nat, numerator: nat, denominator: nat): nat
    requires 0 < denominator
  {
    DivNonNegative(mix * 4095 * numerator, 160_000 * denominator);
    mix * 4095 * numerator / (160_000 * denominator)
  }

  function StockPwm(mix: nat, numerator: nat, denominator: nat): byte
    requires 0 < denominator
  {
    NarrowToByte(StockSteps(mix, numerator, denominator) * 9 / 10)
  }

  function WarmMix(mired: Temperature): nat
  {
    if mired == 143 then 0
    else if mired <= 243 then (mired - 143) * 100 / 101
    else 100
  }

  function CoolMix(mired: Temperature): nat
  {
    if mired <= 244 then 100 else 344 - mired
  }

  function WarmPwm(b: Brightness, mired: Temperature): byte { StockPwm(WarmMix(mired), b, DENOMINATOR) }

  function CoolPwm(b: Brightness, mired: Temperature): byte { StockPwm(CoolMix(mired), b, DENOMINATOR) }

  function EncodeFrame(f: OutputFrame): FrameBytes
  {
    var warm := if f.state.on then WarmPwm(f.brightness, f.state.temperature) else 0;
    var cool := if f.state.on then CoolPwm(f.brightness, f.state.temperature) else 0;
    [warm, 0, 0, 0, cool, 0, 0, 0, 0, 0, 0, 0, 0, 0, 0, 0, 255, 0, 0xaa, 0xaa, 0xaa, 0xaa]
  }

  /** The frame buffer is filled in place. */
  method FillFrame(output: OutputFrame, frame: array<byte>)
    requires frame.Length == FRAME_LEN
    modifies frame
    ensures frame[..] == EncodeFrame(output)
  {
    for i := 0 to FRAME_LEN
      invariant forall k :: 0 <= k < i ==> frame[k] == 0
    {
      frame[i] := 0;
    }
    frame[16] := 255;
    for i := 18 to FRAME_LEN
      invariant forall k :: 0 <= k < 16 || k == 17 ==> frame[k] == 0
      invariant frame[16] == 255
      invariant forall k :: 18 <= k < i ==> frame[k] == 0xaa
    {
      frame[i] := 0xaa;
    }
    if output.state.on {
      frame[0] := WarmPwm(output.brightness, output.state.temperature);
      frame[4] := CoolPwm(output.brightness, output.state.temperature);
    }
  }

  /**
   * Duty never decreases with the mix or the brightness, stays at or below 22, and no u32 product or narrowing loses
   * bits.
   */
  lemma StockPwmMonotone(mix: nat, more: nat, b: Brightness, c: Brightness)
    requires mix <= more <= 100 && b <= c
    ensures more * 4095 * c <= U32_MAX
    ensures StockSteps(more, c, DENOMINATOR) * 9 / 10 < 256
    ensures StockPwm(mix, b, DENOMINATOR) <= StockPwm(more, c, DENOMINATOR) <= 22
    ensures StockPwm(mix, 0, DENOMINATOR) == 0
  {
    StockProductMonotone(mix, more, b, c);
    var scale := 160_000 * DENOMINATOR;
    DivMonotone(mix * 4095 * b, more * 4095 * c, scale);
    DivMonotone(more * 4095 * c, 100 * 4095 * 2530, scale);
    NarrowMonotone(StockSteps(mix, b, DENOMINATOR), StockSteps(more, c, DENOMINATOR));
  }

  lemma NarrowMonotone(s: nat, t: nat)
    requires s <= t <= 25
    ensures t * 9 / 10 < 256
    ensures NarrowToByte(s * 9 / 10) <= NarrowToByte(t * 9 / 10) <= 22
    ensures NarrowToByte(0 * 9 / 10) == 0
  {
  }

  lemma StockProductMonotone(mix: nat, more: nat, b: nat, c: nat)
    requires mix <= more <= 100 && b <= c <= MAX_BRIGHTNESS
    ensures 0 <= mix * 4095 * b <= more * 4095 * c <= 100 * 4095 * 2530
    ensures mix * 4095 * 0 == 0
  {
    MulLe(mix, more, b);
    MulLe(b, c, more);
    MulLe(more, 100, c);
    MulLe(0, mix, b);
    assert mix * 4095 * b == 4095 * (mix * b) && more * 4095 * c == 4095 * (more * c);
  }

  /** For whole stock percentages the single division is the stock firmware's two successive truncations. */
  lemma CombinedFloors(mix: nat, percent: nat)
    ensures StockSteps(mix, percent, 1) == (mix * 4095 * percent / 10_000) / 16
  {
    var a := mix * 4095 * percent;
    DivBounds(a, 10_000);
    DivBounds(a / 10_000, 16);
    DivBounds(a, 160_000);
  }

  /** Warmer requests never lower the warm channel or raise the cool one, and both mixes stay within 0..100. */
  lemma MixDirection(m: Temperature, n: Temperature)
    requires m <= n
    ensures 0 <= WarmMix(m) <= WarmMix(n) <= 100
    ensures 0 <= CoolMix(n) <= CoolMix(m) <= 100
    ensures WarmMix(m) == 100 || CoolMix(m) == 100
  {
  }

  /** Both duty bytes of a frame, as the registers hold them. */
  predicate DutyAtMost(f: OutputFrame, g: OutputFrame)
  {
    EncodeFrame(f)[0] <= EncodeFrame(g)[0] && EncodeFrame(f)[4] <= EncodeFrame(g)[4]
  }

  // ----- what the bytes of a frame say to the device

  /** Two-bit field number k of an output selector. */
  function Selector(b: byte, k: nat): nat
    requires k < 4
  {
    if k == 0 then b % 4 else if k == 1 then b / 4 % 4 else if k == 2 then b / 16 % 4 else b / 64
  }

  /**
   * Every channel is under its own duty; all but the first and the fifth are dark, and those too when the light is
   * Off.
   */
  lemma BytesLayout(f: OutputFrame)
    ensures var bytes := EncodeFrame(f);
      && (forall i :: 0 <= i < 16 && i != 0 && i != 4 ==> bytes[i] == 0)
      && bytes[16] == 255 && bytes[17] == 0
      && (forall i, k :: 18 <= i < 22 && 0 <= k < 4 ==> Selector(bytes[i], k) == 2)
      && (!f.state.on ==> bytes[0] == 0 && bytes[4] == 0)
  {
  }

  /**
   * The first channel is the warm one and the fifth the cool one: at equal brightness a warmer light never has less of
   * the first or more of the fifth; each is dark at the other's end of the scale; and from 244 mired, where both are
   * full, the warm one stays full towards warm and the cool one towards cool.
   */
  lemma WarmIsFirstCoolIsFifth(f: OutputFrame, g: OutputFrame)
    requires f.state.on && g.state.on && f.brightness == g.brightness && f.state.temperature <= g.state.temperature
    ensures EncodeFrame(f)[0] <= EncodeFrame(g)[0] && EncodeFrame(f)[4] >= EncodeFrame(g)[4]
    ensures f.state.temperature == 143 ==> EncodeFrame(f)[0] == 0
    ensures g.state.temperature == 344 ==> EncodeFrame(g)[4] == 0
    ensures f.state.temperature >= 244 ==> EncodeFrame(f)[0] == EncodeFrame(g)[0]
    ensures g.state.temperature <= 244 ==> EncodeFrame(f)[4] == EncodeFrame(g)[4]
    ensures f.state.temperature == 244 ==> EncodeFrame(f)[0] == EncodeFrame(f)[4]
  {
    var m, n := f.state.temperature, g.state.temperature;
    MixDirection(m, n);
    StockPwmMonotone(WarmMix(m), WarmMix(n), f.brightness, f.brightness);
    StockPwmMonotone(CoolMix(n), CoolMix(m), f.brightness, f.brightness);
    NoMixNoDuty(f.brightness);
  }

  lemma NoMixNoDuty(b: Brightness)
    ensures StockPwm(0, b, DENOMINATOR) == 0
  {
  }

  /** What a duty byte loses to its two truncations, as bounds on the exact product. */
  lemma DutyBounds(mix: nat, b: Brightness)
    requires mix <= 100
    ensures var duty := StockPwm(mix, b, 253);
      10 * 40_480_000 * duty <= 9 * 4095 * (mix * b) < (10 * duty + 18) * 40_480_000
  {
    hide StockPwm, StockSteps;
    StockPwmMonotone(mix, mix, b, b);
    var steps := StockSteps(mix, b, 253);
    StepsAre(mix, b);
    TwoTruncations(4095 * (mix * b), steps, StockPwm(mix, b, 253));
  }

  lemma StepsAre(mix: nat, b: Brightness)
    requires mix <= 100
    ensures var steps, duty := StockSteps(mix, b, 253), StockPwm(mix, b, 253);
      && 40_480_000 * steps <= 4095 * (mix * b) < 40_480_000 * (steps + 1)
      && 10 * duty <= 9 * steps < 10 * duty + 10
  {
    StockPwmMonotone(mix, mix, b, b);
    var steps := StockSteps(mix, b, 253);
    SameProduct(mix, b);
    DivBounds(4095 * (mix * b), 40_480_000);
    Ninths(steps);
  }

  lemma SameProduct(mix: nat, b: nat)
    ensures mix * 4095 * b == 4095 * (mix * b)
  {
  }

  lemma Ninths(steps: nat)
    ensures 10 * (steps * 9 / 10) <= 9 * steps < 10 * (steps * 9 / 10) + 10
  {
  }

  lemma TwoTruncations(product: nat, steps: nat, duty: nat)
    requires 40_480_000 * steps <= product < 40_480_000 * (steps + 1)
    requires 10 * duty <= 9 * steps < 10 * duty + 10
    ensures 10 * 40_480_000 * duty <= 9 * product < (10 * duty + 18) * 40_480_000
  {
  }

  /**
   * The duty bytes are the stock arithmetic, to within two steps: full duty is 9/10 of 4095/160000 per stock percent
   * and per percent of the mix; the warm mix climbs in proportion from 143 mired to 244, the cool one falls by one per
   * mired from 244 to 344.
   */
  lemma DutyAccuracy(f: OutputFrame)
    requires f.state.on
    ensures var t, b := f.state.temperature, f.brightness;
      var warm, cool := EncodeFrame(f)[0], EncodeFrame(f)[4];
      && (t >= 244 ==> 404_800_000 * warm <= 3_685_500 * b < (10 * warm + 18) * 40_480_000)
      && (t <= 244 ==> 404_800_000 * cool <= 3_685_500 * b < (10 * cool + 18) * 40_480_000)
      && (t >= 244 ==> 404_800_000 * cool <= 36_855 * ((344 - t) * b) < (10 * cool + 18) * 40_480_000)
      && (t <= 243 ==>
            101 * 404_800_000 * warm <= 3_685_500 * ((t - 143) * b) < 101 * (10 * warm + 21) * 40_480_000)
  {
    var t, b := f.state.temperature, f.brightness;
    DutyBounds(WarmMix(t), b);
    DutyBounds(CoolMix(t), b);
    if t <= 243 { MixAccuracy(t, b); }
  }

  lemma MixAccuracy(t: Temperature, b: Brightness)
    requires t <= 243
    ensures 101 * (WarmMix(t) * b) <= 100 * ((t - 143) * b) <= 101 * (WarmMix(t) * b) + 101 * b
  {
    var mix := WarmMix(t);
    DivBounds((t - 143) * 100, 101);
    MulLe(101 * mix, 100 * (t - 143), b);
    MulLe(100 * (t - 143), 101 * mix + 101, b);
    assert 101 * mix * b == 101 * (mix * b) && 100 * (t - 143) * b == 100 * ((t - 143) * b);
    assert (101 * mix + 101) * b == 101 * (mix * b) + 101 * b;
  }

  /** The frame a fade shows at coordinate b: true zero is Off, anything above is On. */
  function FadeFrame(b: Brightness, t: Temperature): OutputFrame
  {
    OutputFrame(LightState(b != 0, ToLevelClamped(b), t), b)
  }

  lemma FadeFrameMonotone(b: Brightness, c: Brightness, t: Temperature)
    requires b <= c
    ensures DutyAtMost(FadeFrame(b, t), FadeFrame(c, t))
    ensures EncodeFrame(FadeFrame(c, t))[0] <= 22 && EncodeFrame(FadeFrame(c, t))[4] <= 22
  {
    MixDirection(t, t);
    StockPwmMonotone(WarmMix(t), WarmMix(t), b, c);
    StockPwmMonotone(CoolMix(t), CoolMix(t), b, c);
  }

  /** Whatever the tick times, both duty registers follow a falling track down and a rising ramp up. */
  lemma FadeNeverFlickers(track: LevelTrack, now: nat, later: nat, t: Temperature)
    requires track.Valid() && now <= later
    ensures 0 <= track.Value(now) <= MAX_BRIGHTNESS && 0 <= track.Value(later) <= MAX_BRIGHTNESS
    ensures track.Falling(now) ==> DutyAtMost(FadeFrame(track.Value(later), t), FadeFrame(track.Value(now), t))
    ensures track.next.None? && track.ramp.from <= track.ramp.to ==>
      DutyAtMost(FadeFrame(track.Value(now), t), FadeFrame(track.Value(later), t))
  {
    TrackInRange(track, now);
    TrackInRange(track, later);
    if track.Falling(now) {
      TrackFalls(track, now, later);
      FadeFrameMonotone(track.Value(later), track.Value(now), t);
    }
    if track.next.None? && track.ramp.from <= track.ramp.to {
      ValueMonotone(track.ramp, now, later);
      FadeFrameMonotone(track.Value(now), track.Value(later), t);
    }
  }
}
