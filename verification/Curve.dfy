/** Fixed-point fade curves of the runtime: one-leg transitions and the two-leg level track built from them. */
module Curve {
  import opened Basics
  import opened Light

  const ONE := 65_536

  /** Longest transition any command may install. */
  const MAX_TRANSITION_MS := 60_000_000

  datatype Shape = Smooth | Linear

  datatype Transition = Transition(from: nat, to: nat, start: nat, duration: nat, shape: Shape)
  {
    /** What every constructor site of the runtime respects. */
    predicate Valid() {
      from <= MAX_BRIGHTNESS && to <= MAX_BRIGHTNESS && duration <= MAX_TRANSITION_MS
    }

    function Elapsed(now: nat): nat { Min(SatSub(now, start), duration) }

    function Remaining(now: nat): nat { SatSub(duration, SatSub(now, start)) }

    function Value(now: nat): int
    {
      var elapsed := Elapsed(now);
      if duration == 0 || elapsed == duration then to
      else from + TruncDiv((to - from) * Fraction(shape, elapsed, duration), ONE)
    }
  }

  /** Position on the curve, in 1/65536. */
  function Fraction(shape: Shape, elapsed: nat, duration: nat): int
    requires 0 < duration
  {
    var x := elapsed * ONE / duration;
    match shape
    case Linear => x
    case Smooth => x * x * (3 * ONE - 2 * x) / (ONE * ONE)
  }

  datatype LevelTrack = LevelTrack(ramp: Transition, next: Option<Transition>, offTemperature: Option<Temperature>)
  {
    function Leg(now: nat): Transition
    {
      if next.Some? && now >= next.value.start then next.value else ramp
    }

    function Last(): Transition { if next.Some? then next.value else ramp }

    function Value(now: nat): int { Leg(now).Value(now) }

    function Remaining(now: nat): nat
    {
      SatSub(SatAdd(Last().start, Last().duration), now)
    }

    /** Legs are in range and the second one, if any, takes over where and when the first one ends. */
    predicate Valid()
    {
      && ramp.Valid()
      && (next.Some? ==>
            && next.value.Valid()
            && 0 < next.value.duration
            && next.value.from == ramp.to
            && next.value.start == ramp.start + ramp.duration)
    }

    /** From `now` on, every leg still to be played falls or stays level. */
    predicate Falling(now: nat)
    {
      && Leg(now).to <= Leg(now).from
      && (next.Some? ==> next.value.to <= next.value.from)
    }
  }

  // ----- the cubic s(u) = u*u*(3m - 2u) on [0, m]

  function Cubic(u: int, m: int): int { u * u * (3 * m - 2 * u) }

  /** The factor of CubicDifference. */
  function Slope(u: int, v: int, m: int): int { 3 * m * (u + v) - 2 * (u * u + u * v + v * v) }

  /** s(v) - s(u) factors through v - u. */
  lemma CubicDifference(u: int, v: int, m: int)
    ensures Cubic(v, m) - Cubic(u, m) == (v - u) * Slope(u, v, m)
  {
    assert (v - u) * (3 * m * (u + v)) == 3 * m * (v * v) - 3 * m * (u * u);
    assert (v - u) * (u * u + u * v + v * v) == v * v * v - u * u * u;
  }

  lemma CubicMonotone(u: int, v: int, m: int)
    requires 0 <= u <= v <= m
    ensures 0 <= Cubic(u, m) <= Cubic(v, m)
  {
    CubicDifference(u, v, m);
    MulLe(u, m, u);
    MulLe(v, m, v);
    var slope := Slope(u, v, m);
    assert slope >= 3 * (u * u) + 3 * (v * v) - 2 * (u * u + u * v + v * v);
    assert slope >= (v - u) * (v - u);
    assert (v - u) * (v - u) >= 0;
    MulLe(0, slope, v - u);
    assert u * u * (3 * m - 2 * u) >= 0 by { MulLe(0, u * u, 3 * m - 2 * u); }
  }

  lemma SquareNonNegative(a: int)
    ensures 0 <= a * a
  {
    if a < 0 { MulLe(0, -a, -a); assert (-a) * (-a) == a * a; } else { MulLe(0, a, a); }
  }

  /** 3m^2 - 2(3ms - 2(s^2 - p)) is a sum of squares when s = u + v and p = u * v. */
  lemma SlopeIdentity(s: int, m: int, p: int)
    ensures 3 * (m * m) - 2 * (3 * (m * s) - 2 * (s * s - p)) == 3 * ((m - s) * (m - s)) + (s * s - 4 * p)
  {
    assert (m - s) * (m - s) == m * m - 2 * (m * s) + s * s;
  }

  lemma SlopeBound(u: int, v: int, m: int)
    ensures 2 * Slope(u, v, m) <= 3 * (m * m)
  {
    var s, p := u + v, u * v;
    assert s * s == u * u + 2 * p + v * v;
    assert (v - u) * (v - u) == u * u - 2 * p + v * v;
    SlopeIdentity(s, m, p);
    SquareNonNegative(m - s);
    SquareNonNegative(v - u);
    assert 3 * m * (u + v) == 3 * (m * s);
    assert Slope(u, v, m) == 3 * (m * s) - 2 * (s * s - p);
    assert s * s - 4 * p == (v - u) * (v - u);
  }

  /** The cubic never climbs faster than 3/2 m*m per unit. */
  lemma CubicSlope(u: int, v: int, m: int)
    requires u <= v
    ensures 2 * (Cubic(v, m) - Cubic(u, m)) <= 3 * (m * m) * (v - u)
  {
    CubicDifference(u, v, m);
    SlopeBound(u, v, m);
    DoubleProduct(v - u, Slope(u, v, m));
    MulLe(2 * Slope(u, v, m), 3 * (m * m), v - u);
  }

  lemma DoubleProduct(a: int, b: int)
    ensures 2 * (a * b) == (2 * b) * a
  {
  }

  // ----- the fixed-point fraction

  /** The fraction starts at zero, never reaches past one, and never moves back. */
  lemma FractionMonotone(shape: Shape, e1: nat, e2: nat, duration: nat)
    requires e1 <= e2 < duration
    ensures 0 <= Fraction(shape, e1, duration) <= Fraction(shape, e2, duration) <= ONE
    ensures Fraction(shape, 0, duration) == 0
  {
    var x, y := e1 * ONE / duration, e2 * ONE / duration;
    DivNonNegative(e1 * ONE, duration);
    DivMonotone(e1 * ONE, e2 * ONE, duration);
    DivBounds(e2 * ONE, duration);
    if y > ONE { MulLe(ONE, y, duration); }
    assert 0 * ONE / duration == 0;
    if shape == Smooth {
      CubicMonotone(x, y, ONE);
      CubicMonotone(y, ONE, ONE);
      DivNonNegative(Cubic(x, ONE), ONE * ONE);
      DivMonotone(Cubic(x, ONE), Cubic(y, ONE), ONE * ONE);
      DivMonotone(Cubic(y, ONE), Cubic(ONE, ONE), ONE * ONE);
    }
  }

  /** Scaling by a larger fraction moves at least as far, and never past the whole span. */
  lemma ScaleMonotone(span: int, f: int, g: int)
    requires 0 <= f <= g <= ONE
    ensures span >= 0 ==> 0 <= TruncDiv(span * f, ONE) <= TruncDiv(span * g, ONE) <= span
    ensures span <= 0 ==> 0 >= TruncDiv(span * f, ONE) >= TruncDiv(span * g, ONE) >= span
    ensures TruncDiv(span * 0, ONE) == 0
  {
    var a := Abs(span);
    MulLe(0, f, a);
    MulLe(f, g, a);
    MulLe(g, ONE, a);
    DivMonotone(a * f, a * g, ONE);
    DivMonotone(a * g, a * ONE, ONE);
    assert a * ONE / ONE == a;
    if span < 0 {
      assert span * f == -(a * f) && span * g == -(a * g);
    }
  }

  // ----- one-leg transitions

  /** A transition is monotone in time and never leaves the interval between its endpoints. */
  lemma ValueMonotone(t: Transition, now: nat, later: nat)
    requires now <= later
    ensures t.from <= t.to ==> (t.duration > 0 ==> t.from <= t.Value(now)) && t.Value(now) <= t.Value(later) <= t.to
    ensures t.from >= t.to ==> (t.duration > 0 ==> t.from >= t.Value(now)) && t.Value(now) >= t.Value(later) >= t.to
  {
    if t.duration > 0 {
      var e1, e2 := t.Elapsed(now), t.Elapsed(later);
      if e1 < t.duration {
        FractionMonotone(t.shape, e1, if e2 < t.duration then e2 else e1, t.duration);
        ScaleMonotone(t.to - t.from, Fraction(t.shape, e1, t.duration),
                      Fraction(t.shape, if e2 < t.duration then e2 else e1, t.duration));
      }
    }
  }

  /** Both endpoints are hit exactly; `Remaining` is zero exactly from the deadline on. */
  lemma ValueEndpoints(t: Transition, now: nat)
    ensures t.duration > 0 ==> t.Value(t.start) == t.from
    ensures now >= t.start + t.duration ==> t.Value(now) == t.to
    ensures t.Remaining(now) == 0 <==> t.duration == 0 || now >= t.start + t.duration
  {
    if t.duration > 0 {
      FractionMonotone(t.shape, 0, 0, t.duration);
      ScaleMonotone(t.to - t.from, 0, 0);
    }
  }

  /** Every value lies between the endpoints, so it is again a legal coordinate. */
  lemma ValueInRange(t: Transition, now: nat)
    ensures Min(t.from, t.to) <= t.Value(now) <= Max(t.from, t.to)
  {
    ValueMonotone(t, now, now);
  }

  lemma SpanProduct(span: int, f: int)
    requires 0 <= f <= ONE && Abs(span) <= MAX_BRIGHTNESS
    ensures Abs(span * f) == Abs(span) * f <= MAX_BRIGHTNESS * ONE
  {
    MulLe(Abs(span), MAX_BRIGHTNESS, f);
    MulLe(0, Abs(span), f);
    assert span < 0 ==> span * f == -(Abs(span) * f);
  }

  lemma PositionBelowOne(e: nat, duration: nat)
    requires e < duration
    ensures 0 <= e * ONE / duration < ONE
  {
    DivNonNegative(e * ONE, duration);
    QuotientBelow(e * ONE, ONE, duration);
  }

  /** No product of `value` overflows its machine type, for any time and any installable transition. */
  lemma ValueFitsMachine(t: Transition, now: nat)
    requires t.Valid()
    ensures t.Elapsed(now) * ONE <= U64_MAX
    ensures t.duration > 0 && t.Elapsed(now) < t.duration ==>
      var x := t.Elapsed(now) * ONE / t.duration;
      && 0 <= x < ONE
      && Cubic(x, ONE) <= U64_MAX
      && Abs((t.to - t.from) * Fraction(t.shape, t.Elapsed(now), t.duration)) <= I64_MAX
    ensures 0 <= t.Value(now) <= U16_MAX
  {
    var e := t.Elapsed(now);
    ValueInRange(t, now);
    if t.duration > 0 && e < t.duration {
      PositionBelowOne(e, t.duration);
      CubicMonotone(e * ONE / t.duration, ONE, ONE);
      assert Cubic(ONE, ONE) == ONE * ONE * ONE;
      FractionMonotone(t.shape, e, e, t.duration);
      SpanProduct(t.to - t.from, Fraction(t.shape, e, t.duration));
    }
  }

  // ----- accuracy against the exact rational curve

  /** Numerator of the exact curve position over the denominator d (line) or d*d*d (smoothstep). */
  function ExactNumerator(shape: Shape, e: int, d: int): int
  {
    match shape
    case Linear => e
    case Smooth => Cubic(e, d)
  }

  function ExactDenominator(shape: Shape, d: int): int
  {
    match shape
    case Linear => d
    case Smooth => d * d * d
  }

  /** Rescaling both arguments of the cubic by k rescales its value by k cubed. */
  lemma CubicScale(u: int, m: int, k: int)
    ensures Cubic(u * k, m * k) == Cubic(u, m) * (k * k * k)
  {
    assert (u * k) * (u * k) == (u * u) * (k * k);
    assert 3 * (m * k) - 2 * (u * k) == (3 * m - 2 * u) * k;
    Regroup(u * u, k * k, 3 * m - 2 * u, k);
  }

  lemma Regroup(a: int, b: int, c: int, d: int)
    ensures (a * b) * (c * d) == (a * c) * (b * d)
  {
  }

  /** One fixed-point step on the common scale m = ONE*d, where positions are integers. */
  lemma CommonScaleStep(u: int, v: int, m: int, d: int)
    requires 0 <= u <= v <= m && v - u <= d
    ensures Cubic(u, m) <= Cubic(v, m)
    ensures 2 * (Cubic(v, m) - Cubic(u, m)) <= 3 * (m * m) * d
  {
    CubicMonotone(u, v, m);
    CubicSlope(u, v, m);
    SquareNonNegative(m);
    MulLe(v - u, d, 3 * (m * m));
  }

  lemma CommonScaleSquare(n: int, d: int)
    ensures 3 * ((n * d) * (n * d)) * d == 3 * (n * n) * (d * d * d)
  {
    Regroup(n, d, n, d);
  }

  /** One fixed-point step x = floor(e*ONE/d) costs the cubic less than 3/2 of a unit of 1/ONE. */
  lemma PositionAccuracy(e: nat, d: nat)
    requires e < d
    ensures var x := e * ONE / d;
      && Cubic(x, ONE) * (d * d * d) <= Cubic(e, d) * (ONE * ONE * ONE)
      && 2 * (Cubic(e, d) * (ONE * ONE * ONE)) <= (2 * Cubic(x, ONE) + 3 * (ONE * ONE)) * (d * d * d)
  {
    var x := e * ONE / d;
    PositionBelowOne(e, d);
    DivBounds(e * ONE, d);
    var u, v, m := x * d, e * ONE, ONE * d;
    MulLe(0, x, d);
    CommonScaleStep(u, v, m, d);
    CubicScale(x, ONE, d);
    CubicScale(e, d, ONE);
    CommonScaleSquare(ONE, d);
    CombineAccuracy(Cubic(x, ONE), Cubic(e, d) * (ONE * ONE * ONE), d * d * d);
  }

  lemma CombineAccuracy(c: int, q: int, d3: int)
    requires 2 * (q - c * d3) <= 3 * (ONE * ONE) * d3
    ensures 2 * q <= (2 * c + 3 * (ONE * ONE)) * d3
  {
    Distribute(2 * c, 3 * (ONE * ONE), d3);
  }

  lemma Distribute(a: int, b: int, c: int)
    ensures (a + b) * c == a * c + b * c
  {
  }

  /** Dividing the cubic by ONE*ONE loses less than one more unit. */
  lemma SmoothAccuracy(c: int, f: int, q: int, den: int)
    requires 0 < den
    requires f * (ONE * ONE) <= c < (f + 1) * (ONE * ONE)
    requires c * den <= q * (ONE * ONE * ONE)
    requires 2 * (q * (ONE * ONE * ONE)) <= (2 * c + 3 * (ONE * ONE)) * den
    ensures f * den <= q * ONE && 2 * (q * ONE) < (2 * f + 5) * den
  {
    var n2 := ONE * ONE;
    // lower bound: f*n2*den <= c*den <= q*ONE*n2
    MulLe(f * n2, c, den);
    SwapFactors(f, n2, den);
    MulCancelLe(f * den, q * ONE, n2);
    // upper bound: 2*q*ONE*n2 <= (2c + 3*n2)*den < (2f + 5)*n2*den
    MulLt(2 * c + 3 * n2, (2 * f + 5) * n2, den);
    SwapFactors(2 * f + 5, n2, den);
    MulCancelLt(2 * (q * ONE), (2 * f + 5) * den, n2);
  }

  lemma SwapFactors(a: int, b: int, c: int)
    ensures (a * b) * c == (a * c) * b
  {
  }

  /** The fraction undershoots the exact position by less than 5/2 units of 1/ONE. */
  lemma FractionAccuracy(shape: Shape, e: nat, d: nat)
    requires e < d
    ensures var f, num, den := Fraction(shape, e, d), ExactNumerator(shape, e, d), ExactDenominator(shape, d);
      0 < den && f * den <= num * ONE && 2 * (num * ONE) < (2 * f + 5) * den
  {
    if shape == Linear {
      DivBounds(e * ONE, d);
      Distribute(2 * (e * ONE / d) + 2, 3, d);
    } else {
      var x, den := e * ONE / d, d * d * d;
      MulLt(0, d, d);
      MulLt(0, d * d, d);
      PositionAccuracy(e, d);
      DivBounds(Cubic(x, ONE), ONE * ONE);
      SmoothAccuracy(Cubic(x, ONE), Fraction(shape, e, d), Cubic(e, d), den);
    }
  }

  /**
   * Distance travelled versus the exact rational curve: the value never runs ahead of it
   * and trails it by less than two units, for every endpoint pair in range and every time.
   */
  lemma ValueAccuracy(t: Transition, now: nat)
    requires t.Valid() && t.Elapsed(now) < t.duration
    ensures var e, d := t.Elapsed(now), t.duration;
      var span, travelled := Abs(t.to - t.from), Abs(t.Value(now) - t.from);
      var num, den := ExactNumerator(t.shape, e, d), ExactDenominator(t.shape, d);
      0 < den && travelled * den <= span * num < (travelled + 2) * den
  {
    var e, d := t.Elapsed(now), t.duration;
    var span := Abs(t.to - t.from);
    var f, num, den := Fraction(t.shape, e, d), ExactNumerator(t.shape, e, d), ExactDenominator(t.shape, d);
    FractionAccuracy(t.shape, e, d);
    FractionMonotone(t.shape, e, e, d);
    SpanProduct(t.to - t.from, f);
    var travelled := span * f / ONE;
    DivNonNegative(span * f, ONE);
    assert travelled == Abs(t.Value(now) - t.from);
    DivBounds(span * f, ONE);
    TravelAccuracy(span, f, num, den, travelled);
  }

  lemma TravelAccuracy(span: nat, f: nat, num: int, den: int, travelled: int)
    requires span <= MAX_BRIGHTNESS
    requires 0 < den && f * den <= num * ONE && 2 * (num * ONE) < (2 * f + 5) * den
    requires travelled * ONE <= span * f < (travelled + 1) * ONE
    ensures travelled * den <= span * num < (travelled + 2) * den
  {
    // lower bound: travelled*ONE*den <= span*f*den <= span*num*ONE
    MulLe(travelled * ONE, span * f, den);
    MulLe(f * den, num * ONE, span);
    Rotate(span, f, den);
    SwapFactors(travelled, ONE, den);
    SwapFactors(num, ONE, span);
    MulCancelLe(travelled * den, num * span, ONE);
    TravelUpper(span, f, num, den, travelled);
  }

  lemma Rotate(a: int, b: int, c: int)
    ensures (a * b) * c == (b * c) * a
  {
  }

  lemma TravelUpper(span: nat, f: nat, num: int, den: int, travelled: int)
    requires span <= MAX_BRIGHTNESS
    requires 0 < den && 2 * (num * ONE) < (2 * f + 5) * den
    requires span * f < (travelled + 1) * ONE
    ensures span * num < (travelled + 2) * den
  {
    // 2*num*ONE*span <= (2f + 5)*span*den < 2*(travelled + 2)*ONE*den
    MulLe(2 * (num * ONE), (2 * f + 5) * den, span);
    SwapFactors(2 * f + 5, den, span);
    Distribute(2 * f, 5, span);
    assert (2 * f + 5) * span < (2 * (travelled + 2)) * ONE;
    MulLt((2 * f + 5) * span, (2 * (travelled + 2)) * ONE, den);
    SwapFactors(2 * (travelled + 2), ONE, den);
    SwapFactors(2 * num, ONE, span);
    MulCancelLt((2 * num) * span, (2 * (travelled + 2)) * den, ONE);
  }

  // ----- the two-leg level track

  /**
   * Where a fade from one coordinate to another stands e milliseconds into its duration d: at its end once it is over;
   * before, between its ends, not ahead of the exact line or smoothstep and less than two units behind it.
   */
  predicate OnCurve(from: int, to: int, shape: Shape, d: nat, e: nat, value: int)
  {
    if e >= d then value == to
    else
      var num := if shape == Linear then e else e * e * (3 * d - 2 * e);
      var den := if shape == Linear then d else d * d * d;
      && Min(from, to) <= value <= Max(from, to)
      && Abs(value - from) * den <= Abs(to - from) * num < (Abs(value - from) + 2) * den
  }

  lemma ValueOnCurve(t: Transition, now: nat)
    requires t.Valid() && t.start <= now
    ensures OnCurve(t.from, t.to, t.shape, t.duration, now - t.start, t.Value(now))
  {
    ValueInRange(t, now);
    if now - t.start < t.duration { ValueAccuracy(t, now); }
  }

  /** Until its deadline the cubic stays short of its end. */
  lemma CubicShort(u: int, m: int)
    requires 0 <= u < m
    ensures Cubic(u, m) < m * m * m
  {
    CubicDifference(u, m, m);
    MulLt(0, m - u, m + 2 * u);
    assert Slope(u, m, m) == (m - u) * (m + 2 * u);
    MulLt(0, m - u, Slope(u, m, m));
  }

  /** A fade that has any way to go is not there before its deadline. */
  lemma NotYetThere(t: Transition, now: nat)
    requires t.Valid() && t.Elapsed(now) < t.duration && t.from != t.to
    ensures t.Value(now) != t.to
  {
    var f := Fraction(t.shape, t.Elapsed(now), t.duration);
    FractionShort(t.shape, t.Elapsed(now), t.duration);
    var span := t.to - t.from;
    FractionMonotone(t.shape, t.Elapsed(now), t.Elapsed(now), t.duration);
    SpanProduct(span, f);
    MulLt(f, ONE, Abs(span));
    assert Abs(span * f) < Abs(span) * ONE;
    QuotientBelow(Abs(span * f), Abs(span), ONE);
  }

  lemma FractionShort(shape: Shape, e: nat, d: nat)
    requires e < d
    ensures Fraction(shape, e, d) < ONE
  {
    PositionBelowOne(e, d);
    var x := e * ONE / d;
    if shape == Smooth {
      CubicShort(x, ONE);
      QuotientBelow(x * x * (3 * ONE - 2 * x), ONE, ONE * ONE);
    }
  }

  /** The second leg starts exactly where the first one ends: no jump at the join. */
  lemma TrackContinuous(t: LevelTrack)
    requires t.Valid() && t.next.Some?
    ensures t.Value(t.next.value.start) == t.ramp.Value(t.next.value.start) == t.ramp.to
  {
    ValueEndpoints(t.ramp, t.next.value.start);
    ValueEndpoints(t.next.value, t.next.value.start);
  }

  /** Every value of a valid track is a legal brightness. */
  lemma TrackInRange(t: LevelTrack, now: nat)
    requires t.Valid()
    ensures 0 <= t.Value(now) <= MAX_BRIGHTNESS
  {
    ValueInRange(t.Leg(now), now);
  }

  /** A falling track never brightens, across the join as well as within a leg. */
  lemma TrackFalls(t: LevelTrack, now: nat, later: nat)
    requires t.Valid() && t.Falling(now) && now <= later
    ensures t.Value(later) <= t.Value(now)
    ensures t.Falling(later)
  {
    ValueMonotone(t.Leg(now), now, later);
    if t.next.Some? && now < t.next.value.start <= later {
      ValueMonotone(t.ramp, now, t.next.value.start);
      TrackContinuous(t);
      ValueMonotone(t.next.value, t.next.value.start, later);
    }
  }

  /** Once nothing remains the track has reached its last endpoint, and stays there. */
  lemma TrackEnds(t: LevelTrack, now: nat)
    requires t.Valid() && t.Last().start + t.Last().duration <= U64_MAX
    ensures t.Remaining(now) == 0 <==> now >= t.Last().start + t.Last().duration
    ensures t.Remaining(now) == 0 ==> t.Value(now) == t.Last().to
  {
    ValueEndpoints(t.Last(), now);
  }
}
