/** Shared vocabulary: optional values, machine-integer bounds and the rounding rules of the firmware's arithmetic. */
module Basics {

  datatype Option<+T> = None | Some(value: T)

  type byte = b: int | 0 <= b < 256

  const U16_MAX := 0xffff
  const U32_MAX := 0xffff_ffff
  const U64_MAX := 0xffff_ffff_ffff_ffff
  const I64_MAX := 0x7fff_ffff_ffff_ffff

  function Min(a: int, b: int): int { if a <= b then a else b }

  function Max(a: int, b: int): int { if a <= b then b else a }

  function Abs(a: int): nat { if a < 0 then -a else a }

  /** `u64::saturating_sub` */
  function SatSub(a: nat, b: nat): nat { if a < b then 0 else a - b }

  /** `u64::saturating_add` */
  function SatAdd(a: nat, b: nat): nat { Min(a + b, U64_MAX) }

  /** `u32::saturating_add(1)` */
  function SatInc(a: nat): nat { if a < U32_MAX then a + 1 else U32_MAX }

  /** `u32::wrapping_add(1)` */
  function WrapInc(a: nat): nat { (a + 1) % (U32_MAX + 1) }

  /** Signed division as the target machine performs it: the quotient is truncated toward zero. */
  function TruncDiv(a: int, b: int): int
    requires b > 0
  {
    if a >= 0 then a / b else -((-a) / b)
  }

  // ----- facts about floor division that the solver should not have to rediscover

  lemma MulLe(a: int, b: int, c: int)
    requires a <= b && 0 <= c
    ensures a * c <= b * c
  {
  }

  lemma MulLt(a: int, b: int, c: int)
    requires a < b && 0 < c
    ensures a * c < b * c
  {
  }

  lemma MulCancelLe(a: int, b: int, c: int)
    requires a * c <= b * c && 0 < c
    ensures a <= b
  {
    if b < a { MulLt(b, a, c); }
  }

  lemma MulCancelLt(a: int, b: int, c: int)
    requires a * c < b * c && 0 < c
    ensures a < b
  {
    if b <= a { MulLe(b, a, c); }
  }

  /** The defining inequalities of a floor quotient. */
  lemma DivBounds(a: int, b: int)
    requires b > 0
    ensures (a / b) * b <= a < (a / b + 1) * b
  {
  }

  lemma DivMonotone(a: int, b: int, c: int)
    requires a <= b && c > 0
    ensures a / c <= b / c
  {
    DivBounds(a, c);
    DivBounds(b, c);
    if a / c > b / c {
      MulLe(b / c + 1, a / c, c);
    }
  }

  lemma DivNonNegative(a: int, c: int)
    requires 0 <= a && c > 0
    ensures 0 <= a / c
  {
  }

  lemma QuotientBelow(a: int, q: int, b: int)
    requires b > 0 && a < b * q
    ensures a / b < q
  {
    DivBounds(a, b);
    MulCancelLt(a / b, q, b);
  }
}
