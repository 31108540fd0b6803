/** Option and result types, and the machine arithmetic the daemon relies on. */
module Basics {

  datatype Option<+T> = None | Some(value: T)

  datatype Result<+T> = Ok(value: T) | Err

  const U32_MAX: int := 0xFFFF_FFFF
  const U64_MAX: int := 0xFFFF_FFFF_FFFF_FFFF
  const I32_MAX: int := 0x7FFF_FFFF
  const I32_MIN: int := -0x8000_0000
  const I64_MAX: int := 0x7FFF_FFFF_FFFF_FFFF
  const I64_MIN: int := -0x8000_0000_0000_0000

  predicate IsI32(x: int) { I32_MIN <= x <= I32_MAX }

  predicate IsI64(x: int) { I64_MIN <= x <= I64_MAX }

  /** `x as i32`: keeps the low 32 bits. */
  function AsI32(x: int): (r: int)
    ensures IsI32(r)
    ensures IsI32(x) ==> r == x
  {
    (x - I32_MIN) % 0x1_0000_0000 + I32_MIN
  }

  /** `x as i64`: keeps the low 64 bits. */
  function AsI64(x: int): (r: int)
    ensures IsI64(r)
    ensures IsI64(x) ==> r == x
  {
    (x - I64_MIN) % 0x1_0000_0000_0000_0000 + I64_MIN
  }

  /** `i64::saturating_add`. */
  function SatAddI64(a: int, b: int): (r: int)
    ensures IsI64(r)
    ensures IsI64(a + b) ==> r == a + b
  {
    if a + b > I64_MAX then I64_MAX else if a + b < I64_MIN then I64_MIN else a + b
  }

  /** `u32::saturating_mul`. */
  function SatMulU32(a: nat, b: nat): (r: nat)
    ensures r <= U32_MAX
    ensures a * b <= U32_MAX ==> r == a * b
  {
    if a * b > U32_MAX then U32_MAX else a * b
  }

  /** `saturating_sub` on unsigned values. */
  function SatSub(a: nat, b: nat): (r: nat)
    ensures b <= a ==> r + b == a
    ensures a <= b ==> r == 0
  {
    if b <= a then a - b else 0
  }

  /** Rust's `/` on signed integers: rounds toward zero. */
  function TruncDiv(a: int, d: int): int
    requires d > 0
  {
    if a >= 0 then a / d else -((-a) / d)
  }

  /** Rust's `%` on signed integers: the sign follows the dividend. */
  function TruncRem(a: int, d: int): int
    requires d > 0
  {
    if a >= 0 then a % d else -((-a) % d)
  }

  /** The comparison that admission makes after a saturating multiplication
      agrees with the exact one except in the single case excluded here. */
  lemma SaturatingMulComparesExactly(a: nat, b: nat, available: nat)
    requires available <= U32_MAX
    ensures (SatMulU32(a, b) <= available <==> a * b <= available)
       <==> (available < U32_MAX || a * b <= U32_MAX)
  {
  }

  lemma ScaledStep(x: int, y: int, d: int)
    requires d > 0
    ensures x < y ==> x * d + d <= y * d
  {
    if x < y {
      var k := y - x - 1;
      NonNegativeProduct(k, d);
      assert y * d == (x + 1 + k) * d == x * d + d + k * d;
    }
  }

  lemma NonNegativeProduct(k: nat, d: nat)
    ensures k * d >= 0
  {
  }

  lemma QuotientIs(a: int, d: int, q: int)
    requires d > 0 && q * d <= a < q * d + d
    ensures a / d == q
  {
    var p := a / d;
    assert p * d <= a < p * d + d;
    ScaledStep(p, q, d);
    ScaledStep(q, p, d);
  }

  lemma SubsetCount<T>(a: set<T>, b: set<T>)
    requires a <= b
    ensures |a| <= |b|
  {
    assert b == a + (b - a);
  }
}
