// Machine integers and IEEE floating point, as far as the status checks rely on them.
module Numeric {

  const U8_MODULUS: int := 0x100
  const U64_MODULUS: int := 0x1_0000_0000_0000_0000

  /** Rust `u8`. */
  type u8 = x: int | 0 <= x < 0x100
  /** Rust `u16`. */
  type u16 = x: int | 0 <= x < 0x1_0000
  /** Rust `u64`. */
  type u64 = x: int | 0 <= x < 0x1_0000_0000_0000_0000
  /** Rust `i64`. */
  type i64 = x: int | -0x8000_0000_0000_0000 <= x < 0x8000_0000_0000_0000
  /** Go `int8`. */
  type int8 = x: int | -0x80 <= x < 0x80

  /** `a + b` on `u8` in a release build: wraps around modulo 2^8. */
  function WrappingAddU8(a: u8, b: u8): (r: u8)
    ensures a + b < U8_MODULUS ==> r == a + b
    ensures a + b >= U8_MODULUS ==> r == a + b - U8_MODULUS
  {
    (a + b) % U8_MODULUS
  }

  /** `a - b` on `u8` in a release build: wraps around modulo 2^8. */
  function WrappingSubU8(a: u8, b: u8): (r: u8)
    ensures b <= a ==> r == a - b
    ensures a < b ==> r == a - b + U8_MODULUS
  {
    (a - b) % U8_MODULUS
  }

  /** `a - b` on `u64` in a release build: wraps around modulo 2^64. */
  function WrappingSubU64(a: u64, b: u64): (r: u64)
    ensures b <= a ==> r == a - b
    ensures a < b ==> r == a - b + U64_MODULUS
  {
    (a - b) % U64_MODULUS
  }

  /** `x as usize` for an `i64` on a 64-bit target: the two's-complement bits read unsigned. */
  function I64AsUsize(x: i64): (r: u64)
    ensures x >= 0 ==> r == x
    ensures x < 0 ==> r == x + U64_MODULUS
  {
    if x >= 0 then x else x + U64_MODULUS
  }

  /** Go `int8(x)`: keeps the low eight bits, read as two's complement. */
  function Int8Of(x: int): (r: int8)
    ensures (r - x) % U8_MODULUS == 0
    ensures -0x80 <= x < 0x80 ==> r == x
  {
    (x + 0x80) % U8_MODULUS - 0x80
  }

  /** An IEEE-754 value (f32 or f64). Rounding is not modelled: finite values are exact reals. */
  datatype F64 = Num(value: real) | PosInf | NegInf | NaN

  /** `x >= t` on floats: false when `x` is NaN. */
  predicate AtLeast(x: F64, t: real) {
    match x
    case Num(v) => v >= t
    case PosInf => true
    case NegInf => false
    case NaN => false
  }

  /** `x <= t` on floats: false when `x` is NaN. */
  predicate AtMost(x: F64, t: real) {
    match x
    case Num(v) => v <= t
    case PosInf => false
    case NegInf => true
    case NaN => false
  }

  /** IEEE `x <= y`: infinities at either end, false whenever NaN takes part. */
  predicate LessOrEqual(x: F64, y: F64) {
    match (x, y)
    case (NaN, _) => false
    case (_, NaN) => false
    case (NegInf, _) => true
    case (_, PosInf) => true
    case (Num(a), Num(b)) => a <= b
    case _ => false
  }

  /** `a / b` on floats whose operands are finite: division by zero gives an infinity or NaN. */
  function Divide(a: real, b: real): (r: F64)
    ensures b != 0.0 ==> r == Num(a / b)
    ensures b == 0.0 ==> (r.PosInf? <==> a > 0.0) && (r.NegInf? <==> a < 0.0) && (r.NaN? <==> a == 0.0)
  {
    if b != 0.0 then Num(a / b)
    else if a > 0.0 then PosInf
    else if a < 0.0 then NegInf
    else NaN
  }

  /** `x * k` on floats, for a positive finite factor `k`. */
  function ScaleBy(x: F64, k: real): (r: F64)
    requires k > 0.0
    ensures x.Num? <==> r.Num?
    ensures x.Num? ==> r.value == x.value * k
    ensures !x.Num? ==> r == x
  {
    match x
    case Num(v) => Num(v * k)
    case _ => x
  }

  /** `a - b` on floats: NaN in, NaN out; an infinity minus itself is NaN. */
  function Minus(a: F64, b: F64): (r: F64)
    ensures a.Num? && b.Num? ==> r == Num(a.value - b.value)
    ensures a.NaN? || b.NaN? ==> r.NaN?
    ensures a == b && !a.Num? ==> r.NaN?
    ensures a.Num? && b.PosInf? ==> r.NegInf?
    ensures a.PosInf? && !b.PosInf? && !b.NaN? ==> r.PosInf?
  {
    match (a, b)
    case (NaN, _) => NaN
    case (_, NaN) => NaN
    case (Num(x), Num(y)) => Num(x - y)
    case (PosInf, PosInf) => NaN
    case (NegInf, NegInf) => NaN
    case (PosInf, _) => PosInf
    case (NegInf, _) => NegInf
    case (_, PosInf) => NegInf
    case (_, NegInf) => PosInf
  }

  /** `x / k` on floats, for a positive finite divisor `k`. */
  function DivideBy(x: F64, k: real): (r: F64)
    requires k > 0.0
    ensures x.Num? <==> r.Num?
    ensures x.Num? ==> r.value * k == x.value
    ensures !x.Num? ==> r == x
  {
    match x
    case Num(v) => Num(v / k)
    case _ => x
  }

  /** A part no larger than a positive whole is at most the whole, as a fraction. */
  lemma FractionAtMostOne(part: real, whole: real)
    requires whole > 0.0 && 0.0 <= part <= whole
    ensures 0.0 <= part / whole <= 1.0
  {
    var q := part / whole;
    assert q * whole == part;
    assert (1.0 - q) * whole >= 0.0;
  }

  function Sum(xs: seq<real>): real {
    if xs == [] then 0.0 else Sum(xs[..|xs| - 1]) + xs[|xs| - 1]
  }

  /** A sum of values that lie between two bounds lies between the bounds times the count. */
  lemma {:induction false} SumBounds(xs: seq<real>, lo: real, hi: real)
    requires forall j :: 0 <= j < |xs| ==> lo <= xs[j] <= hi
    ensures |xs| as real * lo <= Sum(xs) <= |xs| as real * hi
  {
    if xs != [] {
      SumBounds(xs[..|xs| - 1], lo, hi);
    }
  }

  /** A quotient of a sum by a positive count lies between bounds the sum allows. */
  lemma MeanBetween(sum: real, n: real, lo: real, hi: real)
    requires n > 0.0 && n * lo <= sum <= n * hi
    ensures lo <= sum / n <= hi
  {
    var q := sum / n;
    assert q * n == sum;
    assert (q - lo) * n >= 0.0;
    assert (hi - q) * n >= 0.0;
  }

  /** The mean of readings that lie between two bounds lies between them. */
  lemma MeanWithin(v: seq<real>, lo: real, hi: real)
    requires v != []
    requires forall j :: 0 <= j < |v| ==> lo <= v[j] <= hi
    ensures var m := Divide(Sum(v), |v| as real);
      m.Num? && lo <= m.value <= hi
  {
    SumBounds(v, lo, hi);
    MeanBetween(Sum(v), |v| as real, lo, hi);
  }

  /** Rust `x as u8` on a float: truncates toward zero and saturates; NaN becomes 0. */
  function SaturatingU8(x: F64): (r: u8)
    ensures x.Num? && 0.0 <= x.value < 256.0 ==> r as real <= x.value < r as real + 1.0
    ensures x.Num? && x.value >= 256.0 ==> r == 255
    ensures x.NaN? || x.NegInf? || (x.Num? && x.value < 1.0) ==> r == 0
    ensures x.PosInf? ==> r == 255
  {
    match x
    case Num(v) => if v < 0.0 then 0 else if v >= 255.0 then 255 else v.Floor
    case PosInf => 255
    case NegInf => 0
    case NaN => 0
  }
}
