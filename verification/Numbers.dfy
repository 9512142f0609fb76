/**
 Exact comparison of int64 with binary64 (section 3.4 of IEEE 754: a finite value
 is m * 2^e with a 53-bit m). NaN is unordered, as in section 5.11.
 */
module Numbers {
  const TWO63 := 0x8000_0000_0000_0000
  const TWO53 := 0x20_0000_0000_0000

  type Int64 = n: int | -TWO63 <= n < TWO63

  function Pow2(e: int): (r: real)
    ensures r > 0.0
    decreases if e < 0 then -e else e
  {
    if e == 0 then 1.0 else if e > 0 then 2.0 * Pow2(e - 1) else Pow2(e + 1) / 2.0
  }

  ghost predicate Scaled(x: real, m: int, e: int) {
    -TWO53 < m < TWO53 && -1074 <= e <= 971 && x == m as real * Pow2(e)
  }

  /** A finite binary64 value. */
  ghost predicate Binary64(x: real) { exists m: int, e: int :: Scaled(x, m, e) }

  datatype Float = NaN | Inf(neg: bool) | NegZero | Num(x: real)

  ghost predicate Valid(f: Float) { f.Num? ==> Binary64(f.x) }

  /** Go's float-to-int conversion: toward zero. */
  function Trunc(x: real): int { if x >= 0.0 then x.Floor else -((-x).Floor) }

  predicate Integral(x: real) { x == x.Floor as real }

  lemma {:induction false} Pow2Whole(e: nat)
    ensures Integral(Pow2(e))
  {
    if e > 0 {
      Pow2Whole(e - 1);
      var n := Pow2(e - 1).Floor;
      assert Pow2(e) == (2 * n) as real;
    }
  }

  lemma {:induction false} Pow2Half(e: int)
    requires e < 0
    ensures Pow2(e) <= 0.5
    decreases -e
  {
    if e < -1 { Pow2Half(e + 1); }
  }

  lemma ScaledUp(m: int, e: nat)
    ensures Integral(m as real * Pow2(e))
  {
    Pow2Whole(e);
    var n := Pow2(e).Floor;
    assert m as real * Pow2(e) == (m * n) as real;
  }

  lemma ScaledDown(m: int, p: real)
    requires -TWO53 < m < TWO53 && 0.0 < p <= 0.5
    ensures -(TWO53 as real) < m as real * p < TWO53 as real
  {
    RealLess(m, TWO53);
    RealLess(-TWO53, m);
    Shrinks(m as real, p, TWO53 as real);
  }

  lemma Shrinks(x: real, p: real, bound: real)
    requires -bound < x < bound && 0.0 < p <= 0.5
    ensures -bound < x * p < bound
  {
    if x >= 0.0 {
      Part(x, p);
      Between(0.0, x * p, x, bound);
    } else {
      var y := -x;
      Part(y, p);
      Opposite(x, y, p);
      Between(x, x * p, 0.0, bound);
    }
  }

  lemma Part(x: real, p: real)
    requires x >= 0.0 && 0.0 < p <= 0.5
    ensures 0.0 <= x * p <= x
  {
    assert x * (1.0 - p) >= 0.0;
    assert x * (1.0 - p) == x - x * p;
  }

  lemma Opposite(x: real, y: real, p: real)
    requires y == -x
    ensures y * p == -(x * p)
  {
  }

  lemma Between(a: real, q: real, b: real, bound: real)
    requires -bound < a <= q <= b < bound
    ensures -bound < q < bound
  {
  }

  lemma RealLess(a: int, b: int)
    requires a < b
    ensures a as real < b as real
  {
  }

  /** A number with a fraction is small, so its integer part is exact. */
  lemma WholeOrSmall(x: real)
    requires Binary64(x)
    ensures Integral(x) || -(TWO53 as real) < x < TWO53 as real
  {
    var m: int, e: int :| Scaled(x, m, e);
    if e >= 0 {
      ScaledUp(m, e);
    } else {
      Pow2Half(e);
      ScaledDown(m, Pow2(e));
    }
  }

  lemma TruncStaysSmall(x: real)
    requires -(TWO53 as real) < x < TWO53 as real
    ensures -TWO53 < Trunc(x) < TWO53
  {
  }

  lemma SmallIsBinary64(n: int)
    requires -TWO53 < n < TWO53
    ensures Binary64(n as real)
  {
    assert Pow2(0) == 1.0;
    assert Scaled(n as real, n, 0);
  }

  lemma TruncOfWhole(x: real)
    requires Integral(x)
    ensures Trunc(x) as real == x
  {
    var n := x.Floor;
    assert -x == (-n) as real;
  }

  /** int64(f) converted back to a float is exact: the truncation of a binary64 is a binary64. */
  lemma TruncIsExact(x: real)
    requires Binary64(x)
    ensures Binary64(Trunc(x) as real)
  {
    hide Binary64, Trunc;
    WholeOrSmall(x);
    if Integral(x) {
      TruncOfWhole(x);
    } else {
      TruncStaysSmall(x);
      SmallIsBinary64(Trunc(x));
    }
  }

  /** float64(n), defined where it does not round. */
  function ToFloat(n: int): real
    requires Binary64(n as real)
  {
    n as real
  }

  /** compareIntFloat. */
  function CompareIntFloat(n: Int64, f: Float): (r: int)
    requires Valid(f)
  {
    match f
    case NaN => 1
    case Inf(neg) => if neg then 1 else -1
    case NegZero => if n < 0 then -1 else if n > 0 then 1 else 0
    case Num(x) =>
      if x >= TWO63 as real then -1
      else if x < -(TWO63 as real) then 1
      else
        var tf := Trunc(x);
        if n < tf then -1
        else if n > tf then 1
        else
          TruncIsExact(x);
          var frac := x - ToFloat(tf);
          if frac > 0.0 then -1 else if frac < 0.0 then 1 else 0
  }

  /** The extended real line, and the exact order on it. */
  datatype Extended = Below | Real(x: real) | Above

  function Point(f: Float): Extended
    requires !f.NaN?
  {
    match f
    case Inf(neg) => if neg then Below else Above
    case NegZero => Real(0.0)
    case Num(x) => Real(x)
  }

  function Order(a: Extended, b: Extended): int {
    match (a, b)
    case (Real(x), Real(y)) => if x < y then -1 else if x > y then 1 else 0
    case (Below, Below) => 0
    case (Above, Above) => 0
    case (Below, _) => -1
    case (_, Below) => 1
    case (Above, _) => 1
    case (_, Above) => -1
  }

  /** Never through a rounding conversion: the sign is that of the exact difference. */
  lemma IntFloatIsExact(n: Int64, f: Float)
    requires Valid(f) && !f.NaN?
    ensures CompareIntFloat(n, f) == Order(Real(n as real), Point(f))
  {
  }

  datatype Number = Whole(n: Int64) | Frac(f: Float)

  ghost predicate ValidNumber(a: Number) { a.Frac? ==> Valid(a.f) }

  predicate FloatLess(a: Float, b: Float) { !a.NaN? && !b.NaN? && Order(Point(a), Point(b)) < 0 }

  /** CompareNumeric on numeric operands. */
  function CompareNumeric(a: Number, b: Number): int
    requires ValidNumber(a) && ValidNumber(b)
  {
    match (a, b)
    case (Whole(m), Whole(n)) => if m < n then -1 else if m > n then 1 else 0
    case (Frac(x), Frac(y)) => if FloatLess(x, y) then -1 else if FloatLess(y, x) then 1 else 0
    case (Whole(m), Frac(y)) => CompareIntFloat(m, y)
    case (Frac(x), Whole(n)) => -CompareIntFloat(n, x)
  }

  function NumberPoint(a: Number): Extended
    requires a.Frac? ==> !a.f.NaN?
  {
    match a case Whole(n) => Real(n as real) case Frac(f) => Point(f)
  }

  /** On NaN-free numbers CompareNumeric is the exact order, so sorting by it is well defined. */
  lemma NumericIsExact(a: Number, b: Number)
    requires ValidNumber(a) && ValidNumber(b) && (a.Frac? ==> !a.f.NaN?) && (b.Frac? ==> !b.f.NaN?)
    ensures CompareNumeric(a, b) == Order(NumberPoint(a), NumberPoint(b))
    ensures CompareNumeric(b, a) == -CompareNumeric(a, b)
  {
    if a.Whole? && b.Frac? { IntFloatIsExact(a.n, b.f); }
    if a.Frac? && b.Whole? { IntFloatIsExact(b.n, a.f); }
  }

  lemma NumericIsTransitive(a: Number, b: Number, c: Number)
    requires ValidNumber(a) && ValidNumber(b) && ValidNumber(c)
    requires (a.Frac? ==> !a.f.NaN?) && (b.Frac? ==> !b.f.NaN?) && (c.Frac? ==> !c.f.NaN?)
    requires CompareNumeric(a, b) <= 0 && CompareNumeric(b, c) <= 0
    ensures CompareNumeric(a, c) <= 0 && (CompareNumeric(a, c) == 0 <==> CompareNumeric(a, b) == 0 && CompareNumeric(b, c) == 0)
  {
    NumericIsExact(a, b);
    NumericIsExact(b, c);
    NumericIsExact(a, c);
    hide CompareNumeric, NumberPoint;
  }
}
