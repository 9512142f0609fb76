/** Checked int64 arithmetic: probes on wrapped machine results, and floored division built on truncation. */
module Arithmetic {
  import opened Numbers

  const TWO64 := 0x1_0000_0000_0000_0000

  predicate Fits(n: int) { -TWO63 <= n < TWO63 }

  /** Two's-complement wrap-around of a mathematical result. */
  function Wrap(n: int): (r: Int64)
    ensures exists k: int :: r == n - k * TWO64
    ensures Fits(n) ==> r == n
  {
    var m := (n + TWO63) % TWO64;
    assert m - TWO63 == n - ((n + TWO63) / TWO64) * TWO64;
    m - TWO63
  }

  datatype Checked = Checked(value: Int64, overflow: bool)

  function AddOverflow(a: Int64, b: Int64): Checked {
    var s := Wrap(a + b);
    if (a > 0 && b > 0 && s < 0) || (a < 0 && b < 0 && s >= 0) then Checked(0, true) else Checked(s, false)
  }

  function SubOverflow(a: Int64, b: Int64): Checked {
    var d := Wrap(a - b);
    if (a >= 0 && b < 0 && d < 0) || (a < 0 && b > 0 && d >= 0) then Checked(0, true) else Checked(d, false)
  }

  /** Go's integer division, toward zero; the quotient is what the machine would give before wrapping. */
  function TruncDiv(a: int, b: int): int
    requires b != 0
  {
    if a >= 0 && b > 0 then a / b
    else if a < 0 && b > 0 then -((-a) / b)
    else if a >= 0 then -(a / (-b))
    else (-a) / (-b)
  }

  function TruncMod(a: int, b: int): int
    requires b != 0
  {
    a - TruncDiv(a, b) * b
  }

  /** The remainder of a truncated division is small and has the dividend's sign. */
  lemma TruncModIs(a: int, b: int)
    requires b != 0
    ensures var r := TruncMod(a, b);
            (a >= 0 ==> 0 <= r < if b > 0 then b else -b) && (a <= 0 ==> (if b > 0 then -b else b) < r <= 0)
  {
    hide TruncDiv;
    TruncSize(a, b);
    var d := Abs(a) / Abs(b);
    DivBounds(Abs(a), Abs(b));
    assert TruncMod(a, b) == if (a < 0) == (b < 0) then a - d * b else a + d * b by {
      assert -d * b == -(d * b);
    }
    assert d * Abs(b) == if b < 0 then -(d * b) else d * b;
  }

  lemma DivBounds(p: nat, q: nat)
    requires q > 0
    ensures 0 <= p - (p / q) * q < q
  {
  }

  function MulOverflow(a: Int64, b: Int64): Checked {
    if a == 0 || b == 0 then Checked(0, false)
    else if (a == -TWO63 && b == -1) || (b == -TWO63 && a == -1) then Checked(0, true)
    else
      var p := Wrap(a * b);
      if TruncDiv(p, a) != b then Checked(0, true) else Checked(p, false)
  }

  /** What a probe must answer for the mathematical result n. */
  predicate Exact(c: Checked, n: int) { c.overflow == !Fits(n) && (Fits(n) ==> c.value == n) }

  lemma WrapOnce(n: int)
    requires -TWO64 <= n < TWO64
    ensures Wrap(n) == if n < -TWO63 then n + TWO64 else if n >= TWO63 then n - TWO64 else n
  {
  }

  lemma AddIsExact(a: Int64, b: Int64)
    ensures Exact(AddOverflow(a, b), a + b)
  {
    WrapOnce(a + b);
  }

  lemma SubIsExact(a: Int64, b: Int64)
    ensures Exact(SubOverflow(a, b), a - b)
  {
    WrapOnce(a - b);
  }

  lemma MulDivides(a: int, b: int)
    requires a != 0
    ensures TruncDiv(a * b, a) == b
  {
    if b >= 0 {
      if a > 0 { DivBack(a, b); } else { DivBack(-a, b); assert -(a * b) == (-a) * b; }
    } else {
      if a > 0 { DivBack(a, -b); assert -(a * b) == a * (-b); } else { DivBack(-a, -b); assert a * b == (-a) * (-b); }
    }
    Signs(a, b);
  }

  lemma Signs(a: int, b: int)
    ensures a > 0 && b >= 0 ==> a * b >= 0
    ensures a < 0 && b > 0 ==> a * b < 0
    ensures a > 0 && b < 0 ==> a * b < 0
    ensures a < 0 && b < 0 ==> a * b > 0
  {
  }

  lemma MulMono(x: int, y: int, c: nat)
    requires x <= y
    ensures x * c <= y * c
  {
  }

  lemma SmallMultiple(d: int, a: nat)
    requires 0 <= d * a < a
    ensures d == 0
  {
    if d >= 1 { MulMono(1, d, a); } else if d <= -1 { MulMono(d, -1, a); }
  }

  lemma DivBack(a: nat, b: nat)
    requires a > 0
    ensures (a * b) / a == b
  {
    var q := (a * b) / a;
    assert (b - q) * a == (a * b) % a;
    SmallMultiple(b - q, a);
  }

  /** A wrapped product is off by a multiple of 2^64, too much for any remainder to hide. */
  lemma WrappedProductShows(a: Int64, b: Int64)
    requires a != 0 && !Fits(a * b)
    ensures TruncDiv(Wrap(a * b), a) != b
  {
    hide TruncDiv;
    var p, q := Wrap(a * b), a * b;
    var k: int :| p == q - k * TWO64;
    assert k != 0;
    assert q - p >= TWO64 || p - q >= TWO64;
    FarFromMultiple(p, a, b, q);
  }

  lemma FarFromMultiple(p: int, a: int, b: int, q: int)
    requires a != 0 && q == a * b && (p - q >= Abs(a) || q - p >= Abs(a))
    ensures TruncDiv(p, a) != b
  {
    hide TruncDiv;
    TruncModIs(p, a);
  }

  lemma MulIsExact(a: Int64, b: Int64)
    ensures Exact(MulOverflow(a, b), a * b)
  {
    if a != 0 && b != 0 && !((a == -TWO63 && b == -1) || (b == -TWO63 && a == -1)) {
      if Fits(a * b) { MulDivides(a, b); } else { WrappedProductShows(a, b); }
    }
  }

  // ----- floored division -----

  /** Quotient of `//`: truncation, stepped down when signs differ and something is left over. */
  function FlooredDiv(a: Int64, b: Int64): int
    requires b != 0
  {
    var q := TruncDiv(a, b);
    if TruncMod(a, b) != 0 && ((a < 0) != (b < 0)) then q - 1 else q
  }

  function FlooredMod(a: Int64, b: Int64): int
    requires b != 0
  {
    var r := TruncMod(a, b);
    if r != 0 && ((r < 0) != (b < 0)) then r + b else r
  }

  /** The identity of floored division: q*b + r == a, and r lies between 0 and b on b's side. */
  lemma FlooredIdentity(a: Int64, b: Int64)
    requires b != 0
    ensures FlooredDiv(a, b) * b + FlooredMod(a, b) == a
    ensures if b > 0 then 0 <= FlooredMod(a, b) < b else b < FlooredMod(a, b) <= 0
  {
    TruncModIs(a, b);
    var q, r := TruncDiv(a, b), TruncMod(a, b);
    assert (q - 1) * b == q * b - b;
  }

  /** A quotient is no larger than its dividend, and at most half of it unless the divisor is 1. */
  lemma QuotientShrinks(p: nat, q: nat)
    requires q >= 1
    ensures 0 <= p / q <= p && (q >= 2 ==> 2 * (p / q) <= p)
  {
    var d := p / q;
    assert p == q * d + p % q;
    MulMono(1, q, d);
    if q >= 2 { MulMono(2, q, d); }
  }

  /** The quotient fits in int64 for every divisor but the one overflow case. */
  lemma FlooredFits(a: Int64, b: Int64)
    requires b != 0 && !(a == -TWO63 && b == -1)
    ensures Fits(FlooredDiv(a, b)) && Fits(FlooredMod(a, b))
  {
    FlooredIdentity(a, b);
    hide FlooredMod;
    QuotientShrinks(Abs(a), Abs(b));
    TruncSize(a, b);
    if Abs(b) == 1 { UnitRemainder(a, b); }
    hide TruncDiv, TruncMod;
  }

  function Abs(n: int): nat { if n >= 0 then n else -n }

  lemma TruncSize(a: int, b: int)
    requires b != 0
    ensures TruncDiv(a, b) == if (a < 0) == (b < 0) then Abs(a) / Abs(b) else -(Abs(a) / Abs(b))
  {
  }

  lemma UnitRemainder(a: int, b: int)
    requires b == 1 || b == -1
    ensures TruncMod(a, b) == 0
  {
  }

  /** MinInt64 // -1 is the one quotient that does not fit. */
  lemma OnlyOverflow()
    ensures !Fits(FlooredDiv(-TWO63, -1))
  {
  }
}
