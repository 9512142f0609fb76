/**
 The strings that map keys are hashed by. Distinct codes are spelled differently, so two
 hashable keys have the same string exactly when they are equal.
 */
module KeyText {
  import opened Numbers
  import opened Equality

  const DIGITS := "0123456789abcdef"

  function DigitValue(c: char): nat { if '0' <= c <= '9' then (c - '0') as nat else if 'a' <= c <= 'f' then (c - 'a') as nat + 10 else 0 }

  datatype Base = Ten | Sixteen

  function Size(b: Base): nat { if b.Ten? then 10 else 16 }

  /** All digits but the last, and the last. */
  function Front(n: nat, b: Base): nat { if b.Ten? then n / 10 else n / 16 }
  function Last(n: nat, b: Base): nat { if b.Ten? then n % 10 else n % 16 }

  /** strconv.FormatUint */
  function Spelled(n: nat, b: Base): (s: string)
    ensures s != [] && s[0] != '-'
  {
    if n < Size(b) then [DIGITS[n]] else Spelled(Front(n, b), b) + [DIGITS[Last(n, b)]]
  }

  /** Reads the digits back. */
  function Read(s: string, b: Base): nat {
    if s == [] then 0 else Size(b) * Read(s[..|s| - 1], b) + DigitValue(s[|s| - 1])
  }

  lemma DigitBack(d: nat)
    requires d < 16
    ensures DigitValue(DIGITS[d]) == d
  {
  }

  lemma {:induction false} SpelledReadsBack(n: nat, b: Base)
    ensures Read(Spelled(n, b), b) == n
    decreases n
  {
    hide Read, DigitValue;
    if n < Size(b) {
      DigitBack(n);
      ReadMore("", DIGITS[n], b);
      assert "" + [DIGITS[n]] == [DIGITS[n]];
      ReadNothing(b);
    } else {
      DigitBack(Last(n, b));
      SpelledReadsBack(Front(n, b), b);
      ReadMore(Spelled(Front(n, b), b), DIGITS[Last(n, b)], b);
    }
  }

  lemma ReadNothing(b: Base)
    ensures Read("", b) == 0
  {
  }

  lemma ReadMore(s: string, c: char, b: Base)
    ensures Read(s + [c], b) == (if b.Ten? then 10 * Read(s, b) else 16 * Read(s, b)) + DigitValue(c)
  {
    assert (s + [c])[..|s|] == s;
  }

  /** strconv.FormatInt, base 10 */
  function Decimal(n: int): string { if n < 0 then "-" + Spelled(-n, Ten) else Spelled(n, Ten) }

  lemma DecimalIsExact(a: int, b: int)
    requires Decimal(a) == Decimal(b)
    ensures a == b
  {
    SpelledReadsBack(if a < 0 then -a else a, Ten);
    SpelledReadsBack(if b < 0 then -b else b, Ten);
    if a < 0 {
      assert Decimal(a)[0] == '-' && Decimal(a)[1..] == Spelled(-a, Ten);
    }
    if b < 0 {
      assert Decimal(b)[0] == '-' && Decimal(b)[1..] == Spelled(-b, Ten);
    }
  }

  /** A machine representation tells the representable floats apart. */
  ghost predicate OneToOne(bits: Float -> nat) {
    forall f: Float, g: Float :: Valid(f) && Valid(g) && bits(f) == bits(g) ==> f == g
  }

  /** One such representation: a significand and an exponent in one number, after four numbers for the rest. */
  ghost function Packed(f: Float): nat {
    match f
    case NaN => 0
    case Inf(neg) => if neg then 1 else 2
    case NegZero => 3
    case Num(x) =>
      if Binary64(x) then
        var m: int, e: int :| Scaled(x, m, e);
        Pack(m + TWO53, e + 1074)
      else 0
  }

  function Pack(a: nat, b: nat): nat { 4 + 2048 * a + b }

  lemma Unpack(a: nat, b: nat)
    requires b < 2048
    ensures (Pack(a, b) - 4) / 2048 == a && (Pack(a, b) - 4) % 2048 == b
  {
  }

  lemma PackedParts(x: real)
    requires Binary64(x)
    ensures Packed(Num(x)) >= 4
    ensures Scaled(x, (Packed(Num(x)) - 4) / 2048 - TWO53, (Packed(Num(x)) - 4) % 2048 - 1074)
  {
    hide Pow2, Pack;
    var m: int, e: int :| Scaled(x, m, e) && Packed(Num(x)) == Pack(m + TWO53, e + 1074);
    Unpack(m + TWO53, e + 1074);
  }

  /** Representable floats do fit in numbers, so what is proved of every representation is proved of some. */
  lemma RepresentationExists()
    ensures exists bits: Float -> nat :: OneToOne(bits)
  {
    hide Pow2, Pack;
    var bits := (f: Float) => Packed(f);
    forall f: Float, g: Float | Valid(f) && Valid(g) && bits(f) == bits(g) ensures f == g {
      if f.Num? { PackedParts(f.x); }
      if g.Num? { PackedParts(g.x); }
    }
    assert OneToOne(bits);
  }

  ghost predicate ValidCode(c: Code) { c.OfFloat? ==> Valid(c.f) }

  /** mapKeyEncode's string for a code. */
  function KeyString(bits: Float -> nat, c: Code): string {
    match c
    case OfString(s) => "s" + s
    case OfInt(n) => "i" + Decimal(n)
    case OfFloat(f) => "f" + Spelled(bits(f), Sixteen)
    case OfBool(b) => if b then "b1" else "b0"
    case OfNull => "n"
  }

  lemma StringIsCode(bits: Float -> nat, c: Code, d: Code)
    requires OneToOne(bits) && ValidCode(c) && ValidCode(d) && KeyString(bits, c) == KeyString(bits, d)
    ensures c == d
  {
    assert KeyString(bits, c)[0] == KeyString(bits, d)[0];
    assert KeyString(bits, c)[1..] == KeyString(bits, d)[1..];
    match (c, d)
    case (OfString(s), OfString(t)) => assert ("s" + s)[1..] == s && ("s" + t)[1..] == t;
    case (OfInt(a), OfInt(b)) =>
      assert ("i" + Decimal(a))[1..] == Decimal(a) && ("i" + Decimal(b))[1..] == Decimal(b);
      DecimalIsExact(a, b);
    case (OfFloat(f), OfFloat(g)) =>
      assert ("f" + Spelled(bits(f), Sixteen))[1..] == Spelled(bits(f), Sixteen) && ("f" + Spelled(bits(g), Sixteen))[1..] == Spelled(bits(g), Sixteen);
      SpelledReadsBack(bits(f), Sixteen);
      SpelledReadsBack(bits(g), Sixteen);
    case _ =>
  }

  /** Main result: hashable keys share a string exactly when they are equal. */
  lemma SameStringIsEqual(bits: Float -> nat, k: Value, l: Value)
    requires OneToOne(bits) && Clean(k) && Clean(l) && Encode(k).Some? && Encode(l).Some?
    ensures KeyString(bits, Encode(k).value) == KeyString(bits, Encode(l).value) <==> Same(k, l)
  {
    assert ValidCode(Encode(k).value) && ValidCode(Encode(l).value);
    hide Encode, Same;
    EncodeIsEquality(k, l);
    if KeyString(bits, Encode(k).value) == KeyString(bits, Encode(l).value) { StringIsCode(bits, Encode(k).value, Encode(l).value); }
  }
}
