/**
 What the lexer accepts, said from the writer's side: the spellings of numbers, names, strings and
 operators are each one whole token of their kind, and a numbered escape stands for its character.
 */
module Spellings {
  import opened Options
  import opened Lexing
  import opened LexLocality
  import opened Relex

  // ----- numbers -----

  predicate AllIn(b: Base, s: string) { forall i :: 0 <= i < |s| ==> InBase(b, s[i]) }

  lemma {:induction false} DigitsRun(b: Base, s: string, rest: string)
    requires AllIn(b, s) && (rest == [] || (!InBase(b, rest[0]) && rest[0] != '_'))
    ensures Separated(b, s + rest, false) == Some(|s|)
    decreases |s|
  {
    if s == [] {
      assert s + rest == rest;
    } else {
      assert (s + rest)[1..] == s[1..] + rest;
      DigitsRun(b, s[1..], rest);
    }
  }

  /** Two groups of digits may be joined by one underscore. */
  lemma {:induction false} DigitsJoin(b: Base, s: string, t: string)
    requires AllIn(b, s) && AllIn(b, t) && t != []
    ensures Separated(b, s + "_" + t, false) == Some(|s| + 1 + |t|)
    decreases |s|
  {
    var u := s + "_" + t;
    assert t + [] == t;
    if s == [] {
      assert u[1..] == t && t[1..] + [] == t[1..];
      DigitsRun(b, t[1..], []);
      assert u[0] == '_';
    } else {
      assert u[1..] == s[1..] + "_" + t;
      DigitsJoin(b, s[1..], t);
    }
  }

  predicate Numeral(s: string) { s != [] && AllIn(Dec, s) }

  lemma DecimalSpelled(s: string, kind: Kind)
    requires s != [] && Digit(s[0]) && Decimal(s) == Some(Scanned(kind, |s|)) && (|s| > 1 ==> Digit(s[1]) || s[1] == '.' || s[1] == '_' || s[1] == 'e')
    ensures Spelled(Lexeme(kind, s))
  {
    hide Decimal;
  }

  /** Digits, with a fraction, with an exponent: an integer, and floats. */
  lemma DecimalsAreNumbers(a: string, b: string)
    requires Numeral(a) && Numeral(b)
    ensures Spelled(Lexeme(IntLit, a)) && Spelled(Lexeme(IntLit, a + "_" + b))
    ensures Spelled(Lexeme(FloatLit, a + "." + b)) && Spelled(Lexeme(FloatLit, a + "e" + b)) && Spelled(Lexeme(FloatLit, a + "e-" + b))
  {
    WholeNumbers(a, b);
    Fractions(a, b);
    Exponents(a, b);
  }

  lemma WholeNumbers(a: string, b: string)
    requires Numeral(a) && Numeral(b)
    ensures Spelled(Lexeme(IntLit, a)) && Spelled(Lexeme(IntLit, a + "_" + b))
  {
    DigitsRun(Dec, a, []);
    assert a + [] == a && a[|a|..] == [];
    DecimalSpelled(a, IntLit);
    var s := a + "_" + b;
    DigitsJoin(Dec, a, b);
    assert s[|s|..] == [];
    DecimalSpelled(s, IntLit);
  }

  lemma Fractions(a: string, b: string)
    requires Numeral(a) && Numeral(b)
    ensures Spelled(Lexeme(FloatLit, a + "." + b))
  {
    var s := a + "." + b;
    DigitsRun(Dec, a, "." + b);
    assert s == a + ("." + b);
    var t := s[|a|..];
    assert t == "." + b && t[1..] == b;
    DigitsRun(Dec, b, []);
    assert b + [] == b && s[|a| + (1 + |b|)..] == [];
    DecimalSpelled(s, FloatLit);
  }

  lemma Exponents(a: string, b: string)
    requires Numeral(a) && Numeral(b)
    ensures Spelled(Lexeme(FloatLit, a + "e" + b)) && Spelled(Lexeme(FloatLit, a + "e-" + b))
  {
    ExponentOf(a, "e", b);
    ExponentOf(a, "e-", b);
  }

  lemma ExponentOf(a: string, e: string, b: string)
    requires Numeral(a) && Numeral(b) && (e == "e" || e == "e-")
    ensures Spelled(Lexeme(FloatLit, a + e + b))
  {
    var s := a + e + b;
    DigitsRun(Dec, a, e + b);
    assert s == a + (e + b);
    var t := s[|a|..];
    assert t == e + b && t[|e|..] == b && s[|a| + 0..] == t;
    RunOver(Digits, b, []);
    assert b + [] == b && Run(Digits, []) == 0;
    assert b[0] != '+' && b[0] != '-';
    assert Exponent(t) == Some(|t|);
    DecimalSpelled(s, FloatLit);
  }

  /** A prefixed base and its digits are one integer. */
  lemma BasedAreNumbers(b: Base, prefix: string, s: string)
    requires s != [] && AllIn(b, s)
    requires (b == Hex && prefix == "0x") || (b == Oct && prefix == "0o") || (b == Bin && prefix == "0b")
    ensures Spelled(Lexeme(IntLit, prefix + s))
  {
    var t := prefix + s;
    assert t[2..] == s && t[2] == s[0] && s + [] == s;
    DigitsRun(b, s, []);
    assert BaseOf(t) == Some(b) && Based(b, t) == Some(Scanned(IntLit, |t|));
  }

  // ----- names, strings, operators -----

  predicate Name(s: string) { s != [] && Letter(s[0]) && |s| <= MAX_NAME && forall i :: 0 <= i < |s| ==> IdentPart(s[i]) }

  /** A name is an identifier or a keyword, and with a `$` a variable. */
  lemma NamesAreWords(s: string)
    requires Name(s)
    ensures Spelled(Lexeme(if s in KEYWORDS then Keyword else Ident, s)) && Spelled(Lexeme(VarRef, "$" + s))
  {
    WordIs(s);
    LettersScan(s);
    Variables(s);
    hide Scan, Word, Name;
  }

  lemma WordIs(s: string)
    requires Name(s)
    ensures Word(s) == Some(Scanned(if s in KEYWORDS then Keyword else Ident, |s|))
  {
    RunOver(WordChars, s, []);
    assert s + [] == s && Run(WordChars, []) == 0 && s[..|s|] == s;
    assert IdentPart(s[|s| - 1]);
    hide Run;
  }

  lemma LettersScan(s: string)
    requires s != [] && Letter(s[0]) && Word(s).Some?
    ensures Scan(s) == (if Word(s).value.len == 0 then None else Word(s)) && !Blank(s[0]) && s[0] != '#' && !OpensComment(s)
  {
    hide Word, Number, RawRest, CookedRest, Run;
  }

  lemma Variables(s: string)
    requires Name(s)
    ensures Spelled(Lexeme(VarRef, "$" + s))
  {
    RunOver(NameChars, s, []);
    assert s + [] == s && Run(NameChars, []) == 0;
    var v := "$" + s;
    assert v[1..] == s && v[1] == s[0];
    hide Run, Number, Word, RawRest, CookedRest;
  }

  lemma {:induction false} RawCloses(s: string)
    requires '\'' !in s
    ensures RawRest(s + "'") == Some(|s| + 1)
  {
    if s != [] {
      assert (s + "'")[1..] == s[1..] + "'";
      RawCloses(s[1..]);
    }
  }

  /** Anything between single quotes is a string, as it stands. */
  lemma RawIsString(s: string)
    requires '\'' !in s
    ensures Spelled(Lexeme(StrLit, "'" + s + "'"))
  {
    var t := "'" + s + "'";
    assert t[1..] == s + "'";
    RawCloses(s);
    hide RawRest, Number, Word, CookedRest;
  }

  const OPERATORS := {
    "{", "}", "(", ")", "[", "]", ";", ":", ",", ".", "..", "=", "==", "!=", "<", "<=", ">", ">=", "+", "-", "*", "/", "//", "%",
    "&", "|", "^", "~", "<<", ">>" }

  /** Every operator and mark is one token. */
  lemma OperatorsAreMarks(op: string)
    requires op in OPERATORS
    ensures Spelled(Lexeme(Punct, op))
  {
    hide Number, Word, CookedRest, RawRest, Run;
  }

  // ----- numbered escapes -----

  const HEX := "0123456789abcdef"

  /** v in n hexadecimal digits. */
  function Digits16(v: nat, n: nat): (s: string)
    ensures |s| == n
  {
    if n == 0 then "" else Digits16(v / 16, n - 1) + [HEX[v % 16]]
  }

  function Pow16(n: nat): nat { if n == 0 then 1 else 16 * Pow16(n - 1) }

  lemma {:induction false} HexRunSplit(a: string, b: string, n: nat, acc: nat)
    requires HexRun(a, |a|, acc).Some?
    ensures HexRun(a + b, |a| + n, acc) == HexRun(b, n, HexRun(a, |a|, acc).value)
    decreases |a|
  {
    if a == [] {
      assert a + b == b;
    } else {
      assert (a + b)[1..] == a[1..] + b;
      HexRunSplit(a[1..], b, n, acc * 16 + HexValue(a[0]));
    }
  }

  lemma HexBack(d: nat)
    requires d < 16
    ensures HexDigit(HEX[d]) && HexValue(HEX[d]) == d
  {
  }

  lemma {:induction false} DigitsReadBack(v: nat, n: nat)
    requires v < Pow16(n)
    ensures HexRun(Digits16(v, n), n, 0) == Some(v)
    decreases n
  {
    if n > 0 {
      var front := Digits16(v / 16, n - 1);
      DigitsReadBack(v / 16, n - 1);
      HexRunSplit(front, [HEX[v % 16]], 1, 0);
      HexBack(v % 16);
      assert [HEX[v % 16]][1..] == [];
      assert HexRun([HEX[v % 16]], 1, v / 16) == Some(v / 16 * 16 + v % 16);
    }
  }

  lemma {:induction false} HexRunPrefix(a: string, rest: string, acc: nat)
    ensures HexRun(a + rest, |a|, acc) == HexRun(a, |a|, acc)
    decreases |a|
  {
    if a == [] {
      assert a + rest == rest;
    } else {
      assert (a + rest)[1..] == a[1..] + rest;
      if HexDigit(a[0]) { HexRunPrefix(a[1..], rest, acc * 16 + HexValue(a[0])); }
    }
  }

  /** `\u` with four digits and `\U` with eight stand for the character of that number, if there is one. */
  lemma EscapesStandFor(v: nat, rest: string)
    ensures v < 0x1_0000 ==> Escape("u" + Digits16(v, 4) + rest) == if CodePoint(v) then Some(Escaped(v as char, 5)) else None
    ensures v < 0x1_0000_0000 ==> Escape("U" + Digits16(v, 8) + rest) == if CodePoint(v) then Some(Escaped(v as char, 9)) else None
  {
    Powers();
    if v < 0x1_0000 { EscapeOf("u", v, 4, rest); }
    if v < 0x1_0000_0000 { EscapeOf("U", v, 8, rest); }
  }

  lemma Powers()
    ensures Pow16(4) == 0x1_0000 && Pow16(8) == 0x1_0000_0000
  {
    assert Pow16(1) == 16 && Pow16(2) == 256 && Pow16(3) == 4096;
    assert Pow16(5) == 0x10_0000 && Pow16(6) == 0x100_0000 && Pow16(7) == 0x1000_0000;
  }

  lemma EscapeOf(mark: string, v: nat, n: nat, rest: string)
    requires v < Pow16(n) && ((mark == "u" && n == 4) || (mark == "U" && n == 8))
    ensures Escape(mark + Digits16(v, n) + rest) == if CodePoint(v) then Some(Escaped(v as char, n + 1)) else None
  {
    hide Pow16, HexRun, Digits16, Escape, Unicode;
    var s := mark + Digits16(v, n) + rest;
    DigitsReadBack(v, n);
    HexRunPrefix(Digits16(v, n), rest, 0);
    assert s[0] == mark[0] && s[1..] == Digits16(v, n) + rest;
    ByMark(s);
    ByNumber(s, n, v);
  }

  lemma ByMark(s: string)
    requires s != []
    ensures s[0] == 'u' ==> Escape(s) == Unicode(s, 4)
    ensures s[0] == 'U' ==> Escape(s) == Unicode(s, 8)
  {
    hide Unicode;
  }

  lemma ByNumber(s: string, n: nat, v: nat)
    requires n >= 1 && |s| >= n + 1 && HexRun(s[1..], n, 0) == Some(v)
    ensures Unicode(s, n) == if CodePoint(v) then Some(Escaped(v as char, n + 1)) else None
  {
    hide HexRun;
  }
}
