/**
 Maximal munch looks no further than the first character that cannot continue a
 token, so a token scans the same wherever it stands, as long as what follows
 does not continue it.
 */
module LexLocality {
  import opened Options
  import opened Lexing

  /** An undotted, unprefixed integer: the only number a following `.5` would continue. */
  predicate PlainInt(l: Lexeme) { l.kind.IntLit? && BaseOf(l.text).None? }

  /** What follows a lexeme does not continue it. */
  predicate Boundary(l: Lexeme, rest: string) {
    rest == [] ||
    match l.kind
    case IntLit => !Loose(rest[0]) && (BaseOf(l.text).None? && |rest| >= 2 && rest[0] == '.' ==> !Digit(rest[1]))
    case FloatLit => !Loose(rest[0])
    case Ident => !Loose(rest[0])
    case Keyword => !Loose(rest[0])
    case VarRef => !Loose(rest[0])
    case Punct => |l.text| == 1 ==> !Continues(l.text[0], rest[0]) && !(l.text[0] == '/' && rest[0] == '*')
    case _ => true
  }

  /** The text is one whole token of this kind. */
  predicate Spelled(l: Lexeme) {
    l.text != [] && Scan(l.text) == Some(Scanned(l.kind, |l.text|)) && !OpensComment(l.text) && !Blank(l.text[0]) && l.text[0] != '#'
  }

  // ----- one lemma per scanner -----

  /** The first n characters are the same. */
  ghost predicate Agree(s: string, s': string, n: nat) {
    n <= |s| && n <= |s'| && forall i :: 0 <= i < n ==> s[i] == s'[i]
  }

  lemma AgreeDrop(s: string, s': string, n: nat, k: nat)
    requires Agree(s, s', n) && k <= n
    ensures Agree(s[k..], s'[k..], n - k)
  {
  }

  lemma {:induction false} RunLocal(cls: Class, s: string, s': string)
    requires Agree(s, s', Run(cls, s)) && (|s'| == Run(cls, s) || !In(cls, s'[Run(cls, s)]))
    ensures Run(cls, s') == Run(cls, s)
  {
    if Run(cls, s) > 0 {
      AgreeDrop(s, s', Run(cls, s), 1);
      RunLocal(cls, s[1..], s'[1..]);
    }
  }

  predicate EndsDigits(b: Base, c: char) { !InBase(b, c) && c != '_' }

  /** The character after a digit run is one that ends it. */
  lemma {:induction false} SeparatedEnds(b: Base, s: string, u: bool)
    requires Separated(b, s, u).Some? && Separated(b, s, u).value < |s|
    ensures EndsDigits(b, s[Separated(b, s, u).value])
  {
    if InBase(b, s[0]) || s[0] == '_' { SeparatedEnds(b, s[1..], !InBase(b, s[0])); }
  }

  lemma {:induction false} SeparatedLocal(b: Base, s: string, u: bool, s': string)
    requires Separated(b, s, u).Some? && Agree(s, s', Separated(b, s, u).value)
    requires |s'| == Separated(b, s, u).value || EndsDigits(b, s'[Separated(b, s, u).value])
    ensures Separated(b, s', u) == Separated(b, s, u)
  {
    if s != [] && (InBase(b, s[0]) || s[0] == '_') {
      AgreeDrop(s, s', Separated(b, s, u).value, 1);
      SeparatedLocal(b, s[1..], !InBase(b, s[0]), s'[1..]);
    }
  }

  lemma {:induction false} RawLocal(s: string, s': string)
    requires RawRest(s).Some? && Agree(s, s', RawRest(s).value)
    ensures RawRest(s') == RawRest(s)
  {
    if s[0] != '\'' {
      AgreeDrop(s, s', RawRest(s).value, 1);
      RawLocal(s[1..], s'[1..]);
    }
  }

  lemma {:induction false} NestedLocal(quote: char, s: string, s': string)
    requires NestedRest(quote, s).Some? && Agree(s, s', NestedRest(quote, s).value)
    ensures NestedRest(quote, s') == NestedRest(quote, s)
  {
    if quote != '\'' && s[0] == '\\' {
      AgreeDrop(s, s', NestedRest(quote, s).value, 2);
      NestedLocal(quote, s[2..], s'[2..]);
    } else if s[0] != quote {
      AgreeDrop(s, s', NestedRest(quote, s).value, 1);
      NestedLocal(quote, s[1..], s'[1..]);
    }
  }

  lemma {:induction false} SlotLocal(s: string, depth: nat, s': string)
    requires SlotRest(s, depth).Some? && Agree(s, s', SlotRest(s, depth).value)
    ensures SlotRest(s', depth) == SlotRest(s, depth)
    decreases |s|
  {
    var n := SlotRest(s, depth).value;
    AgreeDrop(s, s', n, 1);
    if s[0] == '{' {
      SlotLocal(s[1..], depth + 1, s'[1..]);
    } else if s[0] == '}' {
      if depth > 1 { SlotLocal(s[1..], depth - 1, s'[1..]); }
    } else if s[0] == '"' || s[0] == '\'' {
      var k := NestedRest(s[0], s[1..]).value;
      NestedLocal(s[0], s[1..], s'[1..]);
      AgreeDrop(s, s', n, k + 1);
      SlotLocal(s[k + 1..], depth, s'[k + 1..]);
    } else if s[0] == '\\' && |s| > 1 {
      AgreeDrop(s, s', n, 2);
      SlotLocal(s[2..], depth, s'[2..]);
    } else {
      SlotLocal(s[1..], depth, s'[1..]);
    }
  }

  lemma {:induction false} HexLocal(s: string, s': string, n: nat, acc: nat)
    requires Agree(s, s', n)
    ensures HexRun(s', n, acc) == HexRun(s, n, acc)
    decreases n
  {
    if n > 0 && HexDigit(s[0]) {
      AgreeDrop(s, s', n, 1);
      HexLocal(s[1..], s'[1..], n - 1, acc * 16 + HexValue(s[0]));
    }
  }

  lemma EscapeLocal(s: string, s': string)
    requires Escape(s).Some? && Agree(s, s', Escape(s).value.len)
    ensures Escape(s') == Escape(s)
  {
    var n := Escape(s).value.len;
    if n > 1 {
      AgreeDrop(s, s', n, 1);
      HexLocal(s[1..], s'[1..], n - 1, 0);
    }
  }

  lemma {:induction false} CookedLocal(s: string, s': string)
    requires CookedRest(s).Some? && Agree(s, s', CookedRest(s).value.len)
    ensures CookedRest(s') == CookedRest(s)
    decreases |s|
  {
    hide Escape, SlotRest;
    var n := CookedRest(s).value.len;
    AgreeDrop(s, s', n, 1);
    if s[0] == '"' {
    } else if s[0] == '\\' {
      CookedEscapeLocal(s, s');
      var k := Escape(s[1..]).value.len + 1;
      AgreeDrop(s, s', n, k);
      CookedLocal(s[k..], s'[k..]);
      CookedEscapeJoin(s, s', k);
    } else if s[0] == '{' {
      var k := SlotRest(s[1..], 1).value;
      SlotLocal(s[1..], 1, s'[1..]);
      AgreeDrop(s, s', n, k + 1);
      CookedLocal(s[k + 1..], s'[k + 1..]);
      assert s'[1..k] == s[1..k];
      CookedSlotJoin(s, s', k);
    } else {
      CookedLocal(s[1..], s'[1..]);
    }
  }

  lemma CookedEscapeJoin(s: string, s': string, k: nat)
    requires s != [] && s' != [] && s[0] == s'[0] == '\\' && k <= |s| && k <= |s'|
    requires Escape(s[1..]).Some? && Escape(s'[1..]) == Escape(s[1..]) && k == Escape(s[1..]).value.len + 1
    requires CookedRest(s'[k..]) == CookedRest(s[k..])
    ensures CookedRest(s') == CookedRest(s)
  {
    hide Escape, SlotRest;
  }

  lemma CookedSlotJoin(s: string, s': string, k: nat)
    requires s != [] && s' != [] && s[0] == s'[0] == '{' && 1 <= k < |s| && k < |s'| && s'[1..k] == s[1..k]
    requires SlotRest(s[1..], 1) == Some(k) == SlotRest(s'[1..], 1) && CookedRest(s'[k + 1..]) == CookedRest(s[k + 1..])
    ensures CookedRest(s') == CookedRest(s)
  {
    hide Escape, SlotRest;
  }

  lemma CookedEscapeLocal(s: string, s': string)
    requires CookedRest(s).Some? && Agree(s, s', CookedRest(s).value.len) && s != [] && s[0] == '\\'
    ensures Escape(s'[1..]) == Escape(s[1..]) && Escape(s[1..]).Some? && Escape(s[1..]).value.len + 1 <= CookedRest(s).value.len
  {
    EscapeLocal(s[1..], s'[1..]);
  }

  lemma {:induction false} CommentLocal(s: string, depth: nat, s': string)
    requires CommentRest(s, depth).Some? && Agree(s, s', CommentRest(s, depth).value)
    ensures CommentRest(s', depth) == CommentRest(s, depth)
    decreases |s|
  {
    if depth > 0 {
      var n := CommentRest(s, depth).value;
      OpenCommentLong(s, depth);
      AgreeDrop(s, s', n, 1);
      AgreeDrop(s, s', n, 2);
      if s[0] == '/' && s[1] == '*' {
        CommentLocal(s[2..], depth + 1, s'[2..]);
      } else if s[0] == '*' && s[1] == '/' {
        CommentLocal(s[2..], depth - 1, s'[2..]);
      } else {
        CommentLocal(s[1..], depth, s'[1..]);
      }
    }
  }

  /** A comment still open has a closer of two characters to come. */
  lemma {:induction false} OpenCommentLong(s: string, depth: nat)
    requires depth > 0 && CommentRest(s, depth).Some?
    ensures CommentRest(s, depth).value >= 2
    decreases |s|
  {
    if |s| >= 2 && ((s[0] == '/' && s[1] == '*') || (s[0] == '*' && s[1] == '/')) {
    } else {
      OpenCommentLong(s[1..], depth);
    }
  }

  // ----- whole tokens -----

  lemma BaseLocal(s: string, s': string, n: nat)
    requires 1 <= n && Agree(s, s', n) && (|s'| == n || !Loose(s'[n])) && (n == 1 ==> BaseOf(s).None?)
    ensures BaseOf(s') == BaseOf(s)
  {
  }

  lemma BasedLocal(b: Base, s: string, s': string)
    requires |s| >= 2 && Based(b, s).Some? && Agree(s, s', Based(b, s).value.len)
    requires |s'| == Based(b, s).value.len || !Loose(s'[Based(b, s).value.len])
    ensures |s'| >= 2 && Based(b, s') == Based(b, s)
  {
    var n := Based(b, s).value.len;
    AgreeDrop(s, s', n, 2);
    SeparatedLocal(b, s[2..], false, s'[2..]);
  }

  lemma ExponentLocal(s: string, s': string)
    requires Exponent(s).Some? && Agree(s, s', Exponent(s).value)
    requires |s'| == Exponent(s).value || !Loose(s'[Exponent(s).value])
    ensures Exponent(s') == Exponent(s)
  {
    var n := Exponent(s).value;
    if n > 0 {
      var k := if |s| >= 2 && (s[1] == '+' || s[1] == '-') then 2 else 1;
      AgreeDrop(s, s', n, k);
      RunLocal(Digits, s[k..], s'[k..]);
    }
  }

  lemma FractionLocal(s: string, s': string)
    requires Fraction(s).Some? && Fraction(s).value > 0 && Agree(s, s', Fraction(s).value)
    requires |s'| == Fraction(s).value || EndsDigits(Dec, s'[Fraction(s).value])
    ensures Fraction(s') == Fraction(s)
  {
    AgreeDrop(s, s', Fraction(s).value, 1);
    SeparatedLocal(Dec, s[1..], false, s'[1..]);
  }

  lemma FractionEnds(s: string)
    requires Fraction(s).Some? && 0 < Fraction(s).value < |s|
    ensures EndsDigits(Dec, s[Fraction(s).value])
  {
    SeparatedEnds(Dec, s[1..], false);
  }

  lemma NoFraction(s: string)
    requires s == [] || (s[0] == '.' && |s| >= 2 ==> !Digit(s[1]))
    ensures Fraction(s) == Some(0)
  {
  }

  lemma DecimalLocal(s: string, s': string)
    requires Decimal(s).Some? && Agree(s, s', Decimal(s).value.len)
    requires var n := Decimal(s).value.len;
             |s'| == n || (!Loose(s'[n]) && (Decimal(s).value.kind.IntLit? && s'[n] == '.' && |s'| > n + 1 ==> !Digit(s'[n + 1])))
    ensures Decimal(s') == Decimal(s)
  {
    hide Separated, Fraction, Exponent, Decimal;
    var n, m, k := DecimalSplit(s);
    AgreeDrop(s, s', n + m + k, n + m);
    ExponentLocal(s[n + m..], s'[n + m..]);
    DecimalParts(s, s', n, m, k);
    DecimalJoin(s', n, m, k);
  }

  lemma DecimalSplit(s: string) returns (n: nat, m: nat, k: nat)
    requires Decimal(s).Some?
    ensures n + m + k <= |s| && Separated(Dec, s, false) == Some(n) && Fraction(s[n..]) == Some(m) && Exponent(s[n + m..]) == Some(k)
    ensures Decimal(s) == Some(Scanned(if m + k > 0 then FloatLit else IntLit, n + m + k))
  {
    n := Separated(Dec, s, false).value;
    m := Fraction(s[n..]).value;
    k := Exponent(s[n + m..]).value;
  }

  lemma DecimalJoin(s: string, n: nat, m: nat, k: nat)
    requires n + m <= |s| && Separated(Dec, s, false) == Some(n) && Fraction(s[n..]) == Some(m) && Exponent(s[n + m..]) == Some(k)
    ensures Decimal(s) == Some(Scanned(if m + k > 0 then FloatLit else IntLit, n + m + k))
  {
  }

  lemma DecimalParts(s: string, s': string, n: nat, m: nat, k: nat)
    requires Separated(Dec, s, false) == Some(n) && Fraction(s[n..]) == Some(m) && n + m <= |s| && Exponent(s[n + m..]) == Some(k)
    requires n + m + k <= |s| && Agree(s, s', n + m + k)
    requires |s'| == n + m + k || !Loose(s'[n + m + k])
    requires m + k == 0 && |s'| > n + 1 && s'[n] == '.' ==> !Digit(s'[n + 1])
    ensures Separated(Dec, s', false) == Some(n) && Fraction(s'[n..]) == Some(m)
  {
    hide Separated, Fraction, Exponent;
    if n < |s| { SeparatedEnds(Dec, s, false); }
    SeparatedLocal(Dec, s, false, s');
    AgreeDrop(s, s', n + m + k, n);
    if m > 0 {
      if m < |s[n..]| { FractionEnds(s[n..]); }
      FractionLocal(s[n..], s'[n..]);
    } else if k > 0 {
      ExponentStarts(s[n..]);
      NoFraction(s'[n..]);
    } else {
      NoFraction(s'[n..]);
    }
  }

  lemma ExponentStarts(s: string)
    requires Exponent(s).Some? && Exponent(s).value > 0
    ensures s != [] && s[0] != '.'
  {
  }

  lemma NumberLocal(s: string, s': string)
    requires s != [] && Digit(s[0]) && Number(s).Some? && Number(s).value.len >= 1 && Agree(s, s', Number(s).value.len)
    requires Boundary(Lexeme(Number(s).value.kind, s[..Number(s).value.len]), s'[Number(s).value.len..])
    ensures Number(s') == Number(s)
  {
    hide Based, Decimal;
    var n := Number(s).value.len;
    BasedIsLong(s);
    if n < |s'| { assert s'[n..][0] == s'[n]; }
    if n + 1 < |s'| { assert s'[n..][1] == s'[n + 1]; }
    BaseLocal(s, s', n);
    BaseLocal(s, s[..n], n);
    if BaseOf(s).Some? {
      BasedLocal(BaseOf(s).value, s, s');
    } else {
      DecimalLocal(s, s');
    }
  }

  lemma BasedIsLong(s: string)
    requires Number(s).Some?
    ensures BaseOf(s).Some? ==> Number(s).value.len >= 2
  {
  }

  lemma WordLocal(s: string, s': string)
    requires s != [] && Word(s).Some? && Agree(s, s', Word(s).value.len)
    requires |s'| == Word(s).value.len || !Loose(s'[Word(s).value.len])
    ensures s' != [] && Word(s') == Word(s)
  {
    RunLocal(WordChars, s, s');
    assert s'[..Word(s).value.len] == s[..Word(s).value.len];
  }

  /** `s'` repeats the first token of `s`, and what follows does not continue it. */
  ghost predicate Repeats(s: string, s': string) {
    && s != [] && Scan(s).Some? && Agree(s, s', Scan(s).value.len)
    && Boundary(Lexeme(Scan(s).value.kind, s[..Scan(s).value.len]), s'[Scan(s).value.len..])
  }

  lemma SymbolLocal(s: string, s': string)
    requires Repeats(s, s') && (Single(s[0]) || s[0] == '!' || Operator(s[0]))
    ensures s' != [] && Scan(s') == Scan(s)
  {
    var n := Scan(s).value.len;
    assert s'[0] == s[0];
    if n < |s'| { assert s'[n..][0] == s'[n]; }
    if n == 2 { assert s'[1] == s[1]; }
  }

  lemma QuotedLocal(s: string, s': string)
    requires Repeats(s, s') && (s[0] == '\'' || s[0] == '"')
    ensures s' != [] && Scan(s') == Scan(s)
  {
    hide RawRest, CookedRest, Boundary;
    assert s'[0] == s[0];
    AgreeDrop(s, s', Scan(s).value.len, 1);
    if s[0] == '"' { CookedLocal(s[1..], s'[1..]); } else { RawLocal(s[1..], s'[1..]); }
  }

  lemma VariableLocal(s: string, s': string)
    requires Repeats(s, s') && s[0] == '$'
    ensures s' != [] && Scan(s') == Scan(s)
  {
    var n := Scan(s).value.len;
    assert s'[0] == s[0];
    if n < |s'| { assert s'[n..][0] == s'[n]; }
    AgreeDrop(s, s', n, 1);
    RunLocal(NameChars, s[1..], s'[1..]);
  }

  lemma AlnumLocal(s: string, s': string)
    requires Repeats(s, s') && !Single(s[0]) && !Operator(s[0]) && s[0] !in ['!', '\'', '"', '$']
    ensures s' != [] && Scan(s') == Scan(s)
  {
    hide Number, Word;
    var n := Scan(s).value.len;
    assert s'[0] == s[0];
    if n < |s'| { assert s'[n..][0] == s'[n]; }
    if Digit(s[0]) { NumberLocal(s, s'); } else { WordLocal(s, s'); }
  }

  /** A token scans the same wherever it stands, if what follows does not continue it. */
  lemma ScanLocal(s: string, s': string)
    requires Repeats(s, s')
    ensures s' != [] && Scan(s') == Scan(s)
  {
    hide Scan, Boundary;
    var c := s[0];
    if Single(c) || c == '!' || Operator(c) {
      SymbolLocal(s, s');
    } else if c == '\'' || c == '"' {
      QuotedLocal(s, s');
    } else if c == '$' {
      VariableLocal(s, s');
    } else {
      AlnumLocal(s, s');
    }
  }
}
