/**
 quoteJenniferString against the cooked-string lexer, and what an interpolation
 slot's text is.
 */
module Quoting {
  import opened Options
  import opened Lexing
  import opened LexLocality
  import opened Relex

  function QuoteChar(c: char): string {
    match c
    case '"' => "\\\""
    case '\\' => "\\\\"
    case '\n' => "\\n"
    case '\r' => "\\r"
    case '\t' => "\\t"
    case '\0' => "\\0"
    case _ => [c]
  }

  function QuoteBody(s: string): string {
    if s == [] then "" else QuoteChar(s[0]) + QuoteBody(s[1..])
  }

  function Quote(s: string): string { "\"" + QuoteBody(s) + "\"" }

  method QuoteJenniferString(s: string) returns (q: string)
    ensures q == Quote(s)
  {
    var b := "\"";
    for i := 0 to |s|
      invariant b == "\"" + QuoteBody(s[..i])
    {
      QuoteAppend(s[..i], s[i]);
      assert s[..i + 1] == s[..i] + [s[i]];
      b := b + QuoteChar(s[i]);
    }
    assert s[..|s|] == s;
    q := b + "\"";
  }

  lemma {:induction false} QuoteAppend(s: string, c: char)
    ensures QuoteBody(s + [c]) == QuoteBody(s) + QuoteChar(c)
  {
    if s != [] {
      QuoteAppend(s[1..], c);
      assert (s + [c])[1..] == s[1..] + [c];
    } else {
      assert ([c])[1..] == [];
    }
  }

  predicate Braceless(s: string) { '{' !in s && '}' !in s }

  function Chars(s: string): seq<Part> { seq(|s|, i requires 0 <= i < |s| => Char(s[i])) }

  /** One quoted character reads back as that character. */
  lemma QuotedChar(c: char, rest: string)
    requires c != '{' && c != '}'
    ensures CookedRest(QuoteChar(c) + rest) == AddPart(Char(c), |QuoteChar(c)|, CookedRest(rest))
  {
    var s := QuoteChar(c) + rest;
    if c == '"' || c == '\\' || c == '\n' || c == '\r' || c == '\t' || c == '\0' {
      assert s[1..][0] == s[1];
      assert s[2..] == rest;
    } else {
      assert s[1..] == rest;
    }
  }

  lemma ClosingQuote(rest: string)
    ensures CookedRest("\"" + rest) == Some(Cooked([], 1))
  {
  }

  lemma {:induction false} QuotedBody(s: string, rest: string)
    requires Braceless(s)
    ensures CookedRest(QuoteBody(s) + "\"" + rest) == Some(Cooked(Chars(s), |QuoteBody(s)| + 1))
  {
    hide CookedRest, QuoteChar;
    if s == [] {
      assert QuoteBody(s) + "\"" + rest == "\"" + rest;
      ClosingQuote(rest);
    } else {
      QuotedBody(s[1..], rest);
      var more := QuoteBody(s[1..]) + "\"" + rest;
      assert QuoteBody(s) + "\"" + rest == QuoteChar(s[0]) + more;
      QuotedChar(s[0], more);
      assert [Char(s[0])] + Chars(s[1..]) == Chars(s);
    }
  }

  /** The decoded value of a plain string token. */
  function StringValue(l: Lexeme): Option<string> {
    if !l.kind.StrLit? || |l.text| < 2 then None
    else if l.text[0] == '\'' then Some(l.text[1..|l.text| - 1])
    else match CookedRest(l.text[1..])
      case None => None
      case Some(k) => if HasSlot(k.parts) then None else Some(Literal(k.parts))
  }

  function Literal(parts: seq<Part>): string {
    if parts == [] then "" else (match parts[0] case Char(c) => [c] case Slot(_) => "") + Literal(parts[1..])
  }

  lemma {:induction false} LiteralChars(s: string)
    ensures Literal(Chars(s)) == s && !HasSlot(Chars(s))
  {
    if s != [] {
      LiteralChars(s[1..]);
      assert Chars(s)[1..] == Chars(s[1..]);
    }
  }

  /** The whole of `Quote(s)` is one string token with value s. */
  predicate ReadsBack(s: string) {
    Lex(Quote(s), true) == Some([Lexeme(StrLit, Quote(s))]) && StringValue(Lexeme(StrLit, Quote(s))) == Some(s)
  }

  lemma LexQuote(s: string, head: bool)
    ensures Lex(Quote(s), head) ==
              match Scan(Quote(s))
              case None => None
              case Some(k) => Cons(Lexeme(k.kind, Quote(s)[..k.len]), Lex(Quote(s)[k.len..], false))
  {
    hide Scan, QuoteBody;
    var q := Quote(s);
    assert Run(Spaces, q) == 0 && q[..0] == [] && q[0..] == q;
    NoNewlines();
    hide Newlines;
  }

  /** Round trip for strings without braces. */
  lemma QuoteReadsBack(s: string)
    requires Braceless(s)
    ensures ReadsBack(s)
  {
    hide Lex, QuoteBody;
    var q := Quote(s);
    QuotedBody(s, "");
    assert q[1..] == QuoteBody(s) + "\"" + "";
    LiteralChars(s);
    ScanQuote(s);
    LexQuote(s, true);
    assert q[..|q|] == q && q[|q|..] == [];
    LexEmpty();
    assert [Lexeme(StrLit, q)] + [] == [Lexeme(StrLit, q)];
    hide CookedRest, Literal;
  }

  lemma LexEmpty()
    ensures Lex([], false) == Some([])
  {
  }

  lemma ScanQuote(s: string)
    ensures var k := CookedRest(Quote(s)[1..]);
            Scan(Quote(s)) == if k.None? then None else Some(Scanned(if HasSlot(k.value.parts) then InterpLit else StrLit, k.value.len + 1))
  {
    hide CookedRest, RawRest, Number, Word, Run, QuoteBody;
  }

  /** A brace anywhere in the value opens a slot or is an error. */
  lemma {:induction false} BraceSpoils(s: string, rest: string)
    requires !Braceless(s)
    ensures CookedRest(QuoteBody(s) + rest).Some? ==> HasSlot(CookedRest(QuoteBody(s) + rest).value.parts)
  {
    var t := QuoteBody(s) + rest;
    assert s != [];
    var more := QuoteBody(s[1..]) + rest;
    assert t == QuoteChar(s[0]) + more;
    if s[0] == '{' {
      if CookedRest(t).Some? { assert CookedRest(t).value.parts[0].Slot?; }
    } else if s[0] != '}' {
      assert !Braceless(s[1..]) by {
        assert s == [s[0]] + s[1..];
      }
      BraceSpoils(s[1..], rest);
      QuotedChar(s[0], more);
      if CookedRest(t).Some? {
        var parts := CookedRest(more).value.parts;
        var i :| 0 <= i < |parts| && parts[i].Slot?;
        assert CookedRest(t).value.parts[i + 1].Slot?;
      }
    }
  }

  /** Exactly the brace-free strings survive: the quoter does not escape braces. */
  lemma QuoteRoundTrip(s: string)
    ensures ReadsBack(s) <==> Braceless(s)
  {
    if Braceless(s) {
      QuoteReadsBack(s);
    } else {
      hide Lex, QuoteBody, Literal;
      assert Quote(s)[1..] == QuoteBody(s) + "\"";
      BraceSpoils(s, "\"");
      hide CookedRest;
    }
  }

  // ----- interpolation slots -----

  /** The characters of slot code outside nested string literals and backslash pairs. */
  function Outside(s: string): string
    decreases |s|
  {
    if s == [] then ""
    else if s[0] == '"' || s[0] == '\'' then
      match NestedRest(s[0], s[1..])
      case None => ""
      case Some(k) => Outside(s[k + 1..])
    else if s[0] == '\\' && |s| > 1 then Outside(s[2..])
    else [s[0]] + Outside(s[1..])
  }

  function Bracing(c: char): int { if c == '{' then 1 else if c == '}' then -1 else 0 }

  /** Brace depth after `code`, from d; the depth never leaves the slot on the way. */
  predicate Nested(code: string, d: int, end: int) {
    if code == [] then d == end else d + Bracing(code[0]) >= 1 && Nested(code[1..], d + Bracing(code[0]), end)
  }

  /** A slot's text t: balanced braces outside nested literals, then its closing brace. */
  lemma {:induction false} SlotIsBalanced(s: string, depth: nat, t: string)
    requires depth >= 1 && SlotRest(s, depth).Some?
    requires |t| + 1 == SlotRest(s, depth).value && Agree(t, s, |t|)
    ensures s[|t|] == '}' && Nested(Outside(t), depth, 1)
    decreases |s|
  {
    hide SlotRest, NestedRest, Outside, Nested;
    if s[0] == '}' && depth <= 1 {
      SlotEndsHere(s, depth, t);
      return;
    }
    var k, d := SlotStep(s, depth, t);
    AgreeDrop(t, s, |t|, k);
    SlotIsBalanced(s[k..], d, t[k..]);
    OutsideStep(t, depth, k, d);
  }

  lemma SlotEndsHere(s: string, depth: nat, t: string)
    requires s != [] && s[0] == '}' && depth == 1 && SlotRest(s, depth).Some? && |t| + 1 == SlotRest(s, depth).value
    ensures t == [] && Nested(Outside(t), depth, 1)
  {
  }

  /** The text `t` starts with a piece of length k, after which the depth is d. */
  ghost predicate Piece(t: string, depth: nat, k: nat, d: nat) {
    && 1 <= k <= |t|
    && if t[0] == '"' || t[0] == '\'' then NestedRest(t[0], t[1..]) == Some(k - 1) && d == depth
       else if t[0] == '\\' && |t| > 1 then k == 2 && d == depth
       else k == 1 && d == depth + Bracing(t[0])
  }

  lemma SlotStep(s: string, depth: nat, t: string) returns (k: nat, d: nat)
    requires depth >= 1 && SlotRest(s, depth).Some? && s != [] && !(s[0] == '}' && depth <= 1)
    requires |t| + 1 == SlotRest(s, depth).value && Agree(t, s, |t|)
    ensures Piece(t, depth, k, d) && d >= 1 && k < SlotRest(s, depth).value
    ensures SlotRest(s[k..], d) == Some(SlotRest(s, depth).value - k)
  {
    hide NestedRest, SlotRest;
    SlotGoesOn(s, depth);
    assert t[0] == s[0];
    if s[0] == '"' || s[0] == '\'' {
      k, d := NestedRest(s[0], s[1..]).value + 1, depth;
      NestedStep(s, depth, t);
    } else {
      SlotUnfold(s, depth);
      k := if s[0] == '\\' && |s| > 1 then 2 else 1;
      d := if k == 2 then depth else depth + Bracing(s[0]);
    }
  }

  lemma NestedStep(s: string, depth: nat, t: string)
    requires SlotRest(s, depth).Some? && s != [] && (s[0] == '"' || s[0] == '\'')
    requires |t| + 1 == SlotRest(s, depth).value && Agree(t, s, |t|)
    ensures NestedRest(s[0], s[1..]).Some? && t != [] && NestedRest(s[0], t[1..]) == NestedRest(s[0], s[1..])
    ensures var k := NestedRest(s[0], s[1..]).value + 1; k <= |t| && SlotRest(s[k..], depth) == Some(SlotRest(s, depth).value - k)
  {
    hide NestedRest, SlotRest;
    SlotGoesOn(s, depth);
    SlotUnfold(s, depth);
    AgreeDrop(t, s, |t|, 1);
    NestedLocal(s[0], s[1..], t[1..]);
  }

  lemma OutsideStep(t: string, depth: nat, k: nat, d: nat)
    requires Piece(t, depth, k, d) && d >= 1 && Nested(Outside(t[k..]), d, 1)
    ensures Nested(Outside(t), depth, 1)
  {
    hide NestedRest;
  }

  /** Anything but the closing brace leaves more of the slot to come. */
  lemma SlotGoesOn(s: string, depth: nat)
    requires SlotRest(s, depth).Some? && !(s[0] == '}' && depth <= 1)
    ensures SlotRest(s, depth).value >= 2
    ensures s[0] == '"' || s[0] == '\'' ==> NestedRest(s[0], s[1..]).Some? && SlotRest(s, depth).value >= NestedRest(s[0], s[1..]).value + 2
    ensures s[0] == '\\' && |s| > 1 ==> SlotRest(s, depth).value >= 3
  {
    hide NestedRest, SlotRest;
    SlotUnfold(s, depth);
  }
}
