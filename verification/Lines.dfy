/** Lines of a text: what stands on the last one, and why a token or a comment never ends in a blank. */
module Lines {
  import opened Options
  import opened Lexing
  import opened LexLocality
  import opened Relex

  /** The text after the last line break. */
  function LastLine(s: string): (r: string)
    ensures |r| <= |s| && '\n' !in r
  {
    if s == [] || s[|s| - 1] == '\n' then "" else LastLine(s[..|s| - 1]) + [s[|s| - 1]]
  }

  /** Nothing but spaces stands on the last line: what is written next opens it. */
  predicate OpensLine(s: string) { forall i :: 0 <= i < |LastLine(s)| ==> LastLine(s)[i] == ' ' }

  function Indent(s: string): nat { |LastLine(s)| }

  lemma {:induction false} LastLineGrows(s: string, t: string)
    requires '\n' !in t
    ensures LastLine(s + t) == LastLine(s) + t
    decreases |t|
  {
    if t == [] {
      assert s + t == s;
    } else {
      var n := |t| - 1;
      LastLineGrows(s, t[..n]);
      assert t == t[..n] + [t[n]];
      assert (s + t)[..|s + t| - 1] == s + t[..n];
    }
  }

  /** After a line break only what follows it counts. */
  lemma LastLineBreaks(s: string, t: string)
    requires '\n' !in t
    ensures LastLine(s + "\n" + t) == t
  {
    LastLineGrows(s + "\n", t);
    assert LastLine(s + "\n") == "";
  }

  /** A text that ends in a character other than a blank leaves its line occupied. */
  lemma OccupiedBy(s: string, t: string)
    requires t != [] && !Blank(t[|t| - 1])
    ensures !OpensLine(s + t)
  {
    var n := |s + t| - 1;
    assert (s + t)[n] == t[|t| - 1];
    assert LastLine(s + t) == LastLine((s + t)[..n]) + [(s + t)[n]];
    assert LastLine(s + t)[|LastLine((s + t)[..n])|] == (s + t)[n];
  }

  /** A space does not clear a line. */
  lemma StillOccupied(s: string)
    requires !OpensLine(s)
    ensures !OpensLine(s + " ")
  {
    LastLineGrows(s, " ");
    var i :| 0 <= i < |LastLine(s)| && LastLine(s)[i] != ' ';
    assert LastLine(s + " ")[i] == LastLine(s)[i];
  }

  // ----- how tokens and comments end -----

  lemma {:induction false} RunChars(cls: Class, s: string)
    ensures forall i :: 0 <= i < Run(cls, s) ==> In(cls, s[i])
  {
    if s != [] && In(cls, s[0]) {
      RunChars(cls, s[1..]);
      forall i | 0 <= i < Run(cls, s) ensures In(cls, s[i]) {
        if i > 0 { assert s[i] == s[1..][i - 1]; }
      }
    }
  }

  lemma {:induction false} RawEnds(s: string)
    requires RawRest(s).Some?
    ensures s[RawRest(s).value - 1] == '\''
  {
    if s[0] != '\'' { RawEnds(s[1..]); }
  }

  lemma {:induction false} CookedEnds(s: string)
    requires CookedRest(s).Some?
    ensures s[CookedRest(s).value.len - 1] == '"'
    decreases |s|
  {
    hide Escape, SlotRest;
    if s[0] == '\\' {
      var k := Escape(s[1..]).value.len + 1;
      CookedEnds(s[k..]);
      assert CookedRest(s).value.len == CookedRest(s[k..]).value.len + k;
    } else if s[0] == '{' {
      var k := SlotRest(s[1..], 1).value + 1;
      CookedEnds(s[k..]);
      assert CookedRest(s).value.len == CookedRest(s[k..]).value.len + k;
    } else if s[0] != '"' {
      CookedEnds(s[1..]);
      assert CookedRest(s).value.len == CookedRest(s[1..]).value.len + 1;
    }
  }

  lemma {:induction false} CommentEnds(s: string, depth: nat)
    requires CommentRest(s, depth).Some? && depth > 0
    ensures var n := CommentRest(s, depth).value; n > 0 && s[n - 1] == '/'
    decreases |s|
  {
    if |s| >= 2 && s[0] == '/' && s[1] == '*' {
      CommentEnds(s[2..], depth + 1);
    } else if |s| >= 2 && s[0] == '*' && s[1] == '/' {
      if depth > 1 { CommentEnds(s[2..], depth - 1); }
    } else {
      CommentEnds(s[1..], depth);
    }
  }

  lemma BlockNoteEnds(text: string)
    requires BlockNote(text)
    ensures text != [] && text[|text| - 1] == '/'
  {
    CommentEnds(text[2..], 1);
    hide CommentRest;
    assert text[2..][|text| - 3] == text[|text| - 1];
  }

  /** The first n characters hold no blank. */
  predicate Solid(s: string, n: nat) { n <= |s| && forall i :: 0 <= i < n ==> !Blank(s[i]) }

  lemma SolidThen(s: string, n: nat, m: nat)
    requires Solid(s, n) && Solid(s[n..], m)
    ensures Solid(s, n + m)
  {
    forall i | 0 <= i < n + m ensures !Blank(s[i]) {
      if i >= n { assert s[i] == s[n..][i - n]; }
    }
  }

  lemma {:induction false} SeparatedSolid(b: Base, s: string, after: bool)
    requires Separated(b, s, after).Some?
    ensures Solid(s, Separated(b, s, after).value)
  {
    if s != [] && (InBase(b, s[0]) || s[0] == '_') {
      var after' := !InBase(b, s[0]);
      SeparatedSolid(b, s[1..], after');
      SolidThen(s, 1, Separated(b, s[1..], after').value);
    }
  }

  lemma FractionSolid(s: string)
    requires Fraction(s).Some?
    ensures Solid(s, Fraction(s).value)
  {
    hide Separated;
    if |s| >= 2 && s[0] == '.' && Digit(s[1]) {
      SeparatedSolid(Dec, s[1..], false);
      SolidThen(s, 1, Separated(Dec, s[1..], false).value);
    }
  }

  lemma ExponentSolid(s: string)
    requires Exponent(s).Some?
    ensures Solid(s, Exponent(s).value)
  {
    hide Run;
    if s != [] && (s[0] == 'e' || s[0] == 'E') {
      var k := if |s| >= 2 && (s[1] == '+' || s[1] == '-') then 2 else 1;
      RunChars(Digits, s[k..]);
      SolidThen(s, k, Run(Digits, s[k..]));
    }
  }

  lemma NumberSolid(s: string)
    requires Number(s).Some?
    ensures Solid(s, Number(s).value.len)
  {
    hide Separated, Fraction, Exponent;
    if BaseOf(s).Some? {
      SeparatedSolid(BaseOf(s).value, s[2..], false);
      SolidThen(s, 2, Separated(BaseOf(s).value, s[2..], false).value);
    } else {
      SeparatedSolid(Dec, s, false);
      var n := Separated(Dec, s, false).value;
      FractionSolid(s[n..]);
      var m := Fraction(s[n..]).value;
      SolidThen(s, n, m);
      ExponentSolid(s[n + m..]);
      SolidThen(s, n + m, Exponent(s[n + m..]).value);
    }
  }

  /** A whole token ends in a character that is no blank. */
  lemma SpelledEnds(l: Lexeme)
    requires Spelled(l)
    ensures !Blank(l.text[|l.text| - 1])
  {
    hide Number, RawRest, CookedRest, Run, OpensComment;
    var s := l.text;
    if s[0] == '\'' {
      RawEnds(s[1..]);
    } else if s[0] == '"' {
      CookedEnds(s[1..]);
    } else if s[0] == '$' {
      RunChars(NameChars, s[1..]);
    } else if Digit(s[0]) {
      NumberSolid(s);
    } else if Letter(s[0]) {
      RunChars(WordChars, s);
    }
  }
}
