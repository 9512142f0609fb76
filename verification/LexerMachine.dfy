/** The lexer as it runs: a position that advances rune by rune, with its line and column. */
module LexerMachine {
  import opened Options
  import opened Lexing

  datatype Place = Place(line: nat, col: nat)

  /** Where the text after s begins, counting from 1:1. */
  function After(s: string): Place {
    if s == [] then Place(1, 1)
    else
      var p := After(s[..|s| - 1]);
      if s[|s| - 1] == '\n' then Place(p.line + 1, 1) else Place(p.line, p.col + 1)
  }

  datatype NextResult = Eof | Token(l: Lexeme) | Error

  lemma Suffix(s: string, p: nat)
    requires p < |s|
    ensures s[p..] != [] && s[p..][0] == s[p] && s[p..][1..] == s[p + 1..]
  {
  }

  lemma Suffixes(s: string, p: nat, n: nat)
    requires p + n <= |s|
    ensures s[p..][n..] == s[p + n..]
  {
  }

  // ----- one step of each scanner, by position -----

  lemma SeparatedAt(b: Base, s: string, p: nat, u: bool)
    requires p < |s| && (InBase(b, s[p]) || s[p] == '_')
    ensures Separated(b, s[p..], u) ==
              if InBase(b, s[p]) then Plus(1, Separated(b, s[p + 1..], false))
              else if u then None else Plus(1, Separated(b, s[p + 1..], true))
  {
    Suffix(s, p);
  }

  lemma SeparatedDone(b: Base, s: string, p: nat, u: bool)
    requires p <= |s| && (p == |s| || (!InBase(b, s[p]) && s[p] != '_'))
    ensures Separated(b, s[p..], u) == if u then None else Some(0)
  {
    if p < |s| { Suffix(s, p); }
  }

  lemma NestedAt(quote: char, s: string, p: nat)
    requires p < |s|
    ensures NestedRest(quote, s[p..]) ==
              if quote != '\'' && s[p] == '\\' then (if p + 1 >= |s| then None else Plus(2, NestedRest(quote, s[p + 2..])))
              else if s[p] == quote then Some(1) else Plus(1, NestedRest(quote, s[p + 1..]))
  {
    Suffix(s, p);
    if p + 1 < |s| { Suffixes(s, p, 2); }
  }

  lemma SlotAt(s: string, p: nat, depth: nat)
    requires p < |s| && depth >= 1
    ensures SlotRest(s[p..], depth) ==
              if s[p] == '{' then (if depth + 1 > MAX_NESTING then None else Plus(1, SlotRest(s[p + 1..], depth + 1)))
              else if s[p] == '}' then (if depth <= 1 then Some(1) else Plus(1, SlotRest(s[p + 1..], depth - 1)))
              else if s[p] == '"' || s[p] == '\'' then
                match NestedRest(s[p], s[p + 1..])
                case None => None
                case Some(n) => Plus(n + 1, SlotRest(s[p + n + 1..], depth))
              else if s[p] == '\\' && p + 1 < |s| then Plus(2, SlotRest(s[p + 2..], depth))
              else Plus(1, SlotRest(s[p + 1..], depth))
  {
    hide NestedRest, SlotRest;
    Suffix(s, p);
    SlotUnfold(s[p..], depth);
    if p + 1 < |s| { Suffixes(s, p, 2); }
    if NestedRest(s[p], s[p + 1..]).Some? { Suffixes(s, p, NestedRest(s[p], s[p + 1..]).value + 1); }
  }

  lemma Grow(s: string, a: nat, b: nat)
    requires a <= b < |s|
    ensures s[a..b + 1] == s[a..b] + [s[b]]
  {
  }

  lemma EmptySuffix(s: string)
    ensures s[|s|..] == []
  {
  }

  class Lexer {
    const src: string
    var pos: nat
    var line: nat
    var col: nat

    constructor (source: string)
      ensures Valid() && pos == 0 && src == source
    {
      src, pos, line, col := source, 0, 1, 1;
    }

    ghost predicate Valid() reads this { pos <= |src| && After(src[..pos]) == Place(line, col) }

    method Advance()
      requires Valid()
      modifies this
      ensures Valid() && pos == if old(pos) < |src| then old(pos) + 1 else old(pos)
    {
      if pos < |src| {
        assert src[..pos + 1][..pos] == src[..pos];
        if src[pos] == '\n' {
          line, col := line + 1, 1;
        } else {
          col := col + 1;
        }
        pos := pos + 1;
      }
    }

    /** Any of the scan-while-in-class loops. */
    method SkipRun(cls: Class)
      requires Valid()
      modifies this
      ensures Valid() && pos == old(pos) + Run(cls, src[old(pos)..])
    {
      while pos < |src| && In(cls, src[pos])
        invariant Valid() && old(pos) <= pos
        invariant Run(cls, src[old(pos)..]) == pos - old(pos) + Run(cls, src[pos..])
        decreases |src| - pos
      {
        Suffix(src, pos);
        Advance();
      }
      if pos < |src| { Suffix(src, pos); }
    }

    /** A name: stop with an error once it passes the length cap. */
    method ReadName(cls: Class) returns (ok: bool)
      requires Valid()
      modifies this
      ensures Valid() && old(pos) <= pos && (ok <==> Run(cls, src[old(pos)..]) <= MAX_NAME)
      ensures ok ==> pos == old(pos) + Run(cls, src[old(pos)..])
    {
      var start := pos;
      while pos < |src| && In(cls, src[pos])
        invariant Valid() && start <= pos && pos - start <= MAX_NAME
        invariant Run(cls, src[start..]) == pos - start + Run(cls, src[pos..])
        decreases |src| - pos
      {
        Suffix(src, pos);
        Advance();
        if pos - start > MAX_NAME { return false; }
      }
      if pos < |src| { Suffix(src, pos); }
      return true;
    }

    method ReadDigits(b: Base) returns (ok: bool)
      requires Valid()
      modifies this
      ensures Valid() && old(pos) <= pos && (ok <==> Separated(b, src[old(pos)..], false).Some?)
      ensures ok ==> pos == old(pos) + Separated(b, src[old(pos)..], false).value
    {
      hide Separated, After;
      ghost var start := pos;
      var afterUnderscore := false;
      while pos < |src| && (InBase(b, src[pos]) || src[pos] == '_')
        invariant Valid() && start <= pos
        invariant Separated(b, src[start..], false) == Plus(pos - start, Separated(b, src[pos..], afterUnderscore))
        decreases |src| - pos
      {
        SeparatedAt(b, src, pos, afterUnderscore);
        if InBase(b, src[pos]) {
          afterUnderscore := false;
        } else {
          if afterUnderscore { return false; }
          afterUnderscore := true;
        }
        Advance();
      }
      SeparatedDone(b, src, pos, afterUnderscore);
      return !afterUnderscore;
    }

    /** What a reader must leave behind: the scanned token's end, or an error. */
    ghost predicate Read(start: nat, want: Option<Scanned>, got: Option<Kind>) reads this {
      && Valid() && start <= pos && (got.Some? <==> want.Some?)
      && (got.Some? ==> got.value == want.value.kind && pos == start + want.value.len)
    }

    method ReadBased(b: Base) returns (k: Option<Kind>)
      requires Valid() && pos + 1 < |src|
      modifies this
      ensures Read(old(pos), Based(b, src[old(pos)..]), k)
    {
      ghost var s := src[pos..];
      Suffixes(src, pos, 2);
      Advance();
      Advance();
      if pos >= |src| || !InBase(b, src[pos]) { return None; }
      var ok := ReadDigits(b);
      return if ok then Some(IntLit) else None;
    }

    method ReadExponent() returns (ok: bool)
      requires Valid()
      modifies this
      ensures Valid() && old(pos) <= pos && (ok <==> Exponent(src[old(pos)..]).Some?)
      ensures ok ==> pos == old(pos) + Exponent(src[old(pos)..]).value
    {
      ghost var start := pos;
      if pos >= |src| || !(src[pos] == 'e' || src[pos] == 'E') { return true; }
      Suffix(src, pos);
      Advance();
      if pos < |src| {
        Suffix(src, pos);
        if src[pos] == '+' || src[pos] == '-' { Advance(); }
      }
      Suffixes(src, start, pos - start);
      var digits := pos;
      SkipRun(Digits);
      return pos > digits;
    }

    method ReadFraction() returns (ok: bool)
      requires Valid()
      modifies this
      ensures Valid() && old(pos) <= pos && (ok <==> Fraction(src[old(pos)..]).Some?)
      ensures ok ==> pos == old(pos) + Fraction(src[old(pos)..]).value
    {
      if pos + 1 < |src| && src[pos] == '.' && Digit(src[pos + 1]) {
        Suffix(src, pos);
        Advance();
        ok := ReadDigits(Dec);
      } else {
        if pos < |src| { Suffix(src, pos); }
        ok := true;
      }
    }

    method ReadDecimal() returns (k: Option<Kind>)
      requires Valid()
      modifies this
      ensures Read(old(pos), Decimal(src[old(pos)..]), k)
    {
      hide Separated, Fraction, Exponent, Decimal;
      ghost var start := pos;
      DecimalStages(src[start..]);
      var ok := ReadDigits(Dec);
      if !ok { return None; }
      var digits := pos;
      Suffixes(src, start, digits - start);
      ok := ReadFraction();
      if !ok { return None; }
      Suffixes(src, start, pos - start);
      ok := ReadExponent();
      if !ok { return None; }
      return Some(if pos > digits then FloatLit else IntLit);
    }

    method ReadNumber() returns (k: Option<Kind>)
      requires Valid() && pos < |src|
      modifies this
      ensures Read(old(pos), Number(src[old(pos)..]), k)
    {
      hide Based, Decimal;
      if pos + 1 < |src| && BaseOf(src[pos..]).Some? {
        k := ReadBased(BaseOf(src[pos..]).value);
      } else {
        k := ReadDecimal();
      }
    }

    method ReadRaw() returns (ok: bool)
      requires Valid()
      modifies this
      ensures Valid() && old(pos) <= pos && (ok <==> RawRest(src[old(pos)..]).Some?)
      ensures ok ==> pos == old(pos) + RawRest(src[old(pos)..]).value
    {
      ghost var start := pos;
      while pos < |src|
        invariant Valid() && start <= pos && RawRest(src[start..]) == Plus(pos - start, RawRest(src[pos..]))
        decreases |src| - pos
      {
        Suffix(src, pos);
        var c := src[pos];
        Advance();
        if c == '\'' { return true; }
      }
      return false;
    }

    /** copyNestedString: the literal goes into the slot's text unread. */
    method CopyNested(quote: char, b0: string) returns (b: string, ok: bool)
      requires Valid() && pos < |src| && src[pos] == quote
      modifies this
      ensures Valid() && old(pos) <= pos && (ok <==> NestedRest(quote, src[old(pos) + 1..]).Some?)
      ensures ok ==> pos == old(pos) + 1 + NestedRest(quote, src[old(pos) + 1..]).value && b == b0 + src[old(pos)..pos]
    {
      hide NestedRest, After;
      ghost var start := pos;
      b := b0 + [quote];
      Advance();
      assert src[start..pos] == [quote];
      while pos < |src|
        invariant Valid() && start + 1 <= pos && b == b0 + src[start..pos]
        invariant NestedRest(quote, src[start + 1..]) == Plus(pos - start - 1, NestedRest(quote, src[pos..]))
        decreases |src| - pos
      {
        NestedAt(quote, src, pos);
        Grow(src, start, pos);
        var c := src[pos];
        b := b + [c];
        Advance();
        if quote != '\'' && c == '\\' {
          if pos >= |src| { return b, false; }
          Grow(src, start, pos);
          b := b + [src[pos]];
          Advance();
        } else if c == quote {
          return b, true;
        }
      }
      NestedEnd(quote);
      EmptySuffix(src);
      return b, false;
    }

    /** One plain character of slot code, or a backslash and what it escapes. */
    method CopyCode(b0: string) returns (b: string)
      requires Valid() && pos < |src|
      modifies this
      ensures Valid() && pos == old(pos) + (if src[old(pos)] == '\\' && old(pos) + 1 < |src| then 2 else 1)
      ensures b == b0 + src[old(pos)..pos]
    {
      hide After;
      ghost var start := pos;
      var c := src[pos];
      b := b0 + [c];
      Advance();
      assert src[start..pos] == [c];
      if c == '\\' && pos < |src| {
        Grow(src, start, pos);
        b := b + [src[pos]];
        Advance();
      }
    }

    /** One character, escape or nested literal of a slot that does not end here. */
    method SlotPiece(b0: string, depth: nat) returns (b: string, d: nat, ok: bool)
      requires Valid() && pos < |src| && depth >= 1 && !(src[pos] == '}' && depth == 1)
      modifies this
      ensures Valid() && old(pos) <= pos
      ensures !ok ==> SlotRest(src[old(pos)..], depth).None?
      ensures ok ==> d >= 1 && old(pos) < pos && b == b0 + src[old(pos)..pos]
      ensures ok ==> SlotRest(src[old(pos)..], depth) == Plus(pos - old(pos), SlotRest(src[pos..], d))
    {
      hide SlotRest, NestedRest, After;
      SlotAt(src, pos, depth);
      var c := src[pos];
      d := depth;
      if c == '"' || c == '\'' {
        b, ok := CopyNested(c, b0);
        return;
      }
      if c == '{' {
        if depth + 1 > MAX_NESTING { return b0, d, false; }
        d := depth + 1;
      } else if c == '}' {
        d := depth - 1;
      }
      b := CopyCode(b0);
      ok := true;
    }

    /** scanInterpSlot: the text is the exact source between the braces. */
    method ScanSlot() returns (text: string, ok: bool)
      requires Valid()
      modifies this
      ensures Valid() && old(pos) <= pos && (ok <==> SlotRest(src[old(pos)..], 1).Some?)
      ensures ok ==> pos == old(pos) + SlotRest(src[old(pos)..], 1).value && text == src[old(pos)..pos - 1]
    {
      hide SlotRest, NestedRest, After;
      ghost var start := pos;
      text := "";
      var depth: nat := 1;
      while pos < |src|
        invariant Valid() && start <= pos && depth >= 1 && text == src[start..pos]
        invariant SlotRest(src[start..], 1) == Plus(pos - start, SlotRest(src[pos..], depth))
        decreases |src| - pos
      {
        if src[pos] == '}' && depth == 1 {
          SlotAt(src, pos, depth);
          Advance();
          return text, true;
        }
        ghost var here := pos;
        text, depth, ok := SlotPiece(text, depth);
        if !ok { return; }
        assert src[start..here] + src[here..pos] == src[start..pos];
      }
      SlotEnd(depth);
      EmptySuffix(src);
      return text, false;
    }

    /** `\u` and `\U`: exactly `width` hex digits naming a code point. */
    method ReadUnicode(width: nat) returns (c: Option<char>)
      requires Valid() && pos < |src| && width >= 1
      modifies this
      ensures Valid() && old(pos) <= pos && (c.Some? <==> Unicode(src[old(pos)..], width).Some?)
      ensures c.Some? ==> Unicode(src[old(pos)..], width).value == Escaped(c.value, pos - old(pos))
    {
      hide HexRun, After;
      ghost var start := pos;
      Suffix(src, pos);
      Advance();
      var v: nat := 0;
      for i := 0 to width
        invariant Valid() && pos == start + 1 + i
        invariant HexRun(src[start + 1..], width, 0) == HexRun(src[pos..], width - i, v)
      {
        HexAt(src, pos, width - i, v);
        if pos >= |src| || !HexDigit(src[pos]) { return None; }
        v := v * 16 + HexValue(src[pos]);
        Advance();
      }
      HexDone(src[pos..], v);
      if !CodePoint(v) { return None; }
      return Some(v as char);
    }

    method ReadEscape() returns (c: Option<char>)
      requires Valid()
      modifies this
      ensures Valid() && old(pos) <= pos && (c.Some? <==> Escape(src[old(pos)..]).Some?)
      ensures c.Some? ==> Escape(src[old(pos)..]).value == Escaped(c.value, pos - old(pos))
    {
      hide Unicode, After;
      if pos >= |src| { return None; }
      Suffix(src, pos);
      match src[pos]
      case 'n' => Advance(); return Some('\n');
      case 'r' => Advance(); return Some('\r');
      case 't' => Advance(); return Some('\t');
      case '0' => Advance(); return Some('\0');
      case 'u' => c := ReadUnicode(4);
      case 'U' => c := ReadUnicode(8);
      case e =>
        if e in {'\\', '"', '\'', '{', '}'} {
          Advance();
          return Some(e);
        }
        return None;
    }

    /** readCookedString, past the opening quote: literal characters and slots in order. */
    method ReadCooked() returns (parts: seq<Part>, ok: bool)
      requires Valid()
      modifies this
      ensures Valid() && old(pos) <= pos && (ok <==> CookedRest(src[old(pos)..]).Some?)
      ensures ok ==> CookedRest(src[old(pos)..]).value == Cooked(parts, pos - old(pos))
    {
      hide CookedRest, Escape, SlotRest, After;
      ghost var start := pos;
      parts := [];
      AddNone(CookedRest(src[start..]));
      while pos < |src|
        invariant Valid() && start <= pos
        invariant CookedRest(src[start..]) == AddAll(parts, pos - start, CookedRest(src[pos..]))
        decreases |src| - pos
      {
        CookedAt(src, pos);
        var c := src[pos];
        ghost var more := pos;
        if c == '"' {
          Advance();
          AddDone(parts, more - start);
          return parts, true;
        } else if c == '}' {
          return parts, false;
        }
        Advance();
        var part := Char(c);
        if c == '\\' {
          var e := ReadEscape();
          if e.None? { return parts, false; }
          part := Char(e.value);
        } else if c == '{' {
          var text, done := ScanSlot();
          if !done { return parts, false; }
          part := Slot(text);
        }
        AddMore(parts, more - start, part, pos - more, CookedRest(src[pos..]));
        parts := parts + [part];
      }
      CookedEnd();
      EmptySuffix(src);
      return parts, false;
    }

    /** readBlockComment, past its opener. */
    method ReadComment() returns (ok: bool)
      requires Valid()
      modifies this
      ensures Valid() && old(pos) <= pos && (ok <==> CommentRest(src[old(pos)..], 1).Some?)
      ensures ok ==> pos == old(pos) + CommentRest(src[old(pos)..], 1).value
    {
      hide CommentRest, After;
      ghost var start := pos;
      var depth: nat := 1;
      while depth > 0
        invariant Valid() && start <= pos
        invariant CommentRest(src[start..], 1) == Plus(pos - start, CommentRest(src[pos..], depth))
        decreases |src| - pos, depth
      {
        CommentAt(src, pos, depth);
        if pos >= |src| { return false; }
        if pos + 1 < |src| && src[pos] == '/' && src[pos + 1] == '*' {
          Advance();
          Advance();
          depth := depth + 1;
          if depth > MAX_NESTING { return false; }
        } else if pos + 1 < |src| && src[pos] == '*' && src[pos + 1] == '/' {
          Advance();
          Advance();
          depth := depth - 1;
        } else {
          Advance();
        }
      }
      CommentDone(src[pos..]);
      return true;
    }

    method ReadString() returns (k: Option<Kind>)
      requires Valid() && pos < |src| && (src[pos] == '"' || src[pos] == '\'')
      modifies this
      ensures Read(old(pos), Scan(src[old(pos)..]), k)
    {
      Suffix(src, pos);
      StringScan(src, pos);
      hide Scan, RawRest, CookedRest, After;
      var quote := src[pos];
      Advance();
      if quote == '\'' {
        var ok := ReadRaw();
        return if ok then Some(StrLit) else None;
      }
      var parts, ok := ReadCooked();
      if !ok { return None; }
      return Some(if HasSlot(parts) then InterpLit else StrLit);
    }

    method ReadVarRef() returns (k: Option<Kind>)
      requires Valid() && pos < |src| && src[pos] == '$'
      modifies this
      ensures Read(old(pos), Scan(src[old(pos)..]), k)
    {
      Suffix(src, pos);
      VarRefScan(src, pos);
      hide Scan, Run, After;
      Advance();
      if pos >= |src| || !Letter(src[pos]) { return None; }
      var ok := ReadName(NameChars);
      return if ok then Some(VarRef) else None;
    }

    method ReadWord() returns (k: Option<Kind>)
      requires Valid() && pos < |src| && Letter(src[pos])
      modifies this
      ensures Read(old(pos), Word(src[old(pos)..]), k)
    {
      hide After;
      var start := pos;
      Suffix(src, pos);
      assert Run(WordChars, src[pos..]) >= 1;
      hide Run;
      var ok := ReadName(WordChars);
      if !ok { return None; }
      var name := src[start..pos];
      assert name == src[start..][..pos - start];
      if name in KEYWORDS { return Some(Keyword); }
      if src[pos - 1] == '_' { return None; }
      return Some(Ident);
    }

    /** Operators and punctuation. */
    method ReadPunct() returns (k: Option<Kind>)
      requires Valid() && pos < |src| && (Single(src[pos]) || src[pos] == '!' || Operator(src[pos]))
      modifies this
      ensures Read(old(pos), Scan(src[old(pos)..]), k)
    {
      Suffix(src, pos);
      if pos + 1 < |src| { Suffix(src, pos + 1); }
      PunctScan(src, pos);
      hide Scan, After;
      var c := src[pos];
      Advance();
      if Single(c) { return Some(Punct); }
      if c == '!' {
        if pos < |src| && src[pos] == '=' {
          Advance();
          return Some(Punct);
        }
        return None;
      }
      if pos < |src| && Continues(c, src[pos]) { Advance(); }
      return Some(Punct);
    }

    /** The switch of Next, once trivia is out of the way. */
    method ReadToken() returns (k: Option<Kind>)
      requires Valid() && pos < |src|
      modifies this
      ensures Read(old(pos), Scan(src[old(pos)..]), k)
    {
      Suffix(src, pos);
      hide After, Run, RawRest, CookedRest, Number, Word;
      var c := src[pos];
      if Single(c) || c == '!' || Operator(c) {
        k := ReadPunct();
      } else if c == '"' || c == '\'' {
        k := ReadString();
      } else if c == '$' {
        k := ReadVarRef();
      } else if Digit(c) {
        NumberScan(src, pos);
        k := ReadNumber();
      } else if Letter(c) {
        WordScan(src, pos);
        k := ReadWord();
      } else {
        k := None;
      }
    }

    /** The whitespace loop of nextTrivia, counting line breaks. */
    method SkipBlank() returns (newlines: nat)
      requires Valid()
      modifies this
      ensures Valid() && pos == old(pos) + Run(Spaces, src[old(pos)..]) && newlines == Newlines(src[old(pos)..pos])
    {
      hide After, Newlines, Run;
      ghost var start := pos;
      newlines := 0;
      NoLines(src, pos);
      while pos < |src| && Blank(src[pos])
        invariant Valid() && start <= pos && newlines == Newlines(src[start..pos])
        invariant Run(Spaces, src[start..]) == pos - start + Run(Spaces, src[pos..])
        decreases |src| - pos
      {
        RunAt(Spaces, src, pos);
        MoreLines(src, start, pos);
        if src[pos] == '\n' { newlines := newlines + 1; }
        Advance();
      }
      RunAt(Spaces, src, pos);
    }

    /** One token, trivia included: exactly the head of what Lex gives from here. */
    method Next() returns (r: NextResult)
      requires Valid()
      modifies this
      ensures Valid() && old(pos) <= pos
      ensures match r
              case Eof => Lex(src[old(pos)..], old(pos) == 0) == Some([])
              case Error => Lex(src[old(pos)..], old(pos) == 0) == None
              case Token(l) => old(pos) < pos && Lex(src[old(pos)..], old(pos) == 0) == Cons(l, Lex(src[pos..], false))
    {
      hide After, Newlines, Run, Scan, CommentRest, Lex;
      ghost var first := pos;
      var newlines := SkipBlank();
      if newlines >= 2 {
        LexAtBlank(src, first, pos);
        return Token(Lexeme(BlankLine, ""));
      }
      if pos >= |src| {
        LexAtEnd(src, first, pos);
        return Eof;
      }
      var start := pos;
      if src[pos] == '#' {
        SkipRun(NotNewline);
        LexAtNote(src, first, start, pos);
        return Token(Lexeme(if start == 0 && start + 1 < |src| && src[start + 1] == '!' then Shebang else LineComment, src[start..pos]));
      }
      if src[pos] == '/' && pos + 1 < |src| && src[pos + 1] == '*' {
        LexAtBlock(src, first, start);
        Advance();
        Advance();
        var ok := ReadComment();
        if !ok { return Error; }
        return Token(Lexeme(BlockComment, src[start..pos]));
      }
      LexAtToken(src, first, start);
      var k := ReadToken();
      if k.None? { return Error; }
      return Token(Lexeme(k.value, src[start..pos]));
    }
  }

  lemma DecimalStages(s: string)
    ensures match Separated(Dec, s, false)
            case None => Decimal(s).None?
            case Some(n) =>
              match Fraction(s[n..])
              case None => Decimal(s).None?
              case Some(m) =>
                match Exponent(s[n + m..])
                case None => Decimal(s).None?
                case Some(k) => Decimal(s) == Some(Scanned(if m + k > 0 then FloatLit else IntLit, n + m + k))
  {
    hide Separated, Fraction, Exponent;
  }

  lemma NestedEnd(quote: char)
    ensures NestedRest(quote, "") == None
  {
  }

  lemma SlotEnd(depth: nat)
    ensures SlotRest("", depth) == None
  {
  }

  lemma HexAt(s: string, p: nat, n: nat, acc: nat)
    requires n >= 1 && p <= |s|
    ensures HexRun(s[p..], n, acc) ==
              if p >= |s| || !HexDigit(s[p]) then None else HexRun(s[p + 1..], n - 1, acc * 16 + HexValue(s[p]))
  {
    if p < |s| { Suffix(s, p); }
  }

  lemma HexDone(s: string, acc: nat)
    ensures HexRun(s, 0, acc) == Some(acc)
  {
  }

  function AddAll(parts: seq<Part>, k: nat, r: Option<Cooked>): Option<Cooked> {
    match r
    case None => None
    case Some(c) => Some(Cooked(parts + c.parts, k + c.len))
  }

  lemma AddMore(parts: seq<Part>, k: nat, p: Part, n: nat, r: Option<Cooked>)
    ensures AddAll(parts, k, AddPart(p, n, r)) == AddAll(parts + [p], k + n, r)
  {
    if r.Some? { assert parts + ([p] + r.value.parts) == (parts + [p]) + r.value.parts; }
  }

  lemma AddNone(r: Option<Cooked>)
    ensures AddAll([], 0, r) == r
  {
    if r.Some? { assert [] + r.value.parts == r.value.parts; }
  }

  lemma AddDone(parts: seq<Part>, k: nat)
    ensures AddAll(parts, k, Some(Cooked([], 1))) == Some(Cooked(parts, k + 1))
  {
    assert parts + [] == parts;
  }

  lemma CookedEnd()
    ensures CookedRest("") == None
  {
  }

  lemma CookedAt(s: string, p: nat)
    requires p < |s|
    ensures CookedRest(s[p..]) ==
              if s[p] == '"' then Some(Cooked([], 1))
              else if s[p] == '\\' then
                match Escape(s[p + 1..])
                case None => None
                case Some(e) => AddPart(Char(e.c), e.len + 1, CookedRest(s[p + e.len + 1..]))
              else if s[p] == '{' then
                match SlotRest(s[p + 1..], 1)
                case None => None
                case Some(n) => AddPart(Slot(s[p + 1..p + n]), n + 1, CookedRest(s[p + n + 1..]))
              else if s[p] == '}' then None
              else AddPart(Char(s[p]), 1, CookedRest(s[p + 1..]))
  {
    hide Escape, SlotRest;
    Suffix(s, p);
    if s[p] == '\\' && Escape(s[p + 1..]).Some? { Suffixes(s, p, Escape(s[p + 1..]).value.len + 1); }
    if s[p] == '{' && SlotRest(s[p + 1..], 1).Some? {
      var n := SlotRest(s[p + 1..], 1).value;
      Suffixes(s, p, n + 1);
      assert s[p..][1..n] == s[p + 1..p + n];
    }
  }

  lemma CommentAt(s: string, p: nat, depth: nat)
    requires p <= |s| && depth >= 1
    ensures CommentRest(s[p..], depth) ==
              if p >= |s| then None
              else if p + 1 < |s| && s[p] == '/' && s[p + 1] == '*' then
                (if depth + 1 > MAX_NESTING then None else Plus(2, CommentRest(s[p + 2..], depth + 1)))
              else if p + 1 < |s| && s[p] == '*' && s[p + 1] == '/' then Plus(2, CommentRest(s[p + 2..], depth - 1))
              else Plus(1, CommentRest(s[p + 1..], depth))
  {
    if p < |s| { Suffix(s, p); }
    if p + 1 < |s| { Suffixes(s, p, 2); Suffix(s, p + 1); }
  }

  lemma CommentDone(s: string)
    ensures CommentRest(s, 0) == Some(0)
  {
  }

  lemma StringScan(s: string, p: nat)
    requires p < |s| && (s[p] == '"' || s[p] == '\'')
    ensures Scan(s[p..]) ==
              if s[p] == '\'' then (match RawRest(s[p + 1..]) case None => None case Some(n) => Some(Scanned(StrLit, n + 1)))
              else match CookedRest(s[p + 1..])
                case None => None
                case Some(k) => Some(Scanned(if HasSlot(k.parts) then InterpLit else StrLit, k.len + 1))
  {
    hide RawRest, CookedRest, Number, Word, Run;
    Suffix(s, p);
  }

  lemma VarRefScan(s: string, p: nat)
    requires p < |s| && s[p] == '$'
    ensures Scan(s[p..]) ==
              if p + 1 == |s| || !Letter(s[p + 1]) || Run(NameChars, s[p + 1..]) > MAX_NAME then None
              else Some(Scanned(VarRef, 1 + Run(NameChars, s[p + 1..])))
  {
    hide RawRest, CookedRest, Number, Word, Run;
    Suffix(s, p);
  }

  lemma PunctScan(s: string, p: nat)
    requires p < |s| && (Single(s[p]) || s[p] == '!' || Operator(s[p]))
    ensures Scan(s[p..]) ==
              if Single(s[p]) then Some(Scanned(Punct, 1))
              else if s[p] == '!' then (if p + 1 < |s| && s[p + 1] == '=' then Some(Scanned(Punct, 2)) else None)
              else Some(Scanned(Punct, if p + 1 < |s| && Continues(s[p], s[p + 1]) then 2 else 1))
  {
    hide RawRest, CookedRest, Number, Word, Run;
    Suffix(s, p);
  }

  lemma NumberScan(s: string, p: nat)
    requires p < |s| && Digit(s[p])
    ensures Scan(s[p..]) == Number(s[p..])
  {
    Suffix(s, p);
    NumberNonEmpty(s[p..]);
    hide RawRest, CookedRest, Number, Word, Run;
  }

  lemma NumberNonEmpty(s: string)
    requires s != [] && Digit(s[0])
    ensures Number(s).Some? ==> Number(s).value.len >= 1
  {
  }

  lemma WordScan(s: string, p: nat)
    requires p < |s| && Letter(s[p])
    ensures Scan(s[p..]) == Word(s[p..])
  {
    hide RawRest, CookedRest, Number, Run;
    Suffix(s, p);
  }

  lemma RunAt(cls: Class, s: string, p: nat)
    requires p <= |s|
    ensures Run(cls, s[p..]) == if p == |s| || !In(cls, s[p]) then 0 else 1 + Run(cls, s[p + 1..])
  {
    if p < |s| { Suffix(s, p); }
  }

  lemma NoLines(s: string, p: nat)
    requires p <= |s|
    ensures Newlines(s[p..p]) == 0
  {
  }

  lemma {:induction false} NewlinesAppend(s: string, c: char)
    ensures Newlines(s + [c]) == Newlines(s) + if c == '\n' then 1 else 0
  {
    if s != [] {
      NewlinesAppend(s[1..], c);
      assert (s + [c])[1..] == s[1..] + [c];
    } else {
      assert ([c])[1..] == [];
    }
  }

  lemma MoreLines(s: string, a: nat, b: nat)
    requires a <= b < |s|
    ensures Newlines(s[a..b + 1]) == Newlines(s[a..b]) + if s[b] == '\n' then 1 else 0
  {
    Grow(s, a, b);
    NewlinesAppend(s[a..b], s[b]);
  }

  /** Lex at a position, branch by branch. */
  lemma LexAtBlank(s: string, p: nat, q: nat)
    requires p <= |s| && q == p + Run(Spaces, s[p..]) && Newlines(s[p..q]) >= 2
    ensures q > p && Lex(s[p..], p == 0) == Cons(Lexeme(BlankLine, ""), Lex(s[q..], false))
  {
    hide Scan, CommentRest;
    assert s[p..][..q - p] == s[p..q];
    RunsHaveLength(s[p..]);
    Suffixes(s, p, q - p);
    hide Newlines, Run;
  }

  lemma LexAtEnd(s: string, p: nat, q: nat)
    requires p <= |s| && q == p + Run(Spaces, s[p..]) == |s| && Newlines(s[p..q]) < 2
    ensures Lex(s[p..], p == 0) == Some([])
  {
    hide Scan, CommentRest, Newlines, Run;
    assert s[p..][..q - p] == s[p..q];
  }

  lemma LexAtNote(s: string, p: nat, q: nat, e: nat)
    requires p <= |s| && q == p + Run(Spaces, s[p..]) < |s| && Newlines(s[p..q]) < 2 && s[q] == '#'
    requires e == q + Run(NotNewline, s[q..])
    ensures e > q && Lex(s[p..], p == 0) ==
              Cons(Lexeme(if q == 0 && q + 1 < |s| && s[q + 1] == '!' then Shebang else LineComment, s[q..e]), Lex(s[e..], false))
  {
    hide Scan, CommentRest, Newlines, Run, Lex;
    CommentsAdvance(s[q..]);
    assert s[p..][..q - p] == s[p..q];
    Suffixes(s, p, q - p);
    LexNote(s[p..], s[q..], p == 0);
    Suffixes(s, q, e - q);
    assert s[q..][..e - q] == s[q..e];
  }

  lemma LexAtBlock(s: string, p: nat, q: nat)
    requires p <= |s| && q == p + Run(Spaces, s[p..]) < |s| - 1 && Newlines(s[p..q]) < 2 && s[q] == '/' && s[q + 1] == '*'
    ensures CommentRest(s[q + 2..], 1).None? ==> Lex(s[p..], p == 0) == None
    ensures CommentRest(s[q + 2..], 1).Some? ==>
              var e := q + 2 + CommentRest(s[q + 2..], 1).value;
              Lex(s[p..], p == 0) == Cons(Lexeme(BlockComment, s[q..e]), Lex(s[e..], false))
  {
    hide Scan, CommentRest, Newlines, Run, Lex;
    assert s[p..][..q - p] == s[p..q];
    Suffixes(s, p, q - p);
    Suffixes(s, q, 2);
    LexBlock(s[p..], s[q..], p == 0);
    if CommentRest(s[q + 2..], 1).Some? {
      var k := CommentRest(s[q + 2..], 1).value + 2;
      Suffixes(s, q, k);
      assert s[q..][..k] == s[q..q + k];
    }
  }

  /** Lex on a text whose code part `t` is a line comment. */
  lemma LexNote(s: string, t: string, head: bool)
    requires var n := Run(Spaces, s); n < |s| && Newlines(s[..n]) < 2 && t == s[n..] && t[0] == '#'
    ensures var k := Run(NotNewline, t);
            Lex(s, head) == Cons(Lexeme(if head && |s| == |t| && |t| > 1 && t[1] == '!' then Shebang else LineComment, t[..k]), Lex(t[k..], false))
  {
    hide Scan, CommentRest, Newlines, Run;
  }

  /** Lex on a text whose code part `t` opens a block comment. */
  lemma LexBlock(s: string, t: string, head: bool)
    requires var n := Run(Spaces, s); n < |s| && Newlines(s[..n]) < 2 && t == s[n..] && OpensComment(t)
    ensures Lex(s, head) == match CommentRest(t[2..], 1)
                            case None => None
                            case Some(k) => Cons(Lexeme(BlockComment, t[..k + 2]), Lex(t[k + 2..], false))
  {
    hide Scan, CommentRest, Newlines, Run;
  }

  lemma LexAtToken(s: string, p: nat, q: nat)
    requires p <= |s| && q == p + Run(Spaces, s[p..]) < |s| && Newlines(s[p..q]) < 2 && s[q] != '#'
    requires !(s[q] == '/' && q + 1 < |s| && s[q + 1] == '*')
    ensures Scan(s[q..]).None? ==> Lex(s[p..], p == 0) == None
    ensures Scan(s[q..]).Some? ==>
              var e := q + Scan(s[q..]).value.len;
              Lex(s[p..], p == 0) == Cons(Lexeme(Scan(s[q..]).value.kind, s[q..e]), Lex(s[e..], false))
  {
    hide Scan, CommentRest, Newlines, Run, Lex;
    assert s[p..][..q - p] == s[p..q];
    Suffixes(s, p, q - p);
    LexCode(s[p..], s[q..], p == 0);
    if Scan(s[q..]).Some? {
      var k := Scan(s[q..]).value.len;
      Suffixes(s, q, k);
      assert s[q..][..k] == s[q..q + k];
    }
  }

  /** Lex on a text whose code part `t` starts with a token. */
  lemma LexCode(s: string, t: string, head: bool)
    requires var n := Run(Spaces, s); n < |s| && Newlines(s[..n]) < 2 && t == s[n..] && !OpensComment(t) && t[0] != '#'
    ensures Lex(s, head) == match Scan(t)
                            case None => None
                            case Some(k) => Cons(Lexeme(k.kind, t[..k.len]), Lex(t[k.len..], false))
  {
    hide Scan, CommentRest, Newlines, Run;
  }

  function ConsAll(ls: seq<Lexeme>, r: Option<seq<Lexeme>>): Option<seq<Lexeme>> {
    match r
    case None => None
    case Some(rest) => Some(ls + rest)
  }

  lemma ConsMore(ls: seq<Lexeme>, l: Lexeme, r: Option<seq<Lexeme>>)
    ensures ConsAll(ls, Cons(l, r)) == ConsAll(ls + [l], r)
  {
    if r.Some? { assert ls + ([l] + r.value) == (ls + [l]) + r.value; }
  }

  /** tokenizeAll: Next to the end is Lex, and an error is an error. */
  method TokenizeAll(source: string) returns (r: Option<seq<Lexeme>>)
    ensures r == Lex(source, true)
  {
    hide Lex;
    var l := new Lexer(source);
    var out: seq<Lexeme> := [];
    assert source[0..] == source;
    assert Lex(source, true).Some? ==> [] + Lex(source, true).value == Lex(source, true).value;
    while true
      invariant fresh(l) && l.Valid() && l.src == source
      invariant Lex(source, true) == ConsAll(out, Lex(source[l.pos..], l.pos == 0))
      decreases |source| - l.pos
    {
      var next := l.Next();
      match next
      case Eof =>
        assert out + [] == out;
        return Some(out);
      case Error =>
        return None;
      case Token(t) =>
        ConsMore(out, t, Lex(source[l.pos..], false));
        out := out + [t];
    }
  }
}
