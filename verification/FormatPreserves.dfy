/** Formatting a source and lexing it again gives the same code tokens. */
module FormatPreserves {
  import opened Options
  import opened Lexing
  import opened LexLocality
  import opened Relex
  import opened Merges
  import opened Lines
  import opened Layout
  import opened Formatter
  import opened Placement
  import LexerMachine

  function Lexemes(ts: seq<Token>): (ls: seq<Lexeme>)
    ensures |ls| == |ts| && forall i :: 0 <= i < |ts| ==> ls[i] == ts[i].l
  {
    seq(|ts|, i requires 0 <= i < |ts| => ts[i].l)
  }

  /** No neighbours that the tight rules would merge: `.` `.`, `.` `..`, or a plain integer, `.` and a number. */
  predicate NoMerges(ls: seq<Lexeme>) {
    && (forall i :: 0 <= i < |ls| - 1 ==> !MergesPair(ls[i], ls[i + 1]))
    && (forall i :: 0 <= i < |ls| - 2 ==> !MergesTriple(ls[i], ls[i + 1], ls[i + 2]))
  }

  // ----- bracket nesting -----

  /** The open brackets after these tokens, or None if some close did not match. */
  function Nest(ls: seq<Lexeme>): Option<seq<char>> {
    if ls == [] then Some([])
    else
      match Nest(ls[..|ls| - 1])
      case None => None
      case Some(open) => NestBy(open, ls[|ls| - 1])
  }

  function NestBy(open: seq<char>, l: Lexeme): Option<seq<char>> {
    if !l.kind.Punct? then Some(open)
    else if l.text == "{" || l.text == "[" || l.text == "(" then Some(open + [l.text[0]])
    else if l.text == "}" || l.text == "]" || l.text == ")" then
      if open != [] && Matches(open[|open| - 1], l.text[0]) then Some(open[..|open| - 1]) else None
    else Some(open)
  }

  predicate Matches(o: char, c: char) { (o == '{' && c == '}') || (o == '[' && c == ']') || (o == '(' && c == ')') }

  function Braces(open: seq<char>): nat {
    if open == [] then 0 else (if open[|open| - 1] == '{' then 1 else 0) + Braces(open[..|open| - 1])
  }

  lemma NestSnoc(ls: seq<Lexeme>, l: Lexeme)
    ensures Nest(ls + [l]) == if Nest(ls).None? then None else NestBy(Nest(ls).value, l)
  {
    assert (ls + [l])[..|ls|] == ls && (ls + [l])[|ls|] == l;
  }

  /** The formatter's two stacks hold exactly the open brackets of a well-nested input. */
  lemma DeepenNests(open: seq<char>, l: Lexeme)
    requires NestBy(open, l).Some?
    ensures Deepen(Depths(Braces(open), |open|), l) == Depths(Braces(NestBy(open, l).value), |NestBy(open, l).value|)
  {
    if l.kind.Punct? && (l.text == "{" || l.text == "[" || l.text == "(") {
      assert (open + [l.text[0]])[..|open|] == open;
    }
  }

  lemma {:induction false} CodeAppend(ls: seq<Lexeme>, l: Lexeme)
    ensures Code(ls + [l]) == Code(ls) + if Trivia(l.kind) then [] else [l]
  {
    if ls != [] {
      CodeAppend(ls[1..], l);
      assert (ls + [l])[1..] == ls[1..] + [l];
    } else {
      assert ([l])[1..] == [];
    }
  }

  // ----- the driver -----

  /** The merges that the next token would complete. */
  predicate MergesAt(ls: seq<Lexeme>, i: nat)
    requires i < |ls|
  {
    (i >= 1 && MergesPair(ls[i - 1], ls[i])) || (i >= 2 && MergesTriple(ls[i - 2], ls[i - 1], ls[i]))
  }

  lemma NoMergesNext(ls: seq<Lexeme>, i: nat)
    requires i < |ls|
    ensures NoMerges(ls[..i + 1]) <==> NoMerges(ls[..i]) && !MergesAt(ls, i)
  {
    hide MergesPair, MergesTriple;
    var a, b := ls[..i], ls[..i + 1];
    if NoMerges(b) {
      forall j | 0 <= j < |a| - 1 ensures !MergesPair(a[j], a[j + 1]) { assert !MergesPair(b[j], b[j + 1]); }
      forall j | 0 <= j < |a| - 2 ensures !MergesTriple(a[j], a[j + 1], a[j + 2]) { assert !MergesTriple(b[j], b[j + 1], b[j + 2]); }
      if i >= 1 { assert !MergesPair(b[i - 1], b[i - 1 + 1]); }
      if i >= 2 { assert !MergesTriple(b[i - 2], b[i - 2 + 1], b[i - 2 + 2]); }
    }
    if NoMerges(a) && !MergesAt(ls, i) {
      forall j | 0 <= j < |b| - 1 ensures !MergesPair(b[j], b[j + 1]) {
        if j + 1 < |a| { assert !MergesPair(a[j], a[j + 1]); }
      }
      forall j | 0 <= j < |b| - 2 ensures !MergesTriple(b[j], b[j + 1], b[j + 2]) {
        if j + 2 < |a| { assert !MergesTriple(a[j], a[j + 1], a[j + 2]); }
      }
    }
  }

  /** What the formatter remembers of the two tokens before token i. */
  ghost predicate Recalls(f: FmtState, ls: seq<Lexeme>, i: nat)
    reads f
    requires i <= |ls|
  {
    && (f.MidToken() <==> i >= 1 && !Trivia(ls[i - 1].kind))
    && (f.MidToken() ==> f.prev.l == ls[i - 1])
    && (f.TwoTokens() ==> i >= 2 && f.beforePrev.l == ls[i - 2])
    && (f.intact && i >= 2 && PlainInt(ls[i - 2]) && ls[i - 1].kind.Punct? && ls[i - 1].text == "." ==> f.TwoTokens())
  }

  /** What holds before token i is emitted. */
  ghost predicate Progress(f: FmtState, ls: seq<Lexeme>, i: nat)
    reads f
  {
    && i <= |ls| && f.Valid() && f.PrevOk() && f.sent == Code(ls[..i]) && Recalls(f, ls, i)
    && (f.intact <==> NoMerges(ls[..i]))
    && (f.trailAfterBlock ==> i < |ls| && ls[i].kind.LineComment?)
    && (Nest(ls[..i]).Some? ==> Depths(|f.braceStack|, |f.wrapStack|) == Depths(Braces(Nest(ls[..i]).value), |Nest(ls[..i]).value|))
  }

  /** While nothing has merged, the formatter's state shows exactly the next merge. */
  lemma MergingIsMergesAt(f: FmtState, ls: seq<Lexeme>, i: nat, t: Token)
    requires i < |ls| && Recalls(f, ls, i) && f.intact && t.l == ls[i]
    ensures f.Merging(t) <==> MergesAt(ls, i)
    ensures Trivia(t.l.kind) ==> !MergesAt(ls, i)
  {
    hide PlainInt;
  }

  lemma PlainIsCode(l: Lexeme)
    ensures PlainInt(l) ==> !Trivia(l.kind)
  {
  }

  lemma DotHugsInt(a: Token, b: Token)
    requires PlainInt(a.l) && b.l.kind.Punct? && b.l.text == "."
    ensures Hugs(a, b)
  {
  }

  function Next(tokens: seq<Token>, i: nat): Option<Token> { if i + 1 < |tokens| then Some(tokens[i + 1]) else None }

  method EmitAt(f: FmtState, tokens: seq<Token>, i: nat, ch: Choice)
    requires i < |tokens| && Progress(f, Lexemes(tokens), i) && Whole(tokens[i].l) && f.Tracks()
    requires ch.pragma.Some? ==> LineNote(ch.pragma.value)
    modifies f
    ensures Progress(f, Lexemes(tokens), i + 1) && f.Tracks() && f.Wrote(old(f.Look()), tokens[i], Next(tokens, i), ch)
  {
    hide FmtState.Wrote, FmtState.Look, FmtState.Tracks, FmtState.Written, FmtState.Flagged, FmtState.Faithful, WrapCount;
    hide Whole, LineNote, MergesPair, MergesTriple, Deepen, Nest, NestBy, Braces, Code, NoMerges, PlainInt, Hugs, Spoiled, Spaced;
    ghost var ls := Lexemes(tokens);
    if i >= 1 && PlainInt(ls[i - 1]) && ls[i].kind.Punct? && ls[i].text == "." && f.MidToken() { DotHugsInt(f.prev, tokens[i]); }
    if i >= 1 { PlainIsCode(ls[i - 1]); }
    if f.intact { MergingIsMergesAt(f, ls, i, tokens[i]); }
    NoMergesNext(ls, i);
    assert ls[..i + 1] == ls[..i] + [ls[i]];
    CodeAppend(ls[..i], ls[i]);
    if Nest(ls[..i + 1]).Some? {
      NestSnoc(ls[..i], ls[i]);
      DeepenNests(Nest(ls[..i]).value, ls[i]);
    }
    f.Emit(tokens[i], Next(tokens, i), ch);
  }

  /** One more token, and where it was put. */
  method DrawAt(f: FmtState, tokens: seq<Token>, choices: seq<Choice>, i: nat, ghost starts: seq<nat>) returns (ghost starts': seq<nat>)
    requires i < |tokens| == |choices| && Progress(f, Lexemes(tokens), i) && Whole(tokens[i].l) && f.Tracks()
    requires (choices[i].pragma.Some? ==> LineNote(choices[i].pragma.value)) && Drawn(f.Look(), starts, tokens, choices, i)
    modifies f
    ensures Progress(f, Lexemes(tokens), i + 1) && f.Tracks() && Drawn(f.Look(), starts', tokens, choices, i + 1)
  {
    hide FmtState.Wrote, FmtState.Look, FmtState.Tracks, Drawn, Progress, Whole, LineNote;
    ghost var was := f.Look();
    EmitAt(f, tokens, i, choices[i]);
    ghost var start := if Trivia(tokens[i].l.kind) then |f.out| else |f.lead|;
    starts' := starts + [start];
    ProgressParts(f, Lexemes(tokens), i + 1);
    DrawnNext(f, was, starts, tokens, choices, i, Next(tokens, i), start);
  }

  lemma ProgressParts(f: FmtState, ls: seq<Lexeme>, i: nat)
    requires Progress(f, ls, i)
    ensures f.indent == WrapCount(f.wrapStack) && (f.trailAfterBlock ==> i < |ls| && ls[i].kind.LineComment?)
  {
  }

  /**
   formatTokens, under any wrap decisions: the output re-lexes to the input's code tokens
   exactly when no neighbours merge, indentation balances, and every code token stands at its
   start, on a line broken and indented as the brackets around it ask.
   */
  method FormatTokens(tokens: seq<Token>, choices: seq<Choice>) returns (text: string, indent: nat, ghost starts: seq<nat>)
    requires |choices| == |tokens| && forall i :: 0 <= i < |choices| && choices[i].pragma.Some? ==> LineNote(choices[i].pragma.value)
    requires forall i :: 0 <= i < |tokens| ==> Whole(tokens[i].l)
    ensures CodeLex(text) == Some(Code(Lexemes(tokens))) <==> NoMerges(Lexemes(tokens))
    ensures Nest(Lexemes(tokens)) == Some([]) ==> indent == 0
    ensures AllStand(tokens, choices, text, starts, |tokens|)
  {
    hide Tokens, Flatten, Spaced, Whole, LineNote, CodeLex, NoMerges, Code, Spoiled, Recalls, Drawn, Stands, FmtState.Tracks, FmtState.Look;
    var f := new FmtState();
    ghost var ls := Lexemes(tokens);
    Begin(f, ls);
    starts := [];
    NothingDrawn(f, tokens, choices);
    for i := 0 to |tokens|
      invariant fresh(f) && Progress(f, ls, i) && f.Tracks() && Drawn(f.Look(), starts, tokens, choices, i)
    {
      hide Progress;
      starts := DrawAt(f, tokens, choices, i, starts);
    }
    assert ls[..|ls|] == ls;
    text, indent := f.out, f.indent;
    if text == [] || text[|text| - 1] != '\n' { text := text + "\n"; }
    if f.intact { Finished(f.pieces, text); } else { Lost(f.out, f.sent, text); }
    if Nest(ls) == Some([]) { assert f.wrapStack == []; }
    AllDrawn(f, starts, tokens, choices, text);
  }

  lemma NothingDrawn(f: FmtState, tokens: seq<Token>, choices: seq<Choice>)
    requires |tokens| == |choices| && f.out == "" && f.Now() == UNREAD && f.atLineStart
    ensures Drawn(f.Look(), [], tokens, choices, 0)
  {
    assert tokens[..0] == [] && choices[..0] == [];
  }

  lemma AllDrawn(f: FmtState, starts: seq<nat>, tokens: seq<Token>, choices: seq<Choice>, text: string)
    requires |tokens| == |choices| && Drawn(f.Look(), starts, tokens, choices, |tokens|) && f.out <= text
    ensures AllStand(tokens, choices, text, starts, |tokens|)
  {
    AllStandOn(tokens, choices, |tokens|, f.out, starts, text, starts);
  }

  lemma Lost(out: string, sent: seq<Lexeme>, text: string)
    requires Spoiled(out, sent) && out <= text
    ensures CodeLex(text) != Some(sent)
  {
    hide CodeLex;
    assert text == out + text[|out|..] && sent + [] == sent;
  }

  lemma Finished(ps: seq<Piece>, text: string)
    requires Spaced(ps) && (ps != [] ==> !(ps[|ps| - 1].Note? && LineNote(ps[|ps| - 1].note)))
    requires text == "" + Flatten(ps) || text == "" + Flatten(ps) + "\n"
    ensures CodeLex(text) == Some(Tokens(ps))
  {
    hide CodeLex, Spaced, LineNote, Flatten, Tokens;
    assert "" + Flatten(ps) == Flatten(ps);
    ClosingNewline(ps);
  }

  lemma Begin(f: FmtState, ls: seq<Lexeme>)
    requires f.Valid() && f.pieces == [] && f.wrapStack == [] && f.braceStack == [] && !f.trailAfterBlock && f.PrevOk()
    requires f.sent == [] && f.intact
    ensures Progress(f, ls, 0)
  {
    assert ls[..0] == [];
  }

  lemma ClosingNewline(ps: seq<Piece>)
    requires Spaced(ps) && (ps != [] ==> !(ps[|ps| - 1].Note? && LineNote(ps[|ps| - 1].note)))
    ensures CodeLex(Flatten(ps) + "\n") == CodeLex(Flatten(ps)) == Some(Tokens(ps))
  {
    hide CodeLex, Spaced, Extends, LineNote, Flatten, Tokens;
    GapExtends(ps, "\n");
    SpacedAppend(ps, Gap("\n"));
    FlattenAppend(ps, Gap("\n"));
    TokensAppend(ps, Gap("\n"));
    RelexPieces(ps);
    RelexPieces(ps + [Gap("\n")]);
    assert Tokens(ps) + [] == Tokens(ps);
  }

  // ----- from source to source -----

  lemma ScannedIsSpelled(s: string)
    requires s != [] && Scan(s).Some? && !OpensComment(s) && !Blank(s[0]) && s[0] != '#'
    ensures Spelled(Lexeme(Scan(s).value.kind, s[..Scan(s).value.len]))
  {
    hide Scan;
    var n := Scan(s).value.len;
    ScanLocal(s, s[..n]);
    assert s[..n][n..] == [];
  }

  lemma LineCommentIsNote(s: string)
    requires s != [] && s[0] == '#'
    ensures LineNote(s[..Run(NotNewline, s)])
  {
    RunChars(NotNewline, s);
    CommentsAdvance(s);
  }

  lemma BlockCommentIsNote(s: string)
    requires OpensComment(s) && CommentRest(s[2..], 1).Some?
    ensures BlockNote(s[..CommentRest(s[2..], 1).value + 2])
  {
    var n := CommentRest(s[2..], 1).value;
    CommentLocal(s[2..], 1, s[..n + 2][2..]);
  }

  predicate AllWhole(ls: seq<Lexeme>) { forall i :: 0 <= i < |ls| ==> Whole(ls[i]) }

  lemma ConsWhole(l: Lexeme, r: Option<seq<Lexeme>>)
    requires Whole(l) && r.Some? && AllWhole(r.value)
    ensures Cons(l, r).Some? && AllWhole(Cons(l, r).value)
  {
    hide Whole;
  }

  /** Every token the lexer returns is whole. */
  lemma {:induction false} LexedIsWhole(s: string, head: bool)
    requires Lex(s, head).Some?
    ensures AllWhole(Lex(s, head).value)
    decreases |s|
  {
    hide Scan, CommentRest, Newlines, Spelled, BlockNote, LineNote, AllWhole, Run;
    var n := Run(Spaces, s);
    RunStops(Spaces, s);
    if Newlines(s[..n]) >= 2 {
      RunsHaveLength(s);
      LexedIsWhole(s[n..], false);
      ConsWhole(Lexeme(BlankLine, ""), Lex(s[n..], false));
    } else if n < |s| {
      var t := s[n..];
      assert t[0] == s[n];
      if t[0] == '#' {
        CommentsAdvance(t);
        LineCommentIsNote(t);
        var k := Run(NotNewline, t);
        LexedIsWhole(t[k..], false);
        ConsWhole(Lexeme(if head && n == 0 && |t| > 1 && t[1] == '!' then Shebang else LineComment, t[..k]), Lex(t[k..], false));
      } else if OpensComment(t) {
        BlockCommentIsNote(t);
        var k := CommentRest(t[2..], 1).value + 2;
        LexedIsWhole(t[k..], false);
        ConsWhole(Lexeme(BlockComment, t[..k]), Lex(t[k..], false));
      } else {
        ScannedIsSpelled(t);
        var k := Scan(t).value;
        LexedIsWhole(t[k.len..], false);
        ConsWhole(Lexeme(k.kind, t[..k.len]), Lex(t[k.len..], false));
      }
    } else {
      NoneWhole();
    }
  }

  lemma NoneWhole()
    ensures AllWhole([])
  {
  }

  /**
   Main result, source to source: whatever the width decisions and line numbers,
   formatting keeps the code tokens of a source that lexes exactly when no neighbours merge.
   */
  method FormatSource(src: string, lines: seq<nat>, choices: seq<Choice>) returns (text: Option<string>)
    requires Lex(src, true).Some? ==> |lines| == |choices| == |Lex(src, true).value|
    requires forall i :: 0 <= i < |choices| && choices[i].pragma.Some? ==> LineNote(choices[i].pragma.value)
    ensures text.Some? <==> Lex(src, true).Some?
    ensures text.Some? ==> (CodeLex(text.value) == Some(Code(Lex(src, true).value)) <==> NoMerges(Lex(src, true).value))
  {
    hide Lex, CodeLex, Code, NoMerges, Whole;
    var lexed := LexerMachine.TokenizeAll(src);
    if lexed.None? { return None; }
    var ls := lexed.value;
    LexedIsWhole(src, true);
    assert forall i :: 0 <= i < |ls| ==> Whole(ls[i]);
    var tokens := seq(|ls|, i requires 0 <= i < |ls| => Token(ls[i], lines[i]));
    assert Lexemes(tokens) == ls;
    var out, indent, starts := FormatTokens(tokens, choices);
    text := Some(out);
  }

  // ----- the self-check before an in-place write -----

  /** codeTokens */
  function CodeTokens(s: string): Option<seq<Lexeme>> {
    match Lex(s, true)
    case None => None
    case Some(ls) => Some(Code(ls))
  }

  /** The first line being a shebang or a comment makes no difference to the code. */
  lemma HeadIsTrivia(s: string)
    ensures CodeTokens(s) == CodeLex(s)
  {
    hide Scan, CommentRest, Newlines, Run, Code;
    var n := Run(Spaces, s);
    if Newlines(s[..n]) < 2 && n < |s| && s[n] == '#' {
      var t := s[n..];
      CommentsAdvance(t);
      var rest := Lex(t[Run(NotNewline, t)..], false);
      if rest.Some? {
        CodeCons(Lexeme(Shebang, t[..Run(NotNewline, t)]), rest);
        CodeCons(Lexeme(LineComment, t[..Run(NotNewline, t)]), rest);
      }
    }
  }

  method ReadCode(s: string) returns (ts: Option<seq<Lexeme>>)
    ensures ts == CodeTokens(s)
  {
    hide Lex, Code;
    var lexed := LexerMachine.TokenizeAll(s);
    if lexed.None? { return None; }
    var code: seq<Lexeme> := [];
    assert lexed.value[..0] == [] && Code([]) == [] by { NoCode(); }
    for i := 0 to |lexed.value|
      invariant code == Code(lexed.value[..i])
    {
      CodeAppend(lexed.value[..i], lexed.value[i]);
      assert lexed.value[..i + 1] == lexed.value[..i] + [lexed.value[i]];
      if !Trivia(lexed.value[i].kind) { code := code + [lexed.value[i]]; }
    }
    assert lexed.value[..|lexed.value|] == lexed.value;
    ts := Some(code);
  }

  lemma NoCode()
    ensures Code([]) == []
  {
  }

  method SameCodeTokens(a: string, b: string) returns (same: bool)
    ensures same <==> CodeTokens(a).Some? && CodeTokens(a) == CodeTokens(b)
  {
    hide CodeTokens;
    var ta := ReadCode(a);
    var tb := ReadCode(b);
    if ta.None? || tb.None? || |ta.value| != |tb.value| { return false; }
    for i := 0 to |ta.value|
      invariant forall j :: 0 <= j < i ==> ta.value[j] == tb.value[j]
    {
      if ta.value[i] != tb.value[i] { return false; }
    }
    assert ta.value == tb.value;
    return true;
  }

  datatype InPlace = Unlexed | Unchanged | Refused | Rewritten(text: string)

  /** fmtInPlace up to the write: the self-check refuses exactly the sources with merging neighbours. */
  method FormatInPlace(src: string, lines: seq<nat>, choices: seq<Choice>) returns (r: InPlace)
    requires Lex(src, true).Some? ==> |lines| == |choices| == |Lex(src, true).value|
    requires forall i :: 0 <= i < |choices| && choices[i].pragma.Some? ==> LineNote(choices[i].pragma.value)
    ensures r.Unlexed? <==> Lex(src, true).None?
    ensures r.Refused? <==> Lex(src, true).Some? && !NoMerges(Lex(src, true).value)
    ensures r.Rewritten? ==> CodeTokens(r.text) == CodeTokens(src)
  {
    var text := FormatSource(src, lines, choices);
    hide Lex, CodeLex, Code, NoMerges;
    if text.None? { return Unlexed; }
    HeadIsTrivia(src);
    HeadIsTrivia(text.value);
    if text.value == src { return Unchanged; }
    var same := SameCodeTokens(src, text.value);
    r := if same then Rewritten(text.value) else Refused;
  }
}
