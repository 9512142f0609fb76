/**
 `jennifer fmt`: the state machine that decides what goes between two tokens.
 Width-based decisions (does this container wrap, does this line break here) are
 arbitrary inputs, so everything proved holds for every line-length policy.
 */
module Formatter {
  import opened Options
  import opened Lexing
  import opened LexLocality
  import opened Relex
  import opened Merges
  import opened Lines
  import opened Layout

  datatype Sep = Nothing | Space | NewLine | Continuation | ToColumn(col: nat)

  /** The only places where two tokens may be written with nothing between them. */
  predicate MayTouch(a: Token, b: Token) {
    || TightPunct(b) || P(b, "{") || P(b, "}") || P(b, "(") || P(b, "[")
    || P(a, "{") || P(a, "[") || P(a, "(") || P(a, ".") || P(a, "..") || P(a, "-")
  }

  /** Neighbours the tight rules always write together. */
  predicate Hugs(a: Token, b: Token) {
    || MergesPair(a.l, b.l) || (a.l.kind.IntLit? && P(b, "."))
    || (P(a, ".") && (b.l.kind.IntLit? || b.l.kind.FloatLit?))
  }

  function Blanks(n: nat): (s: string)
    ensures |s| == n && BlankText(s)
  {
    if n == 0 then "" else " " + Blanks(n - 1)
  }

  function ColumnAfter(col: nat, s: string): nat
    decreases s
  {
    if s == [] then col else ColumnAfter(if s[0] == '\n' then 0 else col + 1, s[1..])
  }

  /** The running column is the length of the last line. */
  lemma {:induction false} ColumnTracks(s: string, t: string)
    ensures ColumnAfter(Indent(s), t) == Indent(s + t)
    decreases |t|
  {
    if t == [] {
      assert s + t == s;
    } else {
      assert s + t == (s + [t[0]]) + t[1..];
      ColumnTracks(s + [t[0]], t[1..]);
      assert (s + [t[0]])[..|s|] == s;
    }
  }

  lemma BlanksHold(n: nat)
    ensures '\n' !in Blanks(n) && forall i :: 0 <= i < n ==> Blanks(n)[i] == ' '
  {
  }

  /** A line break and blanks: the line is open and indented by them. */
  lemma BreakOpens(s: string, n: nat)
    ensures OpensLine(s + ("\n" + Blanks(n))) && Indent(s + ("\n" + Blanks(n))) == n
    ensures s + ("\n" + Blanks(n)) == s + "\n" + LastLine(s + ("\n" + Blanks(n)))
  {
    BlanksHold(n);
    LastLineBreaks(s, Blanks(n));
    assert s + ("\n" + Blanks(n)) == s + "\n" + Blanks(n);
  }

  /** Two tokens that may touch and do not merge stay two tokens. */
  lemma TouchBoundary(a: Token, b: Token)
    requires Spelled(a.l) && Spelled(b.l) && MayTouch(a, b) && !MergesPair(a.l, b.l)
    ensures Boundary(a.l, b.l.text)
  {
    hide Number, Word, RawRest, CookedRest, Run;
  }

  lemma SpelledStarts(l: Lexeme)
    requires Spelled(l)
    ensures l.text != []
  {
  }

  lemma DotIsPunct(l: Lexeme)
    requires Spelled(l)
    ensures l.text == "." ==> l.kind.Punct?
  {
    hide Number, Word, RawRest, CookedRest, Run;
  }

  lemma DigitStart(l: Lexeme)
    requires Spelled(l) && Digit(l.text[0])
    ensures l.kind.IntLit? || l.kind.FloatLit?
  {
    hide Number, Word, RawRest, CookedRest, Run;
  }

  lemma {:induction false} FlattenAppend(ps: seq<Piece>, p: Piece)
    ensures Flatten(ps + [p]) == Flatten(ps) + Text(p)
  {
    if ps != [] {
      FlattenAppend(ps[1..], p);
      assert (ps + [p])[1..] == ps[1..] + [p];
    } else {
      assert ([p])[1..] == [];
    }
  }

  lemma {:induction false} TokensAppend(ps: seq<Piece>, p: Piece)
    ensures Tokens(ps + [p]) == Tokens(ps) + if p.Tok? then [p.l] else []
  {
    if ps != [] {
      TokensAppend(ps[1..], p);
      assert (ps + [p])[1..] == ps[1..] + [p];
    } else {
      assert ([p])[1..] == [];
    }
  }

  /** What the end of the text asks of the next piece. */
  predicate Extends(ps: seq<Piece>, p: Piece) {
    && PieceOk(p) && (ps != [] ==> Adjacent(ps[|ps| - 1], p))
    && (|ps| >= 2 ==> NoDecimal(ps[|ps| - 2], ps[|ps| - 1], p))
  }

  lemma SpacedAppend(ps: seq<Piece>, p: Piece)
    requires Spaced(ps) && Extends(ps, p)
    ensures Spaced(ps + [p])
  {
    hide PieceOk, Adjacent, NoDecimal;
    var qs := ps + [p];
    forall i | 0 <= i < |qs| ensures PieceOk(qs[i]) {}
    forall i | 0 <= i < |qs| - 1 ensures Adjacent(qs[i], qs[i + 1]) {
      if i + 1 < |ps| { assert Adjacent(ps[i], ps[i + 1]); }
    }
    forall i | 0 <= i < |qs| - 2 ensures NoDecimal(qs[i], qs[i + 1], qs[i + 2]) {
      if i + 2 < |ps| { assert NoDecimal(ps[i], ps[i + 1], ps[i + 2]); }
    }
  }

  /** How many braces, and how many brackets of any kind, are open. */
  datatype Depths = Depths(braces: nat, frames: nat)

  function Deepen(d: Depths, l: Lexeme): Depths {
    if !l.kind.Punct? then d
    else if l.text == "{" then Depths(d.braces + 1, d.frames + 1)
    else if l.text == "[" || l.text == "(" then Depths(d.braces, d.frames + 1)
    else if l.text == "}" then
      if d.braces == 0 then d else Depths(d.braces - 1, if d.frames == 0 then 0 else d.frames - 1)
    else if l.text == "]" || l.text == ")" then Depths(d.braces, if d.frames == 0 then 0 else d.frames - 1)
    else d
  }

  /** The depths a bracket leads to, by its mark. */
  lemma MarkDepth(d: Depths, t: Token)
    ensures P(t, "{") ==> Deepen(d, t.l) == Depths(d.braces + 1, d.frames + 1)
    ensures P(t, "[") || P(t, "(") ==> Deepen(d, t.l) == Depths(d.braces, d.frames + 1)
    ensures P(t, "}") ==> Deepen(d, t.l) == if d.braces == 0 then d else Depths(d.braces - 1, if d.frames == 0 then 0 else d.frames - 1)
    ensures P(t, "]") || P(t, ")") ==> Deepen(d, t.l) == Depths(d.braces, if d.frames == 0 then 0 else d.frames - 1)
  {
  }

  lemma WrapMore(ws: seq<Frame>, f: Frame)
    ensures WrapCount(ws + [f]) == WrapCount(ws) + if f.wraps then 1 else 0
  {
    assert (ws + [f])[..|ws|] == ws;
  }

  /** The wrapped containers after t's bracket. */
  lemma WrapsAfter(r: Reading, t: Token, ch: Choice)
    ensures var now := Bracketed(r, t, ch); Level(r, t) + (if Opens(t) && Wrapped(now) then 1 else 0) == WrapCount(now.open)
    ensures var now := Bracketed(r, t, ch); now.last == r.last && now.before == r.before && now.unary == r.unary
    ensures Bracketed(r, t, ch).flags.inWhen ==> r.flags.inWhen
  {
    OneMark(t);
    hide P, K, KindOf, HugsParen, HugsBracket;
    if Opens(t) { WrapMore(r.open, Opened(r, t, ch)); }
  }

  /** t is written: it is the last token now, and its flags are set. */
  function Concluded(r: Reading, t: Token, unary: bool): Reading {
    Reading(Some(t), if r.last.Some? then r.last.value else NO_TOKEN, unary, r.open, r.kinds, r.brace, r.parens, Noted(r.flags, t))
  }

  lemma StepConcludes(r: Reading, t: Token, ch: Choice, unary: bool)
    requires !Trivia(t.l.kind) && unary == (P(t, "-") && !(r.last.Some? && Operand(r.last.value)))
    ensures Concluded(Bracketed(r, t, ch), t, unary) == Step(r, t, ch)
  {
    WrapsAfter(r, t, ch);
    hide Bracketed, Noted, P, K, Operand;
  }

  lemma DepthsAfter(r: Reading, t: Token, ch: Choice)
    ensures var now := Bracketed(r, t, ch); Depths(|now.kinds|, |now.open|) == Deepen(Depths(|r.kinds|, |r.open|), t.l)
  {
    OneMark(t);
    MarkDepth(Depths(|r.kinds|, |r.open|), t);
    if !Opens(t) && !Closes(t) { OtherDepth(Depths(|r.kinds|, |r.open|), t); }
    hide P, K, KindOf, Opened, Deepen;
  }

  lemma NoteReads(r: Reading, t: Token, ch: Choice)
    requires Trivia(t.l.kind)
    ensures Step(r, t, ch) == r
  {
  }

  /** Both stacks follow the brackets of every token. */
  lemma StepDepths(r: Reading, t: Token, ch: Choice)
    ensures var now := Step(r, t, ch); Depths(|now.kinds|, |now.open|) == Deepen(Depths(|r.kinds|, |r.open|), t.l)
  {
    hide Deepen, Bracketed, Noted;
    if Trivia(t.l.kind) { TriviaDepth(Depths(|r.kinds|, |r.open|), t.l); } else { DepthsAfter(r, t, ch); }
  }

  lemma OtherDepth(d: Depths, t: Token)
    requires !Opens(t) && !Closes(t)
    ensures Deepen(d, t.l) == d
  {
  }

  /** What a bracket changes, by its mark. */
  lemma BracketedBy(r: Reading, t: Token, ch: Choice)
    ensures P(t, "{") ==>
              Bracketed(r, t, ch) == r.(open := r.open + [Opened(r, t, ch)], kinds := r.kinds + [KindOf(r)], brace := Some(KindOf(r)),
                                        flags := Spent(r.flags, r.parens))
    ensures P(t, "[") || P(t, "(") ==> Bracketed(r, t, ch) == r.(open := r.open + [Opened(r, t, ch)], parens := r.parens + 1)
    ensures P(t, "}") ==> Bracketed(r, t, ch) == if r.kinds == [] then r else r.(open := Popped(r.open), kinds := Popped(r.kinds), brace := Some(Top(r.kinds)))
    ensures P(t, "]") || P(t, ")") ==> Bracketed(r, t, ch) == r.(open := Popped(r.open), parens := if r.parens == 0 then 0 else r.parens - 1)
    ensures !Opens(t) && !Closes(t) ==> Bracketed(r, t, ch) == r
    ensures Level(r, t) == WrapCount(if Closes(t) then Bracketed(r, t, ch).open else r.open)
  {
    OneMark(t);
    hide P, K, Opened, KindOf, Spent, WrapCount;
  }

  /** From one reading to the next only t's own bracket was opened or closed. */
  ghost predicate Kept(r: Reading, now: Reading, t: Token) {
    && now.last == r.last && now.before == r.before && now.unary == r.unary && (Opens(t) ==> |now.open| == |r.open| + 1 && now.open[..|r.open|] == r.open)
    && (!Opens(t) && !Closes(t) ==> now.open == r.open)
    && (P(t, "{") && r.last.Some? && !r.last.value.l.kind.Ident? ==> now.kinds != [] && Top(now.kinds) != StructLit)
  }

  lemma KeptBrackets(r: Reading, t: Token, ch: Choice)
    ensures Kept(r, Bracketed(r, t, ch), t)
  {
    OneMark(t);
    hide P, K, Opened, BlockOpener;
  }

  /** From `was` to s the separator was written: mid-line, or on a line opened so far in. */
  predicate LaidBy(sep: Sep, was: string, s: string, indent: nat) {
    match sep
    case Nothing => s == was && !OpensLine(s)
    case Space => s == was + " " && !OpensLine(s)
    case NewLine => s == was + "\n" + LastLine(s) && OpensLine(s) && Indent(s) == 4 * indent
    case Continuation => s == was + "\n" + LastLine(s) && OpensLine(s) && Indent(s) == 4 * (indent + 1)
    case ToColumn(c) => s == was + "\n" + LastLine(s) && OpensLine(s) && Indent(s) == c
  }

  /** What is known of the tokens sent, before one more. */
  datatype Mail = Mail(sent: seq<Lexeme>, intact: bool, mid: bool, merging: bool, prev: Token)

  /** What the output looked like before a token. */
  datatype View = View(out: string, now: Reading, atLineStart: bool, pendingSpace: bool, valueCol: nat)

  class FmtState {
    var out: string
    ghost var prefix: string        // what was written before the last merge
    ghost var pieces: seq<Piece>    // and since
    ghost var sent: seq<Lexeme>     // every token written
    ghost var intact: bool          // no two of them have merged
    ghost var lead: string          // the text before the last token written
    var trailAfterBlock: bool
    var indent: nat
    var col: nat
    var prev: Token
    var beforePrev: Token
    var hasPrev: bool
    var atLineStart: bool
    var prevIsOperand: bool
    var prevIsUnaryMinus: bool
    var braceStack: seq<BraceKind>
    var parenDepth: nat
    var pendingMatchBrace: bool
    var pendingArmBrace: bool
    var inWhenValues: bool
    var whenValueCol: nat
    var lastBraceKind: Option<BraceKind>
    var pendingTriviaSpace: bool
    var pendingStructBrace: bool
    var wrapStack: seq<Frame>
    var lastWrap: bool

    constructor ()
      ensures Valid() && PrevOk() && pieces == [] && out == "" && wrapStack == [] && braceStack == [] && !trailAfterBlock
      ensures sent == [] && intact && Now() == UNREAD && Tracks() && atLineStart
    {
      prefix, sent, intact, lead := "", [], true, "";
      out, pieces, trailAfterBlock, indent, col := "", [], false, 0, 0;
      prev, beforePrev, hasPrev, atLineStart := NO_TOKEN, NO_TOKEN, false, true;
      prevIsOperand, prevIsUnaryMinus, braceStack, parenDepth := false, false, [], 0;
      pendingMatchBrace, pendingArmBrace, inWhenValues, whenValueCol := false, false, false, 0;
      lastBraceKind, pendingTriviaSpace, pendingStructBrace, wrapStack, lastWrap := None, false, false, [], false;
    }

    /** The last thing written is a token. */
    ghost predicate MidToken() reads this`pieces { pieces != [] && pieces[|pieces| - 1].Tok? }

    /** The last two pieces are both tokens. */
    ghost predicate TwoTokens() reads this`pieces { MidToken() && |pieces| >= 2 && pieces[|pieces| - 2].Tok? }

    /** Since the last merge the output is its pieces, kept apart, and the flags describe its end. */
    ghost predicate Written()
      reads this`out, this`prefix, this`pieces, this`prev, this`beforePrev, this`hasPrev
    {
      && out == prefix + Flatten(pieces) && Spaced(pieces)
      && (pieces != [] ==> !(pieces[|pieces| - 1].Note? && LineNote(pieces[|pieces| - 1].note)))
      && (MidToken() ==> hasPrev && pieces[|pieces| - 1].l == prev.l)
      && (MidToken() && |pieces| >= 2 && pieces[|pieces| - 2].Tok? ==> pieces[|pieces| - 2].l == beforePrev.l)
    }

    /** A flag that lets the next token skip its separator is set only away from a token. */
    ghost predicate Flagged()
      reads this`pieces, this`hasPrev, this`atLineStart, this`pendingTriviaSpace, this`trailAfterBlock
    {
      && (atLineStart || pendingTriviaSpace || trailAfterBlock || !hasPrev ==> !MidToken())
      && (pendingTriviaSpace ==> hasPrev)
    }

    /** The output is made of exactly the tokens sent, or can no longer be read as them. */
    ghost predicate Faithful()
      reads this`out, this`prefix, this`pieces, this`sent, this`intact
    {
      if intact then prefix == "" && Tokens(pieces) == sent else Spoiled(out, sent)
    }

    ghost predicate Valid() reads this {
      Written() && Flagged() && Faithful() && indent == WrapCount(wrapStack)
    }

    /** Writing `t` right here would merge it with what is before it. */
    ghost predicate Merging(t: Token) reads this`pieces, this`prev, this`beforePrev {
      (MidToken() && MergesPair(prev.l, t.l)) || (TwoTokens() && MergesTriple(beforePrev.l, prev.l, t.l))
    }

    /** What the fields say about the tokens read so far. */
    ghost function Now(): Reading
      reads this`hasPrev, this`prev, this`beforePrev, this`prevIsUnaryMinus, this`wrapStack, this`braceStack, this`parenDepth,
            this`lastBraceKind, this`pendingMatchBrace, this`pendingArmBrace, this`pendingStructBrace, this`inWhenValues
    {
      Reading(if hasPrev then Some(prev) else None, beforePrev, prevIsUnaryMinus, wrapStack, braceStack, lastBraceKind, parenDepth, Pending())
    }

    ghost function Pending(): Flags reads this`pendingMatchBrace, this`pendingArmBrace, this`pendingStructBrace, this`inWhenValues {
      Flags(pendingMatchBrace, pendingArmBrace, pendingStructBrace, inWhenValues)
    }

    /** The column is the length of the last line, and the line is open exactly when the flag says so. */
    ghost predicate AtColumn() reads this`out, this`col, this`atLineStart {
      col == Indent(out) && (atLineStart <==> OpensLine(out))
    }

    ghost predicate PrevTracks() reads this`prev, this`hasPrev, this`prevIsOperand {
      (prevIsOperand <==> hasPrev && Operand(prev)) && (!hasPrev ==> prev == NO_TOKEN)
    }

    ghost predicate Tracks() reads this {
      AtColumn() && PrevTracks() && (hasPrev || atLineStart || trailAfterBlock)
    }

    // The predicates above, put together and taken apart.

    lemma ValidParts()
      requires Valid() && Tracks()
      ensures Written() && Flagged() && Faithful() && indent == WrapCount(wrapStack)
      ensures AtColumn() && PrevTracks() && (hasPrev || atLineStart || trailAfterBlock) && (!hasPrev ==> prev == NO_TOKEN)
    {
    }

    lemma ValidWhole()
      requires Written() && Flagged() && Faithful() && indent == WrapCount(wrapStack)
      ensures Valid()
    {
    }

    ghost predicate PrevOk() reads this`prev, this`prevIsUnaryMinus { prevIsUnaryMinus ==> P(prev, "-") }

    predicate CurWraps() reads this`wrapStack { wrapStack != [] && wrapStack[|wrapStack| - 1].wraps }

    predicate InForHeader() reads this`wrapStack { wrapStack != [] && wrapStack[|wrapStack| - 1].forHeader }

    predicate ForHeaderWraps() reads this`wrapStack { wrapStack != [] && wrapStack[|wrapStack| - 1].forHeaderWraps }

    function CurrentBrace(): Option<BraceKind> reads this`braceStack {
      if braceStack == [] then None else Some(braceStack[|braceStack| - 1])
    }

    /** The container around `cur`: one below the top when `cur` has just pushed its own frame. */
    predicate ContainerWraps(cur: Token) reads this`wrapStack {
      if Opens(cur) then |wrapStack| >= 2 && wrapStack[|wrapStack| - 2].wraps else CurWraps()
    }

    predicate ContinuesExpression()
      reads this`hasPrev, this`prev, this`prevIsUnaryMinus, this`wrapStack
    {
      hasPrev && BinaryJoiner(prev) && !prevIsUnaryMinus && !InForHeader()
    }

    /** writeSeparator's decision. Nothing is chosen only where tokens may touch. */
    function Separator(t: Token, ch: Choice): (s: Sep)
      reads this
      requires PrevOk()
      ensures s.Nothing? ==> !hasPrev || atLineStart || pendingTriviaSpace || MayTouch(prev, t)
      ensures hasPrev && !atLineStart && !pendingTriviaSpace && Hugs(prev, t) ==> s.Nothing?
    {
      if !hasPrev || atLineStart then Nothing
      else if pendingTriviaSpace then (if TightPunct(t) then Nothing else Space)
      else if P(t, "{") && CurrentBrace() == Some(StructLit) then Nothing
      else if K(prev, "init") && ch.breakAfterInit then Continuation
      else if ContinuesExpression() && ch.breakAfterJoiner then Continuation
      else if P(prev, ";") then
        if P(t, ")") then Nothing
        else if InForHeader() then (if ForHeaderWraps() then Continuation else Space)
        else if P(t, "}") && lastBraceKind == Some(Arm) && !lastWrap then Space
        else NewLine
      else if P(prev, ",") && inWhenValues then (if ch.breakWhenList then ToColumn(whenValueCol) else Space)
      else if P(prev, ",") && ContainerWraps(t) then NewLine
      else if P(prev, "}") && (P(t, ";") || P(t, ",") || P(t, ")")) then Nothing
      else if P(prev, "}") && lastBraceKind.Some? && lastBraceKind.value in {Block, StructDecl, MatchBody, Arm} then
        if K(t, "else") && CurrentBrace() == Some(MatchBody) then NewLine
        else if K(t, "else") || K(t, "elseif") || K(t, "catch") || K(t, "until") then Space
        else NewLine
      else if P(t, "}") && lastBraceKind == Some(StructDecl) then NewLine
      else if P(t, "}") && (lastBraceKind == Some(StructLit) || lastBraceKind == Some(MapLit)) then
        if lastWrap then NewLine else Nothing
      else if P(t, "]") then (if lastWrap then NewLine else Nothing)
      else if P(prev, "{") then
        if lastBraceKind.Some? && lastBraceKind.value in {Block, StructDecl, MatchBody} then NewLine
        else if ContainerWraps(t) then NewLine
        else if lastBraceKind == Some(Arm) then Space
        else Nothing
      else if P(prev, "[") then (if ContainerWraps(t) then NewLine else Nothing)
      else if P(prev, "(") then (if !P(t, ")") && ContainerWraps(t) then NewLine else Nothing)
      else if P(t, "(") && (HugsParen(prev) || P(beforePrev, ".")) then Nothing
      else if P(t, "[") && HugsBracket(prev) then Nothing
      else if TightPunct(t) then Nothing
      else if P(prev, ".") || P(prev, "..") then Nothing
      else if prevIsUnaryMinus then Nothing
      else Space
    }

    /** Which breaks hang, and which go below the first value of a `when`. */
    lemma SeparatorLines(t: Token, ch: Choice)
      requires PrevOk()
      ensures var s := Separator(t, ch);
              && (s.Continuation? ==> HangsAt(Now(), t, ch))
              && (s.NewLine? ==> !HangsAt(Now(), t, ch) && !ValuesAt(Now(), t, ch))
              && (s.ToColumn? ==> !HangsAt(Now(), t, ch) && ValuesAt(Now(), t, ch) && s.col == whenValueCol)
    {
      hide MayTouch, TightPunct, HugsParen, HugsBracket, BlockOpener, Operand, Opens, ContainerWraps;
    }

    /** What the bracket t closed, if it closed one. */
    ghost predicate JustClosed(r: Reading, t: Token) reads this`lastBraceKind, this`lastWrap {
      P(t, "}") && r.kinds != [] && r.open != [] ==> lastBraceKind == Some(Top(r.kinds)) && lastWrap == Top(r.open).wraps
    }

    /** Where the line must break, it does. */
    lemma SeparatorBreaks(r: Reading, t: Token, ch: Choice)
      requires PrevOk() && Now() == Bracketed(r, t, ch) && JustClosed(r, t) && MustBreak(r, t, ch) && !atLineStart && !pendingTriviaSpace
      ensures Separator(t, ch).NewLine? || Separator(t, ch).Continuation?
    {
      OneMark(t);
      OneMark(prev);
      KeptBrackets(r, t, ch);
      assert hasPrev && r.last == Some(prev) && Mark(prev);
      MarksOnly(prev);
      hide P, K, MayTouch, TightPunct, HugsParen, HugsBracket, BlockOpener, Operand, BinaryJoiner, Bracketed, KindOf, Opened, Hugs;
      if P(prev, "}") {
        BreaksAfterBlock(r, t, ch);
      } else if P(prev, ";") {
        BreaksAfterSemicolon(r, t, ch);
      } else if P(prev, "{") {
        BreaksAfterBrace(r, t, ch);
      } else {
        BreaksInList(r, t, ch);
      }
    }

    ghost predicate Seen(r: Reading, t: Token) reads this {
      && hasPrev && r.last == Some(prev) && Kept(r, Now(), t) && JustClosed(r, t) && !atLineStart && !pendingTriviaSpace && PrevOk()
      && !K(prev, "init") && !BinaryJoiner(prev) && !prev.l.kind.Ident?
    }

    /** The line breaks nowhere else. */
    lemma SeparatorKeeps(r: Reading, t: Token, ch: Choice)
      requires PrevOk() && Now() == Bracketed(r, t, ch) && hasPrev && !atLineStart && !pendingTriviaSpace
      ensures Separator(t, ch).NewLine? || Separator(t, ch).Continuation? || Separator(t, ch).ToColumn? ==> MayBreak(r, t, ch)
    {
      OneMark(t);
      OneMark(prev);
      KeptBrackets(r, t, ch);
      SeparatorLines(t, ch);
      hide P, K, MayTouch, TightPunct, HugsParen, HugsBracket, BlockOpener, Operand, BinaryJoiner, Bracketed, KindOf, Opened, Hugs, HangsAt, ValuesAt;
    }

    /** Where the tokens must touch, nothing is written. */
    lemma SeparatorTouches(r: Reading, t: Token, ch: Choice)
      requires PrevOk() && Now() == Bracketed(r, t, ch) && MustTouch(r, t, ch) && hasPrev && !atLineStart && !pendingTriviaSpace
      ensures Separator(t, ch).Nothing?
    {
      OneMark(t);
      OneMark(prev);
      OtherMarks(t);
      OtherMarks(prev);
      KeptBrackets(r, t, ch);
      BracketedBy(r, t, ch);
      if Mark(prev) { MarksOnly(prev); }
      hide K, MayTouch, HugsParen, HugsBracket, BlockOpener, Operand, BinaryJoiner, Bracketed, KindOf, Opened, Hugs, Spent, WrapCount;
    }

    lemma BreaksAfterSemicolon(r: Reading, t: Token, ch: Choice)
      requires Seen(r, t) && P(prev, ";") && !P(t, ")") && !InHeader(Now())
      requires P(t, "}") ==> r.kinds != [] && r.open != [] && (Top(r.kinds) != Arm || Wrapped(r))
      ensures Separator(t, ch).NewLine?
    {
      OneMark(prev);
      hide P, K, MayTouch, TightPunct, HugsParen, HugsBracket, BinaryJoiner, Hugs;
    }

    lemma BreaksAfterBlock(r: Reading, t: Token, ch: Choice)
      requires Seen(r, t) && P(prev, "}") && !P(t, ";") && !P(t, ",") && !P(t, ")") && lastBraceKind.Some? && Blocklike(lastBraceKind.value)
      requires Tails(t) ==> K(t, "else") && CurrentBrace() == Some(MatchBody)
      ensures Separator(t, ch).NewLine?
    {
      OneMark(prev);
      hide P, K, MayTouch, TightPunct, HugsParen, HugsBracket, BinaryJoiner, Hugs;
    }

    lemma BreaksAfterBrace(r: Reading, t: Token, ch: Choice)
      requires Seen(r, t) && P(prev, "{") && Wrapped(r) && !P(t, "]") && !P(t, ")") && (P(t, "}") ==> r.kinds != [] && Top(r.kinds) != Arm)
      ensures Separator(t, ch).NewLine?
    {
      OneMark(prev);
      OneMark(t);
      hide P, K, MayTouch, TightPunct, HugsParen, HugsBracket, BinaryJoiner, Hugs;
    }

    lemma BreaksInList(r: Reading, t: Token, ch: Choice)
      requires Seen(r, t) && Wrapped(r) && !Closes(t)
      requires P(prev, "[") || P(prev, "(") || (P(prev, ",") && !inWhenValues)
      ensures Separator(t, ch).NewLine?
    {
      OneMark(prev);
      OneMark(t);
      hide P, K, MayTouch, TightPunct, HugsParen, HugsBracket, BinaryJoiner, Hugs;
    }

    /** The two write primitives: text goes out, and is remembered as one piece. */
    method Put(p: Piece)
      requires out == prefix + Flatten(pieces) && Spaced(pieces) && Extends(pieces, p)
      modifies this`out, this`pieces, this`col
      ensures pieces == old(pieces) + [p] && out == old(out) + Text(p) == prefix + Flatten(pieces) && Spaced(pieces)
      ensures Tokens(pieces) == old(Tokens(pieces)) + if p.Tok? then [p.l] else []
      ensures old(col == Indent(out)) ==> col == Indent(out)
    {
      hide *;
      ColumnTracks(out, Text(p));
      FlattenAppend(pieces, p);
      TokensAppend(pieces, p);
      SpacedAppend(pieces, p);
      assert prefix + (Flatten(pieces) + Text(p)) == prefix + Flatten(pieces) + Text(p);
      out := out + Text(p);
      col := ColumnAfter(col, Text(p));
      pieces := pieces + [p];
    }

    /** Write blanks; the text now ends in a gap. */
    method PutGap(ws: string)
      requires Written() && ws != [] && BlankText(ws)
      modifies this`out, this`pieces, this`col
      ensures Written() && pieces == old(pieces) + [Gap(ws)] && Tokens(pieces) == old(Tokens(pieces)) && out == old(out) + ws
      ensures old(col == Indent(out)) ==> col == Indent(out)
    {
      hide Flatten, Tokens;
      GapExtends(pieces, ws);
      hide Extends, Spaced;
      Put(Gap(ws));
      assert old(Tokens(pieces)) + [] == old(Tokens(pieces));
    }

    method BreakLine(levels: nat)
      requires Written()
      modifies this`out, this`pieces, this`col, this`atLineStart
      ensures Written() && !MidToken() && atLineStart && Tokens(pieces) == old(Tokens(pieces))
      ensures old(out) <= out && OpensLine(out) && Indent(out) == 4 * levels && out == old(out) + "\n" + LastLine(out)
      ensures old(col == Indent(out)) ==> col == Indent(out)
    {
      hide Flatten, Tokens, Spaced, OpensLine, Indent;
      BreakOpens(out, 4 * levels);
      PutGap("\n" + Blanks(4 * levels));
      atLineStart := true;
    }

    method WriteSeparator(t: Token, ch: Choice)
      requires Written() && Flagged() && PrevOk() && !trailAfterBlock && AtColumn() && (hasPrev || atLineStart)
      modifies this`out, this`pieces, this`col, this`atLineStart, this`pendingTriviaSpace
      ensures Written() && Tokens(pieces) == old(Tokens(pieces)) && !pendingTriviaSpace && old(out) <= out && AtColumn()
      ensures MidToken() ==> pieces == old(pieces) && MayTouch(prev, t)
      ensures old(MidToken()) && Hugs(prev, t) ==> pieces == old(pieces) && out == old(out)
      ensures old(atLineStart) ==> out == old(out)
      ensures !old(atLineStart) ==> LaidBy(old(Separator(t, ch)), old(out), out, indent)
    {
      hide Flatten, Tokens, Spaced, OpensLine, Indent;
      var sep := Separator(t, ch);
      hide Separator;
      if hasPrev { pendingTriviaSpace := false; }
      match sep
      case Nothing =>
      case Space =>
        if !atLineStart { StillOccupied(out); }
        PutGap(" ");
      case NewLine => BreakLine(indent);
      case Continuation => BreakLine(indent + 1);
      case ToColumn(c) =>
        BreakOpens(out, c);
        PutGap("\n" + Blanks(c));
        atLineStart := true;
    }

    /** The token's text. Where it merges, the pieces start afresh with it. */
    method WriteToken(t: Token)
      requires Written() && Spelled(t.l) && (MidToken() ==> MayTouch(prev, t))
      modifies this`out, this`prefix, this`pieces, this`col
      ensures out == old(out) + t.l.text == prefix + Flatten(pieces) && Spaced(pieces)
      ensures pieces == (if old(Merging(t)) then [] else old(pieces)) + [Tok(t.l)]
      ensures !old(Merging(t)) ==> prefix == old(prefix) && Tokens(pieces) == old(Tokens(pieces)) + [t.l]
      ensures !OpensLine(out) && (old(col == Indent(out)) ==> col == Indent(out))
    {
      hide Flatten, Tokens, Extends, Spaced, MayTouch, Spelled;
      hide OpensLine, Indent;
      SpelledStarts(t.l);
      SpelledEnds(t.l);
      OccupiedBy(out, t.l.text);
      Cut(t);
      Put(Tok(t.l));
    }

    ghost method Cut(t: Token)
      requires Written() && Spelled(t.l) && (MidToken() ==> MayTouch(prev, t))
      modifies this`prefix, this`pieces
      ensures out == prefix + Flatten(pieces) && Spaced(pieces) && Extends(pieces, Tok(t.l))
      ensures if old(Merging(t)) then pieces == [] else pieces == old(pieces) && prefix == old(prefix)
    {
      hide Flatten, Tokens, MayTouch, Spelled, Extends;
      if Merging(t) {
        prefix, pieces := out, [];
        NoPieces();
        assert out == out + "";
      } else if MidToken() {
        assert PieceOk(pieces[|pieces| - 1]);
        TouchBoundary(prev, t);
        DotIsPunct(prev.l);
      }
      SpelledStarts(t.l);
      if Digit(t.l.text[0]) { DigitStart(t.l); }
      TokExtends(pieces, t.l, prev, beforePrev);
    }

    // ----- comments and blank lines -----

    function NextLineIndent(next: Option<Token>): nat
      reads this`indent, this`wrapStack, this`hasPrev, this`prev, this`prevIsUnaryMinus
    {
      var ind := if next.Some? && (P(next.value, "}") || P(next.value, "]")) && CurWraps() then indent - 1 else indent;
      var ind' := if ContinuesExpression() then ind + 1 else ind;
      if ind' < 0 then 0 else ind'
    }

    /** What a comment or blank line leaves for the token after it. */
    lemma NoteLeaves(t: Token)
      requires indent == WrapCount(wrapStack)
      ensures 4 * NextLineIndent(Some(t)) == LineAfterNote(Now(), t)
    {
      OneMark(t);
      hide P, K, BinaryJoiner;
    }

    /** A line comment, and the line break that must follow it. */
    method PutLineNote(n: string, levels: nat)
      requires Written() && LineNote(n)
      modifies this`out, this`pieces, this`col, this`atLineStart
      ensures Written() && !MidToken() && atLineStart && Tokens(pieces) == old(Tokens(pieces)) && old(out) <= out
      ensures OpensLine(out) && Indent(out) == 4 * levels && (old(col == Indent(out)) ==> col == Indent(out))
    {
      hide Flatten, Tokens, OpensLine, Indent;
      BreakOpens(out + n, 4 * levels);
      LineNoteExtends(pieces, n);
      var gap := "\n" + Blanks(4 * levels);
      BreakExtends(pieces, n, gap);
      hide Extends, Spaced;
      ghost var before := Tokens(pieces);
      Put(Note(n));
      assert Tokens(pieces) == before + [] == before;
      Put(Gap(gap));
      assert Tokens(pieces) == before + [] == before;
      atLineStart := true;
    }

    method PutBlockNote(n: string)
      requires Written() && BlockNote(n) && (MidToken() ==> prev.l.text != "/")
      modifies this`out, this`pieces, this`col
      ensures Written() && !MidToken() && Tokens(pieces) == old(Tokens(pieces)) && old(out) <= out
      ensures !OpensLine(out) && (old(col == Indent(out)) ==> col == Indent(out))
    {
      hide Flatten, Tokens, OpensLine, Indent;
      BlockNoteEnds(n);
      OccupiedBy(out, n);
      BlockNoteExtends(pieces, n);
      hide Extends, Spaced, CommentRest;
      ghost var before := Tokens(pieces);
      Put(Note(n));
      assert Tokens(pieces) == before + [] == before;
    }

    method EmitLineComment(t: Token, next: Option<Token>, ch: Choice)
      requires Written() && Flagged() && LineNote(t.l.text) && (ch.pragma.Some? ==> LineNote(ch.pragma.value)) && AtColumn()
      modifies this`out, this`pieces, this`col, this`atLineStart, this`trailAfterBlock
      ensures Written() && !MidToken() && atLineStart && !trailAfterBlock && Tokens(pieces) == old(Tokens(pieces)) && old(out) <= out
      ensures AtColumn() && Indent(out) == 4 * NextLineIndent(next)
    {
      hide Flatten, Tokens, Spaced, LineNote, OpensLine, Indent;
      if trailAfterBlock {
        trailAfterBlock := false;
      } else if hasPrev && prev.line == t.line {
        PutGap(" ");
      } else if !atLineStart {
        BreakLine(indent);
      }
      PutLineNote(if ch.pragma.Some? then ch.pragma.value else t.l.text, NextLineIndent(next));
    }

    method EmitBlockComment(t: Token, next: Option<Token>)
      requires Written() && Flagged() && BlockNote(t.l.text) && !trailAfterBlock && AtColumn() && (hasPrev || atLineStart)
      modifies this`out, this`pieces, this`col, this`atLineStart, this`trailAfterBlock, this`pendingTriviaSpace
      ensures Written() && Flagged() && !MidToken() && Tokens(pieces) == old(Tokens(pieces)) && old(out) <= out
      ensures trailAfterBlock ==> next.Some? && next.value.l.kind.LineComment?
      ensures AtColumn() && (hasPrev || atLineStart || trailAfterBlock) && (atLineStart ==> Indent(out) == 4 * NextLineIndent(next))
      ensures !atLineStart ==> pendingTriviaSpace || trailAfterBlock
    {
      hide Flatten, Tokens, Spaced, BlockNote, OpensLine, Indent, NextLineIndent, MidToken, Written, Flagged, AtColumn;
      if !hasPrev || prev.line != t.line {
        EmitLeadingBlock(t, next);
      } else {
        EmitInlineBlock(t);
      }
    }

    /** A block comment on lines of its own; a line comment the source put behind it stays there. */
    method EmitLeadingBlock(t: Token, next: Option<Token>)
      requires Written() && Flagged() && BlockNote(t.l.text) && !trailAfterBlock && AtColumn() && (hasPrev || atLineStart)
      modifies this`out, this`pieces, this`col, this`atLineStart, this`trailAfterBlock
      ensures Written() && Flagged() && !MidToken() && Tokens(pieces) == old(Tokens(pieces)) && old(out) <= out
      ensures trailAfterBlock ==> next.Some? && next.value.l.kind.LineComment?
      ensures AtColumn() && (atLineStart || trailAfterBlock) && (atLineStart ==> Indent(out) == 4 * NextLineIndent(next))
    {
      hide Flatten, Tokens, Spaced, BlockNote, OpensLine, Indent, NextLineIndent;
      if hasPrev && !atLineStart { BreakLine(indent); }
      PutBlockNote(t.l.text);
      if next.Some? && next.value.l.kind.LineComment? && next.value.line == t.line + Newlines(t.l.text) {
        StillOccupied(out);
        PutGap(" ");
        trailAfterBlock, atLineStart := true, false;
      } else {
        BreakLine(NextLineIndent(next));
      }
    }

    /** A block comment between tokens of one line: the next token keeps its distance. */
    method EmitInlineBlock(t: Token)
      requires Written() && Flagged() && BlockNote(t.l.text) && !trailAfterBlock && AtColumn() && hasPrev
      modifies this`out, this`pieces, this`col, this`atLineStart, this`pendingTriviaSpace
      ensures Written() && Flagged() && !MidToken() && Tokens(pieces) == old(Tokens(pieces)) && old(out) <= out
      ensures AtColumn() && !atLineStart && pendingTriviaSpace
    {
      hide Flatten, Tokens, Spaced, BlockNote, OpensLine, Indent;
      BlockNoteEnds(t.l.text);
      if hasPrev && !atLineStart && !TightOnRight(prev) { PutGap(" "); }
      PutBlockNote(t.l.text);
      atLineStart := t.l.text[|t.l.text| - 1] == '\n';
      if !atLineStart { pendingTriviaSpace := true; }
    }

    method EmitBlankLine(next: Option<Token>)
      requires Written() && AtColumn()
      modifies this`out, this`pieces, this`col, this`atLineStart
      ensures Written() && !MidToken() && Tokens(pieces) == old(Tokens(pieces)) && old(out) <= out
      ensures AtColumn() && atLineStart && Indent(out) == 4 * NextLineIndent(next)
    {
      hide Flatten, Tokens, Spaced, OpensLine, Indent;
      if !atLineStart { PutGap("\n"); }
      BreakLine(NextLineIndent(next));
    }

    /** Trivia writes text and leaves the token state alone. */
    method EmitTrivia(t: Token, next: Option<Token>, ch: Choice)
      requires Written() && Flagged() && Trivia(t.l.kind) && Whole(t.l) && (ch.pragma.Some? ==> LineNote(ch.pragma.value))
      requires trailAfterBlock ==> t.l.kind.LineComment?
      requires AtColumn() && (hasPrev || atLineStart || trailAfterBlock)
      modifies this`out, this`pieces, this`col, this`atLineStart, this`trailAfterBlock, this`pendingTriviaSpace
      ensures Written() && Flagged() && !MidToken() && Tokens(pieces) == old(Tokens(pieces)) && old(out) <= out
      ensures trailAfterBlock ==> next.Some? && next.value.l.kind.LineComment?
      ensures AtColumn() && (hasPrev || atLineStart || trailAfterBlock)
      ensures !atLineStart ==> pendingTriviaSpace || trailAfterBlock
      ensures atLineStart ==> Indent(out) == if t.l.kind.Shebang? then 0 else 4 * NextLineIndent(next)
    {
      hide Flatten, Tokens, Spaced, BlockNote, LineNote, OpensLine, Indent;
      match t.l.kind
      case Shebang => PutLineNote(t.l.text, 0);
      case LineComment => EmitLineComment(t, next, ch);
      case BlockComment => EmitBlockComment(t, next);
      case BlankLine => EmitBlankLine(next);
    }

    // ----- one token -----

    function Classify(t: Token): BraceKind reads this {
      if pendingMatchBrace && parenDepth == 0 then MatchBody
      else if pendingArmBrace && parenDepth == 0 then Arm
      else if pendingStructBrace then StructDecl
      else if hasPrev && K(prev, "else") && CurrentBrace() == Some(MatchBody) then Arm
      else if hasPrev && BlockOpener(prev) then Block
      else if hasPrev && prev.l.kind.Ident? then StructLit
      else MapLit
    }

    /** Push the frame of an opening bracket. */
    method Open(t: Token, ch: Choice)
      requires Opens(t) && indent == WrapCount(wrapStack)
      modifies this`braceStack, this`lastBraceKind, this`wrapStack, this`parenDepth, this`pendingMatchBrace, this`pendingArmBrace,
               this`pendingStructBrace, this`inWhenValues
      ensures wrapStack == old(wrapStack) + [Opened(old(Now()), t, ch)]
      ensures if P(t, "{") then braceStack == old(braceStack) + [KindOf(old(Now()))] && lastBraceKind == Some(KindOf(old(Now())))
                                && parenDepth == old(parenDepth) && Pending() == Spent(old(Pending()), parenDepth)
              else braceStack == old(braceStack) && lastBraceKind == old(lastBraceKind) && parenDepth == old(parenDepth) + 1
                   && Pending() == old(Pending())
    {
      OneMark(t);
      hide P, K, HugsParen, HugsBracket;
      if P(t, "{") {
        OpenBrace(t, ch);
      } else if P(t, "[") {
        var wraps := !(hasPrev && HugsBracket(prev)) && ch.wraps;
        wrapStack := wrapStack + [Frame(wraps, false, false)];
        parenDepth := parenDepth + 1;
      } else {
        var wraps := hasPrev && (HugsParen(prev) || P(beforePrev, ".")) && ch.wraps;
        var header := hasPrev && K(prev, "for");
        wrapStack := wrapStack + [Frame(wraps, header, header && ch.headerWraps)];
        parenDepth := parenDepth + 1;
      }
    }

    /** Blocks, match bodies and struct declarations always wrap. */
    method OpenBrace(t: Token, ch: Choice)
      requires P(t, "{")
      modifies this`braceStack, this`lastBraceKind, this`wrapStack, this`pendingMatchBrace, this`pendingArmBrace,
               this`pendingStructBrace, this`inWhenValues
      ensures wrapStack == old(wrapStack) + [Opened(old(Now()), t, ch)] && braceStack == old(braceStack) + [KindOf(old(Now()))]
      ensures lastBraceKind == Some(KindOf(old(Now()))) && Pending() == Spent(old(Pending()), parenDepth)
    {
      hide P, K, BlockOpener, HugsParen, HugsBracket;
      var kind := Classify(t);
      if pendingMatchBrace && parenDepth == 0 {
        pendingMatchBrace := false;
      } else if pendingArmBrace && parenDepth == 0 {
        pendingArmBrace, inWhenValues := false, false;
      } else if pendingStructBrace {
        pendingStructBrace := false;
      }
      var wraps := kind == Block || kind == MatchBody || kind == StructDecl || ch.wraps;
      braceStack := braceStack + [kind];
      lastBraceKind := Some(kind);
      wrapStack := wrapStack + [Frame(wraps, false, false)];
    }

    method PopWrap() returns (w: bool)
      requires indent == WrapCount(wrapStack)
      modifies this`wrapStack, this`lastWrap
      ensures wrapStack == Popped(old(wrapStack)) && (old(wrapStack) != [] ==> lastWrap == Top(old(wrapStack)).wraps)
      ensures indent == WrapCount(wrapStack) + (if w then 1 else 0)
    {
      if wrapStack == [] { return false; }
      w := wrapStack[|wrapStack| - 1].wraps;
      wrapStack := wrapStack[..|wrapStack| - 1];
      lastWrap := w;
    }

    /** Pop the frame of a closing bracket and dedent if it was wrapped. */
    method CloseBracket(t: Token)
      requires Closes(t) && indent == WrapCount(wrapStack)
      modifies this`braceStack, this`lastBraceKind, this`wrapStack, this`lastWrap, this`parenDepth, this`indent
      ensures wrapStack == (if P(t, "}") && old(braceStack) == [] then old(wrapStack) else Popped(old(wrapStack)))
      ensures if P(t, "}") then braceStack == Popped(old(braceStack)) && parenDepth == old(parenDepth)
              else braceStack == old(braceStack) && parenDepth == if old(parenDepth) == 0 then 0 else old(parenDepth) - 1
      ensures lastBraceKind == if P(t, "}") && old(braceStack) != [] then Some(Top(old(braceStack))) else old(lastBraceKind)
      ensures indent == WrapCount(wrapStack) && JustClosed(old(Now()), t)
    {
      OneMark(t);
      hide P, WrapCount;
      if P(t, "}") {
        if braceStack != [] {
          lastBraceKind := Some(braceStack[|braceStack| - 1]);
          braceStack := braceStack[..|braceStack| - 1];
          var w := PopWrap();
          if w && indent > 0 { indent := indent - 1; }
        }
      } else {
        var w := PopWrap();
        if w && indent > 0 { indent := indent - 1; }
        if parenDepth > 0 { parenDepth := parenDepth - 1; }
      }
    }

    /** Flags a token sets for the brace that will follow it; the values of a `when` start one column past it. */
    method Remember(t: Token)
      modifies this`pendingStructBrace, this`pendingMatchBrace, this`pendingArmBrace, this`inWhenValues, this`whenValueCol
      ensures Now() == old(Now()).(flags := Noted(old(Now()).flags, t)) && whenValueCol == if K(t, "when") then col + 1 else old(whenValueCol)
    {
      OneWord(t);
      hide P, K;
      if K(t, "struct") || K(t, "enum") {
        pendingStructBrace := true;
      } else if K(t, "match") {
        pendingMatchBrace := true;
      } else if K(t, "when") {
        pendingArmBrace, inWhenValues, whenValueCol := true, true, col + 1;
      } else if P(t, ";") {
        pendingStructBrace, pendingMatchBrace, pendingArmBrace, inWhenValues := false, false, false, false;
      }
    }

    method Emit(t: Token, next: Option<Token>, ch: Choice)
      requires Valid() && PrevOk() && Tracks() && Whole(t.l) && (ch.pragma.Some? ==> LineNote(ch.pragma.value))
      requires trailAfterBlock ==> t.l.kind.LineComment?
      modifies this
      ensures Valid() && PrevOk() && Tracks() && (trailAfterBlock ==> next.Some? && next.value.l.kind.LineComment?)
      ensures sent == old(sent) + if Trivia(t.l.kind) then [] else [t.l]
      ensures intact == (old(intact) && (Trivia(t.l.kind) || !old(Merging(t))))
      ensures if Trivia(t.l.kind) then !MidToken()
              else MidToken() && prev == t && beforePrev == old(prev) && (TwoTokens() ==> old(MidToken()))
      ensures intact && !Trivia(t.l.kind) && old(MidToken()) && Hugs(old(prev), t) ==> TwoTokens()
      ensures Wrote(old(Look()), t, next, ch)
      ensures Depths(|braceStack|, |wrapStack|) == Deepen(Depths(old(|braceStack|), old(|wrapStack|)), t.l)
    {
      hide Step, Flatten, Tokens, Spaced, BlockNote, LineNote, Spelled, WrapCount, MergesPair, MergesTriple, Deepen, Spoiled, Hugs,
           LaidOut, Indent, OpensLine, Faithful, Written, Flagged;
      if Trivia(t.l.kind) {
        EmitNote(t, next, ch);
        assert Now() == Step(old(Now()), t, ch) by { NoteReads(old(Now()), t, ch); }
      } else {
        EmitCode(t, ch);
      }
      StepDepths(old(Now()), t, ch);
    }

    /** A comment or a blank line: text, and nothing the tokens would show. */
    method EmitNote(t: Token, next: Option<Token>, ch: Choice)
      requires Valid() && Tracks() && Trivia(t.l.kind) && Whole(t.l) && (ch.pragma.Some? ==> LineNote(ch.pragma.value))
      requires trailAfterBlock ==> t.l.kind.LineComment?
      modifies this`out, this`pieces, this`col, this`atLineStart, this`trailAfterBlock, this`pendingTriviaSpace
      ensures Valid() && Tracks() && !MidToken() && (trailAfterBlock ==> next.Some? && next.value.l.kind.LineComment?)
      ensures old(out) <= out && (!atLineStart ==> pendingTriviaSpace || trailAfterBlock)
      ensures atLineStart ==> Indent(out) == if t.l.kind.Shebang? then 0 else 4 * NextLineIndent(next)
    {
      hide Flatten, Tokens, Spaced, BlockNote, LineNote, Spelled, WrapCount, Spoiled, Indent, OpensLine, Written, Flagged, AtColumn, PrevTracks,
           NextLineIndent, Whole, MidToken;
      EmitTrivia(t, next, ch);
      assert sent + [] == sent;
      if !intact { SpoiledMore(old(out), sent, out, []); }
    }

    ghost function Look(): View reads this { View(out, Now(), atLineStart, pendingTriviaSpace, whenValueCol) }

    /** The text that emitting t added, and where it left the line. */
    ghost predicate Wrote(was: View, t: Token, next: Option<Token>, ch: Choice) reads this {
      && Now() == Step(was.now, t, ch) && was.out <= out
      && if Trivia(t.l.kind) then
           && whenValueCol == was.valueCol && (!atLineStart ==> pendingTriviaSpace || trailAfterBlock)
           && (atLineStart ==> Indent(out) == if t.l.kind.Shebang? then 0 else 4 * NextLineIndent(next))
         else
           && out == lead + t.l.text && was.out <= lead && !atLineStart && !pendingTriviaSpace
           && whenValueCol == (if K(t, "when") then Indent(out) + 1 else was.valueCol)
           && (if was.atLineStart then lead == was.out else LaidOut(was.now, t, ch, !was.pendingSpace, was.valueCol, was.out, lead))
    }

    method Brackets(t: Token, ch: Choice)
      requires indent == WrapCount(wrapStack)
      modifies this`braceStack, this`lastBraceKind, this`wrapStack, this`lastWrap, this`parenDepth, this`indent, this`pendingMatchBrace,
               this`pendingArmBrace, this`pendingStructBrace, this`inWhenValues
      ensures Now() == Bracketed(old(Now()), t, ch) && JustClosed(old(Now()), t) && indent == Level(old(Now()), t)
    {
      BracketedBy(Now(), t, ch);
      OneMark(t);
      hide P, WrapCount, Opened, KindOf, Spent, Bracketed, Level;
      if Opens(t) {
        Open(t, ch);
      } else if Closes(t) {
        CloseBracket(t);
      }
    }

    /** Brackets, and what stays as it was. */
    method TakeBracket(t: Token, ch: Choice)
      requires indent == WrapCount(wrapStack)
      modifies this`braceStack, this`lastBraceKind, this`wrapStack, this`lastWrap, this`parenDepth, this`indent, this`pendingMatchBrace,
               this`pendingArmBrace, this`pendingStructBrace, this`inWhenValues
      ensures Now() == Bracketed(old(Now()), t, ch) && JustClosed(old(Now()), t) && indent == Level(old(Now()), t)
      ensures indent + (if Opens(t) && CurWraps() then 1 else 0) == WrapCount(wrapStack)
    {
      hide P, WrapCount, Bracketed, Level, JustClosed, Opens, Indent;
      WrapsAfter(Now(), t, ch);
      Brackets(t, ch);
    }

    /** The separator's decision for t, in the terms of what was read before it. */
    lemma Decided(r: Reading, t: Token, ch: Choice, was: string, s: string)
      requires PrevOk() && Now() == Bracketed(r, t, ch) && JustClosed(r, t) && indent == Level(r, t) && !atLineStart && hasPrev
      requires LaidBy(Separator(t, ch), was, s, indent)
      ensures LaidOut(r, t, ch, !pendingTriviaSpace, whenValueCol, was, s)
    {
      if pendingTriviaSpace { assert Separator(t, ch).Nothing? || Separator(t, ch).Space?; }
      hide Separator, Bracketed, Level, HangsAt, ValuesAt, OpensLine, Indent, LastLine, MustBreak, MustTouch, JustClosed;
      SeparatorLines(t, ch);
      if !pendingTriviaSpace { SeparatorKeeps(r, t, ch); }
      if !pendingTriviaSpace && MustBreak(r, t, ch) { SeparatorBreaks(r, t, ch); }
      if !pendingTriviaSpace && MustTouch(r, t, ch) { SeparatorTouches(r, t, ch); }
      hide MayBreak;
    }

    /** Separator, then token. */
    method WriteCode(t: Token, ch: Choice)
      requires Written() && Flagged() && PrevOk() && Faithful() && !trailAfterBlock && Spelled(t.l)
      requires AtColumn() && (hasPrev || atLineStart)
      modifies this`out, this`prefix, this`pieces, this`col, this`atLineStart, this`pendingTriviaSpace, this`sent, this`intact, this`lead
      ensures Resting(t) && Faithful() && Posted(old(Post(t)), t) && out == lead + t.l.text && old(out) <= lead
      ensures if old(atLineStart) then lead == old(out) else LaidBy(old(Separator(t, ch)), old(out), lead, indent)
    {
      hide Flatten, Tokens, Spaced, Spelled, MayTouch, PlainInt, Spoiled, OpensLine, Indent, Separator, LaidBy;
      WriteSeparator(t, ch);
      lead := out;
      WriteToken(t);
      Send(t, old(out), old(pieces), old(Merging(t)));
    }

    /** Counts the token just written; `merged` says whether it ran into the text `out0` of the pieces `ps`. */
    ghost method Send(t: Token, out0: string, ps: seq<Piece>, merged: bool)
      requires out0 <= out && Spelled(t.l) && Spaced(ps)
      requires intact ==> out0 == Flatten(ps) && Tokens(ps) == sent
      requires !intact ==> Spoiled(out0, sent)
      requires intact && !merged ==> prefix == "" && Tokens(pieces) == sent + [t.l]
      requires merged ==> out == out0 + t.l.text && EndsMerging(ps, t.l)
      modifies this`sent, this`intact
      ensures Faithful() && sent == old(sent) + [t.l] && intact == (old(intact) && !merged)
    {
      hide Flatten, Tokens, Spaced, Spelled, Spoiled, EndsMerging;
      if !intact {
        SpoiledMore(out0, sent, out, [t.l]);
      } else if merged {
        MergeSpoils(ps, t.l);
      }
      sent, intact := sent + [t.l], intact && !merged;
    }

    ghost function Post(t: Token): Mail reads this`sent, this`intact, this`pieces, this`prev, this`beforePrev {
      Mail(sent, intact, MidToken(), Merging(t), prev)
    }

    /** t is sent: it ends the text, and has merged with the text before it exactly when it was about to. */
    ghost predicate Posted(was: Mail, t: Token) reads this`sent, this`intact, this`pieces {
      && sent == was.sent + [t.l] && intact == (was.intact && !was.merging) && MidToken() && (TwoTokens() ==> was.mid)
      && (intact && was.mid && Hugs(was.prev, t) ==> TwoTokens())
    }

    /** The text is at the end of t, in the middle of a line. */
    ghost predicate Resting(t: Token) reads this {
      EndsIn(t) && !pendingTriviaSpace && !trailAfterBlock && col == Indent(out) && !OpensLine(out)
    }

    /** The text ends in t, and the token it touches, if any, is the previous one. */
    ghost predicate EndsIn(t: Token) reads this`out, this`prefix, this`pieces, this`prev {
      && out == prefix + Flatten(pieces) && Spaced(pieces) && MidToken() && pieces[|pieces| - 1].l == t.l
      && (TwoTokens() ==> pieces[|pieces| - 2].l == prev.l)
    }

    /** WriteCode, with the separator's decision said in the terms of what was read before t. */
    method PlaceCode(t: Token, ch: Choice, ghost r: Reading)
      requires Written() && Flagged() && PrevOk() && Faithful() && !trailAfterBlock && Spelled(t.l)
      requires AtColumn() && (hasPrev || atLineStart)
      requires Now() == Bracketed(r, t, ch) && JustClosed(r, t) && indent == Level(r, t)
      modifies this`out, this`prefix, this`pieces, this`col, this`atLineStart, this`pendingTriviaSpace, this`sent, this`intact, this`lead
      ensures Resting(t) && Faithful() && Posted(old(Post(t)), t) && out == lead + t.l.text && old(out) <= lead
      ensures if old(atLineStart) then lead == old(out) else LaidOut(r, t, ch, !old(pendingTriviaSpace), whenValueCol, old(out), lead)
    {
      hide *;
      ghost var sep, level, adjacent, valueCol := Separator(t, ch), indent, !pendingTriviaSpace, whenValueCol;
      if !atLineStart {
        forall s: string | LaidBy(sep, old(out), s, level) ensures LaidOut(r, t, ch, adjacent, valueCol, old(out), s) {
          Decided(r, t, ch, old(out), s);
        }
      }
      WriteCode(t, ch);
    }

    lemma UnaryReads(t: Token, unary: bool)
      requires PrevTracks() && unary == (P(t, "-") && !prevIsOperand)
      ensures unary == (P(t, "-") && !(Now().last.Some? && Operand(Now().last.value))) && (unary ==> P(t, "-"))
      ensures prev == if Now().last.Some? then Now().last.value else NO_TOKEN
    {
    }

    method EmitCode(t: Token, ch: Choice)
      requires Valid() && PrevOk() && Spelled(t.l) && !trailAfterBlock && !Trivia(t.l.kind) && Tracks()
      modifies this
      ensures Valid() && PrevOk() && !trailAfterBlock && Tracks() && !atLineStart && !pendingTriviaSpace
      ensures Posted(old(Post(t)), t) && prev == t && beforePrev == old(prev)
      ensures Now() == Step(old(Now()), t, ch) && out == lead + t.l.text && old(out) <= lead
      ensures whenValueCol == if K(t, "when") then Indent(out) + 1 else old(whenValueCol)
      ensures if old(atLineStart) then lead == old(out) else LaidOut(old(Now()), t, ch, !old(pendingTriviaSpace), old(whenValueCol), old(out), lead)
    {
      hide *;
      ValidParts();
      ghost var r := Now();
      var unary := P(t, "-") && !prevIsOperand;
      UnaryReads(t, unary);
      LayDown(t, ch);
      Conclude(t, unary);
      StepConcludes(r, t, ch, unary);
      ValidWhole();
    }

    /** Its bracket is taken, then the token is written. */
    method LayDown(t: Token, ch: Choice)
      requires Written() && Flagged() && PrevOk() && Faithful() && !trailAfterBlock && Spelled(t.l)
      requires AtColumn() && (hasPrev || atLineStart) && indent == WrapCount(wrapStack)
      modifies this`braceStack, this`lastBraceKind, this`wrapStack, this`lastWrap, this`parenDepth, this`indent, this`pendingMatchBrace,
               this`pendingArmBrace, this`pendingStructBrace, this`inWhenValues,
               this`out, this`prefix, this`pieces, this`col, this`atLineStart, this`pendingTriviaSpace, this`sent, this`intact, this`lead
      ensures Resting(t) && Faithful() && Posted(old(Post(t)), t) && out == lead + t.l.text && old(out) <= lead
      ensures indent + (if Opens(t) && CurWraps() then 1 else 0) == WrapCount(wrapStack) && Now() == Bracketed(old(Now()), t, ch)
      ensures if old(atLineStart) then lead == old(out) else LaidOut(old(Now()), t, ch, !old(pendingTriviaSpace), whenValueCol, old(out), lead)
    {
      hide *;
      ghost var r := Now();
      TakeBracket(t, ch);
      PlaceCode(t, ch, r);
    }

    /** The token is written: flags, indent, and t becomes the previous token. */
    method Conclude(t: Token, unary: bool)
      requires Resting(t) && (!hasPrev ==> prev == NO_TOKEN)
      requires (unary ==> P(t, "-")) && indent + (if Opens(t) && CurWraps() then 1 else 0) == WrapCount(wrapStack)
      modifies this`pendingStructBrace, this`pendingMatchBrace, this`pendingArmBrace, this`inWhenValues, this`whenValueCol, this`indent,
               this`beforePrev, this`prev, this`hasPrev, this`atLineStart, this`prevIsOperand, this`prevIsUnaryMinus
      ensures Written() && Flagged() && PrevOk() && prev == t && beforePrev == old(prev) && indent == WrapCount(wrapStack)
      ensures Tracks() && !atLineStart && !trailAfterBlock && !pendingTriviaSpace && Now() == Concluded(old(Now()), t, unary)
      ensures whenValueCol == if K(t, "when") then Indent(out) + 1 else old(whenValueCol)
    {
      hide Flatten, Spaced, Opens, P, K, WrapCount, Noted, OpensLine, Indent, Operand, EndsIn, MidToken, Written, Flagged, Now;
      LastIs();
      Remember(t);
      if Opens(t) && CurWraps() { indent := indent + 1; }
      Advance(t, unary);
    }

    lemma LastIs()
      requires !hasPrev ==> prev == NO_TOKEN
      ensures prev == if Now().last.Some? then Now().last.value else NO_TOKEN
    {
    }

    /** t becomes the previous token. */
    method Advance(t: Token, unary: bool)
      requires EndsIn(t) && !trailAfterBlock && !pendingTriviaSpace && (unary ==> P(t, "-"))
      modifies this`beforePrev, this`prev, this`hasPrev, this`atLineStart, this`prevIsOperand, this`prevIsUnaryMinus
      ensures Written() && Flagged() && PrevOk() && prev == t && beforePrev == old(prev)
      ensures hasPrev && !atLineStart && prevIsOperand == Operand(t)
      ensures Now() == old(Now()).(last := Some(t), before := old(prev), unary := unary)
    {
      hide Flatten, Spaced, Operand, Now;
      SetPrev(t, unary);
    }

    method SetPrev(t: Token, unary: bool)
      modifies this`beforePrev, this`prev, this`hasPrev, this`atLineStart, this`prevIsOperand, this`prevIsUnaryMinus
      ensures prev == t && beforePrev == old(prev) && hasPrev && !atLineStart && prevIsOperand == Operand(t) && prevIsUnaryMinus == unary
      ensures Now() == old(Now()).(last := Some(t), before := old(prev), unary := unary)
    {
      hide Operand;
      beforePrev := prev;
      prev, hasPrev, atLineStart := t, true, false;
      prevIsOperand, prevIsUnaryMinus := Operand(t), unary;
    }
  }

  /** A token of the input: a whole code token, or a comment that ends where it says. */
  predicate Whole(l: Lexeme) {
    match l.kind
    case LineComment => LineNote(l.text)
    case Shebang => LineNote(l.text)
    case BlockComment => BlockNote(l.text)
    case BlankLine => true
    case _ => Spelled(l)
  }

  lemma TriviaDepth(d: Depths, l: Lexeme)
    requires Trivia(l.kind)
    ensures Deepen(d, l) == d
  {
  }

  lemma LineNoteExtends(ps: seq<Piece>, n: string)
    requires LineNote(n) && (ps != [] ==> !(ps[|ps| - 1].Note? && LineNote(ps[|ps| - 1].note)))
    ensures Extends(ps, Note(n))
  {
  }

  lemma BreakExtends(ps: seq<Piece>, n: string, gap: string)
    requires gap != [] && gap[0] == '\n' && BlankText(gap)
    ensures Extends(ps + [Note(n)], Gap(gap))
  {
  }

  lemma BlockNoteExtends(ps: seq<Piece>, n: string)
    requires BlockNote(n) && (ps != [] ==> !(ps[|ps| - 1].Note? && LineNote(ps[|ps| - 1].note)))
    requires ps != [] && ps[|ps| - 1].Tok? ==> ps[|ps| - 1].l.text != "/"
    ensures Extends(ps, Note(n))
  {
    hide CommentRest;
  }

  lemma GapExtends(ps: seq<Piece>, ws: string)
    requires ws != [] && BlankText(ws)
    requires ps != [] ==> !(ps[|ps| - 1].Note? && LineNote(ps[|ps| - 1].note))
    ensures Extends(ps, Gap(ws))
  {
  }

  lemma TokExtends(ps: seq<Piece>, l: Lexeme, prev: Token, beforePrev: Token)
    requires Spelled(l) && (ps != [] ==> !(ps[|ps| - 1].Note? && LineNote(ps[|ps| - 1].note)))
    requires ps != [] && ps[|ps| - 1].Tok? ==> ps[|ps| - 1].l == prev.l && Boundary(prev.l, l.text)
    requires ps != [] && ps[|ps| - 1].Tok? && prev.l.text == "." ==> prev.l.kind.Punct?
    requires Digit(l.text[0]) ==> l.kind.IntLit? || l.kind.FloatLit?
    requires |ps| >= 2 && ps[|ps| - 1].Tok? && ps[|ps| - 2].Tok? ==>
               ps[|ps| - 2].l == beforePrev.l && !MergesTriple(beforePrev.l, prev.l, l)
    ensures Extends(ps, Tok(l))
  {
    hide Boundary, BaseOf, Scan;
  }
}
