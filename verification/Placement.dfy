/** Where the tokens stand in the output: on which lines they open, and how far those lines are indented. */
module Placement {
  import opened Options
  import opened Lexing
  import opened Lines
  import opened Layout
  import opened Formatter

  /** Which token the last `when` was. */
  function LastWhen(ts: seq<Token>): nat {
    if ts == [] then 0 else if K(ts[|ts| - 1], "when") then |ts| - 1 else LastWhen(ts[..|ts| - 1])
  }

  /** The column of the first value after the last `when`. */
  function ValueColumn(ts: seq<Token>, text: string, starts: seq<nat>): nat {
    if LastWhen(ts) < |starts| && starts[LastWhen(ts)] <= |text| then Indent(text[..starts[LastWhen(ts)]]) + 5 else 0
  }

  /** Where token j starts if it opens a line, by what was read before it and by whether a comment precedes it. */
  function LineFor(tokens: seq<Token>, choices: seq<Choice>, text: string, starts: seq<nat>, j: nat): int
    requires j < |tokens| == |choices|
  {
    var r := Read(tokens[..j], choices[..j]);
    if j == 0 || tokens[j - 1].l.kind.Shebang? then 0
    else if Trivia(tokens[j - 1].l.kind) then LineAfterNote(r, tokens[j])
    else LineStart(r, tokens[j], choices[j], ValueColumn(tokens[..j], text, starts))
  }

  function EndOf(tokens: seq<Token>, starts: seq<nat>, j: nat): nat
    requires j < |tokens| && j < |starts|
  {
    starts[j] + if Trivia(tokens[j].l.kind) then 0 else |tokens[j].l.text|
  }

  /** The text between two neighbouring code tokens: nothing where they must touch, else a blank, or a line break and blanks where there may be one. */
  ghost predicate GapRight(r: Reading, t: Token, ch: Choice, gap: string, s: string) {
    && (if OpensLine(s) then MayBreak(r, t, ch) && gap == "\n" + LastLine(s) else gap == "" || gap == " ")
    && (MustBreak(r, t, ch) ==> OpensLine(s)) && (MustTouch(r, t, ch) ==> gap == "")
  }

  /** If token j opens a line after the text s, the line is indented as it should be; and the text behind a code token is as it should be. */
  ghost predicate LineRight(tokens: seq<Token>, choices: seq<Choice>, text: string, starts: seq<nat>, j: nat, s: string)
    requires j < |tokens| == |choices|
  {
    && (OpensLine(s) ==> Indent(s) == LineFor(tokens, choices, text, starts, j))
    && (j > 0 && !Trivia(tokens[j - 1].l.kind) ==>
          && j <= |starts| && EndOf(tokens, starts, j - 1) <= |s|
          && GapRight(Read(tokens[..j], choices[..j]), tokens[j], choices[j], s[EndOf(tokens, starts, j - 1)..], s))
  }

  /** Token j stands in the text at its start, after the tokens before it, on the line it should be on. */
  ghost predicate Stands(tokens: seq<Token>, choices: seq<Choice>, text: string, starts: seq<nat>, j: nat)
    requires j < |tokens| == |choices|
  {
    && j < |starts| && EndOf(tokens, starts, j) <= |text| && (j > 0 ==> EndOf(tokens, starts, j - 1) <= starts[j])
    && text[starts[j]..EndOf(tokens, starts, j)] == tokens[j].l.text
    && LineRight(tokens, choices, text, starts, j, text[..starts[j]])
  }

  ghost predicate AllStand(tokens: seq<Token>, choices: seq<Choice>, text: string, starts: seq<nat>, n: nat)
    requires n <= |tokens| == |choices|
  {
    forall j: nat :: j < n && !Trivia(tokens[j].l.kind) ==> Stands(tokens, choices, text, starts, j)
  }

  ghost predicate Within(starts: seq<nat>, text: string) { forall k :: 0 <= k < |starts| ==> starts[k] <= |text| }

  /** The values of a `when` are read only after one. */
  lemma {:induction false} ReadWhen(ts: seq<Token>, chs: seq<Choice>)
    requires |chs| == |ts|
    ensures Read(ts, chs).flags.inWhen ==> LastWhen(ts) < |ts|
  {
    if ts != [] {
      var n := |ts| - 1;
      ReadWhen(ts[..n], chs[..n]);
      WrapsAfter(Read(ts[..n], chs[..n]), ts[n], chs[n]);
      hide Bracketed, P;
    }
  }

  lemma {:induction false} LastWhenBefore(ts: seq<Token>)
    ensures ts != [] ==> LastWhen(ts) < |ts|
  {
    if |ts| > 1 { LastWhenBefore(ts[..|ts| - 1]); }
  }

  /** More text and more tokens leave the column of the values where it was. */
  lemma ColumnStays(ts: seq<Token>, text: string, starts: seq<nat>, text': string, starts': seq<nat>)
    requires |ts| <= |starts| && ts != [] && text <= text' && starts <= starts' && Within(starts, text)
    ensures ValueColumn(ts, text', starts') == ValueColumn(ts, text, starts)
  {
    hide Indent;
    LastWhenBefore(ts);
    var w := LastWhen(ts);
    assert text'[..starts[w]] == text[..starts[w]];
  }

  /** What is written stays where it is. */
  lemma StandsOn(tokens: seq<Token>, choices: seq<Choice>, text: string, starts: seq<nat>, j: nat, text': string, starts': seq<nat>)
    requires j < |tokens| == |choices| && !Trivia(tokens[j].l.kind) && Stands(tokens, choices, text, starts, j)
    requires text <= text' && starts <= starts' && Within(starts, text)
    ensures Stands(tokens, choices, text', starts', j)
  {
    if j > 0 { ColumnStays(tokens[..j], text, starts, text', starts'); }
    hide OpensLine, Indent, LineAfterNote, LineStart, MustBreak, Read, ValueColumn;
    assert text'[..starts[j]] == text[..starts[j]];
    assert text'[starts[j]..EndOf(tokens, starts, j)] == text[starts[j]..EndOf(tokens, starts, j)];
  }

  lemma AllStandOn(tokens: seq<Token>, choices: seq<Choice>, n: nat, text: string, starts: seq<nat>, text': string, starts': seq<nat>)
    requires n <= |tokens| == |choices| && AllStand(tokens, choices, text, starts, n)
    requires text <= text' && starts <= starts' && Within(starts, text)
    ensures AllStand(tokens, choices, text', starts', n)
  {
    hide Stands;
    forall j: nat | j < n && !Trivia(tokens[j].l.kind) ensures Stands(tokens, choices, text', starts', j) {
      StandsOn(tokens, choices, text, starts, j, text', starts');
    }
  }

  // ----- token by token -----

  /** A comment has left the line as the next token needs it. */
  ghost predicate LineReady(v: View, tokens: seq<Token>, i: nat)
    requires i < |tokens|
  {
    && (v.atLineStart ==> Indent(v.out) == if i == 0 || tokens[i - 1].l.kind.Shebang? then 0 else LineAfterNote(v.now, tokens[i]))
    && (i > 0 && Trivia(tokens[i - 1].l.kind) && !v.atLineStart ==> v.pendingSpace)
  }

  /** What the formatter has made of the first i tokens. */
  ghost predicate Drawn(v: View, starts: seq<nat>, tokens: seq<Token>, choices: seq<Choice>, i: nat)
    requires i <= |tokens| == |choices|
  {
    && |starts| == i && Within(starts, v.out) && v.now == Read(tokens[..i], choices[..i])
    && (i > 0 ==> EndOf(tokens, starts, i - 1) == |v.out|)
    && (i == 0 ==> v.atLineStart) && (i > 0 && !Trivia(tokens[i - 1].l.kind) ==> !v.atLineStart && !v.pendingSpace)
    && (i < |tokens| && !Trivia(tokens[i].l.kind) ==> LineReady(v, tokens, i))
    && (v.now.flags.inWhen ==> v.valueCol == ValueColumn(tokens[..i], v.out, starts))
    && AllStand(tokens, choices, v.out, starts, i)
  }

  lemma ReadMore(tokens: seq<Token>, choices: seq<Choice>, i: nat)
    requires i < |tokens| == |choices|
    ensures Read(tokens[..i + 1], choices[..i + 1]) == Step(Read(tokens[..i], choices[..i]), tokens[i], choices[i])
  {
    hide Step;
    assert tokens[..i + 1][..i] == tokens[..i] && choices[..i + 1][..i] == choices[..i];
  }

  /** The column of the values matters only among them. */
  lemma SameLine(r: Reading, t: Token, ch: Choice, a: nat, b: nat)
    requires r.flags.inWhen ==> a == b
    ensures LineStart(r, t, ch, a) == LineStart(r, t, ch, b)
  {
    WrapsAfter(r, t, ch);
    hide Bracketed, P, K, BinaryJoiner;
  }

  lemma StandsAfter(tokens: seq<Token>, choices: seq<Choice>, lead: string, starts: seq<nat>, i: nat)
    requires i < |tokens| == |choices| && !Trivia(tokens[i].l.kind) && |starts| == i && (i > 0 ==> EndOf(tokens, starts, i - 1) <= |lead|)
    requires LineRight(tokens, choices, lead + tokens[i].l.text, starts + [|lead|], i, lead)
    ensures Stands(tokens, choices, lead + tokens[i].l.text, starts + [|lead|], i)
  {
    hide OpensLine, Indent, LineFor, MustBreak, Read;
    var text := lead + tokens[i].l.text;
    assert text[..|lead|] == lead && text[|lead|..] == tokens[i].l.text;
  }

  lemma GapMade(r: Reading, t: Token, ch: Choice, valueCol: nat, was: string, s: string)
    requires LaidOut(r, t, ch, true, valueCol, was, s)
    ensures |was| <= |s| && GapRight(r, t, ch, s[|was|..], s)
  {
    hide OpensLine, Indent, LineStart, MustBreak, MustTouch, MayBreak, LastLine;
  }

  /** The code token just written stands where it should. */
  lemma StandsNew(f: FmtState, was: View, starts: seq<nat>, tokens: seq<Token>, choices: seq<Choice>, i: nat, next: Option<Token>)
    requires i < |tokens| == |choices| && Drawn(was, starts, tokens, choices, i) && !Trivia(tokens[i].l.kind)
    requires f.Wrote(was, tokens[i], next, choices[i])
    ensures Stands(tokens, choices, f.out, starts + [|f.lead|], i)
  {
    var r, starts' := was.now, starts + [|f.lead|];
    if i > 0 { ColumnStays(tokens[..i], was.out, starts, f.out, starts'); }
    SameLine(r, tokens[i], choices[i], was.valueCol, ValueColumn(tokens[..i], f.out, starts'));
    if i > 0 && !Trivia(tokens[i - 1].l.kind) { GapMade(r, tokens[i], choices[i], was.valueCol, was.out, f.lead); }
    hide OpensLine, Indent, LineAfterNote, LineStart, Read, Step, AllStand, ValueColumn, K, FmtState.Now, Stands, Within, GapRight, MustBreak,
         MustTouch, MayBreak, LastLine;
    StandsAfter(tokens, choices, f.lead, starts, i);
  }

  /** The column kept for the values of a `when` is the column of the first of them. */
  lemma ColumnNext(f: FmtState, was: View, starts: seq<nat>, tokens: seq<Token>, choices: seq<Choice>, i: nat, next: Option<Token>, start: nat)
    requires i < |tokens| == |choices| && Drawn(was, starts, tokens, choices, i) && f.Wrote(was, tokens[i], next, choices[i])
    requires start == if Trivia(tokens[i].l.kind) then |f.out| else |f.lead|
    ensures f.Now().flags.inWhen ==> f.whenValueCol == ValueColumn(tokens[..i + 1], f.out, starts + [start])
  {
    var t := tokens[i];
    assert tokens[..i + 1][..i] == tokens[..i];
    FlagsNext(was.now, t, choices[i]);
    hide LineReady, AllStand, LaidOut, Step, Indent, Read;
    if f.Now().flags.inWhen {
      if K(t, "when") {
        assert t.l.text == "when" && f.out[..|f.lead|] == f.lead;
        WhenColumn(f.lead);
      } else {
        ReadWhen(tokens[..i], choices[..i]);
        ColumnStays(tokens[..i], was.out, starts, f.out, starts + [start]);
      }
    }
  }

  lemma WhenColumn(s: string)
    ensures Indent(s + "when") == Indent(s) + 4
  {
    LastLineGrows(s, "when");
  }

  lemma FlagsNext(r: Reading, t: Token, ch: Choice)
    ensures Step(r, t, ch).flags.inWhen && !K(t, "when") ==> r.flags.inWhen
    ensures K(t, "when") ==> !Trivia(t.l.kind)
  {
    WrapsAfter(r, t, ch);
    hide Bracketed, P;
  }

  lemma AllStandNext(f: FmtState, was: View, starts: seq<nat>, tokens: seq<Token>, choices: seq<Choice>, i: nat, next: Option<Token>, start: nat)
    requires i < |tokens| == |choices| && Drawn(was, starts, tokens, choices, i) && f.Wrote(was, tokens[i], next, choices[i])
    requires start == if Trivia(tokens[i].l.kind) then |f.out| else |f.lead|
    ensures AllStand(tokens, choices, f.out, starts + [start], i + 1)
  {
    if !Trivia(tokens[i].l.kind) { StandsNew(f, was, starts, tokens, choices, i, next); }
    AllStandOn(tokens, choices, i, was.out, starts, f.out, starts + [start]);
    hide Stands, LineReady, Read, Step, LaidOut, Indent, ValueColumn, K;
  }

  lemma ReadyNext(f: FmtState, was: View, tokens: seq<Token>, choices: seq<Choice>, i: nat)
    requires i + 1 < |tokens| == |choices| && f.Wrote(was, tokens[i], Some(tokens[i + 1]), choices[i]) && f.indent == WrapCount(f.wrapStack)
    requires !f.trailAfterBlock
    ensures LineReady(f.Look(), tokens, i + 1)
  {
    f.NoteLeaves(tokens[i + 1]);
    hide OpensLine, Indent, LineAfterNote, Step, WrapCount, LaidOut, P, K;
  }

  lemma BoundsNext(f: FmtState, was: View, starts: seq<nat>, tokens: seq<Token>, choices: seq<Choice>, i: nat, next: Option<Token>, start: nat)
    requires i < |tokens| == |choices| && |starts| == i && Within(starts, was.out) && f.Wrote(was, tokens[i], next, choices[i])
    requires start == if Trivia(tokens[i].l.kind) then |f.out| else |f.lead|
    ensures Within(starts + [start], f.out) && EndOf(tokens, starts + [start], i) == |f.out|
    ensures !Trivia(tokens[i].l.kind) ==> !f.atLineStart && !f.pendingTriviaSpace
    ensures f.Now() == Step(was.now, tokens[i], choices[i])
  {
    hide Step, LaidOut, Indent, K;
  }

  /** One more token is drawn. */
  lemma DrawnNext(f: FmtState, was: View, starts: seq<nat>, tokens: seq<Token>, choices: seq<Choice>, i: nat, next: Option<Token>, start: nat)
    requires i < |tokens| == |choices| && Drawn(was, starts, tokens, choices, i) && f.Wrote(was, tokens[i], next, choices[i])
    requires f.indent == WrapCount(f.wrapStack) && next == (if i + 1 < |tokens| then Some(tokens[i + 1]) else None)
    requires f.trailAfterBlock ==> next.Some? && next.value.l.kind.LineComment?
    requires start == if Trivia(tokens[i].l.kind) then |f.out| else |f.lead|
    ensures Drawn(f.Look(), starts + [start], tokens, choices, i + 1)
  {
    ReadMore(tokens, choices, i);
    ColumnNext(f, was, starts, tokens, choices, i, next, start);
    AllStandNext(f, was, starts, tokens, choices, i, next, start);
    if next.Some? && !Trivia(next.value.l.kind) { ReadyNext(f, was, tokens, choices, i); }
    BoundsNext(f, was, starts, tokens, choices, i, next, start);
    hide Indent, Read, Step, AllStand, WrapCount, ValueColumn, LineReady, Within, EndOf, Trivia, FmtState.Wrote, FmtState.Now;
  }
}
