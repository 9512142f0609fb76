/**
 How a token list is laid out, read off the tokens and the width decisions alone: which brackets are
 open and which of them are wrapped, where a line must break, and how far a line is indented.
 */
module Layout {
  import opened Options
  import opened Lexing
  import opened Lines

  datatype Token = Token(l: Lexeme, line: nat)

  /** The width decisions taken while emitting one token, and a pragma comment's canonical spelling. */
  datatype Choice = Choice(wraps: bool, headerWraps: bool, breakAfterInit: bool, breakAfterJoiner: bool, breakWhenList: bool,
                           pragma: Option<string>)

  datatype BraceKind = Block | MapLit | StructDecl | MatchBody | StructLit | Arm

  datatype Frame = Frame(wraps: bool, forHeader: bool, forHeaderWraps: bool)

  const NO_TOKEN := Token(Lexeme(BlankLine, ""), 0)

  predicate P(t: Token, text: string) { t.l.kind.Punct? && t.l.text == text }
  predicate K(t: Token, text: string) { t.l.kind.Keyword? && t.l.text == text }

  predicate BlockOpener(t: Token) { P(t, ")") || K(t, "else") || K(t, "try") || K(t, "spawn") || K(t, "repeat") }

  predicate BinaryJoiner(t: Token) {
    || P(t, "+") || P(t, "-") || P(t, "*") || P(t, "/") || P(t, "//") || P(t, "%")
    || P(t, "<") || P(t, ">") || P(t, "<=") || P(t, ">=") || P(t, "==") || P(t, "!=")
    || K(t, "and") || K(t, "or") || P(t, "&") || P(t, "|") || P(t, "^") || P(t, "<<") || P(t, ">>")
  }

  predicate Operand(t: Token) {
    || t.l.kind.IntLit? || t.l.kind.FloatLit? || t.l.kind.StrLit? || t.l.kind.InterpLit? || t.l.kind.VarRef? || t.l.kind.Ident?
    || K(t, "true") || K(t, "false") || K(t, "null") || P(t, ")") || P(t, "]") || P(t, "}")
  }

  predicate HugsParen(t: Token) {
    || t.l.kind.Ident? || t.l.kind.VarRef? || P(t, ")") || P(t, "]")
    || K(t, "int") || K(t, "float") || K(t, "string") || K(t, "bool") || K(t, "len")
  }

  predicate HugsBracket(t: Token) { t.l.kind.Ident? || t.l.kind.VarRef? || P(t, ")") || P(t, "]") || P(t, "}") }

  /** The tables above, as sets of spellings. */
  lemma Tables(t: Token)
    ensures BlockOpener(t) <==> (t.l.kind.Punct? && t.l.text == ")") || (t.l.kind.Keyword? && t.l.text in {"else", "try", "spawn", "repeat"})
    ensures BinaryJoiner(t) <==>
              || (t.l.kind.Keyword? && t.l.text in {"and", "or"})
              || (t.l.kind.Punct? && t.l.text in {"+", "-", "*", "/", "//", "%", "<", ">", "<=", ">=", "==", "!=", "&", "|", "^", "<<", ">>"})
    ensures Operand(t) <==>
              || t.l.kind in {IntLit, FloatLit, StrLit, InterpLit, VarRef, Ident} || (t.l.kind.Keyword? && t.l.text in {"true", "false", "null"})
              || (t.l.kind.Punct? && t.l.text in {")", "]", "}"})
    ensures HugsParen(t) <==>
              || t.l.kind in {VarRef, Ident} || (t.l.kind.Punct? && t.l.text in {")", "]"})
              || (t.l.kind.Keyword? && t.l.text in {"int", "float", "string", "bool", "len"})
    ensures HugsBracket(t) <==> t.l.kind in {VarRef, Ident} || (t.l.kind.Punct? && t.l.text in {")", "]", "}"})
  {
  }

  predicate TightOnRight(t: Token) { P(t, "(") || P(t, "[") || P(t, ".") }

  predicate TightPunct(t: Token) {
    P(t, ")") || P(t, ",") || P(t, ";") || P(t, ".") || P(t, "..") || P(t, "]") || P(t, ":")
  }

  predicate Opens(t: Token) { P(t, "{") || P(t, "[") || P(t, "(") }

  predicate Closes(t: Token) { P(t, "}") || P(t, "]") || P(t, ")") }

  function WrapCount(ws: seq<Frame>): nat {
    if ws == [] then 0 else (if ws[|ws| - 1].wraps then 1 else 0) + WrapCount(ws[..|ws| - 1])
  }

  /** What the next brace will be, and whether the values of a `when` are being read. */
  datatype Flags = Flags(wantsMatch: bool, wantsArm: bool, wantsStruct: bool, inWhen: bool)

  /** What the tokens read so far say: the last two code tokens, the open brackets, and the flags. */
  datatype Reading = Reading(
    last: Option<Token>, before: Token, unary: bool,
    open: seq<Frame>, kinds: seq<BraceKind>, brace: Option<BraceKind>,  // `brace`: the kind of the last one opened or closed
    parens: nat, flags: Flags)

  const UNREAD := Reading(None, NO_TOKEN, false, [], [], None, 0, Flags(false, false, false, false))

  function Top<T>(s: seq<T>): T
    requires s != []
  {
    s[|s| - 1]
  }

  function Popped<T>(s: seq<T>): seq<T> { if s == [] then [] else s[..|s| - 1] }

  predicate After(r: Reading, text: string) { r.last.Some? && P(r.last.value, text) }

  predicate InHeader(r: Reading) { r.open != [] && Top(r.open).forHeader }

  /** The innermost open bracket is wrapped. */
  predicate Wrapped(r: Reading) { r.open != [] && Top(r.open).wraps }

  function KindOf(r: Reading): BraceKind {
    if r.flags.wantsMatch && r.parens == 0 then MatchBody
    else if r.flags.wantsArm && r.parens == 0 then Arm
    else if r.flags.wantsStruct then StructDecl
    else if r.last.Some? && K(r.last.value, "else") && r.kinds != [] && Top(r.kinds) == MatchBody then Arm
    else if r.last.Some? && BlockOpener(r.last.value) then Block
    else if r.last.Some? && r.last.value.l.kind.Ident? then StructLit
    else MapLit
  }

  /** Blocks, match bodies and struct declarations are always wrapped; the rest as the width decides. */
  function Opened(r: Reading, t: Token, ch: Choice): Frame {
    if P(t, "{") then Frame(KindOf(r) == Block || KindOf(r) == MatchBody || KindOf(r) == StructDecl || ch.wraps, false, false)
    else if P(t, "[") then Frame(!(r.last.Some? && HugsBracket(r.last.value)) && ch.wraps, false, false)
    else
      var header := r.last.Some? && K(r.last.value, "for");
      Frame(r.last.Some? && (HugsParen(r.last.value) || P(r.before, ".")) && ch.wraps, header, header && ch.headerWraps)
  }

  /** A brace uses up what was said about it. */
  function Spent(f: Flags, parens: nat): Flags {
    if f.wantsMatch && parens == 0 then f.(wantsMatch := false)
    else if f.wantsArm && parens == 0 then f.(wantsArm := false, inWhen := false)
    else f.(wantsStruct := false)
  }

  /** The bracket of t, if it is one, is opened or closed. */
  function Bracketed(r: Reading, t: Token, ch: Choice): Reading {
    if P(t, "{") then r.(open := r.open + [Opened(r, t, ch)], kinds := r.kinds + [KindOf(r)], brace := Some(KindOf(r)), flags := Spent(r.flags, r.parens))
    else if P(t, "[") || P(t, "(") then r.(open := r.open + [Opened(r, t, ch)], parens := r.parens + 1)
    else if P(t, "}") then if r.kinds == [] then r else r.(open := Popped(r.open), kinds := Popped(r.kinds), brace := Some(Top(r.kinds)))
    else if P(t, "]") || P(t, ")") then r.(open := Popped(r.open), parens := if r.parens == 0 then 0 else r.parens - 1)
    else r
  }

  /** What t says about the brace to come. */
  function Noted(f: Flags, t: Token): Flags {
    if K(t, "struct") || K(t, "enum") then f.(wantsStruct := true)
    else if K(t, "match") then f.(wantsMatch := true)
    else if K(t, "when") then f.(wantsArm := true, inWhen := true)
    else if P(t, ";") then Flags(false, false, false, false)
    else f
  }

  function Step(r: Reading, t: Token, ch: Choice): Reading {
    if Trivia(t.l.kind) then r
    else
      var now := Bracketed(r, t, ch);
      Reading(Some(t), if r.last.Some? then r.last.value else NO_TOKEN, P(t, "-") && !(r.last.Some? && Operand(r.last.value)),
              now.open, now.kinds, now.brace, now.parens, Noted(now.flags, t))
  }

  function Read(ts: seq<Token>, chs: seq<Choice>): Reading
    requires |chs| == |ts|
  {
    if ts == [] then UNREAD else Step(Read(ts[..|ts| - 1], chs[..|ts| - 1]), ts[|ts| - 1], chs[|ts| - 1])
  }

  /** The wrapped containers around t's line: a bracket that closes one stands outside it. */
  function Level(r: Reading, t: Token): nat {
    if P(t, "}") then WrapCount(if r.kinds == [] then r.open else Popped(r.open))
    else if P(t, "]") || P(t, ")") then WrapCount(Popped(r.open))
    else WrapCount(r.open)
  }

  /** The last token was a binary operator whose right side is still to come. */
  predicate Continuing(r: Reading) { r.last.Some? && BinaryJoiner(r.last.value) && !r.unary && !InHeader(r) }

  /** A break right before t continues the line: a value put below `init`, an operand, a clause of a `for` header. */
  predicate HangsAt(now: Reading, t: Token, ch: Choice) {
    && now.last.Some?
    && (|| (K(now.last.value, "init") && ch.breakAfterInit)
        || (Continuing(now) && ch.breakAfterJoiner)
        || (After(now, ";") && !P(t, ")") && InHeader(now) && Top(now.open).forHeaderWraps))
  }

  /** A break after a comma between the values of a `when`. */
  predicate ValuesAt(now: Reading, t: Token, ch: Choice) { After(now, ",") && now.flags.inWhen && ch.breakWhenList }

  /** Where a line that a separator opened for t starts; a value of a `when` stands below the first one. */
  function LineStart(r: Reading, t: Token, ch: Choice, valueCol: nat): nat {
    var now := Bracketed(r, t, ch);
    if HangsAt(now, t, ch) then 4 * (Level(r, t) + 1)
    else if ValuesAt(now, t, ch) then valueCol
    else 4 * Level(r, t)
  }

  /**
   Where a comment or blank line leaves the start of the line for t. It knows t only by its kind: a `)`
   is not set back with its list, and a `}` without a brace is.
   */
  function LineAfterNote(r: Reading, t: Token): int {
    4 * (Level(r, t) + (if Continuing(r) then 1 else 0)
         + (if P(t, ")") && Wrapped(r) then 1 else 0) - (if P(t, "}") && r.kinds == [] && Wrapped(r) then 1 else 0))
  }

  /** Between two neighbouring code tokens the line must break here. */
  predicate MustBreak(r: Reading, t: Token, ch: Choice) {
    var now := Bracketed(r, t, ch);
    || (After(r, ";") && !Closes(t) && !InHeader(now))
    || (After(r, ";") && P(t, "}") && r.kinds != [] && r.open != [] && !InHeader(now) && (Top(r.kinds) != Arm || Wrapped(r)))
    || (After(r, "{") && Wrapped(r) && !Closes(t))
    || (After(r, "{") && Wrapped(r) && P(t, "}") && r.kinds != [] && Top(r.kinds) != Arm)
    || ((After(r, "[") || After(r, "(")) && Wrapped(r) && !Closes(t))
    || (After(r, ",") && Wrapped(r) && !Closes(t) && !now.flags.inWhen)
    || (After(r, "}") && now.brace.Some? && Blocklike(now.brace.value) && !P(t, ";") && !P(t, ",") && !P(t, ")")
        && (Tails(t) ==> K(t, "else") && now.kinds != [] && Top(now.kinds) == MatchBody))
  }

  /** The only places where it may. */
  predicate MayBreak(r: Reading, t: Token, ch: Choice) {
    var now := Bracketed(r, t, ch);
    || HangsAt(now, t, ch) || ValuesAt(now, t, ch) || After(r, ";") || After(r, "}") || After(r, "{") || P(t, "}") || P(t, "]")
    || ((After(r, ",") || After(r, "[") || After(r, "(")) && (Wrapped(r) || P(t, ")")))
  }

  /** The last token is no mark that decides by itself what follows it. */
  predicate Plain(r: Reading, now: Reading) {
    && r.last.Some? && !K(r.last.value, "init") && !Continuing(now)
    && !After(r, ";") && !After(r, ",") && !After(r, "{") && !After(r, "}") && !After(r, "[") && !After(r, "(")
  }

  /** Between two neighbouring code tokens nothing may stand here. */
  predicate MustTouch(r: Reading, t: Token, ch: Choice) {
    var now := Bracketed(r, t, ch);
    || (Plain(r, now) && (P(t, ",") || P(t, ";") || P(t, ":") || P(t, ".") || P(t, "..") || P(t, ")")))
    || (Plain(r, now) && P(t, "(") && (HugsParen(r.last.value) || P(r.before, "."))) || (Plain(r, now) && P(t, "[") && HugsBracket(r.last.value))
    || (P(t, "{") && KindOf(r) == StructLit) || ((After(r, ".") || After(r, "..")) && !Closes(t)) || (r.last.Some? && r.unary && !Closes(t))
    || ((After(r, "[") || After(r, "(")) && !Wrapped(r) && !Closes(t)) || (After(r, "(") && P(t, ")"))
    || (After(r, "{") && (r.brace == Some(MapLit) || r.brace == Some(StructLit)) && !Wrapped(r) && !Opens(t) && !Closes(t))
  }

  /** What ends in its closing brace. */
  predicate Blocklike(k: BraceKind) { k == Block || k == StructDecl || k == MatchBody || k == Arm }

  /** Words that go on after the closing brace of a block. */
  predicate Tails(t: Token) { K(t, "else") || K(t, "elseif") || K(t, "catch") || K(t, "until") }

  /** A clause of a `for` header that begins with a bracket is put on a line of its own, whatever the width. */
  lemma BracketLeavesHeader(r: Reading, t: Token, ch: Choice)
    requires After(r, ";") && InHeader(r) && Opens(t)
    ensures MustBreak(r, t, ch)
  {
    OneMark(t);
    MarksOnly(r.last.value);
    hide K, HugsParen, HugsBracket, BlockOpener;
  }

  /**
   From the text `was`, whose last line was not open, to the text s before t. Between neighbouring code
   tokens stands nothing, one blank, or one line break and blanks: nothing where they must touch, a
   break where they must break and only where they may, and then so many blanks as the line asks for.
   Behind a comment on the same line no line is opened.
   */
  predicate LaidOut(r: Reading, t: Token, ch: Choice, adjacent: bool, valueCol: nat, was: string, s: string) {
    && (if OpensLine(s) then adjacent && MayBreak(r, t, ch) && Indent(s) == LineStart(r, t, ch, valueCol) && s == was + "\n" + LastLine(s)
        else s == was || s == was + " ")
    && (adjacent && MustBreak(r, t, ch) ==> OpensLine(s)) && (adjacent && MustTouch(r, t, ch) ==> s == was)
  }

  // ----- a token is one mark at most -----

  lemma OneMark(t: Token)
    ensures P(t, "{") ==> !P(t, "}") && !P(t, "[") && !P(t, "]") && !P(t, "(") && !P(t, ")") && !P(t, ";") && !P(t, ",")
    ensures P(t, "}") ==> !P(t, "{") && !P(t, "[") && !P(t, "]") && !P(t, "(") && !P(t, ")") && !P(t, ";") && !P(t, ",")
    ensures P(t, "[") ==> !P(t, "{") && !P(t, "}") && !P(t, "]") && !P(t, "(") && !P(t, ")") && !P(t, ";") && !P(t, ",")
    ensures P(t, "]") ==> !P(t, "{") && !P(t, "}") && !P(t, "[") && !P(t, "(") && !P(t, ")") && !P(t, ";") && !P(t, ",")
    ensures P(t, "(") ==> !P(t, "{") && !P(t, "}") && !P(t, "[") && !P(t, "]") && !P(t, ")") && !P(t, ";") && !P(t, ",")
    ensures P(t, ")") ==> !P(t, "{") && !P(t, "}") && !P(t, "[") && !P(t, "]") && !P(t, "(") && !P(t, ";") && !P(t, ",")
    ensures P(t, ";") ==> !P(t, "{") && !P(t, "}") && !P(t, "[") && !P(t, "]") && !P(t, "(") && !P(t, ")") && !P(t, ",")
    ensures P(t, ",") ==> !P(t, "{") && !P(t, "}") && !P(t, "[") && !P(t, "]") && !P(t, "(") && !P(t, ")") && !P(t, ";")
  {
  }

  /** Nor are the dots and the minus any of them. */
  lemma OtherMarks(t: Token)
    ensures P(t, ".") || P(t, "..") || P(t, ":") || P(t, "-") ==> !Mark(t) && !K(t, "init")
    ensures P(t, ".") || P(t, "..") || P(t, ":") ==> !BinaryJoiner(t) && !P(t, "-")
    ensures t.l.kind.Ident? ==> !Mark(t) && !K(t, "init") && !BinaryJoiner(t)
  {
  }

  predicate Mark(t: Token) { P(t, "{") || P(t, "}") || P(t, "[") || P(t, "]") || P(t, "(") || P(t, ")") || P(t, ";") || P(t, ",") }

  lemma MarksOnly(t: Token)
    requires Mark(t)
    ensures !t.l.kind.Ident? && !K(t, "init") && !K(t, "for") && !K(t, "else") && !BinaryJoiner(t)
    ensures !K(t, "struct") && !K(t, "enum") && !K(t, "match") && !K(t, "when")
  {
  }

  lemma OneWord(t: Token)
    ensures K(t, "match") ==> !K(t, "struct") && !K(t, "enum") && !K(t, "when")
    ensures K(t, "when") ==> !K(t, "struct") && !K(t, "enum")
    ensures P(t, ";") ==> !K(t, "struct") && !K(t, "enum") && !K(t, "match") && !K(t, "when")
  {
  }
}
