/**
 Lexing a text that was put together piece by piece: whitespace, comments and
 whole tokens. If no token is continued by what follows it, exactly those tokens
 come back.
 */
module Relex {
  import opened Options
  import opened Lexing
  import opened LexLocality

  datatype Piece = Gap(ws: string) | Note(note: string) | Tok(l: Lexeme)

  function Text(p: Piece): string {
    match p
    case Gap(ws) => ws
    case Note(n) => n
    case Tok(l) => l.text
  }

  function Flatten(ps: seq<Piece>): string {
    if ps == [] then "" else Text(ps[0]) + Flatten(ps[1..])
  }

  function Tokens(ps: seq<Piece>): seq<Lexeme> {
    if ps == [] then [] else (if ps[0].Tok? then [ps[0].l] else []) + Tokens(ps[1..])
  }

  predicate LineNote(text: string) { text != [] && text[0] == '#' && '\n' !in text }

  predicate BlockNote(text: string) { OpensComment(text) && CommentRest(text[2..], 1) == Some(|text| - 2) }

  predicate BlankText(ws: string) { forall i :: 0 <= i < |ws| ==> Blank(ws[i]) }

  predicate PieceOk(p: Piece) {
    match p
    case Gap(ws) => ws != [] && BlankText(ws)
    case Note(n) => LineNote(n) || BlockNote(n)
    case Tok(l) => Spelled(l)
  }

  /** The non-trivia tokens of a text. */
  function CodeLex(s: string): Option<seq<Lexeme>> {
    match Lex(s, false)
    case None => None
    case Some(ls) => Some(Code(ls))
  }

  function Prepend(ls: seq<Lexeme>, r: Option<seq<Lexeme>>): Option<seq<Lexeme>> {
    match r
    case None => None
    case Some(rest) => Some(ls + rest)
  }

  lemma {:induction false} RunOver(cls: Class, a: string, s: string)
    requires forall i :: 0 <= i < |a| ==> In(cls, a[i])
    ensures Run(cls, a + s) == |a| + Run(cls, s)
  {
    if a == [] {
      assert a + s == s;
    } else {
      RunOver(cls, a[1..], s);
      assert (a + s)[1..] == a[1..] + s;
    }
  }

  lemma {:induction false} RunStops(cls: Class, s: string)
    ensures Run(cls, s) < |s| ==> !In(cls, s[Run(cls, s)])
    ensures Run(cls, s[Run(cls, s)..]) == 0
  {
    if s != [] && In(cls, s[0]) {
      RunStops(cls, s[1..]);
      assert s[Run(cls, s)..] == s[1..][Run(cls, s[1..])..];
    } else {
      assert s[0..] == s;
    }
  }

  /** What Lex does where no whitespace leads. */
  lemma LexHere(s: string)
    requires s != [] && !Blank(s[0])
    ensures Lex(s, false) ==
              if s[0] == '#' then
                CommentsAdvance(s); Cons(Lexeme(LineComment, s[..Run(NotNewline, s)]), Lex(s[Run(NotNewline, s)..], false))
              else if OpensComment(s) then
                match CommentRest(s[2..], 1)
                case None => None
                case Some(k) => Cons(Lexeme(BlockComment, s[..k + 2]), Lex(s[k + 2..], false))
              else
                match Scan(s)
                case None => None
                case Some(k) => Cons(Lexeme(k.kind, s[..k.len]), Lex(s[k.len..], false))
  {
    hide Scan, CommentRest, Newlines;
    assert Run(Spaces, s) == 0 && s[..0] == [] && s[0..] == s;
    NoNewlines();
  }

  lemma NoNewlines()
    ensures Newlines([]) == 0
  {
  }

  lemma LexLead(s: string)
    ensures var n := Run(Spaces, s);
            Lex(s, false) == if Newlines(s[..n]) >= 2 then Cons(Lexeme(BlankLine, ""), Lex(s[n..], false)) else Lex(s[n..], false)
  {
    hide Scan, CommentRest;
    var n := Run(Spaces, s);
    RunStops(Spaces, s);
    if n < |s| {
      assert s[n..][0] == s[n];
      LexHere(s[n..]);
    } else {
      assert s[n..] == [];
    }
    hide Newlines;
  }

  lemma CodeCons(l: Lexeme, r: Option<seq<Lexeme>>)
    requires r.Some?
    ensures Code([l] + r.value) == if Trivia(l.kind) then Code(r.value) else [l] + Code(r.value)
  {
    assert [] + Code(r.value) == Code(r.value);
    assert ([l] + r.value)[1..] == r.value;
  }

  /** Leading whitespace makes no difference to the code tokens. */
  lemma SkipsBlank(s: string)
    ensures CodeLex(s) == CodeLex(s[Run(Spaces, s)..])
  {
    hide Lex, Newlines;
    var t := s[Run(Spaces, s)..];
    LexLead(s);
    if Lex(t, false).Some? { CodeCons(Lexeme(BlankLine, ""), Lex(t, false)); }
  }

  lemma LexGap(ws: string, s: string)
    requires BlankText(ws)
    ensures CodeLex(ws + s) == CodeLex(s)
  {
    hide Lex;
    RunOver(Spaces, ws, s);
    SkipsBlank(ws + s);
    SkipsBlank(s);
    assert (ws + s)[|ws| + Run(Spaces, s)..] == s[Run(Spaces, s)..];
  }

  lemma LexLineNote(n: string, s: string)
    requires LineNote(n) && (s == [] || s[0] == '\n')
    ensures CodeLex(n + s) == CodeLex(s)
  {
    hide Lex, Scan, CommentRest;
    var t := n + s;
    assert forall i :: 0 <= i < |n| ==> n[i] in n;
    RunOver(NotNewline, n, s);
    assert Run(NotNewline, s) == 0;
    LexHere(t);
    assert t[|n|..] == s;
    if Lex(s, false).Some? { CodeCons(Lexeme(LineComment, n), Lex(s, false)); }
  }

  lemma LexBlockNote(n: string, s: string)
    requires BlockNote(n)
    ensures CodeLex(n + s) == CodeLex(s)
  {
    hide Lex, Scan, CommentRest;
    var t := n + s;
    assert Agree(n[2..], t[2..], |n| - 2);
    CommentLocal(n[2..], 1, t[2..]);
    assert OpensComment(t) && t[0] != '#' && !Blank(t[0]);
    LexHere(t);
    assert t[|n|..] == s && t[..|n|] == n;
    if Lex(s, false).Some? { CodeCons(Lexeme(BlockComment, n), Lex(s, false)); }
  }

  lemma LexToken(l: Lexeme, s: string)
    requires Spelled(l) && Boundary(l, s)
    ensures CodeLex(l.text + s) == Prepend([l], CodeLex(s))
  {
    var t := l.text + s;
    assert t[|l.text|..] == s && t[..|l.text|] == l.text && l.text[..|l.text|] == l.text;
    ScanLocal(l.text, t);
    NotComment(l, s);
    LexHere(t);
    hide Lex, Scan;
    if Lex(s, false).Some? { CodeCons(l, Lex(s, false)); }
  }

  lemma NotComment(l: Lexeme, s: string)
    requires Spelled(l) && Boundary(l, s)
    ensures !OpensComment(l.text + s)
  {
    hide Number, Word, RawRest, CookedRest;
    if l.text[0] == '/' {
      if |l.text| == 1 { assert l.text == "/"; }
    }
  }

  // ----- texts made of pieces -----

  /** Every piece is whole, and nothing is continued by the text after it. */
  predicate Clear(ps: seq<Piece>, tail: string) {
    ps == [] ||
    var rest := Flatten(ps[1..]) + tail;
    && PieceOk(ps[0]) && Clear(ps[1..], tail)
    && (ps[0].Tok? ==> Boundary(ps[0].l, rest))
    && (ps[0].Note? && LineNote(ps[0].note) ==> rest == [] || rest[0] == '\n')
  }

  /** Lexing such a text gives its tokens, then whatever the tail gives. */
  lemma {:induction false} RelexClear(ps: seq<Piece>, tail: string)
    requires Clear(ps, tail)
    ensures CodeLex(Flatten(ps) + tail) == Prepend(Tokens(ps), CodeLex(tail))
  {
    hide CodeLex, Flatten, Tokens, Boundary, Spelled, BlockNote, LineNote, BlankText;
    if ps == [] {
      NoPieces();
      assert Flatten(ps) + tail == tail && (CodeLex(tail).Some? ==> Tokens(ps) + CodeLex(tail).value == CodeLex(tail).value);
    } else {
      var rest := Flatten(ps[1..]) + tail;
      FirstPiece(ps);
      assert Flatten(ps) + tail == Text(ps[0]) + rest;
      RelexClear(ps[1..], tail);
      match ps[0]
      case Gap(ws) =>
        LexGap(ws, rest);
        assert Tokens(ps) == Tokens(ps[1..]);
      case Note(n) =>
        if LineNote(n) { LexLineNote(n, rest); } else { LexBlockNote(n, rest); }
        assert Tokens(ps) == Tokens(ps[1..]);
      case Tok(l) =>
        LexToken(l, rest);
        if CodeLex(tail).Some? {
          assert [l] + (Tokens(ps[1..]) + CodeLex(tail).value) == Tokens(ps) + CodeLex(tail).value;
        }
    }
  }

  /** Conditions on neighbours only. */
  predicate Adjacent(p: Piece, q: Piece) {
    match p
    case Gap(_) => true
    case Note(n) => LineNote(n) ==> q.Gap? && q.ws != [] && q.ws[0] == '\n'
    case Tok(l) =>
      match q
      case Gap(_) => true
      case Note(m) => l.text == "/" ==> LineNote(m)
      case Tok(k) => Boundary(l, k.text)
  }

  predicate NoDecimal(p: Piece, q: Piece, r: Piece) {
    p.Tok? && q.Tok? && r.Tok? && PlainInt(p.l) && q.l.text == "." ==> r.l.text == [] || !Digit(r.l.text[0])
  }

  predicate Spaced(ps: seq<Piece>) {
    && (forall i :: 0 <= i < |ps| ==> PieceOk(ps[i]))
    && (forall i :: 0 <= i < |ps| - 1 ==> Adjacent(ps[i], ps[i + 1]))
    && (forall i :: 0 <= i < |ps| - 2 ==> NoDecimal(ps[i], ps[i + 1], ps[i + 2]))
  }

  lemma SpacedTail(ps: seq<Piece>)
    requires ps != [] && Spaced(ps)
    ensures Spaced(ps[1..])
  {
    var qs := ps[1..];
    forall i | 0 <= i < |qs| - 1 ensures Adjacent(qs[i], qs[i + 1]) { assert Adjacent(ps[i + 1], ps[i + 1 + 1]); }
    forall i | 0 <= i < |qs| - 2 ensures NoDecimal(qs[i], qs[i + 1], qs[i + 2]) { assert NoDecimal(ps[i + 1], ps[i + 1 + 1], ps[i + 1 + 2]); }
  }

  lemma NonEmptyPiece(p: Piece)
    requires PieceOk(p)
    ensures Text(p) != []
  {
  }

  /** A gap or a comment continues no token, except a comment after a lone slash. */
  lemma GapBoundary(l: Lexeme, c: char, more: string)
    requires Blank(c) || c == '#' || (c == '/' && more != [] && more[0] == '*')
    requires l.kind.Punct? && l.text == "/" ==> c != '/'
    ensures Boundary(l, [c] + more)
  {
  }

  /** One more character of context matters only after an integer and a dot. */
  lemma BoundaryMore(l: Lexeme, text: string, more: string)
    requires text != [] && Boundary(l, text)
    requires PlainInt(l) && text == "." ==> more == [] || !Digit(more[0])
    ensures Boundary(l, text + more)
  {
    assert (text + more)[0] == text[0];
    if |text| == 1 && more != [] { assert (text + more)[1] == more[0]; }
  }

  lemma TokenBoundary(ps: seq<Piece>)
    requires Spaced(ps) && |ps| >= 2 && ps[0].Tok?
    ensures Boundary(ps[0].l, Flatten(ps[1..]))
  {
    var l, q, more := ps[0].l, ps[1], Flatten(ps[2..]);
    assert ps[1..][1..] == ps[2..];
    assert Flatten(ps[1..]) == Text(q) + more;
    assert Adjacent(ps[0], ps[0 + 1]) && PieceOk(q);
    match q
    case Gap(ws) =>
      assert ws + more == [ws[0]] + (ws[1..] + more);
      GapBoundary(l, ws[0], ws[1..] + more);
    case Note(n) =>
      assert n + more == [n[0]] + (n[1..] + more);
      GapBoundary(l, n[0], n[1..] + more);
    case Tok(k) =>
      if |ps| > 2 {
        assert NoDecimal(ps[0], ps[0 + 1], ps[0 + 2]);
        FirstOf(ps[2..]);
      }
      BoundaryMore(l, k.text, more);
  }

  /** If a text begins with a digit, its first piece is a token that does. */
  lemma FirstOf(ps: seq<Piece>)
    requires ps != [] && PieceOk(ps[0])
    ensures Flatten(ps) != [] && (Digit(Flatten(ps)[0]) ==> ps[0].Tok? && ps[0].l.text != [] && Digit(ps[0].l.text[0]))
  {
    NonEmptyPiece(ps[0]);
    assert Flatten(ps)[0] == Text(ps[0])[0];
  }

  lemma {:induction false} SpacedIsClear(ps: seq<Piece>)
    requires Spaced(ps)
    ensures Clear(ps, "")
  {
    hide Boundary, PieceOk;
    if ps != [] {
      SpacedTail(ps);
      SpacedIsClear(ps[1..]);
      var rest := Flatten(ps[1..]);
      assert rest + "" == rest;
      if |ps| == 1 {
        if ps[0].Tok? { EmptyBoundary(ps[0].l); }
      } else {
        assert Adjacent(ps[0], ps[0 + 1]);
        if ps[0].Tok? { TokenBoundary(ps); }
      }
    }
  }

  lemma {:induction false} SplitPieces(ps: seq<Piece>, k: nat)
    requires k <= |ps|
    ensures Flatten(ps[..k]) + Flatten(ps[k..]) == Flatten(ps)
    ensures Tokens(ps[..k]) + Tokens(ps[k..]) == Tokens(ps)
  {
    hide Flatten, Tokens;
    if k == 0 {
      assert ps[..0] == [] && ps[0..] == ps;
      NoPieces();
    } else {
      SplitPieces(ps[1..], k - 1);
      assert ps[1..][..k - 1] == ps[..k][1..] && ps[1..][k - 1..] == ps[k..];
      FirstPiece(ps);
      FirstPiece(ps[..k]);
    }
  }

  lemma NoPieces()
    ensures Flatten([]) == "" && Tokens([]) == [] && Spaced([])
  {
  }

  lemma FirstPiece(ps: seq<Piece>)
    requires ps != []
    ensures Flatten(ps) == Text(ps[0]) + Flatten(ps[1..])
    ensures Tokens(ps) == (if ps[0].Tok? then [ps[0].l] else []) + Tokens(ps[1..])
  {
  }

  /** The same before a token that is itself continued by `more`. */
  lemma {:induction false} SpacedIsClearTo(ps: seq<Piece>, k: nat, more: string)
    requires Spaced(ps) && k < |ps| && ps[k].Tok?
    requires k + 1 == |ps| && ps[k].l.text == "." ==> more == [] || !Digit(more[0])
    ensures Clear(ps[..k], Flatten(ps[k..]) + more)
    decreases k
  {
    hide Boundary, PieceOk, Flatten;
    if k > 0 {
      SpacedTail(ps);
      SpacedIsClearTo(ps[1..], k - 1, more);
      assert ps[1..][..k - 1] == ps[..k][1..] && ps[1..][k - 1..] == ps[k..];
      SplitPieces(ps[1..], k - 1);
      var rest := Flatten(ps[..k][1..]) + (Flatten(ps[k..]) + more);
      assert rest == Flatten(ps[1..]) + more;
      assert Adjacent(ps[0], ps[0 + 1]) && PieceOk(ps[1]);
      if ps[0].Tok? {
        TokenBoundary(ps);
        AtLeastAsLong(ps[1..]);
        BoundaryMore(ps[0].l, Flatten(ps[1..]), more);
      } else {
        FirstChar(ps[1..]);
      }
    }
  }

  lemma FirstChar(ps: seq<Piece>)
    requires ps != [] && PieceOk(ps[0])
    ensures Flatten(ps) != [] && Text(ps[0]) != [] && Flatten(ps)[0] == Text(ps[0])[0]
  {
  }

  /** A text of one character is one piece. */
  lemma AtLeastAsLong(ps: seq<Piece>)
    requires ps != [] && forall i :: 0 <= i < |ps| ==> PieceOk(ps[i])
    ensures Flatten(ps) != [] && (|Flatten(ps)| == 1 ==> |ps| == 1 && Flatten(ps) == Text(ps[0]))
  {
    NonEmptyPiece(ps[0]);
    if |ps| > 1 {
      assert ps[1..][0] == ps[1];
      FirstChar(ps[1..]);
    }
  }

  lemma EmptyBoundary(l: Lexeme)
    ensures Boundary(l, "")
  {
  }

  /** Main result: pieces that are whole and kept apart lex back to exactly their tokens. */
  lemma RelexPieces(ps: seq<Piece>)
    requires Spaced(ps)
    ensures CodeLex(Flatten(ps)) == Some(Tokens(ps))
  {
    SpacedIsClear(ps);
    RelexClear(ps, "");
    assert Flatten(ps) + "" == Flatten(ps);
    assert CodeLex("") == Some([]);
    assert Tokens(ps) + [] == Tokens(ps);
  }
}
