/**
 Neighbours that the formatter writes together and the lexer reads as another token.
 Once two tokens have merged, nothing written afterwards brings them back.
 */
module Merges {
  import opened Options
  import opened Lexing
  import opened LexLocality
  import opened Relex

  /** Neighbours the tight rules would merge. */
  predicate MergesPair(a: Lexeme, b: Lexeme) {
    a.kind.Punct? && b.kind.Punct? && a.text == "." && (b.text == "." || b.text == "..")
  }

  predicate MergesTriple(a: Lexeme, b: Lexeme, c: Lexeme) {
    PlainInt(a) && b.kind.Punct? && b.text == "." && (c.kind.IntLit? || c.kind.FloatLit?)
  }

  // ----- one merge -----

  /** Two dots, or a dot and a double dot, written together are read as one longer token. */
  lemma DotsMerge(b: Lexeme, rest: string)
    requires MergesPair(Lexeme(Punct, "."), b)
    ensures var r := CodeLex("." + b.text + rest); r.Some? ==> r.value != [] && r.value[0].text != "."
  {
    var s := "." + b.text + rest;
    LexHere(s);
    assert Munch(s) == 2 && Scan(s) == Some(Scanned(Punct, 2));
    hide Lex;
    if Lex(s[2..], false).Some? {
      CodeCons(Lexeme(Punct, s[..2]), Lex(s[2..], false));
      assert |CodeLex(s).value[0].text| == 2;
    }
  }

  /** An integer, a dot and a number written together are read as a longer number. */
  lemma NumbersMerge(a: Lexeme, c: Lexeme, rest: string)
    requires Spelled(a) && Spelled(c) && MergesTriple(a, Lexeme(Punct, "."), c)
    ensures var r := CodeLex(a.text + "." + c.text + rest); r.Some? ==> r.value != [] && r.value[0].text != a.text
  {
    var s := a.text + "." + c.text + rest;
    NumberStarts(a);
    NumberStarts(c);
    LongerScan(a, c, rest);
    assert s[0] == a.text[0];
    LexHere(s);
    hide Lex, Scan, Number;
    if Scan(s).Some? && Lex(s[Scan(s).value.len..], false).Some? {
      CodeCons(Lexeme(Scan(s).value.kind, s[..Scan(s).value.len]), Lex(s[Scan(s).value.len..], false));
      assert |CodeLex(s).value[0].text| == Scan(s).value.len;
    }
  }

  lemma NumberStarts(l: Lexeme)
    requires Spelled(l) && (l.kind.IntLit? || l.kind.FloatLit?)
    ensures Digit(l.text[0]) && Number(l.text) == Some(Scanned(l.kind, |l.text|))
  {
    hide Number, Word, RawRest, CookedRest, Run;
  }

  lemma LongerScan(a: Lexeme, c: Lexeme, rest: string)
    requires a.text != [] && Digit(a.text[0]) && Number(a.text) == Some(Scanned(IntLit, |a.text|)) && PlainInt(a)
    requires c.text != [] && Digit(c.text[0])
    ensures var s := a.text + "." + c.text + rest; Scan(s).Some? ==> Scan(s).value.len > |a.text|
  {
    var s := a.text + "." + c.text + rest;
    var n := |a.text|;
    PlainIntDigits(a);
    assert s[n] == '.' && s[n + 1] == c.text[0];
    SeparatedLocal(Dec, a.text, false, s);
    assert BaseOf(s).None?;
    assert s[n..][0] == '.' && s[n..][1] == c.text[0];
    hide Separated, CookedRest, RawRest, Word;
  }

  lemma PlainIntDigits(a: Lexeme)
    requires a.text != [] && Number(a.text) == Some(Scanned(IntLit, |a.text|)) && PlainInt(a)
    ensures Separated(Dec, a.text, false) == Some(|a.text|)
  {
    hide Separated;
  }

  // ----- the text after a merge -----

  /** Nothing written after this text can make its tokens begin with `ts`. */
  ghost predicate Spoiled(text: string, ts: seq<Lexeme>) {
    forall more: string, rest: seq<Lexeme> :: CodeLex(text + more) != Some(ts + rest)
  }

  lemma SpoiledMore(text: string, ts: seq<Lexeme>, text': string, more: seq<Lexeme>)
    requires Spoiled(text, ts) && text <= text'
    ensures Spoiled(text', ts + more)
  {
    hide CodeLex;
    forall m: string, rest: seq<Lexeme> ensures CodeLex(text' + m) != Some(ts + more + rest) {
      assert text' + m == text + (text'[|text|..] + m);
      assert ts + more + rest == ts + (more + rest);
    }
  }

  /** A token written after these pieces merges with the last, or the last two. */
  predicate EndsMerging(ps: seq<Piece>, l: Lexeme) {
    && ps != [] && ps[|ps| - 1].Tok?
    && (|| MergesPair(ps[|ps| - 1].l, l)
        || (|ps| >= 2 && ps[|ps| - 2].Tok? && MergesTriple(ps[|ps| - 2].l, ps[|ps| - 1].l, l)))
  }

  /** A first token that differs spoils any expectation. */
  lemma FirstDiffers(u: seq<Lexeme>, r: Option<seq<Lexeme>>, a: Lexeme, v: seq<Lexeme>)
    requires r.Some? ==> r.value != [] && r.value[0] != a
    ensures Prepend(u, r) != Some(u + [a] + v)
  {
    if r.Some? { assert (u + r.value)[|u|] != (u + [a] + v)[|u|]; }
  }

  /** Main result: merged tokens are lost, whatever stands before them and whatever follows. */
  lemma MergeSpoils(ps: seq<Piece>, l: Lexeme)
    requires Spaced(ps) && Spelled(l) && EndsMerging(ps, l)
    ensures Spoiled(Flatten(ps) + l.text, Tokens(ps) + [l])
  {
    hide CodeLex, Spaced, Flatten, Tokens, Clear, Spelled;
    forall more: string, rest: seq<Lexeme>
      ensures CodeLex(Flatten(ps) + l.text + more) != Some(Tokens(ps) + [l] + rest)
    {
      if MergesPair(ps[|ps| - 1].l, l) { PairSpoils(ps, l, more, rest); } else { TripleSpoils(ps, l, more, rest); }
    }
  }

  lemma PairSpoils(ps: seq<Piece>, l: Lexeme, more: string, rest: seq<Lexeme>)
    requires Spaced(ps) && ps != [] && ps[|ps| - 1].Tok? && MergesPair(ps[|ps| - 1].l, l)
    ensures CodeLex(Flatten(ps) + l.text + more) != Some(Tokens(ps) + [l] + rest)
  {
    hide CodeLex, Spaced, Flatten, Tokens, Clear;
    var k := |ps| - 1;
    var a := ps[k].l;
    ReadsUpTo(ps, k, l.text + more);
    OnePiece(ps[k]);
    assert ps[k..] == [ps[k]] && a.text + (l.text + more) == "." + l.text + more;
    assert Flatten(ps) + (l.text + more) == Flatten(ps) + l.text + more;
    DotsMerge(l, more);
    FirstDiffers(Tokens(ps[..k]), CodeLex("." + l.text + more), a, [l] + rest);
    assert Tokens(ps[..k]) + [a] + ([l] + rest) == Tokens(ps) + [l] + rest;
  }

  lemma TripleSpoils(ps: seq<Piece>, l: Lexeme, more: string, rest: seq<Lexeme>)
    requires Spaced(ps) && Spelled(l) && |ps| >= 2 && ps[|ps| - 1].Tok? && ps[|ps| - 2].Tok?
    requires MergesTriple(ps[|ps| - 2].l, ps[|ps| - 1].l, l)
    ensures CodeLex(Flatten(ps) + l.text + more) != Some(Tokens(ps) + [l] + rest)
  {
    hide CodeLex, Flatten, Tokens, Clear, Spelled, Spaced;
    var k := |ps| - 2;
    var a, b := ps[k].l, ps[k + 1].l;
    SpacedSpelled(ps, k);
    ReadsUpTo(ps, k, l.text + more);
    TwoPieces(ps[k], ps[k + 1]);
    assert ps[k..] == [ps[k], ps[k + 1]] && a.text + "." + (l.text + more) == a.text + "." + l.text + more;
    assert Flatten(ps) + (l.text + more) == Flatten(ps) + l.text + more;
    NumbersMerge(a, l, more);
    FirstDiffers(Tokens(ps[..k]), CodeLex(a.text + "." + l.text + more), a, [b, l] + rest);
    assert Tokens(ps[..k]) + [a] + ([b, l] + rest) == Tokens(ps[..k]) + [a, b] + [l] + rest;
  }

  lemma SpacedSpelled(ps: seq<Piece>, k: nat)
    requires Spaced(ps) && k < |ps| && ps[k].Tok?
    ensures Spelled(ps[k].l)
  {
    assert PieceOk(ps[k]);
  }

  lemma OnePiece(p: Piece)
    ensures Flatten([p]) == Text(p) && Tokens([p]) == if p.Tok? then [p.l] else []
  {
    assert [p][1..] == [];
  }

  lemma TwoPieces(p: Piece, q: Piece)
    requires p.Tok? && q.Tok?
    ensures Flatten([p, q]) == p.l.text + q.l.text && Tokens([p, q]) == [p.l, q.l]
  {
    OnePiece(q);
    assert [p, q][1..] == [q];
    assert Flatten([p, q]) == p.l.text + Flatten([q]) && Tokens([p, q]) == [p.l] + Tokens([q]);
  }

  /** The pieces before a token are read as they are, whatever comes of the rest. */
  lemma ReadsUpTo(ps: seq<Piece>, k: nat, more: string)
    requires Spaced(ps) && k < |ps| && ps[k].Tok?
    requires k + 1 == |ps| && ps[k].l.text == "." ==> more == [] || !Digit(more[0])
    ensures CodeLex(Flatten(ps) + more) == Prepend(Tokens(ps[..k]), CodeLex(Flatten(ps[k..]) + more))
    ensures Tokens(ps) == Tokens(ps[..k]) + Tokens(ps[k..])
  {
    hide CodeLex, Flatten, Tokens, Spaced;
    SpacedIsClearTo(ps, k, more);
    RelexClear(ps[..k], Flatten(ps[k..]) + more);
    SplitPieces(ps, k);
    assert Flatten(ps[..k]) + (Flatten(ps[k..]) + more) == Flatten(ps) + more;
  }
}
