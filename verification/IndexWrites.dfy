/**
 What `$x[i][j] = e` does, as a program can see it: reading the same chain back gives the value, and
 every chain that differs from it at some step, and every other variable, reads as before.
 */
module IndexWrites {
  import opened Options
  import opened Syntax
  import opened ValueSemantics

  /** The expression that spells an assignment's target; its steps come leaf first, so the first is outermost. */
  function Target(x: Name, path: Exprs): Expr {
    match path
    case ENil => Var(x)
    case ECons(e, tl) => Index(Target(x, tl), e)
  }

  predicate Scalars(ks: seq<Tree>) { forall i :: 0 <= i < |ks| ==> ks[i].Atom? }

  function Literals(ks: seq<Tree>): Exprs
    requires Scalars(ks)
  {
    if ks == [] then ENil else ECons(Lit(ks[0].s), Literals(ks[1..]))
  }

  lemma {:induction false} LiteralsEval(p: Program, caps: Option<Summary>, ks: seq<Tree>, g: Store, l: Store, fuel: nat)
    requires Scalars(ks)
    ensures EvalAll(p, caps, Literals(ks), g, l, fuel) == ER(Val(ks), g)
    decreases |ks|
  {
    if ks != [] {
      LiteralsEval(p, caps, ks[1..], g, l, fuel);
      assert [ks[0]] + ks[1..] == ks;
    }
  }

  /** An expression gives a value, fails or runs out of fuel. */
  lemma {:induction false} NeverNext(p: Program, caps: Option<Summary>, e: Expr, g: Store, l: Store, fuel: nat)
    ensures !Eval(p, caps, e, g, l, fuel).out.Next?
    decreases e
  {
    match e
    case Bin(a, b) => NeverNext(p, caps, a, g, l, fuel); NeverNext(p, caps, b, Eval(p, caps, a, g, l, fuel).globals, l, fuel);
    case Index(a, b) => NeverNext(p, caps, a, g, l, fuel); NeverNext(p, caps, b, Eval(p, caps, a, g, l, fuel).globals, l, fuel);
    case ListLit(es) => NoneNext(p, caps, es, g, l, fuel);
    case Call(f, es) => NoneNext(p, caps, es, g, l, fuel);
    case CallValue(c, es) =>
      NeverNext(p, caps, c, g, l, fuel);
      NoneNext(p, caps, es, Eval(p, caps, c, g, l, fuel).globals, l, fuel);
    case _ =>
  }

  lemma {:induction false} NoneNext(p: Program, caps: Option<Summary>, es: Exprs, g: Store, l: Store, fuel: nat)
    ensures !EvalAll(p, caps, es, g, l, fuel).out.Next?
    decreases es
  {
    match es
    case ENil =>
    case ECons(e, tl) =>
      NeverNext(p, caps, e, g, l, fuel);
      NoneNext(p, caps, tl, Eval(p, caps, e, g, l, fuel).globals, l, fuel);
  }

  // ----- reading a chain -----

  /** Follows a chain of steps, root step first. */
  function Walk(t: Tree, steps: seq<Tree>): (r: Out<Tree>)
    ensures r.Val? || r.Fail?
    decreases |steps|
  {
    if steps == [] then Val(t)
    else
      var u := Select(t, steps[0]);
      if u.Val? then Walk(u.v, steps[1..]) else Fail
  }

  lemma {:induction false} WalkOneMore(t: Tree, steps: seq<Tree>, k: Tree)
    ensures var u := Walk(t, steps); Walk(t, steps + [k]) == if u.Val? then Select(u.v, k) else Fail
    decreases |steps|
  {
    if steps == [] {
      assert [] + [k] == [k] && [k][1..] == [];
    } else {
      assert (steps + [k])[0] == steps[0] && (steps + [k])[1..] == steps[1..] + [k];
      var u := Select(t, steps[0]);
      if u.Val? { WalkOneMore(u.v, steps[1..], k); }
    }
  }

  /** Evaluating a chain walks it from its root. */
  lemma {:induction false} TargetWalks(p: Program, caps: Option<Summary>, x: Name, ks: seq<Tree>, g: Store, l: Store, fuel: nat)
    requires Scalars(ks) && (x in l || x in g)
    ensures Eval(p, caps, Target(x, Literals(ks)), g, l, fuel) == ER(Walk(if x in l then l[x] else g[x], Reverse(ks)), g)
    decreases |ks|
  {
    var t := if x in l then l[x] else g[x];
    if ks != [] {
      TargetWalks(p, caps, x, ks[1..], g, l, fuel);
      WalkOneMore(t, Reverse(ks[1..]), ks[0]);
      assert Eval(p, caps, Lit(ks[0].s), g, l, fuel) == ER(Val(ks[0]), g);
      assert Reverse(ks) == Reverse(ks[1..]) + [ks[0]];
      assert Target(x, Literals(ks)) == Index(Target(x, Literals(ks[1..])), Lit(ks[0].s));
    }
  }

  // ----- writing one -----

  /** The two chains part at some step. */
  ghost predicate Parted(a: seq<Tree>, b: seq<Tree>) { exists i :: 0 <= i < |a| && i < |b| && a[i] != b[i] }

  lemma {:induction false} UpdateReadsBack(t: Tree, path: seq<Tree>, v: Tree)
    requires Update(t, path, v).Some?
    ensures Walk(Update(t, path, v).value, path) == Val(v) && Scalars(path)
    decreases |path|
  {
    var i := path[0].s.n;
    if |path| > 1 {
      UpdateReadsBack(t.elems[i], path[1..], v);
      forall j | 0 <= j < |path| ensures path[j].Atom? { if j > 0 { assert path[j] == path[1..][j - 1]; } }
    } else {
      assert path[1..] == [];
    }
  }

  lemma {:induction false} UpdateElsewhere(t: Tree, path: seq<Tree>, v: Tree, other: seq<Tree>)
    requires Update(t, path, v).Some? && Parted(path, other)
    ensures Walk(Update(t, path, v).value, other) == Walk(t, other)
    decreases |path|
  {
    var i := path[0].s.n;
    if other[0] == path[0] {
      var k :| 0 <= k < |path| && k < |other| && path[k] != other[k];
      assert path[1..][k - 1] == path[k] && other[1..][k - 1] == other[k];
      assert |path| > 1 && Parted(path[1..], other[1..]);
      UpdateElsewhere(t.elems[i], path[1..], v, other[1..]);
    }
  }

  lemma {:induction false} Reversed(s: seq<Tree>)
    ensures |Reverse(s)| == |s| && forall i :: 0 <= i < |s| ==> Reverse(s)[i] == s[|s| - 1 - i]
  {
    if s != [] { Reversed(s[1..]); }
  }

  function FromRoot(a: seq<Tree>, i: nat): Tree
    requires i < |a|
  {
    a[|a| - 1 - i]
  }

  /** From the root down, the two chains of steps (leaf first) differ somewhere. */
  ghost predicate Differ(a: seq<Tree>, b: seq<Tree>) {
    exists i: nat :: i < |a| && i < |b| && FromRoot(a, i) != FromRoot(b, i)
  }

  lemma DifferParts(a: seq<Tree>, b: seq<Tree>)
    requires Differ(a, b)
    ensures Parted(Reverse(a), Reverse(b))
  {
    hide Reverse;
    Reversed(a);
    Reversed(b);
    var i: nat :| i < |a| && i < |b| && FromRoot(a, i) != FromRoot(b, i);
    assert Reverse(a)[i] != Reverse(b)[i];
  }

  /** What a variable's chains read: in `st` after, compared with before. */
  ghost predicate ReadsAlike(p: Program, caps: Option<Summary>, y: Name, ks: seq<Tree>, g: Store, l: Store, g': Store, l': Store, fuel: nat)
    requires Scalars(ks)
  {
    Eval(p, caps, Target(y, Literals(ks)), g', l', fuel).out == Eval(p, caps, Target(y, Literals(ks)), g, l, fuel).out
  }

  /**
   Main result. An index assignment of any depth that succeeds evaluated its value and its steps to
   `v` and `ks`. Afterwards the chain with these steps reads as v; a chain on the same variable that
   differs at some step, and any chain on another variable, reads as it did before the write.
   */
  lemma ReadAfterWrite(p: Program, caps: Option<Summary>, x: Name, path: Exprs, e: Expr, g: Store, l: Store, fuel: nat, later: nat)
    requires Exec(p, caps, IndexAssign(x, path, e), g, l, fuel).out.Next?
    ensures var r := Eval(p, caps, e, g, l, fuel); var ri := EvalAll(p, caps, path, r.globals, l, fuel);
            var end := Exec(p, caps, IndexAssign(x, path, e), g, l, fuel);
            && r.out.Val? && ri.out.Val? && Scalars(ri.out.v)
            && Eval(p, caps, Target(x, Literals(ri.out.v)), end.globals, end.locals, later) == ER(Val(r.out.v), end.globals)
            && (forall ks: seq<Tree> :: Scalars(ks) && Differ(ri.out.v, ks) ==> ReadsAlike(p, caps, x, ks, ri.globals, l, end.globals, end.locals, later))
            && (forall y: Name, ks: seq<Tree> :: Scalars(ks) && y != x ==> ReadsAlike(p, caps, y, ks, ri.globals, l, end.globals, end.locals, later))
  {
    var r := Eval(p, caps, e, g, l, fuel);
    var ri := EvalAll(p, caps, path, r.globals, l, fuel);
    var end := Exec(p, caps, IndexAssign(x, path, e), g, l, fuel);
    NeverNext(p, caps, e, g, l, fuel);
    NoneNext(p, caps, path, r.globals, l, fuel);
    hide Eval, EvalAll, Reverse, Update, Target, Walk;
    assert r.out.Val? && ri.out.Val? && end == WriteAt(p.consts, x, Reverse(ri.out.v), r.out.v, ri.globals, l);
    WrittenTree(p.consts, x, Reverse(ri.out.v), r.out.v, ri.globals, l);
    hide WriteAt, Exec, Put;
    var t := if x in l then l[x] else ri.globals[x];
    UpdateReadsBack(t, Reverse(ri.out.v), r.out.v);
    ReversedScalars(ri.out.v);
    TargetWalks(p, caps, x, ri.out.v, end.globals, end.locals, later);
    forall ks: seq<Tree> | Scalars(ks) && Differ(ri.out.v, ks) ensures ReadsAlike(p, caps, x, ks, ri.globals, l, end.globals, end.locals, later) {
      DifferParts(ri.out.v, ks);
      UpdateElsewhere(t, Reverse(ri.out.v), r.out.v, Reverse(ks));
      TargetWalks(p, caps, x, ks, end.globals, end.locals, later);
      TargetWalks(p, caps, x, ks, ri.globals, l, later);
    }
    forall y: Name, ks: seq<Tree> | Scalars(ks) && y != x ensures ReadsAlike(p, caps, y, ks, ri.globals, l, end.globals, end.locals, later) {
      OthersRead(p, caps, y, ks, ri.globals, l, end.globals, end.locals, later);
    }
  }

  lemma ReversedScalars(s: seq<Tree>)
    requires Scalars(Reverse(s))
    ensures Scalars(s)
  {
    Reversed(s);
    forall i | 0 <= i < |s| ensures s[i].Atom? { assert Reverse(s)[|s| - 1 - i] == s[i]; }
  }

  /** The variable holds the updated tree, in the frame that held it; nothing else changed. */
  lemma WrittenTree(consts: set<Name>, x: Name, steps: seq<Tree>, v: Tree, g: Store, l: Store)
    requires WriteAt(consts, x, steps, v, g, l).out.Next?
    ensures var r := WriteAt(consts, x, steps, v, g, l);
            && (x in l || x in g) && r.locals.Keys == l.Keys && r.globals.Keys == g.Keys
            && var t := Update(if x in l then l[x] else g[x], steps, v);
            && t.Some? && (if x in l then r.locals[x] else r.globals[x]) == t.value
            && (forall y :: y in l && y != x ==> r.locals[y] == l[y]) && (forall y :: y in g && y != x ==> r.globals[y] == g[y])
  {
    hide Update;
  }

  lemma {:induction false} OthersRead(p: Program, caps: Option<Summary>, y: Name, ks: seq<Tree>, g: Store, l: Store, g': Store, l': Store, fuel: nat)
    requires Scalars(ks) && l'.Keys == l.Keys && g'.Keys == g.Keys && (y in l ==> l'[y] == l[y]) && (y in g ==> g'[y] == g[y])
    ensures ReadsAlike(p, caps, y, ks, g, l, g', l', fuel)
  {
    if y in l || y in g {
      TargetWalks(p, caps, y, ks, g, l, fuel);
      TargetWalks(p, caps, y, ks, g', l', fuel);
    } else {
      Unbound(p, caps, y, ks, g, l, fuel);
      Unbound(p, caps, y, ks, g', l', fuel);
    }
  }

  lemma {:induction false} Unbound(p: Program, caps: Option<Summary>, y: Name, ks: seq<Tree>, g: Store, l: Store, fuel: nat)
    requires Scalars(ks) && y !in l && y !in g
    ensures Eval(p, caps, Target(y, Literals(ks)), g, l, fuel) == ER(Fail, g)
    decreases |ks|
  {
    if ks != [] { Unbound(p, caps, y, ks[1..], g, l, fuel); }
  }

  /** With literal steps, the statement and the expression are spelled alike: `$m[0][1] = e` and `$m[0][1]`. */
  lemma LiteralTarget(p: Program, caps: Option<Summary>, x: Name, ks: seq<Tree>, e: Expr, g: Store, l: Store, fuel: nat, later: nat)
    requires Scalars(ks) && Exec(p, caps, IndexAssign(x, Literals(ks), e), g, l, fuel).out.Next?
    ensures var end := Exec(p, caps, IndexAssign(x, Literals(ks), e), g, l, fuel);
            && Eval(p, caps, Target(x, Literals(ks)), end.globals, end.locals, later).out == Eval(p, caps, e, g, l, fuel).out
            && Eval(p, caps, e, g, l, fuel).out.Val?
  {
    hide Eval, Exec, EvalAll, Target;
    ReadAfterWrite(p, caps, x, Literals(ks), e, g, l, fuel, later);
    LiteralsEval(p, caps, ks, Eval(p, caps, e, g, l, fuel).globals, l, fuel);
  }

  // ----- blocks -----

  /** Blocks hide what they define and nothing else: afterwards the same locals are in scope. */
  lemma BlocksKeepScope(p: Program, caps: Option<Summary>, s: Stmt, g: Store, l: Store, fuel: nat)
    requires s.If? || s.While? || s.Try?
    ensures Exec(p, caps, s, g, l, fuel).locals.Keys == l.Keys
  {
    LocalsGrow(p, caps, s, g, l, fuel);
    BlocksShrink(p, caps, s, g, l, fuel);
    hide Exec;
  }

  lemma {:induction false} BlocksShrink(p: Program, caps: Option<Summary>, s: Stmt, g: Store, l: Store, fuel: nat)
    requires s.If? || s.While? || s.Try?
    ensures Exec(p, caps, s, g, l, fuel).locals.Keys <= l.Keys
    decreases fuel
  {
    hide Eval;
    if s.While? {
      var r := Eval(p, caps, s.cond, g, l, fuel);
      if r.out.Val? && Truth(r.out.v) == Some(true) && fuel > 0 {
        var rb := Close(Exec(p, caps, s.body, r.globals, l, fuel), l);
        BlocksShrink(p, caps, s, rb.globals, rb.locals, fuel - 1);
      }
    }
  }

  /** No statement takes a local out of scope. */
  lemma {:induction false} LocalsGrow(p: Program, caps: Option<Summary>, s: Stmt, g: Store, l: Store, fuel: nat)
    ensures l.Keys <= Exec(p, caps, s, g, l, fuel).locals.Keys
    decreases fuel, s
  {
    hide Eval, EvalAll, Update, Reverse;
    match s
    case Seq(a, b) =>
      LocalsGrow(p, caps, a, g, l, fuel);
      var r := Exec(p, caps, a, g, l, fuel);
      LocalsGrow(p, caps, b, r.globals, r.locals, fuel);
    case If(c, a, b) =>
      var r := Eval(p, caps, c, g, l, fuel);
      if r.out.Val? && Truth(r.out.v).Some? { LocalsGrow(p, caps, if Truth(r.out.v).value then a else b, r.globals, l, fuel); }
    case While(c, b) =>
      var r := Eval(p, caps, c, g, l, fuel);
      if r.out.Val? && Truth(r.out.v) == Some(true) {
        LocalsGrow(p, caps, b, r.globals, l, fuel);
        var rb := Close(Exec(p, caps, b, r.globals, l, fuel), l);
        if fuel > 0 { LocalsGrow(p, caps, s, rb.globals, rb.locals, fuel - 1); }
      }
    case Try(a, b) =>
      LocalsGrow(p, caps, a, g, l, fuel);
      var ra := Close(Exec(p, caps, a, g, l, fuel), l);
      LocalsGrow(p, caps, b, ra.globals, ra.locals, fuel);
    case _ =>
  }
}
