/**
 The three analyses together: with the stamps they compute, the interpreter that
 aliases, borrows, filters and writes in place gives every program exactly the
 outcome of the semantics that copies everything.
 */
module CopyElision {
  import opened Options
  import opened Syntax
  import opened Scans
  import opened ValueSemantics
  import opened AliasHeap
  import opened AliasEval
  import opened AliasInvariant
  import opened AliasSim
  import CallGraph
  import Constants
  import EscapeAnalysis
  import SpawnCapture

  /** What ComputeEntryGlobalSafe promises about the GlobalSafe stamp. */
  ghost predicate SafeStamp(p: Program, safe: set<Name>) {
    forall m :: m in safe <==> m in p.methods && !CallGraph.ReachesAny(EscapeAnalysis.Calls(p), m, EscapeAnalysis.Hazards(p))
  }

  /** What load time leaves behind. A script without a mutable global is not analysed, so no method in it is stamped. */
  ghost predicate Checked(c: Config, top: Stmt) {
    && WellFormed(c.p, c.globals) && NoShadow(ScanStmt(c.p, top), c.globals)
    && (SafeStamp(c.p, c.safe) || (Frozen(c) && c.safe == {})) && (c.caps.Some? ==> SpawnCapture.Closed(c.p, c.caps.value))
    && forall m :: m in c.p.methods ==> Distinct(c.p.methods[m].params)
  }

  ghost predicate Accepted(c: Config, top: Stmt) {
    && Checked(c, top) && SettledStmt(Mutables(c), c.safe, top)
    && forall m :: m in c.p.methods ==> SettledStmt(Mutables(c), c.safe, c.p.methods[m].body)
  }

  /** A start state: every global owns its backing, and the entry frame is empty. */
  ghost predicate Start(c: Config, h: Heap, at: Site, hg: RefStore, g: Store) {
    && Wf(h) && at.world < h.ids && at.frame < h.ids && at.world != at.frame
    && g.Keys <= c.globals && GlobalsOwned(h, c.p.consts, at.world, hg, g)
  }

  lemma StampIsSafe(c: Config, top: Stmt)
    requires Checked(c, top)
    ensures EscapeAnalysis.SafeSet(c.p, c.globals, c.safe)
  {
    hide WellFormed, SpawnCapture.Closed, ScanStmt;
    if SafeStamp(c.p, c.safe) { EscapeAnalysis.UnmarkedIsSafeSet(c.p, c.globals, c.safe); }
  }

  function EntryCtx(c: Config, at: Site): Ctx { Ctx(at, c.p.consts, {}, {}, {}, true) }

  /** Main result: same outcome and same globals as the copy-everything semantics. */
  lemma OptimisedRunIsNaive(c: Config, top: Stmt, h: Heap, at: Site, hg: RefStore, g: Store, fuel: nat)
    requires Accepted(c, top) && Start(c, h, at, hg, g)
    ensures var r', r := RunStmt(c, top, h, at, hg, map[], fuel), Exec(c.p, None, top, g, map[], fuel);
            OutSim(r'.heap, {}, r'.out, r.out) && GlobalsOwned(r'.heap, c.p.consts, at.world, r'.globals, r.globals)
  {
    var cx := EntryCtx(c, at);
    hide ScanStmt, SettledStmt, Exec, RunStmt, WellFormed, SpawnCapture.Closed;
    StampIsSafe(c, top);
    assert Inv(h, cx, hg, map[], g, map[]);
    assert Fit(c, cx, ScanStmt(c.p, top), g);
    ExecSim(c, cx, top, h, hg, map[], g, map[], fuel);
    if c.caps.Some? {
      SpawnCapture.ExecFiltered(c.p, c.globals, c.caps.value, top, g, map[], fuel);
    }
  }

  /** Two runs a program cannot tell apart. */
  ghost predicate SameOutcome(a: StmtRun, b: StmtRun) {
    && SameKind(a.out, b.out) && a.out.Val? == b.out.Val?
    && (a.out.Val? ==> TreeOf(a.heap, a.out.v) == TreeOf(b.heap, b.out.v))
    && a.globals.Keys == b.globals.Keys
    && forall x :: x in a.globals ==> TreeOf(a.heap, a.globals[x]) == TreeOf(b.heap, b.globals[x])
  }

  lemma DenotesOutcome(consts: set<Name>, w: nat, r': StmtRun, r: StmtResult)
    requires OutSim(r'.heap, {}, r'.out, r.out) && GlobalsOwned(r'.heap, consts, w, r'.globals, r.globals)
    ensures SameKind(r'.out, r.out) && r'.out.Val? == r.out.Val? && (r.out.Val? ==> TreeOf(r'.heap, r'.out.v) == r.out.v)
    ensures r'.globals.Keys == r.globals.Keys
    ensures forall x :: x in r.globals ==> TreeOf(r'.heap, r'.globals[x]) == r.globals[x]
  {
    hide Owned, Rep;
    if r.out.Val? { TreeOfRep(r'.heap, r'.out.v, r.out.v); }
    forall x | x in r.globals ensures TreeOf(r'.heap, r'.globals[x]) == r.globals[x] {
      OwnedIsRep(r'.heap, r'.globals[x], r.globals[x], GlobalTag(consts, w, x));
      TreeOfRep(r'.heap, r'.globals[x], r.globals[x]);
    }
  }

  /** Binding a read-only parameter by alias is observationally a copy, for every program and run. */
  lemma BorrowIsCopy(c: Config, top: Stmt, h: Heap, at: Site, hg: RefStore, g: Store, fuel: nat)
    requires Accepted(c, top) && Start(c, h, at, hg, g)
    ensures SameOutcome(RunStmt(c, top, h, at, hg, map[], fuel),
                        RunStmt(c.(borrowing := !c.borrowing), top, h, at, hg, map[], fuel))
  {
    hide ScanStmt, SettledStmt, WellFormed, SpawnCapture.Closed, SafeStamp, Exec, RunStmt, GlobalsOwned, OutSim;
    var c' := c.(borrowing := !c.borrowing);
    assert Accepted(c', top);
    hide Accepted, Checked;
    OptimisedRunIsNaive(c, top, h, at, hg, g, fuel);
    OptimisedRunIsNaive(c', top, h, at, hg, g, fuel);
    var r := Exec(c.p, None, top, g, map[], fuel);
    DenotesOutcome(c.p.consts, at.world, RunStmt(c, top, h, at, hg, map[], fuel), r);
    DenotesOutcome(c.p.consts, at.world, RunStmt(c', top, h, at, hg, map[], fuel), r);
  }

  // ----- scripts without a mutable global -----

  lemma {:induction false} SettledExprIfFrozen(safe: set<Name>, e: Expr)
    ensures Settled({}, safe, e)
    decreases e
  {
    match e
    case Bin(a, b) => SettledExprIfFrozen(safe, a); SettledExprIfFrozen(safe, b);
    case Index(a, b) => SettledExprIfFrozen(safe, a); SettledExprIfFrozen(safe, b);
    case ListLit(es) => SettledAllIfFrozen(safe, es);
    case Call(_, es) => SettledAllIfFrozen(safe, es);
    case CallValue(fn, es) => SettledExprIfFrozen(safe, fn); SettledAllIfFrozen(safe, es);
    case Spawn(s) => SettledIfFrozen(safe, s);
    case _ =>
  }

  lemma {:induction false} SettledAllIfFrozen(safe: set<Name>, es: Exprs)
    ensures SettledAll({}, safe, es) && SettledArgs({}, safe, es)
    decreases es
  {
    match es
    case ENil =>
    case ECons(e, tl) => SettledExprIfFrozen(safe, e); SettledAllIfFrozen(safe, tl);
  }

  /** With nothing to write, all code is settled. */
  lemma {:induction false} SettledIfFrozen(safe: set<Name>, s: Stmt)
    ensures SettledStmt({}, safe, s)
    decreases s
  {
    match s
    case Skip =>
    case Seq(a, b) => SettledIfFrozen(safe, a); SettledIfFrozen(safe, b);
    case Define(_, e) => SettledExprIfFrozen(safe, e);
    case Assign(_, e) => SettledExprIfFrozen(safe, e);
    case IndexAssign(_, path, e) => SettledExprIfFrozen(safe, e); SettledAllIfFrozen(safe, path);
    case If(e, a, b) => SettledExprIfFrozen(safe, e); SettledIfFrozen(safe, a); SettledIfFrozen(safe, b);
    case While(e, b) => SettledExprIfFrozen(safe, e); SettledIfFrozen(safe, b);
    case Try(a, b) => SettledIfFrozen(safe, a); SettledIfFrozen(safe, b);
    case Return(e) => SettledExprIfFrozen(safe, e);
    case Do(e) => SettledExprIfFrozen(safe, e);
  }

  lemma FrozenIsAccepted(c: Config, top: Stmt)
    requires Frozen(c) && Checked(c, top)
    ensures Accepted(c, top)
  {
    hide WellFormed, SpawnCapture.Closed, ScanStmt, SafeStamp, SettledStmt;
    SettledIfFrozen(c.safe, top);
    forall m | m in c.p.methods ensures SettledStmt(Mutables(c), c.safe, c.p.methods[m].body) {
      SettledIfFrozen(c.safe, c.p.methods[m].body);
    }
  }

  /**
   A script without a mutable global borrows in every method, and needs nothing more for it: every
   run ends as the copy-everything one does, with its globals as they were.
   */
  lemma FrozenRunIsNaive(c: Config, top: Stmt, h: Heap, at: Site, hg: RefStore, g: Store, fuel: nat)
    requires Frozen(c) && Checked(c, top) && Start(c, h, at, hg, g)
    ensures var r', r := RunStmt(c, top, h, at, hg, map[], fuel), Exec(c.p, None, top, g, map[], fuel);
            OutSim(r'.heap, {}, r'.out, r.out) && GlobalsOwned(r'.heap, c.p.consts, at.world, r'.globals, g)
    ensures SameOutcome(RunStmt(c, top, h, at, hg, map[], fuel),
                        RunStmt(c.(borrowing := !c.borrowing), top, h, at, hg, map[], fuel))
  {
    hide Checked, Accepted, GlobalsOwned, OutSim, RunStmt, Exec, SameOutcome;
    FrozenIsAccepted(c, top);
    OptimisedRunIsNaive(c, top, h, at, hg, g, fuel);
    BorrowIsCopy(c, top, h, at, hg, g, fuel);
    Constants.ExecKeeps(c.p, None, top, g, map[], fuel);
    assert forall x :: x in g ==> x in c.p.consts by { assert forall x :: x in g ==> x !in Mutables(c); }
    assert Exec(c.p, None, top, g, map[], fuel).globals == g;
  }
}
