/**
 Spawn captures: a body run on the snapshot filtered to its stamped capture set
 behaves exactly as on the full global snapshot.
 */
module SpawnCapture {
  import opened Options
  import opened Syntax
  import opened Scans
  import opened ValueSemantics

  function AllCallees(f: Facts): set<Name> { f.callees + f.spawnCallees }

  /** What the fixpoint leaves behind: every summary absorbs its callees' summaries. */
  ghost predicate Closed(p: Program, summ: Summary) {
    && summ.Keys == p.methods.Keys
    && forall m :: m in summ ==> ClosedAt(p, summ, m)
  }

  ghost predicate ClosedAt(p: Program, summ: Summary, m: Name)
    requires summ.Keys == p.methods.Keys && m in summ
  {
    var f := MethodFacts(p, m);
    summ[m].all
    || (&& !f.dynamic && !f.spawnDynamic
        && f.uses - MethodLocals(p, m) <= summ[m].names
        && forall c :: c in AllCallees(f) ==> c in summ && !summ[c].all && summ[c].names <= summ[m].names)
  }

  /** `want` holds every global that code with these facts can reach. */
  ghost predicate Covered(summ: Summary, f: Facts, globals: set<Name>, want: set<Name>) {
    && !f.dynamic && !f.spawnDynamic
    && NoShadow(f, globals)
    && f.uses * globals <= want
    && forall c :: c in AllCallees(f) ==> c in summ && !summ[c].all && summ[c].names * globals <= want
  }

  /** Two global frames no covered code can tell apart. */
  ghost predicate Related(p: Program, globals: set<Name>, summ: Summary, want: set<Name>, g: Store, g': Store) {
    && WellFormed(p, globals) && Closed(p, summ)
    && g.Keys <= globals && g'.Keys <= globals
    && forall x :: x in want ==> (x in g <==> x in g') && (x in g ==> g[x] == g'[x])
  }

  /** The stamped set covers the body it was computed for. */
  lemma StampCovers(summ: Summary, f: Facts, globals: set<Name>)
    requires NoShadow(f, globals) && f.locals <= f.binds && Stamp(summ, f).Only?
    ensures Covered(summ, f, globals, Stamp(summ, f).names)
  {
    forall c, x | c in AllCallees(f) && c in summ && x in summ[c].names
      ensures x in Stamp(summ, f).names
    {
    }
  }

  lemma CoveredJoin(summ: Summary, a: Facts, b: Facts, globals: set<Name>, want: set<Name>)
    requires Covered(summ, Join(a, b), globals, want)
    ensures Covered(summ, a, globals, want) && Covered(summ, b, globals, want)
  {
    var f := Join(a, b);
    assert AllCallees(f) == AllCallees(a) + AllCallees(b);
    assert forall x :: x in a.uses || x in b.uses ==> x in f.uses;
  }

  lemma LookupSame(p: Program, globals: set<Name>, summ: Summary, want: set<Name>, g: Store, g': Store, f: Facts, x: Name)
    requires Related(p, globals, summ, want, g, g') && Covered(summ, f, globals, want) && x in f.uses
    ensures (x in g <==> x in g') && (x in g ==> g[x] == g'[x])
    ensures x in g ==> forall v: Tree {:trigger g[x := v]} :: Related(p, globals, summ, want, g[x := v], g'[x := v])
  {
    if x in globals {
      assert x in f.uses * globals;
    }
    hide WellFormed, Closed;
  }

  lemma PutAgrees(p: Program, globals: set<Name>, summ: Summary, want: set<Name>, g: Store, g': Store, f: Facts,
                  x: Name, path: seq<Tree>, v: Tree, l: Store)
    requires Related(p, globals, summ, want, g, g') && Covered(summ, f, globals, want) && x in f.uses
    ensures var r, r' := Put(p.consts, x, v, g, l), Put(p.consts, x, v, g', l);
            r.out == r'.out && r.locals == r'.locals && Related(p, globals, summ, want, r.globals, r'.globals)
    ensures var r, r' := WriteAt(p.consts, x, path, v, g, l), WriteAt(p.consts, x, path, v, g', l);
            r.out == r'.out && r.locals == r'.locals && Related(p, globals, summ, want, r.globals, r'.globals)
  {
    LookupSame(p, globals, summ, want, g, g', f, x);
    hide Related, Covered, Update;
  }

  lemma BoundIsNoGlobal(p: Program, globals: set<Name>, summ: Summary, want: set<Name>, g: Store, g': Store, f: Facts, x: Name)
    requires Related(p, globals, summ, want, g, g') && Covered(summ, f, globals, want) && x in f.binds
    ensures x !in g && x !in g'
  {
    hide WellFormed, Closed;
  }

  /** A covered method call runs a covered body. */
  lemma CalleeCovered(p: Program, globals: set<Name>, summ: Summary, want: set<Name>, g: Store, g': Store, f: Facts, m: Name)
    requires Related(p, globals, summ, want, g, g') && Covered(summ, f, globals, want) && m in f.callees
    ensures m in p.methods && Covered(summ, MethodFacts(p, m), globals, want)
  {
    assert m in AllCallees(f);
    assert ClosedAt(p, summ, m);
    LocalsAreBinds(p, p.methods[m].body);
    var facts := MethodFacts(p, m);
    forall x | x in facts.uses * globals ensures x in want {
      assert x !in MethodLocals(p, m);
      assert x in summ[m].names * globals;
    }
    forall c | c in AllCallees(facts) ensures summ[c].names * globals <= want {
      assert summ[c].names * globals <= summ[m].names * globals;
    }
  }

  lemma StampWithin(globals: set<Name>, summ: Summary, f: Facts, want: set<Name>)
    requires Covered(summ, InSpawn(f), globals, want)
    ensures Stamp(summ, f).Only? && Stamp(summ, f).names * globals <= want
  {
    assert AllCallees(InSpawn(f)) == AllCallees(f);
    forall x | x in Stamp(summ, f).names * globals ensures x in want {
      if x in f.uses {
        assert x in f.uses * globals;
      } else {
        var c :| c in AllCallees(f) && c in summ && x in summ[c].names;
        assert x in summ[c].names * globals;
      }
    }
  }

  /** A nested spawn filters two related frames to the same frame. */
  lemma SnapshotsEqual(p: Program, globals: set<Name>, summ: Summary, s: Stmt, want: set<Name>, g: Store, g': Store)
    requires Related(p, globals, summ, want, g, g')
    requires Covered(summ, InSpawn(ScanStmt(p, s)), globals, want)
    ensures Snapshot(p, Some(summ), s, g) == Snapshot(p, Some(summ), s, g')
  {
    hide WellFormed, Closed;
    StampWithin(globals, summ, ScanStmt(p, s), want);
    hide Stamp, Covered;
    var a, b := Snapshot(p, Some(summ), s, g), Snapshot(p, Some(summ), s, g');
    var names := Stamp(summ, ScanStmt(p, s)).names;
    forall x | x in names && (x in g || x in g') ensures x in g && x in g' && g[x] == g'[x] {
      assert x in names * globals;
    }
    assert a.Keys == b.Keys;
  }

  lemma {:induction false} EvalAgrees(p: Program, globals: set<Name>, summ: Summary, e: Expr, want: set<Name>,
                                      g: Store, g': Store, l: Store, fuel: nat)
    requires Related(p, globals, summ, want, g, g') && Covered(summ, ScanExpr(p, e), globals, want)
    ensures var r, r' := Eval(p, Some(summ), e, g, l, fuel), Eval(p, Some(summ), e, g', l, fuel);
            r.out == r'.out && Related(p, globals, summ, want, r.globals, r'.globals)
    decreases fuel, e, 0
  {
    match e
    case Lit(_) =>
    case Var(x) =>
      LookupSame(p, globals, summ, want, g, g', ScanExpr(p, e), x);
    case Bin(a, b) =>
      hide Related, Covered, Join;
      CoveredJoin(summ, ScanExpr(p, a), ScanExpr(p, b), globals, want);
      EvalAgrees(p, globals, summ, a, want, g, g', l, fuel);
      var ra, ra' := Eval(p, Some(summ), a, g, l, fuel), Eval(p, Some(summ), a, g', l, fuel);
      if ra.out.Val? { EvalAgrees(p, globals, summ, b, want, ra.globals, ra'.globals, l, fuel); }
    case Index(a, b) =>
      hide Related, Covered, Join;
      CoveredJoin(summ, ScanExpr(p, a), ScanExpr(p, b), globals, want);
      EvalAgrees(p, globals, summ, a, want, g, g', l, fuel);
      var ra, ra' := Eval(p, Some(summ), a, g, l, fuel), Eval(p, Some(summ), a, g', l, fuel);
      if ra.out.Val? { EvalAgrees(p, globals, summ, b, want, ra.globals, ra'.globals, l, fuel); }
    case ListLit(es) =>
      hide Related, Covered;
      EvalAllAgrees(p, globals, summ, es, want, g, g', l, fuel);
    case Call(f, es) =>
      hide Related;
      var own := if f in p.methods then NO_FACTS.(callees := {f}) else NO_FACTS.(dynamic := true);
      CoveredJoin(summ, own, ScanExprs(p, es), globals, want);
      CalleeCovered(p, globals, summ, want, g, g', own, f);
      hide Covered;
      InvokeAgrees(p, globals, summ, f, es, want, g, g', l, fuel);
    case CallValue(c, es) =>
      assert false;
    case Spawn(s) =>
      hide Related, Covered;
      SnapshotsEqual(p, globals, summ, s, want, g, g');
  }

  lemma {:induction false} EvalAllAgrees(p: Program, globals: set<Name>, summ: Summary, es: Exprs, want: set<Name>,
                                         g: Store, g': Store, l: Store, fuel: nat)
    requires Related(p, globals, summ, want, g, g') && Covered(summ, ScanExprs(p, es), globals, want)
    ensures var r, r' := EvalAll(p, Some(summ), es, g, l, fuel), EvalAll(p, Some(summ), es, g', l, fuel);
            r.out == r'.out && Related(p, globals, summ, want, r.globals, r'.globals)
    decreases fuel, es, 0
  {
    hide Related, Covered, Join;
    match es
    case ENil =>
    case ECons(e, tl) =>
      CoveredJoin(summ, ScanExpr(p, e), ScanExprs(p, tl), globals, want);
      EvalAgrees(p, globals, summ, e, want, g, g', l, fuel);
      var r, r' := Eval(p, Some(summ), e, g, l, fuel), Eval(p, Some(summ), e, g', l, fuel);
      if r.out.Val? { EvalAllAgrees(p, globals, summ, tl, want, r.globals, r'.globals, l, fuel); }
  }

  lemma {:induction false} InvokeAgrees(p: Program, globals: set<Name>, summ: Summary, f: Name, es: Exprs, want: set<Name>,
                                        g: Store, g': Store, l: Store, fuel: nat)
    requires Related(p, globals, summ, want, g, g') && Covered(summ, ScanExprs(p, es), globals, want)
    requires f in p.methods && Covered(summ, MethodFacts(p, f), globals, want)
    ensures var r, r' := Invoke(p, Some(summ), f, es, g, l, fuel), Invoke(p, Some(summ), f, es, g', l, fuel);
            r.out == r'.out && Related(p, globals, summ, want, r.globals, r'.globals)
    decreases fuel, es, 1
  {
    hide Related, Covered;
    EvalAllAgrees(p, globals, summ, es, want, g, g', l, fuel);
    var m := p.methods[f];
    var ra, ra' := EvalAll(p, Some(summ), es, g, l, fuel), EvalAll(p, Some(summ), es, g', l, fuel);
    if |m.params| == Len(es) && ra.out.Val? && fuel > 0 {
      ExecAgrees(p, globals, summ, m.body, want, ra.globals, ra'.globals, Bind(m.params, ra.out.v), fuel - 1);
    }
  }

  lemma {:induction false} ExecAgrees(p: Program, globals: set<Name>, summ: Summary, s: Stmt, want: set<Name>,
                                      g: Store, g': Store, l: Store, fuel: nat)
    requires Related(p, globals, summ, want, g, g') && Covered(summ, ScanStmt(p, s), globals, want)
    ensures var r, r' := Exec(p, Some(summ), s, g, l, fuel), Exec(p, Some(summ), s, g', l, fuel);
            r.out == r'.out && r.locals == r'.locals && Related(p, globals, summ, want, r.globals, r'.globals)
    decreases fuel, s, 1
  {
    match s
    case Skip =>
    case Seq(a, b) =>
      hide Related, Covered, Join;
      CoveredJoin(summ, ScanStmt(p, a), ScanStmt(p, b), globals, want);
      ExecAgrees(p, globals, summ, a, want, g, g', l, fuel);
      var r, r' := Exec(p, Some(summ), a, g, l, fuel), Exec(p, Some(summ), a, g', l, fuel);
      if r.out.Next? { ExecAgrees(p, globals, summ, b, want, r.globals, r'.globals, r.locals, fuel); }
    case Define(x, e) =>
      hide Related, Covered;
      var own := NO_FACTS.(binds := {x}, locals := {x});
      CoveredJoin(summ, own, ScanExpr(p, e), globals, want);
      EvalAgrees(p, globals, summ, e, want, g, g', l, fuel);
      var r, r' := Eval(p, Some(summ), e, g, l, fuel), Eval(p, Some(summ), e, g', l, fuel);
      BoundIsNoGlobal(p, globals, summ, want, r.globals, r'.globals, own, x);
    case Assign(x, e) =>
      hide Related, Covered, Put;
      var own := NO_FACTS.(uses := {x}, writes := {x});
      CoveredJoin(summ, own, ScanExpr(p, e), globals, want);
      EvalAgrees(p, globals, summ, e, want, g, g', l, fuel);
      var r, r' := Eval(p, Some(summ), e, g, l, fuel), Eval(p, Some(summ), e, g', l, fuel);
      if r.out.Val? { PutAgrees(p, globals, summ, want, r.globals, r'.globals, own, x, [], r.out.v, l); }
    case IndexAssign(x, path, e) =>
      IndexAssignAgrees(p, globals, summ, s, want, g, g', l, fuel);
    case If(c, a, b) =>
      IfAgrees(p, globals, summ, s, want, g, g', l, fuel);
    case While(c, b) =>
      WhileAgrees(p, globals, summ, s, want, g, g', l, fuel);
    case Try(a, b) =>
      hide Related, Covered, Join, Scope;
      CoveredJoin(summ, ScanStmt(p, a), ScanStmt(p, b), globals, want);
      ExecAgrees(p, globals, summ, a, want, g, g', l, fuel);
      var ra := Close(Exec(p, Some(summ), a, g, l, fuel), l);
      var ra' := Close(Exec(p, Some(summ), a, g', l, fuel), l);
      if ra.out.Fail? { ExecAgrees(p, globals, summ, b, want, ra.globals, ra'.globals, ra.locals, fuel); }
    case Return(e) =>
      hide Related, Covered;
      EvalAgrees(p, globals, summ, e, want, g, g', l, fuel);
    case Do(e) =>
      hide Related, Covered;
      EvalAgrees(p, globals, summ, e, want, g, g', l, fuel);
  }

  lemma {:induction false} IndexAssignAgrees(p: Program, globals: set<Name>, summ: Summary, s: Stmt, want: set<Name>,
                                             g: Store, g': Store, l: Store, fuel: nat)
    requires s.IndexAssign?
    requires Related(p, globals, summ, want, g, g') && Covered(summ, ScanStmt(p, s), globals, want)
    ensures var r, r' := Exec(p, Some(summ), s, g, l, fuel), Exec(p, Some(summ), s, g', l, fuel);
            r.out == r'.out && r.locals == r'.locals && Related(p, globals, summ, want, r.globals, r'.globals)
    decreases fuel, s, 0
  {
    hide Related, Covered, WriteAt, Join, Put, Eval, EvalAll, Reverse, ScanExpr, ScanExprs;
    var x, path, e := s.x, s.path, s.value;
    var own := NO_FACTS.(uses := {x}, writes := {x});
    CoveredJoin(summ, own, Join(ScanExprs(p, path), ScanExpr(p, e)), globals, want);
    CoveredJoin(summ, ScanExprs(p, path), ScanExpr(p, e), globals, want);
    LookupSame(p, globals, summ, want, g, g', own, x);
    EvalAgrees(p, globals, summ, e, want, g, g', l, fuel);
    var r, r' := Eval(p, Some(summ), e, g, l, fuel), Eval(p, Some(summ), e, g', l, fuel);
    if !r.out.Val? { return; }
    EvalAllAgrees(p, globals, summ, path, want, r.globals, r'.globals, l, fuel);
    var ri, ri' := EvalAll(p, Some(summ), path, r.globals, l, fuel), EvalAll(p, Some(summ), path, r'.globals, l, fuel);
    if ri.out.Val? {
      PutAgrees(p, globals, summ, want, ri.globals, ri'.globals, own, x, Reverse(ri.out.v), r.out.v, l);
    }
  }

  lemma {:induction false} WhileAgrees(p: Program, globals: set<Name>, summ: Summary, s: Stmt, want: set<Name>,
                                       g: Store, g': Store, l: Store, fuel: nat)
    requires s.While?
    requires Related(p, globals, summ, want, g, g') && Covered(summ, ScanStmt(p, s), globals, want)
    ensures var r, r' := Exec(p, Some(summ), s, g, l, fuel), Exec(p, Some(summ), s, g', l, fuel);
            r.out == r'.out && r.locals == r'.locals && Related(p, globals, summ, want, r.globals, r'.globals)
    decreases fuel, s, 0
  {
    hide Related, Covered, Join, Scope;
    var c, b := s.cond, s.body;
    CoveredJoin(summ, ScanExpr(p, c), ScanStmt(p, b), globals, want);
    EvalAgrees(p, globals, summ, c, want, g, g', l, fuel);
    var r, r' := Eval(p, Some(summ), c, g, l, fuel), Eval(p, Some(summ), c, g', l, fuel);
    if r.out.Val? && Truth(r.out.v) == Some(true) {
      ExecAgrees(p, globals, summ, b, want, r.globals, r'.globals, l, fuel);
      var rb := Close(Exec(p, Some(summ), b, r.globals, l, fuel), l);
      var rb' := Close(Exec(p, Some(summ), b, r'.globals, l, fuel), l);
      if rb.out.Next? && fuel > 0 {
        ExecAgrees(p, globals, summ, s, want, rb.globals, rb'.globals, rb.locals, fuel - 1);
      }
    }
  }

  lemma {:induction false} IfAgrees(p: Program, globals: set<Name>, summ: Summary, s: Stmt, want: set<Name>,
                                    g: Store, g': Store, l: Store, fuel: nat)
    requires s.If?
    requires Related(p, globals, summ, want, g, g') && Covered(summ, ScanStmt(p, s), globals, want)
    ensures var r, r' := Exec(p, Some(summ), s, g, l, fuel), Exec(p, Some(summ), s, g', l, fuel);
            r.out == r'.out && r.locals == r'.locals && Related(p, globals, summ, want, r.globals, r'.globals)
    decreases fuel, s, 0
  {
    hide Related, Covered, Join, Scope;
    var c, a, b := s.cond, s.thn, s.els;
    CoveredJoin(summ, ScanExpr(p, c), Join(ScanStmt(p, a), ScanStmt(p, b)), globals, want);
    CoveredJoin(summ, ScanStmt(p, a), ScanStmt(p, b), globals, want);
    EvalAgrees(p, globals, summ, c, want, g, g', l, fuel);
    var r, r' := Eval(p, Some(summ), c, g, l, fuel), Eval(p, Some(summ), c, g', l, fuel);
    if r.out.Val? && Truth(r.out.v).Some? {
      ExecAgrees(p, globals, summ, if Truth(r.out.v).value then a else b, want, r.globals, r'.globals, l, fuel);
    }
  }

  // ----- the filtered interpreter is the copy-all interpreter -----

  ghost predicate Ready(p: Program, globals: set<Name>, summ: Summary, f: Facts, g: Store) {
    WellFormed(p, globals) && Closed(p, summ) && g.Keys <= globals && NoShadow(f, globals)
  }

  lemma ReadyJoin(p: Program, globals: set<Name>, summ: Summary, a: Facts, b: Facts, g: Store)
    requires Ready(p, globals, summ, Join(a, b), g)
    ensures Ready(p, globals, summ, a, g) && Ready(p, globals, summ, b, g)
  {
    hide WellFormed, Closed;
  }

  lemma ReadyCallee(p: Program, globals: set<Name>, summ: Summary, f: Facts, g: Store, g': Store, m: Name)
    requires Ready(p, globals, summ, f, g) && g'.Keys == g.Keys && m in p.methods
    ensures Ready(p, globals, summ, MethodFacts(p, m), g')
  {
    hide Closed;
  }

  lemma ReadyStep(p: Program, globals: set<Name>, summ: Summary, f: Facts, g: Store, g': Store)
    requires Ready(p, globals, summ, f, g) && g'.Keys == g.Keys
    ensures Ready(p, globals, summ, f, g')
  {
    hide WellFormed, Closed;
  }

  /** The heart of it: a spawn body cannot tell its filtered snapshot from the full one. */
  lemma FilteredSpawnSame(p: Program, globals: set<Name>, summ: Summary, s: Stmt, g: Store, l: Store, fuel: nat)
    requires Ready(p, globals, summ, ScanStmt(p, s), g)
    ensures Exec(p, Some(summ), s, Snapshot(p, Some(summ), s, g), l, fuel).out == Exec(p, Some(summ), s, g, l, fuel).out
  {
    hide WellFormed, Closed;
    LocalsAreBinds(p, s);
    var f := ScanStmt(p, s);
    if Stamp(summ, f).Only? {
      StampCovers(summ, f, globals);
      var names := Stamp(summ, f).names;
      var g' := Snapshot(p, Some(summ), s, g);
      assert Related(p, globals, summ, names, g, g');
      hide Related, Covered, Stamp;
      ExecAgrees(p, globals, summ, s, names, g, g', l, fuel);
    }
  }

  lemma {:induction false} EvalFiltered(p: Program, globals: set<Name>, summ: Summary, e: Expr, g: Store, l: Store, fuel: nat)
    requires Ready(p, globals, summ, ScanExpr(p, e), g)
    ensures Eval(p, Some(summ), e, g, l, fuel) == Eval(p, None, e, g, l, fuel)
    decreases fuel, e, 1
  {
    hide Ready, Join;
    match e
    case Lit(_) =>
    case Var(_) =>
    case Bin(a, b) => PairFiltered(p, globals, summ, e, a, b, g, l, fuel);
    case Index(a, b) => PairFiltered(p, globals, summ, e, a, b, g, l, fuel);
    case ListLit(es) => EvalAllFiltered(p, globals, summ, es, g, l, fuel);
    case Call(f, es) =>
      var own := if f in p.methods then NO_FACTS.(callees := {f}) else NO_FACTS.(dynamic := true);
      ReadyJoin(p, globals, summ, own, ScanExprs(p, es), g);
      if f in p.methods { InvokeFiltered(p, globals, summ, f, es, g, l, fuel); }
    case CallValue(c, es) =>
      ReadyJoin(p, globals, summ, Join(ScanExpr(p, c), ScanExprs(p, es)), NO_FACTS.(dynamic := true), g);
      ReadyJoin(p, globals, summ, ScanExpr(p, c), ScanExprs(p, es), g);
      EvalFiltered(p, globals, summ, c, g, l, fuel);
      var rc := Eval(p, None, c, g, l, fuel);
      ReadyStep(p, globals, summ, ScanExprs(p, es), g, rc.globals);
      if rc.out.Val? && rc.out.v.Atom? && rc.out.v.s.Fn? && rc.out.v.s.target in p.methods {
        InvokeFiltered(p, globals, summ, rc.out.v.s.target, es, rc.globals, l, fuel);
      }
    case Spawn(s) =>
      SpawnReady(p, globals, summ, s, g);
      FilteredSpawnSame(p, globals, summ, s, g, l, fuel);
      ExecFiltered(p, globals, summ, s, g, l, fuel);
  }

  lemma SpawnReady(p: Program, globals: set<Name>, summ: Summary, s: Stmt, g: Store)
    requires Ready(p, globals, summ, InSpawn(ScanStmt(p, s)), g)
    ensures Ready(p, globals, summ, ScanStmt(p, s), g)
  {
    hide WellFormed, Closed;
  }

  lemma {:induction false} PairFiltered(p: Program, globals: set<Name>, summ: Summary, e: Expr, a: Expr, b: Expr,
                                        g: Store, l: Store, fuel: nat)
    requires e == Bin(a, b) || e == Index(a, b)
    requires Ready(p, globals, summ, Join(ScanExpr(p, a), ScanExpr(p, b)), g)
    ensures Eval(p, Some(summ), a, g, l, fuel) == Eval(p, None, a, g, l, fuel)
    ensures var ra := Eval(p, None, a, g, l, fuel);
            Eval(p, Some(summ), b, ra.globals, l, fuel) == Eval(p, None, b, ra.globals, l, fuel)
    decreases fuel, e, 0
  {
    hide Ready, Join;
    ReadyJoin(p, globals, summ, ScanExpr(p, a), ScanExpr(p, b), g);
    EvalFiltered(p, globals, summ, a, g, l, fuel);
    var ra := Eval(p, None, a, g, l, fuel);
    ReadyStep(p, globals, summ, ScanExpr(p, b), g, ra.globals);
    EvalFiltered(p, globals, summ, b, ra.globals, l, fuel);
  }

  lemma {:induction false} EvalAllFiltered(p: Program, globals: set<Name>, summ: Summary, es: Exprs, g: Store, l: Store, fuel: nat)
    requires Ready(p, globals, summ, ScanExprs(p, es), g)
    ensures EvalAll(p, Some(summ), es, g, l, fuel) == EvalAll(p, None, es, g, l, fuel)
    decreases fuel, es, 0
  {
    hide Ready, Join;
    match es
    case ENil =>
    case ECons(e, tl) =>
      ReadyJoin(p, globals, summ, ScanExpr(p, e), ScanExprs(p, tl), g);
      EvalFiltered(p, globals, summ, e, g, l, fuel);
      var r := Eval(p, None, e, g, l, fuel);
      ReadyStep(p, globals, summ, ScanExprs(p, tl), g, r.globals);
      EvalAllFiltered(p, globals, summ, tl, r.globals, l, fuel);
  }

  lemma {:induction false} InvokeFiltered(p: Program, globals: set<Name>, summ: Summary, f: Name, es: Exprs, g: Store, l: Store, fuel: nat)
    requires f in p.methods && Ready(p, globals, summ, ScanExprs(p, es), g)
    ensures Invoke(p, Some(summ), f, es, g, l, fuel) == Invoke(p, None, f, es, g, l, fuel)
    decreases fuel, es, 1
  {
    hide Ready, Join;
    EvalAllFiltered(p, globals, summ, es, g, l, fuel);
    var ra := EvalAll(p, None, es, g, l, fuel);
    var m := p.methods[f];
    if fuel > 0 && ra.out.Val? && |m.params| == Len(es) {
      ReadyCallee(p, globals, summ, ScanExprs(p, es), g, ra.globals, f);
      ExecFiltered(p, globals, summ, m.body, ra.globals, Bind(m.params, ra.out.v), fuel - 1);
    }
  }

  /** Main theorem: filtering every spawn's snapshot changes no program's behaviour. */
  lemma {:induction false} ExecFiltered(p: Program, globals: set<Name>, summ: Summary, s: Stmt, g: Store, l: Store, fuel: nat)
    requires Ready(p, globals, summ, ScanStmt(p, s), g)
    ensures Exec(p, Some(summ), s, g, l, fuel) == Exec(p, None, s, g, l, fuel)
    decreases fuel, s, 1
  {
    hide Ready, Join, Close;
    match s
    case Skip =>
    case Seq(a, b) =>
      ReadyJoin(p, globals, summ, ScanStmt(p, a), ScanStmt(p, b), g);
      ExecFiltered(p, globals, summ, a, g, l, fuel);
      var r := Exec(p, None, a, g, l, fuel);
      ReadyStep(p, globals, summ, ScanStmt(p, b), g, r.globals);
      ExecFiltered(p, globals, summ, b, r.globals, r.locals, fuel);
    case Define(x, e) =>
      ReadyJoin(p, globals, summ, NO_FACTS.(binds := {x}, locals := {x}), ScanExpr(p, e), g);
      EvalFiltered(p, globals, summ, e, g, l, fuel);
    case Assign(x, e) =>
      ReadyJoin(p, globals, summ, NO_FACTS.(uses := {x}, writes := {x}), ScanExpr(p, e), g);
      EvalFiltered(p, globals, summ, e, g, l, fuel);
    case IndexAssign(x, path, e) =>
      var fp, fe := ScanExprs(p, path), ScanExpr(p, e);
      ReadyJoin(p, globals, summ, NO_FACTS.(uses := {x}, writes := {x}), Join(fp, fe), g);
      ReadyJoin(p, globals, summ, fp, fe, g);
      EvalFiltered(p, globals, summ, e, g, l, fuel);
      var r := Eval(p, None, e, g, l, fuel);
      ReadyStep(p, globals, summ, fp, g, r.globals);
      EvalAllFiltered(p, globals, summ, path, r.globals, l, fuel);
    case If(c, a, b) =>
      var fa, fb := ScanStmt(p, a), ScanStmt(p, b);
      ReadyJoin(p, globals, summ, ScanExpr(p, c), Join(fa, fb), g);
      ReadyJoin(p, globals, summ, fa, fb, g);
      EvalFiltered(p, globals, summ, c, g, l, fuel);
      var r := Eval(p, None, c, g, l, fuel);
      ReadyStep(p, globals, summ, fa, g, r.globals);
      ReadyStep(p, globals, summ, fb, g, r.globals);
      ExecFiltered(p, globals, summ, a, r.globals, l, fuel);
      ExecFiltered(p, globals, summ, b, r.globals, l, fuel);
    case While(c, b) =>
      WhileFiltered(p, globals, summ, s, g, l, fuel);
    case Try(a, b) =>
      TryFiltered(p, globals, summ, s, g, l, fuel);
    case Return(e) =>
      EvalFiltered(p, globals, summ, e, g, l, fuel);
    case Do(e) =>
      EvalFiltered(p, globals, summ, e, g, l, fuel);
  }

  lemma {:induction false} WhileFiltered(p: Program, globals: set<Name>, summ: Summary, s: Stmt, g: Store, l: Store, fuel: nat)
    requires s.While? && Ready(p, globals, summ, ScanStmt(p, s), g)
    ensures Exec(p, Some(summ), s, g, l, fuel) == Exec(p, None, s, g, l, fuel)
    decreases fuel, s, 0
  {
    hide Ready, Join, Scope;
    var c, b := s.cond, s.body;
    ReadyJoin(p, globals, summ, ScanExpr(p, c), ScanStmt(p, b), g);
    EvalFiltered(p, globals, summ, c, g, l, fuel);
    var r := Eval(p, None, c, g, l, fuel);
    ReadyStep(p, globals, summ, ScanStmt(p, b), g, r.globals);
    if r.out.Val? && Truth(r.out.v) == Some(true) {
      ExecFiltered(p, globals, summ, b, r.globals, l, fuel);
      var rb := Close(Exec(p, None, b, r.globals, l, fuel), l);
      ReadyStep(p, globals, summ, ScanStmt(p, s), g, rb.globals);
      if rb.out.Next? && fuel > 0 { ExecFiltered(p, globals, summ, s, rb.globals, rb.locals, fuel - 1); }
    }
  }

  lemma {:induction false} TryFiltered(p: Program, globals: set<Name>, summ: Summary, s: Stmt, g: Store, l: Store, fuel: nat)
    requires s.Try? && Ready(p, globals, summ, ScanStmt(p, s), g)
    ensures Exec(p, Some(summ), s, g, l, fuel) == Exec(p, None, s, g, l, fuel)
    decreases fuel, s, 0
  {
    hide Ready, Join, Scope;
    var a, b := s.body, s.handler;
    ReadyJoin(p, globals, summ, ScanStmt(p, a), ScanStmt(p, b), g);
    ExecFiltered(p, globals, summ, a, g, l, fuel);
    var ra := Close(Exec(p, None, a, g, l, fuel), l);
    ReadyStep(p, globals, summ, ScanStmt(p, b), g, ra.globals);
    if ra.out.Fail? { ExecFiltered(p, globals, summ, b, ra.globals, ra.locals, fuel); }
  }
}
