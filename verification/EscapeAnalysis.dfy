/**
 computeEntryGlobalSafe: which methods can, over their named calls, never write a
 global. The worklists are exact, and on every run a safe method leaves every
 global as it found it.
 */
module EscapeAnalysis {
  import opened Options
  import opened Syntax
  import opened Scans
  import opened ValueSemantics
  import CallGraph

  function Calls(p: Program): CallGraph.Edges {
    map m | m in p.methods :: MethodFacts(p, m).callees
  }

  lemma {:induction false} CalleesAreMethodsE(p: Program, e: Expr)
    ensures ScanExpr(p, e).callees <= p.methods.Keys && ScanExpr(p, e).spawnCallees <= p.methods.Keys
    decreases e
  {
    match e
    case Bin(a, b) => CalleesAreMethodsE(p, a); CalleesAreMethodsE(p, b);
    case Index(a, b) => CalleesAreMethodsE(p, a); CalleesAreMethodsE(p, b);
    case ListLit(es) => CalleesAreMethodsEs(p, es);
    case Call(_, es) => CalleesAreMethodsEs(p, es);
    case CallValue(c, es) => CalleesAreMethodsE(p, c); CalleesAreMethodsEs(p, es);
    case Spawn(s) => CalleesAreMethods(p, s);
    case _ =>
  }

  lemma {:induction false} CalleesAreMethodsEs(p: Program, es: Exprs)
    ensures ScanExprs(p, es).callees <= p.methods.Keys && ScanExprs(p, es).spawnCallees <= p.methods.Keys
    decreases es
  {
    match es
    case ENil =>
    case ECons(e, tl) => CalleesAreMethodsE(p, e); CalleesAreMethodsEs(p, tl);
  }

  lemma {:induction false} CalleesAreMethods(p: Program, s: Stmt)
    ensures ScanStmt(p, s).callees <= p.methods.Keys && ScanStmt(p, s).spawnCallees <= p.methods.Keys
    decreases s
  {
    match s
    case Skip =>
    case Seq(a, b) => CalleesAreMethods(p, a); CalleesAreMethods(p, b);
    case Define(_, e) => CalleesAreMethodsE(p, e);
    case Assign(_, e) => CalleesAreMethodsE(p, e);
    case IndexAssign(_, path, e) => CalleesAreMethodsEs(p, path); CalleesAreMethodsE(p, e);
    case If(c, a, b) => CalleesAreMethodsE(p, c); CalleesAreMethods(p, a); CalleesAreMethods(p, b);
    case While(c, b) => CalleesAreMethodsE(p, c); CalleesAreMethods(p, b);
    case Try(a, b) => CalleesAreMethods(p, a); CalleesAreMethods(p, b);
    case Return(e) => CalleesAreMethodsE(p, e);
    case Do(e) => CalleesAreMethodsE(p, e);
  }

  /** The scan's `unsafe` flag: a dynamic call, or a write whose root is not method-local. */
  predicate DirectHazard(p: Program, m: Name)
    requires m in p.methods
  {
    MethodFacts(p, m).dynamic || !(MethodFacts(p, m).writes <= MethodLocals(p, m))
  }

  function Hazards(p: Program): set<Name> {
    set m | m in p.methods && DirectHazard(p, m)
  }

  function Reenterers(p: Program): set<Name> {
    set m | m in p.methods && MethodFacts(p, m).dynamic
  }

  /** Some spawn in a body with these facts can re-enter the host. */
  ghost predicate SpawnReenters(p: Program, f: Facts) {
    f.spawnDynamic || exists c :: c in f.spawnCallees && CallGraph.ReachesAny(Calls(p), c, Reenterers(p))
  }

  /**
   The stamps: `safe` is GlobalSafe, `reentryFree` is ReentryFree, and `reentry` is
   the host's spawnReentry mark, taken over every method and the top-level code.
   */
  method ComputeEntryGlobalSafe(p: Program, order: seq<Name>, top: Stmt)
      returns (safe: set<Name>, reentryFree: set<Name>, reentry: bool)
    requires forall m :: m in order <==> m in p.methods
    ensures forall m :: m in safe <==> m in p.methods && !CallGraph.ReachesAny(Calls(p), m, Hazards(p))
    ensures forall m :: m in reentryFree <==> m in p.methods && !CallGraph.ReachesAny(Calls(p), m, Reenterers(p))
    ensures reentry <==>
              SpawnReenters(p, ScanStmt(p, top)) || exists m :: m in p.methods && SpawnReenters(p, MethodFacts(p, m))
  {
    var edges := Calls(p);
    forall m | m in p.methods ensures MethodFacts(p, m).callees <= p.methods.Keys {
      CalleesAreMethods(p, p.methods[m].body);
    }
    hide ScanStmt, ScanExpr, ScanExprs;
    var unsafe := CallGraph.Propagate(edges, order, Hazards(p));
    var reenters := CallGraph.Propagate(edges, order, Reenterers(p));
    safe := p.methods.Keys - unsafe;
    reentryFree := p.methods.Keys - reenters;
    reentry := false;
    for i := 0 to |order|
      invariant reentry <==> exists m :: m in order[..i] && SpawnReenters(p, MethodFacts(p, m))
    {
      var found := SpawnScan(p, MethodFacts(p, order[i]), reenters);
      CalleesAreMethods(p, p.methods[order[i]].body);
      if found {
        reentry := true;
      }
    }
    if !reentry {
      CalleesAreMethods(p, top);
      reentry := SpawnScan(p, ScanStmt(p, top), reenters);
    }
  }

  method SpawnScan(p: Program, f: Facts, reenters: set<Name>) returns (found: bool)
    requires forall m :: m in reenters <==> m in p.methods && CallGraph.ReachesAny(Calls(p), m, Reenterers(p))
    ensures f.spawnCallees <= p.methods.Keys ==> (found <==> SpawnReenters(p, f))
  {
    found := f.spawnDynamic || exists c :: c in f.spawnCallees && c in reenters;
  }

  // ----- what the stamp means -----

  /** Code that can reach no global write: no dynamic call, only safe callees, only local writes. */
  ghost predicate Quiet(safe: set<Name>, f: Facts, locals: set<Name>) {
    !f.dynamic && f.callees <= safe && f.writes <= locals
  }

  ghost predicate SafeSet(p: Program, globals: set<Name>, safe: set<Name>) {
    && safe <= p.methods.Keys
    && forall m :: m in safe ==> Quiet(safe, MethodFacts(p, m), MethodLocals(p, m)) && MethodLocals(p, m) !! globals
  }

  /** The methods the worklist leaves unmarked form such a set. */
  lemma UnmarkedIsSafeSet(p: Program, globals: set<Name>, safe: set<Name>)
    requires WellFormed(p, globals)
    requires forall m :: m in safe <==> m in p.methods && !CallGraph.ReachesAny(Calls(p), m, Hazards(p))
    ensures SafeSet(p, globals, safe)
  {
    forall m | m in safe
      ensures Quiet(safe, MethodFacts(p, m), MethodLocals(p, m)) && MethodLocals(p, m) !! globals
    {
      CallGraph.ReachesSelf(Calls(p), m);
      assert m !in Hazards(p);
      CalleesAreMethods(p, p.methods[m].body);
      LocalsNotGlobal(p, globals, m);
      forall c | c in MethodFacts(p, m).callees ensures c in safe {
        if c !in safe {
          CallGraph.CallerReaches(Calls(p), m, c, Hazards(p));
        }
      }
    }
  }

  lemma LocalsNotGlobal(p: Program, globals: set<Name>, m: Name)
    requires WellFormed(p, globals) && m in p.methods
    ensures MethodLocals(p, m) !! globals
  {
    LocalsAreBinds(p, p.methods[m].body);
  }

  ghost predicate Calm(p: Program, globals: set<Name>, safe: set<Name>, f: Facts, locals: set<Name>, g: Store) {
    SafeSet(p, globals, safe) && Quiet(safe, f, locals) && locals !! globals && g.Keys <= globals
  }

  lemma CalmJoin(p: Program, globals: set<Name>, safe: set<Name>, a: Facts, b: Facts, locals: set<Name>, g: Store)
    requires Calm(p, globals, safe, Join(a, b), locals, g)
    ensures Calm(p, globals, safe, a, locals, g) && Calm(p, globals, safe, b, locals, g)
  {
    hide SafeSet;
  }

  lemma CalmCallee(p: Program, globals: set<Name>, safe: set<Name>, f: Facts, locals: set<Name>, g: Store, m: Name)
    requires Calm(p, globals, safe, f, locals, g) && m in f.callees
    ensures m in p.methods && Calm(p, globals, safe, MethodFacts(p, m), MethodLocals(p, m), g)
  {
  }

  lemma {:induction false} EvalKeepsGlobals(p: Program, caps: Option<Summary>, globals: set<Name>, safe: set<Name>,
                                            e: Expr, locals: set<Name>, g: Store, l: Store, fuel: nat)
    requires Calm(p, globals, safe, ScanExpr(p, e), locals, g)
    ensures Eval(p, caps, e, g, l, fuel).globals == g
    decreases fuel, e, 0
  {
    hide Calm;
    match e
    case Bin(a, b) =>
      CalmJoin(p, globals, safe, ScanExpr(p, a), ScanExpr(p, b), locals, g);
      EvalKeepsGlobals(p, caps, globals, safe, a, locals, g, l, fuel);
      EvalKeepsGlobals(p, caps, globals, safe, b, locals, g, l, fuel);
    case Index(a, b) =>
      CalmJoin(p, globals, safe, ScanExpr(p, a), ScanExpr(p, b), locals, g);
      EvalKeepsGlobals(p, caps, globals, safe, a, locals, g, l, fuel);
      EvalKeepsGlobals(p, caps, globals, safe, b, locals, g, l, fuel);
    case ListLit(es) =>
      EvalAllKeepsGlobals(p, caps, globals, safe, es, locals, g, l, fuel);
    case Call(f, es) =>
      if f in p.methods {
        CalmJoin(p, globals, safe, NO_FACTS.(callees := {f}), ScanExprs(p, es), locals, g);
        InvokeKeepsGlobals(p, caps, globals, safe, f, es, locals, g, l, fuel);
      }
    case CallValue(c, es) =>
      CalmDynamic(p, globals, safe, ScanExpr(p, e), locals, g);
    case _ =>
  }

  lemma CalmDynamic(p: Program, globals: set<Name>, safe: set<Name>, f: Facts, locals: set<Name>, g: Store)
    requires Calm(p, globals, safe, f, locals, g)
    ensures !f.dynamic
  {
    hide SafeSet;
  }

  lemma {:induction false} EvalAllKeepsGlobals(p: Program, caps: Option<Summary>, globals: set<Name>, safe: set<Name>,
                                               es: Exprs, locals: set<Name>, g: Store, l: Store, fuel: nat)
    requires Calm(p, globals, safe, ScanExprs(p, es), locals, g)
    ensures EvalAll(p, caps, es, g, l, fuel).globals == g
    decreases fuel, es, 0
  {
    hide Calm;
    match es
    case ENil =>
    case ECons(e, tl) =>
      CalmJoin(p, globals, safe, ScanExpr(p, e), ScanExprs(p, tl), locals, g);
      EvalKeepsGlobals(p, caps, globals, safe, e, locals, g, l, fuel);
      EvalAllKeepsGlobals(p, caps, globals, safe, tl, locals, g, l, fuel);
  }

  /** Calling a safe method changes no global. */
  lemma {:induction false} InvokeKeepsGlobals(p: Program, caps: Option<Summary>, globals: set<Name>, safe: set<Name>,
                                              f: Name, es: Exprs, locals: set<Name>, g: Store, l: Store, fuel: nat)
    requires f in p.methods && Calm(p, globals, safe, NO_FACTS.(callees := {f}), locals, g)
    requires Calm(p, globals, safe, ScanExprs(p, es), locals, g)
    ensures Invoke(p, caps, f, es, g, l, fuel).globals == g
    decreases fuel, es, 1
  {
    hide Calm;
    EvalAllKeepsGlobals(p, caps, globals, safe, es, locals, g, l, fuel);
    var ra := EvalAll(p, caps, es, g, l, fuel);
    var m := p.methods[f];
    if fuel > 0 && ra.out.Val? && |m.params| == Len(es) {
      CalmCallee(p, globals, safe, NO_FACTS.(callees := {f}), locals, g, f);
      ExecKeepsGlobals(p, caps, globals, safe, m.body, MethodLocals(p, f), g, Bind(m.params, ra.out.v), fuel - 1);
    }
  }

  lemma WriteIsLocal(p: Program, globals: set<Name>, safe: set<Name>, f: Facts, locals: set<Name>, g: Store, x: Name)
    requires Calm(p, globals, safe, f, locals, g) && x in f.writes
    ensures x !in g
  {
    hide SafeSet;
  }

  /** Main result: on every run, quiet code leaves every global exactly as it was. */
  lemma {:induction false} ExecKeepsGlobals(p: Program, caps: Option<Summary>, globals: set<Name>, safe: set<Name>,
                                            s: Stmt, locals: set<Name>, g: Store, l: Store, fuel: nat)
    requires Calm(p, globals, safe, ScanStmt(p, s), locals, g)
    ensures Exec(p, caps, s, g, l, fuel).globals == g
    decreases fuel, s, 1
  {
    hide Calm, Scope, Update, Join;
    match s
    case Skip =>
    case Seq(a, b) =>
      CalmJoin(p, globals, safe, ScanStmt(p, a), ScanStmt(p, b), locals, g);
      ExecKeepsGlobals(p, caps, globals, safe, a, locals, g, l, fuel);
      ExecKeepsGlobals(p, caps, globals, safe, b, locals, g, Exec(p, caps, a, g, l, fuel).locals, fuel);
    case Define(x, e) =>
      CalmJoin(p, globals, safe, NO_FACTS.(binds := {x}, locals := {x}), ScanExpr(p, e), locals, g);
      EvalKeepsGlobals(p, caps, globals, safe, e, locals, g, l, fuel);
    case Assign(x, e) =>
      var own := NO_FACTS.(uses := {x}, writes := {x});
      CalmJoin(p, globals, safe, own, ScanExpr(p, e), locals, g);
      WriteIsLocal(p, globals, safe, own, locals, g, x);
      EvalKeepsGlobals(p, caps, globals, safe, e, locals, g, l, fuel);
    case IndexAssign(x, path, e) =>
      var own := NO_FACTS.(uses := {x}, writes := {x});
      CalmJoin(p, globals, safe, own, Join(ScanExprs(p, path), ScanExpr(p, e)), locals, g);
      CalmJoin(p, globals, safe, ScanExprs(p, path), ScanExpr(p, e), locals, g);
      WriteIsLocal(p, globals, safe, own, locals, g, x);
      EvalKeepsGlobals(p, caps, globals, safe, e, locals, g, l, fuel);
      EvalAllKeepsGlobals(p, caps, globals, safe, path, locals, g, l, fuel);
    case If(c, a, b) =>
      CalmJoin(p, globals, safe, ScanExpr(p, c), Join(ScanStmt(p, a), ScanStmt(p, b)), locals, g);
      CalmJoin(p, globals, safe, ScanStmt(p, a), ScanStmt(p, b), locals, g);
      EvalKeepsGlobals(p, caps, globals, safe, c, locals, g, l, fuel);
      var r := Eval(p, caps, c, g, l, fuel);
      if r.out.Val? && Truth(r.out.v).Some? {
        ExecKeepsGlobals(p, caps, globals, safe, if Truth(r.out.v).value then a else b, locals, g, l, fuel);
      }
    case While(c, b) =>
      WhileKeepsGlobals(p, caps, globals, safe, s, locals, g, l, fuel);
    case Try(a, b) =>
      CalmJoin(p, globals, safe, ScanStmt(p, a), ScanStmt(p, b), locals, g);
      ExecKeepsGlobals(p, caps, globals, safe, a, locals, g, l, fuel);
      var ra := Close(Exec(p, caps, a, g, l, fuel), l);
      ExecKeepsGlobals(p, caps, globals, safe, b, locals, g, ra.locals, fuel);
    case Return(e) => EvalKeepsGlobals(p, caps, globals, safe, e, locals, g, l, fuel);
    case Do(e) => EvalKeepsGlobals(p, caps, globals, safe, e, locals, g, l, fuel);
  }

  lemma {:induction false} WhileKeepsGlobals(p: Program, caps: Option<Summary>, globals: set<Name>, safe: set<Name>,
                                             s: Stmt, locals: set<Name>, g: Store, l: Store, fuel: nat)
    requires s.While? && Calm(p, globals, safe, ScanStmt(p, s), locals, g)
    ensures Exec(p, caps, s, g, l, fuel).globals == g
    decreases fuel, s, 0
  {
    hide Calm, Scope;
    var c, b := s.cond, s.body;
    CalmJoin(p, globals, safe, ScanExpr(p, c), ScanStmt(p, b), locals, g);
    EvalKeepsGlobals(p, caps, globals, safe, c, locals, g, l, fuel);
    var r := Eval(p, caps, c, g, l, fuel);
    if r.out.Val? && Truth(r.out.v) == Some(true) {
      ExecKeepsGlobals(p, caps, globals, safe, b, locals, g, l, fuel);
      var rb := Close(Exec(p, caps, b, g, l, fuel), l);
      if rb.out.Next? && fuel > 0 { ExecKeepsGlobals(p, caps, globals, safe, s, locals, g, rb.locals, fuel - 1); }
    }
  }
}
