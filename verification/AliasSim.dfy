/**
 The interpreter with aliasing, in-place writes, borrowed parameters, argument
 snapshots and filtered spawns computes exactly what the value semantics say.
 */
module AliasSim {
  import opened Syntax
  import opened Scans
  import opened ValueSemantics
  import opened AliasHeap
  import opened ArgSnapshots
  import opened AliasEval
  import opened AliasInvariant
  import opened AliasStores

  /** Evaluating the expression may write a global: there is a mutable one, and the scan does not clear the expression. */
  predicate MayWrite(mutables: set<Name>, safe: set<Name>, e: Expr) { mutables != {} && MayMutate(safe, e) }
  predicate AnyWrites(mutables: set<Name>, safe: set<Name>, es: Exprs) { mutables != {} && AnyMutates(safe, es) }

  /** The value may live in a mutable global's backing: rooted at a global, or handed out by a call. */
  predicate Aliasing(globals: set<Name>, e: Expr) {
    match e
    case Var(x) => x in globals
    case Index(a, _) => Aliasing(globals, a)
    case Call(_, _) => true
    case CallValue(_, _) => true
    case _ => false
  }

  predicate CallRooted(e: Expr) {
    match e
    case Index(a, _) => CallRooted(a)
    case Call(_, _) => true
    case CallValue(_, _) => true
    case _ => false
  }

  /**
   Code that never holds an uncopied alias across an expression that may write
   globals: an indexed value before its index, a call's result before a later
   argument, an assigned value before its target's indices. (An argument that is a
   global, or an element of one, is fine: the snapshots are there for it.)
   */
  predicate Settled(mutables: set<Name>, safe: set<Name>, e: Expr) {
    match e
    case Lit(_) => true
    case Var(_) => true
    case Bin(a, b) => Settled(mutables, safe, a) && Settled(mutables, safe, b)
    case Index(a, b) => Settled(mutables, safe, a) && Settled(mutables, safe, b) && (Aliasing(mutables, a) ==> !MayWrite(mutables, safe, b))
    case ListLit(es) => SettledAll(mutables, safe, es)
    case Call(_, es) => SettledAll(mutables, safe, es) && SettledArgs(mutables, safe, es)
    case CallValue(fn, es) => Settled(mutables, safe, fn) && SettledAll(mutables, safe, es) && SettledArgs(mutables, safe, es)
    case Spawn(s) => SettledStmt(mutables, safe, s)
  }

  predicate SettledAll(mutables: set<Name>, safe: set<Name>, es: Exprs) {
    match es
    case ENil => true
    case ECons(e, tl) => Settled(mutables, safe, e) && SettledAll(mutables, safe, tl)
  }

  predicate SettledArgs(mutables: set<Name>, safe: set<Name>, es: Exprs) {
    match es
    case ENil => true
    case ECons(e, tl) => (CallRooted(e) ==> !AnyWrites(mutables, safe, tl)) && SettledArgs(mutables, safe, tl)
  }

  predicate SettledStmt(mutables: set<Name>, safe: set<Name>, s: Stmt) {
    match s
    case Skip => true
    case Seq(a, b) => SettledStmt(mutables, safe, a) && SettledStmt(mutables, safe, b)
    case Define(_, e) => Settled(mutables, safe, e)
    case Assign(_, e) => Settled(mutables, safe, e)
    case IndexAssign(_, path, e) =>
      Settled(mutables, safe, e) && SettledAll(mutables, safe, path) && (Aliasing(mutables, e) ==> !AnyWrites(mutables, safe, path))
    case If(e, a, b) => Settled(mutables, safe, e) && SettledStmt(mutables, safe, a) && SettledStmt(mutables, safe, b)
    case While(e, b) => Settled(mutables, safe, e) && SettledStmt(mutables, safe, b)
    case Try(a, b) => SettledStmt(mutables, safe, a) && SettledStmt(mutables, safe, b)
    case Return(e) => Settled(mutables, safe, e)
    case Do(e) => Settled(mutables, safe, e)
  }

  ghost predicate Distinct(params: seq<Name>) {
    forall i, j :: 0 <= i < j < |params| ==> params[i] != params[j]
  }

  /** What load time guarantees. */
  ghost predicate Loaded(c: Config) {
    && WellFormed(c.p, c.globals) && EscapeAnalysis.SafeSet(c.p, c.globals, c.safe)
    && forall m :: m in c.p.methods ==> Distinct(c.p.methods[m].params) && SettledStmt(Mutables(c), c.safe, c.p.methods[m].body)
  }

  /** Code with these facts may run in this frame. */
  ghost predicate Fit(c: Config, cx: Ctx, f: Facts, g: Store) {
    && Loaded(c) && g.Keys <= c.globals && f.writes !! cx.bor && cx.consts == c.p.consts
    && (cx.loud || Frozen(c) || EscapeAnalysis.Calm(c.p, c.globals, c.safe, f, cx.locals, g))
  }

  lemma FitJoin(c: Config, cx: Ctx, a: Facts, b: Facts, g: Store)
    requires Fit(c, cx, Join(a, b), g)
    ensures Fit(c, cx, a, g) && Fit(c, cx, b, g)
  {
    if !cx.loud && !Frozen(c) { EscapeAnalysis.CalmJoin(c.p, c.globals, c.safe, a, b, cx.locals, g); }
    hide Loaded, EscapeAnalysis.Calm;
  }

  lemma FitStep(c: Config, cx: Ctx, f: Facts, g: Store, g': Store)
    requires Fit(c, cx, f, g) && g'.Keys == g.Keys
    ensures Fit(c, cx, f, g')
  {
    hide Loaded, EscapeAnalysis.SafeSet, EscapeAnalysis.Quiet;
  }

  lemma FitLoaded(c: Config, cx: Ctx, f: Facts, g: Store)
    requires Fit(c, cx, f, g)
    ensures Loaded(c) && g.Keys <= c.globals && cx.consts == c.p.consts
  {
  }

  function Hushed(cx: Ctx): Ctx { cx.(loud := false, locals := {}) }

  /** Cleared code runs as quiet code. */
  lemma FitHushed(c: Config, cx: Ctx, es: Exprs, g: Store)
    requires Fit(c, cx, ScanExprs(c.p, es), g) && !AnyWrites(Mutables(c), c.safe, es)
    ensures Fit(c, Hushed(cx), ScanExprs(c.p, es), g)
  {
    if !Frozen(c) { AllClearedIsQuiet(c.p, c.safe, es, {}); }
    hide EscapeAnalysis.Quiet;
  }

  lemma FitHushedOne(c: Config, cx: Ctx, e: Expr, g: Store)
    requires Fit(c, cx, ScanExpr(c.p, e), g) && !MayWrite(Mutables(c), c.safe, e)
    ensures Fit(c, Hushed(cx), ScanExpr(c.p, e), g)
  {
    if !Frozen(c) { ClearedIsQuiet(c.p, c.safe, e, {}); }
    hide EscapeAnalysis.Quiet;
  }

  lemma InvHushed(h: Heap, cx: Ctx, hg: RefStore, hl: RefStore, g: Store, l: Store)
    requires Inv(h, cx, hg, hl, g, l)
    ensures Inv(h, Hushed(cx), hg, hl, g, l)
  {
    hide Owned, Rep, Avoids;
    forall x | x in l ensures LocalOk(h, Hushed(cx), x, hl[x], l[x]) {
      assert LocalOk(h, cx, x, hl[x], l[x]);
    }
  }

  // ----- outcomes -----

  ghost predicate OutSim(h: Heap, ban: set<nat>, o': Out<Ref>, o: Out<Tree>) {
    match o
    case Next => o'.Next?
    case Fail => o'.Fail?
    case NoFuel => o'.NoFuel?
    case Val(t) => o'.Val? && Rep(h, o'.v, t) && Avoids(h, o'.v, t, ban)
  }

  ghost predicate ExprSim(h: Heap, cx: Ctx, r': ExprRun<Ref>, r: ExprResult<Tree>) {
    && Evolves(h, r'.heap, Hot(cx)) && GlobalsOwned(r'.heap, cx.consts, cx.at.world, r'.globals, r.globals)
    && OutSim(r'.heap, cx.ban, r'.out, r.out)
  }

  /** The value touches no live global's backing. */
  ghost predicate Private(h: Heap, cx: Ctx, o': Out<Ref>, o: Out<Tree>) {
    cx.bor == {} && o'.Val? && o.Val? ==> Avoids(h, o'.v, o.v, {cx.at.world})
  }

  ghost predicate StmtSim(h: Heap, cx: Ctx, r': StmtRun, r: StmtResult) {
    Leaves(h, cx, r', r) && OutSim(r'.heap, cx.ban, r'.out, r.out)
  }

  /** A held value stays good across an expression that cannot write what it touches. */
  lemma HeldStays(h: Heap, h': Heap, cx: Ctx, v: Ref, t: Tree, o': Out<Ref>, o: Out<Tree>)
    requires Inv0(cx) && o' == Val(v) && o == Val(t) && Rep(h, v, t) && Avoids(h, v, t, cx.ban)
    requires Evolves(h, h', Hot(cx)) && (cx.loud ==> Private(h, cx, o', o))
    ensures Rep(h', v, t) && Avoids(h', v, t, cx.ban) && (Private(h, cx, o', o) ==> Private(h', cx, o', o))
  {
    hide Rep, Evolves;
    if !cx.loud { AvoidsNothing(h, v, t, cx.ban); }
    AvoidsStay(h, h', Hot(cx), v, t, cx.ban);
    AvoidsStay(h, h', Hot(cx), v, t, {cx.at.world});
  }

  ghost predicate Inv0(cx: Ctx) { cx.loud ==> cx.bor == {} }

  lemma HushedEvolves(h: Heap, h': Heap, cx: Ctx)
    requires Evolves(h, h', Hot(Hushed(cx)))
    ensures Evolves(h, h', Hot(cx))
  {
    EvolvesMore(h, h', {}, Hot(cx));
  }

  lemma SelectSim(h: Heap, cx: Ctx, va: Ref, ta: Tree, vb: Ref, tb: Tree)
    requires Rep(h, va, ta) && Avoids(h, va, ta, cx.ban) && Alike(vb, tb)
    ensures OutSim(h, cx.ban, SelectRef(h, va, vb), Select(ta, tb))
    ensures Private(h, cx, Val(va), Val(ta)) ==> Private(h, cx, SelectRef(h, va, vb), Select(ta, tb))
  {
    if Select(ta, tb).Val? {
      forall a: nat | Touches(h, SelectRef(h, va, vb).v, Select(ta, tb).v, a) ensures Touches(h, va, ta, a) {}
    }
  }

  lemma AvoidsLess(h: Heap, v: Ref, t: Tree, ban: set<nat>, k: nat)
    requires Avoids(h, v, t, ban + {k})
    ensures Avoids(h, v, t, ban)
  {
  }

  // ----- expressions -----

  ghost predicate SameKind<A, B>(o': Out<A>, o: Out<B>) {
    o'.Next? == o.Next? && o'.Fail? == o.Fail? && o'.NoFuel? == o.NoFuel?
  }

  ghost predicate ListSim(h: Heap, cx: Ctx, r': ExprRun<seq<Ref>>, r: ExprResult<seq<Tree>>) {
    && Evolves(h, r'.heap, Hot(cx)) && GlobalsOwned(r'.heap, cx.consts, cx.at.world, r'.globals, r.globals)
    && SameKind(r'.out, r.out)
  }

  lemma OutKinds(h: Heap, ban: set<nat>, o': Out<Ref>, o: Out<Tree>)
    requires OutSim(h, ban, o', o)
    ensures SameKind(o', o) && o'.Val? == o.Val? && (o.Val? ==> Alike(o'.v, o.v) && Rep(h, o'.v, o.v) && Avoids(h, o'.v, o.v, ban))
  {
    if o.Val? { RepAlike(h, o'.v, o.v); }
    hide Rep, Avoids;
  }

  /** After one expression, the frame is ready for the next. */
  lemma After(c: Config, cx: Ctx, f: Facts, h: Heap, hg: RefStore, hl: RefStore, g: Store, l: Store,
              r': ExprRun<Ref>, r: ExprResult<Tree>)
    requires Inv(h, cx, hg, hl, g, l) && Fit(c, cx, f, g) && ExprSim(h, cx, r', r) && r.globals.Keys == g.Keys
    ensures Inv(r'.heap, cx, r'.globals, hl, r.globals, l) && Fit(c, cx, f, r.globals)
    ensures Evolves(h, r'.heap, Hot(cx)) && Inv0(cx)
    ensures SameKind(r'.out, r.out) && r'.out.Val? == r.out.Val?
    ensures r.out.Val? ==> Alike(r'.out.v, r.out.v) && Rep(r'.heap, r'.out.v, r.out.v) && Avoids(r'.heap, r'.out.v, r.out.v, cx.ban)
  {
    hide Rep, Avoids, Alike, Evolves, GlobalsOwned, LocalsOk, Fit;
    OutKinds(r'.heap, cx.ban, r'.out, r.out);
    InvStep(h, r'.heap, cx, hg, hl, g, l, r'.globals, r.globals);
    FitStep(c, cx, f, g, r.globals);
  }

  lemma ExprThen(h: Heap, h1: Heap, cx: Ctx, r': ExprRun<Ref>, r: ExprResult<Tree>)
    requires Evolves(h, h1, Hot(cx)) && ExprSim(h1, cx, r', r)
    ensures ExprSim(h, cx, r', r)
  {
    hide GlobalsOwned, OutSim;
    EvolvesTrans(h, h1, r'.heap, Hot(cx));
  }

  /** The frame in which a later operand runs: hushed when the scan clears it. */
  function Later(c: Config, cx: Ctx, e: Expr): Ctx { if MayWrite(Mutables(c), c.safe, e) then cx else Hushed(cx) }
  function LaterAll(c: Config, cx: Ctx, es: Exprs): Ctx { if AnyWrites(Mutables(c), c.safe, es) then cx else Hushed(cx) }

  lemma LaterFit(c: Config, cx: Ctx, e: Expr, h: Heap, hg: RefStore, hl: RefStore, g: Store, l: Store)
    requires Inv(h, cx, hg, hl, g, l) && Fit(c, cx, ScanExpr(c.p, e), g)
    ensures Inv(h, Later(c, cx, e), hg, hl, g, l) && Fit(c, Later(c, cx, e), ScanExpr(c.p, e), g)
  {
    hide Inv, Fit;
    if !MayWrite(Mutables(c), c.safe, e) { FitHushedOne(c, cx, e, g); InvHushed(h, cx, hg, hl, g, l); }
  }

  lemma LaterAllFit(c: Config, cx: Ctx, es: Exprs, h: Heap, hg: RefStore, hl: RefStore, g: Store, l: Store)
    requires Inv(h, cx, hg, hl, g, l) && Fit(c, cx, ScanExprs(c.p, es), g)
    ensures Inv(h, LaterAll(c, cx, es), hg, hl, g, l) && Fit(c, LaterAll(c, cx, es), ScanExprs(c.p, es), g)
  {
    hide Inv, Fit;
    if !AnyWrites(Mutables(c), c.safe, es) { FitHushed(c, cx, es, g); InvHushed(h, cx, hg, hl, g, l); }
  }

  /** A simulation in the later frame is one in the frame itself. */
  lemma LaterExpr(h: Heap, cx: Ctx, cl: Ctx, r': ExprRun<Ref>, r: ExprResult<Tree>)
    requires (cl == cx || cl == Hushed(cx)) && ExprSim(h, cl, r', r)
    ensures ExprSim(h, cx, r', r)
  {
    hide Evolves, GlobalsOwned, OutSim;
    if cl == Hushed(cx) { HushedEvolves(h, r'.heap, cx); }
  }

  lemma LaterList(h: Heap, cx: Ctx, cl: Ctx, r': ExprRun<seq<Ref>>, r: ExprResult<seq<Tree>>)
    requires (cl == cx || cl == Hushed(cx)) && ListSim(h, cl, r', r)
    ensures ListSim(h, cx, r', r)
  {
    hide Evolves, GlobalsOwned, SameKind;
    if cl == Hushed(cx) { HushedEvolves(h, r'.heap, cx); }
  }

  /** A value held while a later operand runs: fine if it is private, or if the operand is hushed. */
  lemma HeldAcross(h: Heap, h': Heap, cx: Ctx, cl: Ctx, v: Ref, t: Tree)
    requires Inv0(cx) && Rep(h, v, t) && Avoids(h, v, t, cx.ban) && Evolves(h, h', Hot(cl))
    requires cl == Hushed(cx) || (cl == cx && Private(h, cx, Val(v), Val(t)))
    ensures Rep(h', v, t) && Avoids(h', v, t, cx.ban) && (Private(h, cx, Val(v), Val(t)) ==> Private(h', cx, Val(v), Val(t)))
  {
    HeldStays(h, h', cl, v, t, Val(v), Val(t));
  }

  /** One expression of one frame: same outcome, and private unless it may alias a global. */
  ghost predicate Simulated(c: Config, cx: Ctx, e: Expr, h: Heap, hg: RefStore, hl: RefStore, g: Store, l: Store, fuel: nat) {
    var r', r := Run(c, e, h, cx.at, hg, hl, fuel), Eval(c.p, c.caps, e, g, l, fuel);
    ExprSim(h, cx, r', r) && (!Aliasing(Mutables(c), e) ==> Private(r'.heap, cx, r'.out, r.out))
  }

  lemma {:induction false} RunSim(c: Config, cx: Ctx, e: Expr, h: Heap, hg: RefStore, hl: RefStore, g: Store, l: Store, fuel: nat)
    requires Inv(h, cx, hg, hl, g, l) && Fit(c, cx, ScanExpr(c.p, e), g) && Settled(Mutables(c), c.safe, e)
    ensures Simulated(c, cx, e, h, hg, hl, g, l, fuel)
    decreases fuel, e, 1
  {
    hide Simulated, Inv, Fit;
    match e
    case Lit(s) => LitSim(c, cx, e, h, hg, hl, g, l, fuel);
    case Var(x) => VarSim(c, cx, e, h, hg, hl, g, l, fuel);
    case Bin(a, b) => BinSim(c, cx, e, h, hg, hl, g, l, fuel);
    case Index(a, b) => IndexSim(c, cx, e, h, hg, hl, g, l, fuel);
    case ListLit(es) =>
      ElemsSim(c, cx, es, h, hg, hl, g, l, fuel);
      LitCellSim(c, cx, e, h, hg, hl, g, l, fuel);
    case Call(f, es) => NamedCallSim(c, cx, e, h, hg, hl, g, l, fuel);
    case CallValue(fn, es) => CallValueSim(c, cx, e, h, hg, hl, g, l, fuel);
    case Spawn(s) => SpawnSim(c, cx, e, h, hg, hl, g, l, fuel);
  }

  lemma VarSim(c: Config, cx: Ctx, e: Expr, h: Heap, hg: RefStore, hl: RefStore, g: Store, l: Store, fuel: nat)
    requires e.Var? && Inv(h, cx, hg, hl, g, l) && Fit(c, cx, ScanExpr(c.p, e), g)
    ensures Simulated(c, cx, e, h, hg, hl, g, l, fuel)
  {
    FitLoaded(c, cx, ScanExpr(c.p, e), g);
    hide Rep, Owned, Touches, Fit, Loaded;
    InvWf(h, cx, hg, hl, g, l);
    var x := e.x;
    if x in l {
      LocalRead(h, cx, x, hl, l);
    } else if x in g {
      OwnedAvoids(h, hg[x], g[x], GlobalTag(cx.consts, cx.at.world, x), cx.ban);
      if x in cx.consts { OwnedAvoids(h, hg[x], g[x], ConstOf(x), {cx.at.world}); }
    }
    hide Avoids, Evolves;
  }

  lemma LocalRead(h: Heap, cx: Ctx, x: Name, hl: RefStore, l: Store)
    requires CtxOk(h, cx) && LocalsOk(h, cx, hl, l) && x in l
    ensures Rep(h, hl[x], l[x]) && Avoids(h, hl[x], l[x], cx.ban) && Private(h, cx, Val(hl[x]), Val(l[x]))
  {
    hide Rep, Owned, Touches;
    assert LocalOk(h, cx, x, hl[x], l[x]);
    if x in cx.bor {
      AvoidsLess(h, hl[x], l[x], cx.ban, cx.at.frame);
    } else {
      OwnedAvoids(h, hl[x], l[x], LocalOf(cx.at.frame, x), cx.ban);
      OwnedAvoids(h, hl[x], l[x], LocalOf(cx.at.frame, x), {cx.at.world});
    }
  }

  lemma LitSim(c: Config, cx: Ctx, e: Expr, h: Heap, hg: RefStore, hl: RefStore, g: Store, l: Store, fuel: nat)
    requires e.Lit? && Inv(h, cx, hg, hl, g, l)
    ensures Simulated(c, cx, e, h, hg, hl, g, l, fuel)
  {
    InvWf(h, cx, hg, hl, g, l);
    hide Inv, Evolves, GlobalsOwned;
    ScalarSim(h, cx, hg, g, Val(Imm(e.s)), Val(Atom(e.s)), h);
  }

  lemma ScalarSim(h: Heap, cx: Ctx, hg: RefStore, g: Store, o': Out<Ref>, o: Out<Tree>, h0: Heap)
    requires Evolves(h0, h, Hot(cx)) && GlobalsOwned(h, cx.consts, cx.at.world, hg, g)
    requires (o'.Fail? && o.Fail?) || (o'.Val? && o.Val? && o'.v.Imm? && o.v == Atom(o'.v.s))
    ensures ExprSim(h0, cx, XR(o', h, hg), ER(o, g)) && Private(h, cx, o', o)
  {
  }

  lemma {:induction false} BinSim(c: Config, cx: Ctx, e: Expr, h: Heap, hg: RefStore, hl: RefStore, g: Store, l: Store, fuel: nat)
    requires e.Bin? && Inv(h, cx, hg, hl, g, l) && Fit(c, cx, ScanExpr(c.p, e), g) && Settled(Mutables(c), c.safe, e)
    ensures Simulated(c, cx, e, h, hg, hl, g, l, fuel)
    decreases fuel, e, 0
  {
    hide Inv, Fit, Evolves, GlobalsOwned, Join, Rep, Avoids, OutSim;
    var a, b := e.left, e.right;
    FitJoin(c, cx, ScanExpr(c.p, a), ScanExpr(c.p, b), g);
    RunSim(c, cx, a, h, hg, hl, g, l, fuel);
    var ra', ra := Run(c, a, h, cx.at, hg, hl, fuel), Eval(c.p, c.caps, a, g, l, fuel);
    After(c, cx, ScanExpr(c.p, b), h, hg, hl, g, l, ra', ra);
    if ra.out.Val? {
      RunSim(c, cx, b, ra'.heap, ra'.globals, hl, ra.globals, l, fuel);
      var rb', rb := Run(c, b, ra'.heap, cx.at, ra'.globals, hl, fuel), Eval(c.p, c.caps, b, ra.globals, l, fuel);
      After(c, cx, ScanExpr(c.p, b), ra'.heap, ra'.globals, hl, ra.globals, l, rb', rb);
      ExprThen(h, ra'.heap, cx, rb', rb);
      if rb.out.Val? {
        ScalarSim(rb'.heap, cx, rb'.globals, rb.globals, AddRef(ra'.out.v, rb'.out.v), Add(ra.out.v, rb.out.v), h);
      }
    }
  }

  lemma {:induction false} IndexSim(c: Config, cx: Ctx, e: Expr, h: Heap, hg: RefStore, hl: RefStore, g: Store, l: Store, fuel: nat)
    requires e.Index? && Inv(h, cx, hg, hl, g, l) && Fit(c, cx, ScanExpr(c.p, e), g) && Settled(Mutables(c), c.safe, e)
    ensures Simulated(c, cx, e, h, hg, hl, g, l, fuel)
    decreases fuel, e, 0
  {
    hide Inv, Fit, Evolves, GlobalsOwned, Join, Rep, Avoids, OutSim, Private, SelectRef, Select;
    var a, b := e.target, e.index;
    FitJoin(c, cx, ScanExpr(c.p, a), ScanExpr(c.p, b), g);
    RunSim(c, cx, a, h, hg, hl, g, l, fuel);
    var ra', ra := Run(c, a, h, cx.at, hg, hl, fuel), Eval(c.p, c.caps, a, g, l, fuel);
    After(c, cx, ScanExpr(c.p, b), h, hg, hl, g, l, ra', ra);
    if !ra.out.Val? { NoValue(ra'.heap, cx, ra'.out, ra.out); return; }
    var cl := Later(c, cx, b);
    LaterFit(c, cx, b, ra'.heap, ra'.globals, hl, ra.globals, l);
    RunSim(c, cl, b, ra'.heap, ra'.globals, hl, ra.globals, l, fuel);
    var rb', rb := Run(c, b, ra'.heap, cx.at, ra'.globals, hl, fuel), Eval(c.p, c.caps, b, ra.globals, l, fuel);
    After(c, cl, ScanExpr(c.p, b), ra'.heap, ra'.globals, hl, ra.globals, l, rb', rb);
    LaterExpr(ra'.heap, cx, cl, rb', rb);
    ExprThen(h, ra'.heap, cx, rb', rb);
    if !rb.out.Val? { NoValue(rb'.heap, cx, rb'.out, rb.out); return; }
    HeldAcross(ra'.heap, rb'.heap, cx, cl, ra'.out.v, ra.out.v);
    SelectSim(rb'.heap, cx, ra'.out.v, ra.out.v, rb'.out.v, rb.out.v);
  }

  lemma NoValue(h: Heap, cx: Ctx, o': Out<Ref>, o: Out<Tree>)
    requires !o.Val?
    ensures Private(h, cx, o', o)
  {
  }

  // ----- list literals -----

  ghost predicate ElemOk(h: Heap, cx: Ctx, v: Ref, t: Tree) {
    Rep(h, v, t) && Avoids(h, v, t, cx.ban) && Private(h, cx, Val(v), Val(t))
  }

  ghost predicate ElemsOk(h: Heap, cx: Ctx, vs: seq<Ref>, ts: seq<Tree>) {
    |vs| == |ts| && forall i :: 0 <= i < |vs| ==> ElemOk(h, cx, vs[i], ts[i])
  }

  /** The element as stored: a fresh literal itself, or a copy of anything else. */
  lemma ElemStored(c: Config, cx: Ctx, e: Expr, h: Heap, v: Ref, t: Tree)
    requires Wf(h) && Rep(h, v, t) && Avoids(h, v, t, cx.ban) && (e.ListLit? ==> Private(h, cx, Val(v), Val(t)))
    ensures var b := if e.ListLit? then Built(h, v) else CopyTo(h, v, Unbound);
            Evolves(h, b.heap, {}) && ElemOk(b.heap, cx, b.v, t)
  {
    if !e.ListLit? {
      CopyEvolves(h, v, t, Unbound);
      var b := CopyTo(h, v, Unbound);
      OwnedAvoids(b.heap, b.v, t, Unbound, cx.ban);
      OwnedAvoids(b.heap, b.v, t, Unbound, {cx.at.world});
    }
  }

  ghost predicate ElemsSimulated(h: Heap, cx: Ctx, r': ExprRun<seq<Ref>>, r: ExprResult<seq<Tree>>) {
    ListSim(h, cx, r', r) && (r.out.Val? ==> r'.out.Val? && ElemsOk(r'.heap, cx, r'.out.v, r.out.v))
  }

  ghost predicate Stopped(h: Heap, cx: Ctx, r': ExprRun<seq<Ref>>, r: ExprResult<seq<Tree>>) {
    ListSim(h, cx, r', r) && ElemsSimulated(h, cx, r', r) && PathSimulated(h, cx, r', r)
  }

  /** The head of a list stopped the evaluation. */
  lemma HeadStopped(h: Heap, cx: Ctx, r': ExprRun<Ref>, r: ExprResult<Tree>)
    requires ExprSim(h, cx, r', r)
    ensures r.out.Fail? ==> Stopped(h, cx, XR(Fail, r'.heap, r'.globals), ER(Fail, r.globals))
    ensures r.out.NoFuel? ==> Stopped(h, cx, XR(NoFuel, r'.heap, r'.globals), ER(NoFuel, r.globals))
    ensures r.out.Next? ==> Stopped(h, cx, XR(Next, r'.heap, r'.globals), ER(Next, r.globals))
  {
    hide Evolves, GlobalsOwned, Rep, Avoids;
  }

  function ConsRun(v: Ref, rt: ExprRun<seq<Ref>>): ExprRun<seq<Ref>> {
    if !rt.out.Val? then rt else XR(Val([v] + rt.out.v), rt.heap, rt.globals)
  }

  function ConsResult(t: Tree, rt: ExprResult<seq<Tree>>): ExprResult<seq<Tree>> {
    if !rt.out.Val? then rt else ER(Val([t] + rt.out.v), rt.globals)
  }

  lemma ConsList(h: Heap, h1: Heap, cx: Ctx, v: Ref, t: Tree, rt': ExprRun<seq<Ref>>, rt: ExprResult<seq<Tree>>)
    requires Evolves(h, h1, Hot(cx)) && ListSim(h1, cx, rt', rt)
    ensures ListSim(h, cx, ConsRun(v, rt'), ConsResult(t, rt))
  {
    hide GlobalsOwned;
    EvolvesTrans(h, h1, rt'.heap, Hot(cx));
    hide Evolves;
  }

  lemma ConsElems(h: Heap, h1: Heap, cx: Ctx, v: Ref, t: Tree, rt': ExprRun<seq<Ref>>, rt: ExprResult<seq<Tree>>)
    requires Inv0(cx) && Evolves(h, h1, Hot(cx)) && ElemOk(h1, cx, v, t) && ElemsSimulated(h1, cx, rt', rt)
    ensures ElemsSimulated(h, cx, ConsRun(v, rt'), ConsResult(t, rt))
  {
    ConsList(h, h1, cx, v, t, rt', rt);
    if rt.out.Val? { ElemHeld(h1, rt'.heap, cx, v, t); }
    hide ElemOk, Evolves, GlobalsOwned;
  }

  lemma {:induction false} ElemsSim(c: Config, cx: Ctx, es: Exprs, h: Heap, hg: RefStore, hl: RefStore, g: Store, l: Store, fuel: nat)
    requires Inv(h, cx, hg, hl, g, l) && Fit(c, cx, ScanExprs(c.p, es), g) && SettledAll(Mutables(c), c.safe, es)
    ensures ElemsSimulated(h, cx, RunElems(c, es, h, cx.at, hg, hl, fuel), EvalAll(c.p, c.caps, es, g, l, fuel))
    decreases fuel, es, 0
  {
    hide Inv, Fit, Evolves, GlobalsOwned, Rep, Avoids, OutSim, Private, CopyTo, ElemOk, Alike, ExprSim, Join,
         Run, Eval, ScanExpr, Settled, ElemsSimulated, ListSim;
    if es.ENil? {
      NoElems(h, cx, hg, hl, g, l);
      return;
    }
    var e, tl := es.head, es.tail;
    FitJoin(c, cx, ScanExpr(c.p, e), ScanExprs(c.p, tl), g);
    RunSim(c, cx, e, h, hg, hl, g, l, fuel);
    var r', r := Run(c, e, h, cx.at, hg, hl, fuel), Eval(c.p, c.caps, e, g, l, fuel);
    After(c, cx, ScanExprs(c.p, tl), h, hg, hl, g, l, r', r);
    if !r.out.Val? {
      HeadStopped(h, cx, r', r);
      return;
    }
    var b := if e.ListLit? then Built(r'.heap, r'.out.v) else CopyTo(r'.heap, r'.out.v, Unbound);
    InvWf(r'.heap, cx, r'.globals, hl, r.globals, l);
    ElemStored(c, cx, e, r'.heap, r'.out.v, r.out.v);
    InvUnder(r'.heap, b.heap, cx, r'.globals, hl, r.globals, l);
    ElemsSim(c, cx, tl, b.heap, r'.globals, hl, r.globals, l, fuel);
    var rt', rt := RunElems(c, tl, b.heap, cx.at, r'.globals, hl, fuel), EvalAll(c.p, c.caps, tl, r.globals, l, fuel);
    EvolvesMore(r'.heap, b.heap, {}, Hot(cx));
    EvolvesTrans(h, r'.heap, b.heap, Hot(cx));
    ConsElems(h, b.heap, cx, b.v, r.out.v, rt', rt);
  }

  lemma NoElems(h: Heap, cx: Ctx, hg: RefStore, hl: RefStore, g: Store, l: Store)
    requires Inv(h, cx, hg, hl, g, l)
    ensures ElemsSimulated(h, cx, XR(Val([]), h, hg), ER(Val([]), g)) && PathSimulated(h, cx, XR(Val([]), h, hg), ER(Val([]), g))
  {
  }

  lemma InvWf(h: Heap, cx: Ctx, hg: RefStore, hl: RefStore, g: Store, l: Store)
    requires Inv(h, cx, hg, hl, g, l)
    ensures Wf(h) && Inv0(cx) && GlobalsOwned(h, cx.consts, cx.at.world, hg, g) && Evolves(h, h, Hot(cx))
  {
  }

  lemma ElemHeld(h: Heap, h': Heap, cx: Ctx, v: Ref, t: Tree)
    requires Inv0(cx) && ElemOk(h, cx, v, t) && Evolves(h, h', Hot(cx))
    ensures ElemOk(h', cx, v, t)
  {
    HeldStays(h, h', cx, v, t, Val(v), Val(t));
  }

  /** The literal's own cell over its elements. */
  lemma NewCell(h: Heap, cx: Ctx, vs: seq<Ref>, ts: seq<Tree>)
    requires Wf(h) && ElemsOk(h, cx, vs, ts)
    ensures var h' := h.(cells := h.cells + [Cell(Unbound, vs)]);
            Evolves(h, h', {}) && ElemOk(h', cx, Ptr(|h.cells|), Lst(ts))
  {
    var h' := h.(cells := h.cells + [Cell(Unbound, vs)]);
    assert Evolves(h, h', {});
    forall i | 0 <= i < |ts|
      ensures Rep(h', vs[i], ts[i]) && Avoids(h', vs[i], ts[i], cx.ban) && Private(h', cx, Val(vs[i]), Val(ts[i]))
    {
      assert ElemOk(h, cx, vs[i], ts[i]);
      AvoidsNothing(h, vs[i], ts[i], cx.ban);
      AvoidsStay(h, h', {}, vs[i], ts[i], cx.ban);
      AvoidsStay(h, h', {}, vs[i], ts[i], {cx.at.world});
    }
    assert h'.cells[|h.cells|].elems == vs;
    forall a: nat | Touches(h', Ptr(|h.cells|), Lst(ts), a) && a != |h.cells|
      ensures exists i :: 0 <= i < |ts| && Touches(h', vs[i], ts[i], a)
    {
    }
  }

  lemma LitCellSim(c: Config, cx: Ctx, e: Expr, h: Heap, hg: RefStore, hl: RefStore, g: Store, l: Store, fuel: nat)
    requires e.ListLit? && Inv(h, cx, hg, hl, g, l)
    requires var r', r := RunElems(c, e.elems, h, cx.at, hg, hl, fuel), EvalAll(c.p, c.caps, e.elems, g, l, fuel);
             ElemsSimulated(h, cx, r', r)
    ensures Simulated(c, cx, e, h, hg, hl, g, l, fuel)
  {
    hide Inv, Evolves, GlobalsOwned, Rep, Avoids, ElemsOk, RunElems, EvalAll;
    var r', r := RunElems(c, e.elems, h, cx.at, hg, hl, fuel), EvalAll(c.p, c.caps, e.elems, g, l, fuel);
    if r.out.Val? {
      var h' := r'.heap.(cells := r'.heap.cells + [Cell(Unbound, r'.out.v)]);
      EvolvesWf(h, r'.heap, Hot(cx));
      NewCell(r'.heap, cx, r'.out.v, r.out.v);
      EvolvesMore(r'.heap, h', {}, Hot(cx));
      EvolvesTrans(h, r'.heap, h', Hot(cx));
      GlobalsStay(r'.heap, h', {}, cx.consts, cx.at.world, r'.globals, r.globals);
    }
  }

  lemma EvolvesWf(h: Heap, h': Heap, hot: set<nat>)
    requires Evolves(h, h', hot)
    ensures Wf(h') && h.ids <= h'.ids
  {
  }

  // ----- index paths -----

  ghost predicate PathSimulated(h: Heap, cx: Ctx, r': ExprRun<seq<Ref>>, r: ExprResult<seq<Tree>>) {
    ListSim(h, cx, r', r) && (r.out.Val? ==> r'.out.Val? && AlikeAll(r'.out.v, r.out.v))
  }

  lemma ConsPath(h: Heap, h1: Heap, cx: Ctx, v: Ref, t: Tree, rt': ExprRun<seq<Ref>>, rt: ExprResult<seq<Tree>>)
    requires Evolves(h, h1, Hot(cx)) && Alike(v, t) && PathSimulated(h1, cx, rt', rt)
    ensures PathSimulated(h, cx, ConsRun(v, rt'), ConsResult(t, rt))
  {
    ConsList(h, h1, cx, v, t, rt', rt);
    hide Alike, Evolves, GlobalsOwned;
  }

  lemma {:induction false} PathSim(c: Config, cx: Ctx, es: Exprs, h: Heap, hg: RefStore, hl: RefStore, g: Store, l: Store, fuel: nat)
    requires Inv(h, cx, hg, hl, g, l) && Fit(c, cx, ScanExprs(c.p, es), g) && SettledAll(Mutables(c), c.safe, es)
    ensures PathSimulated(h, cx, RunPath(c, es, h, cx.at, hg, hl, fuel), EvalAll(c.p, c.caps, es, g, l, fuel))
    decreases fuel, es, 0
  {
    hide Inv, Fit, Evolves, GlobalsOwned, Rep, Avoids, OutSim, Private, Alike, ExprSim, Join, Run, Eval, ScanExpr, Settled,
         PathSimulated, ListSim;
    if es.ENil? {
      NoElems(h, cx, hg, hl, g, l);
      return;
    }
    var e, tl := es.head, es.tail;
    FitJoin(c, cx, ScanExpr(c.p, e), ScanExprs(c.p, tl), g);
    RunSim(c, cx, e, h, hg, hl, g, l, fuel);
    var r', r := Run(c, e, h, cx.at, hg, hl, fuel), Eval(c.p, c.caps, e, g, l, fuel);
    After(c, cx, ScanExprs(c.p, tl), h, hg, hl, g, l, r', r);
    if !r.out.Val? {
      HeadStopped(h, cx, r', r);
      return;
    }
    PathSim(c, cx, tl, r'.heap, r'.globals, hl, r.globals, l, fuel);
    var rt', rt := RunPath(c, tl, r'.heap, cx.at, r'.globals, hl, fuel), EvalAll(c.p, c.caps, tl, r.globals, l, fuel);
    ConsPath(h, r'.heap, cx, r'.out.v, r.out.v, rt', rt);
  }

  // ----- arguments and calls -----

  function AliasFlags(c: Config, f: Name, k: nat, es: Exprs): (flags: seq<bool>)
    ensures |flags| == Len(es)
    decreases es
  {
    match es
    case ENil => []
    case ECons(e, tl) => [BindsByAlias(c, f, k, e, tl)] + AliasFlags(c, f, k + 1, tl)
  }

  ghost predicate ArgOk(h: Heap, ban: set<nat>, callee: nat, x: Name, alias: bool, v: Ref, t: Tree) {
    if alias then Rep(h, v, t) && Avoids(h, v, t, ban) else Owned(h, v, t, LocalOf(callee, x))
  }

  ghost predicate ArgsOk(h: Heap, ban: set<nat>, callee: nat, params: seq<Name>, flags: seq<bool>, vs: seq<Ref>, ts: seq<Tree>) {
    && |params| == |flags| == |vs| == |ts|
    && forall j :: 0 <= j < |params| ==> ArgOk(h, ban, callee, params[j], flags[j], vs[j], ts[j])
  }

  ghost predicate ArgsSimulated(h: Heap, cx: Ctx, callee: nat, params: seq<Name>, flags: seq<bool>,
                                r': ExprRun<seq<Ref>>, r: ExprResult<seq<Tree>>)
  {
    ListSim(h, cx, r', r) && (r.out.Val? ==> r'.out.Val? && ArgsOk(r'.heap, cx.ban, callee, params, flags, r'.out.v, r.out.v))
  }

  lemma {:induction false} AliasingSplit(globals: set<Name>, e: Expr)
    requires Aliasing(globals, e)
    ensures AliasesGlobal(globals, e) || CallRooted(e)
  {
    if e.Index? { AliasingSplit(globals, e.target); }
  }

  /** A bound argument outlives the evaluation of the later ones. */
  lemma ArgHeld(h: Heap, h': Heap, cx: Ctx, cl: Ctx, callee: nat, x: Name, alias: bool, v: Ref, t: Tree)
    requires Inv0(cx) && ArgOk(h, cx.ban, callee, x, alias, v, t) && callee != cx.at.world
    requires Evolves(h, h', Hot(cl)) && (cl == Hushed(cx) || (cl == cx && (alias ==> Private(h, cx, Val(v), Val(t)))))
    ensures ArgOk(h', cx.ban, callee, x, alias, v, t)
  {
    hide Rep, Avoids, Owned, Private;
    if alias {
      HeldAcross(h, h', cx, cl, v, t);
    } else {
      OwnedStay(h, h', Hot(cl), v, t, LocalOf(callee, x));
    }
  }

  lemma ArgBound(c: Config, cx: Ctx, f: Name, k: nat, e: Expr, tl: Exprs, callee: nat, x: Name, h: Heap, v: Ref, t: Tree)
    requires Wf(h) && callee < h.ids && Rep(h, v, t) && Avoids(h, v, t, cx.ban)
    ensures var alias := BindsByAlias(c, f, k, e, tl);
            var b := if alias then Built(h, v) else CopyTo(h, v, LocalOf(callee, x));
            Evolves(h, b.heap, {}) && ArgOk(b.heap, cx.ban, callee, x, alias, b.v, t)
  {
    hide BindsByAlias;
    if !BindsByAlias(c, f, k, e, tl) { CopyEvolves(h, v, t, LocalOf(callee, x)); }
  }

  lemma ConsArgs(h: Heap, h1: Heap, cx: Ctx, cl: Ctx, callee: nat, params: seq<Name>, alias: bool, flags: seq<bool>,
                 v: Ref, t: Tree, rt': ExprRun<seq<Ref>>, rt: ExprResult<seq<Tree>>)
    requires Inv0(cx) && Evolves(h, h1, Hot(cx)) && params != [] && callee != cx.at.world
    requires ArgOk(h1, cx.ban, callee, params[0], alias, v, t)
    requires cl == Hushed(cx) || (cl == cx && (alias ==> Private(h1, cx, Val(v), Val(t))))
    requires ArgsSimulated(h1, cl, callee, params[1..], flags, rt', rt)
    ensures ArgsSimulated(h, cx, callee, params, [alias] + flags, ConsRun(v, rt'), ConsResult(t, rt))
  {
    LaterList(h1, cx, cl, rt', rt);
    ConsList(h, h1, cx, v, t, rt', rt);
    if rt.out.Val? { ArgHeld(h1, rt'.heap, cx, cl, callee, params[0], alias, v, t); }
    hide ArgOk, Evolves, GlobalsOwned, Private, ListSim;
    if rt.out.Val? {
      var vs, ts := [v] + rt'.out.v, [t] + rt.out.v;
      forall j | 0 <= j < |params| ensures ArgOk(rt'.heap, cx.ban, callee, params[j], ([alias] + flags)[j], vs[j], ts[j]) {
        if j > 0 { assert params[j] == params[1..][j - 1]; }
      }
    }
  }

  lemma {:induction false} ArgsSim(c: Config, cx: Ctx, f: Name, k: nat, es: Exprs, callee: nat, h: Heap, hg: RefStore, hl: RefStore,
                                   g: Store, l: Store, fuel: nat)
    requires Inv(h, cx, hg, hl, g, l) && Fit(c, cx, ScanExprs(c.p, es), g) && SettledAll(Mutables(c), c.safe, es) && SettledArgs(Mutables(c), c.safe, es)
    requires f in c.p.methods && k + Len(es) == |c.p.methods[f].params| && callee in cx.ban
    ensures ArgsSimulated(h, cx, callee, c.p.methods[f].params[k..], AliasFlags(c, f, k, es),
                          RunArgs(c, f, k, es, callee, h, cx.at, hg, hl, fuel), EvalAll(c.p, c.caps, es, g, l, fuel))
    decreases fuel, es, 0
  {
    hide Inv, Fit, Evolves, GlobalsOwned, Rep, Avoids, OutSim, Private, Alike, ExprSim, Join, Run, Eval, ScanExpr, Settled,
         ArgsSimulated, ListSim, BindsByAlias, CopyTo, Aliasing, CallRooted, ArgOk;
    var params := c.p.methods[f].params;
    if es.ENil? {
      NoArgs(h, cx, callee, params[k..], hg, hl, g, l);
      return;
    }
    var e, tl := es.head, es.tail;
    FitJoin(c, cx, ScanExpr(c.p, e), ScanExprs(c.p, tl), g);
    RunSim(c, cx, e, h, hg, hl, g, l, fuel);
    var r', r := Run(c, e, h, cx.at, hg, hl, fuel), Eval(c.p, c.caps, e, g, l, fuel);
    After(c, cx, ScanExprs(c.p, tl), h, hg, hl, g, l, r', r);
    if !r.out.Val? {
      ArgsStopped(h, cx, callee, params[k..], AliasFlags(c, f, k, es), r', r);
      return;
    }
    var alias := BindsByAlias(c, f, k, e, tl);
    var b := if alias then Built(r'.heap, r'.out.v) else CopyTo(r'.heap, r'.out.v, LocalOf(callee, params[k]));
    InvBan(r'.heap, cx, r'.globals, hl, r.globals, l);
    ArgBound(c, cx, f, k, e, tl, callee, params[k], r'.heap, r'.out.v, r.out.v);
    InvUnder(r'.heap, b.heap, cx, r'.globals, hl, r.globals, l);
    var cl := LaterAll(c, cx, tl);
    LaterAllFit(c, cx, tl, b.heap, r'.globals, hl, r.globals, l);
    ArgsSim(c, cl, f, k + 1, tl, callee, b.heap, r'.globals, hl, r.globals, l, fuel);
    var rt', rt := RunArgs(c, f, k + 1, tl, callee, b.heap, cx.at, r'.globals, hl, fuel), EvalAll(c.p, c.caps, tl, r.globals, l, fuel);
    EvolvesMore(r'.heap, b.heap, {}, Hot(cx));
    EvolvesTrans(h, r'.heap, b.heap, Hot(cx));
    AliasIsPrivate(c, cx, f, k, e, tl, r'.heap, r'.out, r.out);
    assert params[k..][1..] == params[k + 1..];
    ConsArgs(h, b.heap, cx, cl, callee, params[k..], alias, AliasFlags(c, f, k + 1, tl), b.v, r.out.v, rt', rt);
  }

  /** A borrowed argument followed by a write is one the scans know to be private. */
  lemma AliasIsPrivate(c: Config, cx: Ctx, f: Name, k: nat, e: Expr, tl: Exprs, h: Heap, o': Out<Ref>, o: Out<Tree>)
    requires SettledArgs(Mutables(c), c.safe, ECons(e, tl)) && (!Aliasing(Mutables(c), e) ==> Private(h, cx, o', o))
    ensures BindsByAlias(c, f, k, e, tl) ==> LaterAll(c, cx, tl) == Hushed(cx) || Private(h, cx, o', o)
  {
    if Aliasing(Mutables(c), e) { AliasingSplit(Mutables(c), e); }
  }

  lemma NoArgs(h: Heap, cx: Ctx, callee: nat, params: seq<Name>, hg: RefStore, hl: RefStore, g: Store, l: Store)
    requires Inv(h, cx, hg, hl, g, l) && params == []
    ensures ArgsSimulated(h, cx, callee, params, [], XR(Val([]), h, hg), ER(Val([]), g))
  {
  }

  lemma ArgsStopped(h: Heap, cx: Ctx, callee: nat, params: seq<Name>, flags: seq<bool>, r': ExprRun<Ref>, r: ExprResult<Tree>)
    requires ExprSim(h, cx, r', r)
    ensures r.out.Fail? ==> ArgsSimulated(h, cx, callee, params, flags, XR(Fail, r'.heap, r'.globals), ER(Fail, r.globals))
    ensures r.out.NoFuel? ==> ArgsSimulated(h, cx, callee, params, flags, XR(NoFuel, r'.heap, r'.globals), ER(NoFuel, r.globals))
    ensures r.out.Next? ==> ArgsSimulated(h, cx, callee, params, flags, XR(Next, r'.heap, r'.globals), ER(Next, r.globals))
  {
    HeadStopped(h, cx, r', r);
    hide ListSim, ExprSim;
  }

  lemma InvBan(h: Heap, cx: Ctx, hg: RefStore, hl: RefStore, g: Store, l: Store)
    requires Inv(h, cx, hg, hl, g, l)
    ensures Wf(h) && Inv0(cx) && cx.at.world !in cx.ban && forall k :: k in cx.ban ==> k < h.ids
  {
  }

  lemma {:induction false} BindLookup<V>(params: seq<Name>, vs: seq<V>, j: nat)
    requires Distinct(params) && |params| == |vs| && j < |params|
    ensures params[j] in Bind(params, vs) && Bind(params, vs)[params[j]] == vs[j]
  {
    if j > 0 {
      assert params[j] == params[1..][j - 1];
      BindLookup(params[1..], vs[1..], j - 1);
    }
  }

  lemma {:induction false} BindKeys<V>(params: seq<Name>, vs: seq<V>)
    requires |params| == |vs|
    ensures forall x :: x in Bind(params, vs) <==> x in params
  {
    if params != [] { BindKeys(params[1..], vs[1..]); }
  }

  function BorrowedNames(params: seq<Name>, flags: seq<bool>): set<Name>
    requires |params| == |flags|
  {
    set j | 0 <= j < |params| && flags[j] :: params[j]
  }

  function CalleeCtx(c: Config, cx: Ctx, f: Name, es: Exprs, callee: nat): Ctx
    requires f in c.p.methods && |c.p.methods[f].params| == Len(es)
  {
    Ctx(Site(cx.at.world, callee), cx.consts, cx.ban, BorrowedNames(c.p.methods[f].params, AliasFlags(c, f, 0, es)),
        MethodLocals(c.p, f), f !in c.safe && !Frozen(c))
  }

  /** The bound arguments are a frame. */
  lemma ArgsAreLocals(h: Heap, cx: Ctx, ban: set<nat>, params: seq<Name>, flags: seq<bool>, vs: seq<Ref>, ts: seq<Tree>)
    requires Distinct(params) && ArgsOk(h, ban, cx.at.frame, params, flags, vs, ts)
    requires cx.bor == BorrowedNames(params, flags) && ban == cx.ban + {cx.at.frame}
    ensures LocalsOk(h, cx, Bind(params, vs), Bind(params, ts))
  {
    hide Rep, Avoids, Owned;
    var hl, l := Bind(params, vs), Bind(params, ts);
    BindKeys(params, vs);
    BindKeys(params, ts);
    assert hl.Keys == l.Keys;
    forall x | x in l ensures LocalOk(h, cx, x, hl[x], l[x]) {
      var j :| 0 <= j < |params| && params[j] == x;
      BindLookup(params, vs, j);
      BindLookup(params, ts, j);
      assert ArgOk(h, ban, cx.at.frame, params[j], flags[j], vs[j], ts[j]);
      assert x in cx.bor <==> flags[j];
    }
    forall x | x in cx.bor ensures x in l {}
  }

  /** A parameter bound by alias is one the method's body never writes, and the method is safe or there is nothing to write. */
  lemma {:induction false} FlagsSound(c: Config, f: Name, k: nat, es: Exprs, j: nat)
    requires j < Len(es) && AliasFlags(c, f, k, es)[j]
    ensures (f in c.safe || Frozen(c)) && f in c.p.methods && k + j < |c.p.methods[f].borrow| && c.p.methods[f].borrow[k + j]
    decreases es
  {
    if j > 0 { FlagsSound(c, f, k + 1, es.tail, j - 1); }
  }

  lemma CalleeFit(c: Config, cx: Ctx, f: Name, es: Exprs, callee: nat, g: Store)
    requires f in c.p.methods && |c.p.methods[f].params| == Len(es) && Loaded(c) && g.Keys <= c.globals && cx.consts == c.p.consts
    ensures var cx' := CalleeCtx(c, cx, f, es, callee);
            Fit(c, cx', MethodFacts(c.p, f), g) && SettledStmt(Mutables(c), c.safe, c.p.methods[f].body) && (cx'.loud ==> cx'.bor == {})
  {
    var cx' := CalleeCtx(c, cx, f, es, callee);
    var params := c.p.methods[f].params;
    var flags := AliasFlags(c, f, 0, es);
    hide AliasFlags, MethodFacts, MethodLocals;
    forall j | 0 <= j < |params| && flags[j]
      ensures (f in c.safe || Frozen(c)) && params[j] !in MethodFacts(c.p, f).writes
    {
      FlagsSound(c, f, 0, es, j);
    }
  }

  lemma EnterCallee(c: Config, cx: Ctx, f: Name, es: Exprs, callee: nat, h: Heap, hg: RefStore, g: Store, vs: seq<Ref>, ts: seq<Tree>)
    requires f in c.p.methods && |c.p.methods[f].params| == Len(es) && Loaded(c) && g.Keys <= c.globals && cx.consts == c.p.consts
    requires CtxOk(h, cx.(ban := cx.ban + {callee})) && callee !in cx.ban && GlobalsOwned(h, cx.consts, cx.at.world, hg, g)
    requires ArgsOk(h, cx.ban + {callee}, callee, c.p.methods[f].params, AliasFlags(c, f, 0, es), vs, ts)
    ensures var m, cx' := c.p.methods[f], CalleeCtx(c, cx, f, es, callee);
            Inv(h, cx', hg, Bind(m.params, vs), g, Bind(m.params, ts)) && Fit(c, cx', MethodFacts(c.p, f), g)
            && SettledStmt(Mutables(c), c.safe, m.body)
  {
    hide AliasFlags, MethodFacts, GlobalsOwned, MethodLocals, SettledStmt;
    CalleeFit(c, cx, f, es, callee, g);
    hide BorrowedNames;
    ArgsAreLocals(h, CalleeCtx(c, cx, f, es, callee), cx.ban + {callee}, c.p.methods[f].params, AliasFlags(c, f, 0, es), vs, ts);
    hide LocalsOk, Fit;
  }

  lemma FitBan(c: Config, cx: Ctx, ban: set<nat>, f: Facts, g: Store)
    requires Fit(c, cx, f, g)
    ensures Fit(c, cx.(ban := ban), f, g)
  {
    hide Loaded, EscapeAnalysis.Calm;
  }

  /** Arguments that stopped the call. */
  lemma CallStopped(h: Heap, cx: Ctx, ban: set<nat>, ra': ExprRun<seq<Ref>>, ra: ExprResult<seq<Tree>>)
    requires Wf(h) && ListSim(h.(ids := h.ids + 1), cx.(ban := ban), ra', ra)
    ensures Evolves(h, ra'.heap, Hot(cx)) && GlobalsOwned(ra'.heap, cx.consts, cx.at.world, ra'.globals, ra.globals)
    ensures SameKind(ra'.out, ra.out) && ra'.out.Val? == ra.out.Val?
    ensures ra.out.Fail? ==> ExprSim(h, cx, XR(Fail, ra'.heap, ra'.globals), ER(Fail, ra.globals))
    ensures ExprSim(h, cx, XR(NoFuel, ra'.heap, ra'.globals), ER(NoFuel, ra.globals))
    ensures ra.out.Next? ==> ExprSim(h, cx, XR(Next, ra'.heap, ra'.globals), ER(Next, ra.globals))
  {
    hide GlobalsOwned;
    var h1 := h.(ids := h.ids + 1);
    Bump(h, 1);
    EvolvesMore(h, h1, {}, Hot(cx));
    EvolvesTrans(h, h1, ra'.heap, Hot(cx));
    hide Evolves, Rep, Avoids;
  }

  /** The callee's frame is gone; the caller sees only what its own code may change. */
  lemma CallReturns(h: Heap, h1: Heap, cx: Ctx, cx': Ctx, rs': StmtRun, rs: StmtResult)
    requires Wf(h) && Evolves(h, h1, Hot(cx)) && StmtSim(h1, cx', rs', rs)
    requires cx'.at == Site(cx.at.world, h.ids) && cx'.ban == cx.ban && cx'.consts == cx.consts && (cx'.loud ==> cx.loud)
    ensures ExprSim(h, cx, XR(Returned(rs'.out), rs'.heap, rs'.globals), ER(CallResult(rs.out), rs.globals))
  {
    hide GlobalsOwned, LocalsOk, Avoids;
    var hot := Hot(cx) + {h.ids};
    EvolvesMore(h, h1, Hot(cx), hot);
    EvolvesMore(h1, rs'.heap, HotStmt(cx'), hot);
    EvolvesTrans(h, h1, rs'.heap, hot);
    EvolvesForget(h, rs'.heap, hot, Hot(cx));
    NullAvoids(rs'.heap, cx.ban);
    hide Evolves;
  }

  lemma NullAvoids(h: Heap, ban: set<nat>)
    ensures Avoids(h, Imm(Null), Atom(Null), ban)
  {
  }

  lemma {:induction false} CallSim(c: Config, cx: Ctx, f: Name, es: Exprs, h: Heap, hg: RefStore, hl: RefStore, g: Store, l: Store, fuel: nat)
    requires Inv(h, cx, hg, hl, g, l) && Fit(c, cx, ScanExprs(c.p, es), g) && SettledAll(Mutables(c), c.safe, es) && SettledArgs(Mutables(c), c.safe, es)
    requires f in c.p.methods && (cx.loud || f in c.safe || Frozen(c))
    ensures ExprSim(h, cx, RunCall(c, f, es, h, cx.at, hg, hl, fuel), Invoke(c.p, c.caps, f, es, g, l, fuel))
    decreases fuel, es, 1
  {
    hide Inv, Fit, Evolves, GlobalsOwned, ExprSim, ListSim, ArgsOk, RunArgs, EvalAll, RunStmt, Exec, CalleeCtx, StmtSim, Loaded,
         ScanExprs, ScanStmt, SettledAll, SettledArgs, CtxOk, AliasFlags;
    var m := c.p.methods[f];
    InvWf(h, cx, hg, hl, g, l);
    if |m.params| != Len(es) {
      ScalarSim(h, cx, hg, g, Fail, Fail, h);
      return;
    }
    var callee, h1 := h.ids, h.(ids := h.ids + 1);
    var cx1 := cx.(ban := cx.ban + {callee});
    InvReserve(h, cx, hg, hl, g, l);
    FitBan(c, cx, cx1.ban, ScanExprs(c.p, es), g);
    ArgsSim(c, cx1, f, 0, es, callee, h1, hg, hl, g, l, fuel);
    assert m.params[0..] == m.params;
    var ra', ra := RunArgs(c, f, 0, es, callee, h1, cx.at, hg, hl, fuel), EvalAll(c.p, c.caps, es, g, l, fuel);
    CallStopped(h, cx, cx1.ban, ra', ra);
    if !ra.out.Val? || fuel == 0 { return; }
    InvReserved(c, cx, f, es, callee, h, h1, hg, hl, g, l, ra', ra);
    EnterCallee(c, cx, f, es, callee, ra'.heap, ra'.globals, ra.globals, ra'.out.v, ra.out.v);
    var cx' := CalleeCtx(c, cx, f, es, callee);
    CalleeCtxShape(c, cx, f, es, callee);
    ExecSim(c, cx', m.body, ra'.heap, ra'.globals, Bind(m.params, ra'.out.v), ra.globals, Bind(m.params, ra.out.v), fuel - 1);
    var rs' := RunStmt(c, m.body, ra'.heap, Site(cx.at.world, callee), ra'.globals, Bind(m.params, ra'.out.v), fuel - 1);
    var rs := Exec(c.p, c.caps, m.body, ra.globals, Bind(m.params, ra.out.v), fuel - 1);
    CallReturns(h, ra'.heap, cx, cx', rs', rs);
  }

  lemma CalleeCtxShape(c: Config, cx: Ctx, f: Name, es: Exprs, callee: nat)
    requires f in c.p.methods && |c.p.methods[f].params| == Len(es) && (cx.loud || f in c.safe || Frozen(c))
    ensures var cx' := CalleeCtx(c, cx, f, es, callee);
            cx'.at == Site(cx.at.world, callee) && cx'.ban == cx.ban && cx'.consts == cx.consts && (cx'.loud ==> cx.loud)
  {
  }

  /** Everything a callee's frame needs is in place once its arguments are bound. */
  lemma InvReserved(c: Config, cx: Ctx, f: Name, es: Exprs, callee: nat, h: Heap, h1: Heap, hg: RefStore, hl: RefStore, g: Store, l: Store,
                    ra': ExprRun<seq<Ref>>, ra: ExprResult<seq<Tree>>)
    requires Inv(h, cx, hg, hl, g, l) && callee == h.ids && h1 == h.(ids := h.ids + 1) && ra.globals.Keys == g.Keys
    requires Fit(c, cx, ScanExprs(c.p, es), g)
    requires ListSim(h1, cx.(ban := cx.ban + {callee}), ra', ra)
    ensures Loaded(c) && ra.globals.Keys <= c.globals && cx.consts == c.p.consts
    ensures CtxOk(ra'.heap, cx.(ban := cx.ban + {callee})) && callee !in cx.ban
    ensures GlobalsOwned(ra'.heap, cx.consts, cx.at.world, ra'.globals, ra.globals)
  {
    hide GlobalsOwned, LocalsOk, SameKind, ScanExprs;
    FitLoaded(c, cx, ScanExprs(c.p, es), g);
    hide Fit, Loaded;
  }

  lemma {:induction false} NamedCallSim(c: Config, cx: Ctx, e: Expr, h: Heap, hg: RefStore, hl: RefStore, g: Store, l: Store, fuel: nat)
    requires e.Call? && Inv(h, cx, hg, hl, g, l) && Fit(c, cx, ScanExpr(c.p, e), g) && Settled(Mutables(c), c.safe, e)
    ensures Simulated(c, cx, e, h, hg, hl, g, l, fuel)
    decreases fuel, e, 0
  {
    hide Inv, Fit, ExprSim, RunCall, Invoke, Join, Private, GlobalsOwned, Evolves;
    if e.callee !in c.p.methods {
      InvWf(h, cx, hg, hl, g, l);
      ScalarSim(h, cx, hg, g, Fail, Fail, h);
      return;
    }
    var own := NO_FACTS.(callees := {e.callee});
    FitJoin(c, cx, own, ScanExprs(c.p, e.args), g);
    FitNamed(c, cx, own, g, e.callee);
    CallSim(c, cx, e.callee, e.args, h, hg, hl, g, l, fuel);
  }

  lemma FitNamed(c: Config, cx: Ctx, f: Facts, g: Store, m: Name)
    requires Fit(c, cx, f, g) && m in f.callees
    ensures cx.loud || m in c.safe || Frozen(c)
  {
    hide Loaded;
  }

  lemma FitDynamic(c: Config, cx: Ctx, f: Facts, g: Store)
    requires Fit(c, cx, f, g) && f.dynamic
    ensures cx.loud || Frozen(c)
  {
    hide Loaded;
  }

  lemma {:induction false} CallValueSim(c: Config, cx: Ctx, e: Expr, h: Heap, hg: RefStore, hl: RefStore, g: Store, l: Store, fuel: nat)
    requires e.CallValue? && Inv(h, cx, hg, hl, g, l) && Fit(c, cx, ScanExpr(c.p, e), g) && Settled(Mutables(c), c.safe, e)
    ensures Simulated(c, cx, e, h, hg, hl, g, l, fuel)
    decreases fuel, e, 0
  {
    hide Inv, Fit, ExprSim, RunCall, Invoke, Join, Private, GlobalsOwned, Evolves, Rep, Avoids;
    var fn, es := e.fn, e.args;
    var own := NO_FACTS.(dynamic := true);
    FitJoin(c, cx, Join(ScanExpr(c.p, fn), ScanExprs(c.p, es)), own, g);
    FitJoin(c, cx, ScanExpr(c.p, fn), ScanExprs(c.p, es), g);
    FitDynamic(c, cx, own, g);
    RunSim(c, cx, fn, h, hg, hl, g, l, fuel);
    var rc', rc := Run(c, fn, h, cx.at, hg, hl, fuel), Eval(c.p, c.caps, fn, g, l, fuel);
    After(c, cx, ScanExprs(c.p, es), h, hg, hl, g, l, rc', rc);
    if !rc.out.Val? { return; }
    InvWf(rc'.heap, cx, rc'.globals, hl, rc.globals, l);
    if rc.out.v.Atom? && rc.out.v.s.Fn? && rc.out.v.s.target in c.p.methods {
      var f := rc.out.v.s.target;
      CallSim(c, cx, f, es, rc'.heap, rc'.globals, hl, rc.globals, l, fuel);
      ExprThen(h, rc'.heap, cx, RunCall(c, f, es, rc'.heap, cx.at, rc'.globals, hl, fuel),
               Invoke(c.p, c.caps, f, es, rc.globals, l, fuel));
    } else {
      ScalarSim(rc'.heap, cx, rc'.globals, rc.globals, Fail, Fail, h);
    }
  }

  // ----- spawn -----

  lemma RepOfInv(h: Heap, cx: Ctx, hg: RefStore, hl: RefStore, g: Store, l: Store, names: set<Name>)
    requires Inv(h, cx, hg, hl, g, l) && names <= g.Keys
    ensures RepAll(h, names, hg, g) && RepAll(h, l.Keys, hl, l)
  {
    hide Rep, Owned;
    forall x | x in names ensures Rep(h, hg[x], g[x]) { OwnedAvoids(h, hg[x], g[x], GlobalTag(cx.consts, cx.at.world, x), {}); }
    forall x | x in l.Keys ensures Rep(h, hl[x], l[x]) { LocalRead(h, cx, x, hl, l); }
  }

  lemma SnapshotKeys(c: Config, s: Stmt, g: Store)
    ensures var snap := Snapshot(c.p, c.caps, s, g);
            snap.Keys == CapturedNames(c, s, g.Keys) && forall x :: x in snap ==> snap[x] == g[x]
  {
    hide Stamp, ScanStmt;
  }

  function SpawnCtx(cx: Ctx, w: nat): Ctx { Ctx(Site(w, w + 1), cx.consts, cx.ban + {cx.at.world}, {}, {}, true) }

  ghost function SpawnGlobals(c: Config, s: Stmt, h: Heap, hg: RefStore): Built<RefStore> {
    CopyStore(h.(ids := h.ids + 2), c.p.consts, CapturedNames(c, s, hg.Keys), hg, true, h.ids)
  }

  ghost function SpawnLocals(c: Config, s: Stmt, h: Heap, hg: RefStore, hl: RefStore): Built<RefStore> {
    CopyStore(SpawnGlobals(c, s, h, hg).heap, c.p.consts, hl.Keys, hl, false, h.ids + 1)
  }

  /** The snapshot is a frame of its own, out of reach of everything that exists. */
  lemma EnterSpawn(c: Config, cx: Ctx, s: Stmt, h: Heap, hg: RefStore, hl: RefStore, g: Store, l: Store)
    requires Inv(h, cx, hg, hl, g, l) && cx.consts == c.p.consts
    ensures var bg, bl := SpawnGlobals(c, s, h, hg), SpawnLocals(c, s, h, hg, hl);
            Evolves(h, bl.heap, {}) && Inv(bl.heap, SpawnCtx(cx, h.ids), bg.v, bl.v, Snapshot(c.p, c.caps, s, g), l)
  {
    hide Rep, Owned, Touches, CopyStore, CapturedNames, Snapshot;
    var names := CapturedNames(c, s, hg.Keys);
    var h1 := h.(ids := h.ids + 2);
    Bump(h, 2);
    RepOfInv(h, cx, hg, hl, g, l, names);
    RepAllStay(h, h1, names, hg, g);
    RepAllStay(h, h1, l.Keys, hl, l);
    CopyStoreOwned(h1, cx.consts, names, hg, g, true, h.ids);
    var bg := SpawnGlobals(c, s, h, hg);
    RepAllStay(h1, bg.heap, l.Keys, hl, l);
    EvolvesWf(h1, bg.heap, {});
    CopyStoreOwned(bg.heap, cx.consts, l.Keys, hl, l, false, h.ids + 1);
    var bl := SpawnLocals(c, s, h, hg, hl);
    EvolvesTrans(h, h1, bg.heap, {});
    EvolvesTrans(h, bg.heap, bl.heap, {});
    SnapshotKeys(c, s, g);
    hide RepAll;
    SpawnInv(cx, h, bg, bl, names, g, Snapshot(c.p, c.caps, s, g), l);
  }

  lemma SpawnInv(cx: Ctx, h: Heap, bg: Built<RefStore>, bl: Built<RefStore>, names: set<Name>, g: Store, snap: Store, l: Store)
    requires CtxOk(h, cx) && h.ids + 2 <= bg.heap.ids && Evolves(bg.heap, bl.heap, {})
    requires OwnedAll(bg.heap, cx.consts, names, bg.v, g, true, h.ids) && OwnedAll(bl.heap, cx.consts, l.Keys, bl.v, l, false, h.ids + 1)
    requires snap.Keys == names && forall x :: x in snap ==> snap[x] == g[x]
    ensures Inv(bl.heap, SpawnCtx(cx, h.ids), bg.v, bl.v, snap, l)
  {
    hide Rep, Owned;
    assert GlobalsOwned(bg.heap, cx.consts, h.ids, bg.v, snap);
    GlobalsStay(bg.heap, bl.heap, {}, cx.consts, h.ids, bg.v, snap);
    forall x | x in l ensures LocalOk(bl.heap, SpawnCtx(cx, h.ids), x, bl.v[x], l[x]) {
      assert Owned(bl.heap, bl.v[x], l[x], FrameTag(cx.consts, false, h.ids + 1, x));
    }
  }

  lemma FitSpawn(c: Config, cx: Ctx, f: Facts, f': Facts, g: Store, snap: Store, w: nat)
    requires Fit(c, cx, f, g) && snap.Keys <= g.Keys
    ensures Fit(c, SpawnCtx(cx, w), f', snap)
  {
    hide Loaded;
  }

  lemma SpawnReturns(h: Heap, h1: Heap, cx: Ctx, hg: RefStore, g: Store, rs': StmtRun, rs: StmtResult)
    requires Wf(h) && GlobalsOwned(h, cx.consts, cx.at.world, hg, g) && cx.at.world < h.ids
    requires Evolves(h, h1, {}) && StmtSim(h1, SpawnCtx(cx, h.ids), rs', rs)
    ensures var o', o := Returned(rs'.out), CallResult(rs.out);
            ExprSim(h, cx, XR(o', rs'.heap, hg), ER(o, g)) && Private(rs'.heap, cx, o', o)
  {
    hide GlobalsOwned, LocalsOk, Rep;
    var hot := {h.ids, h.ids + 1};
    EvolvesMore(h, h1, {}, hot);
    EvolvesMore(h1, rs'.heap, HotStmt(SpawnCtx(cx, h.ids)), hot);
    EvolvesTrans(h, h1, rs'.heap, hot);
    EvolvesForget(h, rs'.heap, hot, {});
    GlobalsStay(h, rs'.heap, {}, cx.consts, cx.at.world, hg, g);
    EvolvesMore(h, rs'.heap, {}, Hot(cx));
    NullAvoids(rs'.heap, cx.ban);
    NullAvoids(rs'.heap, {cx.at.world});
    if rs.out.Val? { AvoidsParts(rs'.heap, rs'.out.v, rs.out.v, cx.ban, cx.at.world); }
    hide Evolves, Avoids;
    NullRep(rs'.heap);
  }

  lemma NullRep(h: Heap)
    ensures Rep(h, Imm(Null), Atom(Null))
  {
  }

  lemma AvoidsParts(h: Heap, v: Ref, t: Tree, ban: set<nat>, w: nat)
    requires Avoids(h, v, t, ban + {w})
    ensures Avoids(h, v, t, ban) && Avoids(h, v, t, {w})
  {
  }

  lemma {:induction false} SpawnSim(c: Config, cx: Ctx, e: Expr, h: Heap, hg: RefStore, hl: RefStore, g: Store, l: Store, fuel: nat)
    requires e.Spawn? && Inv(h, cx, hg, hl, g, l) && Fit(c, cx, ScanExpr(c.p, e), g) && Settled(Mutables(c), c.safe, e)
    ensures Simulated(c, cx, e, h, hg, hl, g, l, fuel)
    decreases fuel, e, 0
  {
    InvWorld(h, cx, hg, hl, g, l);
    hide Inv, Fit, ExprSim, Private, GlobalsOwned, Evolves, Rep, Avoids, CopyStore, CapturedNames, Snapshot, RunStmt, Exec, ScanStmt,
         SettledStmt, SpawnCtx;
    var s, w := e.body, h.ids;
    var bg, bl := SpawnGlobals(c, s, h, hg), SpawnLocals(c, s, h, hg, hl);
    var snap := Snapshot(c.p, c.caps, s, g);
    EnterSpawn(c, cx, s, h, hg, hl, g, l);
    SnapshotKeys(c, s, g);
    FitSpawn(c, cx, ScanExpr(c.p, e), ScanStmt(c.p, s), g, snap, w);
    ExecSim(c, SpawnCtx(cx, w), s, bl.heap, bg.v, bl.v, snap, l, fuel);
    SpawnSite(cx, w);
    SpawnReturns(h, bl.heap, cx, hg, g, RunStmt(c, s, bl.heap, Site(w, w + 1), bg.v, bl.v, fuel), Exec(c.p, c.caps, s, snap, l, fuel));
  }

  lemma SpawnSite(cx: Ctx, w: nat)
    ensures SpawnCtx(cx, w).at == Site(w, w + 1)
  {
  }

  lemma InvWorld(h: Heap, cx: Ctx, hg: RefStore, hl: RefStore, g: Store, l: Store)
    requires Inv(h, cx, hg, hl, g, l)
    ensures Wf(h) && cx.at.world < h.ids && GlobalsOwned(h, cx.consts, cx.at.world, hg, g)
  {
  }

  // ----- statements -----

  lemma AfterStmt(c: Config, cx: Ctx, f: Facts, h: Heap, hg: RefStore, hl: RefStore, g: Store, l: Store, r': StmtRun, r: StmtResult)
    requires Inv(h, cx, hg, hl, g, l) && Fit(c, cx, f, g) && StmtSim(h, cx, r', r) && r.globals.Keys == g.Keys
    ensures Inv(r'.heap, cx, r'.globals, r'.locals, r.globals, r.locals) && Fit(c, cx, f, r.globals)
    ensures Evolves(h, r'.heap, HotStmt(cx)) && SameKind(r'.out, r.out) && r'.out.Val? == r.out.Val?
  {
    hide Fit, GlobalsOwned, LocalsOk;
    FitStep(c, cx, f, g, r.globals);
    OutKinds(r'.heap, cx.ban, r'.out, r.out);
    hide Rep, Avoids, OutSim;
  }

  lemma StmtThen(h: Heap, h1: Heap, cx: Ctx, r': StmtRun, r: StmtResult)
    requires Evolves(h, h1, HotStmt(cx)) && StmtSim(h1, cx, r', r)
    ensures StmtSim(h, cx, r', r)
  {
    hide OutSim;
    LeavesAfter(h, h1, cx, r', r);
    hide Leaves;
  }

  /** A statement that is over once its expression is. */
  lemma Ends(h: Heap, cx: Ctx, hg: RefStore, hl: RefStore, g: Store, l: Store, r': ExprRun<Ref>, r: ExprResult<Tree>, o': Out<Ref>, o: Out<Tree>)
    requires Inv(h, cx, hg, hl, g, l) && ExprSim(h, cx, r', r) && OutSim(r'.heap, cx.ban, o', o)
    ensures StmtSim(h, cx, TR(o', r'.heap, r'.globals, hl), SR(o, r.globals, l))
  {
    hide OutSim;
    InvStep(h, r'.heap, cx, hg, hl, g, l, r'.globals, r.globals);
    EvolvesMore(h, r'.heap, Hot(cx), HotStmt(cx));
    hide Evolves, GlobalsOwned, LocalsOk;
  }

  lemma EvolvesOut(h: Heap, h': Heap, cx: Ctx)
    requires Evolves(h, h', Hot(cx))
    ensures Evolves(h, h', HotStmt(cx))
  {
    EvolvesMore(h, h', Hot(cx), HotStmt(cx));
  }

  lemma Plain(h: Heap, ban: set<nat>)
    ensures OutSim(h, ban, Next, Next) && OutSim(h, ban, Fail, Fail) && OutSim(h, ban, NoFuel, NoFuel)
  {
  }

  lemma CloseSim(h: Heap, cx: Ctx, r': StmtRun, r: StmtResult, hl: RefStore, l: Store)
    requires StmtSim(h, cx, r', r) && hl.Keys == l.Keys && cx.bor <= l.Keys
    ensures StmtSim(h, cx, CloseRun(r', hl), Close(r, l))
  {
    hide OutSim, GlobalsOwned, Evolves, LocalOk;
    var hl', l' := Scope(r'.locals, hl), Scope(r.locals, l);
    assert hl'.Keys == l'.Keys;
    forall x | x in l' ensures LocalOk(r'.heap, cx, x, hl'[x], l'[x]) {
      assert LocalOk(r'.heap, cx, x, r'.locals[x], r.locals[x]);
    }
  }

  lemma InvKeys(h: Heap, cx: Ctx, hg: RefStore, hl: RefStore, g: Store, l: Store)
    requires Inv(h, cx, hg, hl, g, l)
    ensures hg.Keys == g.Keys && hl.Keys == l.Keys && cx.bor <= l.Keys
  {
  }

  /** Main result for statements; RunSim is the one for expressions. */
  lemma {:induction false} ExecSim(c: Config, cx: Ctx, s: Stmt, h: Heap, hg: RefStore, hl: RefStore, g: Store, l: Store, fuel: nat)
    requires Inv(h, cx, hg, hl, g, l) && Fit(c, cx, ScanStmt(c.p, s), g) && SettledStmt(Mutables(c), c.safe, s)
    ensures StmtSim(h, cx, RunStmt(c, s, h, cx.at, hg, hl, fuel), Exec(c.p, c.caps, s, g, l, fuel))
    decreases fuel, s, 1
  {
    hide Inv, Fit, StmtSim, Leaves, ScanStmt, SettledStmt, ExprSim, Rep, Evolves, OutSim, Avoids;
    match s
    case Skip => SkipSim(c, cx, h, hg, hl, g, l);
    case Seq(a, b) => SeqSim(c, cx, s, h, hg, hl, g, l, fuel);
    case Define(x, e) => DefineSim(c, cx, s, h, hg, hl, g, l, fuel);
    case Assign(x, e) => AssignSim(c, cx, s, h, hg, hl, g, l, fuel);
    case IndexAssign(x, path, e) => IndexAssignSim(c, cx, s, h, hg, hl, g, l, fuel);
    case If(e, a, b) => IfSim(c, cx, s, h, hg, hl, g, l, fuel);
    case While(e, b) => WhileSim(c, cx, s, h, hg, hl, g, l, fuel);
    case Try(a, b) => TrySim(c, cx, s, h, hg, hl, g, l, fuel);
    case Return(e) => ReturnSim(c, cx, s, h, hg, hl, g, l, fuel);
    case Do(e) => DoSim(c, cx, s, h, hg, hl, g, l, fuel);
  }

  lemma SkipSim(c: Config, cx: Ctx, h: Heap, hg: RefStore, hl: RefStore, g: Store, l: Store)
    requires Inv(h, cx, hg, hl, g, l)
    ensures StmtSim(h, cx, TR(Next, h, hg, hl), SR(Next, g, l))
  {
    StaysPut(h, cx, hg, hl, g, l, Next, Next);
    Plain(h, cx.ban);
  }

  lemma {:induction false} SeqSim(c: Config, cx: Ctx, s: Stmt, h: Heap, hg: RefStore, hl: RefStore, g: Store, l: Store, fuel: nat)
    requires s.Seq? && Inv(h, cx, hg, hl, g, l) && Fit(c, cx, ScanStmt(c.p, s), g) && SettledStmt(Mutables(c), c.safe, s)
    ensures StmtSim(h, cx, RunStmt(c, s, h, cx.at, hg, hl, fuel), Exec(c.p, c.caps, s, g, l, fuel))
    decreases fuel, s, 0
  {
    hide Inv, Fit, StmtSim, Leaves, Rep, Evolves, OutSim, Avoids, Join;
    var a, b := s.first, s.second;
    FitJoin(c, cx, ScanStmt(c.p, a), ScanStmt(c.p, b), g);
    ExecSim(c, cx, a, h, hg, hl, g, l, fuel);
    var r', r := RunStmt(c, a, h, cx.at, hg, hl, fuel), Exec(c.p, c.caps, a, g, l, fuel);
    AfterStmt(c, cx, ScanStmt(c.p, b), h, hg, hl, g, l, r', r);
    if r.out.Next? {
      ExecSim(c, cx, b, r'.heap, r'.globals, r'.locals, r.globals, r.locals, fuel);
      StmtThen(h, r'.heap, cx, RunStmt(c, b, r'.heap, cx.at, r'.globals, r'.locals, fuel),
               Exec(c.p, c.caps, b, r.globals, r.locals, fuel));
    }
  }

  lemma {:induction false} DefineSim(c: Config, cx: Ctx, s: Stmt, h: Heap, hg: RefStore, hl: RefStore, g: Store, l: Store, fuel: nat)
    requires s.Define? && Inv(h, cx, hg, hl, g, l) && Fit(c, cx, ScanStmt(c.p, s), g) && SettledStmt(Mutables(c), c.safe, s)
    ensures StmtSim(h, cx, RunStmt(c, s, h, cx.at, hg, hl, fuel), Exec(c.p, c.caps, s, g, l, fuel))
    decreases fuel, s, 0
  {
    hide Inv, Fit, StmtSim, Leaves, Rep, Evolves, OutSim, Avoids, Join, Run, Eval, CopyTo;
    var x, e := s.x, s.init;
    FitJoin(c, cx, NO_FACTS.(binds := {x}, locals := {x}), ScanExpr(c.p, e), g);
    RunSim(c, cx, e, h, hg, hl, g, l, fuel);
    var r', r := Run(c, e, h, cx.at, hg, hl, fuel), Eval(c.p, c.caps, e, g, l, fuel);
    After(c, cx, ScanExpr(c.p, e), h, hg, hl, g, l, r', r);
    Plain(r'.heap, cx.ban);
    InvKeys(r'.heap, cx, r'.globals, hl, r.globals, l);
    if !r.out.Val? {
      Ends(h, cx, hg, hl, g, l, r', r, r'.out, r.out);
    } else if x in l || x in r.globals {
      Ends(h, cx, hg, hl, g, l, r', r, Fail, Fail);
    } else {
      BindLocal(r'.heap, cx, r'.globals, hl, r.globals, l, x, r'.out.v, r.out.v);
      var b := CopyTo(r'.heap, r'.out.v, LocalOf(cx.at.frame, x));
      EvolvesOut(h, r'.heap, cx);
      Finish(h, r'.heap, cx, TR(Next, b.heap, r'.globals, hl[x := b.v]), SR(Next, r.globals, l[x := r.out.v]));
    }
  }

  lemma Finish(h: Heap, h1: Heap, cx: Ctx, r': StmtRun, r: StmtResult)
    requires Evolves(h, h1, HotStmt(cx)) && Leaves(h1, cx, r', r)
    requires (r'.out.Next? && r.out.Next?) || (r'.out.Fail? && r.out.Fail?)
    ensures StmtSim(h, cx, r', r)
  {
    LeavesAfter(h, h1, cx, r', r);
    hide Leaves;
  }

  lemma FitWrites(c: Config, cx: Ctx, f: Facts, g: Store, x: Name)
    requires Fit(c, cx, f, g) && x in f.writes
    ensures x !in cx.bor && (Writable(cx.consts, x, g) ==> cx.loud) && cx.consts == c.p.consts
  {
    hide Loaded, EscapeAnalysis.SafeSet;
    if Frozen(c) && x in g { assert x !in Mutables(c); }
  }

  lemma {:induction false} AssignSim(c: Config, cx: Ctx, s: Stmt, h: Heap, hg: RefStore, hl: RefStore, g: Store, l: Store, fuel: nat)
    requires s.Assign? && Inv(h, cx, hg, hl, g, l) && Fit(c, cx, ScanStmt(c.p, s), g) && SettledStmt(Mutables(c), c.safe, s)
    ensures StmtSim(h, cx, RunStmt(c, s, h, cx.at, hg, hl, fuel), Exec(c.p, c.caps, s, g, l, fuel))
    decreases fuel, s, 0
  {
    hide Inv, Fit, StmtSim, Leaves, Rep, Evolves, OutSim, Avoids, Join, Run, Eval, Put, AliasEval.Store;
    var x, e := s.x, s.value;
    var own := NO_FACTS.(uses := {x}, writes := {x});
    FitJoin(c, cx, own, ScanExpr(c.p, e), g);
    FitWrites(c, cx, own, g, x);
    RunSim(c, cx, e, h, hg, hl, g, l, fuel);
    var r', r := Run(c, e, h, cx.at, hg, hl, fuel), Eval(c.p, c.caps, e, g, l, fuel);
    After(c, cx, ScanExpr(c.p, e), h, hg, hl, g, l, r', r);
    if !r.out.Val? {
      ExprSimOut(h, cx, r', r);
      Ends(h, cx, hg, hl, g, l, r', r, r'.out, r.out);
    } else {
      StoreSim(r'.heap, cx, r'.globals, hl, r.globals, l, x, r'.out.v, r.out.v);
      EvolvesOut(h, r'.heap, cx);
      PutKinds(cx.consts, x, r.out.v, r.globals, l);
      Finish(h, r'.heap, cx, AliasEval.Store(cx.consts, x, r'.out.v, r'.heap, cx.at, r'.globals, hl), Put(cx.consts, x, r.out.v, r.globals, l));
    }
  }

  lemma ExprSimOut(h: Heap, cx: Ctx, r': ExprRun<Ref>, r: ExprResult<Tree>)
    requires ExprSim(h, cx, r', r)
    ensures OutSim(r'.heap, cx.ban, r'.out, r.out)
  {
  }

  lemma PutKinds(consts: set<Name>, x: Name, v: Tree, g: Store, l: Store)
    ensures Put(consts, x, v, g, l).out.Next? || Put(consts, x, v, g, l).out.Fail?
  {
  }

  lemma WriteKinds(consts: set<Name>, x: Name, path: seq<Tree>, v: Tree, g: Store, l: Store)
    ensures WriteAt(consts, x, path, v, g, l).out.Next? || WriteAt(consts, x, path, v, g, l).out.Fail?
  {
  }

  /** Value, then target indices: what the write site receives. */
  lemma {:induction false} IndexAssignSim(c: Config, cx: Ctx, s: Stmt, h: Heap, hg: RefStore, hl: RefStore, g: Store, l: Store, fuel: nat)
    requires s.IndexAssign? && Inv(h, cx, hg, hl, g, l) && Fit(c, cx, ScanStmt(c.p, s), g) && SettledStmt(Mutables(c), c.safe, s)
    ensures StmtSim(h, cx, RunStmt(c, s, h, cx.at, hg, hl, fuel), Exec(c.p, c.caps, s, g, l, fuel))
    decreases fuel, s, 0
  {
    hide Inv, Fit, StmtSim, Leaves, Rep, Evolves, OutSim, Avoids, Join, Run, Eval, RunPath, EvalAll, WriteAt, StoreAt, Private,
         ListSim, ExprSim, Reverse, AlikeAll, GlobalsOwned;
    var x, path, e := s.x, s.path, s.value;
    var own := NO_FACTS.(uses := {x}, writes := {x});
    FitJoin(c, cx, own, Join(ScanExprs(c.p, path), ScanExpr(c.p, e)), g);
    FitJoin(c, cx, ScanExprs(c.p, path), ScanExpr(c.p, e), g);
    FitWrites(c, cx, own, g, x);
    InvKeys(h, cx, hg, hl, g, l);
    if x !in l && !Writable(cx.consts, x, g) {
      FailSim(c, cx, h, hg, hl, g, l);
      return;
    }
    RunSim(c, cx, e, h, hg, hl, g, l, fuel);
    var r', r := Run(c, e, h, cx.at, hg, hl, fuel), Eval(c.p, c.caps, e, g, l, fuel);
    After(c, cx, ScanExprs(c.p, path), h, hg, hl, g, l, r', r);
    if !r.out.Val? {
      ExprSimOut(h, cx, r', r);
      Ends(h, cx, hg, hl, g, l, r', r, r'.out, r.out);
      return;
    }
    var cl := LaterAll(c, cx, path);
    LaterAllFit(c, cx, path, r'.heap, r'.globals, hl, r.globals, l);
    PathSim(c, cl, path, r'.heap, r'.globals, hl, r.globals, l, fuel);
    var ri', ri := RunPath(c, path, r'.heap, cx.at, r'.globals, hl, fuel), EvalAll(c.p, c.caps, path, r.globals, l, fuel);
    AfterPath(c, cx, cl, h, r'.heap, r'.globals, hl, r.globals, l, ri', ri);
    if ri.out.Val? {
      HeldAcross(r'.heap, ri'.heap, cx, cl, r'.out.v, r.out.v);
      ReverseAlike(ri'.out.v, ri.out.v);
      StoreAtSim(ri'.heap, cx, ri'.globals, hl, ri.globals, l, x, Reverse(ri'.out.v), Reverse(ri.out.v), r'.out.v, r.out.v);
      WriteKinds(cx.consts, x, Reverse(ri.out.v), r.out.v, ri.globals, l);
      Finish(h, ri'.heap, cx, StoreAt(cx.consts, x, Reverse(ri'.out.v), r'.out.v, ri'.heap, cx.at, ri'.globals, hl),
             WriteAt(cx.consts, x, Reverse(ri.out.v), r.out.v, ri.globals, l));
    }
  }

  lemma FailSim(c: Config, cx: Ctx, h: Heap, hg: RefStore, hl: RefStore, g: Store, l: Store)
    requires Inv(h, cx, hg, hl, g, l)
    ensures StmtSim(h, cx, TR(Fail, h, hg, hl), SR(Fail, g, l))
  {
    StaysPut(h, cx, hg, hl, g, l, Fail, Fail);
    Plain(h, cx.ban);
  }

  lemma AfterPath(c: Config, cx: Ctx, cl: Ctx, h: Heap, h1: Heap, hg: RefStore, hl: RefStore, g: Store, l: Store,
                  ri': ExprRun<seq<Ref>>, ri: ExprResult<seq<Tree>>)
    requires Inv(h1, cx, hg, hl, g, l) && Evolves(h, h1, Hot(cx)) && (cl == cx || cl == Hushed(cx)) && PathSimulated(h1, cl, ri', ri)
    ensures Inv(ri'.heap, cx, ri'.globals, hl, ri.globals, l) && Evolves(h, ri'.heap, HotStmt(cx)) && Evolves(h1, ri'.heap, Hot(cl))
    ensures SameKind(ri'.out, ri.out) && (ri.out.Val? ==> ri'.out.Val? && AlikeAll(ri'.out.v, ri.out.v)) && Inv0(cx)
    ensures ri.out.Fail? ==> StmtSim(h, cx, TR(Fail, ri'.heap, ri'.globals, hl), SR(Fail, ri.globals, l))
    ensures ri.out.NoFuel? ==> StmtSim(h, cx, TR(NoFuel, ri'.heap, ri'.globals, hl), SR(NoFuel, ri.globals, l))
    ensures ri.out.Next? ==> StmtSim(h, cx, TR(Next, ri'.heap, ri'.globals, hl), SR(Next, ri.globals, l))
  {
    LaterList(h1, cx, cl, ri', ri);
    hide Evolves, GlobalsOwned, AlikeAll;
    InvStep(h1, ri'.heap, cx, hg, hl, g, l, ri'.globals, ri.globals);
    EvolvesTrans(h, h1, ri'.heap, Hot(cx));
    EvolvesOut(h, ri'.heap, cx);
    Plain(ri'.heap, cx.ban);
    hide LocalsOk, OutSim;
  }

  lemma TruthAlike(v: Ref, t: Tree)
    requires Alike(v, t)
    ensures TruthRef(v) == Truth(t)
  {
  }

  lemma {:induction false} IfSim(c: Config, cx: Ctx, s: Stmt, h: Heap, hg: RefStore, hl: RefStore, g: Store, l: Store, fuel: nat)
    requires s.If? && Inv(h, cx, hg, hl, g, l) && Fit(c, cx, ScanStmt(c.p, s), g) && SettledStmt(Mutables(c), c.safe, s)
    ensures StmtSim(h, cx, RunStmt(c, s, h, cx.at, hg, hl, fuel), Exec(c.p, c.caps, s, g, l, fuel))
    decreases fuel, s, 0
  {
    hide Inv, Fit, StmtSim, Leaves, Rep, Evolves, OutSim, Avoids, Join, Run, Eval, Scope, ExprSim, Alike, Truth, TruthRef;
    var e, a, b := s.cond, s.thn, s.els;
    FitJoin(c, cx, ScanExpr(c.p, e), Join(ScanStmt(c.p, a), ScanStmt(c.p, b)), g);
    RunSim(c, cx, e, h, hg, hl, g, l, fuel);
    var r', r := Run(c, e, h, cx.at, hg, hl, fuel), Eval(c.p, c.caps, e, g, l, fuel);
    After(c, cx, Join(ScanStmt(c.p, a), ScanStmt(c.p, b)), h, hg, hl, g, l, r', r);
    FitJoin(c, cx, ScanStmt(c.p, a), ScanStmt(c.p, b), r.globals);
    if !r.out.Val? {
      ExprSimOut(h, cx, r', r);
      Ends(h, cx, hg, hl, g, l, r', r, r'.out, r.out);
      return;
    }
    TruthAlike(r'.out.v, r.out.v);
    if Truth(r.out.v).None? {
      Plain(r'.heap, cx.ban);
      Ends(h, cx, hg, hl, g, l, r', r, Fail, Fail);
      return;
    }
    var arm := if Truth(r.out.v).value then a else b;
    ExecSim(c, cx, arm, r'.heap, r'.globals, hl, r.globals, l, fuel);
    var rs', rs := RunStmt(c, arm, r'.heap, cx.at, r'.globals, hl, fuel), Exec(c.p, c.caps, arm, r.globals, l, fuel);
    EvolvesOut(h, r'.heap, cx);
    StmtThen(h, r'.heap, cx, rs', rs);
    InvKeys(h, cx, hg, hl, g, l);
    CloseSim(h, cx, rs', rs, hl, l);
  }

  lemma {:induction false} TrySim(c: Config, cx: Ctx, s: Stmt, h: Heap, hg: RefStore, hl: RefStore, g: Store, l: Store, fuel: nat)
    requires s.Try? && Inv(h, cx, hg, hl, g, l) && Fit(c, cx, ScanStmt(c.p, s), g) && SettledStmt(Mutables(c), c.safe, s)
    ensures StmtSim(h, cx, RunStmt(c, s, h, cx.at, hg, hl, fuel), Exec(c.p, c.caps, s, g, l, fuel))
    decreases fuel, s, 0
  {
    hide Inv, Fit, StmtSim, Leaves, Rep, Evolves, OutSim, Avoids, Join, Scope;
    var a, b := s.body, s.handler;
    FitJoin(c, cx, ScanStmt(c.p, a), ScanStmt(c.p, b), g);
    InvKeys(h, cx, hg, hl, g, l);
    ExecSim(c, cx, a, h, hg, hl, g, l, fuel);
    var ra', ra := CloseRun(RunStmt(c, a, h, cx.at, hg, hl, fuel), hl), Close(Exec(c.p, c.caps, a, g, l, fuel), l);
    CloseSim(h, cx, RunStmt(c, a, h, cx.at, hg, hl, fuel), Exec(c.p, c.caps, a, g, l, fuel), hl, l);
    AfterStmt(c, cx, ScanStmt(c.p, b), h, hg, hl, g, l, ra', ra);
    if ra.out.Fail? {
      ExecSim(c, cx, b, ra'.heap, ra'.globals, ra'.locals, ra.globals, ra.locals, fuel);
      var rb', rb := RunStmt(c, b, ra'.heap, cx.at, ra'.globals, ra'.locals, fuel), Exec(c.p, c.caps, b, ra.globals, ra.locals, fuel);
      StmtThen(h, ra'.heap, cx, rb', rb);
      CloseSim(h, cx, rb', rb, hl, l);
    }
  }

  lemma {:induction false} ReturnSim(c: Config, cx: Ctx, s: Stmt, h: Heap, hg: RefStore, hl: RefStore, g: Store, l: Store, fuel: nat)
    requires s.Return? && Inv(h, cx, hg, hl, g, l) && Fit(c, cx, ScanStmt(c.p, s), g) && SettledStmt(Mutables(c), c.safe, s)
    ensures StmtSim(h, cx, RunStmt(c, s, h, cx.at, hg, hl, fuel), Exec(c.p, c.caps, s, g, l, fuel))
    decreases fuel, s, 0
  {
    hide Inv, Fit, StmtSim, Leaves, Rep, Evolves, OutSim, Avoids, ExprSim, Run, Eval;
    RunSim(c, cx, s.value, h, hg, hl, g, l, fuel);
    var r', r := Run(c, s.value, h, cx.at, hg, hl, fuel), Eval(c.p, c.caps, s.value, g, l, fuel);
    ExprSimOut(h, cx, r', r);
    Ends(h, cx, hg, hl, g, l, r', r, r'.out, r.out);
  }

  lemma {:induction false} DoSim(c: Config, cx: Ctx, s: Stmt, h: Heap, hg: RefStore, hl: RefStore, g: Store, l: Store, fuel: nat)
    requires s.Do? && Inv(h, cx, hg, hl, g, l) && Fit(c, cx, ScanStmt(c.p, s), g) && SettledStmt(Mutables(c), c.safe, s)
    ensures StmtSim(h, cx, RunStmt(c, s, h, cx.at, hg, hl, fuel), Exec(c.p, c.caps, s, g, l, fuel))
    decreases fuel, s, 0
  {
    hide Inv, Fit, StmtSim, Leaves, Rep, Evolves, OutSim, Avoids, ExprSim, Run, Eval;
    RunSim(c, cx, s.e, h, hg, hl, g, l, fuel);
    var r', r := Run(c, s.e, h, cx.at, hg, hl, fuel), Eval(c.p, c.caps, s.e, g, l, fuel);
    ExprSimOut(h, cx, r', r);
    OutKinds(r'.heap, cx.ban, r'.out, r.out);
    Plain(r'.heap, cx.ban);
    Ends(h, cx, hg, hl, g, l, r', r, if r'.out.Val? then Next else r'.out, if r.out.Val? then Next else r.out);
  }

  lemma {:induction false} WhileSim(c: Config, cx: Ctx, s: Stmt, h: Heap, hg: RefStore, hl: RefStore, g: Store, l: Store, fuel: nat)
    requires s.While? && Inv(h, cx, hg, hl, g, l) && Fit(c, cx, ScanStmt(c.p, s), g) && SettledStmt(Mutables(c), c.safe, s)
    ensures StmtSim(h, cx, RunStmt(c, s, h, cx.at, hg, hl, fuel), Exec(c.p, c.caps, s, g, l, fuel))
    decreases fuel, s, 0
  {
    hide Inv, Fit, StmtSim, Leaves, Rep, Evolves, OutSim, Avoids, Join, Run, Eval, Scope, ExprSim, Alike, Truth, TruthRef;
    var e, b := s.cond, s.body;
    FitJoin(c, cx, ScanExpr(c.p, e), ScanStmt(c.p, b), g);
    RunSim(c, cx, e, h, hg, hl, g, l, fuel);
    var r', r := Run(c, e, h, cx.at, hg, hl, fuel), Eval(c.p, c.caps, e, g, l, fuel);
    After(c, cx, ScanStmt(c.p, b), h, hg, hl, g, l, r', r);
    Plain(r'.heap, cx.ban);
    if !r.out.Val? {
      ExprSimOut(h, cx, r', r);
      Ends(h, cx, hg, hl, g, l, r', r, r'.out, r.out);
      return;
    }
    TruthAlike(r'.out.v, r.out.v);
    if Truth(r.out.v).None? {
      Ends(h, cx, hg, hl, g, l, r', r, Fail, Fail);
      return;
    }
    if !Truth(r.out.v).value {
      Ends(h, cx, hg, hl, g, l, r', r, Next, Next);
      return;
    }
    ExecSim(c, cx, b, r'.heap, r'.globals, hl, r.globals, l, fuel);
    EvolvesOut(h, r'.heap, cx);
    InvKeys(h, cx, hg, hl, g, l);
    var rs', rs := RunStmt(c, b, r'.heap, cx.at, r'.globals, hl, fuel), Exec(c.p, c.caps, b, r.globals, l, fuel);
    StmtThen(h, r'.heap, cx, rs', rs);
    CloseSim(h, cx, rs', rs, hl, l);
    var rb', rb := CloseRun(rs', hl), Close(rs, l);
    AfterStmt(c, cx, ScanStmt(c.p, s), h, hg, hl, g, l, rb', rb);
    if rb.out.Next? {
      if fuel == 0 {
        OutOfFuel(h, cx, rb', rb);
      } else {
        ExecSim(c, cx, s, rb'.heap, rb'.globals, rb'.locals, rb.globals, rb.locals, fuel - 1);
        StmtThen(h, rb'.heap, cx, RunStmt(c, s, rb'.heap, cx.at, rb'.globals, rb'.locals, fuel - 1),
                 Exec(c.p, c.caps, s, rb.globals, rb.locals, fuel - 1));
      }
    }
  }

  lemma OutOfFuel(h: Heap, cx: Ctx, r': StmtRun, r: StmtResult)
    requires StmtSim(h, cx, r', r)
    ensures StmtSim(h, cx, r'.(out := NoFuel), r.(out := NoFuel))
  {
    hide Evolves, GlobalsOwned, LocalsOk;
  }
}
