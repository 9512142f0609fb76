/** `def const` is deep: no run of any program, spawned or not, changes a constant or any part of one. */
module Constants {
  import opened Options
  import opened Syntax
  import opened ValueSemantics

  ghost predicate Keeps(consts: set<Name>, g: Store, g': Store) {
    g'.Keys == g.Keys && forall x :: x in g && x in consts ==> g'[x] == g[x]
  }

  lemma KeepsAll(consts: set<Name>, g: Store)
    ensures Keeps(consts, g, g)
  {
  }

  lemma Then(consts: set<Name>, g: Store, g1: Store, g2: Store)
    requires Keeps(consts, g, g1) && Keeps(consts, g1, g2)
    ensures Keeps(consts, g, g2)
  {
  }

  lemma StoresKeep(consts: set<Name>, x: Name, path: seq<Tree>, v: Tree, g: Store, l: Store)
    ensures Keeps(consts, g, Put(consts, x, v, g, l).globals) && Keeps(consts, g, WriteAt(consts, x, path, v, g, l).globals)
  {
    hide Update;
  }

  lemma {:induction false} EvalKeeps(p: Program, caps: Option<Summary>, e: Expr, g: Store, l: Store, fuel: nat)
    ensures Keeps(p.consts, g, Eval(p, caps, e, g, l, fuel).globals)
    decreases fuel, e, 1
  {
    hide Keeps, Add, Select;
    KeepsAll(p.consts, g);
    match e
    case Bin(a, b) => TwoKeep(p, caps, e, a, b, g, l, fuel);
    case Index(a, b) => TwoKeep(p, caps, e, a, b, g, l, fuel);
    case ListLit(es) => EvalAllKeeps(p, caps, es, g, l, fuel);
    case Call(f, es) =>
      if f in p.methods { InvokeKeeps(p, caps, f, es, g, l, fuel); }
    case CallValue(c, es) =>
      EvalKeeps(p, caps, c, g, l, fuel);
      var rc := Eval(p, caps, c, g, l, fuel);
      if rc.out.Val? && rc.out.v.Atom? && rc.out.v.s.Fn? && rc.out.v.s.target in p.methods {
        InvokeKeeps(p, caps, rc.out.v.s.target, es, rc.globals, l, fuel);
        Then(p.consts, g, rc.globals, Invoke(p, caps, rc.out.v.s.target, es, rc.globals, l, fuel).globals);
      }
    case _ =>
  }

  lemma {:induction false} TwoKeep(p: Program, caps: Option<Summary>, e: Expr, a: Expr, b: Expr, g: Store, l: Store, fuel: nat)
    requires e == Bin(a, b) || e == Index(a, b)
    ensures Keeps(p.consts, g, Eval(p, caps, a, g, l, fuel).globals)
    ensures Keeps(p.consts, g, Eval(p, caps, b, Eval(p, caps, a, g, l, fuel).globals, l, fuel).globals)
    decreases fuel, e, 0
  {
    hide Keeps, Eval;
    EvalKeeps(p, caps, a, g, l, fuel);
    var ra := Eval(p, caps, a, g, l, fuel);
    EvalKeeps(p, caps, b, ra.globals, l, fuel);
    Then(p.consts, g, ra.globals, Eval(p, caps, b, ra.globals, l, fuel).globals);
  }

  lemma {:induction false} EvalAllKeeps(p: Program, caps: Option<Summary>, es: Exprs, g: Store, l: Store, fuel: nat)
    ensures Keeps(p.consts, g, EvalAll(p, caps, es, g, l, fuel).globals)
    decreases fuel, es, 0
  {
    hide Keeps, Eval;
    match es
    case ENil => KeepsAll(p.consts, g);
    case ECons(e, tl) =>
      EvalKeeps(p, caps, e, g, l, fuel);
      var r := Eval(p, caps, e, g, l, fuel);
      EvalAllKeeps(p, caps, tl, r.globals, l, fuel);
      Then(p.consts, g, r.globals, EvalAll(p, caps, tl, r.globals, l, fuel).globals);
  }

  lemma {:induction false} InvokeKeeps(p: Program, caps: Option<Summary>, f: Name, es: Exprs, g: Store, l: Store, fuel: nat)
    requires f in p.methods
    ensures Keeps(p.consts, g, Invoke(p, caps, f, es, g, l, fuel).globals)
    decreases fuel, es, 1
  {
    hide Keeps, EvalAll, Exec;
    KeepsAll(p.consts, g);
    EvalAllKeeps(p, caps, es, g, l, fuel);
    var m, ra := p.methods[f], EvalAll(p, caps, es, g, l, fuel);
    if fuel > 0 && ra.out.Val? && |m.params| == Len(es) {
      ExecKeeps(p, caps, m.body, ra.globals, Bind(m.params, ra.out.v), fuel - 1);
      Then(p.consts, g, ra.globals, Exec(p, caps, m.body, ra.globals, Bind(m.params, ra.out.v), fuel - 1).globals);
    }
  }

  /** On every run of every program, each constant ends with the value it began with. */
  lemma {:induction false} ExecKeeps(p: Program, caps: Option<Summary>, s: Stmt, g: Store, l: Store, fuel: nat)
    ensures Keeps(p.consts, g, Exec(p, caps, s, g, l, fuel).globals)
    decreases fuel, s, 1
  {
    hide Keeps, Eval, EvalAll, Scope, Put, WriteAt;
    KeepsAll(p.consts, g);
    match s
    case Skip =>
    case Seq(a, b) =>
      ExecKeeps(p, caps, a, g, l, fuel);
      var r := Exec(p, caps, a, g, l, fuel);
      ExecKeeps(p, caps, b, r.globals, r.locals, fuel);
      Then(p.consts, g, r.globals, Exec(p, caps, b, r.globals, r.locals, fuel).globals);
    case Define(x, e) => EvalKeeps(p, caps, e, g, l, fuel);
    case Assign(x, e) =>
      EvalKeeps(p, caps, e, g, l, fuel);
      var r := Eval(p, caps, e, g, l, fuel);
      if r.out.Val? {
        StoresKeep(p.consts, x, [], r.out.v, r.globals, l);
        Then(p.consts, g, r.globals, Put(p.consts, x, r.out.v, r.globals, l).globals);
      }
    case IndexAssign(x, path, e) => IndexAssignKeeps(p, caps, s, g, l, fuel);
    case If(c, a, b) =>
      EvalKeeps(p, caps, c, g, l, fuel);
      var r := Eval(p, caps, c, g, l, fuel);
      if r.out.Val? && Truth(r.out.v).Some? {
        var arm := if Truth(r.out.v).value then a else b;
        ExecKeeps(p, caps, arm, r.globals, l, fuel);
        Then(p.consts, g, r.globals, Exec(p, caps, arm, r.globals, l, fuel).globals);
      }
    case While(c, b) => WhileKeeps(p, caps, s, g, l, fuel);
    case Try(a, b) =>
      ExecKeeps(p, caps, a, g, l, fuel);
      var ra := Close(Exec(p, caps, a, g, l, fuel), l);
      ExecKeeps(p, caps, b, ra.globals, ra.locals, fuel);
      Then(p.consts, g, ra.globals, Exec(p, caps, b, ra.globals, ra.locals, fuel).globals);
    case Return(e) => EvalKeeps(p, caps, e, g, l, fuel);
    case Do(e) => EvalKeeps(p, caps, e, g, l, fuel);
  }

  lemma {:induction false} IndexAssignKeeps(p: Program, caps: Option<Summary>, s: Stmt, g: Store, l: Store, fuel: nat)
    requires s.IndexAssign?
    ensures Keeps(p.consts, g, Exec(p, caps, s, g, l, fuel).globals)
    decreases fuel, s, 0
  {
    hide Keeps, Eval, EvalAll, Reverse, WriteAt;
    KeepsAll(p.consts, g);
    EvalKeeps(p, caps, s.value, g, l, fuel);
    var r := Eval(p, caps, s.value, g, l, fuel);
    EvalAllKeeps(p, caps, s.path, r.globals, l, fuel);
    var ri := EvalAll(p, caps, s.path, r.globals, l, fuel);
    Then(p.consts, g, r.globals, ri.globals);
    if r.out.Val? && ri.out.Val? {
      StoresKeep(p.consts, s.x, Reverse(ri.out.v), r.out.v, ri.globals, l);
      Then(p.consts, g, ri.globals, WriteAt(p.consts, s.x, Reverse(ri.out.v), r.out.v, ri.globals, l).globals);
    }
  }

  lemma {:induction false} WhileKeeps(p: Program, caps: Option<Summary>, s: Stmt, g: Store, l: Store, fuel: nat)
    requires s.While?
    ensures Keeps(p.consts, g, Exec(p, caps, s, g, l, fuel).globals)
    decreases fuel, s, 0
  {
    hide Keeps, Eval, Scope;
    EvalKeeps(p, caps, s.cond, g, l, fuel);
    var r := Eval(p, caps, s.cond, g, l, fuel);
    if r.out.Val? && Truth(r.out.v) == Some(true) {
      ExecKeeps(p, caps, s.body, r.globals, l, fuel);
      var rb := Close(Exec(p, caps, s.body, r.globals, l, fuel), l);
      Then(p.consts, g, r.globals, rb.globals);
      if rb.out.Next? && fuel > 0 {
        ExecKeeps(p, caps, s, rb.globals, rb.locals, fuel - 1);
        Then(p.consts, g, rb.globals, Exec(p, caps, s, rb.globals, rb.locals, fuel - 1).globals);
      }
    }
  }
}
