/**
 The fragment of Jennifer the copy-elision analyses are about: globals and locals,
 nested list values, in-place index writes, named calls, calls through a function
 value, `spawn`, loops and `try`. Names are resolved by spelling, as the scans do.
 */
module Syntax {
  type Name = string

  datatype Scalar = Null | Int(n: int) | Fn(target: Name)

  datatype Expr =
    | Lit(s: Scalar)
    | Var(x: Name)
    | Bin(left: Expr, right: Expr)
    | Index(target: Expr, index: Expr)
    | ListLit(elems: Exprs)
    | Call(callee: Name, args: Exprs)
    | CallValue(fn: Expr, args: Exprs)
    | Spawn(body: Stmt)

  datatype Exprs = ENil | ECons(head: Expr, tail: Exprs)

  datatype Stmt =
    | Skip
    | Seq(first: Stmt, second: Stmt)
    | Define(x: Name, init: Expr)
    | Assign(x: Name, value: Expr)
    | IndexAssign(x: Name, path: Exprs, value: Expr)
    | If(cond: Expr, thn: Stmt, els: Stmt)
    | While(cond: Expr, body: Stmt)
    | Try(body: Stmt, handler: Stmt)
    | Return(value: Expr)
    | Do(e: Expr)

  /** A top-level method; `borrow[k]` is the resolver's "parameter k is never written" mark. */
  datatype Method = Method(params: seq<Name>, borrow: seq<bool>, body: Stmt)

  /** The methods, and the globals declared `def const`. */
  datatype Program = Program(methods: map<Name, Method>, consts: set<Name>)

  function Len(es: Exprs): nat {
    match es
    case ENil => 0
    case ECons(_, tl) => 1 + Len(tl)
  }
}

/**
 What one walk over a body finds. `globalHazardScan`, `refScan` and
 `collectMethodLocals` are three walkers over the same nodes; their fields are
 gathered in one record. A name called but not in the method table, and a call
 through a function value, make the body dynamic.
 */
module Scans {
  import opened Syntax

  datatype Facts = Facts(
    uses: set<Name>,          // every variable name read or written
    binds: set<Name>,         // every name a `def` introduces, spawn bodies included
    locals: set<Name>,        // the same without spawn bodies (collectMethodLocals)
    writes: set<Name>,        // roots of assignments outside spawn bodies
    callees: set<Name>,       // named methods called outside spawn bodies
    spawnCallees: set<Name>,  // named methods called inside spawn bodies
    dynamic: bool,            // a dynamic or unresolved call outside spawn bodies
    spawnDynamic: bool)        // ... inside a spawn body

  const NO_FACTS := Facts({}, {}, {}, {}, {}, {}, false, false)

  function Join(a: Facts, b: Facts): Facts {
    Facts(a.uses + b.uses, a.binds + b.binds, a.locals + b.locals, a.writes + b.writes,
          a.callees + b.callees, a.spawnCallees + b.spawnCallees,
          a.dynamic || b.dynamic, a.spawnDynamic || b.spawnDynamic)
  }

  /** A spawn body's writes land in its snapshot; only its calls and reads matter outside. */
  function InSpawn(a: Facts): Facts {
    Facts(a.uses, a.binds, {}, {}, {}, a.callees + a.spawnCallees, false, a.dynamic || a.spawnDynamic)
  }

  function ScanExpr(p: Program, e: Expr): Facts {
    match e
    case Lit(_) => NO_FACTS
    case Var(x) => NO_FACTS.(uses := {x})
    case Bin(a, b) => Join(ScanExpr(p, a), ScanExpr(p, b))
    case Index(a, b) => Join(ScanExpr(p, a), ScanExpr(p, b))
    case ListLit(es) => ScanExprs(p, es)
    case Call(f, es) =>
      Join(if f in p.methods then NO_FACTS.(callees := {f}) else NO_FACTS.(dynamic := true), ScanExprs(p, es))
    case CallValue(c, es) => Join(Join(ScanExpr(p, c), ScanExprs(p, es)), NO_FACTS.(dynamic := true))
    case Spawn(s) => InSpawn(ScanStmt(p, s))
  }

  function ScanExprs(p: Program, es: Exprs): Facts {
    match es
    case ENil => NO_FACTS
    case ECons(e, tl) => Join(ScanExpr(p, e), ScanExprs(p, tl))
  }

  function ScanStmt(p: Program, s: Stmt): Facts {
    match s
    case Skip => NO_FACTS
    case Seq(a, b) => Join(ScanStmt(p, a), ScanStmt(p, b))
    case Define(x, e) => Join(NO_FACTS.(binds := {x}, locals := {x}), ScanExpr(p, e))
    case Assign(x, e) => Join(NO_FACTS.(uses := {x}, writes := {x}), ScanExpr(p, e))
    case IndexAssign(x, path, e) =>
      Join(NO_FACTS.(uses := {x}, writes := {x}), Join(ScanExprs(p, path), ScanExpr(p, e)))
    case If(c, a, b) => Join(ScanExpr(p, c), Join(ScanStmt(p, a), ScanStmt(p, b)))
    case While(c, b) => Join(ScanExpr(p, c), ScanStmt(p, b))
    case Try(a, b) => Join(ScanStmt(p, a), ScanStmt(p, b))
    case Return(e) => ScanExpr(p, e)
    case Do(e) => ScanExpr(p, e)
  }

  function MethodFacts(p: Program, m: Name): Facts
    requires m in p.methods
  {
    ScanStmt(p, p.methods[m].body)
  }

  function ParamSet(m: Method): set<Name> {
    set k | 0 <= k < |m.params| :: m.params[k]
  }

  /** Every name a method body treats as local: its parameters and its own defs. */
  function MethodLocals(p: Program, m: Name): set<Name>
    requires m in p.methods
  {
    ParamSet(p.methods[m]) + MethodFacts(p, m).locals
  }

  /** The no-shadowing rule for a body: no name it binds is a global. */
  predicate NoShadow(f: Facts, globals: set<Name>) {
    f.binds !! globals
  }

  /** No method binds a global's name, and a parameter marked borrowable is never written. */
  ghost predicate WellFormed(p: Program, globals: set<Name>) {
    forall m :: m in p.methods ==>
      && NoShadow(MethodFacts(p, m), globals)
      && ParamSet(p.methods[m]) !! globals
      && |p.methods[m].borrow| == |p.methods[m].params|
      && forall k :: 0 <= k < |p.methods[m].params| && p.methods[m].borrow[k] ==>
           p.methods[m].params[k] !in MethodFacts(p, m).writes
  }

  lemma {:induction false} LocalsAreBinds(p: Program, s: Stmt)
    ensures ScanStmt(p, s).locals <= ScanStmt(p, s).binds
  {
    match s
    case Seq(a, b) => LocalsAreBinds(p, a); LocalsAreBinds(p, b);
    case Define(x, e) => ExprLocals(p, e);
    case Assign(x, e) => ExprLocals(p, e);
    case IndexAssign(x, path, e) => ExprLocals(p, e); ExprsLocals(p, path);
    case If(c, a, b) => ExprLocals(p, c); LocalsAreBinds(p, a); LocalsAreBinds(p, b);
    case While(c, b) => ExprLocals(p, c); LocalsAreBinds(p, b);
    case Try(a, b) => LocalsAreBinds(p, a); LocalsAreBinds(p, b);
    case Return(e) => ExprLocals(p, e);
    case Do(e) => ExprLocals(p, e);
    case Skip =>
  }

  lemma {:induction false} ExprLocals(p: Program, e: Expr)
    ensures ScanExpr(p, e).locals == {}
  {
    match e
    case Bin(a, b) => ExprLocals(p, a); ExprLocals(p, b);
    case Index(a, b) => ExprLocals(p, a); ExprLocals(p, b);
    case ListLit(es) => ExprsLocals(p, es);
    case Call(f, es) => ExprsLocals(p, es);
    case CallValue(c, es) => ExprLocals(p, c); ExprsLocals(p, es);
    case _ =>
  }

  lemma {:induction false} ExprsLocals(p: Program, es: Exprs)
    ensures ScanExprs(p, es).locals == {}
  {
    match es
    case ENil =>
    case ECons(e, tl) => ExprLocals(p, e); ExprsLocals(p, tl);
  }
}
