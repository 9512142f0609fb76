/**
 The language as its users read it: every value is a tree of its own, every bind
 and every `spawn` takes the whole value, and nothing is shared. `caps` selects
 what a spawn snapshots: `None` is the copy-all default.
 */
module ValueSemantics {
  import opened Options
  import opened Syntax
  import opened Scans

  datatype Tree = Atom(s: Scalar) | Lst(elems: seq<Tree>)

  /** Outcome of an expression (never `Next`) or a statement (`Val` is a return). */
  datatype Out<+V> = Next | Val(v: V) | Fail | NoFuel

  type Store = map<Name, Tree>

  datatype ExprResult<+V> = ER(out: Out<V>, globals: Store)
  datatype StmtResult = SR(out: Out<Tree>, globals: Store, locals: Store)

  /** What the capture analysis records for a method: the globals it can name, or "all". */
  datatype Refs = Refs(names: set<Name>, all: bool)
  type Summary = map<Name, Refs>

  /** `SpawnExpr.Captures`. */
  datatype Captures = AllGlobals | Only(names: set<Name>)

  function CalledNames(summ: Summary, callees: set<Name>): set<Name> {
    set c, x | c in callees && c in summ && x in summ[c].names :: x
  }

  /** stampSpawn: the body's own references plus those of the methods it calls. */
  function Stamp(summ: Summary, f: Facts): Captures {
    var callees := f.callees + f.spawnCallees;
    if f.dynamic || f.spawnDynamic || exists c :: c in callees && (c !in summ || summ[c].all) then AllGlobals
    else Only((f.uses - f.locals) + CalledNames(summ, callees))
  }

  /** The global frame a spawn body starts from. */
  function Snapshot(p: Program, caps: Option<Summary>, body: Stmt, g: Store): Store {
    if caps.None? then g
    else match Stamp(caps.value, ScanStmt(p, body))
      case AllGlobals => g
      case Only(names) => map x | x in g && x in names :: g[x]
  }

  function Add(a: Tree, b: Tree): Out<Tree> {
    if a.Atom? && a.s.Int? && b.Atom? && b.s.Int? then Val(Atom(Int(a.s.n + b.s.n))) else Fail
  }

  function Select(a: Tree, b: Tree): Out<Tree> {
    if a.Lst? && b.Atom? && b.s.Int? && 0 <= b.s.n < |a.elems| then Val(a.elems[b.s.n]) else Fail
  }

  /** `Some(b)` when the tree is usable as a condition. */
  function Truth(t: Tree): Option<bool> {
    if t.Atom? && t.s.Int? then Some(t.s.n != 0) else None
  }

  /** Replace the element at `path` (root step first), or nothing if a step is out of range. */
  function Update(t: Tree, path: seq<Tree>, v: Tree): Option<Tree>
    decreases |path|
  {
    if path == [] || !t.Lst? || !path[0].Atom? || !path[0].s.Int? || !(0 <= path[0].s.n < |t.elems|) then None
    else
      var i := path[0].s.n;
      if |path| == 1 then Some(Lst(t.elems[i := v]))
      else
        match Update(t.elems[i], path[1..], v)
        case None => None
        case Some(t') => Some(Lst(t.elems[i := t']))
  }

  function Reverse<T>(s: seq<T>): seq<T> {
    if s == [] then [] else Reverse(s[1..]) + [s[0]]
  }

  function Bind<V>(params: seq<Name>, vs: seq<V>): map<Name, V>
    requires |params| == |vs|
  {
    if params == [] then map[] else Bind(params[1..], vs[1..])[params[0] := vs[0]]
  }

  /** Leave a block: names the block introduced go out of scope. */
  function Close(r: StmtResult, outer: Store): StmtResult {
    r.(locals := Scope(r.locals, outer))
  }

  function Scope<V>(inner: map<Name, V>, outer: map<Name, V>): map<Name, V> {
    map x | x in inner && x in outer :: inner[x]
  }

  function CallResult(o: Out<Tree>): Out<Tree> {
    if o.Next? then Val(Atom(Null)) else o
  }

  /** Assign to the binding of `x`: the local if there is one, else the global, unless it is constant. */
  function Put(consts: set<Name>, x: Name, v: Tree, g: Store, l: Store): (r: StmtResult)
    ensures r.globals.Keys == g.Keys
  {
    if x in l then SR(Next, g, l[x := v])
    else if Writable(consts, x, g) then SR(Next, g[x := v], l)
    else SR(Fail, g, l)
  }

  /** A global whose contents may change; a constant is constant at every depth. */
  predicate Writable<V>(consts: set<Name>, x: Name, g: map<Name, V>) { x in g && x !in consts }

  function WriteAt(consts: set<Name>, x: Name, path: seq<Tree>, v: Tree, g: Store, l: Store): (r: StmtResult)
    ensures r.globals.Keys == g.Keys
  {
    if x !in l && !Writable(consts, x, g) then SR(Fail, g, l) else
    match Update(if x in l then l[x] else g[x], path, v)
    case None => SR(Fail, g, l)
    case Some(t) => Put(consts, x, t, g, l)
  }

  function Eval(p: Program, caps: Option<Summary>, e: Expr, g: Store, l: Store, fuel: nat): (r: ExprResult<Tree>)
    ensures r.globals.Keys == g.Keys
    decreases fuel, e, 0
  {
    match e
    case Lit(s) => ER(Val(Atom(s)), g)
    case Var(x) => ER(if x in l then Val(l[x]) else if x in g then Val(g[x]) else Fail, g)
    case Bin(a, b) =>
      var ra := Eval(p, caps, a, g, l, fuel);
      if !ra.out.Val? then ra else
      var rb := Eval(p, caps, b, ra.globals, l, fuel);
      if !rb.out.Val? then rb else ER(Add(ra.out.v, rb.out.v), rb.globals)
    case Index(a, b) =>
      var ra := Eval(p, caps, a, g, l, fuel);
      if !ra.out.Val? then ra else
      var rb := Eval(p, caps, b, ra.globals, l, fuel);
      if !rb.out.Val? then rb else ER(Select(ra.out.v, rb.out.v), rb.globals)
    case ListLit(es) =>
      var r := EvalAll(p, caps, es, g, l, fuel);
      ER(match r.out case Val(vs) => Val(Lst(vs)) case Fail => Fail case NoFuel => NoFuel case Next => Next, r.globals)
    case Call(f, es) =>
      if f !in p.methods then ER(Fail, g) else Invoke(p, caps, f, es, g, l, fuel)
    case CallValue(c, es) =>
      var rc := Eval(p, caps, c, g, l, fuel);
      if !rc.out.Val? then rc
      else if !(rc.out.v.Atom? && rc.out.v.s.Fn? && rc.out.v.s.target in p.methods) then ER(Fail, rc.globals)
      else Invoke(p, caps, rc.out.v.s.target, es, rc.globals, l, fuel)
    case Spawn(s) =>
      ER(CallResult(Exec(p, caps, s, Snapshot(p, caps, s, g), l, fuel).out), g)
  }

  function EvalAll(p: Program, caps: Option<Summary>, es: Exprs, g: Store, l: Store, fuel: nat): (r: ExprResult<seq<Tree>>)
    ensures r.globals.Keys == g.Keys
    ensures r.out.Val? ==> |r.out.v| == Len(es)
    decreases fuel, es, 0
  {
    match es
    case ENil => ER(Val([]), g)
    case ECons(e, tl) =>
      var r := Eval(p, caps, e, g, l, fuel);
      match r.out
      case Fail => ER(Fail, r.globals)
      case NoFuel => ER(NoFuel, r.globals)
      case Next => ER(Next, r.globals)
      case Val(v) =>
        var rt := EvalAll(p, caps, tl, r.globals, l, fuel);
        if !rt.out.Val? then rt else ER(Val([v] + rt.out.v), rt.globals)
  }

  function Invoke(p: Program, caps: Option<Summary>, f: Name, es: Exprs, g: Store, l: Store, fuel: nat): (r: ExprResult<Tree>)
    requires f in p.methods
    ensures r.globals.Keys == g.Keys
    decreases fuel, es, 1
  {
    var m := p.methods[f];
    if |m.params| != Len(es) then ER(Fail, g) else
    var ra := EvalAll(p, caps, es, g, l, fuel);
    match ra.out
    case Fail => ER(Fail, ra.globals)
    case NoFuel => ER(NoFuel, ra.globals)
    case Next => ER(Next, ra.globals)
    case Val(vs) =>
      if fuel == 0 then ER(NoFuel, ra.globals)
      else
        var r := Exec(p, caps, m.body, ra.globals, Bind(m.params, vs), fuel - 1);
        ER(CallResult(r.out), r.globals)
  }

  function Exec(p: Program, caps: Option<Summary>, s: Stmt, g: Store, l: Store, fuel: nat): (r: StmtResult)
    ensures r.globals.Keys == g.Keys
    decreases fuel, s, 0
  {
    match s
    case Skip => SR(Next, g, l)
    case Seq(a, b) =>
      var r := Exec(p, caps, a, g, l, fuel);
      if !r.out.Next? then r else Exec(p, caps, b, r.globals, r.locals, fuel)
    case Define(x, e) =>
      var r := Eval(p, caps, e, g, l, fuel);
      if !r.out.Val? then SR(r.out, r.globals, l)
      else if x in l || x in r.globals then SR(Fail, r.globals, l)
      else SR(Next, r.globals, l[x := r.out.v])
    case Assign(x, e) =>
      var r := Eval(p, caps, e, g, l, fuel);
      if !r.out.Val? then SR(r.out, r.globals, l)
      else Put(p.consts, x, r.out.v, r.globals, l)
    case IndexAssign(x, path, e) =>
      if x !in l && !Writable(p.consts, x, g) then SR(Fail, g, l) else
      var r := Eval(p, caps, e, g, l, fuel);
      if !r.out.Val? then SR(r.out, r.globals, l) else
      var ri := EvalAll(p, caps, path, r.globals, l, fuel);
      (match ri.out
      case Fail => SR(Fail, ri.globals, l)
      case NoFuel => SR(NoFuel, ri.globals, l)
      case Next => SR(Next, ri.globals, l)
      case Val(ixs) => WriteAt(p.consts, x, Reverse(ixs), r.out.v, ri.globals, l))
    case If(c, a, b) =>
      var r := Eval(p, caps, c, g, l, fuel);
      if !r.out.Val? then SR(r.out, r.globals, l)
      else if Truth(r.out.v).None? then SR(Fail, r.globals, l)
      else Close(Exec(p, caps, if Truth(r.out.v).value then a else b, r.globals, l, fuel), l)
    case While(c, b) =>
      var r := Eval(p, caps, c, g, l, fuel);
      if !r.out.Val? then SR(r.out, r.globals, l)
      else if Truth(r.out.v).None? then SR(Fail, r.globals, l)
      else if !Truth(r.out.v).value then SR(Next, r.globals, l)
      else
        var rb := Close(Exec(p, caps, b, r.globals, l, fuel), l);
        if !rb.out.Next? then rb
        else if fuel == 0 then rb.(out := NoFuel)
        else Exec(p, caps, s, rb.globals, rb.locals, fuel - 1)
    case Try(a, b) =>
      var ra := Close(Exec(p, caps, a, g, l, fuel), l);
      if !ra.out.Fail? then ra
      else Close(Exec(p, caps, b, ra.globals, ra.locals, fuel), l)
    case Return(e) =>
      var r := Eval(p, caps, e, g, l, fuel);
      SR(r.out, r.globals, l)
    case Do(e) =>
      var r := Eval(p, caps, e, g, l, fuel);
      SR(if r.out.Val? then Next else r.out, r.globals, l)
  }
}
