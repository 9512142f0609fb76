/**
 The interpreter as it runs: values are headers over shared backings, an index
 write changes a backing in place, reading a variable, indexing and `return` copy
 nothing, and a parameter may be bound by alias. Tags and frame numbers only
 instrument the heap.
 */
module AliasEval {
  import opened Options
  import opened Syntax
  import opened Scans
  import opened ValueSemantics
  import opened AliasHeap
  import opened ArgSnapshots

  type RefStore = map<Name, Ref>

  datatype ExprRun<+V> = XR(out: Out<V>, heap: Heap, globals: RefStore)
  datatype StmtRun = TR(out: Out<Ref>, heap: Heap, globals: RefStore, locals: RefStore)

  /**
   What load time decided: capture summaries, GlobalSafe methods and the spawn re-entry mark.
   `borrowing` is no part of the source: switched off, every parameter is copied.
   */
  datatype Config = Config(p: Program, globals: set<Name>, caps: Option<Summary>, safe: set<Name>, reentry: bool, borrowing: bool)

  function Mutables(c: Config): set<Name> { c.globals - c.p.consts }

  /** entryGlobalsImmutable: no global is declared mutable. */
  predicate Frozen(c: Config) { Mutables(c) == {} }

  /** methodBorrowCtx */
  predicate MayBorrow(c: Config, f: Name) { Frozen(c) || (f in c.safe && !c.reentry) }

  /** The frame an expression runs in: its global frame's number and its own. */
  datatype Site = Site(world: nat, frame: nat)

  function AddRef(a: Ref, b: Ref): Out<Ref> {
    if a.Imm? && a.s.Int? && b.Imm? && b.s.Int? then Val(Imm(Int(a.s.n + b.s.n))) else Fail
  }

  function SelectRef(h: Heap, a: Ref, b: Ref): Out<Ref> {
    if a.Ptr? && a.a < |h.cells| && b.Imm? && b.s.Int? && 0 <= b.s.n < |h.cells[a.a].elems|
    then Val(h.cells[a.a].elems[b.s.n]) else Fail
  }

  function TruthRef(v: Ref): Option<bool> {
    if v.Imm? && v.s.Int? then Some(v.s.n != 0) else None
  }

  function Returned(o: Out<Ref>): Out<Ref> {
    if o.Next? then Val(Imm(Null)) else o
  }

  /** Parameter k of f takes the argument's own backing. */
  predicate BindsByAlias(c: Config, f: Name, k: nat, arg: Expr, later: Exprs) {
    && c.borrowing && MayBorrow(c, f) && f in c.p.methods
    && k < |c.p.methods[f].borrow| && c.p.methods[f].borrow[k]
    && !(AliasesGlobal(Mutables(c), arg) && AnyMutates(c.safe, later))
  }

  function CapturedNames(c: Config, body: Stmt, keys: set<Name>): (names: set<Name>)
    ensures names <= keys
  {
    if c.caps.None? then keys
    else match Stamp(c.caps.value, ScanStmt(c.p, body))
      case AllGlobals => keys
      case Only(names) => keys * names
  }

  ghost function Pick(names: set<Name>): Name
    requires names != {}
  {
    var x :| x in names; x
  }

  function GlobalTag(consts: set<Name>, world: nat, x: Name): Tag {
    if x in consts then ConstOf(x) else GlobalOf(world, x)
  }

  function FrameTag(consts: set<Name>, global: bool, id: nat, x: Name): Tag {
    if global then GlobalTag(consts, id, x) else LocalOf(id, x)
  }

  /** copyBindingsInto: a deep copy of each named binding for a new frame. */
  ghost function CopyStore(h: Heap, consts: set<Name>, names: set<Name>, src: RefStore, global: bool, id: nat): Built<RefStore>
    requires names <= src.Keys
    decreases |names|
  {
    if names == {} then Built(h, map[])
    else
      var x := Pick(names);
      var b := CopyTo(h, src[x], FrameTag(consts, global, id, x));
      var rest := CopyStore(b.heap, consts, names - {x}, src, global, id);
      Built(rest.heap, rest.v[x := b.v])
  }

  ghost function Store(consts: set<Name>, x: Name, v: Ref, h: Heap, at: Site, hg: RefStore, hl: RefStore): StmtRun {
    if x in hl then
      var b := CopyTo(h, v, LocalOf(at.frame, x));
      TR(Next, b.heap, hg, hl[x := b.v])
    else if Writable(consts, x, hg) then
      var b := CopyTo(h, v, GlobalOf(at.world, x));
      TR(Next, b.heap, hg[x := b.v], hl)
    else TR(Fail, h, hg, hl)
  }

  /** The root's own backing is written; the stored element is a copy. */
  ghost function StoreAt(consts: set<Name>, x: Name, path: seq<Ref>, v: Ref, h: Heap, at: Site, hg: RefStore, hl: RefStore): StmtRun {
    if x !in hl && !Writable(consts, x, hg) then TR(Fail, h, hg, hl) else
    var root := if x in hl then hl[x] else hg[x];
    var b := CopyTo(h, v, FrameTag(consts, x !in hl, if x in hl then at.frame else at.world, x));
    match WriteRef(b.heap, root, path, b.v)
    case None => TR(Fail, b.heap, hg, hl)
    case Some(h') => TR(Next, h', hg, hl)
  }

  ghost function Run(c: Config, e: Expr, h: Heap, at: Site, hg: RefStore, hl: RefStore, fuel: nat): ExprRun<Ref>
    decreases fuel, e, 0
  {
    match e
    case Lit(s) => XR(Val(Imm(s)), h, hg)
    case Var(x) => XR(if x in hl then Val(hl[x]) else if x in hg then Val(hg[x]) else Fail, h, hg)
    case Bin(a, b) =>
      var ra := Run(c, a, h, at, hg, hl, fuel);
      if !ra.out.Val? then ra else
      var rb := Run(c, b, ra.heap, at, ra.globals, hl, fuel);
      if !rb.out.Val? then rb else XR(AddRef(ra.out.v, rb.out.v), rb.heap, rb.globals)
    case Index(a, b) =>
      var ra := Run(c, a, h, at, hg, hl, fuel);
      if !ra.out.Val? then ra else
      var rb := Run(c, b, ra.heap, at, ra.globals, hl, fuel);
      if !rb.out.Val? then rb else XR(SelectRef(rb.heap, ra.out.v, rb.out.v), rb.heap, rb.globals)
    case ListLit(es) =>
      var r := RunElems(c, es, h, at, hg, hl, fuel);
      (match r.out
      case Fail => XR(Fail, r.heap, r.globals)
      case NoFuel => XR(NoFuel, r.heap, r.globals)
      case Next => XR(Next, r.heap, r.globals)
      case Val(vs) => XR(Val(Ptr(|r.heap.cells|)), r.heap.(cells := r.heap.cells + [Cell(Unbound, vs)]), r.globals))
    case Call(f, es) =>
      if f !in c.p.methods then XR(Fail, h, hg) else RunCall(c, f, es, h, at, hg, hl, fuel)
    case CallValue(fn, es) =>
      var rc := Run(c, fn, h, at, hg, hl, fuel);
      if !rc.out.Val? then rc
      else if !(rc.out.v.Imm? && rc.out.v.s.Fn? && rc.out.v.s.target in c.p.methods) then XR(Fail, rc.heap, rc.globals)
      else RunCall(c, rc.out.v.s.target, es, rc.heap, at, rc.globals, hl, fuel)
    case Spawn(s) =>
      var w, f := h.ids, h.ids + 1;
      var bg := CopyStore(h.(ids := h.ids + 2), c.p.consts, CapturedNames(c, s, hg.Keys), hg, true, w);
      var bl := CopyStore(bg.heap, c.p.consts, hl.Keys, hl, false, f);
      var r := RunStmt(c, s, bl.heap, Site(w, f), bg.v, bl.v, fuel);
      XR(Returned(r.out), r.heap, hg)
  }

  /** List literal elements: each is copied as it is evaluated, unless it is itself a fresh literal. */
  ghost function RunElems(c: Config, es: Exprs, h: Heap, at: Site, hg: RefStore, hl: RefStore, fuel: nat): ExprRun<seq<Ref>>
    decreases fuel, es, 0
  {
    match es
    case ENil => XR(Val([]), h, hg)
    case ECons(e, tl) =>
      var r := Run(c, e, h, at, hg, hl, fuel);
      match r.out
      case Fail => XR(Fail, r.heap, r.globals)
      case NoFuel => XR(NoFuel, r.heap, r.globals)
      case Next => XR(Next, r.heap, r.globals)
      case Val(v) =>
        var b := if e.ListLit? then Built(r.heap, v) else CopyTo(r.heap, v, Unbound);
        var rt := RunElems(c, tl, b.heap, at, r.globals, hl, fuel);
        if !rt.out.Val? then rt else XR(Val([b.v] + rt.out.v), rt.heap, rt.globals)
  }

  /** Index steps of an assignment target: plain evaluation. */
  ghost function RunPath(c: Config, es: Exprs, h: Heap, at: Site, hg: RefStore, hl: RefStore, fuel: nat): ExprRun<seq<Ref>>
    decreases fuel, es, 0
  {
    match es
    case ENil => XR(Val([]), h, hg)
    case ECons(e, tl) =>
      var r := Run(c, e, h, at, hg, hl, fuel);
      match r.out
      case Fail => XR(Fail, r.heap, r.globals)
      case NoFuel => XR(NoFuel, r.heap, r.globals)
      case Next => XR(Next, r.heap, r.globals)
      case Val(v) =>
        var rt := RunPath(c, tl, r.heap, at, r.globals, hl, fuel);
        if !rt.out.Val? then rt else XR(Val([v] + rt.out.v), rt.heap, rt.globals)
  }

  /** Arguments k.. of a call to f, each bound into frame `callee` right after it is evaluated. */
  ghost function RunArgs(c: Config, f: Name, k: nat, es: Exprs, callee: nat, h: Heap, at: Site, hg: RefStore, hl: RefStore,
                         fuel: nat): (r: ExprRun<seq<Ref>>)
    requires f in c.p.methods && k + Len(es) == |c.p.methods[f].params|
    ensures r.out.Val? ==> |r.out.v| == Len(es)
    decreases fuel, es, 0
  {
    match es
    case ENil => XR(Val([]), h, hg)
    case ECons(e, tl) =>
      var r := Run(c, e, h, at, hg, hl, fuel);
      match r.out
      case Fail => XR(Fail, r.heap, r.globals)
      case NoFuel => XR(NoFuel, r.heap, r.globals)
      case Next => XR(Next, r.heap, r.globals)
      case Val(v) =>
        var b := if BindsByAlias(c, f, k, e, tl) then Built(r.heap, v)
                 else CopyTo(r.heap, v, LocalOf(callee, c.p.methods[f].params[k]));
        var rt := RunArgs(c, f, k + 1, tl, callee, b.heap, at, r.globals, hl, fuel);
        if !rt.out.Val? then rt else XR(Val([b.v] + rt.out.v), rt.heap, rt.globals)
  }

  ghost function RunCall(c: Config, f: Name, es: Exprs, h: Heap, at: Site, hg: RefStore, hl: RefStore, fuel: nat): ExprRun<Ref>
    requires f in c.p.methods
    decreases fuel, es, 1
  {
    var m := c.p.methods[f];
    if |m.params| != Len(es) then XR(Fail, h, hg) else
    var ra := RunArgs(c, f, 0, es, h.ids, h.(ids := h.ids + 1), at, hg, hl, fuel);
    match ra.out
    case Fail => XR(Fail, ra.heap, ra.globals)
    case NoFuel => XR(NoFuel, ra.heap, ra.globals)
    case Next => XR(Next, ra.heap, ra.globals)
    case Val(vs) =>
      if fuel == 0 then XR(NoFuel, ra.heap, ra.globals)
      else
        var r := RunStmt(c, m.body, ra.heap, Site(at.world, h.ids), ra.globals, Bind(m.params, vs), fuel - 1);
        XR(Returned(r.out), r.heap, r.globals)
  }

  function CloseRun(r: StmtRun, outer: RefStore): StmtRun {
    r.(locals := Scope(r.locals, outer))
  }

  ghost function RunStmt(c: Config, s: Stmt, h: Heap, at: Site, hg: RefStore, hl: RefStore, fuel: nat): StmtRun
    decreases fuel, s, 0
  {
    match s
    case Skip => TR(Next, h, hg, hl)
    case Seq(a, b) =>
      var r := RunStmt(c, a, h, at, hg, hl, fuel);
      if !r.out.Next? then r else RunStmt(c, b, r.heap, at, r.globals, r.locals, fuel)
    case Define(x, e) =>
      var r := Run(c, e, h, at, hg, hl, fuel);
      if !r.out.Val? then TR(r.out, r.heap, r.globals, hl)
      else if x in hl || x in r.globals then TR(Fail, r.heap, r.globals, hl)
      else
        var b := CopyTo(r.heap, r.out.v, LocalOf(at.frame, x));
        TR(Next, b.heap, r.globals, hl[x := b.v])
    case Assign(x, e) =>
      var r := Run(c, e, h, at, hg, hl, fuel);
      if !r.out.Val? then TR(r.out, r.heap, r.globals, hl)
      else Store(c.p.consts, x, r.out.v, r.heap, at, r.globals, hl)
    case IndexAssign(x, path, e) =>
      if x !in hl && !Writable(c.p.consts, x, hg) then TR(Fail, h, hg, hl) else
      var r := Run(c, e, h, at, hg, hl, fuel);
      if !r.out.Val? then TR(r.out, r.heap, r.globals, hl) else
      var ri := RunPath(c, path, r.heap, at, r.globals, hl, fuel);
      (match ri.out
      case Fail => TR(Fail, ri.heap, ri.globals, hl)
      case NoFuel => TR(NoFuel, ri.heap, ri.globals, hl)
      case Next => TR(Next, ri.heap, ri.globals, hl)
      case Val(ixs) => StoreAt(c.p.consts, x, Reverse(ixs), r.out.v, ri.heap, at, ri.globals, hl))
    case If(cond, a, b) =>
      var r := Run(c, cond, h, at, hg, hl, fuel);
      if !r.out.Val? then TR(r.out, r.heap, r.globals, hl)
      else if TruthRef(r.out.v).None? then TR(Fail, r.heap, r.globals, hl)
      else CloseRun(RunStmt(c, if TruthRef(r.out.v).value then a else b, r.heap, at, r.globals, hl, fuel), hl)
    case While(cond, b) =>
      var r := Run(c, cond, h, at, hg, hl, fuel);
      if !r.out.Val? then TR(r.out, r.heap, r.globals, hl)
      else if TruthRef(r.out.v).None? then TR(Fail, r.heap, r.globals, hl)
      else if !TruthRef(r.out.v).value then TR(Next, r.heap, r.globals, hl)
      else
        var rb := CloseRun(RunStmt(c, b, r.heap, at, r.globals, hl, fuel), hl);
        if !rb.out.Next? then rb
        else if fuel == 0 then rb.(out := NoFuel)
        else RunStmt(c, s, rb.heap, at, rb.globals, rb.locals, fuel - 1)
    case Try(a, b) =>
      var ra := CloseRun(RunStmt(c, a, h, at, hg, hl, fuel), hl);
      if !ra.out.Fail? then ra
      else CloseRun(RunStmt(c, b, ra.heap, at, ra.globals, ra.locals, fuel), hl)
    case Return(e) =>
      var r := Run(c, e, h, at, hg, hl, fuel);
      TR(r.out, r.heap, r.globals, hl)
    case Do(e) =>
      var r := Run(c, e, h, at, hg, hl, fuel);
      TR(if r.out.Val? then Next else r.out, r.heap, r.globals, hl)
  }
}
