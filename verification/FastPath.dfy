/**
 The integer fast path: operands read in place, refused whenever anything is not
 exactly an int or a bool. The evaluator with the fast path and the evaluator
 without it are the same function.
 */
module FastPath {
  import opened Options
  import opened Numbers
  import opened Arithmetic

  datatype Op = Add | Sub | Mul | Div | FloorDiv | Mod | Lt | Gt | Le | Ge | Eq | Neq | And | Or | BitOp(k: nat)
  datatype UnOp = Neg | Not | BitNot

  datatype Expr =
    | IntLit(n: Int64)
    | BoolLit(b: bool)
    | Var(depth: nat, slot: int, name: string)     // slot -1: unresolved
    | Index(target: Expr, index: Expr)
    | Binary(op: Op, left: Expr, right: Expr, folded: Option<Expr>)
    | Unary(uop: UnOp, operand: Expr, folded: Option<Expr>)
    | Other(k: nat)                                // calls, literals of other kinds, ...

  datatype Val = I(n: Int64) | B(b: bool) | Bytes(bytes: seq<Byte>) | L(elems: seq<Val>) | Opaque(k: nat)
  type Byte = n: int | 0 <= n < 256

  datatype DeclType = IntType | BoolType | OtherType
  datatype Binding = Binding(name: string, value: Val, decl: DeclType, isConst: bool)

  /** Innermost frame first. */
  datatype Frame = Frame(slots: seq<Binding>, vars: map<string, Binding>)
  type Env = seq<Frame>

  datatype Out = Ok(v: Val) | Err
  datatype R = R(out: Out, env: Env)

  /** What this model leaves abstract: other expressions (which may do anything), operators and lookups on other values. */
  datatype Sem = Sem(ext: (nat, Env) -> R, other: (Op, Val, Val) -> Out, otherUnary: (UnOp, Val) -> Out, index: (Val, Val) -> Out,
                     matches: (Val, DeclType) -> bool)

  predicate Comparison(op: Op) { op.Lt? || op.Gt? || op.Le? || op.Ge? || op.Eq? || op.Neq? }
  predicate Logical(op: Op) { op.And? || op.Or? }

  // ----- reading a variable -----

  function SlotAt(env: Env, depth: nat, slot: int): Option<Binding> {
    if depth < |env| && 0 <= slot < |env[depth].slots| then Some(env[depth].slots[slot]) else None
  }

  /** The first slot with this name, or the number of slots. */
  function NamedSlot(slots: seq<Binding>, name: string): (i: nat)
    ensures i <= |slots| && (i < |slots| ==> slots[i].name == name) && forall k :: 0 <= k < i ==> slots[k].name != name
  {
    if slots == [] || slots[0].name == name then 0 else 1 + NamedSlot(slots[1..], name)
  }

  /** lookupLocal: named slots before the name map. */
  function Local(f: Frame, name: string): Option<Binding> {
    var i := NamedSlot(f.slots, name);
    if i < |f.slots| then Some(f.slots[i]) else if name in f.vars then Some(f.vars[name]) else None
  }

  function ByName(env: Env, name: string): Option<Binding> {
    if env == [] then None else if Local(env[0], name).Some? then Local(env[0], name) else ByName(env[1..], name)
  }

  /** GetBindingAt with its name fallback, or the chain walk for an unresolved name. */
  function Lookup(env: Env, depth: nat, slot: int, name: string): Option<Binding> {
    if slot < 0 then ByName(env, name)
    else if SlotAt(env, depth, slot).Some? then SlotAt(env, depth, slot)
    else if depth < |env| && name in env[depth].vars then Some(env[depth].vars[name])
    else None
  }

  // ----- operators on values -----

  function IntArith(op: Op, a: Int64, b: Int64): Option<Int64> {
    match op
    case Add => if AddOverflow(a, b).overflow then None else Some(AddOverflow(a, b).value)
    case Sub => if SubOverflow(a, b).overflow then None else Some(SubOverflow(a, b).value)
    case Mul => if MulOverflow(a, b).overflow then None else Some(MulOverflow(a, b).value)
    case FloorDiv =>
      if b == 0 || (a == -TWO63 && b == -1) then None
      else FlooredFits(a, b); Some(FlooredDiv(a, b))
    case Mod => if b == 0 then None else ModFits(a, b); Some(FlooredMod(a, b))
    case _ => None
  }

  lemma ModFits(a: Int64, b: Int64)
    requires b != 0
    ensures Fits(FlooredMod(a, b))
  {
    FlooredIdentity(a, b);
  }

  function IntCompare(op: Op, a: Int64, b: Int64): bool
    requires Comparison(op)
  {
    match op
    case Lt => a < b
    case Gt => a > b
    case Le => a <= b
    case Ge => a >= b
    case Eq => a == b
    case Neq => a != b
  }

  /** evalArithmetic: int results are checked, everything else is another operator's business. */
  function Calculate(sem: Sem, op: Op, x: Val, y: Val): Out {
    if x.I? && y.I? && (op.Add? || op.Sub? || op.Mul? || op.FloorDiv? || op.Mod?) then
      match IntArith(op, x.n, y.n) { case None => Err case Some(n) => Ok(I(n)) }
    else sem.other(op, x, y)
  }

  function Compare(sem: Sem, op: Op, x: Val, y: Val): Out
    requires Comparison(op)
  {
    if x.I? && y.I? then Ok(B(IntCompare(op, x.n, y.n))) else sem.other(op, x, y)
  }

  /** indexInto: a byte or an element within range; other values are looked up in their own way. */
  function IndexInto(sem: Sem, x: Val, i: Val): Out {
    if x.Bytes? then if i.I? && 0 <= i.n < |x.bytes| then Ok(I(x.bytes[i.n])) else Err
    else if x.L? then if i.I? && 0 <= i.n < |x.elems| then Ok(x.elems[i.n]) else Err
    else sem.index(x, i)
  }

  // ----- the fast path -----

  function IntOperand(e: Expr, env: Env): Option<Int64> {
    match e
    case IntLit(n) => Some(n)
    case Var(d, s, _) =>
      if s >= 0 && SlotAt(env, d, s).Some? && SlotAt(env, d, s).value.value.I? then Some(SlotAt(env, d, s).value.value.n) else None
    case Index(t, ix) =>
      if !t.Var? || t.slot < 0 || SlotAt(env, t.depth, t.slot).None? then None
      else
        var parent := SlotAt(env, t.depth, t.slot).value.value;
        (match IntOperand(ix, env)
        case None => None
        case Some(i) =>
          if i < 0 then None
          else if parent.Bytes? && i < |parent.bytes| then Some(parent.bytes[i])
          else if parent.L? && i < |parent.elems| && parent.elems[i].I? then Some(parent.elems[i].n)
          else None)
    case Binary(op, l, r, folded) =>
      if folded.Some? then IntOperand(folded.value, env)
      else if !(op.Add? || op.Sub? || op.Mul? || op.FloorDiv? || op.Mod?) then None
      else
        (match (IntOperand(l, env), IntOperand(r, env))
        case (Some(a), Some(b)) => IntArith(op, a, b)
        case _ => None)
    case _ => None
  }

  function FastCondition(e: Expr, env: Env): Option<bool> {
    match e
    case BoolLit(b) => Some(b)
    case Var(d, s, _) =>
      if s >= 0 && SlotAt(env, d, s).Some? && SlotAt(env, d, s).value.value.B? then Some(SlotAt(env, d, s).value.value.b) else None
    case Unary(op, x, folded) =>
      if folded.Some? then FastCondition(folded.value, env)
      else if op.Not? && FastCondition(x, env).Some? then Some(!FastCondition(x, env).value)
      else None
    case Binary(op, l, r, folded) =>
      if folded.Some? then FastCondition(folded.value, env)
      else if Logical(op) then
        match FastCondition(l, env)
        case None => None
        case Some(b) => if b == op.Or? then Some(b) else FastCondition(r, env)
      else if Comparison(op) then
        match (IntOperand(l, env), IntOperand(r, env))
        case (Some(a), Some(b)) => Some(IntCompare(op, a, b))
        case _ => None
      else None
    case _ => None
  }

  // ----- the evaluator, with or without it -----

  function Eval(sem: Sem, fast: bool, e: Expr, env: Env): R
    decreases e, 1
  {
    match e
    case IntLit(n) => R(Ok(I(n)), env)
    case BoolLit(b) => R(Ok(B(b)), env)
    case Var(d, s, name) =>
      R(match Lookup(env, d, s, name) { case None => Err case Some(b) => Ok(b.value) }, env)
    case Index(t, ix) =>
      var rt := Eval(sem, fast, t, env);
      if rt.out.Err? then rt else
      var ri := Eval(sem, fast, ix, rt.env);
      if ri.out.Err? then ri else R(IndexInto(sem, rt.out.v, ri.out.v), ri.env)
    case Unary(op, x, folded) =>
      if folded.Some? then Eval(sem, fast, folded.value, env) else
      var r := Eval(sem, fast, x, env);
      if r.out.Err? then r
      else if op.Not? then R(if r.out.v.B? then Ok(B(!r.out.v.b)) else Err, r.env)
      else R(sem.otherUnary(op, r.out.v), r.env)
    case Binary(op, l, r, folded) =>
      if folded.Some? then Eval(sem, fast, folded.value, env)
      else if Logical(op) then
        if fast && FastCondition(e, env).Some? then R(Ok(B(FastCondition(e, env).value)), env) else EvalLogical(sem, fast, e, env)
      else if fast && Comparison(op) && FastCondition(e, env).Some? then R(Ok(B(FastCondition(e, env).value)), env)
      else if fast && !Comparison(op) && IntOperand(e, env).Some? then R(Ok(I(IntOperand(e, env).value)), env)
      else
        var rl := Eval(sem, fast, l, env);
        if rl.out.Err? then rl else
        var rr := Eval(sem, fast, r, rl.env);
        if rr.out.Err? then rr
        else R(if Comparison(op) then Compare(sem, op, rl.out.v, rr.out.v) else Calculate(sem, op, rl.out.v, rr.out.v), rr.env)
    case Other(k) => sem.ext(k, env)
  }

  /** Short-circuit and / or; each operand may itself be answered in place. */
  function EvalLogical(sem: Sem, fast: bool, e: Expr, env: Env): R
    requires e.Binary? && Logical(e.op)
    decreases e, 0
  {
    var rl := if fast && FastCondition(e.left, env).Some? then R(Ok(B(FastCondition(e.left, env).value)), env) else Eval(sem, fast, e.left, env);
    if rl.out.Err? then rl
    else if !rl.out.v.B? then R(Err, rl.env)
    else if rl.out.v.b == e.op.Or? then rl
    else
      var rr := if fast && FastCondition(e.right, rl.env).Some? then R(Ok(B(FastCondition(e.right, rl.env).value)), rl.env)
                else Eval(sem, fast, e.right, rl.env);
      if rr.out.Err? then rr else if !rr.out.v.B? then R(Err, rr.env) else rr
  }

  /** A successful int operand is what the plain evaluator returns, and nothing changed. */
  lemma {:induction false} IntOperandRefines(sem: Sem, e: Expr, env: Env)
    requires IntOperand(e, env).Some?
    ensures Eval(sem, false, e, env) == R(Ok(I(IntOperand(e, env).value)), env)
    decreases e
  {
    match e
    case Index(t, ix) => IntOperandRefines(sem, ix, env);
    case Binary(op, l, r, folded) =>
      if folded.Some? {
        IntOperandRefines(sem, folded.value, env);
      } else {
        IntOperandRefines(sem, l, env);
        IntOperandRefines(sem, r, env);
      }
    case _ =>
  }

  /** So is a successful condition, short-circuit included. */
  lemma {:induction false} FastConditionRefines(sem: Sem, e: Expr, env: Env)
    requires FastCondition(e, env).Some?
    ensures Eval(sem, false, e, env) == R(Ok(B(FastCondition(e, env).value)), env)
    decreases e
  {
    match e
    case Unary(op, x, folded) =>
      FastConditionRefines(sem, if folded.Some? then folded.value else x, env);
    case Binary(op, l, r, folded) =>
      if folded.Some? {
        FastConditionRefines(sem, folded.value, env);
      } else if Logical(op) {
        FastConditionRefines(sem, l, env);
        if FastCondition(l, env).value != op.Or? { FastConditionRefines(sem, r, env); }
      } else {
        IntOperandRefines(sem, l, env);
        IntOperandRefines(sem, r, env);
      }
    case _ =>
  }

  /** Main result: on every expression and environment the fast path changes nothing. */
  lemma {:induction false} FastIsPlain(sem: Sem, e: Expr, env: Env)
    ensures Eval(sem, true, e, env) == Eval(sem, false, e, env)
    decreases e, 1
  {
    match e
    case Index(t, ix) =>
      FastIsPlain(sem, t, env);
      FastIsPlain(sem, ix, Eval(sem, false, t, env).env);
    case Unary(op, x, folded) =>
      FastIsPlain(sem, if folded.Some? then folded.value else x, env);
    case Binary(op, l, r, folded) =>
      BinaryIsPlain(sem, e, env);
    case _ =>
  }

  lemma {:induction false} BinaryIsPlain(sem: Sem, e: Expr, env: Env)
    requires e.Binary?
    ensures Eval(sem, true, e, env) == Eval(sem, false, e, env)
    decreases e, 0
  {
    if e.folded.Some? {
      FastIsPlain(sem, e.folded.value, env);
      return;
    }
    FastIsPlain(sem, e.left, env);
    var rl := Eval(sem, false, e.left, env);
    FastIsPlain(sem, e.right, rl.env);
    if FastCondition(e, env).Some? { FastConditionRefines(sem, e, env); }
    if IntOperand(e, env).Some? { IntOperandRefines(sem, e, env); }
    if FastCondition(e.left, env).Some? { FastConditionRefines(sem, e.left, env); }
    if FastCondition(e.right, rl.env).Some? { FastConditionRefines(sem, e.right, rl.env); }
  }

  // ----- assignment -----

  datatype Assign = Assign(depth: nat, slot: int, name: string, value: Expr)
  datatype Done = Done(ok: bool, env: Env)

  function SetSlot(env: Env, depth: nat, slot: int, v: Val): Env
    requires SlotAt(env, depth, slot).Some?
  {
    env[depth := Frame(env[depth].slots[slot := env[depth].slots[slot].(value := v)], env[depth].vars)]
  }

  /** Environment.Assign: the innermost frame that knows the name. */
  function AssignByName(sem: Sem, env: Env, name: string, v: Val): Done {
    if env == [] then Done(false, env)
    else if Local(env[0], name).Some? then
      var b, i := Local(env[0], name).value, NamedSlot(env[0].slots, name);
      if b.isConst || !sem.matches(v, b.decl) then Done(false, env)
      else if i < |env[0].slots| then Done(true, [env[0].(slots := env[0].slots[i := b.(value := v)])] + env[1..])
      else Done(true, [env[0].(vars := env[0].vars[name := b.(value := v)])] + env[1..])
    else
      var d := AssignByName(sem, env[1..], name, v);
      Done(d.ok, [env[0]] + d.env)
  }

  /** AssignAt. */
  function AssignAt(sem: Sem, env: Env, st: Assign, v: Val): Done {
    if st.slot >= 0 && SlotAt(env, st.depth, st.slot).Some? then
      var b := SlotAt(env, st.depth, st.slot).value;
      if b.isConst || !sem.matches(v, b.decl) then Done(false, env) else Done(true, SetSlot(env, st.depth, st.slot, v))
    else AssignByName(sem, env, st.name, v)
  }

  /** execAssign without the shortcut: evaluate, fetch the binding, check its type, write. */
  function ExecAssign(sem: Sem, st: Assign, env: Env): Done {
    var r := Eval(sem, false, st.value, env);
    if r.out.Err? then Done(false, r.env) else
    match Lookup(r.env, st.depth, st.slot, st.name)
    case None => Done(false, r.env)
    case Some(b) => if !sem.matches(r.out.v, b.decl) then Done(false, r.env) else AssignAt(sem, r.env, st, r.out.v)
  }

  /** What fastAssign writes, if it writes. */
  function FastValue(st: Assign, env: Env): Option<Val> {
    if st.slot < 0 || SlotAt(env, st.depth, st.slot).None? then None
    else
      var b := SlotAt(env, st.depth, st.slot).value;
      if b.isConst then None
      else if b.decl.IntType? && b.value.I? then
        match IntOperand(st.value, env) { case None => None case Some(n) => Some(I(n)) }
      else if b.decl.BoolType? && b.value.B? then
        match FastCondition(st.value, env) { case None => None case Some(c) => Some(B(c)) }
      else None
  }

  /** Ints match int variables, bools bool variables. */
  ghost predicate Typed(sem: Sem) {
    (forall n: Int64 :: sem.matches(I(n), IntType)) && forall b: bool :: sem.matches(B(b), BoolType)
  }

  /** When the shortcut writes, the full assignment would have written the same, without error. */
  lemma FastAssignRefines(sem: Sem, st: Assign, env: Env)
    requires Typed(sem) && FastValue(st, env).Some?
    ensures ExecAssign(sem, st, env) == Done(true, SetSlot(env, st.depth, st.slot, FastValue(st, env).value))
  {
    var b := SlotAt(env, st.depth, st.slot).value;
    if b.decl.IntType? && b.value.I? {
      IntOperandRefines(sem, st.value, env);
    } else {
      FastConditionRefines(sem, st.value, env);
    }
    hide Eval, IntOperand, FastCondition;
  }

  /** The frames a statement runs in, written in place. */
  class FrameChain {
    var frames: Env

    constructor (env: Env)
      ensures frames == env
    {
      frames := env;
    }

    /** slotBinding: walk out `depth` frames, then check the slot. */
    method SlotBinding(depth: nat, slot: int) returns (b: Option<Binding>)
      ensures b == SlotAt(frames, depth, slot)
    {
      var cur := 0;
      for d := 0 to depth
        invariant cur == d && (d == 0 || d < |frames|)
      {
        if cur + 1 >= |frames| { return None; }
        cur := cur + 1;
      }
      if cur >= |frames| || slot < 0 || slot >= |frames[cur].slots| { return None; }
      return Some(frames[cur].slots[slot]);
    }

    /** fastAssign: writes in place, or reports false having written nothing. */
    method FastAssign(st: Assign) returns (ok: bool)
      modifies this
      ensures ok <==> FastValue(st, old(frames)).Some?
      ensures frames == if ok then SetSlot(old(frames), st.depth, st.slot, FastValue(st, old(frames)).value) else old(frames)
    {
      hide IntOperand, FastCondition;
      if st.slot < 0 { return false; }
      var b := SlotBinding(st.depth, st.slot);
      if b.None? || b.value.isConst { return false; }
      if b.value.decl.IntType? && b.value.value.I? {
        var n := IntOperand(st.value, frames);
        if n.Some? {
          frames := SetSlot(frames, st.depth, st.slot, I(n.value));
          return true;
        }
      } else if b.value.decl.BoolType? && b.value.value.B? {
        var c := FastCondition(st.value, frames);
        if c.Some? {
          frames := SetSlot(frames, st.depth, st.slot, B(c.value));
          return true;
        }
      }
      return false;
    }

    /** execAssign, shortcut first and fast paths inside: the plain assignment, for every statement. */
    method Execute(sem: Sem, st: Assign) returns (ok: bool)
      requires Typed(sem)
      modifies this
      ensures Done(ok, frames) == ExecAssign(sem, st, old(frames))
    {
      hide Eval, IntOperand, FastCondition, FastValue, AssignByName;
      ok := FastAssign(st);
      if ok {
        FastAssignRefines(sem, st, old(frames));
        return;
      }
      FastIsPlain(sem, st.value, frames);
      var r := Eval(sem, true, st.value, frames);
      frames := r.env;
      if r.out.Err? { return false; }
      var b := Lookup(frames, st.depth, st.slot, st.name);
      if b.None? || !sem.matches(r.out.v, b.value.decl) { return false; }
      var d := AssignAt(sem, frames, st, r.out.v);
      frames := d.env;
      ok := d.ok;
    }
  }
}
