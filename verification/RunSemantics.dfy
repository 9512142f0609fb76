/**
 What a run of blocks, calls, loops, try and defer does, as functions of the state:
 a stack of frames, a call depth, a count of live copies, and what conditions will
 answer. The depth guard makes every run end.
 */
module RunSemantics {
  import opened Options
  import opened Unwinding

  /** A value is its own heap size: what a copy of it adds to the memory count. */
  datatype Expr = Literal(bytes: nat) | Bad(kind: nat) | Binary(left: Expr, right: Expr) | Invoke(callee: string, args: seq<Arg>)

  /** `fits`: the value meets the parameter's type. `copied`: neither borrowed nor moved. */
  datatype Arg = Arg(expr: Expr, fits: bool, copied: bool)

  datatype Stmt =
    | Define(init: Expr, copied: bool)
    | Eval(expr: Expr)
    | Return(expr: Expr)
    | Break
    | Continue
    | Throw(expr: Expr)
    | Abort
    | ExitWith(code: int)
    | DeferCall(callee: string, args: seq<Arg>, onError: bool)
    | If(then_: seq<Stmt>, else_: seq<Stmt>)
    | While(body: seq<Stmt>)
    | ForEach(count: nat, body: seq<Stmt>)
    | Try(body: seq<Stmt>, handler: seq<Stmt>)

  datatype Method = Method(params: nat, body: seq<Stmt>)

  datatype Frame = Frame(serial: nat, bytes: nat, deferred: seq<Deferred>)

  /** An exit statement that ran, with the number of deferred calls it ran under. */
  datatype Raise = Raise(code: int, level: nat)

  function ExprSize(e: Expr): nat {
    match e
    case Binary(l, r) => 1 + ExprSize(l) + ExprSize(r)
    case Invoke(_, args) => 2 + ArgsSize(args)
    case _ => 1
  }

  function ArgsSize(args: seq<Arg>): nat {
    if args == [] then 0 else ArgSize(args[0]) + ArgsSize(args[1..])
  }

  function ArgSize(a: Arg): nat { ExprSize(a.expr) }

  function StmtSize(s: Stmt): nat {
    match s
    case Define(e, _) => 1 + ExprSize(e)
    case Eval(e) => 1 + ExprSize(e)
    case Return(e) => 1 + ExprSize(e)
    case Throw(e) => 1 + ExprSize(e)
    case DeferCall(_, args, _) => 1 + ArgsSize(args)
    case If(a, b) => 1 + BodySize(a) + BodySize(b)
    case While(a) => 1 + BodySize(a)
    case ForEach(_, a) => 1 + BodySize(a)
    case Try(a, b) => 1 + BodySize(a) + BodySize(b)
    case _ => 1
  }

  function BodySize(b: seq<Stmt>): nat { if b == [] then 1 else 1 + StmtSize(b[0]) + BodySize(b[1..]) }

  lemma {:induction false} ArgSmaller(args: seq<Arg>, i: nat)
    requires i < |args|
    ensures ExprSize(args[i].expr) <= ArgsSize(args)
    decreases i
  {
    if i > 0 { ArgSmaller(args[1..], i - 1); }
  }

  lemma {:induction false} StmtSmaller(b: seq<Stmt>, i: nat)
    requires i < |b|
    ensures StmtSize(b[i]) < BodySize(b)
    decreases i
  {
    if i > 0 { StmtSmaller(b[1..], i - 1); }
  }

  // ----- states -----

  datatype Setup = Setup(methods: map<string, Method>, limit: nat, budget: nat)

  /** `stories` is what each frame ever entered left behind, `choices` the answers conditions will give. */
  datatype State = State(depth: nat, chain: int, frames: seq<Frame>, stories: seq<seq<Event>>, choices: seq<bool>, level: nat, raised: seq<Raise>)

  /** The result of an expression or call, and of statements. */
  datatype Value = Value(state: State, value: nat, error: Option<Error>)
  datatype End = End(state: State, out: Outcome)

  function Room(n: Setup, s: State): nat { if s.depth < n.limit then n.limit - s.depth else 0 }

  function Deepen(s: State): State { s.(depth := s.depth + 1) }

  function Shallow(s: State): State { s.(depth := if s.depth == 0 then 0 else s.depth - 1) }

  /** borrowBlockEnv, as the counters see it. */
  function Push(s: State): State {
    s.(frames := s.frames + [Frame(|s.stories|, 0, [])], stories := s.stories + [[]])
  }

  /** releaseBlockEnv: the frame returns what it added to the memory count. */
  function Pop(s: State): State {
    if s.frames == [] then s
    else s.(frames := s.frames[..|s.frames| - 1], chain := s.chain - s.frames[|s.frames| - 1].bytes)
  }

  /** accountCopy on the innermost frame. */
  function Account(s: State, k: nat): State {
    if s.frames == [] then s
    else
      var f := s.frames[|s.frames| - 1];
      s.(frames := s.frames[..|s.frames| - 1] + [f.(bytes := f.bytes + k)], chain := s.chain + k)
  }

  /** Adds to the story of the innermost frame. */
  function Record(s: State, e: Event): State {
    if s.frames == [] || s.frames[|s.frames| - 1].serial >= |s.stories| then s
    else
      var k := s.frames[|s.frames| - 1].serial;
      s.(stories := s.stories[k := s.stories[k] + [e]])
  }

  function Deferreds(s: State): seq<Deferred> { if s.frames == [] then [] else s.frames[|s.frames| - 1].deferred }

  function SetDeferred(s: State, d: seq<Deferred>): State {
    if s.frames == [] then s
    else s.(frames := s.frames[..|s.frames| - 1] + [s.frames[|s.frames| - 1].(deferred := d)])
  }

  function Register(s: State, d: Deferred): State { Record(SetDeferred(s, Deferreds(s) + [d]), Registered(d)) }

  datatype Choice = Choice(state: State, yes: bool)

  function Choose(s: State): Choice {
    if s.choices == [] then Choice(s, false) else Choice(s.(choices := s.choices[1..]), s.choices[0])
  }

  predicate Stops(out: Outcome) { out.error.Some? || out.flow != Normal }

  // ----- expressions and calls -----

  function EvalExpr(n: Setup, e: Expr, s: State): (r: Value)
    ensures r.state.depth == s.depth && |r.state.choices| <= |s.choices|
    decreases Room(n, s), |s.choices|, ExprSize(e), 1
  {
    match e
    case Literal(k) => Value(s, k, None)
    case Bad(k) => Value(s, 0, Some(Runtime(k)))
    case Binary(a, b) =>
      var ra := EvalExpr(n, a, Deepen(s));
      if ra.error.Some? then Value(Shallow(ra.state), 0, ra.error)
      else
        var rb := EvalExpr(n, b, Deepen(Shallow(ra.state)));
        Value(Shallow(rb.state), rb.value, rb.error)
    case Invoke(f, args) => EvalCall(n, f, args, s)
  }

  /** evalCall: the frame is taken before the arguments are evaluated and bound into it. */
  function EvalCall(n: Setup, f: string, args: seq<Arg>, s: State): (r: Value)
    ensures r.state.depth == s.depth && |r.state.choices| <= |s.choices|
    decreases Room(n, s), |s.choices|, 1 + ArgsSize(args), |args| + 1
  {
    if f !in n.methods || |args| != n.methods[f].params then Value(s, 0, Some(Runtime(0)))
    else BindArgs(n, n.methods[f], args, 0, Push(s))
  }

  function BindArgs(n: Setup, m: Method, args: seq<Arg>, i: nat, s: State): (r: Value)
    requires i <= |args|
    ensures r.state.depth == s.depth && |r.state.choices| <= |s.choices|
    decreases Room(n, s), |s.choices|, 1 + ArgsSize(args), |args| - i
  {
    if i == |args| then Enter(n, m, s)
    else
      ArgSmaller(args, i);
      var r := EvalExpr(n, args[i].expr, s);
      if r.error.Some? then Value(Pop(r.state), 0, r.error)
      else if !args[i].fits then Value(Pop(r.state), 0, Some(Runtime(1)))
      else BindArgs(n, m, args, i + 1, if args[i].copied then Account(r.state, r.value) else r.state)
  }

  /** The guards, the body and the release of a call whose frame is bound. */
  function Enter(n: Setup, m: Method, s: State): (r: Value)
    ensures r.state.depth == s.depth && |r.state.choices| <= |s.choices|
    decreases Room(n, s), |s.choices|, 0, 0
  {
    if s.depth + 1 > n.limit || s.chain > n.budget then Value(Pop(s), 0, Some(Runtime(2)))
    else
      var r := ExecBlock(n, m.body, Deepen(s));
      CallResult(Pop(Shallow(r.state)), r.out)
  }

  function CallResult(s: State, out: Outcome): Value {
    if out.error.Some? then Value(s, 0, out.error)
    else match out.flow
      case Returned(v) => Value(s, v, None)
      case Normal => Value(s, 0, None)
      case _ => Value(s, 0, Some(Runtime(3)))
  }

  // ----- statements -----

  function ExecBlock(n: Setup, b: seq<Stmt>, s: State): (r: End)
    ensures r.state.depth == s.depth && |r.state.choices| <= |s.choices|
    decreases Room(n, s), |s.choices|, BodySize(b), 3
  {
    var r := Scope(n, b, Deepen(s));
    End(Shallow(r.state), r.out)
  }

  /** A frame of its own: the statements, then the deferred calls, then the release. */
  function Scope(n: Setup, b: seq<Stmt>, s: State): (r: End)
    ensures r.state.depth == s.depth && |r.state.choices| <= |s.choices|
    decreases Room(n, s), |s.choices|, BodySize(b), 2
  {
    var body := ExecStmts(n, b, Push(s));
    var r := FinishFrame(n, body.out, body.state);
    End(Pop(r.state), r.out)
  }

  function ExecStmts(n: Setup, b: seq<Stmt>, s: State): (r: End)
    ensures r.state.depth == s.depth && |r.state.choices| <= |s.choices|
    decreases Room(n, s), |s.choices|, BodySize(b), 1
  {
    if b == [] then End(s, Outcome(Normal, None))
    else
      var r := ExecStmt(n, b[0], s);
      if Stops(r.out) then r else ExecStmts(n, b[1..], r.state)
  }

  function ExecStmt(n: Setup, st: Stmt, s: State): (r: End)
    ensures r.state.depth == s.depth && |r.state.choices| <= |s.choices|
    decreases Room(n, s), |s.choices|, StmtSize(st), 0
  {
    match st
    case Define(e, copied) =>
      var r := EvalExpr(n, e, s);
      if r.error.Some? then Failing(r)
      else End(if copied then Account(r.state, r.value) else r.state, Outcome(Normal, None))
    case Eval(e) =>
      var r := EvalExpr(n, e, s);
      if r.error.Some? then Failing(r) else End(r.state, Outcome(Normal, None))
    case Return(e) =>
      var r := EvalExpr(n, e, s);
      if r.error.Some? then Failing(r) else End(r.state, Outcome(Returned(r.value), None))
    case Throw(e) =>
      var r := EvalExpr(n, e, s);
      if r.error.Some? then Failing(r) else End(r.state, Outcome(Normal, Some(Thrown(r.value))))
    case Break => End(s, Outcome(Broke, None))
    case Continue => End(s, Outcome(Continued, None))
    case Abort => End(s, Outcome(Normal, Some(Foreign)))
    case ExitWith(c) => End(s.(raised := s.raised + [Raise(c, s.level)]), Outcome(Normal, Some(Exit(c))))
    case DeferCall(f, args, onError) => Capture(n, f, args, onError, 0, [], s)
    case If(a, b) =>
      var c := Choose(s);
      if c.yes then ExecBlock(n, a, c.state) else ExecBlock(n, b, c.state)
    case While(body) => ExecWhile(n, body, s)
    case ForEach(k, body) => ExecForEach(n, k, body, s)
    case Try(body, handler) =>
      var r := Scope(n, body, s);
      if r.out.error.None? then r
      else if !Catchable(r.out.error.value) then End(r.state, Outcome(Normal, r.out.error))
      else Scope(n, handler, r.state)
  }

  function Failing(r: Value): End { End(r.state, Outcome(Normal, r.error)) }

  /** execTry: thrown and runtime errors reach the handler; an exit or a foreign error does not. */
  predicate Catchable(e: Error) { e.Thrown? || e.Runtime? }

  /** execDefer: the arguments are captured now, the call is recorded on the frame. */
  function Capture(n: Setup, f: string, args: seq<Arg>, onError: bool, i: nat, got: seq<Snapshot>, s: State): (r: End)
    requires i <= |args|
    ensures r.state.depth == s.depth && |r.state.choices| <= |s.choices|
    decreases Room(n, s), |s.choices|, ArgsSize(args), 2 + |args| - i
  {
    if i == |args| then End(Register(s, Deferred(f, got, onError)), Outcome(Normal, None))
    else
      ArgSmaller(args, i);
      var r := EvalExpr(n, args[i].expr, s);
      if r.error.Some? then Failing(r)
      else Capture(n, f, args, onError, i + 1, got + [Snapshot(r.value, args[i].fits, args[i].copied)], r.state)
  }

  function ExecWhile(n: Setup, body: seq<Stmt>, s: State): (r: End)
    ensures r.state.depth == s.depth && |r.state.choices| <= |s.choices|
    decreases Room(n, s), |s.choices|, BodySize(body), 4
  {
    var c := Choose(s);
    if !c.yes then End(c.state, Outcome(Normal, None))
    else
      var r := ExecBlock(n, body, c.state);
      if r.out.error.Some? || r.out.flow.Returned? then r
      else if r.out.flow.Broke? then End(r.state, Outcome(Normal, None))
      else ExecWhile(n, body, r.state)
  }

  /** Each pass has a frame of its own, entered without a depth step. */
  function ExecForEach(n: Setup, k: nat, body: seq<Stmt>, s: State): (r: End)
    ensures r.state.depth == s.depth && |r.state.choices| <= |s.choices|
    decreases Room(n, s), |s.choices|, BodySize(body), 4 + k
  {
    if k == 0 then End(s, Outcome(Normal, None))
    else
      var r := Scope(n, body, s);
      if r.out.error.Some? || r.out.flow.Returned? then r
      else if r.out.flow.Broke? then End(r.state, Outcome(Normal, None))
      else ExecForEach(n, k - 1, body, r.state)
  }

  // ----- unwinding -----

  /** finishFrame: the list comes off the frame, its calls run, and their failure may replace the outcome. */
  function FinishFrame(n: Setup, out: Outcome, s: State): (r: End)
    ensures r.state.depth == s.depth && |r.state.choices| <= |s.choices|
    decreases Room(n, s), |s.choices|, 0, |Deferreds(s)| + 5
  {
    if Deferreds(s) == [] then End(s, out)
    else
      var r := RunDeferred(n, Deferreds(s), |Deferreds(s)|, Fires(out.error), None, SetDeferred(Record(s, Exiting(out)), []));
      var out' := if r.error.None? || IsExit(out.error) then out else Outcome(Normal, r.error);
      End(Record(r.state, Left(out')), out')
  }

  /** runDeferredCalls from position j down: `failing` and the last error so far are carried along. */
  function RunDeferred(n: Setup, d: seq<Deferred>, j: nat, failing: bool, derr: Option<Error>, s: State): (r: Value)
    requires j <= |d|
    ensures r.state.depth == s.depth && |r.state.choices| <= |s.choices|
    decreases Room(n, s), |s.choices|, 0, 4 + j
  {
    if j == 0 then Value(s, 0, derr)
    else if d[j - 1].onError && !failing then RunDeferred(n, d, j - 1, failing, derr, s)
    else
      var r := InvokeDeferred(n, d[j - 1], s);
      RunDeferred(n, d, j - 1, failing || r.error.Some?, if r.error.Some? then r.error else derr, Record(r.state, Event.Finished(Ran(j - 1, r.error))))
  }

  /** invokeDeferred: the captured values go through the ordinary call path, one level further down. */
  function InvokeDeferred(n: Setup, d: Deferred, s: State): (r: Value)
    ensures r.state.depth == s.depth && |r.state.choices| <= |s.choices|
    decreases Room(n, s), |s.choices|, 0, 3
  {
    if d.callee !in n.methods || |d.args| != n.methods[d.callee].params then Value(s, 0, Some(Runtime(0)))
    else
      var r := BindCaptured(n, n.methods[d.callee], d.args, 0, Push(s.(level := s.level + 1)));
      Value(r.state.(level := s.level), r.value, r.error)
  }

  function BindCaptured(n: Setup, m: Method, args: seq<Snapshot>, i: nat, s: State): (r: Value)
    requires i <= |args|
    ensures r.state.depth == s.depth && |r.state.choices| <= |s.choices|
    decreases Room(n, s), |s.choices|, 0, 1, |args| - i
  {
    if i == |args| then Enter(n, m, s)
    else if !args[i].fits then Value(Pop(s), 0, Some(Runtime(1)))
    else BindCaptured(n, m, args, i + 1, if args[i].copied then Account(s, args[i].bytes) else s)
  }

  // ----- programs -----

  function Start(choices: seq<bool>): State { State(0, 0, [Frame(0, 0, [])], [[]], choices, 0, []) }

  /** A whole program: its statements in the global frame, then the global frame's deferred calls. */
  function RunProgram(n: Setup, program: seq<Stmt>, choices: seq<bool>): End {
    var body := ExecStmts(n, program, Start(choices));
    var r := FinishFrame(n, body.out, body.state);
    if r.out.error.None? && (r.out.flow.Broke? || r.out.flow.Continued?) then End(r.state, Outcome(Normal, Some(Runtime(3)))) else r
  }
}
