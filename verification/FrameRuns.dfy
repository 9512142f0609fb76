/**
 The interpreter's side of a run: frames, counters and deferred lists updated in place,
 statement by statement. Every method ends in the state and with the result that
 RunSemantics gives, so everything proved of runs there holds here.
 */
module FrameRuns {
  import opened Options
  import opened Unwinding
  import opened RunSemantics
  import RunProperties

  class Runner {
    const setup: Setup
    var depth: nat
    var chain: int
    var frames: seq<Frame>
    var stories: seq<seq<Event>>
    var choices: seq<bool>
    var level: nat
    var raised: seq<Raise>

    function Now(): State
      reads this
    {
      State(depth, chain, frames, stories, choices, level, raised)
    }

    /** A run starts in the global frame. */
    constructor (setup: Setup, choices: seq<bool>)
      ensures this.setup == setup && Now() == Start(choices)
    {
      this.setup, this.choices := setup, choices;
      depth, chain, frames, stories, level, raised := 0, 0, [Frame(0, 0, [])], [[]], 0, [];
    }

    method BorrowFrame()
      modifies this`frames, this`stories
      ensures Now() == Push(old(Now()))
    {
      frames, stories := frames + [Frame(|stories|, 0, [])], stories + [[]];
    }

    method ReleaseFrame()
      modifies this`frames, this`chain
      ensures Now() == Pop(old(Now()))
    {
      if frames != [] {
        chain := chain - frames[|frames| - 1].bytes;
        frames := frames[..|frames| - 1];
      }
    }

    method AccountCopy(k: nat)
      modifies this`frames, this`chain
      ensures Now() == Account(old(Now()), k)
    {
      if frames != [] {
        var f := frames[|frames| - 1];
        frames := frames[..|frames| - 1] + [f.(bytes := f.bytes + k)];
        chain := chain + k;
      }
    }

    method Note(e: Event)
      modifies this`stories
      ensures Now() == Record(old(Now()), e)
    {
      if frames != [] && frames[|frames| - 1].serial < |stories| {
        var k := frames[|frames| - 1].serial;
        stories := stories[k := stories[k] + [e]];
      }
    }

    method PutDeferred(d: seq<Deferred>)
      modifies this`frames
      ensures Now() == SetDeferred(old(Now()), d)
    {
      if frames != [] {
        frames := frames[..|frames| - 1] + [frames[|frames| - 1].(deferred := d)];
      }
    }

    method Answer() returns (yes: bool)
      modifies this`choices
      ensures Choice(Now(), yes) == Choose(old(Now()))
    {
      if choices == [] { return false; }
      yes := choices[0];
      choices := choices[1..];
    }

    // ----- expressions and calls -----

    method Evaluate(e: Expr) returns (v: nat, err: Option<Error>)
      modifies this
      ensures Value(Now(), v, err) == EvalExpr(setup, e, old(Now()))
      decreases Room(setup, Now()), |choices|, ExprSize(e), 1
    {
      hide EvalCall;
      match e
      case Literal(k) => v, err := k, None;
      case Bad(k) => v, err := 0, Some(Runtime(k));
      case Binary(a, b) =>
        depth := depth + 1;
        v, err := Evaluate(a);
        depth := depth - 1;
        if err.Some? { return 0, err; }
        depth := depth + 1;
        v, err := Evaluate(b);
        depth := depth - 1;
      case Invoke(f, args) => v, err := Call(f, args);
    }

    method Call(f: string, args: seq<Arg>) returns (v: nat, err: Option<Error>)
      modifies this
      ensures Value(Now(), v, err) == EvalCall(setup, f, args, old(Now()))
      decreases Room(setup, Now()), |choices|, 1 + ArgsSize(args), 0
    {
      hide EvalExpr, RunSemantics.Enter;
      if f !in setup.methods || |args| != setup.methods[f].params { return 0, Some(Runtime(0)); }
      var m := setup.methods[f];
      BorrowFrame();
      for i := 0 to |args|
        invariant depth == old(depth) && |choices| <= |old(choices)|
        invariant EvalCall(setup, f, args, old(Now())) == BindArgs(setup, m, args, i, Now())
      {
        ArgSmaller(args, i);
        v, err := Evaluate(args[i].expr);
        if err.None? && !args[i].fits { err := Some(Runtime(1)); }
        if err.Some? {
          ReleaseFrame();
          return 0, err;
        }
        if args[i].copied { AccountCopy(v); }
      }
      v, err := EnterMethod(m);
    }

    method EnterMethod(m: Method) returns (v: nat, err: Option<Error>)
      modifies this
      ensures Value(Now(), v, err) == Enter(setup, m, old(Now()))
      decreases Room(setup, Now()), |choices|, 0, 0
    {
      hide ExecBlock;
      depth := depth + 1;
      if depth > setup.limit || chain > setup.budget {
        depth := depth - 1;
        ReleaseFrame();
        return 0, Some(Runtime(2));
      }
      var out := Block(m.body);
      depth := depth - 1;
      ReleaseFrame();
      if out.error.Some? { return 0, out.error; }
      match out.flow
      case Returned(w) => return w, None;
      case Normal => return 0, None;
      case _ => return 0, Some(Runtime(3));
    }

    // ----- statements -----

    method Block(b: seq<Stmt>) returns (out: Outcome)
      modifies this
      ensures End(Now(), out) == ExecBlock(setup, b, old(Now()))
      decreases Room(setup, Now()), |choices|, BodySize(b), 3
    {
      hide RunSemantics.Scope;
      depth := depth + 1;
      out := OwnFrame(b);
      depth := depth - 1;
    }

    method OwnFrame(b: seq<Stmt>) returns (out: Outcome)
      modifies this
      ensures End(Now(), out) == Scope(setup, b, old(Now()))
      decreases Room(setup, Now()), |choices|, BodySize(b), 2
    {
      hide ExecStmts, RunSemantics.FinishFrame;
      BorrowFrame();
      out := Statements(b);
      out := Finish(out);
      ReleaseFrame();
    }

    method Statements(b: seq<Stmt>) returns (out: Outcome)
      modifies this
      ensures End(Now(), out) == ExecStmts(setup, b, old(Now()))
      decreases Room(setup, Now()), |choices|, BodySize(b), 1
    {
      hide ExecStmt;
      assert b[0..] == b;
      for i := 0 to |b|
        invariant depth == old(depth) && |choices| <= |old(choices)|
        invariant ExecStmts(setup, b, old(Now())) == ExecStmts(setup, b[i..], Now())
      {
        StmtSmaller(b, i);
        assert b[i..][0] == b[i] && b[i..][1..] == b[i + 1..];
        out := Statement(b[i]);
        if Stops(out) { return; }
      }
      assert b[|b|..] == [];
      out := Outcome(Normal, None);
    }

    method Statement(st: Stmt) returns (out: Outcome)
      modifies this
      ensures End(Now(), out) == ExecStmt(setup, st, old(Now()))
      decreases Room(setup, Now()), |choices|, StmtSize(st), 0
    {
      hide EvalExpr, ExecBlock, RunSemantics.Scope, Capture, ExecWhile, ExecForEach;
      match st
      case Define(e, copied) =>
        var v, err := Evaluate(e);
        if err.Some? { return Outcome(Normal, err); }
        if copied { AccountCopy(v); }
        out := Outcome(Normal, None);
      case Eval(e) =>
        var v, err := Evaluate(e);
        out := Outcome(Normal, err);
      case Return(e) =>
        var v, err := Evaluate(e);
        out := if err.Some? then Outcome(Normal, err) else Outcome(Returned(v), None);
      case Throw(e) =>
        var v, err := Evaluate(e);
        out := Outcome(Normal, if err.Some? then err else Some(Thrown(v)));
      case Break => out := Outcome(Broke, None);
      case Continue => out := Outcome(Continued, None);
      case Abort => out := Outcome(Normal, Some(Foreign));
      case ExitWith(c) =>
        raised := raised + [Raise(c, level)];
        out := Outcome(Normal, Some(Exit(c)));
      case DeferCall(f, args, onError) => out := Defer(f, args, onError);
      case If(a, b) =>
        var yes := Answer();
        if yes { out := Block(a); } else { out := Block(b); }
      case While(body) => out := WhileLoop(body);
      case ForEach(k, body) => out := ForEachLoop(k, body);
      case Try(body, handler) =>
        out := OwnFrame(body);
        if out.error.None? { return; }
        if !Catchable(out.error.value) { return Outcome(Normal, out.error); }
        out := OwnFrame(handler);
    }

    method Defer(f: string, args: seq<Arg>, onError: bool) returns (out: Outcome)
      modifies this
      ensures End(Now(), out) == Capture(setup, f, args, onError, 0, [], old(Now()))
      decreases Room(setup, Now()), |choices|, ArgsSize(args), 2
    {
      hide EvalExpr;
      var got: seq<Snapshot> := [];
      for i := 0 to |args|
        invariant depth == old(depth) && |choices| <= |old(choices)|
        invariant Capture(setup, f, args, onError, 0, [], old(Now())) == Capture(setup, f, args, onError, i, got, Now())
      {
        ArgSmaller(args, i);
        var v, err := Evaluate(args[i].expr);
        if err.Some? { return Outcome(Normal, err); }
        got := got + [Snapshot(v, args[i].fits, args[i].copied)];
      }
      var d := Deferred(f, got, onError);
      PutDeferred(Deferreds(Now()) + [d]);
      Note(Registered(d));
      out := Outcome(Normal, None);
    }

    method WhileLoop(body: seq<Stmt>) returns (out: Outcome)
      modifies this
      ensures End(Now(), out) == ExecWhile(setup, body, old(Now()))
      decreases Room(setup, Now()), |choices|, BodySize(body), 4
    {
      hide ExecBlock;
      while true
        invariant depth == old(depth) && |choices| <= |old(choices)|
        invariant ExecWhile(setup, body, old(Now())) == ExecWhile(setup, body, Now())
        decreases |choices|
      {
        var more := Answer();
        if !more { return Outcome(Normal, None); }
        out := Block(body);
        if out.error.Some? || out.flow.Returned? { return; }
        if out.flow.Broke? { return Outcome(Normal, None); }
      }
    }

    method ForEachLoop(k: nat, body: seq<Stmt>) returns (out: Outcome)
      modifies this
      ensures End(Now(), out) == ExecForEach(setup, k, body, old(Now()))
      decreases Room(setup, Now()), |choices|, BodySize(body), 4
    {
      hide RunSemantics.Scope;
      for i := 0 to k
        invariant depth == old(depth) && |choices| <= |old(choices)|
        invariant ExecForEach(setup, k, body, old(Now())) == ExecForEach(setup, k - i, body, Now())
      {
        out := OwnFrame(body);
        if out.error.Some? || out.flow.Returned? { return; }
        if out.flow.Broke? { return Outcome(Normal, None); }
      }
      out := Outcome(Normal, None);
    }

    // ----- unwinding -----

    method Finish(out: Outcome) returns (out': Outcome)
      modifies this
      ensures End(Now(), out') == FinishFrame(setup, out, old(Now()))
      decreases Room(setup, Now()), |choices|, 0, 4
    {
      hide RunDeferred;
      var d := Deferreds(Now());
      if d == [] { return out; }
      Note(Exiting(out));
      PutDeferred([]);
      var derr := RunDeferredCalls(d, Fires(out.error));
      out' := if derr.None? || IsExit(out.error) then out else Outcome(Normal, derr);
      Note(Left(out'));
    }

    method RunDeferredCalls(d: seq<Deferred>, failed: bool) returns (derr: Option<Error>)
      modifies this
      ensures Value(Now(), 0, derr) == RunDeferred(setup, d, |d|, failed, None, old(Now()))
      decreases Room(setup, Now()), |choices|, 0, 3
    {
      hide RunSemantics.InvokeDeferred;
      derr := None;
      var failing := failed;
      var j := |d|;
      while j > 0
        invariant 0 <= j <= |d| && depth == old(depth) && |choices| <= |old(choices)|
        invariant RunDeferred(setup, d, |d|, failed, None, old(Now())) == RunDeferred(setup, d, j, failing, derr, Now())
      {
        j := j - 1;
        if d[j].onError && !failing { continue; }
        var err := InvokeDeferred(d[j]);
        Note(Event.Finished(Ran(j, err)));
        if err.Some? { derr, failing := err, true; }
      }
    }

    method InvokeDeferred(d: Deferred) returns (err: Option<Error>)
      modifies this
      ensures Now() == RunSemantics.InvokeDeferred(setup, d, old(Now())).state && err == RunSemantics.InvokeDeferred(setup, d, old(Now())).error
      decreases Room(setup, Now()), |choices|, 0, 2
    {
      hide RunSemantics.Enter;
      if d.callee !in setup.methods || |d.args| != setup.methods[d.callee].params { return Some(Runtime(0)); }
      var m := setup.methods[d.callee];
      var outer := level;
      level := level + 1;
      BorrowFrame();
      ghost var begun := Now();
      for i := 0 to |d.args|
        invariant depth == old(depth) && |choices| <= |old(choices)|
        invariant BindCaptured(setup, m, d.args, 0, begun) == BindCaptured(setup, m, d.args, i, Now())
      {
        if !d.args[i].fits {
          ReleaseFrame();
          level := outer;
          return Some(Runtime(1));
        }
        if d.args[i].copied { AccountCopy(d.args[i].bytes); }
      }
      var v;
      v, err := EnterMethod(m);
      level := outer;
    }

    /** A whole program from a fresh start. */
    method Run(program: seq<Stmt>) returns (out: Outcome)
      requires Now() == Start(choices)
      modifies this
      ensures End(Now(), out) == RunProgram(setup, program, old(choices))
      ensures depth == 0 && |frames| == 1 && chain == frames[0].bytes
      ensures forall s :: 0 <= s < |stories| ==> Settled(stories[s])
      ensures forall i :: 0 <= i < |raised| && raised[i].level == 0 ==> out.error == Some(Exit(raised[i].code))
    {
      hide ExecStmts, RunSemantics.FinishFrame, Settled;
      out := Statements(program);
      out := Finish(out);
      if out.error.None? && (out.flow.Broke? || out.flow.Continued?) { out := Outcome(Normal, Some(Runtime(3))); }
      RunProperties.ProgramKeeps(setup, program, old(choices));
    }
  }
}
