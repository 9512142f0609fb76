/**
 What every run keeps: call depth and memory count, the frames below, the rule by
 which each frame unwinds, and the code of an exit.
 */
module RunProperties {
  import opened Options
  import opened Unwinding
  import opened RunSemantics

  function Total(fs: seq<Frame>): nat { if fs == [] then 0 else Total(fs[..|fs| - 1]) + fs[|fs| - 1].bytes }

  /** The memory count is the sum over the live frames. */
  ghost predicate Balanced(s: State) { s.chain == Total(s.frames) && forall i :: 0 <= i < |s.frames| ==> s.frames[i].serial < |s.stories| }

  /** Only the story `open` may change; every frame entered since has settled. */
  ghost predicate StoriesGrow(a: seq<seq<Event>>, b: seq<seq<Event>>, open: Option<nat>) {
    && |a| <= |b|
    && (forall s :: 0 <= s < |a| && open != Some(s) ==> b[s] == a[s])
    && forall s :: |a| <= s < |b| && open != Some(s) ==> Settled(b[s])
  }

  /** What every expression, block, call and statement list keeps, apart from the innermost frame. */
  ghost predicate Around(a: State, b: State) {
    && b.depth == a.depth && b.level == a.level && |a.stories| <= |b.stories|
    && |b.frames| == |a.frames|
  }

  /** Depth, memory count and all frames are as before. */
  ghost predicate Kept(a: State, b: State) {
    Around(a, b) && b.chain == a.chain && b.frames == a.frames && StoriesGrow(a.stories, b.stories, None)
  }

  /** The innermost frame is running its body: its story is its registrations. */
  ghost predicate Open(s: State) {
    && s.frames != []
    && var t := s.frames[|s.frames| - 1]; t.serial < |s.stories| && s.stories[t.serial] == Registrations(t.deferred)
  }

  /** Only the innermost frame and its story changed. */
  ghost predicate Inside(a: State, b: State) {
    && Around(a, b) && a.frames != []
    && var n := |a.frames| - 1;
    && b.frames[..n] == a.frames[..n] && b.frames[n].serial == a.frames[n].serial
    && StoriesGrow(a.stories, b.stories, Some(a.frames[n].serial))
  }

  /** The innermost frame may have taken copies and registered calls; it lost none. */
  ghost predicate Stepped(a: State, b: State) {
    Inside(a, b) && a.frames[|a.frames| - 1].deferred <= b.frames[|a.frames| - 1].deferred
  }

  /** Exits raised since: those of this level end the run of this level, with their code. */
  ghost predicate Exits(r: seq<Raise>, r': seq<Raise>, level: nat, e: Option<Error>) {
    && r <= r'
    && (forall i :: |r| <= i < |r'| ==> r'[i].level >= level && (r'[i].level == level ==> e == Some(Exit(r'[i].code))))
    && (IsExit(e) ==> exists i :: |r| <= i < |r'| && r'[i].code == e.value.code)
  }

  lemma KeptTrans(a: State, b: State, c: State)
    requires Kept(a, b) && Kept(b, c)
    ensures Kept(a, c)
  {
  }

  lemma KeptSteps(a: State, b: State)
    requires Kept(a, b) && Open(a)
    ensures Stepped(a, b) && Open(b)
  {
  }

  lemma SteppedTrans(a: State, b: State, c: State)
    requires Stepped(a, b) && Stepped(b, c)
    ensures Stepped(a, c)
  {
  }

  lemma InsideKept(a: State, b: State, c: State)
    requires Inside(a, b) && Kept(b, c)
    ensures Inside(a, c)
  {
  }

  lemma InsideRecorded(a: State, b: State, c: State)
    requires Inside(a, b) && Balanced(b) && c == b.(stories := c.stories)
    requires |c.stories| == |b.stories|
    requires forall s :: 0 <= s < |b.stories| && s != b.frames[|b.frames| - 1].serial ==> c.stories[s] == b.stories[s]
    ensures Inside(a, c) && Balanced(c)
  {
  }

  lemma InsideTrans(a: State, b: State, c: State)
    requires Inside(a, b) && Inside(b, c)
    ensures Inside(a, c)
  {
  }

  lemma MergeIs(out: Outcome, ran: seq<Ran>, derr: Option<Error>)
    requires derr == LastError(ran)
    ensures Merge(out, ran) == if derr.None? || IsExit(out.error) then out else Outcome(Normal, derr)
  {
  }

  lemma ClosedBy(d: seq<Deferred>, out: Outcome, ran: seq<Ran>)
    requires Unwinds(d, Fires(out.error), ran)
    ensures Settled(Unwound(d, out, ran) + [Left(Merge(out, ran))])
  {
  }

  lemma UnwoundSnoc(d: seq<Deferred>, out: Outcome, ran: seq<Ran>, r: Ran)
    ensures Unwound(d, out, ran + [r]) == Unwound(d, out, ran) + [Finished(r)]
  {
    assert Runs(ran + [r]) == Runs(ran) + [Finished(r)];
  }

  lemma ExitsTrans(r: seq<Raise>, r': seq<Raise>, r'': seq<Raise>, level: nat, e: Option<Error>)
    requires Exits(r, r', level, None) && Exits(r', r'', level, e)
    ensures Exits(r, r'', level, e)
  {
    forall i | |r| <= i < |r''|
      ensures r''[i].level >= level && (r''[i].level == level ==> e == Some(Exit(r''[i].code)))
    {
      if i < |r'| { assert r''[i] == r'[i]; }
    }
  }

  /** A call frame is being filled above the frames of `a`. */
  ghost predicate Entered(a: State, b: State) {
    && b.depth == a.depth && b.level == a.level
    && |b.frames| == |a.frames| + 1 && b.frames[..|a.frames|] == a.frames && b.frames[|a.frames|].serial == |a.stories|
    && b.frames[|a.frames|].deferred == [] && StoriesGrow(a.stories + [[]], b.stories, None)
  }

  lemma EnteredKept(a: State, b: State, c: State)
    requires Entered(a, b) && Kept(b, c)
    ensures Entered(a, c)
  {
  }

  /** Leaving a call frame, or a scope whose story has settled, restores everything around it. */
  lemma Leaves(a: State, b: State, c: State)
    requires Balanced(a) && Balanced(c) && |b.frames| == |a.frames| + 1 && b.frames[..|a.frames|] == a.frames
    requires b.depth == a.depth && b.level == a.level
    requires StoriesGrow(a.stories + [[]], b.stories, Some(|a.stories|)) && Settled(b.stories[|a.stories|])
    requires c == b.(chain := c.chain, frames := a.frames)
    ensures Kept(a, c)
  {
    forall s | 0 <= s < |a.stories|
      ensures c.stories[s] == a.stories[s]
    {
      assert a.stories[s] == (a.stories + [[]])[s];
    }
  }

  lemma EnteredLeaves(a: State, b: State, c: State)
    requires Balanced(a) && Balanced(c) && Entered(a, b) && c == b.(chain := c.chain, frames := a.frames)
    ensures Kept(a, c)
  {
    assert b.stories[|a.stories|] == (a.stories + [[]])[|a.stories|];
    Leaves(a, b, c);
  }

  /** Exits under the deferred calls of a finishing frame do not disturb one its body raised. */
  lemma FinishExits(r: seq<Raise>, r': seq<Raise>, r'': seq<Raise>, level: nat, out: Outcome, ran: seq<Ran>)
    requires Exits(r, r', level, out.error) && Deeper(r', r'', level, LastError(ran))
    ensures Exits(r, r'', level, Merge(out, ran).error)
  {
    forall i | |r| <= i < |r''|
      ensures r''[i].level >= level
      ensures r''[i].level == level ==> Merge(out, ran).error == Some(Exit(r''[i].code))
    {
      if i < |r'| { assert r''[i] == r'[i]; }
    }
    if IsExit(out.error) {
      var i :| |r| <= i < |r'| && r'[i].code == out.error.value.code;
      assert r''[i] == r'[i];
    }
  }

  /** All exits raised since ran under a deferred call, and an exit `e` is one of them. */
  ghost predicate Deeper(r: seq<Raise>, r': seq<Raise>, level: nat, e: Option<Error>) {
    && r <= r' && (forall i :: |r| <= i < |r'| ==> r'[i].level > level)
    && (IsExit(e) ==> exists i :: |r| <= i < |r'| && r'[i].code == e.value.code)
  }

  lemma DeeperTrans(r: seq<Raise>, r': seq<Raise>, r'': seq<Raise>, level: nat, d: Option<Error>, e: Option<Error>)
    requires Deeper(r, r', level, d) && Exits(r', r'', level + 1, e)
    ensures Deeper(r, r'', level, if e.Some? then e else d)
  {
    forall i | |r| <= i < |r''|
      ensures r''[i].level > level
    {
      if i < |r'| { assert r''[i] == r'[i]; }
    }
    if e.None? && IsExit(d) {
      var i :| |r| <= i < |r'| && r'[i].code == d.value.code;
      assert r''[i] == r'[i];
    }
  }

  // ----- one deferred call at a time -----

  /** Whatever unwinds the calls still to come completes what has run so far. */
  ghost predicate Pending(d: seq<Deferred>, failed: bool, ran: seq<Ran>, j: nat, failing: bool) {
    j <= |d| && forall rest :: Unwinds(d[..j], failing, rest) ==> Unwinds(d, failed, ran + rest)
  }

  lemma PendingStart(d: seq<Deferred>, failed: bool)
    ensures Pending(d, failed, [], |d|, failed) && LastError([]).None?
  {
    assert d[..|d|] == d;
    assert forall rest: seq<Ran> :: [] + rest == rest;
  }

  lemma PendingDone(d: seq<Deferred>, failed: bool, ran: seq<Ran>, failing: bool)
    requires Pending(d, failed, ran, 0, failing)
    ensures Unwinds(d, failed, ran)
  {
    assert Unwinds(d[..0], failing, []);
    assert ran + [] == ran;
  }

  lemma PendingSkip(d: seq<Deferred>, failed: bool, ran: seq<Ran>, j: nat)
    requires 0 < j <= |d| && Pending(d, failed, ran, j, false) && d[j - 1].onError
    ensures Pending(d, failed, ran, j - 1, false)
  {
    assert d[..j][..j - 1] == d[..j - 1];
  }

  lemma PendingRun(d: seq<Deferred>, failed: bool, ran: seq<Ran>, j: nat, failing: bool, e: Option<Error>)
    requires 0 < j <= |d| && Pending(d, failed, ran, j, failing) && (!d[j - 1].onError || failing)
    ensures Pending(d, failed, ran + [Ran(j - 1, e)], j - 1, failing || e.Some?)
  {
    assert d[..j][..j - 1] == d[..j - 1];
    var failing', still := failing || e.Some?, d[..j - 1];
    forall rest | Unwinds(still, failing', rest)
      ensures Unwinds(d, failed, ran + [Ran(j - 1, e)] + rest)
    {
      var more := [Ran(j - 1, e)] + rest;
      assert more[1..] == rest;
      assert Unwinds(d[..j], failing, more);
      assert ran + more == ran + [Ran(j - 1, e)] + rest;
    }
  }

  lemma LastErrorSnoc(ran: seq<Ran>, r: Ran)
    ensures LastError(ran + [r]) == if r.error.Some? then r.error else LastError(ran)
  {
    assert (ran + [r])[..|ran|] == ran;
  }

  lemma TotalPush(fs: seq<Frame>, f: Frame)
    ensures Total(fs + [f]) == Total(fs) + f.bytes
  {
    assert (fs + [f])[..|fs|] == fs;
  }

  // ----- single steps -----

  /** Everything a finished piece of a run keeps, ending with error `e`. */
  ghost predicate Restores(s: State, s': State, e: Option<Error>) {
    Balanced(s') && Kept(s, s') && Exits(s.raised, s'.raised, s.level, e)
  }

  /** The same inside a frame that may take copies and register calls. */
  ghost predicate Advances(s: State, s': State, e: Option<Error>) {
    Balanced(s') && Open(s') && Stepped(s, s') && Exits(s.raised, s'.raised, s.level, e)
  }

  lemma RestoresNow(s: State, e: Option<Error>)
    requires Balanced(s) && !IsExit(e)
    ensures Restores(s, s, e)
  {
  }

  lemma RestoresThen(s: State, t: State, s': State, e: Option<Error>)
    requires Restores(s, t, None) && Restores(t, s', e)
    ensures Restores(s, s', e)
  {
    hide Balanced, Exits, Kept;
    KeptTrans(s, t, s');
    KeptLevel(s, t);
    ExitsTrans(s.raised, t.raised, s'.raised, s.level, e);
  }

  lemma KeptLevel(s: State, t: State)
    requires Kept(s, t)
    ensures t.level == s.level
  {
  }

  lemma AdvancesNow(s: State, e: Option<Error>)
    requires Balanced(s) && Open(s) && !IsExit(e)
    ensures Advances(s, s, e)
  {
  }

  lemma AdvancesThen(s: State, t: State, s': State, e: Option<Error>)
    requires Advances(s, t, None) && Advances(t, s', e)
    ensures Advances(s, s', e)
  {
    hide Balanced, Exits, Open, Settled;
    SteppedTrans(s, t, s');
    ExitsTrans(s.raised, t.raised, s'.raised, s.level, e);
  }

  lemma RestoresAdvances(s: State, s': State, e: Option<Error>)
    requires Open(s) && Restores(s, s', e)
    ensures Advances(s, s', e)
  {
    hide Balanced, Exits;
    KeptSteps(s, s');
  }

  /** An error that is caught, or replaced by one that is no exit. */
  lemma RestoresCaught(s: State, s': State, e: Option<Error>, e': Option<Error>)
    requires Restores(s, s', e) && !IsExit(e) && !IsExit(e')
    ensures Restores(s, s', e')
  {
  }

  lemma DeepenBalanced(s: State)
    requires Balanced(s)
    ensures Balanced(Deepen(s))
  {
  }

  lemma DeepenRestores(s: State, t: State, e: Option<Error>)
    requires Balanced(s) && Restores(Deepen(s), t, e)
    ensures Restores(s, Shallow(t), e)
  {
  }

  lemma PushOpen(s: State)
    requires Balanced(s)
    ensures Balanced(Push(s)) && Open(Push(s)) && Entered(s, Push(s))
  {
    TotalPush(s.frames, Frame(|s.stories|, 0, []));
  }

  lemma PopBalanced(s: State)
    requires Balanced(s) && s.frames != []
    ensures Balanced(Pop(s))
  {
    TotalPush(s.frames[..|s.frames| - 1], s.frames[|s.frames| - 1]);
    assert s.frames == s.frames[..|s.frames| - 1] + [s.frames[|s.frames| - 1]];
  }

  lemma AccountBalanced(s: State, k: nat)
    requires Balanced(s) && s.frames != []
    ensures Balanced(Account(s, k)) && Inside(s, Account(s, k)) && Deferreds(Account(s, k)) == Deferreds(s)
  {
    var f, rest := s.frames[|s.frames| - 1], s.frames[..|s.frames| - 1];
    assert s.frames == rest + [f];
    TotalPush(rest, f);
    TotalPush(rest, f.(bytes := f.bytes + k));
  }

  lemma AccountAdvances(s: State, k: nat)
    requires Balanced(s) && Open(s)
    ensures Advances(s, Account(s, k), None)
  {
    AccountBalanced(s, k);
  }

  lemma RegisterAdvances(s: State, d: Deferred)
    requires Balanced(s) && Open(s)
    ensures Advances(s, Register(s, d), None)
  {
    var t, rest := s.frames[|s.frames| - 1], s.frames[..|s.frames| - 1];
    var t' := t.(deferred := t.deferred + [d]);
    TotalPush(rest, t);
    TotalPush(rest, t');
    assert s.frames == rest + [t];
    assert Registrations(t'.deferred) == Registrations(t.deferred) + [Registered(d)];
  }

  // ----- expressions and calls -----

  /** A call frame above `a`, with what was raised while filling it. */
  ghost predicate Filling(a: State, s: State) {
    Balanced(a) && Balanced(s) && Entered(a, s) && Exits(a.raised, s.raised, a.level, None)
  }

  lemma FillingStart(a: State)
    requires Balanced(a)
    ensures Filling(a, Push(a))
  {
    PushOpen(a);
  }

  lemma FillingThen(a: State, s: State, t: State)
    requires Filling(a, s) && Restores(s, t, None)
    ensures Filling(a, t)
  {
    hide Balanced, Exits, Settled;
    EnteredKept(a, s, t);
    ExitsTrans(a.raised, s.raised, t.raised, a.level, None);
  }

  lemma FillingAccount(a: State, s: State, k: nat)
    requires Filling(a, s)
    ensures Filling(a, Account(s, k))
  {
    hide Exits, Settled;
    AccountBalanced(s, k);
  }

  /** Giving up a call frame. */
  lemma FillingPop(a: State, s: State, e: Option<Error>)
    requires Balanced(a) && Balanced(s) && Entered(a, s) && Exits(a.raised, s.raised, a.level, e)
    ensures Restores(a, Pop(s), e)
  {
    hide Exits, Settled;
    PopBalanced(s);
    EnteredLeaves(a, s, Pop(s));
  }

  lemma FillingFails(a: State, s: State, t: State, e: Option<Error>)
    requires Filling(a, s) && Restores(s, t, e)
    ensures Restores(a, Pop(t), e)
  {
    hide Balanced, Exits, Settled;
    EnteredKept(a, s, t);
    ExitsTrans(a.raised, s.raised, t.raised, a.level, e);
    FillingPop(a, t, e);
  }

  lemma {:induction false} ExprRestores(n: Setup, e: Expr, s: State)
    requires Balanced(s)
    ensures Restores(s, EvalExpr(n, e, s).state, EvalExpr(n, e, s).error)
    decreases Room(n, s), |s.choices|, ExprSize(e), 1
  {
    hide Balanced, Restores, EvalCall;
    match e
    case Literal(k) => RestoresNow(s, None);
    case Bad(k) => RestoresNow(s, Some(Runtime(k)));
    case Binary(a, b) =>
      var ra := EvalExpr(n, a, Deepen(s));
      DeepenBalanced(s);
      ExprRestores(n, a, Deepen(s));
      DeepenRestores(s, ra.state, ra.error);
      if ra.error.None? {
        var t := Shallow(ra.state);
        RestoresBalanced(s, t, None);
        DeepenBalanced(t);
        ExprRestores(n, b, Deepen(t));
        DeepenRestores(t, EvalExpr(n, b, Deepen(t)).state, EvalExpr(n, b, Deepen(t)).error);
        RestoresThen(s, t, Shallow(EvalExpr(n, b, Deepen(t)).state), EvalExpr(n, b, Deepen(t)).error);
      }
    case Invoke(f, args) => CallRestores(n, f, args, s);
  }

  lemma RestoresBalanced(s: State, t: State, e: Option<Error>)
    requires Restores(s, t, e)
    ensures Balanced(t) && t.depth == s.depth && t.frames == s.frames
  {
  }

  lemma {:induction false} CallRestores(n: Setup, f: string, args: seq<Arg>, s: State)
    requires Balanced(s)
    ensures Restores(s, EvalCall(n, f, args, s).state, EvalCall(n, f, args, s).error)
    decreases Room(n, s), |s.choices|, 1 + ArgsSize(args), |args| + 1
  {
    hide Balanced, Restores, Filling, BindArgs;
    if f !in n.methods || |args| != n.methods[f].params {
      RestoresNow(s, Some(Runtime(0)));
    } else {
      FillingStart(s);
      BindRestores(n, n.methods[f], args, 0, s, Push(s));
    }
  }

  lemma {:induction false} BindRestores(n: Setup, m: Method, args: seq<Arg>, i: nat, a: State, s: State)
    requires i <= |args| && Filling(a, s)
    ensures Restores(a, BindArgs(n, m, args, i, s).state, BindArgs(n, m, args, i, s).error)
    decreases Room(n, s), |s.choices|, 1 + ArgsSize(args), |args| - i
  {
    hide Balanced, Restores, Filling, Enter, EvalExpr;
    if i == |args| {
      EnterRestores(n, m, a, s);
    } else {
      ArgSmaller(args, i);
      FillingBalanced(a, s);
      ExprRestores(n, args[i].expr, s);
      var r := EvalExpr(n, args[i].expr, s);
      if r.error.Some? {
        FillingFails(a, s, r.state, r.error);
      } else if !args[i].fits {
        RestoresCaught(s, r.state, None, Some(Runtime(1)));
        FillingFails(a, s, r.state, Some(Runtime(1)));
      } else {
        FillingThen(a, s, r.state);
        FillingAccount(a, r.state, r.value);
        BindRestores(n, m, args, i + 1, a, if args[i].copied then Account(r.state, r.value) else r.state);
      }
    }
  }

  lemma FillingBalanced(a: State, s: State)
    requires Filling(a, s)
    ensures Balanced(s)
  {
  }

  lemma {:induction false} EnterRestores(n: Setup, m: Method, a: State, s: State)
    requires Filling(a, s)
    ensures Restores(a, Enter(n, m, s).state, Enter(n, m, s).error)
    decreases Room(n, s), |s.choices|, 0, 0
  {
    hide Balanced, Restores, Filling, ExecBlock;
    FillingBalanced(a, s);
    if s.depth + 1 > n.limit || s.chain > n.budget {
      RestoresNow(s, Some(Runtime(2)));
      FillingFails(a, s, s, Some(Runtime(2)));
    } else {
      var r := ExecBlock(n, m.body, Deepen(s));
      DeepenBalanced(s);
      BlockRestores(n, m.body, Deepen(s));
      DeepenRestores(s, r.state, r.out.error);
      var e := CallResult(Pop(Shallow(r.state)), r.out).error;
      if r.out.error.None? { RestoresCaught(s, Shallow(r.state), None, e); }
      FillingFails(a, s, Shallow(r.state), e);
    }
  }

  // ----- statements -----

  lemma {:induction false} BlockRestores(n: Setup, b: seq<Stmt>, s: State)
    requires Balanced(s)
    ensures Restores(s, ExecBlock(n, b, s).state, ExecBlock(n, b, s).out.error)
    decreases Room(n, s), |s.choices|, BodySize(b), 3
  {
    hide Balanced, Restores, Scope;
    DeepenBalanced(s);
    ScopeRestores(n, b, Deepen(s));
    DeepenRestores(s, Scope(n, b, Deepen(s)).state, Scope(n, b, Deepen(s)).out.error);
  }

  lemma {:induction false} ScopeRestores(n: Setup, b: seq<Stmt>, s: State)
    requires Balanced(s)
    ensures Restores(s, Scope(n, b, s).state, Scope(n, b, s).out.error)
    decreases Room(n, s), |s.choices|, BodySize(b), 2
  {
    hide Balanced, Restores, Advances, ExecStmts, FinishFrame, Open, Concluded;
    PushOpen(s);
    var body := ExecStmts(n, b, Push(s));
    StmtsAdvance(n, b, Push(s));
    FrameFinishes(n, body.out, Push(s), body.state);
    ScopeLeaves(s, FinishFrame(n, body.out, body.state).state, FinishFrame(n, body.out, body.state).out.error);
  }

  /** A frame that is through: only it and its story changed, and the story has settled. */
  ghost predicate Concluded(s: State, s': State, e: Option<Error>) {
    && Balanced(s') && Inside(s, s') && Exits(s.raised, s'.raised, s.level, e)
    && s.frames[|s.frames| - 1].serial < |s'.stories| && Settled(s'.stories[s.frames[|s.frames| - 1].serial])
  }

  lemma ScopeLeaves(s: State, s': State, e: Option<Error>)
    requires Balanced(s) && Concluded(Push(s), s', e)
    ensures Restores(s, Pop(s'), e)
  {
    hide Exits, Settled;
    PopBalanced(s');
    Leaves(s, s', Pop(s'));
  }

  lemma {:induction false} StmtsAdvance(n: Setup, b: seq<Stmt>, s: State)
    requires Balanced(s) && Open(s)
    ensures Advances(s, ExecStmts(n, b, s).state, ExecStmts(n, b, s).out.error)
    decreases Room(n, s), |s.choices|, BodySize(b), 1
  {
    hide Balanced, Advances, Open, ExecStmt;
    if b == [] {
      AdvancesNow(s, None);
    } else {
      var r := ExecStmt(n, b[0], s);
      StmtAdvances(n, b[0], s);
      if !Stops(r.out) {
        AdvancesOpen(s, r.state, None);
        StmtsAdvance(n, b[1..], r.state);
        AdvancesThen(s, r.state, ExecStmts(n, b[1..], r.state).state, ExecStmts(n, b[1..], r.state).out.error);
      }
    }
  }

  lemma AdvancesOpen(s: State, t: State, e: Option<Error>)
    requires Advances(s, t, e)
    ensures Balanced(t) && Open(t) && t.depth == s.depth
  {
  }

  lemma {:induction false} StmtAdvances(n: Setup, st: Stmt, s: State)
    requires Balanced(s) && Open(s)
    ensures Advances(s, ExecStmt(n, st, s).state, ExecStmt(n, st, s).out.error)
    decreases Room(n, s), |s.choices|, StmtSize(st), 0
  {
    hide Balanced, Advances, Restores, Open, EvalExpr, ExecBlock, Scope, Capture, ExecWhile, ExecForEach;
    match st
    case Define(e, copied) => ValueAdvances(n, st, e, s);
    case Eval(e) => ValueAdvances(n, st, e, s);
    case Return(e) => ValueAdvances(n, st, e, s);
    case Throw(e) => ValueAdvances(n, st, e, s);
    case Break => AdvancesNow(s, None);
    case Continue => AdvancesNow(s, None);
    case Abort => AdvancesNow(s, Some(Foreign));
    case ExitWith(c) => ExitAdvances(s, c);
    case DeferCall(f, args, onError) => CaptureAdvances(n, f, args, onError, 0, [], s);
    case If(a, b) => IfAdvances(n, a, b, s);
    case While(body) =>
      WhileRestores(n, body, s);
      RestoresAdvances(s, ExecWhile(n, body, s).state, ExecWhile(n, body, s).out.error);
    case ForEach(k, body) =>
      ForEachRestores(n, k, body, s);
      RestoresAdvances(s, ExecForEach(n, k, body, s).state, ExecForEach(n, k, body, s).out.error);
    case Try(body, handler) =>
      TryRestores(n, body, handler, s);
      RestoresAdvances(s, ExecStmt(n, st, s).state, ExecStmt(n, st, s).out.error);
  }

  lemma ExitAdvances(s: State, c: int)
    requires Balanced(s) && Open(s)
    ensures Advances(s, s.(raised := s.raised + [Raise(c, s.level)]), Some(Exit(c)))
  {
    assert (s.raised + [Raise(c, s.level)])[|s.raised|].code == c;
  }

  lemma {:induction false} ValueAdvances(n: Setup, st: Stmt, e: Expr, s: State)
    requires Balanced(s) && Open(s) && ((st.Define? && st.init == e) || ((st.Eval? || st.Return? || st.Throw?) && st.expr == e))
    ensures Advances(s, ExecStmt(n, st, s).state, ExecStmt(n, st, s).out.error)
    decreases Room(n, s), |s.choices|, ExprSize(e), 2
  {
    hide Balanced, Advances, Restores, Open, EvalExpr;
    var r := EvalExpr(n, e, s);
    ExprRestores(n, e, s);
    RestoresAdvances(s, r.state, r.error);
    if r.error.None? {
      if st.Define? && st.copied {
        AdvancesOpen(s, r.state, None);
        AccountAdvances(r.state, r.value);
        AdvancesThen(s, r.state, Account(r.state, r.value), None);
      } else if st.Throw? {
        RestoresCaught(s, r.state, None, Some(Thrown(r.value)));
        RestoresAdvances(s, r.state, Some(Thrown(r.value)));
      }
    }
  }

  lemma {:induction false} CaptureAdvances(n: Setup, f: string, args: seq<Arg>, onError: bool, i: nat, got: seq<Snapshot>, s: State)
    requires i <= |args| && Balanced(s) && Open(s)
    ensures Advances(s, Capture(n, f, args, onError, i, got, s).state, Capture(n, f, args, onError, i, got, s).out.error)
    decreases Room(n, s), |s.choices|, ArgsSize(args), 2 + |args| - i
  {
    hide Balanced, Advances, Restores, Open, EvalExpr, Register;
    if i == |args| {
      RegisterAdvances(s, Deferred(f, got, onError));
    } else {
      ArgSmaller(args, i);
      var r := EvalExpr(n, args[i].expr, s);
      ExprRestores(n, args[i].expr, s);
      RestoresAdvances(s, r.state, r.error);
      if r.error.None? {
        var got' := got + [Snapshot(r.value, args[i].fits, args[i].copied)];
        AdvancesOpen(s, r.state, None);
        CaptureAdvances(n, f, args, onError, i + 1, got', r.state);
        var q := Capture(n, f, args, onError, i + 1, got', r.state);
        AdvancesThen(s, r.state, q.state, q.out.error);
      }
    }
  }

  lemma ChooseRestores(s: State)
    requires Balanced(s)
    ensures Restores(s, Choose(s).state, None) && Balanced(Choose(s).state) && Choose(s).state.depth == s.depth
    ensures |Choose(s).state.choices| <= |s.choices| && (Choose(s).yes ==> |Choose(s).state.choices| < |s.choices|)
  {
  }

  lemma {:induction false} IfAdvances(n: Setup, a: seq<Stmt>, b: seq<Stmt>, s: State)
    requires Balanced(s) && Open(s)
    ensures Advances(s, ExecStmt(n, If(a, b), s).state, ExecStmt(n, If(a, b), s).out.error)
    decreases Room(n, s), |s.choices|, BodySize(a) + BodySize(b), 4
  {
    hide Balanced, Advances, Restores, Open, ExecBlock;
    var c := Choose(s);
    ChooseRestores(s);
    var body := if c.yes then a else b;
    assert BodySize(a) >= 1 && BodySize(b) >= 1;
    var r := ExecBlock(n, body, c.state);
    BlockRestores(n, body, c.state);
    RestoresThen(s, c.state, r.state, r.out.error);
    RestoresAdvances(s, r.state, r.out.error);
  }

  lemma {:induction false} WhileRestores(n: Setup, body: seq<Stmt>, s: State)
    requires Balanced(s)
    ensures Restores(s, ExecWhile(n, body, s).state, ExecWhile(n, body, s).out.error)
    decreases Room(n, s), |s.choices|, BodySize(body), 4
  {
    hide Balanced, Restores, ExecBlock, Choose;
    var c := Choose(s);
    ChooseRestores(s);
    if c.yes {
      var r := ExecBlock(n, body, c.state);
      BlockRestores(n, body, c.state);
      RestoresThen(s, c.state, r.state, r.out.error);
      if r.out.error.None? && !r.out.flow.Returned? && !r.out.flow.Broke? {
        RestoresBalanced(s, r.state, None);
        WhileRestores(n, body, r.state);
        RestoresThen(s, r.state, ExecWhile(n, body, r.state).state, ExecWhile(n, body, r.state).out.error);
      }
    }
  }

  lemma {:induction false} ForEachRestores(n: Setup, k: nat, body: seq<Stmt>, s: State)
    requires Balanced(s)
    ensures Restores(s, ExecForEach(n, k, body, s).state, ExecForEach(n, k, body, s).out.error)
    decreases Room(n, s), |s.choices|, BodySize(body), 4 + k
  {
    hide Balanced, Restores, Scope;
    if k == 0 {
      RestoresNow(s, None);
    } else {
      var r := Scope(n, body, s);
      ScopeRestores(n, body, s);
      if r.out.error.None? && !r.out.flow.Returned? && !r.out.flow.Broke? {
        RestoresBalanced(s, r.state, None);
        ForEachRestores(n, k - 1, body, r.state);
        RestoresThen(s, r.state, ExecForEach(n, k - 1, body, r.state).state, ExecForEach(n, k - 1, body, r.state).out.error);
      }
    }
  }

  lemma {:induction false} TryRestores(n: Setup, body: seq<Stmt>, handler: seq<Stmt>, s: State)
    requires Balanced(s)
    ensures Restores(s, ExecStmt(n, Try(body, handler), s).state, ExecStmt(n, Try(body, handler), s).out.error)
    decreases Room(n, s), |s.choices|, BodySize(body) + BodySize(handler), 4
  {
    hide Balanced, Restores, Scope;
    var r := Scope(n, body, s);
    ScopeRestores(n, body, s);
    if r.out.error.Some? && Catchable(r.out.error.value) {
      RestoresCaught(s, r.state, r.out.error, None);
      RestoresBalanced(s, r.state, None);
      ScopeRestores(n, handler, r.state);
      RestoresThen(s, r.state, Scope(n, handler, r.state).state, Scope(n, handler, r.state).out.error);
    }
  }

  // ----- unwinding -----

  /** The story of the innermost frame. */
  ghost predicate Tells(s: State, es: seq<Event>) {
    && s.frames != [] && s.frames[|s.frames| - 1].serial < |s.stories|
    && s.stories[s.frames[|s.frames| - 1].serial] == es
  }

  lemma RecordInside(a: State, s: State, es: seq<Event>, e: Event)
    requires Balanced(s) && Inside(a, s) && Tells(s, es)
    ensures Balanced(Record(s, e)) && Inside(a, Record(s, e)) && Tells(Record(s, e), es + [e])
    ensures Record(s, e).frames == s.frames && Record(s, e).raised == s.raised
  {
    InsideRecorded(a, s, Record(s, e));
  }

  lemma InsideNow(s: State)
    requires s.frames != []
    ensures Inside(s, s)
  {
  }

  /** The list comes off the frame, so that a deferred call cannot reach it. */
  lemma StartsUnwinding(s: State, out: Outcome)
    requires Balanced(s) && Open(s)
    ensures var t := SetDeferred(Record(s, Exiting(out)), []);
            && Balanced(t) && Inside(s, t) && Tells(t, Unwound(Deferreds(s), out, []))
            && t.raised == s.raised && t.choices == s.choices && t.level == s.level
  {
    hide Settled;
    var d := Deferreds(s);
    var f, rest := s.frames[|s.frames| - 1], s.frames[..|s.frames| - 1];
    TotalPush(rest, f);
    TotalPush(rest, f.(deferred := []));
    assert s.frames == rest + [f];
    assert Unwound(d, out, []) == Registrations(d) + [Exiting(out)];
  }

  lemma {:induction false} InvokeRestores(n: Setup, d: Deferred, s: State)
    requires Balanced(s)
    ensures Balanced(InvokeDeferred(n, d, s).state) && Kept(s, InvokeDeferred(n, d, s).state)
    ensures Exits(s.raised, InvokeDeferred(n, d, s).state.raised, s.level + 1, InvokeDeferred(n, d, s).error)
    decreases Room(n, s), |s.choices|, 0, 3
  {
    hide BindCaptured;
    if d.callee in n.methods && |d.args| == n.methods[d.callee].params {
      var t := s.(level := s.level + 1);
      FillingStart(t);
      CapturedRestores(n, n.methods[d.callee], d.args, 0, t, Push(t));
    }
  }

  lemma {:induction false} CapturedRestores(n: Setup, m: Method, args: seq<Snapshot>, i: nat, a: State, s: State)
    requires i <= |args| && Filling(a, s)
    ensures Restores(a, BindCaptured(n, m, args, i, s).state, BindCaptured(n, m, args, i, s).error)
    decreases Room(n, s), |s.choices|, 0, 1, |args| - i
  {
    hide Balanced, Restores, Filling, Enter;
    FillingBalanced(a, s);
    if i == |args| {
      EnterRestores(n, m, a, s);
    } else if !args[i].fits {
      RestoresNow(s, Some(Runtime(1)));
      FillingFails(a, s, s, Some(Runtime(1)));
    } else {
      FillingAccount(a, s, args[i].bytes);
      CapturedRestores(n, m, args, i + 1, a, if args[i].copied then Account(s, args[i].bytes) else s);
    }
  }

  /** The frame of `a` has run the calls from the end down to position j. */
  ghost predicate Halfway(a: State, s: State, d: seq<Deferred>, out: Outcome, ran: seq<Ran>, j: nat, failing: bool, derr: Option<Error>) {
    && Balanced(s) && Inside(a, s) && s.frames == a.frames && Tells(s, Unwound(d, out, ran))
    && Pending(d, Fires(out.error), ran, j, failing) && derr == LastError(ran) && Deeper(a.raised, s.raised, a.level, derr)
  }

  lemma HalfwaySkip(a: State, s: State, d: seq<Deferred>, out: Outcome, ran: seq<Ran>, j: nat, derr: Option<Error>)
    requires 0 < j <= |d| && Halfway(a, s, d, out, ran, j, false, derr) && d[j - 1].onError
    ensures Halfway(a, s, d, out, ran, j - 1, false, derr)
  {
    hide Balanced, Inside, Tells, Pending, Deeper, LastError, Unwound;
    PendingSkip(d, Fires(out.error), ran, j);
  }

  lemma HalfwayRun(a: State, s: State, d: seq<Deferred>, out: Outcome, ran: seq<Ran>, j: nat, failing: bool, derr: Option<Error>, r: Value)
    requires 0 < j <= |d| && Halfway(a, s, d, out, ran, j, failing, derr) && (!d[j - 1].onError || failing)
    requires Balanced(r.state) && Kept(s, r.state) && Exits(s.raised, r.state.raised, s.level + 1, r.error)
    ensures Halfway(a, Record(r.state, Event.Finished(Ran(j - 1, r.error))), d, out, ran + [Ran(j - 1, r.error)], j - 1,
                    failing || r.error.Some?, if r.error.Some? then r.error else derr)
  {
    hide Balanced, Pending, Deeper, LastError, Unwound, Exits, Settled;
    InsideKept(a, s, r.state);
    assert Tells(r.state, Unwound(d, out, ran)) by { TellsKept(s, r.state, Unwound(d, out, ran)); }
    RecordInside(a, r.state, Unwound(d, out, ran), Event.Finished(Ran(j - 1, r.error)));
    UnwoundSnoc(d, out, ran, Ran(j - 1, r.error));
    PendingRun(d, Fires(out.error), ran, j, failing, r.error);
    LastErrorSnoc(ran, Ran(j - 1, r.error));
    DeeperTrans(a.raised, s.raised, r.state.raised, a.level, derr, r.error);
  }

  lemma TellsKept(s: State, t: State, es: seq<Event>)
    requires Kept(s, t) && Tells(s, es)
    ensures Tells(t, es)
  {
  }

  lemma {:induction false} DeferredRuns(n: Setup, a: State, s: State, d: seq<Deferred>, out: Outcome, ran: seq<Ran>, j: nat, failing: bool,
                                        derr: Option<Error>) returns (all: seq<Ran>)
    requires j <= |d| && Halfway(a, s, d, out, ran, j, failing, derr)
    ensures var r := RunDeferred(n, d, j, failing, derr, s); RanAll(a, r.state, d, out, all, r.error)
    decreases Room(n, s), |s.choices|, 0, 4 + j
  {
    hide Halfway, InvokeDeferred, RanAll, Kept, Exits, Balanced;
    if j == 0 {
      all := ran;
      AllRan(a, s, d, out, ran, failing, derr);
    } else if d[j - 1].onError && !failing {
      HalfwaySkip(a, s, d, out, ran, j, derr);
      all := DeferredRuns(n, a, s, d, out, ran, j - 1, failing, derr);
    } else {
      HalfwayBalanced(a, s, d, out, ran, j, failing, derr);
      var r := InvokeDeferred(n, d[j - 1], s);
      InvokeRestores(n, d[j - 1], s);
      HalfwayRun(a, s, d, out, ran, j, failing, derr, r);
      all := DeferredRuns(n, a, Record(r.state, Event.Finished(Ran(j - 1, r.error))), d, out, ran + [Ran(j - 1, r.error)], j - 1,
                          failing || r.error.Some?, if r.error.Some? then r.error else derr);
    }
  }

  lemma HalfwayBalanced(a: State, s: State, d: seq<Deferred>, out: Outcome, ran: seq<Ran>, j: nat, failing: bool, derr: Option<Error>)
    requires Halfway(a, s, d, out, ran, j, failing, derr)
    ensures Balanced(s)
  {
  }

  /** All of them: by the rule, with the last error as the result. */
  ghost predicate RanAll(a: State, s: State, d: seq<Deferred>, out: Outcome, ran: seq<Ran>, derr: Option<Error>) {
    && Balanced(s) && Inside(a, s) && s.frames == a.frames && Tells(s, Unwound(d, out, ran))
    && Unwinds(d, Fires(out.error), ran) && derr == LastError(ran) && Deeper(a.raised, s.raised, a.level, derr)
  }

  lemma AllRan(a: State, s: State, d: seq<Deferred>, out: Outcome, ran: seq<Ran>, failing: bool, derr: Option<Error>)
    requires Halfway(a, s, d, out, ran, 0, failing, derr)
    ensures RanAll(a, s, d, out, ran, derr)
  {
    hide Balanced, Inside, Tells, Pending, Deeper, LastError, Unwound, Unwinds;
    PendingDone(d, Fires(out.error), ran, failing);
  }

  lemma {:induction false} FrameFinishes(n: Setup, out: Outcome, a: State, s: State)
    requires Balanced(a) && Open(a) && Advances(a, s, out.error)
    ensures Concluded(a, FinishFrame(n, out, s).state, FinishFrame(n, out, s).out.error)
    decreases Room(n, s), |s.choices|, 0, |Deferreds(s)| + 5
  {
    hide Exits, Unwinds, Unwound, Merge, LastError, RunDeferred, Total, Closed, Halfway, RanAll;
    if Deferreds(s) == [] {
      assert Registrations([]) == [];
    } else {
      var d := Deferreds(s);
      var t := SetDeferred(Record(s, Exiting(out)), []);
      StartsUnwinding(s, out);
      HalfwayStart(t, d, out);
      var ran := DeferredRuns(n, t, t, d, out, [], |d|, Fires(out.error), None);
      FrameCloses(a, s, t, RunDeferred(n, d, |d|, Fires(out.error), None, t), d, out, ran);
    }
  }

  lemma HalfwayStart(t: State, d: seq<Deferred>, out: Outcome)
    requires Balanced(t) && Tells(t, Unwound(d, out, []))
    ensures Halfway(t, t, d, out, [], |d|, Fires(out.error), None)
  {
    hide Balanced, Unwound, Pending;
    InsideNow(t);
    PendingStart(d, Fires(out.error));
  }

  lemma FrameCloses(a: State, s: State, t: State, r: Value, d: seq<Deferred>, out: Outcome, ran: seq<Ran>)
    requires Inside(a, s) && Inside(s, t) && t.raised == s.raised && t.level == s.level == a.level
    requires Exits(a.raised, s.raised, a.level, out.error) && RanAll(t, r.state, d, out, ran, r.error)
    ensures var out' := if r.error.None? || IsExit(out.error) then out else Outcome(Normal, r.error);
            Concluded(a, Record(r.state, Left(out')), out'.error)
  {
    hide Balanced, Exits, Deeper, Unwinds, Unwound, Merge, LastError, Closed, Settled;
    var out' := if r.error.None? || IsExit(out.error) then out else Outcome(Normal, r.error);
    InsideTrans(a, s, t);
    InsideTrans(a, t, r.state);
    MergeIs(out, ran, r.error);
    FinishExits(a.raised, s.raised, r.state.raised, a.level, out, ran);
    RecordInside(a, r.state, Unwound(d, out, ran), Left(out'));
    ClosedBy(d, out, ran);
  }

  // ----- whole programs -----

  /**
   Main result. For every program: depth is back, the memory count is what the global frame
   holds, every frame ever entered unwound by the rule, and an exit raised outside deferred
   calls is the program's ending.
   */
  lemma ProgramKeeps(n: Setup, program: seq<Stmt>, choices: seq<bool>)
    ensures var r := RunProgram(n, program, choices);
            && r.state.depth == 0 && |r.state.frames| == 1 && r.state.chain == r.state.frames[0].bytes
            && (forall s :: 0 <= s < |r.state.stories| ==> Settled(r.state.stories[s]))
            && (forall i :: 0 <= i < |r.state.raised| && r.state.raised[i].level == 0 ==> r.out.error == Some(Exit(r.state.raised[i].code)))
            && (IsExit(r.out.error) ==> exists i :: 0 <= i < |r.state.raised| && r.state.raised[i].code == r.out.error.value.code)
  {
    hide ExecStmts, FinishFrame, Settled;
    var s := Start(choices);
    assert Total([]) == 0;
    TotalPush([], s.frames[0]);
    assert [] + [s.frames[0]] == s.frames && Registrations([]) == [];
    var body := ExecStmts(n, program, s);
    StmtsAdvance(n, program, s);
    FrameFinishes(n, body.out, s, body.state);
    var r := FinishFrame(n, body.out, body.state);
    TotalPush([], r.state.frames[0]);
    assert [] + [r.state.frames[0]] == r.state.frames;
  }

  // ----- deferred calls and exits over whole runs -----

  predicate EndedInExit(out: Outcome) { out.error.Some? && out.error.value.Exit? }

  /** An errdefer fires for a thrown value, a runtime error and a foreign one; not for an exit, not for any flow. */
  predicate EndedInFailure(out: Outcome) {
    out.error.Some? && (out.error.value.Thrown? || out.error.value.Runtime? || out.error.value.Foreign?)
  }

  /**
   A frame that registered d, whose body ended in `out`: the calls ran last first, each at most once;
   every plain one ran; an errdefer ran exactly when the body had failed, or a call registered after
   it did; and the frame left with the body's ending, unless that was no exit and a call failed.
   */
  ghost predicate Honours(es: seq<Event>, d: seq<Deferred>, out: Outcome, ran: seq<Ran>, left: Outcome) {
    && es == Unwound(d, out, ran) + [Left(left)] && Ordered(|d|, ran)
    && (forall i: nat :: i < |d| && !d[i].onError ==> DidRun(ran, i))
    && (forall i: nat :: i < |d| && d[i].onError ==> (DidRun(ran, i) <==> EndedInFailure(out) || LaterFailed(ran, i)))
    && (EndedInExit(out) || (forall k: nat :: !LastFailure(ran, k)) ==> left == out)
    && (!EndedInExit(out) ==> forall k: nat :: LastFailure(ran, k) ==> left == Outcome(Normal, ran[k].error))
  }

  /** In every run, every frame that registered calls kept the rule. */
  lemma EveryFrameHonours(n: Setup, program: seq<Stmt>, choices: seq<bool>, k: nat)
    requires k < |RunProgram(n, program, choices).state.stories|
    ensures var es := RunProgram(n, program, choices).state.stories[k];
            es == [] || exists d, out, ran, left :: Honours(es, d, out, ran, left)
  {
    hide RunProgram;
    ProgramKeeps(n, program, choices);
    var es := RunProgram(n, program, choices).state.stories[k];
    if es != [] { ClosedHonours(es); }
  }

  lemma ClosedHonours(es: seq<Event>)
    requires Closed(es)
    ensures exists d, out, ran, left :: Honours(es, d, out, ran, left)
  {
    var d: seq<Deferred>, out: Outcome, ran: seq<Ran> :| Unwinds(d, Fires(out.error), ran) && es == Unwound(d, out, ran) + [Left(Merge(out, ran))];
    hide Unwound, Unwinds, Merge, LastFailure, DidRun, LaterFailed, Ordered;
    UnwindsIsPromised(d, Fires(out.error), ran);
    MergesByRule(out, ran);
    assert Honours(es, d, out, ran, Merge(out, ran)) by {
      forall i: nat | i < |d|
        ensures !d[i].onError ==> DidRun(ran, i)
        ensures d[i].onError ==> (DidRun(ran, i) <==> EndedInFailure(out) || LaterFailed(ran, i))
      {
        assert DidRun(ran, i) <==> ShouldRun(d, Fires(out.error), ran, i);
      }
    }
  }

  lemma MergesByRule(out: Outcome, ran: seq<Ran>)
    ensures IsExit(out.error) || (forall k: nat :: !LastFailure(ran, k)) ==> Merge(out, ran) == out
    ensures !IsExit(out.error) ==> forall k: nat :: LastFailure(ran, k) ==> Merge(out, ran) == Outcome(Normal, ran[k].error)
  {
    hide LastError;
    if LastError(ran).Some? { var k := LastErrorFrom(ran); }
    forall k: nat | LastFailure(ran, k) ensures LastError(ran) == ran[k].error && ran[k].error.Some? { LastErrorAt(ran, k); }
  }

  // ----- what stops a body, and what a handler sees -----

  /** A body is its statements one after another, up to the first that ends in an error or leaves by a flow. */
  lemma {:induction false} BodiesCompose(n: Setup, a: seq<Stmt>, b: seq<Stmt>, s: State)
    ensures var r := ExecStmts(n, a, s);
            ExecStmts(n, a + b, s) == if r.out == Outcome(Normal, None) then ExecStmts(n, b, r.state) else r
    ensures |a| == 1 ==> ExecStmts(n, a, s) == ExecStmt(n, a[0], s)
    decreases |a|
  {
    hide ExecStmt;
    if a == [] {
      assert a + b == b;
    } else {
      assert (a + b)[0] == a[0] && (a + b)[1..] == a[1..] + b;
      BodiesCompose(n, a[1..], b, ExecStmt(n, a[0], s).state);
    }
  }

  /**
   A handler runs exactly when the body ended in a thrown value or a runtime error, and then decides;
   an exit or a foreign error goes on outward, and so does any ending without an error.
   */
  lemma HandlersCatch(n: Setup, body: seq<Stmt>, handler: seq<Stmt>, s: State)
    ensures var r, t := Scope(n, body, s), ExecStmt(n, Try(body, handler), s);
            && (r.out.error == None ==> t == r)
            && (r.out.error == Some(Foreign) || EndedInExit(r.out) ==> t == End(r.state, Outcome(Normal, r.out.error)))
            && (EndedInFailure(r.out) && r.out.error != Some(Foreign) ==> t == Scope(n, handler, r.state))
  {
    hide Scope;
  }

  // ----- an exit that is lost -----

  /** `defer fails(); defer quits();` where one throws and the other exits. */
  function Quitting(): seq<Stmt> { [DeferCall("fails", [], false), DeferCall("quits", [], false)] }

  predicate FailsAndQuits(n: Setup, v: nat, c: int) {
    && "fails" in n.methods && n.methods["fails"] == Method(0, [Throw(Literal(v))])
    && "quits" in n.methods && n.methods["quits"] == Method(0, [ExitWith(c)])
  }

  /** A deferred call of a method whose one statement ends it at once. */
  lemma OneLiner(n: Setup, d: Deferred, st: Stmt, s: State)
    requires d.args == [] && d.callee in n.methods && n.methods[d.callee] == Method(0, [st]) && (st.ExitWith? || (st.Throw? && st.expr.Literal?))
    requires s.depth < n.limit && s.chain <= n.budget
    ensures var r := InvokeDeferred(n, d, s);
            && r.state.depth == s.depth && r.state.chain == s.chain && r.state.level == s.level && r.state.frames == s.frames
            && r.error == Some(if st.ExitWith? then Exit(st.code) else Thrown(st.expr.bytes))
            && r.state.raised == s.raised + (if st.ExitWith? then [Raise(st.code, s.level + 1)] else [])
  {
    var t := Push(s.(level := s.level + 1));
    var u := Push(Deepen(Deepen(t)));
    assert [st][0] == st;
    if st.Throw? { assert EvalExpr(n, st.expr, u) == Value(u, st.expr.bytes, None); }
    var body := ExecStmt(n, st, u);
    assert Stops(body.out) && ExecStmts(n, [st], u) == body;
    assert body.state.frames == u.frames && Deferreds(body.state) == [];
    assert FinishFrame(n, body.out, body.state) == body;
    assert u.frames[..|u.frames| - 1] == t.frames && t.frames[..|t.frames| - 1] == s.frames;
    assert Scope(n, [st], Deepen(Deepen(t))) == End(Pop(body.state), body.out);
    assert ExecBlock(n, [st], Deepen(t)) == End(Shallow(Pop(body.state)), body.out);
    assert BindCaptured(n, n.methods[d.callee], [], 0, t) == Enter(n, n.methods[d.callee], t);
  }

  /** The program exits under its second deferred call, and still ends with the first one's error. */
  lemma DeferredExitLostInRun(n: Setup, v: nat, c: int, choices: seq<bool>)
    requires FailsAndQuits(n, v, c) && n.limit >= 1
    ensures var r := RunProgram(n, Quitting(), choices);
            r.state.raised == [Raise(c, 1)] && r.out.error == Some(Thrown(v))
  {
    var d1, d2 := Deferred("fails", [], false), Deferred("quits", [], false);
    var s0 := Start(choices);
    var s1 := Register(s0, d1);
    var s2 := Register(s1, d2);
    assert ExecStmts(n, Quitting(), s0).state == s2 && ExecStmts(n, Quitting(), s0).out == Outcome(Normal, None) by {
      assert Quitting()[1..] == [DeferCall("quits", [], false)] && Quitting()[1..][1..] == [];
      assert ExecStmt(n, Quitting()[0], s0) == End(s1, Outcome(Normal, None));
      assert ExecStmt(n, Quitting()[1], s1) == End(s2, Outcome(Normal, None));
      assert ExecStmts(n, [], s2) == End(s2, Outcome(Normal, None));
      assert ExecStmts(n, Quitting()[1..], s1) == End(s2, Outcome(Normal, None));
    }
    assert Deferreds(s2) == [d1, d2];
    hide ExecStmts, ExecStmt;
    LosesExit(n, v, c, SetDeferred(Record(s2, Exiting(Outcome(Normal, None))), []), d1, d2);
  }

  lemma LosesExit(n: Setup, v: nat, c: int, t: State, d1: Deferred, d2: Deferred)
    requires FailsAndQuits(n, v, c) && d1 == Deferred("fails", [], false) && d2 == Deferred("quits", [], false)
    requires t.depth == 0 < n.limit && t.chain <= n.budget && t.level == 0 && t.raised == []
    ensures var r := RunDeferred(n, [d1, d2], 2, false, None, t);
            r.state.raised == [Raise(c, 1)] && r.error == Some(Thrown(v))
  {
    OneLiner(n, d2, ExitWith(c), t);
    hide InvokeDeferred;
    var u := Record(InvokeDeferred(n, d2, t).state, Event.Finished(Ran(1, Some(Exit(c)))));
    OneLiner(n, d1, Throw(Literal(v)), u);
    var w := Record(InvokeDeferred(n, d1, u).state, Event.Finished(Ran(0, Some(Thrown(v)))));
    assert RunDeferred(n, [d1, d2], 0, true, Some(Thrown(v)), w) == Value(w, 0, Some(Thrown(v)));
    assert RunDeferred(n, [d1, d2], 1, true, Some(Exit(c)), u) == Value(w, 0, Some(Thrown(v)));
    assert RunDeferred(n, [d1, d2], 2, false, None, t) == Value(w, 0, Some(Thrown(v)));
  }
}
