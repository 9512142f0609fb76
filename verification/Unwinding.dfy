/**
 How a frame unwinds: which deferred calls run and in what order, and how their
 failures merge with the way the body ended.
 */
module Unwinding {
  import opened Options

  /** `Foreign` is an error that is neither thrown nor raised by the language. */
  datatype Error = Thrown(value: nat) | Runtime(kind: nat) | Foreign | Exit(code: int)

  datatype Flow = Normal | Returned(value: nat) | Broke | Continued

  /** How a block ends: a control flow, or an error. */
  datatype Outcome = Outcome(flow: Flow, error: Option<Error>)

  /** A captured argument: its size, whether it meets the parameter's type, whether binding it copies it. */
  datatype Snapshot = Snapshot(bytes: nat, fits: bool, copied: bool)

  datatype Deferred = Deferred(callee: string, args: seq<Snapshot>, onError: bool)

  /** One deferred call that ran, by its position in registration order. */
  datatype Ran = Ran(index: nat, error: Option<Error>)

  predicate IsExit(e: Option<Error>) { e.Some? && e.value.Exit? }

  /** errdeferFires: a propagating error that is not an exit. */
  predicate Fires(e: Option<Error>) { e.Some? && !e.value.Exit? }

  // ----- which calls run -----

  /** Last registered first; an errdefer only while the frame is failing; a failure marks the frame failing. */
  ghost predicate Unwinds(d: seq<Deferred>, failed: bool, ran: seq<Ran>) {
    if d == [] then ran == []
    else
      var n := |d| - 1;
      if d[n].onError && !failed then Unwinds(d[..n], failed, ran)
      else ran != [] && ran[0].index == n && Unwinds(d[..n], failed || ran[0].error.Some?, ran[1..])
  }

  ghost predicate Ordered(n: nat, ran: seq<Ran>) {
    && (forall k :: 0 <= k < |ran| ==> ran[k].index < n)
    && forall k, l :: 0 <= k < l < |ran| ==> ran[l].index < ran[k].index
  }

  ghost predicate DidRun(ran: seq<Ran>, i: nat) { exists k :: 0 <= k < |ran| && ran[k].index == i }

  ghost predicate LaterFailed(ran: seq<Ran>, i: nat) {
    exists k :: 0 <= k < |ran| && ran[k].index > i && ran[k].error.Some?
  }

  ghost predicate ShouldRun(d: seq<Deferred>, failed: bool, ran: seq<Ran>, i: nat)
    requires i < |d|
  {
    !d[i].onError || failed || LaterFailed(ran, i)
  }

  /**
   The promised rule. The calls run in reverse order of registration, each at most once;
   a plain one always runs, an errdefer exactly when the frame was failing or a call
   registered after it failed.
   */
  ghost predicate Promised(d: seq<Deferred>, failed: bool, ran: seq<Ran>) {
    Ordered(|d|, ran) && forall i :: 0 <= i < |d| ==> (DidRun(ran, i) <==> ShouldRun(d, failed, ran, i))
  }

  lemma {:induction false} UnwindsIsPromised(d: seq<Deferred>, failed: bool, ran: seq<Ran>)
    ensures Unwinds(d, failed, ran) <==> Promised(d, failed, ran)
    decreases |d|
  {
    if d == [] {
      if ran != [] { assert !(ran[0].index < 0); }
    } else {
      var n := |d| - 1;
      if d[n].onError && !failed {
        UnwindsIsPromised(d[..n], failed, ran);
        SkipStep(d, ran);
      } else if ran == [] || ran[0].index != n {
        MustRunLast(d, failed, ran);
      } else {
        UnwindsIsPromised(d[..n], failed || ran[0].error.Some?, ran[1..]);
        RunStep(d, failed, ran);
      }
    }
  }

  /** A last errdefer that does not fire leaves the rule for the others. */
  lemma SkipStep(d: seq<Deferred>, ran: seq<Ran>)
    requires d != [] && d[|d| - 1].onError
    ensures Promised(d, false, ran) <==> Promised(d[..|d| - 1], false, ran)
  {
    var n := |d| - 1;
    if Promised(d, false, ran) {
      assert !LaterFailed(ran, n);
      assert !ShouldRun(d, false, ran, n);
      assert !DidRun(ran, n);
      forall i | 0 <= i < n
        ensures DidRun(ran, i) <==> ShouldRun(d[..n], false, ran, i)
      {
        assert DidRun(ran, i) <==> ShouldRun(d, false, ran, i);
      }
    }
    if Promised(d[..n], false, ran) {
      forall i | 0 <= i < |d|
        ensures DidRun(ran, i) <==> ShouldRun(d, false, ran, i)
      {
        if i < n { assert DidRun(ran, i) <==> ShouldRun(d[..n], false, ran, i); }
      }
    }
  }

  lemma MustRunLast(d: seq<Deferred>, failed: bool, ran: seq<Ran>)
    requires d != [] && (!d[|d| - 1].onError || failed) && (ran == [] || ran[0].index != |d| - 1)
    ensures !Promised(d, failed, ran)
  {
    assert ShouldRun(d, failed, ran, |d| - 1);
    if DidRun(ran, |d| - 1) {
      var k :| 0 <= k < |ran| && ran[k].index == |d| - 1;
      assert !Ordered(|d|, ran) by {
        assert k > 0 && (ran[0].index >= |d| || ran[k].index > ran[0].index);
      }
    }
  }

  /** The first call to run is the last registered; the rest follow the rule with its failure added. */
  lemma RunStep(d: seq<Deferred>, failed: bool, ran: seq<Ran>)
    requires d != [] && (!d[|d| - 1].onError || failed) && ran != [] && ran[0].index == |d| - 1
    ensures Promised(d, failed, ran) <==> Promised(d[..|d| - 1], failed || ran[0].error.Some?, ran[1..])
  {
    var n := |d| - 1;
    var failed' := failed || ran[0].error.Some?;
    assert Ordered(|d|, ran) <==> Ordered(n, ran[1..]) by { OrderedStep(n, ran); }
    forall i | 0 <= i < n
      ensures DidRun(ran, i) <==> DidRun(ran[1..], i)
      ensures ShouldRun(d, failed, ran, i) <==> ShouldRun(d[..n], failed', ran[1..], i)
    {
      TailRuns(ran, i);
    }
    assert DidRun(ran, n) && ShouldRun(d, failed, ran, n);
    if Promised(d, failed, ran) {
      forall i | 0 <= i < n
        ensures DidRun(ran[1..], i) <==> ShouldRun(d[..n], failed', ran[1..], i)
      {
        assert DidRun(ran, i) <==> ShouldRun(d, failed, ran, i);
      }
    }
    if Promised(d[..n], failed', ran[1..]) {
      forall i | 0 <= i < |d|
        ensures DidRun(ran, i) <==> ShouldRun(d, failed, ran, i)
      {
        if i < n { assert DidRun(ran[1..], i) <==> ShouldRun(d[..n], failed', ran[1..], i); }
      }
    }
  }

  lemma OrderedStep(n: nat, ran: seq<Ran>)
    requires ran != [] && ran[0].index == n
    ensures Ordered(n + 1, ran) <==> Ordered(n, ran[1..])
  {
    var t := ran[1..];
    if Ordered(n + 1, ran) {
      forall k | 0 <= k < |t|
        ensures t[k].index < n
      {
        assert t[k] == ran[k + 1];
      }
    }
    if Ordered(n, t) {
      forall k | 0 <= k < |ran|
        ensures ran[k].index < n + 1
      {
        if k > 0 { assert ran[k] == t[k - 1]; }
      }
      forall k, l | 0 <= k < l < |ran|
        ensures ran[l].index < ran[k].index
      {
        assert ran[l] == t[l - 1];
        if k > 0 { assert ran[k] == t[k - 1]; }
      }
    }
  }

  lemma TailRuns(ran: seq<Ran>, i: nat)
    requires ran != [] && ran[0].index > i
    ensures DidRun(ran, i) <==> DidRun(ran[1..], i)
    ensures LaterFailed(ran, i) <==> ran[0].error.Some? || LaterFailed(ran[1..], i)
  {
    var t := ran[1..];
    if DidRun(ran, i) {
      var k :| 0 <= k < |ran| && ran[k].index == i;
      assert t[k - 1] == ran[k];
    }
    if DidRun(t, i) {
      var k :| 0 <= k < |t| && t[k].index == i;
      assert ran[k + 1] == t[k];
    }
    if LaterFailed(ran, i) && ran[0].error.None? {
      var k :| 0 <= k < |ran| && ran[k].index > i && ran[k].error.Some?;
      assert t[k - 1] == ran[k];
    }
    if LaterFailed(t, i) {
      var k :| 0 <= k < |t| && t[k].index > i && t[k].error.Some?;
      assert ran[k + 1] == t[k];
    }
  }

  // ----- how failures merge -----

  /** The error of the last call that failed. */
  function LastError(ran: seq<Ran>): Option<Error> {
    if ran == [] then None
    else
      var n := |ran| - 1;
      if ran[n].error.Some? then ran[n].error else LastError(ran[..n])
  }

  /** A failing deferred call replaces any ending but an exit. */
  function Merge(out: Outcome, ran: seq<Ran>): Outcome {
    if LastError(ran).None? || IsExit(out.error) then out else Outcome(Normal, LastError(ran))
  }

  ghost predicate LastFailure(ran: seq<Ran>, k: nat) {
    k < |ran| && ran[k].error.Some? && forall l :: k < l < |ran| ==> ran[l].error.None?
  }

  lemma {:induction false} LastErrorAt(ran: seq<Ran>, k: nat)
    requires LastFailure(ran, k)
    ensures LastError(ran) == ran[k].error
    decreases |ran|
  {
    var n := |ran| - 1;
    if k < n { LastErrorAt(ran[..n], k); }
  }

  lemma {:induction false} LastErrorFrom(ran: seq<Ran>) returns (k: nat)
    requires LastError(ran).Some?
    ensures LastFailure(ran, k)
    decreases |ran|
  {
    k := |ran| - 1;
    if ran[k].error.None? { k := LastErrorFrom(ran[..k]); }
  }

  /** A frame ends in an exit exactly when its body did, or its last failing deferred call did. */
  lemma MergeExits(out: Outcome, ran: seq<Ran>, c: int)
    ensures Merge(out, ran).error == Some(Exit(c)) <==>
            || out.error == Some(Exit(c))
            || (!IsExit(out.error) && exists k: nat :: LastFailure(ran, k) && ran[k].error == Some(Exit(c)))
  {
    hide LastError;
    if LastError(ran).Some? {
      var k := LastErrorFrom(ran);
      LastErrorAt(ran, k);
    }
    forall k: nat | LastFailure(ran, k)
      ensures LastError(ran) == ran[k].error
    {
      LastErrorAt(ran, k);
    }
  }

  // ----- the record a frame leaves -----

  datatype Event = Registered(call: Deferred) | Exiting(out: Outcome) | Finished(ran: Ran) | Left(out: Outcome)

  function Registrations(d: seq<Deferred>): (es: seq<Event>)
    ensures |es| == |d| && forall i :: 0 <= i < |d| ==> es[i] == Registered(d[i])
  {
    seq(|d|, i requires 0 <= i < |d| => Registered(d[i]))
  }

  function Runs(ran: seq<Ran>): (es: seq<Event>)
    ensures |es| == |ran| && forall i :: 0 <= i < |ran| ==> es[i] == Finished(ran[i])
  {
    seq(|ran|, i requires 0 <= i < |ran| => Finished(ran[i]))
  }

  function Unwound(d: seq<Deferred>, out: Outcome, ran: seq<Ran>): seq<Event> {
    Registrations(d) + [Exiting(out)] + Runs(ran)
  }

  /** A frame that registered calls unwound by the rule and left with the merged outcome. */
  ghost predicate Closed(es: seq<Event>) {
    exists d: seq<Deferred>, out: Outcome, ran: seq<Ran> :: Unwinds(d, Fires(out.error), ran) && es == Unwound(d, out, ran) + [Left(Merge(out, ran))]
  }

  /** Closed, or a frame that never registered a call. */
  ghost predicate Settled(es: seq<Event>) { es == [] || Closed(es) }
}
