/**
 A poke that is owed arrives. However the notifies of a source are scheduled, they
 can always go on while the poke is due, and they deliver it within a number of steps
 that the state they start from shows.
 */
module PokeDelivery {
  import opened WakeUp

  /** A thread about to notify, or inside a notify of, s. */
  predicate Notifier(p: Pc, s: Sid) {
    match p
    case Counted(x) => x == s
    case Sent(x) => x == s
    case Shut(x) => x == s
    case Finished(x) => x == s
    case Poking(x, _, _) => x == s
    case _ => false
  }

  /** Steps this thread still has in its notify of s: taking the lock, one per waiter, leaving. */
  function Cost(p: Pc, s: Sid, waiters: nat): nat {
    if !Notifier(p, s) then 0 else if p.Poking? then |p.todo| + 1 else waiters + 2
  }

  ghost function Sum(pc: map<Tid, Pc>, ts: set<Tid>, s: Sid, waiters: nat): nat
    requires ts <= pc.Keys
    decreases ts
  {
    if ts == {} then 0 else var t :| t in ts; Cost(pc[t], s, waiters) + Sum(pc, ts - {t}, s, waiters)
  }

  /** All steps the notifies of s still have. */
  ghost function Work(st: State, s: Sid): nat
    requires s in st.waiters
  {
    Sum(st.pc, st.pc.Keys, s, |st.waiters[s]|)
  }

  lemma {:induction false} SumWithout(pc: map<Tid, Pc>, ts: set<Tid>, s: Sid, waiters: nat, t: Tid)
    requires ts <= pc.Keys && t in ts
    ensures Sum(pc, ts, s, waiters) == Cost(pc[t], s, waiters) + Sum(pc, ts - {t}, s, waiters)
    decreases ts
  {
    hide Cost;
    var u :| u in ts && Sum(pc, ts, s, waiters) == Cost(pc[u], s, waiters) + Sum(pc, ts - {u}, s, waiters);
    if u != t {
      SumWithout(pc, ts - {u}, s, waiters, t);
      SumWithout(pc, ts - {t}, s, waiters, u);
      assert ts - {u} - {t} == ts - {t} - {u};
    }
  }

  lemma {:induction false} SumSame(pc: map<Tid, Pc>, pc': map<Tid, Pc>, ts: set<Tid>, s: Sid, waiters: nat)
    requires ts <= pc.Keys && ts <= pc'.Keys && forall t :: t in ts ==> pc'[t] == pc[t]
    ensures Sum(pc', ts, s, waiters) == Sum(pc, ts, s, waiters)
    decreases ts
  {
    hide Cost;
    if ts != {} {
      var t :| t in ts;
      SumWithout(pc, ts, s, waiters, t);
      SumWithout(pc', ts, s, waiters, t);
      SumSame(pc, pc', ts - {t}, s, waiters);
    }
  }

  /** Every step of a notify of s leaves less to do. */
  lemma NotifyShrinks(st: State, t: Tid, n: PokeStep, s: Sid)
    requires TypeOk(st) && s in st.waiters && CanPoke(st, t, n) && Notifier(st.pc[t], s)
    ensures DoPoke(st, t, n).waiters == st.waiters && Work(DoPoke(st, t, n), s) < Work(st, s)
  {
    hide TypeOk;
    var st' := DoPoke(st, t, n);
    var k := |st.waiters[s]|;
    PokeType(st, t, n);
    SumWithout(st.pc, st.pc.Keys, s, k, t);
    SumWithout(st'.pc, st'.pc.Keys, s, k, t);
    SumSame(st.pc, st'.pc, st.pc.Keys - {t}, s, k);
    assert Cost(st'.pc[t], s, k) < Cost(st.pc[t], s, k) by { StepShrinks(st, t, n, s); }
  }

  lemma StepShrinks(st: State, t: Tid, n: PokeStep, s: Sid)
    requires TypeOk(st) && s in st.waiters && CanPoke(st, t, n) && Notifier(st.pc[t], s)
    ensures Cost(DoPoke(st, t, n).pc[t], s, |st.waiters[s]|) < Cost(st.pc[t], s, |st.waiters[s]|)
  {
    hide TypeOk;
    if n.Start? { assert |n.todo| == |multiset(n.todo)|; }
  }

  /** It delivers the poke that is due, or leaves it due. */
  lemma NotifyOwes(st: State, t: Tid, n: PokeStep, s: Sid, w: Tid)
    requires TypeOk(st) && s in st.waiters && w in st.waiters[s] && CanPoke(st, t, n) && Due(st, s, w)
    ensures st.poked <= DoPoke(st, t, n).poked
    ensures w in DoPoke(st, t, n).poked || Due(DoPoke(st, t, n), s, w)
  {
    hide TypeOk, Due;
    var st' := DoPoke(st, t, n);
    PokeType(st, t, n);
    DueMoves(st, st', t, s, w);
    if DueBy(st.pc[t], s, w) && w !in st'.poked {
      match n
      case Start(todo) => assert w in multiset(todo);
      case PokeOne => assert st.pc[t].todo == [st.pc[t].todo[0]] + st.pc[t].todo[1..];
      case End =>
    }
  }

  /** While it is due, a notify of s can take a step. */
  lemma NeverBlocked(st: State, s: Sid, w: Tid)
    requires TypeOk(st) && LocksOk(st) && Due(st, s, w)
    ensures exists t, n :: CanPoke(st, t, n) && Notifier(st.pc[t], s)
  {
    var t :| t in st.pc && DueBy(st.pc[t], s, w);
    assert PcOk(st, st.pc[t]);
    if s in st.locked {
      var u :| u in st.pc && st.pc[u].Poking? && st.pc[u].s == s;
      assert CanPoke(st, u, if st.pc[u].todo == [] then End else PokeOne);
    } else {
      assert CanPoke(st, t, Start(Listed(st.waiters[s])));
    }
  }

  /** A run in which only notifies of s step. */
  ghost predicate NotifyRun(st: State, steps: seq<(Tid, PokeStep)>, s: Sid, end: State)
    decreases |steps|
  {
    if steps == [] then st == end
    else
      && TypeOk(st) && CanPoke(st, steps[0].0, steps[0].1) && Notifier(st.pc[steps[0].0], s)
      && NotifyRun(DoPoke(st, steps[0].0, steps[0].1), steps[1..], s, end)
  }

  lemma {:induction false} NotifyRunDelivers(st: State, steps: seq<(Tid, PokeStep)>, s: Sid, end: State, w: Tid)
    requires TypeOk(st) && LocksOk(st) && s in st.waiters && w in st.waiters[s] && (Due(st, s, w) || w in st.poked)
    requires NotifyRun(st, steps, s, end)
    ensures |steps| <= Work(st, s)
    ensures TypeOk(end) && (w in end.poked || exists t, n :: CanPoke(end, t, n) && Notifier(end.pc[t], s))
    decreases |steps|
  {
    hide TypeOk, LocksOk, Due, CanPoke, DoPoke, Notifier;
    if steps == [] {
      if Due(st, s, w) { NeverBlocked(st, s, w); }
    } else {
      var t, n := steps[0].0, steps[0].1;
      var st' := DoPoke(st, t, n);
      NotifyShrinks(st, t, n, s);
      PokeType(st, t, n);
      LocksPoke(st, t, n);
      PokedGrows(st, t, n);
      if Due(st, s, w) { NotifyOwes(st, t, n, s, w); }
      NotifyRunDelivers(st', steps[1..], s, end, w);
    }
  }

  lemma PokedGrows(st: State, t: Tid, n: PokeStep)
    requires TypeOk(st) && CanPoke(st, t, n)
    ensures st.poked <= DoPoke(st, t, n).poked
  {
    hide TypeOk;
  }

  /**
   Main result, in every reachable state: while a sleeping waiter is owed a poke by a source,
   the notifies of that source can go on, and whatever their order, they take no more than
   Work steps; so the poke is delivered by the time they are through.
   */
  lemma OwedPokeArrives(st: State, steps: seq<Step>, mid: State, w: Tid, s: Sid, notifies: seq<(Tid, PokeStep)>, end: State)
    requires Initial(st) && Run(st, steps, mid) && NotifyRun(mid, notifies, s, end)
    requires w in mid.pc && mid.pc[w].Sleeping? && s in mid.pc[w].live && Due(mid, s, w)
    ensures s in mid.waiters && |notifies| <= Work(mid, s)
    ensures TypeOk(end) && (w in end.poked || exists t, n :: CanPoke(end, t, n) && Notifier(end.pc[t], s))
  {
    hide Run, NotifyRun, Due, Safe, PendingCounts;
    InitialInv(st);
    RunInv(st, steps, mid);
    assert LocksOk(st) && Registered(mid, w) && PcOk(mid, mid.pc[w]);
    RunLocks(st, steps, mid);
    var k :| 0 <= k < |mid.pc[w].mine| && mid.pc[w].mine[k] == s;
    assert s in Enrolled(mid.pc[w]);
    hide Inv, Initial, LocksOk, TypeOk;
    NotifyRunDelivers(mid, notifies, s, end, w);
  }
}
