/**
 What flows through a channel: on every interleaving no value is lost or made up, the buffer keeps
 within its capacity, and no thread is ever stuck on anything but a peer.
 */
module ChannelFlow {
  import opened WakeUp
  import opened PokeDelivery
  import opened WaiterProgress

  /** The step puts a sender's value into the channel, or straight into a receiver's hands. */
  ghost predicate Gives(st: State, a: Step, s: Sid)
    requires TypeOk(st) && Enabled(st, a)
  {
    match a
    case Send(t, Buffer) => st.pc[t].s == s
    case Change(TakeRefill(y, _)) => y == s
    case Change(TakeParked(y, _)) => y == s
    case _ => false
  }

  /** The step takes a value out of the channel. */
  ghost predicate Takes(a: Step, s: Sid) {
    match a
    case Change(TakeBuffered(y)) => y == s
    case Change(TakeRefill(y, _)) => y == s
    case Change(TakeParked(y, _)) => y == s
    case _ => false
  }

  ghost function Given(st: State, steps: seq<Step>, end: State, s: Sid): nat
    requires Run(st, steps, end)
    decreases |steps|
  {
    if steps == [] then 0
    else (if Gives(st, steps[0], s) then 1 else 0) + Given(Apply(st, steps[0]), steps[1..], end, s)
  }

  ghost function Taken(steps: seq<Step>, s: Sid): nat {
    if steps == [] then 0 else (if Takes(steps[0], s) then 1 else 0) + Taken(steps[1..], s)
  }

  function Buffered(st: State, s: Sid): nat { if IsChannel(st, s) then st.src[s].buffered else 0 }

  ghost predicate Sound(st: State) {
    forall s :: IsChannel(st, s) ==> st.src[s].buffered <= st.src[s].capacity
  }

  lemma StepFlows(st: State, a: Step, s: Sid)
    requires TypeOk(st) && Enabled(st, a)
    ensures Buffered(Apply(st, a), s) + (if Takes(a, s) then 1 else 0) == Buffered(st, s) + if Gives(st, a, s) then 1 else 0
  {
    match a
    case Send(t, e) => assert PcOk(st, st.pc[t]);
    case Poke(t, n) => PokeType(st, t, n);
    case Change(c) =>
    case Wait(t, x) => WaitFrame(st, t, x);
  }

  lemma StepSound(st: State, a: Step)
    requires TypeOk(st) && Enabled(st, a) && Sound(st)
    ensures Sound(Apply(st, a))
  {
    match a
    case Send(t, e) => assert PcOk(st, st.pc[t]);
    case Poke(t, n) => PokeType(st, t, n);
    case Change(c) =>
    case Wait(t, x) => WaitFrame(st, t, x);
  }

  lemma {:induction false} RunFlows(st: State, steps: seq<Step>, end: State, s: Sid)
    requires Run(st, steps, end) && Sound(st)
    ensures Buffered(end, s) + Taken(steps, s) == Buffered(st, s) + Given(st, steps, end, s) && Sound(end)
    decreases |steps|
  {
    hide TypeOk, Enabled, Apply, Gives, Takes, Buffered, Sound;
    if steps != [] {
      StepFlows(st, steps[0], s);
      StepSound(st, steps[0]);
      RunFlows(Apply(st, steps[0]), steps[1..], end, s);
    }
  }

  /** On every run, what was given to a channel is what was taken from it and what it still holds. */
  lemma ValuesConserved(st: State, steps: seq<Step>, end: State, s: Sid)
    requires Initial(st) && Run(st, steps, end)
    ensures Given(st, steps, end, s) == Taken(steps, s) + Buffered(end, s)
    ensures IsChannel(end, s) ==> end.src[s].buffered <= end.src[s].capacity
  {
    hide Run, TypeOk;
    assert Sound(st) && Buffered(st, s) == 0;
    RunFlows(st, steps, end, s);
  }

  // ----- every send is accounted for -----

  /** The thread has counted a send on s and not handed its value over yet. */
  predicate Carries(p: Pc, s: Sid) {
    match p
    case Counted(y) => y == s
    case Poking(y, _, g) => y == s && g.First?
    case AtSelect(y) => y == s
    case Parked(y) => y == s
    case _ => false
  }

  ghost function Carriers(st: State, s: Sid): set<Tid> { set t | t in st.pc && Carries(st.pc[t], s) }

  ghost predicate Counts(st: State, a: Step, s: Sid)
    requires TypeOk(st) && Enabled(st, a)
  {
    a.Send? && a.e.Count? && st.pc[a.t].s == s
  }

  /** The value went into the channel or to a receiver, or the send was given up. */
  ghost predicate Settles(st: State, a: Step, s: Sid)
    requires TypeOk(st) && Enabled(st, a)
  {
    Gives(st, a, s) || (a.Send? && (a.e.Handoff? || a.e.Abort?) && st.pc[a.t].s == s)
  }

  lemma CarriersMove(st: State, st': State, t: Tid, s: Sid)
    requires Moves(st, st', t)
    ensures |Carriers(st', s)| == |Carriers(st, s)| + (if Carries(st'.pc[t], s) then 1 else 0) - (if Carries(st.pc[t], s) then 1 else 0)
  {
    hide Carries;
    var rest := Carriers(st, s) - {t};
    assert Carriers(st', s) == if Carries(st'.pc[t], s) then rest + {t} else rest;
    assert Carriers(st, s) == if Carries(st.pc[t], s) then rest + {t} else rest;
  }

  /** One step, and what it changes for the senders of s. */
  ghost predicate Balances(st: State, a: Step, s: Sid)
    requires TypeOk(st) && Enabled(st, a)
  {
    |Carriers(Apply(st, a), s)| + (if Settles(st, a, s) then 1 else 0) == |Carriers(st, s)| + if Counts(st, a, s) then 1 else 0
  }

  lemma SendBalances(st: State, t: Tid, e: SendStep, s: Sid)
    requires TypeOk(st) && CanSend(st, t, e)
    ensures Balances(st, Send(t, e), s)
  {
    SendType(st, t, e);
    CarriersMove(st, DoSend(st, t, e), t, s);
    hide TypeOk, Carriers, Moves;
  }

  lemma PokeBalances(st: State, t: Tid, n: PokeStep, s: Sid)
    requires TypeOk(st) && CanPoke(st, t, n)
    ensures Balances(st, Poke(t, n), s)
  {
    PokeType(st, t, n);
    CarriersMove(st, DoPoke(st, t, n), t, s);
    hide TypeOk, Carriers, Moves;
  }

  lemma ChangeBalances(st: State, c: SourceStep, s: Sid)
    requires TypeOk(st) && CanChange(st, c)
    ensures Balances(st, Change(c), s)
  {
    ChangeType(st, c);
    if c.TakeBuffered? {
      assert Carriers(DoChange(st, c), s) == Carriers(st, s);
    } else {
      CarriersMove(st, DoChange(st, c), Mover(c), s);
    }
    hide TypeOk, Carriers, Moves;
  }

  lemma WaitBalances(st: State, t: Tid, x: WaitStep, s: Sid)
    requires TypeOk(st) && CanWait(st, t, x)
    ensures Balances(st, Wait(t, x), s)
  {
    WaitFrame(st, t, x);
    CarriersMove(st, DoWait(st, t, x), t, s);
    NoCarrier(st, t, x, s);
    hide TypeOk, Carriers, Moves, DoWait, CanWait, Carries;
  }

  lemma NoCarrier(st: State, t: Tid, x: WaitStep, s: Sid)
    requires TypeOk(st) && CanWait(st, t, x)
    ensures !Carries(st.pc[t], s) && !Carries(DoWait(st, t, x).pc[t], s)
  {
    hide TypeOk, Receivable, Known, Set, Fresh, IsChannel;
  }

  lemma StepSettles(st: State, a: Step, s: Sid)
    requires TypeOk(st) && Enabled(st, a)
    ensures Balances(st, a, s)
  {
    hide TypeOk, Balances;
    match a
    case Send(t, e) => SendBalances(st, t, e, s);
    case Poke(t, n) => PokeBalances(st, t, n, s);
    case Change(c) => ChangeBalances(st, c, s);
    case Wait(t, x) => WaitBalances(st, t, x, s);
  }

  ghost function Begun(st: State, steps: seq<Step>, end: State, s: Sid): nat
    requires Run(st, steps, end)
    decreases |steps|
  {
    if steps == [] then 0 else (if Counts(st, steps[0], s) then 1 else 0) + Begun(Apply(st, steps[0]), steps[1..], end, s)
  }

  ghost function Settled(st: State, steps: seq<Step>, end: State, s: Sid): nat
    requires Run(st, steps, end)
    decreases |steps|
  {
    if steps == [] then 0 else (if Settles(st, steps[0], s) then 1 else 0) + Settled(Apply(st, steps[0]), steps[1..], end, s)
  }

  lemma {:induction false} RunSettles(st: State, steps: seq<Step>, end: State, s: Sid)
    requires Run(st, steps, end)
    ensures |Carriers(end, s)| + Settled(st, steps, end, s) == |Carriers(st, s)| + Begun(st, steps, end, s)
    decreases |steps|
  {
    hide TypeOk, Enabled, Apply, Settles, Counts, Carriers;
    if steps != [] {
      StepSettles(st, steps[0], s);
      RunSettles(Apply(st, steps[0]), steps[1..], end, s);
    }
  }

  /** On every run, each send that began on s has handed its value over, was given up, or is still under way. */
  lemma SendsAccountedFor(st: State, steps: seq<Step>, end: State, s: Sid)
    requires Initial(st) && Run(st, steps, end)
    ensures Begun(st, steps, end, s) == Settled(st, steps, end, s) + |Carriers(end, s)|
  {
    hide Run, TypeOk;
    assert Carriers(st, s) == {};
    RunSettles(st, steps, end, s);
  }

  /** A receive that would succeed is a step someone can take. */
  lemma ReceivableIsTaken(st: State, s: Sid)
    requires TypeOk(st)
    ensures Receivable(st, s) <==> exists c: SourceStep :: CanChange(st, c) && Takes(Change(c), s)
  {
    hide TypeOk;
    if Receivable(st, s) {
      if st.src[s].buffered > 0 {
        assert CanChange(st, TakeBuffered(s)) && Takes(Change(TakeBuffered(s)), s);
      } else {
        var t :| t in st.pc && st.pc[t] == Parked(s);
        assert CanChange(st, TakeParked(s, t)) && Takes(Change(TakeParked(s, t)), s);
      }
    }
  }

  // ----- nobody is stuck -----

  /** t has a step of its own that is neither giving up nor aborting. */
  ghost predicate GoesOn(st: State, t: Tid)
    requires TypeOk(st)
  {
    || (exists e: SendStep :: !e.Abort? && CanSend(st, t, e)) || (exists n: PokeStep :: CanPoke(st, t, n))
    || exists x: WaitStep :: !x.GiveUp? && CanWait(st, t, x)
  }

  /** The wait-set lock that t needs next. */
  predicate Needs(p: Pc, s: Sid) {
    match p
    case Counted(y) => y == s
    case Sent(y) => y == s
    case Shut(y) => y == s
    case Finished(y) => y == s
    case Registering(mine, k) => k < |mine| && mine[k] == s
    case Unregistering(mine, k) => k < |mine| && mine[k] == s
    case _ => false
  }

  /** t needs a lock whose holder can go on. */
  ghost predicate Waits(st: State, t: Tid)
    requires TypeOk(st)
  {
    t in st.pc && exists s, u :: Needs(st.pc[t], s) && s in st.locked && u in st.pc && st.pc[u].Poking? && st.pc[u].s == s && GoesOn(st, u)
  }

  /** Idle, parked until someone receives, or asleep without a poke. */
  predicate Resting(st: State, t: Tid)
    requires t in st.pc
  {
    st.pc[t].Idle? || st.pc[t].Parked? || (st.pc[t].Sleeping? && t !in st.poked)
  }

  /** A scan with nothing left to watch: every source was found closed. */
  predicate AllClosed(p: Pc) { p.Scanning? && p.w.todo == {} && p.w.live == {} }

  lemma HolderGoesOn(st: State, t: Tid, s: Sid)
    requires TypeOk(st) && LocksOk(st) && t in st.pc && Needs(st.pc[t], s) && s in st.locked
    ensures Waits(st, t)
  {
    var u :| u in st.pc && st.pc[u].Poking? && st.pc[u].s == s;
    hide TypeOk, LocksOk;
    PokerGoesOn(st, u);
  }

  lemma PokerGoesOn(st: State, u: Tid)
    requires TypeOk(st) && u in st.pc && st.pc[u].Poking?
    ensures GoesOn(st, u)
  {
    hide TypeOk;
    if st.pc[u].todo == [] { assert CanPoke(st, u, End); } else { assert CanPoke(st, u, PokeOne); }
  }

  lemma SenderGoesOn(st: State, t: Tid)
    requires TypeOk(st) && LocksOk(st) && t in st.pc
    requires st.pc[t].Passed? || st.pc[t].AtSelect? || st.pc[t].Leaving? || st.pc[t].Counted? || st.pc[t].Sent? || st.pc[t].Shut? || st.pc[t].Finished?
    ensures GoesOn(st, t) || Waits(st, t)
  {
    assert PcOk(st, st.pc[t]);
    var p := st.pc[t];
    if p.Passed? {
      assert CanSend(st, t, Count);
    } else if p.AtSelect? {
      assert CanSend(st, t, Buffer) || CanSend(st, t, Park);
    } else if p.Leaving? {
      assert CanSend(st, t, Leave);
    } else if p.s in st.locked {
      HolderGoesOn(st, t, p.s);
    } else {
      assert CanPoke(st, t, Start(Listed(st.waiters[p.s])));
    }
  }

  lemma WaiterGoesOn(st: State, t: Tid)
    requires TypeOk(st) && LocksOk(st) && t in st.pc
    requires var p := st.pc[t]; p.Registering? || p.Unregistering? || p.Scanning? || p.TryClosed? || p.TryPending? || p.TryAgain? || p.Sleeping?
    ensures Resting(st, t) || GoesOn(st, t) || Waits(st, t) || AtHit(st, t) || AllClosed(st.pc[t])
  {
    assert PcOk(st, st.pc[t]);
    match st.pc[t]
    case Registering(mine, k) =>
      if k == |mine| { assert CanWait(st, t, ScanStart); }
      else if mine[k] in st.locked { HolderGoesOn(st, t, mine[k]); }
      else { assert CanWait(st, t, Register); }
    case Unregistering(mine, k) =>
      if k < |mine| && mine[k] in st.locked { HolderGoesOn(st, t, mine[k]); } else { assert CanWait(st, t, Unregister); }
    case Scanning(mine, w) => ScannerGoesOn(st, t);
    case TryClosed(mine, w, s) => assert CanWait(st, t, ReadClosed);
    case TryPending(mine, w, s) => assert CanWait(st, t, ReadPending);
    case TryAgain(mine, w, s) => if !Receivable(st, s) { assert CanWait(st, t, DropClosed); }
    case Sleeping(mine, live) => if t in st.poked { assert CanWait(st, t, Wake); }
  }

  lemma ScannerGoesOn(st: State, t: Tid)
    requires TypeOk(st) && t in st.pc && st.pc[t].Scanning?
    ensures GoesOn(st, t) || AtHit(st, t) || AllClosed(st.pc[t])
  {
    assert PcOk(st, st.pc[t]);
    hide TypeOk, Receivable;
    var w := st.pc[t].w;
    if w.todo != {} {
      var y :| y in w.todo;
      if !Answers(st, y) { assert CanWait(st, t, if st.src[y].Channel? then PollMiss(y) else PollTask(y)); }
    } else if w.live != {} {
      assert CanWait(st, t, if w.pend then Rescan else FallAsleep);
    }
  }

  /**
   In every reachable state each thread rests, can go on by itself, waits for a lock whose holder can
   go on, or is about to return from its wait: with a hit, or because everything it watched is closed.
   */
  lemma NobodyIsStuck(st: State, steps: seq<Step>, end: State, t: Tid)
    requires Initial(st) && Run(st, steps, end) && t in end.pc
    ensures TypeOk(end) && (Resting(end, t) || GoesOn(end, t) || Waits(end, t) || AtHit(end, t) || AllClosed(end.pc[t]))
  {
    assert Inv(end) by { hide Run; InitialInv(st); RunInv(st, steps, end); }
    assert LocksOk(end) by { hide Run; InitialInv(st); RunLocks(st, steps, end); }
    assert TypeOk(end);
    hide Run, Initial, Inv, TypeOk, LocksOk, GoesOn, Waits, AtHit;
    match end.pc[t]
    case Idle =>
    case Parked(_) =>
    case Poking(_, _, _) => PokerGoesOn(end, t);
    case Registering(_, _) => WaiterGoesOn(end, t);
    case Unregistering(_, _) => WaiterGoesOn(end, t);
    case Scanning(_, _) => WaiterGoesOn(end, t);
    case TryClosed(_, _, _) => WaiterGoesOn(end, t);
    case TryPending(_, _, _) => WaiterGoesOn(end, t);
    case TryAgain(_, _, _) => WaiterGoesOn(end, t);
    case Sleeping(_, _) => WaiterGoesOn(end, t);
    case _ => SenderGoesOn(end, t);
  }
}
