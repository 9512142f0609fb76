/**
 What a poke is for. A sleeper moves only by consuming its poke or by giving up; and once the
 notifies of a source that has something for it are through, its own steps lead to a poll that
 does not miss.
 */
module WaiterProgress {
  import opened WakeUp
  import opened PokeDelivery

  // ----- what moves a sleeper -----

  lemma SleeperStays(st: State, a: Step, w: Tid)
    requires TypeOk(st) && Enabled(st, a) && w in st.pc && st.pc[w].Sleeping?
    ensures a == Wait(w, GiveUp) || (a == Wait(w, Wake) && w in st.poked) || (w in Apply(st, a).pc && Apply(st, a).pc[w] == st.pc[w])
  {
    hide TypeOk;
    match a
    case Send(t, e) => SendType(st, t, e);
    case Poke(t, n) => PokeType(st, t, n);
    case Change(c) => ChangeType(st, c);
    case Wait(t, x) =>
      WaitType(st, t, x);
      if t == w { SleeperSteps(st, w, x); }
  }

  lemma SleeperSteps(st: State, w: Tid, x: WaitStep)
    requires TypeOk(st) && CanWait(st, w, x) && st.pc[w].Sleeping?
    ensures x.GiveUp? || (x.Wake? && w in st.poked)
  {
    hide TypeOk;
  }

  /** The waker's poke is consumed, and every live source is to be polled afresh. */
  ghost predicate Woken(st: State, w: Tid, st': State)
    requires w in st.pc && st.pc[w].Sleeping?
  {
    st' == st.(poked := st.poked - {w}, pc := st.pc[w := Scanning(st.pc[w].mine, Sweep(st.pc[w].live, st.pc[w].live, {}, false))])
  }

  /**
   In every reachable state, a sleeper that holds a poke can wake on it; and the only steps of
   anyone that move a sleeper are that one and its own giving up.
   */
  lemma OnlyPokesWake(st: State, steps: seq<Step>, end: State, w: Tid)
    requires Initial(st) && Run(st, steps, end) && w in end.pc && end.pc[w].Sleeping?
    ensures TypeOk(end)
    ensures w in end.poked ==> CanWait(end, w, Wake) && Woken(end, w, DoWait(end, w, Wake))
    ensures forall a: Step :: Enabled(end, a) && (w !in Apply(end, a).pc || Apply(end, a).pc[w] != end.pc[w]) ==>
              a == Wait(w, GiveUp) || (a == Wait(w, Wake) && w in end.poked)
  {
    hide Run, Initial;
    assert Inv(end) by { InitialInv(st); RunInv(st, steps, end); }
    assert TypeOk(end);
    hide Inv, TypeOk, Enabled, Apply;
    forall a: Step | Enabled(end, a) && (w !in Apply(end, a).pc || Apply(end, a).pc[w] != end.pc[w])
      ensures a == Wait(w, GiveUp) || (a == Wait(w, Wake) && w in end.poked)
    {
      SleeperStays(end, a, w);
    }
  }

  // ----- from the poke to the poll -----

  /** A poll of s would find a value or a finished task. */
  ghost predicate Answers(st: State, s: Sid) { Receivable(st, s) || (s in st.src && st.src[s].Task? && st.src[s].done) }

  /** There is something to find: an answer, or the channel is closed. */
  ghost predicate Ready(st: State, s: Sid) { Answers(st, s) || Ended(st, s) }

  /** The waiter's next poll can be one that does not miss. */
  ghost predicate AtHit(st: State, w: Tid) {
    && w in st.pc
    && ((st.pc[w].Scanning? && exists y :: y in st.pc[w].w.todo && Answers(st, y)) || (st.pc[w].TryAgain? && Receivable(st, st.pc[w].s)))
  }

  /** The scan has s ahead of it, or has just found it closed. */
  ghost predicate Seeking(st: State, w: Tid, s: Sid) {
    && w in st.pc
    && match st.pc[w]
       case Scanning(_, sw) => s in sw.todo
       case TryClosed(_, sw, y) => if y == s then Closed(st, s) else s in sw.todo
       case TryPending(_, sw, y) => y != s && s in sw.todo
       case TryAgain(_, sw, y) => if y == s then Closed(st, s) else s in sw.todo
       case _ => false
  }

  predicate Closed(st: State, s: Sid) { IsChannel(st, s) && st.src[s].closed }

  /** What the scan still has to do. */
  function Rank(p: Pc): nat {
    match p
    case Scanning(_, sw) => 4 * (|sw.live| * |sw.live| + |sw.todo|)
    case TryClosed(_, sw, _) => 4 * (|sw.live| * |sw.live| + |sw.todo|) + 3
    case TryPending(_, sw, _) => 4 * (|sw.live| * |sw.live| + |sw.todo|) + 2
    case TryAgain(_, sw, _) => 4 * (|sw.live| * |sw.live| + |sw.todo|) + 2
    case _ => 0
  }

  /** This step drops s as closed and drained. */
  ghost predicate FindsClosed(st: State, w: Tid, x: WaitStep, s: Sid) {
    w in st.pc && st.pc[w].TryAgain? && st.pc[w].s == s && x.DropClosed?
  }

  lemma Squares(n: nat, k: nat)
    requires n > 0
    ensures (n - 1) * (n - 1) + (n - 1) < n * n + k
  {
    assert (n - 1) * (n - 1) + (n - 1) == n * n - n;
  }

  lemma SourcesKept(st: State, w: Tid, x: WaitStep)
    requires TypeOk(st) && CanWait(st, w, x)
    ensures TypeOk(DoWait(st, w, x)) && DoWait(st, w, x).src == st.src && w in DoWait(st, w, x).pc
    ensures forall s: Sid :: (Receivable(DoWait(st, w, x), s) <==> Receivable(st, s)) && (Ready(DoWait(st, w, x), s) <==> Ready(st, s))
  {
    WaitType(st, w, x);
    NeverParked(st, w, x);
    hide TypeOk, CanWait, DoWait, Receivable;
    forall s: Sid ensures Receivable(DoWait(st, w, x), s) <==> Receivable(st, s) { ReceivableKept(st, DoWait(st, w, x), w, s); }
  }

  lemma ReceivableKept(st: State, st': State, w: Tid, s: Sid)
    requires Moves(st, st', w) && st'.src == st.src && !st.pc[w].Parked? && !st'.pc[w].Parked?
    ensures Receivable(st', s) <==> Receivable(st, s)
  {
    assert forall t :: t in st.pc && st.pc[t] == Parked(s) ==> t in st'.pc && st'.pc[t] == Parked(s);
    assert forall t :: t in st'.pc && st'.pc[t] == Parked(s) ==> t in st.pc && st.pc[t] == Parked(s);
  }

  lemma NeverParked(st: State, w: Tid, x: WaitStep)
    requires TypeOk(st) && CanWait(st, w, x)
    ensures !st.pc[w].Parked? && !DoWait(st, w, x).pc[w].Parked?
  {
    hide TypeOk;
  }

  lemma PollStep(st: State, w: Tid, x: WaitStep, s: Sid)
    requires TypeOk(st) && Seeking(st, w, s) && Ready(st, s) && CanWait(st, w, x) && !x.GiveUp? && st.pc[w].Scanning?
    ensures Seeking(DoWait(st, w, x), w, s) && Rank(DoWait(st, w, x).pc[w]) < Rank(st.pc[w])
  {
    assert PcOk(st, st.pc[w]);
    hide TypeOk, Receivable;
    var sw := st.pc[w].w;
    assert x.PollMiss? || x.PollTask?;
    assert |sw.todo - {x.s}| == |sw.todo| - 1;
    assert x.s == s ==> x.PollMiss? && Closed(st, s);
  }

  lemma ReadStep(st: State, w: Tid, x: WaitStep, s: Sid)
    requires TypeOk(st) && Seeking(st, w, s) && CanWait(st, w, x) && !x.GiveUp? && (st.pc[w].TryClosed? || st.pc[w].TryPending?)
    ensures Seeking(DoWait(st, w, x), w, s) && Rank(DoWait(st, w, x).pc[w]) < Rank(st.pc[w])
  {
    assert PcOk(st, st.pc[w]);
    hide TypeOk, Receivable;
  }

  lemma DropStep(st: State, w: Tid, x: WaitStep, s: Sid)
    requires TypeOk(st) && Seeking(st, w, s) && CanWait(st, w, x) && !x.GiveUp? && st.pc[w].TryAgain? && st.pc[w].s != s
    ensures Seeking(DoWait(st, w, x), w, s) && Rank(DoWait(st, w, x).pc[w]) < Rank(st.pc[w])
  {
    assert PcOk(st, st.pc[w]);
    hide TypeOk, Receivable;
    var sw, y := st.pc[w].w, st.pc[w].s;
    assert y in sw.live && s in sw.live;
    assert |sw.live - {y}| == |sw.live| - 1;
    Squares(|sw.live|, |sw.todo|);
  }

  /** One step of a scan that has s ahead: s is found closed, or stays ahead with less to do. */
  lemma ScanStep(st: State, w: Tid, x: WaitStep, s: Sid)
    requires TypeOk(st) && Seeking(st, w, s) && Ready(st, s) && CanWait(st, w, x) && !x.GiveUp?
    ensures FindsClosed(st, w, x, s) || (Seeking(DoWait(st, w, x), w, s) && Rank(DoWait(st, w, x).pc[w]) < Rank(st.pc[w]))
  {
    hide TypeOk, Receivable, Ready, DoWait, Rank;
    match st.pc[w]
    case Scanning(_, _) => PollStep(st, w, x, s);
    case TryClosed(_, _, _) => ReadStep(st, w, x, s);
    case TryPending(_, _, _) => ReadStep(st, w, x, s);
    case TryAgain(_, _, y) => if y != s { DropStep(st, w, x, s); }
  }

  /** It can always go on, or its next poll does not miss. */
  lemma ScanGoesOn(st: State, w: Tid, s: Sid)
    requires TypeOk(st) && Seeking(st, w, s) && Ready(st, s)
    ensures AtHit(st, w) || exists x: WaitStep :: !x.GiveUp? && CanWait(st, w, x)
  {
    assert PcOk(st, st.pc[w]);
    hide TypeOk, Receivable;
    match st.pc[w]
    case Scanning(mine, sw) => if !Answers(st, s) { assert CanWait(st, w, PollMiss(s)); }
    case TryClosed(mine, sw, y) => assert CanWait(st, w, ReadClosed);
    case TryPending(mine, sw, y) => assert CanWait(st, w, ReadPending);
    case TryAgain(mine, sw, y) => if !Receivable(st, y) { assert CanWait(st, w, DropClosed); }
  }

  /** A run of the waiter's own steps, without giving up. */
  ghost predicate OwnRun(st: State, w: Tid, own: seq<WaitStep>, end: State)
    decreases |own|
  {
    if own == [] then st == end
    else TypeOk(st) && CanWait(st, w, own[0]) && !own[0].GiveUp? && OwnRun(DoWait(st, w, own[0]), w, own[1..], end)
  }

  /** Somewhere in the run s was found closed. */
  ghost predicate FoundClosed(st: State, w: Tid, own: seq<WaitStep>, s: Sid)
    decreases |own|
  {
    own != [] && TypeOk(st) && CanWait(st, w, own[0]) && (FindsClosed(st, w, own[0], s) || FoundClosed(DoWait(st, w, own[0]), w, own[1..], s))
  }

  lemma {:induction false} ScanFinds(st: State, w: Tid, own: seq<WaitStep>, end: State, s: Sid)
    requires TypeOk(st) && Seeking(st, w, s) && Ready(st, s) && OwnRun(st, w, own, end)
    ensures FoundClosed(st, w, own, s) ||
            (|own| <= Rank(st.pc[w]) && TypeOk(end) && (AtHit(end, w) || exists x: WaitStep :: !x.GiveUp? && CanWait(end, w, x)))
    decreases |own|
  {
    hide TypeOk, Seeking, Ready, CanWait, DoWait, Rank, AtHit, FindsClosed;
    if own == [] {
      ScanGoesOn(st, w, s);
    } else {
      ScanStep(st, w, own[0], s);
      SourcesKept(st, w, own[0]);
      if !FindsClosed(st, w, own[0], s) { ScanFinds(DoWait(st, w, own[0]), w, own[1..], end, s); }
    }
  }

  /** No notify of s can take a step. */
  ghost predicate Through(st: State, s: Sid)
    requires TypeOk(st)
  {
    forall t, n :: CanPoke(st, t, n) ==> !Notifier(st.pc[t], s)
  }

  lemma {:induction false} NotifyKeeps(st: State, notifies: seq<(Tid, PokeStep)>, s: Sid, end: State, w: Tid)
    requires TypeOk(st) && NotifyRun(st, notifies, s, end) && w in st.pc && st.pc[w].Sleeping?
    ensures TypeOk(end) && end.src == st.src && w in end.pc && end.pc[w] == st.pc[w]
    ensures forall y: Sid :: Ready(st, y) ==> Ready(end, y)
    decreases |notifies|
  {
    hide TypeOk, CanPoke, DoPoke, Notifier, Ready;
    if notifies != [] {
      var t, n := notifies[0].0, notifies[0].1;
      PokeType(st, t, n);
      PokersAwake(st, t, n);
      forall y: Sid | Ready(st, y) ensures Ready(DoPoke(st, t, n), y) { PokeKeepsReady(st, t, n, y); }
      NotifyKeeps(DoPoke(st, t, n), notifies[1..], s, end, w);
    }
  }

  lemma PokersAwake(st: State, t: Tid, n: PokeStep)
    requires TypeOk(st) && CanPoke(st, t, n)
    ensures !st.pc[t].Sleeping? && !st.pc[t].Parked?
  {
    hide TypeOk;
  }

  lemma PokeKeepsReady(st: State, t: Tid, n: PokeStep, y: Sid)
    requires TypeOk(st) && CanPoke(st, t, n) && Ready(st, y)
    ensures Ready(DoPoke(st, t, n), y)
  {
    PokeType(st, t, n);
    PokersAwake(st, t, n);
    hide TypeOk, CanPoke, DoPoke;
    if Receivable(st, y) && st.src[y].buffered == 0 {
      var u :| u in st.pc && st.pc[u] == Parked(y);
      assert DoPoke(st, t, n).pc[u] == Parked(y);
    }
  }

  /** Asleep with something to find: the poke is there, or due. */
  lemma PokedOrDue(st: State, steps: seq<Step>, mid: State, w: Tid, s: Sid)
    requires Initial(st) && Run(st, steps, mid) && w in mid.pc && mid.pc[w].Sleeping? && s in mid.pc[w].live && Ready(mid, s)
    ensures w in mid.poked || Due(mid, s, w)
  {
    hide Run, Initial, Due;
    if w !in mid.poked { NoLostWakeUp(st, steps, mid, w, s); }
  }

  /**
   Main result. Take any reachable state in which a waiter sleeps on a source that holds a value, has
   a sender parked, is closed or is finished. Once the notifies of that source are through, the waiter
   holds a poke. Then, whatever order it polls in, its own steps find the source closed and drained,
   or within the stated number they bring it to a poll that does not miss; nothing stops it before.
   */
  lemma SleeperFinds(st: State, steps: seq<Step>, mid: State, w: Tid, s: Sid, notifies: seq<(Tid, PokeStep)>, end: State,
                     own: seq<WaitStep>, last: State)
    requires Initial(st) && Run(st, steps, mid) && w in mid.pc && mid.pc[w].Sleeping? && s in mid.pc[w].live && Ready(mid, s)
    requires NotifyRun(mid, notifies, s, end) && TypeOk(end) && Through(end, s) && OwnRun(end, w, own, last)
    ensures w in end.poked && CanWait(end, w, Wake) && end.src == mid.src && Ready(end, s)
    ensures FoundClosed(end, w, own, s) ||
            (|own| <= 1 + 4 * (|mid.pc[w].live| * |mid.pc[w].live| + |mid.pc[w].live|)
             && TypeOk(last) && (AtHit(last, w) || exists x: WaitStep :: !x.GiveUp? && CanWait(last, w, x)))
  {
    PokeIsThere(st, steps, mid, w, s, notifies, end);
    hide *;
    WokenFinds(end, w, s, own, last);
  }

  lemma WokenFinds(end: State, w: Tid, s: Sid, own: seq<WaitStep>, last: State)
    requires TypeOk(end) && w in end.pc && end.pc[w].Sleeping? && w in end.poked && s in end.pc[w].live && Ready(end, s)
    requires OwnRun(end, w, own, last)
    ensures CanWait(end, w, Wake)
    ensures FoundClosed(end, w, own, s) ||
            (|own| <= 1 + 4 * (|end.pc[w].live| * |end.pc[w].live| + |end.pc[w].live|)
             && TypeOk(last) && (AtHit(last, w) || exists x: WaitStep :: !x.GiveUp? && CanWait(last, w, x)))
  {
    hide Ready, AtHit, TypeOk, DoWait, Rank, Seeking, CanWait;
    WakeSeeks(end, w, s);
    if own != [] {
      SleeperSteps(end, w, own[0]);
      SourcesKept(end, w, own[0]);
      ScanFinds(DoWait(end, w, Wake), w, own[1..], last, s);
    }
  }

  lemma WakeSeeks(st: State, w: Tid, s: Sid)
    requires TypeOk(st) && w in st.pc && st.pc[w].Sleeping? && w in st.poked && s in st.pc[w].live
    ensures CanWait(st, w, Wake) && Seeking(DoWait(st, w, Wake), w, s)
    ensures Rank(DoWait(st, w, Wake).pc[w]) == 4 * (|st.pc[w].live| * |st.pc[w].live| + |st.pc[w].live|)
  {
    hide TypeOk;
  }

  lemma PokeIsThere(st: State, steps: seq<Step>, mid: State, w: Tid, s: Sid, notifies: seq<(Tid, PokeStep)>, end: State)
    requires Initial(st) && Run(st, steps, mid) && w in mid.pc && mid.pc[w].Sleeping? && s in mid.pc[w].live && Ready(mid, s)
    requires NotifyRun(mid, notifies, s, end) && TypeOk(end) && Through(end, s)
    ensures w in end.poked && w in end.pc && end.pc[w] == mid.pc[w] && end.src == mid.src && Ready(end, s)
  {
    PokedOrDue(st, steps, mid, w, s);
    assert Inv(mid) by { InitialInv(st); RunInv(st, steps, mid); }
    assert LocksOk(mid) by { InitialInv(st); RunLocks(st, steps, mid); }
    assert TypeOk(mid) && Registered(mid, w) && PcOk(mid, mid.pc[w]);
    hide Run, Initial, NotifyRun, Ready, Inv, LocksOk;
    var k :| 0 <= k < |mid.pc[w].mine| && mid.pc[w].mine[k] == s;
    assert s in Enrolled(mid.pc[w]);
    hide TypeOk;
    NotifyKeeps(mid, notifies, s, end, w);
    NotifyRunDelivers(mid, notifies, s, end, w);
  }
}
