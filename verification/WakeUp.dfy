/**
 The register / poll / sleep protocol behind `task.waitAny` and `channel.select`,
 as interleaved steps of any number of senders, receivers, closers, finishing
 tasks and waiters. A sleeping waiter never misses a change: whenever a source it
 sleeps on has something for it, a poke is pending or still on its way.
 */
module WakeUp {
  type Sid = nat
  type Tid = nat

  datatype Source =
    | Channel(capacity: nat, buffered: nat, closed: bool, pending: nat)
    | Task(done: bool)

  /** Which change a notify announces. */
  datatype Stage = First | Second | Close | Finish

  /** A waiter's scan: what is still watched, still to poll, already found empty, and whether a send was in flight. */
  datatype Sweep = Sweep(live: set<Sid>, todo: set<Sid>, checked: set<Sid>, pend: bool)

  datatype Pc =
    | Idle
    | Passed(s: Sid)                              // Send: saw the channel open
    | Counted(s: Sid)                             // Send: pending incremented
    | Poking(s: Sid, todo: seq<Tid>, stage: Stage) // inside notify, lock held
    | AtSelect(s: Sid)                            // Send: first notify over, not parked yet
    | Parked(s: Sid)                              // Send: parked on the channel
    | Sent(s: Sid)                                // Send: value handed over, second notify to come
    | Leaving(s: Sid)                             // Send: deferred decrement to come
    | Shut(s: Sid)                                // CloseOnce: flag set, notify to come
    | Finished(s: Sid)                            // finish: Done closed, notify to come
    | Registering(mine: seq<Sid>, k: nat)
    | Scanning(mine: seq<Sid>, w: Sweep)
    | TryClosed(mine: seq<Sid>, w: Sweep, s: Sid)  // TryRecv: nothing received, closed flag not read yet
    | TryPending(mine: seq<Sid>, w: Sweep, s: Sid) // TryRecv said not ready, pending not read yet
    | TryAgain(mine: seq<Sid>, w: Sweep, s: Sid)   // TryRecv: closed, second receive to come
    | Sleeping(mine: seq<Sid>, live: set<Sid>)
    | Unregistering(mine: seq<Sid>, k: nat)

  datatype State = State(
    src: map<Sid, Source>,
    waiters: map<Sid, multiset<Tid>>,
    locked: set<Sid>,                             // wait-set locks held by a notify
    pc: map<Tid, Pc>,
    poked: set<Tid>)                              // wakers holding their one buffered poke

  datatype SendStep =
    | Check(s: Sid) | Count | Buffer | Handoff | Park | Abort | Leave

  datatype PokeStep = Start(todo: seq<Tid>) | PokeOne | End

  /** Closers, finishing tasks, and receivers taking a value (from the buffer, refilling it, or straight from a sender). */
  datatype SourceStep =
    | CloseFlag(t: Tid, s: Sid) | TaskFinish(t: Tid, s: Sid)
    | TakeBuffered(s: Sid) | TakeRefill(s: Sid, from: Tid) | TakeParked(s: Sid, from: Tid)

  datatype WaitStep =
    | Begin(mine: seq<Sid>) | Register | ScanStart | PollMiss(s: Sid) | PollTask(s: Sid) | ReadClosed | ReadPending | DropClosed
    | Rescan | FallAsleep | Wake | GiveUp | Unregister

  datatype Step = Send(t: Tid, e: SendStep) | Poke(t: Tid, n: PokeStep) | Change(c: SourceStep) | Wait(t: Tid, x: WaitStep)

  /** Every watched source is still to poll, already polled, or being polled. */
  predicate SweepOk(w: Sweep, mine: seq<Sid>, now: set<Sid>) {
    w.live == w.todo + w.checked + now && forall s :: s in w.live ==> s in mine
  }

  function Set(mine: seq<Sid>): set<Sid> { set k | 0 <= k < |mine| :: mine[k] }

  /** A send is being counted on s. */
  predicate InFlight(p: Pc, s: Sid) {
    match p
    case Counted(x) => x == s
    case Poking(x, _, g) => x == s && (g.First? || g.Second?)
    case AtSelect(x) => x == s
    case Parked(x) => x == s
    case Sent(x) => x == s
    case Leaving(x) => x == s
    case _ => false
  }

  /** A non-blocking receive on the channel would succeed. */
  ghost predicate Receivable(st: State, s: Sid) {
    s in st.src && st.src[s].Channel? && (st.src[s].buffered > 0 || exists t :: t in st.pc && st.pc[t] == Parked(s))
  }

  predicate IsChannel(st: State, s: Sid) { s in st.src && st.src[s].Channel? }

  predicate PcOk(st: State, p: Pc) {
    match p
    case Idle => true
    case Passed(s) => IsChannel(st, s)
    case Counted(s) => IsChannel(st, s)
    case Poking(s, _, g) => s in st.src && (g.First? || g.Second? || g.Close? ==> st.src[s].Channel?)
    case AtSelect(s) => IsChannel(st, s)
    case Parked(s) => IsChannel(st, s)
    case Sent(s) => IsChannel(st, s)
    case Leaving(s) => IsChannel(st, s)
    case Shut(s) => IsChannel(st, s)
    case Finished(s) => s in st.src && st.src[s].Task?
    case Registering(mine, k) => k <= |mine| && Known(st, mine)
    case Scanning(mine, w) => Known(st, mine) && SweepOk(w, mine, {})
    case TryClosed(mine, w, s) => Known(st, mine) && SweepOk(w, mine, {s}) && IsChannel(st, s)
    case TryPending(mine, w, s) => Known(st, mine) && SweepOk(w, mine, {s}) && IsChannel(st, s)
    case TryAgain(mine, w, s) => Known(st, mine) && SweepOk(w, mine, {s}) && IsChannel(st, s)
    case Sleeping(mine, live) => Known(st, mine) && forall s :: s in live ==> s in mine
    case Unregistering(mine, k) => k <= |mine| && Known(st, mine)
  }

  predicate Known(st: State, mine: seq<Sid>) { forall s :: s in mine ==> s in st.src }

  ghost predicate TypeOk(st: State) {
    st.waiters.Keys == st.src.Keys && forall t :: t in st.pc ==> PcOk(st, st.pc[t])
  }

  ghost predicate CanSend(st: State, t: Tid, e: SendStep)
    requires TypeOk(st)
  {
    t in st.pc &&
    match e
    case Check(s) => st.pc[t].Idle? && IsChannel(st, s) && !st.src[s].closed
    case Count => st.pc[t].Passed?
    case Buffer => st.pc[t].AtSelect? && st.src[st.pc[t].s].buffered < st.src[st.pc[t].s].capacity
    case Handoff => st.pc[t].AtSelect?                       // to a receiver already blocked in Recv
    case Park => st.pc[t].AtSelect? && st.src[st.pc[t].s].buffered >= st.src[st.pc[t].s].capacity
    case Abort => st.pc[t].AtSelect? || st.pc[t].Parked?     // the channel was closed, or the sender cancelled
    case Leave => st.pc[t].Leaving?
  }

  ghost predicate CanPoke(st: State, t: Tid, n: PokeStep)
    requires TypeOk(st)
  {
    t in st.pc &&
    match n
    case Start(todo) =>
      && (st.pc[t].Counted? || st.pc[t].Sent? || st.pc[t].Shut? || st.pc[t].Finished?)
      && st.pc[t].s !in st.locked && multiset(todo) == st.waiters[st.pc[t].s]
    case PokeOne => st.pc[t].Poking? && st.pc[t].todo != []
    case End => st.pc[t].Poking? && st.pc[t].todo == []
  }

  ghost predicate CanChange(st: State, c: SourceStep) {
    match c
    case CloseFlag(t, s) => t in st.pc && st.pc[t].Idle? && IsChannel(st, s) && !st.src[s].closed
    case TaskFinish(t, s) => t in st.pc && st.pc[t].Idle? && s in st.src && st.src[s].Task? && !st.src[s].done
    case TakeBuffered(s) => IsChannel(st, s) && st.src[s].buffered > 0
    case TakeRefill(s, from) => IsChannel(st, s) && st.src[s].buffered > 0 && from in st.pc && st.pc[from] == Parked(s)
    case TakeParked(s, from) => IsChannel(st, s) && st.src[s].buffered == 0 && from in st.pc && st.pc[from] == Parked(s)
  }

  ghost predicate CanWait(st: State, t: Tid, x: WaitStep)
    requires TypeOk(st)
  {
    t in st.pc &&
    var p := st.pc[t];
    match x
    case Begin(mine) => p.Idle? && mine != [] && Known(st, mine)
    case Register => p.Registering? && p.k < |p.mine| && p.mine[p.k] !in st.locked
    case ScanStart => p.Registering? && p.k == |p.mine|
    case PollMiss(s) => p.Scanning? && s in p.w.todo && IsChannel(st, s) && !Receivable(st, s)
    case PollTask(s) => p.Scanning? && s in p.w.todo && s in st.src && st.src[s].Task? && !st.src[s].done
    case ReadClosed => p.TryClosed?
    case ReadPending => p.TryPending?
    case DropClosed => p.TryAgain? && !Receivable(st, p.s)
    case Rescan => p.Scanning? && p.w.todo == {} && p.w.live != {} && p.w.pend
    case FallAsleep => p.Scanning? && p.w.todo == {} && p.w.live != {} && !p.w.pend
    case Wake => p.Sleeping? && t in st.poked
    case GiveUp => p.Sleeping? || p.Scanning? || p.TryAgain?   // a value, a finished task, all closed, a timeout or a cancel
    case Unregister => p.Unregistering? && (p.k == |p.mine| || p.mine[p.k] !in st.locked)
  }

  function Goto(st: State, t: Tid, p: Pc): State { st.(pc := st.pc[t := p]) }

  function SetSource(st: State, s: Sid, x: Source): State { st.(src := st.src[s := x]) }

  function Fresh(live: set<Sid>): Sweep { Sweep(live, live, {}, false) }

  /** After a notify: where the thread goes on. */
  function Resume(s: Sid, g: Stage): Pc {
    match g
    case First => AtSelect(s)
    case Second => Leaving(s)
    case Close => Idle
    case Finish => Idle
  }

  function StageOf(p: Pc): Stage {
    if p.Counted? then First else if p.Sent? then Second else if p.Shut? then Close else Finish
  }

  ghost function DoSend(st: State, t: Tid, e: SendStep): State
    requires TypeOk(st) && CanSend(st, t, e)
  {
    match e
    case Check(s) => Goto(st, t, Passed(s))
    case Count =>
      var s := st.pc[t].s;
      Goto(SetSource(st, s, st.src[s].(pending := st.src[s].pending + 1)), t, Counted(s))
    case Buffer =>
      var s := st.pc[t].s;
      Goto(SetSource(st, s, st.src[s].(buffered := st.src[s].buffered + 1)), t, Sent(s))
    case Handoff => Goto(st, t, Sent(st.pc[t].s))
    case Park => Goto(st, t, Parked(st.pc[t].s))
    case Abort => Goto(st, t, Leaving(st.pc[t].s))
    case Leave =>
      var s := st.pc[t].s;
      var n := st.src[s].pending;
      Goto(SetSource(st, s, st.src[s].(pending := if n == 0 then 0 else n - 1)), t, Idle)
  }

  ghost function DoPoke(st: State, t: Tid, n: PokeStep): State
    requires TypeOk(st) && CanPoke(st, t, n)
  {
    var p := st.pc[t];
    match n
    case Start(todo) => Goto(st.(locked := st.locked + {p.s}), t, Poking(p.s, todo, StageOf(p)))
    case PokeOne => Goto(st.(poked := st.poked + {p.todo[0]}), t, Poking(p.s, p.todo[1..], p.stage))
    case End => Goto(st.(locked := st.locked - {p.s}), t, Resume(p.s, p.stage))
  }

  ghost function DoChange(st: State, c: SourceStep): State
    requires CanChange(st, c)
  {
    match c
    case CloseFlag(t, s) => Goto(SetSource(st, s, st.src[s].(closed := true)), t, Shut(s))
    case TaskFinish(t, s) => Goto(SetSource(st, s, Task(true)), t, Finished(s))
    case TakeBuffered(s) => SetSource(st, s, st.src[s].(buffered := st.src[s].buffered - 1))
    case TakeRefill(s, from) => Goto(st, from, Sent(s))
    case TakeParked(s, from) => Goto(st, from, Sent(s))
  }

  ghost function DoWait(st: State, t: Tid, x: WaitStep): State
    requires TypeOk(st) && CanWait(st, t, x)
  {
    var p := st.pc[t];
    match x
    case Begin(mine) => Goto(st.(poked := st.poked - {t}), t, Registering(mine, 0))
    case Register =>
      var s := p.mine[p.k];
      Goto(st.(waiters := st.waiters[s := st.waiters[s] + multiset{t}]), t, Registering(p.mine, p.k + 1))
    case ScanStart => Goto(st, t, Scanning(p.mine, Fresh(Set(p.mine))))
    case PollMiss(s) => Goto(st, t, TryClosed(p.mine, p.w.(todo := p.w.todo - {s}), s))
    case PollTask(s) => Goto(st, t, Scanning(p.mine, p.w.(todo := p.w.todo - {s}, checked := p.w.checked + {s})))
    case ReadClosed => Goto(st, t, if st.src[p.s].closed then TryAgain(p.mine, p.w, p.s) else TryPending(p.mine, p.w, p.s))
    case ReadPending =>
      Goto(st, t, Scanning(p.mine, p.w.(checked := p.w.checked + {p.s}, pend := p.w.pend || st.src[p.s].pending > 0)))
    case DropClosed =>
      var live := p.w.live - {p.s};
      Goto(st, t, Scanning(p.mine, Sweep(live, live, {}, p.w.pend)))
    case Rescan => Goto(st, t, Scanning(p.mine, Fresh(p.w.live)))
    case FallAsleep => Goto(st, t, Sleeping(p.mine, p.w.live))
    case Wake => Goto(st.(poked := st.poked - {t}), t, Scanning(p.mine, Fresh(p.live)))
    case GiveUp => Goto(st, t, Unregistering(p.mine, 0))
    case Unregister =>
      if p.k == |p.mine| then Goto(st, t, Idle)
      else
        var s := p.mine[p.k];
        Goto(st.(waiters := st.waiters[s := st.waiters[s] - multiset{t}]), t, Unregistering(p.mine, p.k + 1))
  }

  ghost predicate Enabled(st: State, a: Step)
    requires TypeOk(st)
  {
    match a
    case Send(t, e) => CanSend(st, t, e)
    case Poke(t, n) => CanPoke(st, t, n)
    case Change(c) => CanChange(st, c)
    case Wait(t, x) => CanWait(st, t, x)
  }

  ghost function Apply(st: State, a: Step): State
    requires TypeOk(st) && Enabled(st, a)
  {
    match a
    case Send(t, e) => DoSend(st, t, e)
    case Poke(t, n) => DoPoke(st, t, n)
    case Change(c) => DoChange(st, c)
    case Wait(t, x) => DoWait(st, t, x)
  }

  // ----- what every step keeps -----

  /** pending counts exactly the sends in flight. */
  ghost function Flights(st: State, s: Sid): set<Tid> {
    set t | t in st.pc && InFlight(st.pc[t], s)
  }

  ghost predicate PendingCounts(st: State, s: Sid) {
    IsChannel(st, s) ==> st.src[s].pending == |Flights(st, s)|
  }

  /** The sources a waiter is registered with at this point of its run. */
  function Enrolled(p: Pc): set<Sid> {
    match p
    case Registering(mine, k) => if k <= |mine| then Set(mine[..k]) else {}
    case Scanning(mine, _) => Set(mine)
    case TryClosed(mine, _, _) => Set(mine)
    case TryPending(mine, _, _) => Set(mine)
    case TryAgain(mine, _, _) => Set(mine)
    case Sleeping(mine, _) => Set(mine)
    case _ => {}
  }

  ghost predicate Registered(st: State, t: Tid) {
    t in st.pc ==> forall s :: s in Enrolled(st.pc[t]) ==> s in st.waiters && t in st.waiters[s]
  }

  /** This thread has yet to poke w about s. */
  predicate DueBy(p: Pc, s: Sid, w: Tid) {
    match p
    case Sent(x) => x == s
    case Shut(x) => x == s
    case Finished(x) => x == s
    case Poking(x, todo, _) => x == s && w in todo
    case _ => false
  }

  ghost predicate Due(st: State, s: Sid, w: Tid) { exists t :: t in st.pc && DueBy(st.pc[t], s, w) }

  /** This send has already poked w, and may still become receivable. */
  predicate Past(p: Pc, s: Sid, w: Tid) {
    match p
    case AtSelect(x) => x == s
    case Parked(x) => x == s
    case Poking(x, todo, g) => x == s && g.First? && w !in todo
    case _ => false
  }

  ghost predicate NonePast(st: State, s: Sid, w: Tid) { forall t :: t in st.pc ==> !Past(st.pc[t], s, w) }

  predicate Holds(st: State, s: Sid) { IsChannel(st, s) && st.src[s].buffered > 0 }
  predicate Ended(st: State, s: Sid) { s in st.src && (if st.src[s].Channel? then st.src[s].closed else st.src[s].done) }

  /** Sources this waiter has polled and found empty since its last poke. */
  function Watched(p: Pc): set<Sid> {
    match p
    case Scanning(_, w) => w.checked
    case TryClosed(_, w, _) => w.checked
    case TryPending(_, w, _) => w.checked
    case TryAgain(_, w, _) => w.checked
    case Sleeping(_, live) => live
    case _ => {}
  }

  /** The waiter has seen no send in flight, so it may go to sleep. */
  predicate MaySleep(p: Pc) {
    match p
    case Scanning(_, w) => !w.pend
    case TryClosed(_, w, _) => !w.pend
    case TryPending(_, w, _) => !w.pend
    case TryAgain(_, w, _) => !w.pend
    case Sleeping(_, _) => true
    case _ => false
  }

  /** The received half of a TryRecv in progress. */
  predicate Missed(p: Pc, s: Sid) { (p.TryClosed? || p.TryPending?) && p.s == s }

  /** The heart of the protocol, for one waiter and one source. */
  ghost predicate Safe(st: State, w: Tid, s: Sid) {
    w in st.pc && w !in st.poked ==>
      var p := st.pc[w];
      && (s in Watched(p) ==> (Holds(st, s) || Ended(st, s) ==> Due(st, s, w)))
      && (s in Watched(p) && MaySleep(p) ==> NonePast(st, s, w))
      && (Missed(p, s) && Holds(st, s) ==> Due(st, s, w))
      && (p.TryPending? && p.s == s && Ended(st, s) ==> Due(st, s, w))
  }

  ghost predicate Inv(st: State) {
    && TypeOk(st) && (forall s: Sid :: PendingCounts(st, s)) && (forall t: Tid :: Registered(st, t))
    && forall w: Tid, s: Sid :: Safe(st, w, s)
  }

  // ----- sends -----

  /** Everything but thread t's place, and nothing any other thread's place depends on. */
  ghost predicate Moves(st: State, st': State, t: Tid) {
    && t in st.pc && st'.pc.Keys == st.pc.Keys && (forall u :: u in st.pc && u != t ==> st'.pc[u] == st.pc[u])
    && st'.src.Keys == st.src.Keys && forall s :: s in st.src ==> st'.src[s].Channel? == st.src[s].Channel?
  }

  lemma TypeMoves(st: State, st': State, t: Tid)
    requires TypeOk(st) && Moves(st, st', t) && PcOk(st', st'.pc[t]) && st'.waiters.Keys == st.waiters.Keys
    ensures TypeOk(st')
  {
    forall u | u in st'.pc ensures PcOk(st', st'.pc[u]) {
      assert PcOk(st, st.pc[u]);
    }
  }

  /** A thread that enters or leaves the flights of s changes their number by one. */
  lemma CountMoves(st: State, st': State, t: Tid, s: Sid)
    requires Moves(st, st', t)
    ensures |Flights(st', s)| == |Flights(st, s)| + (if InFlight(st'.pc[t], s) then 1 else 0) - (if InFlight(st.pc[t], s) then 1 else 0)
  {
    var rest := Flights(st, s) - {t};
    assert Flights(st', s) == if InFlight(st'.pc[t], s) then rest + {t} else rest;
    assert Flights(st, s) == if InFlight(st.pc[t], s) then rest + {t} else rest;
  }

  lemma SendType(st: State, t: Tid, e: SendStep)
    requires TypeOk(st) && CanSend(st, t, e)
    ensures TypeOk(DoSend(st, t, e)) && Moves(st, DoSend(st, t, e), t)
    ensures Enrolled(DoSend(st, t, e).pc[t]) == Enrolled(st.pc[t]) == {} && DoSend(st, t, e).waiters == st.waiters
  {
    assert PcOk(st, st.pc[t]);
    TypeMoves(st, DoSend(st, t, e), t);
  }

  lemma SendCounts(st: State, t: Tid, e: SendStep, s: Sid)
    requires TypeOk(st) && CanSend(st, t, e) && PendingCounts(st, s)
    ensures PendingCounts(DoSend(st, t, e), s)
  {
    SendType(st, t, e);
    CountMoves(st, DoSend(st, t, e), t, s);
    assert PcOk(st, st.pc[t]);
    if InFlight(st.pc[t], s) { assert t in Flights(st, s); }
    hide Flights;
  }

  lemma SendSafe(st: State, t: Tid, e: SendStep, w: Tid, s: Sid)
    requires TypeOk(st) && CanSend(st, t, e) && Safe(st, w, s)
    ensures Safe(DoSend(st, t, e), w, s)
  {
    hide TypeOk, NonePast, Due, PcOk;
    var st' := DoSend(st, t, e);
    SendType(st, t, e);
    if w == t || w !in st.pc { return; }
    DueMoves(st, st', t, s, w);
    if NonePast(st, s, w) { PastMoves(st, st', t, s, w); }
    hide Moves;
  }

  /** A poke still due stays due if the moving thread was not the one who owed it, or still owes it. */
  lemma DueMoves(st: State, st': State, t: Tid, s: Sid, w: Tid)
    requires Moves(st, st', t)
    ensures DueBy(st'.pc[t], s, w) ==> Due(st', s, w)
    ensures Due(st, s, w) && (DueBy(st.pc[t], s, w) ==> DueBy(st'.pc[t], s, w)) ==> Due(st', s, w)
  {
    if Due(st, s, w) {
      var u :| u in st.pc && DueBy(st.pc[u], s, w);
      if u != t { assert u in st'.pc && DueBy(st'.pc[u], s, w); }
    }
  }

  lemma PastMoves(st: State, st': State, t: Tid, s: Sid, w: Tid)
    requires Moves(st, st', t) && NonePast(st, s, w)
    ensures !Past(st'.pc[t], s, w) ==> NonePast(st', s, w)
    ensures !Past(st.pc[t], s, w)
  {
  }

  // ----- notify -----

  lemma PokeType(st: State, t: Tid, n: PokeStep)
    requires TypeOk(st) && CanPoke(st, t, n)
    ensures TypeOk(DoPoke(st, t, n)) && Moves(st, DoPoke(st, t, n), t)
    ensures Enrolled(DoPoke(st, t, n).pc[t]) == Enrolled(st.pc[t]) == {} && DoPoke(st, t, n).waiters == st.waiters
    ensures forall s: Sid :: InFlight(DoPoke(st, t, n).pc[t], s) == InFlight(st.pc[t], s)
    ensures DoPoke(st, t, n).src == st.src
  {
    assert PcOk(st, st.pc[t]);
    TypeMoves(st, DoPoke(st, t, n), t);
  }

  lemma PokeCounts(st: State, t: Tid, n: PokeStep, s: Sid)
    requires TypeOk(st) && CanPoke(st, t, n) && PendingCounts(st, s)
    ensures PendingCounts(DoPoke(st, t, n), s)
  {
    hide TypeOk, PcOk, Flights;
    PokeType(st, t, n);
    CountMoves(st, DoPoke(st, t, n), t, s);
  }

  /** A waiter registered with s is in every notify of s that starts now. */
  lemma WaiterIsTold(st: State, w: Tid, s: Sid, todo: seq<Tid>)
    requires TypeOk(st) && w in st.pc && Registered(st, w) && (s in Watched(st.pc[w]) || Missed(st.pc[w], s))
    requires s in st.waiters && multiset(todo) == st.waiters[s]
    ensures w in todo
  {
    assert PcOk(st, st.pc[w]);
    var p := st.pc[w];
    assert s in p.mine;
    var k :| 0 <= k < |p.mine| && p.mine[k] == s;
    assert s in Enrolled(p);
    assert w in multiset(todo);
  }

  lemma PokeSafe(st: State, t: Tid, n: PokeStep, w: Tid, s: Sid)
    requires TypeOk(st) && CanPoke(st, t, n) && Safe(st, w, s) && Registered(st, w)
    ensures Safe(DoPoke(st, t, n), w, s)
  {
    var st' := DoPoke(st, t, n);
    PokeType(st, t, n);
    if w == t || w !in st.pc { return; }
    if n.Start? && st.pc[t].s == s && (s in Watched(st.pc[w]) || Missed(st.pc[w], s)) {
      assert PcOk(st, st.pc[t]);
      WaiterIsTold(st, w, s, n.todo);
    }
    hide TypeOk, NonePast, Due, PcOk, Registered;
    DueMoves(st, st', t, s, w);
    if NonePast(st, s, w) { PastMoves(st, st', t, s, w); }
  }

  // ----- closing, finishing, receiving -----

  function Mover(c: SourceStep): Tid {
    match c
    case CloseFlag(t, _) => t
    case TaskFinish(t, _) => t
    case TakeBuffered(_) => 0
    case TakeRefill(_, from) => from
    case TakeParked(_, from) => from
  }

  lemma ChangeType(st: State, c: SourceStep)
    requires TypeOk(st) && CanChange(st, c)
    ensures TypeOk(DoChange(st, c)) && DoChange(st, c).waiters == st.waiters && DoChange(st, c).poked == st.poked
    ensures !c.TakeBuffered? ==> Moves(st, DoChange(st, c), Mover(c))
    ensures c.TakeBuffered? ==> DoChange(st, c).pc == st.pc
    ensures !c.TakeBuffered? ==> Enrolled(DoChange(st, c).pc[Mover(c)]) == Enrolled(st.pc[Mover(c)]) == {}
  {
    var st' := DoChange(st, c);
    if c.TakeBuffered? {
      forall u | u in st'.pc ensures PcOk(st', st'.pc[u]) { assert PcOk(st, st.pc[u]); }
    } else {
      TypeMoves(st, st', Mover(c));
    }
  }

  lemma ChangeCounts(st: State, c: SourceStep, s: Sid)
    requires TypeOk(st) && CanChange(st, c) && PendingCounts(st, s)
    ensures PendingCounts(DoChange(st, c), s)
  {
    hide TypeOk, PcOk;
    ChangeType(st, c);
    if c.TakeBuffered? {
      assert Flights(DoChange(st, c), s) == Flights(st, s);
    } else {
      CountMoves(st, DoChange(st, c), Mover(c), s);
    }
    hide Flights;
  }

  lemma TakeSafe(st: State, x: Sid, w: Tid, s: Sid)
    requires CanChange(st, TakeBuffered(x)) && Safe(st, w, s)
    ensures Safe(DoChange(st, TakeBuffered(x)), w, s)
  {
    var st' := DoChange(st, TakeBuffered(x));
    assert Due(st', s, w) == Due(st, s, w) && NonePast(st', s, w) == NonePast(st, s, w);
    hide NonePast, Due;
  }

  lemma ChangeSafe(st: State, c: SourceStep, w: Tid, s: Sid)
    requires TypeOk(st) && CanChange(st, c) && Safe(st, w, s)
    ensures Safe(DoChange(st, c), w, s)
  {
    hide TypeOk, PcOk, NonePast, Due;
    if c.TakeBuffered? {
      TakeSafe(st, c.s, w, s);
      return;
    }
    var st' := DoChange(st, c);
    ChangeType(st, c);
    if w !in st.pc || w == Mover(c) { return; }
    DueMoves(st, st', Mover(c), s, w);
    if NonePast(st, s, w) { PastMoves(st, st', Mover(c), s, w); }
  }

  // ----- waiters -----

  lemma SweepPolls(w: Sweep, mine: seq<Sid>, s: Sid)
    requires SweepOk(w, mine, {}) && s in w.todo
    ensures SweepOk(w.(todo := w.todo - {s}), mine, {s})
    ensures SweepOk(w.(todo := w.todo - {s}, checked := w.checked + {s}), mine, {})
  {
  }

  lemma SweepChecks(w: Sweep, mine: seq<Sid>, s: Sid, pend: bool)
    requires SweepOk(w, mine, {s})
    ensures SweepOk(w.(checked := w.checked + {s}, pend := pend), mine, {})
    ensures SweepOk(Sweep(w.live - {s}, w.live - {s}, {}, pend), mine, {})
  {
  }

  lemma SweepFresh(live: set<Sid>, mine: seq<Sid>)
    requires forall s :: s in live ==> s in mine
    ensures SweepOk(Fresh(live), mine, {})
  {
  }

  lemma SweepLive(w: Sweep, mine: seq<Sid>)
    requires SweepOk(w, mine, {})
    ensures forall s :: s in w.live ==> s in mine
  {
  }

  /** Where a waiter's step leaves it is a well-formed place. */
  lemma WaitPc(st: State, t: Tid, x: WaitStep)
    requires TypeOk(st) && CanWait(st, t, x)
    ensures PcOk(st, DoWait(st, t, x).pc[t])
  {
    var p := st.pc[t];
    assert PcOk(st, p);
    hide TypeOk, SweepOk, Receivable, Known;
    match x
    case Begin(_) =>
    case Register =>
    case GiveUp =>
    case Unregister =>
    case _ => ScanPc(st, t, x);
  }

  lemma ScanPc(st: State, t: Tid, x: WaitStep)
    requires TypeOk(st) && CanWait(st, t, x) && !(x.Begin? || x.Register? || x.GiveUp? || x.Unregister?)
    ensures PcOk(st, DoWait(st, t, x).pc[t])
  {
    var p := st.pc[t];
    assert PcOk(st, p);
    hide TypeOk, SweepOk, Receivable, Known;
    match x
    case ScanStart => SweepFresh(Set(p.mine), p.mine);
    case PollMiss(s) => SweepPolls(p.w, p.mine, s);
    case PollTask(s) => SweepPolls(p.w, p.mine, s);
    case ReadClosed =>
    case ReadPending => SweepChecks(p.w, p.mine, p.s, p.w.pend || st.src[p.s].pending > 0);
    case DropClosed => SweepChecks(p.w, p.mine, p.s, p.w.pend);
    case Rescan => SweepLive(p.w, p.mine); SweepFresh(p.w.live, p.mine);
    case FallAsleep => SweepLive(p.w, p.mine);
    case Wake => SweepFresh(p.live, p.mine);
  }

  lemma WaitType(st: State, t: Tid, x: WaitStep)
    requires TypeOk(st) && CanWait(st, t, x)
    ensures TypeOk(DoWait(st, t, x)) && Moves(st, DoWait(st, t, x), t) && DoWait(st, t, x).src == st.src
  {
    hide DoWait, CanWait, PcOk, TypeOk;
    WaitPc(st, t, x);
    WaitFrame(st, t, x);
    PcStays(st, DoWait(st, t, x), DoWait(st, t, x).pc[t]);
    TypeMoves(st, DoWait(st, t, x), t);
  }

  lemma PcStays(st: State, st': State, p: Pc)
    requires PcOk(st, p) && st'.src == st.src
    ensures PcOk(st', p)
  {
  }

  lemma WaitFrame(st: State, t: Tid, x: WaitStep)
    requires TypeOk(st) && CanWait(st, t, x)
    ensures Moves(st, DoWait(st, t, x), t) && DoWait(st, t, x).src == st.src && DoWait(st, t, x).waiters.Keys == st.waiters.Keys
  {
    assert PcOk(st, st.pc[t]);
    hide TypeOk;
    if !(x.Begin? || x.Register? || x.GiveUp? || x.Unregister?) { ScanFrame(st, t, x); }
  }

  lemma ScanFrame(st: State, t: Tid, x: WaitStep)
    requires TypeOk(st) && CanWait(st, t, x) && !(x.Begin? || x.Register? || x.GiveUp? || x.Unregister?)
    ensures Moves(st, DoWait(st, t, x), t) && DoWait(st, t, x).src == st.src && DoWait(st, t, x).waiters == st.waiters
  {
    hide TypeOk, Receivable;
  }

  lemma WaitNotFlying(st: State, t: Tid, x: WaitStep, s: Sid)
    requires TypeOk(st) && CanWait(st, t, x)
    ensures !InFlight(DoWait(st, t, x).pc[t], s) && !InFlight(st.pc[t], s)
  {
    hide TypeOk;
  }

  lemma WaitCounts(st: State, t: Tid, x: WaitStep, s: Sid)
    requires TypeOk(st) && CanWait(st, t, x) && PendingCounts(st, s)
    ensures PendingCounts(DoWait(st, t, x), s)
  {
    hide TypeOk, PcOk, Flights, DoWait;
    WaitType(st, t, x);
    WaitNotFlying(st, t, x, s);
    CountMoves(st, DoWait(st, t, x), t, s);
  }

  /** Another waiter's registrations survive a waiter's own add and remove. */
  lemma WaitRegisteredOther(st: State, t: Tid, x: WaitStep, u: Tid)
    requires TypeOk(st) && CanWait(st, t, x) && Registered(st, u) && u != t
    ensures Registered(DoWait(st, t, x), u)
  {
    assert PcOk(st, st.pc[t]);
  }

  lemma WaitRegisteredSelf(st: State, t: Tid, x: WaitStep)
    requires TypeOk(st) && CanWait(st, t, x) && Registered(st, t)
    ensures Registered(DoWait(st, t, x), t)
  {
    assert PcOk(st, st.pc[t]);
    var p := st.pc[t];
    if x.Register? {
      assert p.mine[..p.k + 1] == p.mine[..p.k] + [p.mine[p.k]];
      forall s | s in Set(p.mine[..p.k + 1]) ensures s in Set(p.mine[..p.k]) || s == p.mine[p.k] {
        var k :| 0 <= k < |p.mine[..p.k + 1]| && p.mine[..p.k + 1][k] == s;
        if k < p.k { assert p.mine[..p.k][k] == s; }
      }
    } else if x.ScanStart? {
      assert p.mine[..p.k] == p.mine;
    }
  }

  /** Other waiters see nothing of this one's steps. */
  lemma WaitSafeOther(st: State, t: Tid, x: WaitStep, w: Tid, s: Sid)
    requires TypeOk(st) && CanWait(st, t, x) && Safe(st, w, s) && w != t
    ensures Safe(DoWait(st, t, x), w, s)
  {
    var st' := DoWait(st, t, x);
    WaitType(st, t, x);
    if w !in st.pc { return; }
    NeverOwes(st, t, x, s, w);
    hide TypeOk, PcOk, NonePast, Due;
    DueMoves(st, st', t, s, w);
    if NonePast(st, s, w) { PastMoves(st, st', t, s, w); }
    WaitElsewhere(st, t, x, w);
    hide DoWait, CanWait;
  }

  lemma NeverOwes(st: State, t: Tid, x: WaitStep, s: Sid, w: Tid)
    requires TypeOk(st) && CanWait(st, t, x)
    ensures !DueBy(st.pc[t], s, w) && !Past(DoWait(st, t, x).pc[t], s, w)
  {
    hide TypeOk;
  }

  lemma WaitElsewhere(st: State, t: Tid, x: WaitStep, w: Tid)
    requires TypeOk(st) && CanWait(st, t, x) && w != t && w in st.pc
    ensures DoWait(st, t, x).pc[w] == st.pc[w] && (w in DoWait(st, t, x).poked <==> w in st.poked)
  {
  }

  /** The check that lets a waiter sleep: no send in flight means none has already poked it and not yet arrived. */
  lemma NothingInFlight(st: State, s: Sid, w: Tid)
    requires TypeOk(st) && IsChannel(st, s) && PendingCounts(st, s) && st.src[s].pending == 0
    ensures NonePast(st, s, w)
  {
    forall t | t in st.pc ensures !Past(st.pc[t], s, w) {
      assert t !in Flights(st, s);
    }
  }

  lemma TasksTakeNoSends(st: State, s: Sid, w: Tid)
    requires TypeOk(st) && s in st.src && st.src[s].Task?
    ensures NonePast(st, s, w)
  {
    forall t | t in st.pc ensures !Past(st.pc[t], s, w) { assert PcOk(st, st.pc[t]); }
  }

  /** A waiter's own step changes neither what is due to it nor who is past it. */
  lemma SelfFrame(st: State, t: Tid, x: WaitStep, s: Sid)
    requires TypeOk(st) && CanWait(st, t, x)
    ensures var st' := DoWait(st, t, x);
            && Moves(st, st', t) && st'.src == st.src
            && (Due(st, s, t) ==> Due(st', s, t)) && (NonePast(st, s, t) ==> NonePast(st', s, t))
  {
    var st' := DoWait(st, t, x);
    WaitFrame(st, t, x);
    NeverOwes(st, t, x, s, t);
    hide TypeOk, Due, NonePast, DoWait, CanWait;
    DueMoves(st, st', t, s, t);
    if NonePast(st, s, t) { PastMoves(st, st', t, s, t); }
  }

  lemma WaitSafeSelf(st: State, t: Tid, x: WaitStep, s: Sid)
    requires TypeOk(st) && CanWait(st, t, x) && Safe(st, t, s) && PendingCounts(st, s)
    ensures Safe(DoWait(st, t, x), t, s)
  {
    SelfFrame(st, t, x, s);
    match x
    case PollMiss(_) => SelfMiss(st, t, x, s);
    case PollTask(_) => SelfTask(st, t, x, s);
    case ReadClosed => SelfClosed(st, t, x, s);
    case ReadPending => SelfPending(st, t, x, s);
    case FallAsleep => SelfSleep(st, t, x, s);
    case _ =>
  }

  lemma SelfMiss(st: State, t: Tid, x: WaitStep, s: Sid)
    requires TypeOk(st) && CanWait(st, t, x) && Safe(st, t, s) && x.PollMiss?
    ensures Safe(DoWait(st, t, x), t, s)
  {
    SelfFrame(st, t, x, s);
    hide TypeOk, Due, NonePast, Moves;
  }

  lemma SelfTask(st: State, t: Tid, x: WaitStep, s: Sid)
    requires TypeOk(st) && CanWait(st, t, x) && Safe(st, t, s) && x.PollTask?
    ensures Safe(DoWait(st, t, x), t, s)
  {
    SelfFrame(st, t, x, s);
    if x.s == s { TasksTakeNoSends(st, s, t); }
    hide TypeOk, Due, NonePast, Moves;
  }

  lemma SelfClosed(st: State, t: Tid, x: WaitStep, s: Sid)
    requires TypeOk(st) && CanWait(st, t, x) && Safe(st, t, s) && x.ReadClosed?
    ensures Safe(DoWait(st, t, x), t, s)
  {
    SelfFrame(st, t, x, s);
    assert PcOk(st, st.pc[t]);
    hide TypeOk, Due, NonePast, Moves;
  }

  lemma SelfPending(st: State, t: Tid, x: WaitStep, s: Sid)
    requires TypeOk(st) && CanWait(st, t, x) && Safe(st, t, s) && x.ReadPending? && PendingCounts(st, s)
    ensures Safe(DoWait(st, t, x), t, s)
  {
    SelfFrame(st, t, x, s);
    assert PcOk(st, st.pc[t]);
    if st.pc[t].s == s && st.src[s].pending == 0 { NothingInFlight(st, s, t); }
    hide TypeOk, Due, NonePast, Moves, PendingCounts;
  }

  lemma SelfSleep(st: State, t: Tid, x: WaitStep, s: Sid)
    requires TypeOk(st) && CanWait(st, t, x) && Safe(st, t, s) && x.FallAsleep?
    ensures Safe(DoWait(st, t, x), t, s)
  {
    SelfFrame(st, t, x, s);
    assert PcOk(st, st.pc[t]);
    hide TypeOk, Due, NonePast, Moves;
  }

  // ----- whole runs -----

  lemma OthersRegistered(st: State, st': State, t: Tid, u: Tid)
    requires Moves(st, st', t) && st'.waiters == st.waiters && Registered(st, u)
    requires Enrolled(st'.pc[t]) == Enrolled(st.pc[t])
    ensures Registered(st', u)
  {
  }

  lemma SendInv(st: State, t: Tid, e: SendStep)
    requires Inv(st) && CanSend(st, t, e)
    ensures Inv(DoSend(st, t, e))
  {
    hide TypeOk, PendingCounts, Registered, Safe, CanSend, DoSend;
    SendType(st, t, e);
    forall s: Sid ensures PendingCounts(DoSend(st, t, e), s) { SendCounts(st, t, e, s); }
    forall u: Tid ensures Registered(DoSend(st, t, e), u) { OthersRegistered(st, DoSend(st, t, e), t, u); }
    forall w: Tid, s: Sid ensures Safe(DoSend(st, t, e), w, s) { SendSafe(st, t, e, w, s); }
  }

  lemma PokeInv(st: State, t: Tid, n: PokeStep)
    requires Inv(st) && CanPoke(st, t, n)
    ensures Inv(DoPoke(st, t, n))
  {
    hide TypeOk, PendingCounts, Registered, Safe, CanPoke, DoPoke;
    PokeType(st, t, n);
    forall s: Sid ensures PendingCounts(DoPoke(st, t, n), s) { PokeCounts(st, t, n, s); }
    forall u: Tid ensures Registered(DoPoke(st, t, n), u) { OthersRegistered(st, DoPoke(st, t, n), t, u); }
    forall w: Tid, s: Sid ensures Safe(DoPoke(st, t, n), w, s) { PokeSafe(st, t, n, w, s); }
  }

  lemma ChangeInv(st: State, c: SourceStep)
    requires Inv(st) && CanChange(st, c)
    ensures Inv(DoChange(st, c))
  {
    hide TypeOk, PendingCounts, Safe, CanChange, DoChange;
    ChangeType(st, c);
    forall s: Sid ensures PendingCounts(DoChange(st, c), s) { ChangeCounts(st, c, s); }
    forall u: Tid ensures Registered(DoChange(st, c), u) {
      assert Registered(st, u);
      if !c.TakeBuffered? { OthersRegistered(st, DoChange(st, c), Mover(c), u); }
    }
    forall w: Tid, s: Sid ensures Safe(DoChange(st, c), w, s) { ChangeSafe(st, c, w, s); }
  }

  lemma WaitInv(st: State, t: Tid, x: WaitStep)
    requires Inv(st) && CanWait(st, t, x)
    ensures Inv(DoWait(st, t, x))
  {
    hide TypeOk, PendingCounts, Registered, Safe, CanWait, DoWait;
    WaitType(st, t, x);
    forall s: Sid ensures PendingCounts(DoWait(st, t, x), s) { WaitCounts(st, t, x, s); }
    forall u: Tid ensures Registered(DoWait(st, t, x), u) {
      if u == t { WaitRegisteredSelf(st, t, x); } else { WaitRegisteredOther(st, t, x, u); }
    }
    forall w: Tid, s: Sid ensures Safe(DoWait(st, t, x), w, s) {
      if w == t { WaitSafeSelf(st, t, x, s); } else { WaitSafeOther(st, t, x, w, s); }
    }
  }

  /** Every step keeps the invariant. */
  lemma StepInv(st: State, a: Step)
    requires Inv(st) && Enabled(st, a)
    ensures Inv(Apply(st, a))
  {
    hide Inv, CanSend, CanPoke, CanChange, CanWait, DoSend, DoPoke, DoChange, DoWait, TypeOk;
    match a
    case Send(t, e) => SendInv(st, t, e);
    case Poke(t, n) => PokeInv(st, t, n);
    case Change(c) => ChangeInv(st, c);
    case Wait(t, x) => WaitInv(st, t, x);
  }

  /** Threads idle, nothing buffered, closed, finished or registered. */
  ghost predicate Initial(st: State) {
    && st.waiters.Keys == st.src.Keys && st.locked == {} && (forall s :: s in st.waiters ==> st.waiters[s] == multiset{})
    && (forall t :: t in st.pc ==> st.pc[t].Idle?)
    && forall s :: s in st.src ==> if st.src[s].Channel? then st.src[s].buffered == 0 && !st.src[s].closed && st.src[s].pending == 0
                                   else !st.src[s].done
  }

  lemma InitialInv(st: State)
    requires Initial(st)
    ensures Inv(st)
  {
    forall s: Sid ensures PendingCounts(st, s) { assert Flights(st, s) == {}; }
  }

  /** The states some interleaving of steps leads to. */
  ghost predicate Run(st: State, steps: seq<Step>, end: State)
    decreases |steps|
  {
    if steps == [] then st == end
    else TypeOk(st) && Enabled(st, steps[0]) && Run(Apply(st, steps[0]), steps[1..], end)
  }

  lemma {:induction false} RunInv(st: State, steps: seq<Step>, end: State)
    requires Inv(st) && Run(st, steps, end)
    ensures Inv(end)
    decreases |steps|
  {
    hide Inv, Enabled, Apply, TypeOk;
    if steps != [] {
      StepInv(st, steps[0]);
      RunInv(Apply(st, steps[0]), steps[1..], end);
    }
  }

  /**
   No lost wake-up, over every interleaving: if a waiter sleeps with no poke pending,
   then any source it sleeps on that holds a value, is closed or is finished still
   owes it a poke, and no sender is parked there or past its poke and about to be.
   */
  lemma NoLostWakeUp(st: State, steps: seq<Step>, end: State, w: Tid, s: Sid)
    requires Initial(st) && Run(st, steps, end)
    requires w in end.pc && end.pc[w].Sleeping? && s in end.pc[w].live && w !in end.poked
    ensures Holds(end, s) || Ended(end, s) ==> Due(end, s, w)
    ensures forall t :: t in end.pc ==> end.pc[t] != Parked(s) && end.pc[t] != AtSelect(s)
  {
    hide Run, Due;
    InitialInv(st);
    RunInv(st, steps, end);
    assert Safe(end, w, s);
    hide Inv, Initial;
  }

  // ----- a poke that is due gets delivered -----

  /** Each wait-set lock has exactly one holder, the thread inside that notify. */
  ghost predicate LocksOk(st: State) {
    && (forall s :: s in st.locked ==> exists t :: t in st.pc && st.pc[t].Poking? && st.pc[t].s == s)
    && (forall t :: t in st.pc && st.pc[t].Poking? ==> st.pc[t].s in st.locked)
    && (forall t, u :: t in st.pc && u in st.pc && st.pc[t].Poking? && st.pc[u].Poking? && st.pc[t].s == st.pc[u].s ==> t == u)
  }

  lemma LocksMove(st: State, st': State, t: Tid)
    requires LocksOk(st) && Moves(st, st', t) && st'.locked == st.locked
    requires !st.pc[t].Poking? && !st'.pc[t].Poking?
    ensures LocksOk(st')
  {
    forall s | s in st'.locked ensures exists u :: u in st'.pc && st'.pc[u].Poking? && st'.pc[u].s == s {
      var u :| u in st.pc && st.pc[u].Poking? && st.pc[u].s == s;
      assert u in st'.pc && st'.pc[u].Poking? && st'.pc[u].s == s;
    }
  }

  lemma LocksPoke(st: State, t: Tid, n: PokeStep)
    requires TypeOk(st) && LocksOk(st) && CanPoke(st, t, n)
    ensures LocksOk(DoPoke(st, t, n))
  {
    var st' := DoPoke(st, t, n);
    hide TypeOk, Enrolled;
    forall s | s in st'.locked ensures exists u :: u in st'.pc && st'.pc[u].Poking? && st'.pc[u].s == s {
      if s == st.pc[t].s {
        assert t in st'.pc && st'.pc[t].Poking? && st'.pc[t].s == s;
      } else {
        var u :| u in st.pc && st.pc[u].Poking? && st.pc[u].s == s;
        assert u in st'.pc && st'.pc[u].Poking? && st'.pc[u].s == s;
      }
    }
  }

  lemma LocksStep(st: State, a: Step)
    requires TypeOk(st) && LocksOk(st) && Enabled(st, a)
    ensures LocksOk(Apply(st, a))
  {
    match a
    case Send(t, e) =>
      SendType(st, t, e);
      hide TypeOk, LocksOk;
      LocksMove(st, DoSend(st, t, e), t);
    case Poke(t, n) =>
      LocksPoke(st, t, n);
    case Change(c) =>
      ChangeType(st, c);
      if !c.TakeBuffered? {
        hide TypeOk, LocksOk;
        LocksMove(st, DoChange(st, c), Mover(c));
      }
    case Wait(t, x) =>
      WaitFrame(st, t, x);
      hide TypeOk, LocksOk;
      WaitNeverPokes(st, t, x);
      LocksMove(st, DoWait(st, t, x), t);
  }

  lemma WaitNeverPokes(st: State, t: Tid, x: WaitStep)
    requires TypeOk(st) && CanWait(st, t, x)
    ensures !st.pc[t].Poking? && !DoWait(st, t, x).pc[t].Poking? && DoWait(st, t, x).locked == st.locked
  {
    hide TypeOk;
  }

  lemma {:induction false} RunLocks(st: State, steps: seq<Step>, end: State)
    requires Inv(st) && LocksOk(st) && Run(st, steps, end)
    ensures LocksOk(end)
    decreases |steps|
  {
    if steps != [] {
      LocksStep(st, steps[0]);
      StepInv(st, steps[0]);
      hide Inv, LocksOk, Enabled, Apply, TypeOk;
      RunLocks(Apply(st, steps[0]), steps[1..], end);
    }
  }

  /** Some order of a multiset, for the list a notify walks. */
  ghost function Listed(m: multiset<Tid>): (l: seq<Tid>)
    ensures multiset(l) == m
    decreases |m|
  {
    if m == multiset{} then []
    else
      var x :| x in m;
      assert m == (m - multiset{x}) + multiset{x};
      [x] + Listed(m - multiset{x})
  }
}
