/**
 The reentrant lock that serialises dispatch into the host interpreter, as a state
 machine over its single loads and stores, under every interleaving of call chains.
 A root entry has no chain and takes no part.
 */
module HostLock {
  import opened Options

  type Chain = nat

  /**
   Where a chain is. `Idle` is outside both operations. The count is read and written
   in two steps, `Bump` and `Drop` holding the value read.
   */
  datatype Pc = Idle
    | Lock | Claim | First | Reenter | Bump(read: int)
    | Leave | Drop(read: int) | Test | Disown | Unlock

  /** `inside` counts enters not yet matched by a finished exit. */
  datatype Local = Local(pc: Pc, inside: nat)

  datatype State = State(mutex: Option<Chain>, owner: Option<Chain>, reentry: int, locals: map<Chain, Local>)

  /** Any finite set of chains, none of which has entered. */
  predicate Init(s: State) {
    s.mutex.None? && s.owner.None? && forall t :: t in s.locals ==> s.locals[t] == Local(Idle, 0)
  }

  function Goto(s: State, t: Chain, pc: Pc, inside: nat): State { s.(locals := s.locals[t := Local(pc, inside)]) }

  /** One load, store, lock or unlock of chain `t`. */
  predicate Step(s: State, t: Chain, s': State) {
    && t in s.locals
    && var n := s.locals[t].inside;
    match s.locals[t].pc
    case Idle =>
      || s' == Goto(s, t, if s.owner == Some(t) then Reenter else Lock, n)
      || (n > 0 && s' == if s.owner == Some(t) then Goto(s, t, Leave, n) else Goto(s, t, Idle, n - 1))
    case Reenter => s' == Goto(s, t, Bump(s.reentry), n)
    case Bump(r) => s' == Goto(s, t, Idle, n + 1).(reentry := r + 1)
    case Lock => s.mutex.None? && s' == Goto(s, t, Claim, n).(mutex := Some(t))
    case Claim => s' == Goto(s, t, First, n).(owner := Some(t))
    case First => s' == Goto(s, t, Idle, n + 1).(reentry := 1)
    case Leave => s' == Goto(s, t, Drop(s.reentry), n)
    case Drop(r) => s' == Goto(s, t, Test, n).(reentry := r - 1)
    case Test => n > 0 && s' == if s.reentry == 0 then Goto(s, t, Disown, n) else Goto(s, t, Idle, n - 1)
    case Disown => s' == Goto(s, t, Unlock, n).(owner := None)
    case Unlock => n > 0 && s' == Goto(s, t, Idle, n - 1).(mutex := None)
  }

  ghost predicate Run(states: seq<State>) {
    && states != [] && Init(states[0])
    && forall i :: 0 < i < |states| ==> Next(states[i - 1], states[i])
  }

  ghost predicate Next(s: State, s': State) { exists t :: Step(s, t, s') }

  // ----- the invariant -----

  /** Where the lock puts a chain that is at `l`. */
  predicate HoldsAt(l: Local) { if l.pc.Idle? then l.inside > 0 else !l.pc.Lock? }

  /** The owner field names the holder except just after locking and just before unlocking. */
  predicate OwnsAt(l: Local) { HoldsAt(l) && !l.pc.Claim? && !l.pc.Unlock? }

  /** The count, as the holder sees it at each point. */
  predicate CountAt(l: Local, reentry: int) {
    match l.pc
    case Idle => reentry == l.inside
    case Reenter => reentry == l.inside && l.inside > 0
    case Bump(r) => r == reentry == l.inside && l.inside > 0
    case Leave => reentry == l.inside && l.inside > 0
    case Drop(r) => r == reentry == l.inside && l.inside > 0
    case Test => reentry == l.inside - 1 && l.inside > 0
    case Disown => reentry == 0 && l.inside == 1
    case Unlock => reentry == 0 && l.inside == 1
    case _ => l.inside == 0
  }

  ghost predicate Inv(s: State) {
    && (forall t :: t in s.locals ==>
         && (s.mutex == Some(t) <==> HoldsAt(s.locals[t]))
         && (s.owner == Some(t) <==> OwnsAt(s.locals[t]))
         && (HoldsAt(s.locals[t]) ==> CountAt(s.locals[t], s.reentry))
         && (!HoldsAt(s.locals[t]) ==> s.locals[t].inside == 0))
    && (s.mutex.Some? ==> s.mutex.value in s.locals)
    && (s.owner.Some? ==> s.owner == s.mutex)
  }

  lemma InitInv(s: State)
    requires Init(s)
    ensures Inv(s)
  {
  }

  lemma StepInv(s: State, t: Chain, s': State)
    requires Inv(s) && Step(s, t, s')
    ensures Inv(s')
  {
    assert s'.locals.Keys == s.locals.Keys;
    forall u | u in s.locals && u != t
      ensures s'.locals[u] == s.locals[u]
    {
    }
  }

  lemma {:induction false} RunInv(states: seq<State>, i: nat)
    requires Run(states) && i < |states|
    ensures Inv(states[i])
  {
    if i == 0 {
      InitInv(states[0]);
    } else {
      RunInv(states, i - 1);
      var t :| Step(states[i - 1], t, states[i]);
      StepInv(states[i - 1], t, states[i]);
    }
  }

  // ----- what it means -----

  /** At most one chain is inside; the owner holds the mutex; the count is its unmatched enters. */
  lemma OneInside(states: seq<State>, i: nat, t: Chain, u: Chain)
    requires Run(states) && i < |states| && t in states[i].locals && u in states[i].locals
    ensures states[i].locals[t].inside > 0 && states[i].locals[u].inside > 0 ==> t == u
    ensures states[i].owner.Some? ==> states[i].mutex == states[i].owner
    ensures states[i].owner == Some(t) && states[i].locals[t].pc.Idle? ==>
              states[i].reentry == states[i].locals[t].inside && states[i].locals[t].inside > 0
    ensures states[i].locals[t].pc.Idle? && states[i].locals[t].inside > 0 ==> states[i].owner == Some(t)
  {
    RunInv(states, i);
  }

  predicate TouchesCount(pc: Pc) { pc.Reenter? || pc.Bump? || pc.First? || pc.Leave? || pc.Drop? || pc.Test? }

  /** The unguarded count is only ever read or written by the chain that holds the mutex. */
  lemma CountIsGuarded(states: seq<State>, i: nat, t: Chain)
    requires Run(states) && i < |states| && t in states[i].locals && TouchesCount(states[i].locals[t].pc)
    ensures states[i].mutex == Some(t)
  {
    RunInv(states, i);
  }

  /** A chain already inside never waits, and whoever holds the mutex can always move. */
  lemma ReentryNeverBlocks(states: seq<State>, i: nat, t: Chain)
    requires Run(states) && i < |states| && t in states[i].locals
    ensures states[i].locals[t].inside > 0 ==> !states[i].locals[t].pc.Lock?
    ensures states[i].locals[t].pc.Lock? && states[i].mutex.Some? ==>
              states[i].mutex != Some(t) && exists s' :: Step(states[i], states[i].mutex.value, s')
    ensures !states[i].locals[t].pc.Lock? ==> exists s' :: Step(states[i], t, s')
  {
    RunInv(states, i);
    var s := states[i];
    if s.mutex.Some? { CanMove(s, s.mutex.value); }
    if !s.locals[t].pc.Lock? { CanMove(s, t); }
  }

  lemma CanMove(s: State, t: Chain)
    requires Inv(s) && t in s.locals && !s.locals[t].pc.Lock?
    ensures exists s' :: Step(s, t, s')
  {
    var n := s.locals[t].inside;
    var s' := match s.locals[t].pc
      case Idle => Goto(s, t, if s.owner == Some(t) then Reenter else Lock, n)
      case Reenter => Goto(s, t, Bump(s.reentry), n)
      case Bump(r) => Goto(s, t, Idle, n + 1).(reentry := r + 1)
      case Lock => s
      case Claim => Goto(s, t, First, n).(owner := Some(t))
      case First => Goto(s, t, Idle, n + 1).(reentry := 1)
      case Leave => Goto(s, t, Drop(s.reentry), n)
      case Drop(r) => Goto(s, t, Test, n).(reentry := r - 1)
      case Test => if s.reentry == 0 then Goto(s, t, Disown, n) else Goto(s, t, Idle, n - 1)
      case Disown => Goto(s, t, Unlock, n).(owner := None)
      case Unlock => Goto(s, t, Idle, n - 1).(mutex := None);
    assert Step(s, t, s');
  }

  /** The mutex is freed exactly by the exit that matches the outermost enter. */
  lemma FreedAtOutermost(states: seq<State>, i: nat, t: Chain)
    requires Run(states) && i + 1 < |states| && Step(states[i], t, states[i + 1])
    ensures var s, s' := states[i], states[i + 1];
            && (s.mutex.Some? && s'.mutex.None? <==> s.locals[t].inside == 1 && s'.locals[t].inside == 0)
            && (s.mutex.None? && s'.mutex.Some? ==> s.locals[t].inside == 0 && s'.mutex == Some(t))
  {
    RunInv(states, i);
    RunInv(states, i + 1);
  }
}
