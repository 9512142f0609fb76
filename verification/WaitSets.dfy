/** The wait set and the cancel signal as the objects the runtime updates in place. */
module WaitSets {
  /** A wake-up channel: a buffer of one poke. */
  class Waker {
    var full: bool
    constructor () ensures !full { full := false; }
  }

  /** Everything is done under `mu`, so each method is one step of the protocol. */
  class WaitSet {
    var waiters: seq<Waker>

    constructor ()
      ensures waiters == []
    {
      waiters := [];
    }

    method Add(w: Waker)
      modifies this
      ensures multiset(waiters) == multiset(old(waiters)) + multiset{w}
    {
      waiters := waiters + [w];
    }

    /** Drop one registration of w: the last entry takes its place. */
    method Remove(w: Waker)
      modifies this
      ensures multiset(waiters) == multiset(old(waiters)) - multiset{w}
    {
      var i := 0;
      while i < |waiters|
        invariant 0 <= i <= |waiters| && waiters == old(waiters) && w !in waiters[..i]
      {
        if waiters[i] == w {
          var last := |waiters| - 1;
          SwapOut(waiters, i);
          waiters := waiters[i := waiters[last]][..last];
          return;
        }
        i := i + 1;
      }
      assert waiters[..i] == waiters;
    }

    /** Poke every registered waker without blocking; a full one loses nothing. */
    method Notify()
      modifies set k | 0 <= k < |waiters| :: waiters[k]
      ensures forall w :: w in waiters ==> w.full
    {
      for i := 0 to |waiters|
        invariant forall k :: 0 <= k < i ==> waiters[k].full
      {
        if !waiters[i].full { waiters[i].full := true; }
      }
    }
  }

  lemma SwapOut<T>(s: seq<T>, i: nat)
    requires i < |s|
    ensures multiset(s[i := s[|s| - 1]][..|s| - 1]) == multiset(s) - multiset{s[i]}
  {
    var last := |s| - 1;
    var t := s[i := s[last]];
    assert t == t[..last] + [t[last]];
    assert s == s[..last] + [s[last]];
    assert multiset(t) == multiset(s) - multiset{s[i]} + multiset{s[last]};
  }

  /** The Go channel behind CancelSignal. */
  class Signal {
    var closed: bool
    constructor () ensures !closed { closed := false; }
  }

  /** TaskState's cancel half: the signal is created lazily and closed once. */
  class CancelState {
    var cancelled: bool
    var signal: Signal?
    var signalClosed: bool

    constructor ()
      ensures Valid() && !cancelled && signal == null
    {
      cancelled, signal, signalClosed := false, null, false;
    }

    /** A signal that was handed out is closed exactly when the task is cancelled. */
    ghost predicate Valid()
      reads this, signal
    {
      if signal == null then !cancelled && !signalClosed else signalClosed == signal.closed == cancelled
    }

    method RequestCancel()
      requires Valid()
      modifies this, signal
      ensures Valid() && cancelled && signal != null && signal.closed
      ensures old(signal) != null ==> signal == old(signal)
    {
      cancelled := true;
      if signal == null { signal := new Signal(); }
      if !signalClosed {
        signal.closed := true;
        signalClosed := true;
      }
    }

    /** Every caller gets the one signal; taken after a cancel it is already closed. */
    method CancelSignal() returns (s: Signal)
      requires Valid()
      modifies this
      ensures Valid() && signal == s && cancelled == old(cancelled) && s.closed == cancelled
      ensures old(signal) != null ==> s == old(signal)
    {
      if signal == null { signal := new Signal(); }
      s := signal;
      if cancelled && !signalClosed {
        assert false;   // RequestCancel has closed it already
      }
    }
  }
}
