/** Whom the semaphore calls: in both modes, nobody who waits is notified without a wake-up call. */
module SemaphoreCalls {
  import opened Collections
  import opened SemaphoreModel
  import opened SemaphoreInvariants
  import opened SemaphoreRuns

  /** A waiter is left as it was, or it is notified and its task is among the new wake-up calls. */
  ghost predicate KeptOrCalled<N>(s: State<N>, t: State<N>, n: N)
    requires n in s.entries && s.entries[n].task.Some?
  {
    && s.wakes <= t.wakes && n in t.entries
    && (t.entries[n] == s.entries[n] ||
      (t.entries[n] == s.entries[n].(state := Notified) && s.entries[n].task.value in t.wakes[|s.wakes|..]))
  }

  lemma NotifyCalls<N>(s: State<N>, m: N, n: N)
    requires m in s.entries && n in s.entries && s.entries[n].state == Waiting && s.entries[n].task.Some?
    ensures KeptOrCalled(s, Notify(s, m), n)
  {
    assert Notify(s, m).wakes[|s.wakes|..] == if s.entries[m].state == Notified then [] else Woken(s.entries[m].task);
  }

  /** Calls add up. */
  lemma ThenCalls<N>(s: State<N>, t: State<N>, r: State<N>, n: N)
    requires n in s.entries && s.entries[n].task.Some? && KeptOrCalled(s, t, n)
    requires t.wakes <= r.wakes && n in r.entries
    requires r.entries[n] == t.entries[n] || (t.entries[n].task.Some? && KeptOrCalled(t, r, n))
    ensures KeptOrCalled(s, r, n)
  {
    assert r.wakes[|s.wakes|..] == t.wakes[|s.wakes|..] + r.wakes[|t.wakes|..];
  }

  lemma {:induction false} WakeLoopCalls<N>(s: State<N>, available: nat, n: N)
    requires WellFormed(s) && n in s.entries && s.entries[n].state == Waiting
    ensures KeptOrCalled(s, WakeLoop(s, available), n)
    decreases |s.waiters|, 1
  {
    hide WakeLoop, KeptOrCalled, Notify;
    WakeLoopRound(s, available);
    Unchanged(s, n);
    if s.waiters != [] {
      var m := Last(s.waiters);
      assert m in s.waiters;
      if s.entries[m].requiredPermits <= available {
        NotifyCalls(s, m, n);
        if !s.isFair {
          WakeOnCalls(s, m, available - s.entries[m].requiredPermits, n);
        }
      }
    }
  }

  lemma Unchanged<N>(s: State<N>, n: N)
    requires n in s.entries && s.entries[n].task.Some?
    ensures KeptOrCalled(s, s, n)
  {
  }

  /** The rounds of the wake-up loop after the first one. */
  lemma {:induction false} WakeOnCalls<N>(s: State<N>, m: N, available: nat, n: N)
    requires WellFormed(s) && !s.isFair && s.waiters != [] && m == Last(s.waiters)
    requires n in s.entries && s.entries[n].state == Waiting && s.entries[n].task.Some?
    ensures var t := Notify(s, m).(waiters := DropLast(s.waiters));
      Linked(t) && KeptOrCalled(s, WakeLoop(t, available), n)
    decreases |s.waiters|, 0
  {
    hide WakeLoop;
    NotifyOldestKeepsWellFormed(s);
    var t := Notify(s, m).(waiters := DropLast(s.waiters));
    NotifyCalls(s, m, n);
    if n == m {
      WakeLeavesOthersAlone(t, available, n);
      WakeLoopOnlyAdds(t, available);
    } else {
      WakeLoopCalls(t, available, n);
    }
    ThenCalls(s, t, WakeLoop(t, available), n);
  }

  lemma {:induction false} WakeLoopOnlyAdds<N>(s: State<N>, available: nat)
    requires Linked(s)
    ensures s.wakes <= WakeLoop(s, available).wakes
    decreases |s.waiters|
  {
    if s.waiters != [] {
      var n := Last(s.waiters);
      if s.entries[n].requiredPermits <= available && !s.isFair {
        assert forall m | m in DropLast(s.waiters) :: m in s.waiters;
        WakeLoopOnlyAdds(Notify(s, n).(waiters := DropLast(s.waiters)), available - s.entries[n].requiredPermits);
      }
    }
  }

  /** A future that waits either goes on waiting undisturbed, or is notified and its task is called at that moment. */
  lemma NobodyIsReleasedSilently<N>(w: World<N>, op: Op<N>, n: N)
    requires WorldInv(w) && n in w.s.entries && w.s.entries[n].state == Waiting
    requires !(op.PollFuture? && op.n == n) && op != DropFuture(n)
    ensures KeptOrCalled(w.s, Step(w, op).s, n)
  {
    hide WakeLoop;
    if Enabled(w, op) {
      match op
      case PollFuture(m, waker) => PollCalls(w.s, m, waker, n);
      case DropFuture(m) => DropCalls(w.s, m, n);
      case DropReleaser(i) => ReleaseCalls(w.s, w.releasers[i], n);
      case ReleaseByHand(permits) => ReleaseCalls(w.s, permits, n);
      case _ =>
    }
  }

  lemma ReleaseCalls<N>(s: State<N>, permits: nat, n: N)
    requires Inv(s) && n in s.entries && s.entries[n].state == Waiting
    ensures KeptOrCalled(s, Release(s, permits), n)
  {
    hide WakeLoop;
    WakeLoopCalls(s.(permits := s.permits + permits), s.permits + permits, n);
  }

  lemma PollCalls<N>(s: State<N>, m: N, waker: Waker, n: N)
    requires Inv(s) && m in s.entries && n in s.entries && s.entries[n].state == Waiting && m != n
    ensures KeptOrCalled(s, Polled(s, m, waker).0, n)
  {
    hide WakeLoop;
    if s.isFair && s.entries[m].state == Notified {
      var t := Unlink(s, m).(permits := s.permits - s.entries[m].requiredPermits);
      UnlinkLinked(s, m);
      WakeLoopRound(t, t.permits);
      if t.waiters != [] {
        NotifyCalls(t, Last(t.waiters), n);
      }
    }
  }

  lemma DropCalls<N>(s: State<N>, m: N, n: N)
    requires Inv(s) && m in s.entries && n in s.entries && s.entries[n].state == Waiting && m != n
    ensures KeptOrCalled(s, Dropped(s, m), n)
  {
    hide WakeLoop;
    UnlinkLinked(s, m);
    InUnlink(s, m);
    if s.entries[m].state == Notified {
      var t := SetState(if s.isFair then Unlink(s, m) else s, m, Done);
      assert WellFormed(t);
      WakeLoopCalls(t, t.permits, n);
    }
  }

  // ---- And nobody is called for nothing ----

  ghost predicate NotifiedAs<N>(s: State<N>, t: State<N>, n: N, call: Waker) {
    && n in s.entries && s.entries[n].state == Waiting && s.entries[n].task == Some(call)
    && n in t.entries && t.entries[n].state == Notified
  }

  /** Each new call goes to the task of a waiter that is notified. */
  ghost predicate CallsOnlyNotified<N>(s: State<N>, t: State<N>) {
    && s.wakes <= t.wakes
    && (forall call | call in t.wakes[|s.wakes|..] :: exists n :: n in s.entries && NotifiedAs(s, t, n, call))
  }

  lemma NoCalls<N>(s: State<N>, t: State<N>)
    requires t.wakes == s.wakes
    ensures CallsOnlyNotified(s, t)
  {
  }

  lemma NotifyCallsNotified<N>(s: State<N>, m: N)
    requires m in s.entries && s.entries[m].state in {Waiting, Notified}
    ensures CallsOnlyNotified(s, Notify(s, m))
  {
    var t := Notify(s, m);
    forall call | call in t.wakes[|s.wakes|..]
      ensures exists n :: n in s.entries && NotifiedAs(s, t, n, call)
    {
      assert t.wakes[|s.wakes|..] == Woken(s.entries[m].task);
      assert NotifiedAs(s, t, m, call);
    }
  }

  lemma {:induction false} WakeLoopCallsNotified<N>(s: State<N>, available: nat)
    requires WellFormed(s)
    ensures CallsOnlyNotified(s, WakeLoop(s, available))
    decreases |s.waiters|
  {
    hide WakeLoop, CallsOnlyNotified, Notify;
    NoCalls(s, s);
    WakeLoopRound(s, available);
    if s.waiters != [] {
      var m := Last(s.waiters);
      assert m in s.waiters;
      if s.entries[m].requiredPermits <= available {
        NotifyCallsNotified(s, m);
        if !s.isFair {
          NotifyOldestKeepsWellFormed(s);
          var t := Notify(s, m).(waiters := DropLast(s.waiters));
          WakeLoopCallsNotified(t, available - s.entries[m].requiredPermits);
          ThenCallsNotified(s, t, WakeLoop(t, available - s.entries[m].requiredPermits), m);
        }
      }
    }
  }

  lemma ThenCallsNotified<N>(s: State<N>, t: State<N>, r: State<N>, m: N)
    requires m in s.entries && t == Notify(s, m).(waiters := t.waiters) && CallsOnlyNotified(s, Notify(s, m))
    requires CallsOnlyNotified(t, r)
    requires t.entries.Keys == r.entries.Keys
    requires forall n | n in t.entries :: r.entries[n].state == t.entries[n].state || r.entries[n].state == Notified
    ensures CallsOnlyNotified(s, r)
  {
    forall call | call in r.wakes[|s.wakes|..]
      ensures exists n :: n in s.entries && NotifiedAs(s, r, n, call)
    {
      assert r.wakes[|s.wakes|..] == t.wakes[|s.wakes|..] + r.wakes[|t.wakes|..];
      if call in t.wakes[|s.wakes|..] {
        var n :| n in s.entries && NotifiedAs(s, Notify(s, m), n, call);
        assert NotifiedAs(s, r, n, call);
      } else {
        var n :| n in t.entries && NotifiedAs(t, r, n, call);
        assert NotifiedAs(s, r, n, call);
      }
    }
  }

  /** Whatever happens, the tasks that are called are those of waiters that are notified at that moment. */
  lemma NobodyIsCalledForNothing<N>(w: World<N>, op: Op<N>)
    requires WorldInv(w)
    ensures CallsOnlyNotified(w.s, Step(w, op).s)
  {
    hide Polled, Dropped, Release, Inv, CallsOnlyNotified;
    NoCalls(w.s, w.s);
    if Enabled(w, op) {
      match op
      case PollFuture(n, waker) => PollCallsNotified(w.s, n, waker);
      case DropFuture(n) => DropCallsNotified(w.s, n);
      case DropReleaser(i) => ReleaseCallsNotified(w.s, w.releasers[i]);
      case ReleaseByHand(permits) => ReleaseCallsNotified(w.s, permits);
      case _ => NoCalls(w.s, Step(w, op).s);
    }
  }

  lemma ReleaseCallsNotified<N>(s: State<N>, permits: nat)
    requires Inv(s)
    ensures CallsOnlyNotified(s, Release(s, permits))
  {
    hide WakeLoop;
    var u, t := s.(permits := s.permits + permits), Release(s, permits);
    WakeLoopCallsNotified(u, u.permits);
    forall call | call in t.wakes[|s.wakes|..]
      ensures exists n :: n in s.entries && NotifiedAs(s, t, n, call)
    {
      var n :| n in u.entries && NotifiedAs(u, t, n, call);
      assert NotifiedAs(s, t, n, call);
    }
  }

  /** The future that makes the semaphore wake others is not waiting itself, and disappears. */
  lemma WithoutWaker<N>(s: State<N>, u: State<N>, t: State<N>, n: N)
    requires CallsOnlyNotified(u, t) && u.wakes == s.wakes && n in u.entries && u.entries[n].state == Done
    requires forall m | m in u.entries && m != n :: m in s.entries && u.entries[m] == s.entries[m]
    ensures CallsOnlyNotified(s, Forget(t, n))
  {
    forall call | call in t.wakes[|s.wakes|..]
      ensures exists m :: m in s.entries && NotifiedAs(s, Forget(t, n), m, call)
    {
      var m :| m in u.entries && NotifiedAs(u, t, m, call);
      assert NotifiedAs(s, Forget(t, n), m, call);
    }
  }

  lemma PollCallsNotified<N>(s: State<N>, n: N, waker: Waker)
    requires Inv(s) && n in s.entries
    ensures CallsOnlyNotified(s, Polled(s, n, waker).0)
  {
    hide WakeLoop, CallsOnlyNotified;
    if s.isFair && s.entries[n].state == Notified {
      var t := Unlink(s, n).(permits := s.permits - s.entries[n].requiredPermits);
      var u := SetState(t, n, Done);
      UnlinkLinked(s, n);
      InUnlink(s, n);
      MarkDoneCommutes(t, n);
      WakeLoopCallsNotified(u, u.permits);
      WithoutWaker(s, u, WakeLoop(u, u.permits), n);
    } else {
      NoCalls(s, Polled(s, n, waker).0);
    }
  }

  lemma DropCallsNotified<N>(s: State<N>, n: N)
    requires Inv(s) && n in s.entries
    ensures CallsOnlyNotified(s, Dropped(s, n))
  {
    hide WakeLoop, CallsOnlyNotified;
    UnlinkLinked(s, n);
    if s.entries[n].state == Notified {
      InUnlink(s, n);
      var u := SetState(if s.isFair then Unlink(s, n) else s, n, Done);
      WakeLoopCallsNotified(u, u.permits);
      WithoutWaker(s, u, WakeLoop(u, u.permits), n);
    } else {
      NoCalls(s, Dropped(s, n));
    }
  }
}
