/** What every operation of the semaphore keeps, in both modes and for any mix of request sizes. */
module SemaphoreInvariants {
  import opened Collections
  import opened SemaphoreModel

  /** The future is in the wait queue: a fair semaphore keeps notified waiters there, an unfair one does not. */
  ghost predicate Queued<N>(s: State<N>, n: N)
    requires n in s.entries
  {
    s.entries[n].state == Waiting || (s.isFair && s.entries[n].state == Notified)
  }

  ghost predicate WellFormed<N>(s: State<N>) {
    && NoDup(s.waiters)
    && Linked(s)
    && (forall n | n in s.entries :: n in s.waiters <==> Queued(s, n))
    && (forall n | n in s.entries && s.entries[n].state == Waiting :: s.entries[n].task.Some?)
    // Requests for nothing slip past the queue of a fair semaphore.
    && (forall n | n in s.waiters && s.isFair :: s.entries[n].requiredPermits > 0)
  }

  /** On a fair semaphore only the oldest waiter can be notified, and then its permits are there. */
  ghost predicate NotifiedIsServable<N>(s: State<N>) {
    forall n | n in s.entries && s.isFair && s.entries[n].state == Notified ::
      s.waiters != [] && n == Last(s.waiters) && s.entries[n].requiredPermits <= s.permits
  }

  ghost predicate Inv<N>(s: State<N>) {
    WellFormed(s) && NotifiedIsServable(s)
  }

  /** Where a future stands can be told from its state. */
  lemma StateTellsQueued<N>(s: State<N>, n: N)
    requires Inv(s) && n in s.entries
    ensures n in s.waiters <==> Queued(s, n)
    ensures s.isFair && s.entries[n].state == Notified ==> s.entries[n].requiredPermits <= s.permits
  {
  }

  /** What is left of the queue when one future is taken out of it. */
  lemma InUnlink<N>(s: State<N>, n: N)
    requires NoDup(s.waiters)
    ensures forall m | m in s.waiters :: m in Unlink(s, n).waiters <==> m != n
    ensures forall m | m in Unlink(s, n).waiters :: m in s.waiters && m != n
    ensures NoDup(Unlink(s, n).waiters)
    ensures s.waiters != [] && n != Last(s.waiters) ==>
      Unlink(s, n).waiters != [] && Last(Unlink(s, n).waiters) == Last(s.waiters)
  {
    TakenOut(s.waiters, n);
  }

  lemma {:induction false} WakeKeepsWellFormed<N>(s: State<N>, available: nat)
    requires WellFormed(s)
    ensures WellFormed(WakeLoop(s, available))
    decreases |s.waiters|
  {
    if s.waiters != [] {
      InDropLast(s.waiters);
      var n := Last(s.waiters);
      if s.entries[n].requiredPermits <= available && !s.isFair {
        WakeKeepsWellFormed(Notify(s, n).(waiters := DropLast(s.waiters)), available - s.entries[n].requiredPermits);
      }
    }
  }

  /** Waking touches nobody outside the queue. */
  lemma {:induction false} WakeLeavesOthersAlone<N>(s: State<N>, available: nat, n: N)
    requires Linked(s) && n in s.entries && n !in s.waiters
    ensures WakeLoop(s, available).entries[n] == s.entries[n]
    ensures n !in WakeLoop(s, available).waiters
    decreases |s.waiters|
  {
    if s.waiters != [] {
      var m := Last(s.waiters);
      assert m in s.waiters;
      if s.entries[m].requiredPermits <= available && !s.isFair {
        assert forall x | x in DropLast(s.waiters) :: x in s.waiters;
        var t := Notify(s, m).(waiters := DropLast(s.waiters));
        WakeLeavesOthersAlone(t, available - s.entries[m].requiredPermits, n);
      }
    }
  }

  lemma NewFutureKeepsInv<N>(s: State<N>, n: N, permits: nat)
    requires Inv(s) && n !in s.entries
    ensures Inv(s.(entries := s.entries[n := WaitQueueEntry(None, New, permits)]))
  {
    assert n !in s.waiters;
  }

  /** A wake-up on a fair semaphore notifies nobody but the oldest waiter, and only if its request fits. */
  lemma WakeKeepsInv<N>(s: State<N>)
    requires Inv(s)
    ensures Inv(WakeupWaiters(s))
  {
    WakeKeepsWellFormed(s, s.permits);
    UnfairStaysUnfair(s);
  }

  lemma UnfairStaysUnfair<N>(s: State<N>)
    requires Linked(s)
    ensures WakeupWaiters(s).isFair == s.isFair
  {
  }

  lemma ReleaseKeepsInv<N>(s: State<N>, permits: nat)
    requires Inv(s)
    ensures Inv(Release(s, permits))
    ensures Release(s, permits).permits == s.permits + permits
    ensures Release(s, permits).entries.Keys == s.entries.Keys && Release(s, permits).isFair == s.isFair
  {
    if permits > 0 {
      WakeKeepsInv(s.(permits := s.permits + permits));
    }
  }

  lemma TryAcquireSyncKeepsInv<N>(s: State<N>, required: nat)
    requires Inv(s)
    ensures Inv(TryAcquireSync(s, required).0)
  {
  }

  lemma EnqueueKeepsInv<N>(s: State<N>, n: N, waker: Waker)
    requires Inv(s) && n in s.entries && n !in s.waiters
    requires s.isFair ==> s.entries[n].requiredPermits > 0 && s.entries[n].state == New
    ensures Inv(Enqueue(s, n, waker))
  {
    var r := Enqueue(s, n, waker);
    assert forall m :: m in r.waiters <==> m == n || m in s.waiters;
  }

  /** Polling keeps the invariant, and it panics only on a future that has finished. */
  lemma TryAcquireKeepsInv<N>(s: State<N>, n: N, waker: Waker)
    requires Inv(s) && n in s.entries
    ensures Inv(TryAcquire(s, n, waker).0)
    ensures TryAcquire(s, n, waker).1 == Panicked <==> s.entries[n].state == Done
    ensures TryAcquire(s, n, waker).0.permits
      == s.permits - if TryAcquire(s, n, waker).1.Ready? then s.entries[n].requiredPermits else 0
    ensures TryAcquire(s, n, waker).0.entries.Keys == s.entries.Keys && TryAcquire(s, n, waker).0.isFair == s.isFair
  {
    hide WakeLoop;
    UnlinkLinked(s, n);
    var e := s.entries[n];
    match e.state
    case New =>
      if !CanAcquireSync(s, e.requiredPermits) {
        EnqueueKeepsInv(s, n, waker);
      }
    case Waiting => PollWaitingKeepsInv(s, n, waker);
    case Notified =>
      if s.permits < e.requiredPermits {
        EnqueueKeepsInv(s, n, waker);
      } else if s.isFair {
        AcquireNotifiedKeepsInv(s, n);
      }
    case Done =>
  }

  lemma PollWaitingKeepsInv<N>(s: State<N>, n: N, waker: Waker)
    requires Inv(s) && n in s.entries && s.entries[n].state == Waiting
    ensures Inv(TryAcquire(s, n, waker).0)
  {
    InUnlink(s, n);
  }

  lemma AcquireNotifiedKeepsInv<N>(s: State<N>, n: N)
    requires Inv(s) && s.isFair && n in s.entries && s.entries[n].state == Notified
    requires s.entries[n].requiredPermits <= s.permits
    requires Linked(Unlink(s, n))
    ensures Inv(SetState(WakeupWaiters(Unlink(s, n).(permits := s.permits - s.entries[n].requiredPermits)), n, Done))
  {
    InUnlink(s, n);
    var t := SetState(Unlink(s, n), n, Done).(permits := s.permits - s.entries[n].requiredPermits);
    assert Inv(t);
    WakeKeepsInv(t);
    MarkDoneCommutes(Unlink(s, n).(permits := s.permits - s.entries[n].requiredPermits), n);
  }

  /** Finishing a future that has left the queue does not interfere with waking others. */
  lemma MarkDoneCommutes<N>(s: State<N>, n: N)
    requires Linked(s) && s.isFair && n in s.entries && n !in s.waiters
    ensures SetState(WakeupWaiters(s), n, Done) == WakeupWaiters(SetState(s, n, Done))
  {
    if s.waiters != [] {
      var m := Last(s.waiters);
      assert m in s.waiters;
      assert SetState(Notify(s, m), n, Done) == Notify(SetState(s, n, Done), m);
    }
  }

  /** Giving up keeps the invariant and the permits, and leaves the future unlinked. */
  lemma RemoveWaiterKeepsInv<N>(s: State<N>, n: N)
    requires Inv(s) && n in s.entries
    ensures Inv(RemoveWaiter(s, n))
    ensures RemoveWaiter(s, n).permits == s.permits
    ensures RemoveWaiter(s, n).entries.Keys == s.entries.Keys && RemoveWaiter(s, n).isFair == s.isFair
    ensures n !in RemoveWaiter(s, n).waiters
  {
    hide WakeLoop, WellFormed, NotifiedIsServable;
    match s.entries[n].state
    case Notified => CancelNotifiedKeepsInv(s, n);
    case Waiting => CancelWaitingKeepsInv(s, n);
    case New => StateTellsQueued(s, n);
    case Done => StateTellsQueued(s, n);
  }

  /** A notified future that gives up hands the notification on. */
  lemma CancelNotifiedKeepsInv<N>(s: State<N>, n: N)
    requires Inv(s) && n in s.entries && s.entries[n].state == Notified
    ensures Inv(RemoveWaiter(s, n)) && n !in RemoveWaiter(s, n).waiters
  {
    hide WakeLoop;
    InUnlink(s, n);
    UnlinkLinked(s, n);
    var t := SetState(if s.isFair then Unlink(s, n) else s, n, Done);
    assert n !in t.waiters;
    WakeKeepsInv(t);
    WakeLeavesOthersAlone(t, t.permits, n);
  }

  lemma CancelWaitingKeepsInv<N>(s: State<N>, n: N)
    requires Inv(s) && n in s.entries && s.entries[n].state == Waiting
    ensures Inv(RemoveWaiter(s, n)) && n !in RemoveWaiter(s, n).waiters
  {
    InUnlink(s, n);
  }

  /** A future that is not queued leaves nothing behind. */
  lemma ForgetKeepsInv<N>(s: State<N>, n: N)
    requires Inv(s) && n !in s.waiters
    ensures Inv(Forget(s, n))
  {
  }

  lemma DropKeepsInv<N>(s: State<N>, n: N)
    requires Inv(s) && n in s.entries
    ensures Inv(Dropped(s, n)) && n !in Dropped(s, n).waiters
    ensures Dropped(s, n).permits == s.permits && Dropped(s, n).isFair == s.isFair
    ensures Dropped(s, n).entries.Keys == s.entries.Keys - {n}
  {
    hide RemoveWaiter;
    RemoveWaiterKeepsInv(s, n);
    ForgetKeepsInv(RemoveWaiter(s, n), n);
  }

  /** A future that has finished is done, and out of the queue. */
  lemma ReadyIsDone<N>(s: State<N>, n: N, waker: Waker)
    requires Inv(s) && n in s.entries && TryAcquire(s, n, waker).1.Ready?
    ensures var r := TryAcquire(s, n, waker).0; n in r.entries && r.entries[n].state == Done && n !in r.waiters
  {
    hide TryAcquire;
    TryAcquireKeepsInv(s, n, waker);
    ReadyMarksDone(s, n, waker);
    StateTellsQueued(TryAcquire(s, n, waker).0, n);
  }

  lemma ReadyMarksDone<N>(s: State<N>, n: N, waker: Waker)
    requires Linked(s) && n in s.entries && TryAcquire(s, n, waker).1.Ready?
    ensures var r := TryAcquire(s, n, waker).0; n in r.entries && r.entries[n].state == Done
  {
    UnlinkLinked(s, n);
  }

  /** The same for a poll that detaches the future when it is ready. */
  lemma PolledKeepsInv<N>(s: State<N>, n: N, waker: Waker)
    requires Inv(s) && n in s.entries
    ensures Inv(Polled(s, n, waker).0)
    ensures Polled(s, n, waker).1 == Panicked <==> s.entries[n].state == Done
    ensures Polled(s, n, waker).0.permits
      == s.permits - if Polled(s, n, waker).1.Ready? then s.entries[n].requiredPermits else 0
    ensures Polled(s, n, waker).0.entries.Keys == s.entries.Keys - if Polled(s, n, waker).1.Ready? then {n} else {}
    ensures Polled(s, n, waker).0.isFair == s.isFair
  {
    hide TryAcquire;
    TryAcquireKeepsInv(s, n, waker);
    var (r, result) := TryAcquire(s, n, waker);
    if result.Ready? {
      ReadyIsDone(s, n, waker);
      ForgetKeepsInv(r, n);
    }
  }

  /** The permits that the waiters from position `k` on, the older ones, ask for together. */
  ghost function Demand<N>(s: State<N>, k: nat): nat
    requires Linked(s) && k <= |s.waiters|
    decreases |s.waiters| - k
  {
    if k == |s.waiters| then 0 else Demand(s, k + 1) + s.entries[s.waiters[k]].requiredPermits
  }

  /** The wake-up calls that go out when those waiters are woken, oldest first. */
  ghost function Calls<N>(s: State<N>, k: nat): seq<Waker>
    requires Linked(s) && k <= |s.waiters|
    decreases |s.waiters| - k
  {
    if k == |s.waiters| then [] else Calls(s, k + 1) + Woken(s.entries[s.waiters[k]].task)
  }

  /** Leaving the oldest waiter out of account. */
  lemma {:induction false} WithoutOldest<N>(s: State<N>, t: State<N>, k: nat)
    requires Linked(s) && Linked(t) && s.waiters != [] && t.waiters == DropLast(s.waiters) && k < |s.waiters|
    requires forall n | n in t.waiters :: n in s.entries && t.entries[n] == s.entries[n]
    ensures Demand(s, k) == Demand(t, k) + s.entries[Last(s.waiters)].requiredPermits
    ensures Calls(s, k) == Woken(s.entries[Last(s.waiters)].task) + Calls(t, k)
    decreases |s.waiters| - k
  {
    if k < |s.waiters| - 1 {
      WithoutOldest(s, t, k + 1);
      var n := s.waiters[k];
      assert t.waiters[k] == n && n in t.waiters;
      var last, call := Woken(s.entries[Last(s.waiters)].task), Woken(s.entries[n].task);
      assert (last + Calls(t, k + 1)) + call == last + (Calls(t, k + 1) + call);
    } else {
      assert Calls(s, k + 1) == [] && Calls(t, k) == [];
    }
  }

  /** A wake-up takes waiters off the old end of the queue only. */
  lemma {:induction false} WakeTakesOldest<N>(s: State<N>, available: nat)
    requires Linked(s) && WellFormed(s) && !s.isFair
    ensures WakeLoop(s, available).waiters <= s.waiters
    decreases |s.waiters|
  {
    hide WellFormed, WakeLoop;
    WakeLoopRound(s, available);
    if s.waiters != [] {
      var n := Last(s.waiters);
      NotifyOldestKeepsWellFormed(s);
      if s.entries[n].requiredPermits <= available {
        var t := Notify(s, n).(waiters := DropLast(s.waiters));
        WakeTakesOldest(t, available - s.entries[n].requiredPermits);
      }
    }
  }

  /**
   * Waking on an unfair semaphore is greedy: it takes the longest run of oldest waiters whose requests fit together.
   */
  lemma {:induction false} WakeIsGreedy<N>(s: State<N>, available: nat)
    requires Linked(s) && WellFormed(s) && !s.isFair
    ensures Demand(s, |WakeLoop(s, available).waiters|) <= available
    ensures WakeLoop(s, available).waiters != [] ==> available < Demand(s, |WakeLoop(s, available).waiters| - 1)
    decreases |s.waiters|
  {
    hide WellFormed, WakeLoop;
    WakeLoopRound(s, available);
    if s.waiters != [] {
      var n := Last(s.waiters);
      NotifyOldestKeepsWellFormed(s);
      if s.entries[n].requiredPermits <= available {
        var t := Notify(s, n).(waiters := DropLast(s.waiters));
        WakeIsGreedy(t, available - s.entries[n].requiredPermits);
        var k := |WakeLoop(s, available).waiters|;
        WithoutOldest(s, t, k);
        if k > 0 {
          WithoutOldest(s, t, k - 1);
        }
      }
    }
  }

  /** Each of the waiters taken is called once, the oldest first. */
  lemma {:induction false} WakeCallsOldestFirst<N>(s: State<N>, available: nat)
    requires Linked(s) && WellFormed(s) && !s.isFair
    ensures WakeLoop(s, available).wakes == s.wakes + Calls(s, |WakeLoop(s, available).waiters|)
    decreases |s.waiters|
  {
    hide WellFormed, WakeLoop;
    WakeLoopRound(s, available);
    if s.waiters != [] {
      var n := Last(s.waiters);
      NotifyOldestKeepsWellFormed(s);
      if s.entries[n].requiredPermits <= available {
        var t := Notify(s, n).(waiters := DropLast(s.waiters));
        WakeCallsOldestFirst(t, available - s.entries[n].requiredPermits);
        WithoutOldest(s, t, |WakeLoop(s, available).waiters|);
      }
    }
  }

  lemma NotifyOldestKeepsWellFormed<N>(s: State<N>)
    requires WellFormed(s) && !s.isFair && s.waiters != []
    ensures Last(s.waiters) in s.entries && s.entries[Last(s.waiters)].state == Waiting
    ensures Linked(Notify(s, Last(s.waiters)).(waiters := DropLast(s.waiters)))
    ensures WellFormed(Notify(s, Last(s.waiters)).(waiters := DropLast(s.waiters)))
    ensures forall n | n in DropLast(s.waiters) :: n in s.waiters && n != Last(s.waiters)
  {
    InDropLast(s.waiters);
  }

  /** The waiters that a wake-up removes are notified, and nothing else changes. */
  lemma {:induction false} WakeNotifiesTheRemoved<N>(s: State<N>, available: nat, n: N)
    requires WellFormed(s) && !s.isFair && n in s.entries
    ensures WakeLoop(s, available).entries[n] == (
      if n in s.waiters && n !in WakeLoop(s, available).waiters then s.entries[n].(state := Notified) else s.entries[n])
    decreases |s.waiters|
  {
    if s.waiters != [] {
      var m := Last(s.waiters);
      NotifyOldestKeepsWellFormed(s);
      if s.entries[m].requiredPermits <= available {
        var t := Notify(s, m).(waiters := DropLast(s.waiters));
        WakeNotifiesTheRemoved(t, available - s.entries[m].requiredPermits, n);
        InDropLast(s.waiters);
        if n == m {
          WakeLeavesOthersAlone(t, available - s.entries[m].requiredPermits, n);
        }
      }
    }
  }
}
