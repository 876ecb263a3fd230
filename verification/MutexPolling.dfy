/** What a mutex answers to those who ask for the lock, whom it notifies, and which task it wakes. */
module MutexPolling {
  import opened Collections
  import opened MutexModel
  import opened MutexRuns

  // ---- Who gets the lock ----

  /** Barging: an unfair mutex is locked by whoever asks while it is free, no matter who waits. */
  lemma UnfairPollIsReadyIfFree<N>(s: State<N>, n: N, waker: Waker)
    requires Inv(s) && !s.isFair && n in s.entries && s.entries[n].state != Done
    ensures TryLock(s, n, waker).1 == if s.isLocked then Pending else Ready(())
  {
  }

  /** A fair mutex is locked by newcomers only if nobody waits, and then by the one it has notified. */
  lemma FairPollWaitsForItsTurn<N>(s: State<N>, n: N, waker: Waker)
    requires Inv(s) && s.isFair && n in s.entries && s.entries[n].state != Done
    ensures var e := s.entries[n];
      var served := if e.state == New then !s.isLocked && s.waiters == [] else e.state == Notified;
      TryLock(s, n, waker).1 == if served then Ready(()) else Pending
  {
  }

  /** Locking at once follows the rule for newcomers: a guard of the locked mutex, or no change at all. */
  lemma TryLockNowSucceedsIfFree<N>(w: World<N>, n: N)
    requires WorldInv(w) && Enabled(w, TryLockNow(n))
    ensures var w' := Step(w, TryLockNow(n));
      if !w.s.isLocked && (!w.s.isFair || w.s.waiters == [])
      then w'.guards == w.guards + 1 && w'.s == w.s.(isLocked := true)
      else w' == w
  {
  }

  // ---- Who is notified ----

  /** The oldest waiter is notified and its task is called; nobody else changes, and an unfair queue loses its end. */
  ghost predicate NotifiesOldest<N>(s: State<N>, t: State<N>, calls: seq<Waker>)
    requires Linked(s)
  {
    && t.isLocked == s.isLocked && t.isFair == s.isFair
    && t.entries.Keys == s.entries.Keys
    && if s.waiters == [] then t == s && calls == []
      else
        var oldest := Last(s.waiters);
        && s.entries[oldest].task.Some? && calls == [s.entries[oldest].task.value]
        && t.entries[oldest].state == Notified
        && (forall n | n in s.entries && n != oldest :: t.entries[n] == s.entries[n])
        && s.waiters == if s.isFair then t.waiters else t.waiters + [oldest]
  }

  lemma ReturnNotifiesOldest<N>(s: State<N>)
    requires Linked(s) && forall n | n in s.waiters :: s.entries[n].task.Some?
    ensures NotifiesOldest(s, ReturnLastWaiter(s).0, Woken(ReturnLastWaiter(s).1))
  {
    assert s.waiters != [] ==> Last(s.waiters) in s.waiters;
    assert s.waiters != [] ==> s.waiters == DropLast(s.waiters) + [Last(s.waiters)];
  }

  /** While the mutex is locked, everybody in the queue waits for the own task to be called. */
  lemma LockedAllWait<N>(s: State<N>)
    requires Inv(s) && s.isLocked
    ensures forall n | n in s.waiters :: s.entries[n].state == Waiting && s.entries[n].task.Some?
  {
  }

  /** Unlocking notifies the oldest waiter and nobody else; an unlocked mutex is left alone. */
  lemma UnlockNotifiesOldest<N>(s: State<N>)
    requires Inv(s)
    ensures s.isLocked ==> NotifiesOldest(s.(isLocked := false), Unlock(s).0, Woken(Unlock(s).1))
    ensures !s.isLocked ==> Unlock(s) == (s, None)
  {
    hide NotifiesOldest, ReturnLastWaiter, NoLostWakeup;
    if s.isLocked {
      LockedAllWait(s);
      ReturnNotifiesOldest(s.(isLocked := false));
    }
  }

  /** A future that is not queued may disappear on the way. */
  lemma ForgetOnTheWay<N>(s: State<N>, t: State<N>, calls: seq<Waker>, n: N)
    requires Linked(s) && n !in s.waiters && NotifiesOldest(s, t, calls)
    ensures Linked(Forget(s, n)) && NotifiesOldest(Forget(s, n), Forget(t, n), calls)
  {
    assert s.waiters != [] ==> Last(s.waiters) in s.waiters;
  }

  /**
   * A notified future that gives up passes its notification to the oldest of the others; one that has not been
   * notified only leaves the queue.
   */
  lemma DropNotifiesOldest<N>(s: State<N>, n: N)
    requires Inv(s) && n in s.entries
    ensures var left := s.(waiters := Without(s.waiters, n), entries := s.entries - {n});
      var (t, task) := Dropped(s, n);
      && Linked(left)
      && if s.entries[n].state == Notified then NotifiesOldest(left, t, Woken(task)) else t == left && task == None
  {
    hide NotifiesOldest, ReturnLastWaiter, NoLostWakeup, Without;
    TakenOut(s.waiters, n);
    if s.entries[n].state == Notified {
      var u := SetEntry(if s.isFair then Unlink(s, n) else s, n, s.entries[n].(state := Done));
      assert u.waiters == Without(s.waiters, n);
      OthersWait(s, n);
      ReturnNotifiesOldest(u);
      ForgetOnTheWay(u, ReturnLastWaiter(u).0, Woken(ReturnLastWaiter(u).1), n);
      assert Forget(u, n) == s.(waiters := Without(s.waiters, n), entries := s.entries - {n});
    }
  }

  /** While a future is notified, all others in the queue wait for their tasks to be called. */
  lemma OthersWait<N>(s: State<N>, n: N)
    requires Inv(s) && n in s.entries && s.entries[n].state == Notified
    ensures forall m | m in s.waiters && m != n :: s.entries[m].state == Waiting && s.entries[m].task.Some?
  {
  }

  /** A call goes out in a step only to a waiter that is notified in it, and to one at most. */
  lemma OnlyTheNotifiedIsCalled<N>(w: World<N>, op: Op<N>)
    requires WorldInv(w)
    ensures var w' := Step(w, op); w'.wakes == w.wakes || exists n ::
      && n in w.s.entries && w.s.entries[n].state == Waiting && w.s.entries[n].task.Some?
      && n in w'.s.entries && w'.s.entries[n].state == Notified
      && w'.wakes == w.wakes + [w.s.entries[n].task.value]
  {
    hide NoLostWakeup, FairNotification, Dropped, Unlock, Polled, Without;
    if Enabled(w, op) && op == DropGuard {
      UnlockNotifiesOldest(w.s);
      assert Step(w, op).wakes == w.wakes + Woken(Unlock(w.s).1);
      if w.s.waiters != [] {
        LockedAllWait(w.s);
        assert Last(w.s.waiters) in w.s.waiters;
      }
    } else if Enabled(w, op) && op.DropFuture? {
      DropNotifiesOldest(w.s, op.n);
      var rest := Without(w.s.waiters, op.n);
      if w.s.entries[op.n].state == Notified && rest != [] {
        WithoutMembers(w.s.waiters, op.n);
        OthersWait(w.s, op.n);
        assert Last(rest) in rest;
      }
    }
  }

  // ---- Whom a waiting future has woken ----

  /** A future that has to wait is queued, once, and remembers the task that has polled it; nothing else changes. */
  lemma PendingPollRemembersTheTask<N>(s: State<N>, n: N, waker: Waker)
    requires Inv(s) && n in s.entries && TryLock(s, n, waker).1.Pending?
    ensures TryLock(s, n, waker).0 == s.(
      waiters := if n in s.waiters then s.waiters else [n] + s.waiters,
      entries := s.entries[n := WaitQueueEntry(Some(waker), Waiting)])
  {
    hide NoLostWakeup;
  }

  /** The waker of the latest poll of a future. */
  ghost function LatestWaker<N>(ops: seq<Op<N>>, n: N): Option<Waker> {
    if ops == [] then None
    else if Last(ops).PollFuture? && Last(ops).n == n then Some(Last(ops).waker)
    else LatestWaker(DropLast(ops), n)
  }

  /** Nobody else changes which task a waiting future has woken, or makes a future wait. */
  lemma OnlyPollsRegister<N>(w: World<N>, op: Op<N>, n: N)
    requires WorldInv(w) && n in Step(w, op).s.entries && Step(w, op).s.entries[n].state == Waiting
    requires !(op.PollFuture? && op.n == n)
    ensures n in w.s.entries && Step(w, op).s.entries[n] == w.s.entries[n]
  {
    hide NoLostWakeup, FairNotification, Without;
  }

  lemma PollRegisters<N>(w: World<N>, n: N, waker: Waker)
    requires WorldInv(w)
    requires var s := Step(w, PollFuture(n, waker)).s; n in s.entries && s.entries[n].state == Waiting
    ensures Step(w, PollFuture(n, waker)).s.entries[n].task == Some(waker)
  {
    hide TryLock;
    TryLockKeepsInv(w.s, n, waker);
    if TryLock(w.s, n, waker).1.Pending? {
      PendingPollRemembersTheTask(w.s, n, waker);
    }
  }

  /** In every run, a waiting future remembers the task that has polled it last. */
  lemma {:induction false} WaiterRemembersLatestPoll<N>(isFair: bool, ops: seq<Op<N>>, n: N)
    requires var s := Exec(isFair, ops).s; n in s.entries && s.entries[n].state == Waiting
    ensures Exec(isFair, ops).s.entries[n].task == LatestWaker(ops, n)
  {
    hide Step, Inv, NobodyDone;
    if ops != [] {
      var w, op := Exec(isFair, DropLast(ops)), Last(ops);
      if op.PollFuture? && op.n == n {
        PollRegisters(w, n, op.waker);
      } else {
        OnlyPollsRegister(w, op, n);
        WaiterRemembersLatestPoll(isFair, DropLast(ops), n);
      }
    }
  }

  /**
   * In every run and whatever happens next, a waiting future goes on waiting undisturbed, or is notified and the task
   * that has polled it last is called at that moment.
   */
  lemma LatestTaskIsCalled<N>(isFair: bool, ops: seq<Op<N>>, op: Op<N>, n: N)
    requires var s := Exec(isFair, ops).s; n in s.entries && s.entries[n].state == Waiting
    requires !(op.PollFuture? && op.n == n) && op != DropFuture(n)
    ensures var w, w' := Exec(isFair, ops), Exec(isFair, ops + [op]);
      && w.wakes <= w'.wakes && n in w'.s.entries && LatestWaker(ops, n).Some?
      && (w'.s.entries[n] == w.s.entries[n] ||
        (w'.s.entries[n].state == Notified && LatestWaker(ops, n).value in w'.wakes[|w.wakes|..]))
  {
    hide Step, Exec;
    WaiterRemembersLatestPoll(isFair, ops, n);
    ExecStep(isFair, ops, op);
    NobodyIsReleasedSilently(Exec(isFair, ops), op, n);
    assert WorldInv(Exec(isFair, ops));
  }
}
