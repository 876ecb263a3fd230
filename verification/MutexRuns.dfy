/** Whole runs of a mutex: any interleaving of locking, polling, giving up and unlocking by any number of tasks. */
module MutexRuns {
  import opened Collections
  import opened MutexModel

  /** Polling keeps the invariant, and it panics only on a future that has finished. */
  lemma TryLockKeepsInv<N>(s: State<N>, n: N, waker: Waker)
    requires Inv(s) && n in s.entries
    ensures Inv(TryLock(s, n, waker).0)
    ensures TryLock(s, n, waker).1 == Panicked <==> s.entries[n].state == Done
    ensures TryLock(s, n, waker).0.entries.Keys == s.entries.Keys && TryLock(s, n, waker).0.isFair == s.isFair
    ensures TryLock(s, n, waker).1.Ready? ==> !s.isLocked && TryLock(s, n, waker).0.isLocked
    ensures !TryLock(s, n, waker).1.Ready? ==> TryLock(s, n, waker).0.isLocked == s.isLocked
  {
    hide NoLostWakeup;
    match s.entries[n].state
    case New => PollNewKeepsInv(s, n, waker);
    case Waiting => PollWaitingKeepsInv(s, n, waker);
    case Notified => PollNotifiedKeepsInv(s, n, waker);
    case Done =>
  }

  lemma PollNewKeepsInv<N>(s: State<N>, n: N, waker: Waker)
    requires Inv(s) && n in s.entries && s.entries[n].state == New
    ensures Inv(TryLock(s, n, waker).0)
  {
    if !CanLockSync(s) {
      EnqueueKeepsInv(s, n, waker);
    }
  }

  lemma PollWaitingKeepsInv<N>(s: State<N>, n: N, waker: Waker)
    requires Inv(s) && n in s.entries && s.entries[n].state == Waiting
    ensures Inv(TryLock(s, n, waker).0)
  {
    if s.isFair || s.isLocked {
      OthersKnow(s, TryLock(s, n, waker).0, n);
    } else {
      TakenOut(s.waiters, n);
    }
  }

  lemma PollNotifiedKeepsInv<N>(s: State<N>, n: N, waker: Waker)
    requires Inv(s) && n in s.entries && s.entries[n].state == Notified
    ensures Inv(TryLock(s, n, waker).0)
  {
    if s.isLocked {
      EnqueueKeepsInv(s, n, waker);
    } else {
      TakenOut(s.waiters, n);
    }
  }

  /** A change to a future that has not been notified does not take the knowledge away from the one who has. */
  lemma OthersKnow<N>(s: State<N>, r: State<N>, n: N)
    requires n in s.entries && s.entries[n].state != Notified
    requires forall m | m in s.entries && m != n :: m in r.entries && r.entries[m] == s.entries[m]
    ensures SomebodyKnows(s) ==> SomebodyKnows(r)
  {
    if SomebodyKnows(s) {
      var m :| m in s.entries && s.entries[m].state == Notified;
      assert m in r.entries && r.entries[m].state == Notified;
    }
  }

  lemma EnqueueKeepsInv<N>(s: State<N>, n: N, waker: Waker)
    requires Inv(s) && n in s.entries && n !in s.waiters
    requires s.entries[n].state == New || s.isLocked
    requires !CanLockSync(s)
    ensures Inv(Enqueue(s, n, waker))
  {
    var r := Enqueue(s, n, waker);
    assert forall m :: m in r.waiters <==> m == n || m in s.waiters;
    if !s.isLocked {
      OthersKnow(s, r, n);
    }
  }

  /** Giving up keeps the invariant and leaves the future unlinked. */
  lemma RemoveWaiterKeepsInv<N>(s: State<N>, n: N)
    requires Inv(s) && n in s.entries
    ensures Inv(RemoveWaiter(s, n).0)
    ensures RemoveWaiter(s, n).0.entries.Keys == s.entries.Keys
    ensures RemoveWaiter(s, n).0.isLocked == s.isLocked && RemoveWaiter(s, n).0.isFair == s.isFair
    ensures n !in RemoveWaiter(s, n).0.waiters && RemoveWaiter(s, n).0.entries[n].state in {New, Done}
  {
    match s.entries[n].state
    case Notified => CancelNotifiedKeepsInv(s, n);
    case Waiting => CancelWaitingKeepsInv(s, n);
    case New =>
    case Done =>
  }

  lemma CancelWaitingKeepsInv<N>(s: State<N>, n: N)
    requires Inv(s) && n in s.entries && s.entries[n].state == Waiting
    ensures Inv(RemoveWaiter(s, n).0)
    ensures n !in RemoveWaiter(s, n).0.waiters
  {
    TakenOut(s.waiters, n);
    OthersKnow(s, RemoveWaiter(s, n).0, n);
  }

  /** A notified future that gives up hands the notification on. */
  lemma CancelNotifiedKeepsInv<N>(s: State<N>, n: N)
    requires Inv(s) && n in s.entries && s.entries[n].state == Notified
    ensures Inv(RemoveWaiter(s, n).0)
    ensures n !in RemoveWaiter(s, n).0.waiters && RemoveWaiter(s, n).0.entries[n].state == Done
  {
    TakenOut(s.waiters, n);
    var t := SetEntry(if s.isFair then Unlink(s, n) else s, n, s.entries[n].(state := Done));
    assert n !in t.waiters;
    ReturnLastWaiterKeepsInv(t);
  }

  lemma NewFutureKeepsInv<N>(s: State<N>, n: N)
    requires Inv(s) && n !in s.entries
    ensures Inv(SetEntry(s, n, WaitQueueEntry(None, New)))
  {
    var r := SetEntry(s, n, WaitQueueEntry(None, New));
    assert n !in s.waiters;
    if SomebodyKnows(s) {
      var m :| m in s.entries && s.entries[m].state == Notified;
      assert m in r.entries && r.entries[m].state == Notified;
    }
  }

  /** A future that is neither queued nor notified leaves nothing behind. */
  lemma ForgetKeepsInv<N>(s: State<N>, n: N)
    requires Inv(s) && n in s.entries && n !in s.waiters && s.entries[n].state != Notified
    ensures Inv(Forget(s, n))
  {
    OthersKnow(s, Forget(s, n), n);
  }

  lemma DropKeepsInv<N>(s: State<N>, n: N)
    requires Inv(s) && n in s.entries
    ensures Inv(Dropped(s, n).0) && n !in Dropped(s, n).0.waiters
    ensures Dropped(s, n).0.entries.Keys == s.entries.Keys - {n}
    ensures Dropped(s, n).0.isLocked == s.isLocked && Dropped(s, n).0.isFair == s.isFair
  {
    hide RemoveWaiter;
    RemoveWaiterKeepsInv(s, n);
    ForgetKeepsInv(RemoveWaiter(s, n).0, n);
  }

  /** A future that has finished is done, and out of the queue. */
  lemma ReadyIsDone<N>(s: State<N>, n: N, waker: Waker)
    requires Inv(s) && n in s.entries && TryLock(s, n, waker).1.Ready?
    ensures var r := TryLock(s, n, waker).0; n in r.entries && r.entries[n].state == Done && n !in r.waiters
  {
    TryLockKeepsInv(s, n, waker);
    assert TryLock(s, n, waker).0.entries[n].state == Done;
    hide NoLostWakeup, FairNotification;
  }

  /** Polling keeps the invariant also if it detaches the future. */
  lemma PolledKeepsInv<N>(s: State<N>, n: N, waker: Waker)
    requires Inv(s) && n in s.entries
    ensures Inv(Polled(s, n, waker).0)
    ensures Polled(s, n, waker).1 == Panicked <==> s.entries[n].state == Done
    ensures Polled(s, n, waker).0.entries.Keys == s.entries.Keys - if Polled(s, n, waker).1.Ready? then {n} else {}
    ensures Polled(s, n, waker).0.isFair == s.isFair
    ensures if Polled(s, n, waker).1.Ready? then !s.isLocked && Polled(s, n, waker).0.isLocked
      else Polled(s, n, waker).0.isLocked == s.isLocked
  {
    hide TryLock;
    TryLockKeepsInv(s, n, waker);
    if TryLock(s, n, waker).1.Ready? {
      ReadyIsDone(s, n, waker);
      ForgetKeepsInv(TryLock(s, n, waker).0, n);
    }
  }

  // ---- Runs ----

  /**
   * A mutex with everything attached to it: the number of live guards, the wake-up calls, and the history of who
   * asked first, who got the lock in which order, and who gave up while waiting.
   */
  datatype World<N> = World(
    s: State<N>,
    guards: nat,
    wakes: seq<Waker>,
    used: set<N>,
    arrivals: seq<N>,
    grants: seq<N>,
    cancelled: set<N>)

  datatype Op<N> =
    | Lock(n: N)
    | PollFuture(n: N, waker: Waker)
    | DropFuture(n: N)
    | TryLockNow(n: N)
    | DropGuard

  ghost function Start<N>(isFair: bool): World<N> {
    World(State(isFair, false, [], map[]), 0, [], {}, [], [], {})
  }

  ghost predicate Enabled<N>(w: World<N>, op: Op<N>) {
    match op
    case Lock(n) => n !in w.used
    case PollFuture(n, _) => n in w.s.entries && w.s.entries[n].state != Done
    case DropFuture(n) => n in w.s.entries
    case TryLockNow(n) => n !in w.used
    case DropGuard => w.guards > 0
  }

  ghost function Step<N>(w: World<N>, op: Op<N>): World<N>
    requires Inv(w.s)
  {
    if !Enabled(w, op) then w else
    match op
    case Lock(n) =>
      w.(s := SetEntry(w.s, n, WaitQueueEntry(None, New)), used := w.used + {n})
    case PollFuture(n, waker) =>
      var (s, result) := Polled(w.s, n, waker);
      var w' := w.(s := s, arrivals := if w.s.entries[n].state == New then w.arrivals + [n] else w.arrivals);
      if result.Ready? then w'.(guards := w.guards + 1, grants := w.grants + [n]) else w'
    case DropFuture(n) =>
      var (s, task) := Dropped(w.s, n);
      w.(s := s,
         wakes := w.wakes + Woken(task),
         cancelled := if w.s.entries[n].state in {Waiting, Notified} then w.cancelled + {n} else w.cancelled)
    case TryLockNow(n) =>
      var (s, locked) := TryLockSync(w.s);
      if locked
      then w.(s := s, guards := w.guards + 1, used := w.used + {n},
              arrivals := w.arrivals + [n], grants := w.grants + [n])
      else w
    case DropGuard =>
      var (s, task) := Unlock(w.s);
      w.(s := s, guards := w.guards - 1, wakes := w.wakes + Woken(task))
  }

  lemma ExecStep<N>(isFair: bool, ops: seq<Op<N>>, op: Op<N>)
    ensures Exec(isFair, ops + [op]) == Step(Exec(isFair, ops), op)
  {
    assert DropLast(ops + [op]) == ops;
  }

  /** Finished futures are detached. */
  ghost predicate NobodyDone<N>(s: State<N>) {
    forall n | n in s.entries :: s.entries[n].state != Done
  }

  ghost predicate WorldInv<N>(w: World<N>) {
    && Inv(w.s)
    && NobodyDone(w.s)
    && w.s.entries.Keys <= w.used
    // Mutual exclusion: a guard exists exactly while the mutex is locked, and never more than one.
    && w.guards == (if w.s.isLocked then 1 else 0)
  }

  /** The state after a run; operations that the API does not offer at that point are skipped. */
  ghost function Exec<N>(isFair: bool, ops: seq<Op<N>>): (w: World<N>)
    ensures WorldInv(w)
    ensures w.s.isFair == isFair
  {
    if ops == [] then Start(isFair)
    else
      var w := Exec(isFair, DropLast(ops));
      StepKeepsWorldInv(w, Last(ops));
      Step(w, Last(ops))
  }

  lemma StepKeepsWorldInv<N>(w: World<N>, op: Op<N>)
    requires WorldInv(w)
    ensures WorldInv(Step(w, op)) && Step(w, op).s.isFair == w.s.isFair
  {
    hide Inv, Polled, Dropped;
    if Enabled(w, op) {
      match op
      case Lock(n) => NewFutureKeepsInv(w.s, n);
      case PollFuture(n, waker) =>
        PolledKeepsInv(w.s, n, waker);
        PolledIsDetached(w.s, n, waker);
      case DropFuture(n) =>
        DropKeepsInv(w.s, n);
        DroppedIsDetached(w.s, n);
      case TryLockNow(n) => TryLockSyncKeepsInv(w.s);
      case DropGuard => UnlockKeepsInv(w.s);
    }
  }

  lemma PolledIsDetached<N>(s: State<N>, n: N, waker: Waker)
    requires Inv(s) && NobodyDone(s) && n in s.entries
    ensures NobodyDone(Polled(s, n, waker).0)
  {
  }

  lemma DroppedIsDetached<N>(s: State<N>, n: N)
    requires Inv(s) && NobodyDone(s) && n in s.entries
    ensures NobodyDone(Dropped(s, n).0)
  {
  }

  lemma TryLockSyncKeepsInv<N>(s: State<N>)
    requires Inv(s)
    ensures Inv(TryLockSync(s).0)
  {
  }

  /** A future that waits either goes on waiting undisturbed, or is notified and its task is called at that moment. */
  lemma NobodyIsReleasedSilently<N>(w: World<N>, op: Op<N>, n: N)
    requires WorldInv(w) && n in w.s.entries && w.s.entries[n].state == Waiting
    requires !(op.PollFuture? && op.n == n) && op != DropFuture(n)
    ensures var w' := Step(w, op);
      && w.wakes <= w'.wakes && n in w'.s.entries
      && (w'.s.entries[n] == w.s.entries[n] ||
        (w'.s.entries[n].state == Notified && w.s.entries[n].task.value in w'.wakes[|w.wakes|..]))
  {
    var w' := Step(w, op);
    if w'.wakes != w.wakes {
      assert w'.wakes[|w.wakes|..] == [Last(w'.wakes)];
    }
  }
}
