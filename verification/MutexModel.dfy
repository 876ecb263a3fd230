/** The mutex as a state machine on values, and what every run of it keeps. */
module MutexModel {
  import opened Collections

  datatype PollState = New | Waiting | Notified | Done

  datatype WaitQueueEntry = WaitQueueEntry(task: Option<Waker>, state: PollState)

  /** The locked state with the entries of all live lock futures. New waiters join `waiters` at the front. */
  datatype State<N> = State(
    isFair: bool,
    isLocked: bool,
    waiters: seq<N>,
    entries: map<N, WaitQueueEntry>)

  ghost predicate Linked<N>(s: State<N>) {
    forall n | n in s.waiters :: n in s.entries
  }

  ghost function SetEntry<N>(s: State<N>, n: N, e: WaitQueueEntry): State<N> {
    s.(entries := s.entries[n := e])
  }

  /** Notifies the oldest waiter and hands its waker out; an unfair mutex also takes it off the queue. */
  ghost function ReturnLastWaiter<N>(s: State<N>): (r: (State<N>, Option<Waker>))
    requires Linked(s)
    ensures r.0.entries.Keys == s.entries.Keys
  {
    if s.waiters == [] then (s, None)
    else
      var n := Last(s.waiters);
      var s' := if s.isFair then s else s.(waiters := DropLast(s.waiters));
      (SetEntry(s', n, WaitQueueEntry(None, Notified)), s.entries[n].task)
  }

  ghost function Unlock<N>(s: State<N>): (State<N>, Option<Waker>)
    requires Linked(s)
  {
    if s.isLocked then ReturnLastWaiter(s.(isLocked := false)) else (s, None)
  }

  ghost predicate CanLockSync<N>(s: State<N>) {
    !s.isLocked && (!s.isFair || s.waiters == [])
  }

  ghost function TryLockSync<N>(s: State<N>): (State<N>, bool) {
    if CanLockSync(s) then (s.(isLocked := true), true) else (s, false)
  }

  ghost function Enqueue<N>(s: State<N>, n: N, waker: Waker): State<N> {
    SetEntry(s, n, WaitQueueEntry(Some(waker), Waiting)).(waiters := [n] + s.waiters)
  }

  ghost function Unlink<N>(s: State<N>, n: N): State<N> {
    s.(waiters := Without(s.waiters, n))
  }

  ghost function TryLock<N>(s: State<N>, n: N, waker: Waker): (State<N>, Poll<()>)
    requires n in s.entries
  {
    var e := s.entries[n];
    match e.state
    case New =>
      var (s', locked) := TryLockSync(s);
      if locked then (SetEntry(s', n, e.(state := Done)), Ready(())) else (Enqueue(s, n, waker), Pending)
    case Waiting =>
      if s.isFair || s.isLocked then (SetEntry(s, n, e.(task := UpdateWakerRef(e.task, waker))), Pending)
      else (SetEntry(Unlink(s, n), n, e.(state := Done)).(isLocked := true), Ready(()))
    case Notified =>
      if s.isLocked then
        if s.isFair then (s, Panicked) else (Enqueue(s, n, waker), Pending)
      else
        (SetEntry(if s.isFair then Unlink(s, n) else s, n, e.(state := Done)).(isLocked := true), Ready(()))
    case Done => (s, Panicked)
  }

  ghost function RemoveWaiter<N>(s: State<N>, n: N): (State<N>, Option<Waker>)
    requires Linked(s) && n in s.entries
  {
    var e := s.entries[n].(state := Done);
    UnlinkMembers(s, n);
    match s.entries[n].state
    case Notified => ReturnLastWaiter(SetEntry(if s.isFair then Unlink(s, n) else s, n, e))
    case Waiting => (SetEntry(Unlink(s, n), n, e), None)
    case New | Done => (s, None)
  }

  /** A future that has finished is not part of the mutex any more. */
  ghost function Forget<N>(s: State<N>, n: N): State<N> {
    s.(entries := s.entries - {n})
  }

  /** Polling a future, which detaches it when it is ready. */
  ghost function Polled<N>(s: State<N>, n: N, waker: Waker): (State<N>, Poll<()>)
    requires n in s.entries
  {
    var (r, result) := TryLock(s, n, waker);
    (if result.Ready? then Forget(r, n) else r, result)
  }

  /** Dropping a future that has not finished; the waker of the next in line is handed out. */
  ghost function Dropped<N>(s: State<N>, n: N): (State<N>, Option<Waker>)
    requires Linked(s) && n in s.entries
  {
    var (r, task) := RemoveWaiter(s, n);
    (Forget(r, n), task)
  }

  lemma UnlinkMembers<N>(s: State<N>, n: N)
    ensures forall m | m in s.waiters :: m in Unlink(s, n).waiters <==> m != n
    ensures forall m | m in Unlink(s, n).waiters :: m in s.waiters && m != n
  {
    WithoutMembers(s.waiters, n);
  }

  // ---- The invariant ----

  ghost predicate Queued<N>(s: State<N>, n: N)
    requires n in s.entries
  {
    s.entries[n].state == Waiting || (s.isFair && s.entries[n].state == Notified)
  }

  ghost predicate WellFormed<N>(s: State<N>) {
    && NoDup(s.waiters)
    && Linked(s)
    && (forall n | n in s.entries :: n in s.waiters <==> Queued(s, n))
    && (forall n | n in s.entries && s.entries[n].state == Waiting :: s.entries[n].task.Some?)
  }

  /** A fair mutex notifies nobody but the oldest waiter, and only while it is unlocked. */
  ghost predicate FairNotification<N>(s: State<N>) {
    forall n | n in s.entries && s.isFair && s.entries[n].state == Notified ::
      !s.isLocked && s.waiters != [] && n == Last(s.waiters)
  }

  ghost predicate SomebodyKnows<N>(s: State<N>) {
    exists n :: n in s.entries && s.entries[n].state == Notified
  }

  /** While the mutex is free and somebody queues for it, some future has been told to come and get it. */
  ghost predicate NoLostWakeup<N>(s: State<N>) {
    !s.isLocked && s.waiters != [] ==> SomebodyKnows(s)
  }

  ghost predicate Inv<N>(s: State<N>) {
    WellFormed(s) && FairNotification(s) && NoLostWakeup(s)
  }

  /** On a fair mutex the one who has been told is the oldest waiter. */
  lemma FairOldestKnows<N>(s: State<N>)
    requires Inv(s) && s.isFair && s.waiters != []
    ensures Last(s.waiters) in s.entries
    ensures s.entries[Last(s.waiters)].state == Notified <==> !s.isLocked
  {
    assert Last(s.waiters) in s.waiters;
  }

  /** Where a future stands can be told from its state. */
  lemma StateTellsQueued<N>(s: State<N>, n: N)
    requires Inv(s) && n in s.entries
    ensures n in s.waiters <==> Queued(s, n)
    ensures s.isFair && s.entries[n].state == Notified ==> !s.isLocked
  {
  }

  lemma ReturnLastWaiterKeepsInv<N>(s: State<N>)
    requires WellFormed(s)
    requires s.isFair ==> !s.isLocked && forall n | n in s.entries :: s.entries[n].state != Notified
    ensures Inv(ReturnLastWaiter(s).0)
    ensures forall n | n in s.entries && n !in s.waiters ::
      ReturnLastWaiter(s).0.entries[n] == s.entries[n] && n !in ReturnLastWaiter(s).0.waiters
  {
    if s.waiters != [] {
      InDropLast(s.waiters);
      var n := Last(s.waiters);
      assert n in s.waiters;
      var r := ReturnLastWaiter(s).0;
      assert n in r.entries && r.entries[n].state == Notified;
    }
  }

  lemma UnlockKeepsInv<N>(s: State<N>)
    requires Inv(s)
    ensures Inv(Unlock(s).0) && !Unlock(s).0.isLocked
    ensures Unlock(s).0.entries.Keys == s.entries.Keys && Unlock(s).0.isFair == s.isFair
  {
    if s.isLocked {
      ReturnLastWaiterKeepsInv(s.(isLocked := false));
    }
  }
}
