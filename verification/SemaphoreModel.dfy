/** The semaphore as a state machine on values: one function for each operation that runs under the lock. */
module SemaphoreModel {
  import opened Collections

  datatype PollState = New | Waiting | Notified | Done

  datatype WaitQueueEntry = WaitQueueEntry(task: Option<Waker>, state: PollState, requiredPermits: nat)

  /**
   * The state that the lock protects, together with the wait queue entries of all live acquire futures.
   * New waiters join `waiters` at the front, so the oldest one is the last.
   */
  datatype State<N> = State(
    isFair: bool,
    permits: nat,
    waiters: seq<N>,
    entries: map<N, WaitQueueEntry>,
    wakes: seq<Waker>)

  ghost predicate Linked<N>(s: State<N>) {
    forall n | n in s.waiters :: n in s.entries
  }

  ghost function SetState<N>(s: State<N>, n: N, state: PollState): State<N>
    requires n in s.entries
  {
    s.(entries := s.entries[n := s.entries[n].(state := state)])
  }

  ghost function SetTask<N>(s: State<N>, n: N, task: Option<Waker>): State<N>
    requires n in s.entries
  {
    s.(entries := s.entries[n := s.entries[n].(task := task)])
  }

  /** Marks a waiter as notified and wakes it, unless that has happened already. */
  ghost function Notify<N>(s: State<N>, n: N): State<N>
    requires n in s.entries
  {
    if s.entries[n].state == Notified then s
    else SetState(s, n, Notified).(wakes := s.wakes + Woken(s.entries[n].task))
  }

  ghost function WakeLoop<N>(s: State<N>, available: nat): (r: State<N>)
    requires Linked(s)
    ensures Linked(r) && |r.waiters| <= |s.waiters|
    ensures r.isFair == s.isFair && r.permits == s.permits && r.entries.Keys == s.entries.Keys
    ensures forall n | n in s.entries :: r.entries[n].requiredPermits == s.entries[n].requiredPermits
    ensures forall n | n in s.entries :: r.entries[n].state == s.entries[n].state || r.entries[n].state == Notified
    decreases |s.waiters|
  {
    if s.waiters == [] then s
    else
      var n := Last(s.waiters);
      var required := s.entries[n].requiredPermits;
      if available < required then s
      else if s.isFair then Notify(s, n)
      else WakeLoop(Notify(s, n).(waiters := DropLast(s.waiters)), available - required)
  }

  /** One round of the wake-up loop. */
  lemma WakeLoopRound<N>(s: State<N>, available: nat)
    requires Linked(s)
    ensures s.waiters == [] ==> WakeLoop(s, available) == s
    ensures s.waiters != [] ==>
      var n := Last(s.waiters);
      var required := s.entries[n].requiredPermits;
      && (available < required ==> WakeLoop(s, available) == s)
      && (required <= available && s.isFair ==> WakeLoop(s, available) == Notify(s, n))
      && (required <= available && !s.isFair ==>
        var t := Notify(s, n).(waiters := DropLast(s.waiters));
        Linked(t) && WakeLoop(s, available) == WakeLoop(t, available - required))
  {
  }

  ghost function WakeupWaiters<N>(s: State<N>): State<N>
    requires Linked(s)
  {
    WakeLoop(s, s.permits)
  }

  ghost function Release<N>(s: State<N>, permits: nat): State<N>
    requires Linked(s)
  {
    if permits == 0 then s else WakeupWaiters(s.(permits := s.permits + permits))
  }

  ghost predicate CanAcquireSync<N>(s: State<N>, required: nat) {
    required <= s.permits && (!s.isFair || s.waiters == [] || required == 0)
  }

  ghost function TryAcquireSync<N>(s: State<N>, required: nat): (State<N>, bool) {
    if CanAcquireSync(s, required) then (s.(permits := s.permits - required), true) else (s, false)
  }

  /** Puts a future into the wait queue, remembering whom to wake. */
  ghost function Enqueue<N>(s: State<N>, n: N, waker: Waker): State<N>
    requires n in s.entries
  {
    SetState(SetTask(s, n, Some(waker)), n, Waiting).(waiters := [n] + s.waiters)
  }

  ghost function Unlink<N>(s: State<N>, n: N): State<N> {
    s.(waiters := Without(s.waiters, n))
  }

  ghost function TryAcquire<N>(s: State<N>, n: N, waker: Waker): (State<N>, Poll<()>)
    requires Linked(s) && n in s.entries
  {
    var e := s.entries[n];
    match e.state
    case New =>
      var (s', acquired) := TryAcquireSync(s, e.requiredPermits);
      if acquired then (SetState(s', n, Done), Ready(())) else (Enqueue(s, n, waker), Pending)
    case Waiting =>
      if s.isFair || s.permits < e.requiredPermits then (SetTask(s, n, UpdateWakerRef(e.task, waker)), Pending)
      else (SetState(Unlink(s, n), n, Done).(permits := s.permits - e.requiredPermits), Ready(()))
    case Notified =>
      if s.permits < e.requiredPermits then
        if s.isFair then (s, Panicked) else (Enqueue(s, n, waker), Pending)
      else
        var s' := (if s.isFair then Unlink(s, n) else s).(permits := s.permits - e.requiredPermits);
        UnlinkLinked(s, n);
        (SetState(if s.isFair then WakeupWaiters(s') else s', n, Done), Ready(()))
    case Done => (s, Panicked)
  }

  ghost function RemoveWaiter<N>(s: State<N>, n: N): State<N>
    requires Linked(s) && n in s.entries
  {
    UnlinkLinked(s, n);
    match s.entries[n].state
    case Notified => WakeupWaiters(SetState(if s.isFair then Unlink(s, n) else s, n, Done))
    case Waiting => SetState(Unlink(s, n), n, Done)
    case New | Done => s
  }

  /** A future that has finished is not part of the semaphore any more. */
  ghost function Forget<N>(s: State<N>, n: N): State<N> {
    s.(entries := s.entries - {n})
  }

  /** Polling a future, which detaches it when it is ready. */
  ghost function Polled<N>(s: State<N>, n: N, waker: Waker): (State<N>, Poll<()>)
    requires Linked(s) && n in s.entries
  {
    var (r, result) := TryAcquire(s, n, waker);
    (if result.Ready? then Forget(r, n) else r, result)
  }

  /** Dropping a future that has not finished. */
  ghost function Dropped<N>(s: State<N>, n: N): State<N>
    requires Linked(s) && n in s.entries
  {
    Forget(RemoveWaiter(s, n), n)
  }

  lemma UnlinkLinked<N>(s: State<N>, n: N)
    requires Linked(s)
    ensures Linked(Unlink(s, n))
  {
    forall m | m in Without(s.waiters, n)
      ensures m in s.entries
    {
      InWithout(s.waiters, n, m);
    }
  }
}
