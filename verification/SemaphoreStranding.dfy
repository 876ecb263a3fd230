/** Runs in which requests of different sizes lose a wake-up: every way in which that can happen does happen. */
module SemaphoreStranding {
  import opened Collections
  import opened SemaphoreModel
  import opened SemaphoreInvariants
  import opened SemaphoreRuns
  import opened SemaphoreWakeups
  import opened SemaphoreReservations

  lemma ExecPoll<N>(isFair: bool, permits: nat, ops: seq<Op<N>>, n: N, waker: Waker)
    requires var s := Exec(isFair, permits, ops).s; n in s.entries && s.entries[n].state != Done
    ensures Exec(isFair, permits, ops + [PollFuture(n, waker)]).s ==
      Polled(Exec(isFair, permits, ops).s, n, waker).0
  {
    ExecStep(isFair, permits, ops, PollFuture(n, waker));
  }

  lemma ExecRelease<N>(isFair: bool, permits: nat, ops: seq<Op<N>>, released: nat)
    ensures Exec(isFair, permits, ops + [ReleaseByHand(released)]).s == Release(Exec(isFair, permits, ops).s, released)
  {
    ExecStep(isFair, permits, ops, ReleaseByHand(released));
  }

  lemma ExecStart<N>(isFair: bool, permits: nat)
    ensures Exec<N>(isFair, permits, []).s == State(isFair, permits, [], map[], [])
    ensures Exec<N>(isFair, permits, []).used == {}
  {
  }

  function Request<N>(n: N, permits: nat, waker: Waker): seq<Op<N>> {
    [Acquire(n, permits), PollFuture(n, waker)]
  }

  /** A future that asks for more than there is joins the queue. */
  lemma RequestWaits<N>(isFair: bool, permits: nat, ops: seq<Op<N>>, n: N, required: nat, waker: Waker)
    requires n !in Exec(isFair, permits, ops).used
    requires var s := Exec(isFair, permits, ops).s;
      required > 0 && (s.permits < required || (isFair && s.waiters != []))
    ensures var w, w' := Exec(isFair, permits, ops), Exec(isFair, permits, ops + Request(n, required, waker));
      && w'.s == w.s.(
        waiters := [n] + w.s.waiters,
        entries := w.s.entries[n := WaitQueueEntry(Some(waker), Waiting, required)])
      && w'.used == w.used + {n}
  {
    hide Exec, WellFormed, NotifiedIsServable;
    var ops' := ops + [Acquire(n, required)];
    ExecStep(isFair, permits, ops, Acquire(n, required));
    ExecStep(isFair, permits, ops', PollFuture(n, waker));
    assert ops + Request(n, required, waker) == ops' + [PollFuture(n, waker)];
  }

  /** A fair run that strands a waiter: a permit is free, but the waiter was not told and polling does not help it. */
  lemma FairMixedRequestsCanStrand(waker: Waker)
    ensures exists ops: seq<Op<nat>> ::
      var s := Exec(true, 1, ops).s;
      && !OldestIsServed(s)
      && 1 in s.entries && TryAcquire(s, 1, waker).1 == Pending
  {
    hide Exec, WellFormed, NotifiedIsServable;
    ExecStart<nat>(true, 1);
    var o1 := [] + Request<nat>(0, 2, waker);
    var o2 := o1 + Request<nat>(1, 1, waker);
    var o3 := o2 + [DropFuture(0)];
    RequestWaits<nat>(true, 1, [], 0, 2, waker);
    RequestWaits<nat>(true, 1, o1, 1, 1, waker);
    ExecStep<nat>(true, 1, o2, DropFuture(0));
    assert Exec(true, 1, o2).s.waiters == [1, 0];
    assert Without([1, 0], 0) == [1];
    assert Exec(true, 1, o3).s.waiters == [1];
  }

  function Entry(waker: Waker, state: PollState, required: nat): WaitQueueEntry {
    WaitQueueEntry(Some(waker), state, required)
  }

  /** An unfair semaphore in a certain situation. */
  ghost predicate Looks(s: State<nat>, permits: nat, waiters: seq<nat>, entries: map<nat, WaitQueueEntry>) {
    !s.isFair && s.permits == permits && s.waiters == waiters && s.entries == entries
  }

  /** An unfair semaphore with few permits on which 0 waits for `more` and then 1 for `less` of them. */
  lemma UnfairPair(permits: nat, more: nat, less: nat, waker: Waker) returns (ops: seq<Op<nat>>)
    requires permits < more && permits < less
    ensures Exec(false, permits, ops).used == {0, 1}
    ensures Looks(Exec(false, permits, ops).s, permits, [1, 0],
      map[0 := Entry(waker, Waiting, more), 1 := Entry(waker, Waiting, less)])
  {
    hide Exec, Inv, WorldInv, Step, TryAcquire, Request;
    ExecStart<nat>(false, permits);
    var o1 := [] + Request<nat>(0, more, waker);
    ops := o1 + Request<nat>(1, less, waker);
    RequestWaits<nat>(false, permits, [], 0, more, waker);
    assert Exec(false, permits, o1).s.waiters == [0];
    RequestWaits<nat>(false, permits, o1, 1, less, waker);
  }

  /** An unfair semaphore without permits on which 0 waits for two permits and 1 and 2 for one each. */
  lemma UnfairPrefix(waker: Waker) returns (ops: seq<Op<nat>>)
    ensures Looks(Exec(false, 0, ops).s, 0, [2, 1, 0],
      map[0 := Entry(waker, Waiting, 2), 1 := Entry(waker, Waiting, 1), 2 := Entry(waker, Waiting, 1)])
  {
    hide Exec, Inv, WorldInv, Step, TryAcquire, Request;
    var o2 := UnfairPair(0, 2, 1, waker);
    ops := o2 + Request<nat>(2, 1, waker);
    RequestWaits<nat>(false, 0, o2, 2, 1, waker);
    assert [2] + [1, 0] == [2, 1, 0];
  }

  /** Releasing two permits there notifies 0 and nobody else. */
  lemma UnfairReleaseTwo(s: State<nat>, waker: Waker)
    requires Looks(s, 0, [2, 1, 0],
      map[0 := Entry(waker, Waiting, 2), 1 := Entry(waker, Waiting, 1), 2 := Entry(waker, Waiting, 1)])
    ensures Linked(s) && Looks(Release(s, 2), 2, [2, 1],
      map[0 := Entry(waker, Notified, 2), 1 := Entry(waker, Waiting, 1), 2 := Entry(waker, Waiting, 1)])
  {
    var t := s.(permits := 2);
    var u := Notify(t, 0).(waiters := [2, 1]);
    assert DropLast(t.waiters) == [2, 1];
    assert WakeLoop(t, 2) == WakeLoop(u, 0);
    assert WakeLoop(u, 0) == u;
  }

  /** Polling 2 again takes one of the permits that 0 had been notified for. */
  lemma UnfairBarging(s: State<nat>, waker: Waker)
    requires Looks(s, 2, [2, 1],
      map[0 := Entry(waker, Notified, 2), 1 := Entry(waker, Waiting, 1), 2 := Entry(waker, Waiting, 1)])
    ensures Linked(s) && Looks(Polled(s, 2, waker).0, 1, [1],
      map[0 := Entry(waker, Notified, 2), 1 := Entry(waker, Waiting, 1)])
  {
    assert Without([2, 1], 2) == [1];
  }

  /** The notified future finds too few permits and queues up again, behind a waiter that one permit would do for. */
  lemma UnfairRequeue(s: State<nat>, waker: Waker)
    requires Looks(s, 1, [1], map[0 := Entry(waker, Notified, 2), 1 := Entry(waker, Waiting, 1)])
    ensures Linked(s) && Looks(Polled(s, 0, waker).0, 1, [0, 1],
      map[0 := Entry(waker, Waiting, 2), 1 := Entry(waker, Waiting, 1)])
  {
  }

  /**
   * An unfair run that loses a wake-up: a waiter that is polled again takes a permit that another had been notified
   * for, and the notified one then queues up behind a waiter that would fit.
   */
  lemma UnfairMixedRequestsCanStrand(waker: Waker)
    ensures exists ops: seq<Op<nat>> ::
      var s := Exec(false, 0, ops).s;
      && !OldestIsServed(s)
      && NotifiedSet(s) == {}
  {
    hide Exec, Step, WellFormed, NotifiedIsServable, Release, TryAcquire;
    var o6 := UnfairPrefix(waker);
    var o7 := o6 + [ReleaseByHand(2)];
    var o8 := o7 + [PollFuture(2, waker)];
    var o9 := o8 + [PollFuture(0, waker)];
    ExecRelease<nat>(false, 0, o6, 2);
    UnfairReleaseTwo(Exec(false, 0, o6).s, waker);
    ExecPoll<nat>(false, 0, o7, 2, waker);
    UnfairBarging(Exec(false, 0, o7).s, waker);
    ExecPoll<nat>(false, 0, o8, 0, waker);
    UnfairRequeue(Exec(false, 0, o8).s, waker);
    assert Last(Exec(false, 0, o9).s.waiters) == 1;
  }

  /** Where 0 waits for three permits and 1 for two, releasing a second permit notifies nobody. */
  lemma UnfairReleaseOne(s: State<nat>, waker: Waker)
    requires Looks(s, 1, [1, 0], map[0 := Entry(waker, Waiting, 3), 1 := Entry(waker, Waiting, 2)])
    ensures Linked(s) && Looks(Release(s, 1), 2, [1, 0],
      map[0 := Entry(waker, Waiting, 3), 1 := Entry(waker, Waiting, 2)])
  {
  }

  /** If 0 gives up then, 1 is the oldest waiter, and its request fits. */
  lemma UnfairCancel(s: State<nat>, waker: Waker)
    requires Looks(s, 2, [1, 0], map[0 := Entry(waker, Waiting, 3), 1 := Entry(waker, Waiting, 2)])
    ensures Linked(s) && Looks(Dropped(s, 0), 2, [1], map[1 := Entry(waker, Waiting, 2)])
    ensures Overlooks(s, DropFuture(0))
  {
    assert Without([1, 0], 0) == [1];
    assert NotifiedSet(s) == {};
  }

  /** The other way on an unfair semaphore: the oldest waiter gives up in front of one that fits. */
  lemma UnfairCancellationCanStrand(waker: Waker)
    ensures exists ops: seq<Op<nat>> ::
      var s := Exec(false, 1, ops).s;
      && Overlooks(s, DropFuture(0))
      && var t := Exec(false, 1, ops + [DropFuture(0)]).s;
      && !OldestIsServed(t) && NotifiedSet(t) == {}
  {
    hide Exec, Step, WellFormed, NotifiedIsServable, Release, TryAcquire, Overlooks;
    var o2 := UnfairPair(1, 3, 2, waker);
    var o3 := o2 + [ReleaseByHand(1)];
    ExecRelease<nat>(false, 1, o2, 1);
    UnfairReleaseOne(Exec(false, 1, o2).s, waker);
    UnfairCancel(Exec(false, 1, o3).s, waker);
    ExecDrop<nat>(false, 1, o3, 0);
    assert Last(Exec(false, 1, o3 + [DropFuture(0)]).s.waiters) == 1;
  }

  lemma ExecDrop<N>(isFair: bool, permits: nat, ops: seq<Op<N>>, n: N)
    requires n in Exec(isFair, permits, ops).s.entries
    ensures Exec(isFair, permits, ops + [DropFuture(n)]).s == Dropped(Exec(isFair, permits, ops).s, n)
  {
    ExecStep(isFair, permits, ops, DropFuture(n));
  }
}
