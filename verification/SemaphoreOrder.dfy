/** The order in which a semaphore notifies its waiters: in both modes, in the order in which they have queued up. */
module SemaphoreOrder {
  import opened Collections
  import opened Registrations
  import opened SemaphoreModel
  import opened SemaphoreInvariants
  import opened SemaphoreRuns

  /** Whoever is notified on the way from `s` to `t` was queued behind nobody who is still waiting. */
  ghost predicate OldestNotified<N>(s: State<N>, t: State<N>) {
    forall m, n | m in s.entries && s.entries[m].state == Waiting && m in t.entries && t.entries[m].state == Waiting
      && n in s.entries && s.entries[n].state == Waiting && n in t.entries && t.entries[n].state == Notified ::
      Before(s.waiters, m, n)
  }

  /** Waking takes nobody out of the queue of a fair semaphore, and the oldest waiters out of that of an unfair one. */
  lemma WakeTakesOldEnd<N>(s: State<N>, available: nat)
    requires WellFormed(s)
    ensures WakeLoop(s, available).waiters <= s.waiters
    ensures s.isFair ==> WakeLoop(s, available).waiters == s.waiters
  {
    hide WakeLoop;
    WakeLoopRound(s, available);
    if !s.isFair {
      WakeTakesOldest(s, available);
    }
  }

  lemma WakeNotifiesOldest<N>(s: State<N>, available: nat)
    requires WellFormed(s)
    ensures OldestNotified(s, WakeLoop(s, available))
  {
    hide WakeLoop;
    var t := WakeLoop(s, available);
    WakeTakesOldEnd(s, available);
    WakeLoopRound(s, available);
    WakeKeepsWellFormed(s, available);
    forall m, n | m in s.entries && s.entries[m].state == Waiting && m in t.entries && t.entries[m].state == Waiting
      && n in s.entries && s.entries[n].state == Waiting && n in t.entries && t.entries[n].state == Notified
      ensures Before(s.waiters, m, n)
    {
      if s.isFair {
        assert n == Last(s.waiters) && m in s.waiters;
        assert s.waiters[IndexOf(s.waiters, m)] == m;
      } else {
        BeforeOldEnd(s.waiters, t.waiters, m, n);
      }
    }
  }

  // ---- Single operations ----

  ghost predicate KeepsOrder<N>(s: State<N>, t: State<N>) {
    Follows(s.waiters, t.waiters) && OldestNotified(s, t)
  }

  lemma ReleaseKeepsOrder<N>(s: State<N>, permits: nat)
    requires Inv(s)
    ensures KeepsOrder(s, Release(s, permits))
  {
    hide WakeLoop, Follows;
    StayingFollows(s.waiters);
    if permits > 0 {
      var t := s.(permits := s.permits + permits);
      WakeFollows(t, t.permits);
      WakeNotifiesOldest(t, t.permits);
    }
  }

  lemma WakeFollows<N>(s: State<N>, available: nat)
    requires WellFormed(s)
    ensures Follows(s.waiters, WakeLoop(s, available).waiters)
  {
    hide WakeLoop, Follows;
    var r := WakeLoop(s, available).waiters;
    WakeTakesOldEnd(s, available);
    OldestLeavingFollows(s.waiters, |r|);
    assert r == s.waiters[..|r|];
  }

  /** Somebody leaves the queue before the others are woken. */
  lemma LeavingAndWaking<N>(s: State<N>, u: State<N>, n: N)
    requires WellFormed(s) && WellFormed(u) && u.waiters == Without(s.waiters, n)
    requires forall m | m in s.entries && m != n :: m in u.entries && u.entries[m] == s.entries[m]
    ensures KeepsOrder(s, Forget(WakeLoop(u, u.permits), n))
  {
    hide WakeLoop, Follows, Before;
    var t := WakeLoop(u, u.permits);
    LeavingFollows(s.waiters, n);
    WithoutMembers(s.waiters, n);
    WakeFollows(u, u.permits);
    WakeTakesOldEnd(u, u.permits);
    FollowsOn(s.waiters, u.waiters, t.waiters);
    WakeNotifiesOldest(u, u.permits);
    forall x, y | Before(u.waiters, x, y)
      ensures Before(s.waiters, x, y)
    {
      BeforeWithout(s.waiters, n, x, y);
    }
  }

  lemma DropKeepsOrder<N>(s: State<N>, n: N)
    requires Inv(s) && n in s.entries
    ensures KeepsOrder(s, Dropped(s, n))
  {
    hide WakeLoop, Follows;
    UnlinkLinked(s, n);
    if s.entries[n].state == Notified {
      NotifiedDropKeepsOrder(s, n);
    } else {
      StayingFollows(s.waiters);
      LeavingFollows(s.waiters, n);
    }
  }

  lemma NotifiedDropKeepsOrder<N>(s: State<N>, n: N)
    requires Inv(s) && n in s.entries && s.entries[n].state == Notified
    ensures KeepsOrder(s, Dropped(s, n))
  {
    hide WakeLoop, KeepsOrder;
    InUnlink(s, n);
    UnlinkLinked(s, n);
    var u := SetState(if s.isFair then Unlink(s, n) else s, n, Done);
    assert !s.isFair ==> Without(s.waiters, n) == s.waiters;
    LeavingAndWaking(s, u, n);
  }

  lemma FairTurnKeepsOrder<N>(s: State<N>, n: N, waker: Waker)
    requires Inv(s) && s.isFair && n in s.entries && s.entries[n].state == Notified
    ensures KeepsOrder(s, Polled(s, n, waker).0)
  {
    hide WakeLoop, KeepsOrder;
    InUnlink(s, n);
    UnlinkLinked(s, n);
    var u := Unlink(s, n).(permits := s.permits - s.entries[n].requiredPermits);
    var v := SetState(u, n, Done);
    LeavingAndWaking(s, v, n);
    MarkDoneCommutes(u, n);
  }

  lemma PollKeepsOrder<N>(s: State<N>, n: N, waker: Waker)
    requires Inv(s) && n in s.entries
    ensures KeepsOrder(s, Polled(s, n, waker).0)
  {
    hide WakeLoop, Follows;
    if s.entries[n].state == Notified && s.isFair {
      FairTurnKeepsOrder(s, n, waker);
    } else {
      StayingFollows(s.waiters);
      LeavingFollows(s.waiters, n);
      StateTellsQueued(s, n);
      if n !in s.waiters {
        JoiningFollows(s.waiters, n);
      }
    }
  }

  lemma StepKeepsOrder<N>(w: World<N>, op: Op<N>)
    requires WorldInv(w)
    ensures KeepsOrder(w.s, Step(w, op).s)
  {
    hide Polled, Dropped, Release, Inv, Follows;
    StayingFollows(w.s.waiters);
    if Enabled(w, op) {
      match op
      case PollFuture(n, waker) => PollKeepsOrder(w.s, n, waker);
      case DropFuture(n) => DropKeepsOrder(w.s, n);
      case DropReleaser(i) => ReleaseKeepsOrder(w.s, w.releasers[i]);
      case ReleaseByHand(permits) => ReleaseKeepsOrder(w.s, permits);
      case _ =>
    }
  }

  // ---- Runs ----

  /** The queue at the start and after each operation of a run. */
  ghost function Queues<N>(isFair: bool, permits: nat, ops: seq<Op<N>>): (q: seq<seq<N>>)
    ensures q != [] && Last(q) == Exec(isFair, permits, ops).s.waiters
  {
    (if ops == [] then [] else Queues(isFair, permits, DropLast(ops))) + [Exec(isFair, permits, ops).s.waiters]
  }

  /** In every run, the queue lists the waiters in the order in which they have joined it, the newest first. */
  lemma {:induction false} QueueIsInOrder<N>(isFair: bool, permits: nat, ops: seq<Op<N>>)
    ensures NewestFirst(Queues(isFair, permits, ops))
  {
    hide Step, Follows, OldestNotified, WorldInv;
    if ops != [] {
      QueueIsInOrder(isFair, permits, DropLast(ops));
      StepKeepsOrder(Exec(isFair, permits, DropLast(ops)), Last(ops));
      NewestStaysFirst(Queues(isFair, permits, DropLast(ops)), Exec(isFair, permits, ops).s.waiters);
    }
  }

  /**
   * In every run of either mode, whoever is notified has been waiting for longer than anybody who goes on waiting: no
   * waiter is notified while an older one still waits.
   */
  lemma NotifiedInOrder<N>(isFair: bool, permits: nat, ops: seq<Op<N>>, op: Op<N>, n: N, m: N)
    requires var s, t := Exec(isFair, permits, ops).s, Exec(isFair, permits, ops + [op]).s;
      && n in s.entries && s.entries[n].state == Waiting && n in t.entries && t.entries[n].state == Notified
      && m in s.entries && s.entries[m].state == Waiting && m in t.entries && t.entries[m].state == Waiting
    ensures Since(Queues(isFair, permits, ops), n) < Since(Queues(isFair, permits, ops), m)
  {
    hide Step, Exec, Follows, Queues, Since;
    var w := Exec(isFair, permits, ops);
    QueueIsInOrder(isFair, permits, ops);
    ExecStep(isFair, permits, ops, op);
    StepKeepsOrder(w, op);
    assert Before(w.s.waiters, m, n);
    PositionTells(Queues(isFair, permits, ops), m, n);
  }
}
