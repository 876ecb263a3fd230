/** The order in which a mutex notifies its waiters: in both modes, in the order in which they have queued up. */
module MutexOrder {
  import opened Collections
  import opened Registrations
  import opened MutexModel
  import opened MutexRuns
  import opened MutexPolling

  /** Whoever is notified on the way from `s` to `t` was queued behind nobody who is still waiting. */
  ghost predicate OldestNotified<N>(s: State<N>, t: State<N>) {
    forall m, n | m in s.entries && s.entries[m].state == Waiting && m in t.entries && t.entries[m].state == Waiting
      && n in s.entries && s.entries[n].state == Waiting && n in t.entries && t.entries[n].state == Notified ::
      Before(s.waiters, m, n)
  }

  ghost predicate KeepsOrder<N>(s: State<N>, t: State<N>) {
    Follows(s.waiters, t.waiters) && OldestNotified(s, t)
  }

  lemma NotifyingKeepsOrder<N>(s: State<N>, t: State<N>, calls: seq<Waker>)
    requires Linked(s) && NotifiesOldest(s, t, calls)
    requires forall n | n in s.entries && s.entries[n].state == Waiting :: n in s.waiters
    ensures KeepsOrder(s, t) && t.waiters <= s.waiters
  {
    hide Follows, Before;
    StayingFollows(s.waiters);
    if s.waiters != [] {
      OldestLeavingFollows(s.waiters, |t.waiters|);
      assert t.waiters == s.waiters[..|t.waiters|];
      forall m | m in s.waiters && m != Last(s.waiters)
        ensures Before(s.waiters, m, Last(s.waiters))
      {
        AllBeforeLast(s.waiters, m);
      }
    }
  }

  lemma UnlockKeepsOrder<N>(s: State<N>)
    requires Inv(s)
    ensures KeepsOrder(s, Unlock(s).0)
  {
    hide Follows, Before, NoLostWakeup, FairNotification, NotifiesOldest;
    StayingFollows(s.waiters);
    UnlockNotifiesOldest(s);
    if s.isLocked {
      NotifyingKeepsOrder(s.(isLocked := false), Unlock(s).0, Woken(Unlock(s).1));
    }
  }

  lemma DropKeepsOrder<N>(s: State<N>, n: N)
    requires Inv(s) && n in s.entries
    ensures KeepsOrder(s, Dropped(s, n).0)
  {
    hide Follows, Before, NoLostWakeup, FairNotification, NotifiesOldest, Dropped;
    var left := s.(waiters := Without(s.waiters, n), entries := s.entries - {n});
    var t := Dropped(s, n).0;
    LeavingFollows(s.waiters, n);
    WithoutMembers(s.waiters, n);
    DropNotifiesOldest(s, n);
    if s.entries[n].state == Notified {
      NotifyingKeepsOrder(left, t, Woken(Dropped(s, n).1));
      FollowsOn(s.waiters, left.waiters, t.waiters);
      DropKeepsInv(s, n);
      forall x, y | Before(left.waiters, x, y)
        ensures Before(s.waiters, x, y)
      {
        BeforeWithout(s.waiters, n, x, y);
      }
    }
  }

  lemma PollKeepsOrder<N>(s: State<N>, n: N, waker: Waker)
    requires Inv(s) && n in s.entries
    ensures KeepsOrder(s, Polled(s, n, waker).0)
  {
    hide Follows, Before, NoLostWakeup, FairNotification;
    StayingFollows(s.waiters);
    LeavingFollows(s.waiters, n);
    StateTellsQueued(s, n);
    if n !in s.waiters {
      JoiningFollows(s.waiters, n);
    }
  }

  lemma StepKeepsOrder<N>(w: World<N>, op: Op<N>)
    requires WorldInv(w)
    ensures KeepsOrder(w.s, Step(w, op).s)
  {
    hide Polled, Dropped, Unlock, Inv, Follows;
    StayingFollows(w.s.waiters);
    if Enabled(w, op) {
      match op
      case PollFuture(n, waker) => PollKeepsOrder(w.s, n, waker);
      case DropFuture(n) => DropKeepsOrder(w.s, n);
      case DropGuard => UnlockKeepsOrder(w.s);
      case _ =>
    }
  }

  // ---- Runs ----

  /** The queue at the start and after each operation of a run. */
  ghost function Queues<N>(isFair: bool, ops: seq<Op<N>>): (q: seq<seq<N>>)
    ensures q != [] && Last(q) == Exec(isFair, ops).s.waiters
  {
    (if ops == [] then [] else Queues(isFair, DropLast(ops))) + [Exec(isFair, ops).s.waiters]
  }

  /** In every run, the queue lists the waiters in the order in which they have joined it, the newest first. */
  lemma {:induction false} QueueIsInOrder<N>(isFair: bool, ops: seq<Op<N>>)
    ensures NewestFirst(Queues(isFair, ops))
  {
    hide Step, Follows, OldestNotified, WorldInv;
    if ops != [] {
      QueueIsInOrder(isFair, DropLast(ops));
      StepKeepsOrder(Exec(isFair, DropLast(ops)), Last(ops));
      NewestStaysFirst(Queues(isFair, DropLast(ops)), Exec(isFair, ops).s.waiters);
    }
  }

  /** In every run of either mode, no waiter is notified while one that has been waiting for longer still waits. */
  lemma NotifiedInOrder<N>(isFair: bool, ops: seq<Op<N>>, op: Op<N>, n: N, m: N)
    requires var s, t := Exec(isFair, ops).s, Exec(isFair, ops + [op]).s;
      && n in s.entries && s.entries[n].state == Waiting && n in t.entries && t.entries[n].state == Notified
      && m in s.entries && s.entries[m].state == Waiting && m in t.entries && t.entries[m].state == Waiting
    ensures Since(Queues(isFair, ops), n) < Since(Queues(isFair, ops), m)
  {
    hide Step, Exec, Follows, Queues, Since;
    var w := Exec(isFair, ops);
    QueueIsInOrder(isFair, ops);
    ExecStep(isFair, ops, op);
    StepKeepsOrder(w, op);
    assert Before(w.s.waiters, m, n);
    PositionTells(Queues(isFair, ops), m, n);
  }
}
