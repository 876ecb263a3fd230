/** The order in which the channel notifies its receivers: in the order in which they have queued up. */
module MpmcOrder {
  import opened Collections
  import opened Registrations
  import opened MpmcModel
  import opened MpmcInvariants
  import opened MpmcRuns
  import opened MpmcWakeups
  import opened MpmcPolling

  /** Whoever is notified on the way from `s` to `t` was queued behind nobody who still queues. */
  ghost predicate OldestNotified<R, S, T>(s: State<R, S, T>, t: State<R, S, T>) {
    forall q, r | q in s.receiveWaiters && q in t.receiveWaiters
      && r in s.receiveWaiters && r in t.receivers && t.receivers[r].state == Notified ::
      Before(s.receiveWaiters, q, r)
  }

  /** Nobody but those in `joining` joins the queue, at its front; it is left from the old end, or by giving up. */
  ghost predicate KeepsOrder<R, S, T>(s: State<R, S, T>, t: State<R, S, T>, joining: set<R>) {
    && Follows(s.receiveWaiters, t.receiveWaiters)
    && OldestNotified(s, t)
    && (forall r | r in t.receiveWaiters :: r in s.receiveWaiters || r in joining)
  }

  ghost predicate AllRegistered<R, S, T>(s: State<R, S, T>) {
    forall r | r in s.receiveWaiters :: r in s.receivers && s.receivers[r].state == Registered
  }

  lemma SameReceiversKeepOrder<R, S, T>(s: State<R, S, T>, t: State<R, S, T>)
    requires Inv(s) && t.receiveWaiters == s.receiveWaiters
    requires forall r | r in s.receiveWaiters && r in t.receivers :: t.receivers[r].state == Registered
    ensures KeepsOrder(s, t, {})
  {
    hide Follows, Before;
    StayingFollows(s.receiveWaiters);
  }

  lemma NotifyingKeepsOrder<R, S, T>(s: State<R, S, T>, t: State<R, S, T>, task: Option<Waker>)
    requires AllRegistered(s) && NotifiesOldest(s, t, task)
    ensures KeepsOrder(s, t, {})
  {
    hide Follows, Before;
    var q := s.receiveWaiters;
    StayingFollows(q);
    if q != [] {
      OldestLeavingFollows(q, |t.receiveWaiters|);
      assert t.receiveWaiters == q[..|t.receiveWaiters|];
      forall r | r in q && r != Last(q)
        ensures Before(q, r, Last(q))
      {
        AllBeforeLast(q, r);
      }
    }
  }

  lemma InvRegisters<R, S, T>(s: State<R, S, T>)
    requires Inv(s)
    ensures AllRegistered(s) && ReceiversLinked(s) && NoDup(s.receiveWaiters)
  {
  }

  // ---- Single operations ----

  lemma TrySendKeepsOrder<R, S, T>(s: State<R, S, T>, value: T)
    requires Inv(s)
    ensures KeepsOrder(s, TrySend(s, value).0, {})
  {
    hide Inv, TrySend, NotifiesOldest, Follows, Before;
    InvRegisters(s);
    InvIsLinked(s);
    TrySendNotifiesOldest(s, value);
    var (t, result) := TrySend(s, value);
    if result.Sent? {
      NotifyingKeepsOrder(s.(buffer := s.buffer + [value]), t, result.task);
    } else {
      SameReceiversKeepOrder(s, t);
    }
  }

  lemma PollSendKeepsOrder<R, S, T>(s: State<R, S, T>, n: S, waker: Waker)
    requires Inv(s) && n in s.senders
    requires s.senders[n].state == SendUnregistered ==> s.senders[n].value.Some?
    ensures KeepsOrder(s, SendOrRegister(s, n, waker).0, {})
  {
    hide Inv, SendOrRegister, NotifiesOldest, Follows, Before;
    InvRegisters(s);
    InvIsLinked(s);
    PollSendNotifiesOldest(s, n, waker);
    var (t, p) := SendOrRegister(s, n, waker);
    if s.senders[n].state == SendUnregistered && !s.isClosed {
      NotifyingKeepsOrder(s.(buffer := t.buffer, sendWaiters := t.sendWaiters, senders := t.senders), t, p.task);
    } else {
      SameReceiversKeepOrder(s, t);
    }
  }

  lemma PollReceiveKeepsOrder<R, S, T>(s: State<R, S, T>, r: R, waker: Waker)
    requires Inv(s) && r in s.receivers
    ensures KeepsOrder(s, ReceiveOrRegister(s, r, waker).0, {r})
  {
    hide NoLostWakeup, Bounded, Follows, Before;
    var q := s.receiveWaiters;
    StayingFollows(q);
    if r !in q {
      JoiningFollows(q, r);
    }
  }

  lemma DropReceiveKeepsOrder<R, S, T>(s: State<R, S, T>, r: R)
    requires Inv(s) && r in s.receivers
    ensures KeepsOrder(s, ForgetReceiver(RemoveReceiveWaiter(s, r).0, r), {})
  {
    hide Inv, RemoveReceiveWaiter, NotifiesOldest, Follows, Before, Without;
    InvRegisters(s);
    InvIsLinked(s);
    DropReceiveNotifiesOldest(s, r);
    LeavingFollows(s.receiveWaiters, r);
    WithoutMembers(s.receiveWaiters, r);
    var left := s.(receiveWaiters := Without(s.receiveWaiters, r), receivers := s.receivers - {r});
    var (t, task) := RemoveReceiveWaiter(s, r);
    if s.receivers[r].state == Notified {
      NotifyingKeepsOrder(left, ForgetReceiver(t, r), task);
      FollowsOn(s.receiveWaiters, left.receiveWaiters, t.receiveWaiters);
      forall x, y | Before(left.receiveWaiters, x, y)
        ensures Before(s.receiveWaiters, x, y)
      {
        BeforeWithout(s.receiveWaiters, r, x, y);
      }
    }
  }

  lemma EmptyQueueKeepsOrder<R, S, T>(s: State<R, S, T>, t: State<R, S, T>)
    requires t.receiveWaiters == []
    ensures KeepsOrder(s, t, {})
  {
  }

  lemma OtherStepKeepsOrder<R, S, T>(w: World<R, S, T>, op: Op<R, S, T>)
    requires WorldInv(w)
    requires Enabled(w, op) ==>
      !op.PollSend? && !op.TrySendNow? && !op.PollReceive? && !op.TryReceiveNow? && !op.DropReceive?
    ensures KeepsOrder(w.s, Step(w, op).s, {})
  {
    hide NoLostWakeup, Bounded, Follows, Before, CloseCalls, KeepsOrder;
    var t := Step(w, op).s;
    if t.receiveWaiters == [] {
      EmptyQueueKeepsOrder(w.s, t);
    } else {
      SameReceiversKeepOrder(w.s, t);
    }
  }

  lemma StepKeepsOrder<R, S, T>(w: World<R, S, T>, op: Op<R, S, T>)
    requires WorldInv(w)
    ensures KeepsOrder(w.s, Step(w, op).s, if op.PollReceive? then {op.r} else {})
  {
    hide Inv, SendOrRegister, TrySend, RemoveReceiveWaiter, ReceiveOrRegister, TryReceive, Follows, Before;
    InvIsLinked(w.s);
    if Enabled(w, op) && op.PollSend? {
      PollSendKeepsOrder(w.s, op.n, op.waker);
    } else if Enabled(w, op) && op.TrySendNow? {
      TrySendKeepsOrder(w.s, op.value);
    } else if Enabled(w, op) && op.PollReceive? {
      PollReceiveKeepsOrder(w.s, op.r, op.waker);
      ReceiveOrRegisterKeepsInv(w.s, op.r, op.waker);
    } else if Enabled(w, op) && op.TryReceiveNow? {
      TryReceiveLeavesReceiversAlone(w.s);
      TryReceiveLeavesQueueAlone(w.s);
      InvRegisters(w.s);
      SameReceiversKeepOrder(w.s, Step(w, op).s);
    } else if Enabled(w, op) && op.DropReceive? {
      DropReceiveKeepsOrder(w.s, op.r);
    } else {
      OtherStepKeepsOrder(w, op);
    }
  }

  lemma TryReceiveLeavesQueueAlone<R, S, T>(s: State<R, S, T>)
    requires Linked(s)
    ensures TryReceive(s).0.receiveWaiters == s.receiveWaiters
  {
  }

  // ---- Runs ----

  /** The queue of receivers at the start and after each operation of a run. */
  ghost function Queues<R, S, T>(capacity: nat, ops: seq<Op<R, S, T>>): (q: seq<seq<R>>)
    ensures q != [] && Last(q) == Exec(capacity, ops).s.receiveWaiters
  {
    (if ops == [] then [] else Queues(capacity, DropLast(ops))) + [Exec(capacity, ops).s.receiveWaiters]
  }

  /** In every run, the queue lists the receivers in the order in which they have joined it, the newest first. */
  lemma {:induction false} QueueIsInOrder<R, S, T>(capacity: nat, ops: seq<Op<R, S, T>>)
    ensures NewestFirst(Queues(capacity, ops))
  {
    hide Step, Follows, OldestNotified, WorldInv;
    if ops != [] {
      QueueIsInOrder(capacity, DropLast(ops));
      StepKeepsOrder(Exec(capacity, DropLast(ops)), Last(ops));
      NewestStaysFirst(Queues(capacity, DropLast(ops)), Exec(capacity, ops).s.receiveWaiters);
    }
  }

  /** In every run, no receiver is notified while one that has been queued for longer still queues. */
  lemma NotifiedInOrder<R, S, T>(capacity: nat, ops: seq<Op<R, S, T>>, op: Op<R, S, T>, r: R, q: R)
    requires var s, t := Exec(capacity, ops).s, Exec(capacity, ops + [op]).s;
      && r in s.receiveWaiters && r in t.receivers && t.receivers[r].state == Notified
      && q in s.receiveWaiters && q in t.receiveWaiters
    ensures Since(Queues(capacity, ops), r) < Since(Queues(capacity, ops), q)
  {
    hide Step, Exec, Follows, Queues, Since;
    var w := Exec(capacity, ops);
    QueueIsInOrder(capacity, ops);
    ExecStep(capacity, ops, op);
    StepKeepsOrder(w, op);
    assert Before(w.s.receiveWaiters, q, r);
    NotifiedAreNotQueued(capacity, ops + [op], r);
    PositionTells(Queues(capacity, ops), q, r);
  }

  lemma NotifiedAreNotQueued<R, S, T>(capacity: nat, ops: seq<Op<R, S, T>>, r: R)
    requires var s := Exec(capacity, ops).s; r in s.receivers && s.receivers[r].state == Notified
    ensures r !in Exec(capacity, ops).s.receiveWaiters
  {
    hide Exec, NoLostWakeup, Bounded;
    assert WorldInv(Exec(capacity, ops));
  }
}
