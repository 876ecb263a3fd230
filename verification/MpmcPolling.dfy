/** Whom the channel notifies when there is something to receive, and which tasks it wakes. */
module MpmcPolling {
  import opened Collections
  import opened MpmcModel
  import opened MpmcInvariants
  import opened MpmcRuns
  import opened MpmcWakeups

  // ---- Who is notified ----

  /** The oldest receiver leaves the queue and is notified, its task is handed out, and nothing else changes. */
  ghost predicate NotifiesOldest<R, S, T>(s: State<R, S, T>, t: State<R, S, T>, task: Option<Waker>)
    requires ReceiversLinked(s)
  {
    if s.receiveWaiters == [] then t == s && task == None
    else
      var oldest := Last(s.receiveWaiters);
      && t == s.(receivers := t.receivers, receiveWaiters := t.receiveWaiters)
      && s.receiveWaiters == t.receiveWaiters + [oldest]
      && t.receivers.Keys == s.receivers.Keys
      && t.receivers[oldest].state == Notified && task.Some? && task == s.receivers[oldest].task
      && (forall r | r in s.receivers && r != oldest :: t.receivers[r] == s.receivers[r])
  }

  lemma ReturnNotifiesOldest<R, S, T>(s: State<R, S, T>)
    requires ReceiversLinked(s) && forall r | r in s.receiveWaiters :: s.receivers[r].task.Some?
    ensures NotifiesOldest(s, ReturnOldestReceiver(s).0, ReturnOldestReceiver(s).1)
  {
    if s.receiveWaiters != [] {
      assert Last(s.receiveWaiters) in s.receiveWaiters;
      assert s.receiveWaiters == DropLast(s.receiveWaiters) + [Last(s.receiveWaiters)];
    }
  }

  /** A value that is buffered at once is announced to the oldest receiver, and to nobody else. */
  lemma TrySendNotifiesOldest<R, S, T>(s: State<R, S, T>, value: T)
    requires Inv(s)
    ensures var (t, result) := TrySend(s, value);
      if result.Sent? then NotifiesOldest(s.(buffer := s.buffer + [value]), t, result.task) else t == s
  {
    hide NotifiesOldest, ReturnOldestReceiver, NoLostWakeup;
    if !s.isClosed && |s.buffer| < s.capacity {
      ReturnNotifiesOldest(s.(buffer := s.buffer + [value]));
    }
  }

  /** So is the value of a send future at its first poll, be it buffered or queued; later polls announce nothing. */
  lemma PollSendNotifiesOldest<R, S, T>(s: State<R, S, T>, n: S, waker: Waker)
    requires Inv(s) && n in s.senders
    requires s.senders[n].state == SendUnregistered ==> s.senders[n].value.Some?
    ensures var (t, p) := SendOrRegister(s, n, waker);
      var offered := s.(buffer := t.buffer, sendWaiters := t.sendWaiters, senders := t.senders);
      if s.senders[n].state == SendUnregistered && !s.isClosed then NotifiesOldest(offered, t, p.task)
      else t == offered && p.task == None
  {
    hide NotifiesOldest, ReturnOldestReceiver, NoLostWakeup;
    var e := s.senders[n];
    if e.state == SendUnregistered && !s.isClosed {
      var t := SetSender(s, n, e.(task := Some(waker), state := SendRegistered)).(sendWaiters := [n] + s.sendWaiters);
      var u := SetSender(s, n, e.(value := None)).(buffer := s.buffer + [e.value.value]);
      ReturnNotifiesOldest(t);
      ReturnNotifiesOldest(u);
      OnlyReceiversChange(t);
      OnlyReceiversChange(u);
    }
  }

  lemma OnlyReceiversChange<R, S, T>(s: State<R, S, T>)
    requires ReceiversLinked(s)
    ensures var t := ReturnOldestReceiver(s).0;
      t == s.(receivers := t.receivers, receiveWaiters := t.receiveWaiters)
  {
  }

  lemma ForgetOnTheWay<R, S, T>(s: State<R, S, T>, t: State<R, S, T>, task: Option<Waker>, r: R)
    requires ReceiversLinked(s) && r !in s.receiveWaiters && NotifiesOldest(s, t, task)
    ensures ReceiversLinked(ForgetReceiver(s, r)) && NotifiesOldest(ForgetReceiver(s, r), ForgetReceiver(t, r), task)
  {
    assert s.receiveWaiters != [] ==> Last(s.receiveWaiters) in s.receiveWaiters;
  }

  /**
   * A notified receiver that gives up passes its notification to the oldest of those in the queue; one that has not
   * been notified only leaves the queue.
   */
  lemma DropReceiveNotifiesOldest<R, S, T>(s: State<R, S, T>, r: R)
    requires Inv(s) && r in s.receivers
    ensures var left := s.(receiveWaiters := Without(s.receiveWaiters, r), receivers := s.receivers - {r});
      var (t, task) := RemoveReceiveWaiter(s, r);
      && ReceiversLinked(left)
      && if s.receivers[r].state == Notified then NotifiesOldest(left, ForgetReceiver(t, r), task)
        else ForgetReceiver(t, r) == left && task == None
  {
    hide NotifiesOldest, ReturnOldestReceiver, NoLostWakeup, Bounded, Without, NoDup;
    WithoutMembers(s.receiveWaiters, r);
    var left := s.(receiveWaiters := Without(s.receiveWaiters, r), receivers := s.receivers - {r});
    if s.receivers[r].state == Notified {
      var u := SetReceiver(s, r, s.receivers[r].(state := Unregistered));
      ReturnNotifiesOldest(u);
      ForgetOnTheWay(u, ReturnOldestReceiver(u).0, ReturnOldestReceiver(u).1, r);
      assert ForgetReceiver(u, r) == left;
    }
  }

  /** Receiving hands out the task of the sender whose send it completes, and no other. */
  lemma ReceivingCallsCompletedSender<R, S, T>(s: State<R, S, T>)
    requires Inv(s)
    ensures var (t, result) := TryReceive(s); result.Received? ==>
      (result.task.Some? <==> s.sendWaiters != []) &&
      (s.sendWaiters != [] ==>
        var n := Last(s.sendWaiters);
        n in s.senders && result.task == s.senders[n].task && n in t.senders && t.senders[n].state == SendComplete)
  {
    assert s.sendWaiters != [] ==> Last(s.sendWaiters) in s.sendWaiters;
  }

  // ---- Whom a waiting future has woken ----

  /** A receiver that has to wait is queued, once, and remembers the task that has just polled it. */
  lemma PendingReceiveRemembersTheTask<R, S, T>(s: State<R, S, T>, r: R, waker: Waker)
    requires Inv(s) && r in s.receivers && ReceiveOrRegister(s, r, waker).1.Pending?
    ensures ReceiveOrRegister(s, r, waker).0 == s.(
      receiveWaiters := if r in s.receiveWaiters then s.receiveWaiters else [r] + s.receiveWaiters,
      receivers := s.receivers[r := RecvEntry(Some(waker), Registered)])
  {
    hide NoLostWakeup, Bounded;
  }
}
