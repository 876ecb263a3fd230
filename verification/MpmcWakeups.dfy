/** Whom the channel calls: nobody who waits is released without a wake-up call. */
module MpmcWakeups {
  import opened Collections
  import opened MpmcModel
  import opened MpmcInvariants
  import opened MpmcRuns

  // ---- The wake-up calls of closing ----

  lemma {:induction false} ReceiversCalledOldestFirst<R>(waiters: seq<R>, receivers: map<R, RecvEntry>)
    requires forall r | r in waiters :: r in receivers && receivers[r].task.Some?
    ensures |ReceiverCalls(waiters, receivers)| == |waiters|
    ensures forall i | 0 <= i < |waiters| ::
      ReceiverCalls(waiters, receivers)[|waiters| - 1 - i] == receivers[waiters[i]].task.value
  {
    if waiters != [] {
      ReceiversCalledOldestFirst(waiters[1..], receivers);
    }
  }

  lemma {:induction false} SendersCalledOldestFirst<S, T>(waiters: seq<S>, senders: map<S, SendEntry<T>>)
    requires forall n | n in waiters :: n in senders && senders[n].task.Some?
    ensures |SenderCalls(waiters, senders)| == |waiters|
    ensures forall i | 0 <= i < |waiters| ::
      SenderCalls(waiters, senders)[|waiters| - 1 - i] == senders[waiters[i]].task.value
  {
    if waiters != [] {
      SendersCalledOldestFirst(waiters[1..], senders);
    }
  }

  /** Closing wakes every waiter exactly once: the receivers from the oldest on, then the senders from the oldest on. */
  lemma CloseWakesEverybody<R, S, T>(s: State<R, S, T>)
    requires Inv(s) && !s.isClosed
    ensures var calls, k, m := CloseCalls(s), |s.receiveWaiters|, |s.sendWaiters|;
      && |calls| == k + m
      && (forall i | 0 <= i < k :: calls[k - 1 - i] == s.receivers[s.receiveWaiters[i]].task.value)
      && (forall i | 0 <= i < m :: calls[k + m - 1 - i] == s.senders[s.sendWaiters[i]].task.value)
  {
    hide ReceiverCalls, SenderCalls, NoLostWakeup, Bounded;
    ReceiversCalledOldestFirst(s.receiveWaiters, s.receivers);
    SendersCalledOldestFirst(s.sendWaiters, s.senders);
    var m := |s.sendWaiters|;
    forall i | 0 <= i < m
      ensures CloseCalls(s)[|s.receiveWaiters| + m - 1 - i] == s.senders[s.sendWaiters[i]].task.value
    {
      assert CloseCalls(s)[|s.receiveWaiters| + m - 1 - i] == SenderCalls(s.sendWaiters, s.senders)[m - 1 - i];
    }
  }

  // ---- Wake-up calls in general ----

  /** A queued receiver is left as it was, or it is released and its task is among the calls. */
  ghost predicate ReceiverKeptOrCalled<R>(before: map<R, RecvEntry>, after: map<R, RecvEntry>, calls: seq<Waker>, r: R)
    requires r in before && before[r].task.Some?
  {
    r in after && (after[r] == before[r] || (after[r].state != Registered && before[r].task.value in calls))
  }

  ghost predicate SenderKeptOrCalled<S, T>(
      before: map<S, SendEntry<T>>, after: map<S, SendEntry<T>>, calls: seq<Waker>, n: S)
    requires n in before && before[n].task.Some?
  {
    n in after && (after[n] == before[n] || (after[n].state != SendRegistered && before[n].task.value in calls))
  }

  lemma CloseCallsReceiver<R, S, T>(s: State<R, S, T>, r: R)
    requires Inv(s) && r in s.receivers && s.receivers[r].state == Registered
    ensures ReceiverKeptOrCalled(s.receivers, Close(s).0.receivers, CloseCalls(s), r)
  {
    if !s.isClosed {
      CloseWakesEverybody(s);
      var i := IndexOf(s.receiveWaiters, r);
      assert CloseCalls(s)[|s.receiveWaiters| - 1 - i] == s.receivers[r].task.value;
    }
  }

  lemma CloseCallsSender<R, S, T>(s: State<R, S, T>, n: S)
    requires Inv(s) && n in s.senders && s.senders[n].state == SendRegistered
    ensures SenderKeptOrCalled(s.senders, Close(s).0.senders, CloseCalls(s), n)
  {
    if !s.isClosed {
      CloseWakesEverybody(s);
      var i := IndexOf(s.sendWaiters, n);
      assert CloseCalls(s)[|s.receiveWaiters| + |s.sendWaiters| - 1 - i] == s.senders[n].task.value;
    }
  }

  lemma SendCallsReceiver<R, S, T>(s: State<R, S, T>, n: S, waker: Waker, r: R)
    requires Inv(s) && n in s.senders && r in s.receivers && s.receivers[r].state == Registered
    requires s.senders[n].state == SendUnregistered ==> s.senders[n].value.Some?
    ensures var (t, p) := SendOrRegister(s, n, waker); ReceiverKeptOrCalled(s.receivers, t.receivers, Woken(p.task), r)
  {
    hide NoLostWakeup, Bounded;
  }

  lemma TrySendCallsReceiver<R, S, T>(s: State<R, S, T>, value: T, r: R)
    requires Inv(s) && r in s.receivers && s.receivers[r].state == Registered
    ensures var (t, result) := TrySend(s, value);
      ReceiverKeptOrCalled(s.receivers, t.receivers, if result.Sent? then Woken(result.task) else [], r)
  {
    hide NoLostWakeup, Bounded;
  }

  lemma GivingUpCallsReceiver<R, S, T>(s: State<R, S, T>, other: R, r: R)
    requires Inv(s) && other in s.receivers && r in s.receivers && s.receivers[r].state == Registered && other != r
    ensures var (t, task) := RemoveReceiveWaiter(s, other);
      ReceiverKeptOrCalled(s.receivers, ForgetReceiver(t, other).receivers, Woken(task), r)
  {
    hide NoLostWakeup, Bounded;
  }

  lemma ReceivingLeavesReceiversAlone<R, S, T>(s: State<R, S, T>, other: R, waker: Waker, r: R)
    requires Inv(s) && other in s.receivers && r in s.receivers && other != r
    ensures r in ReceiveOrRegister(s, other, waker).0.receivers
    ensures ReceiveOrRegister(s, other, waker).0.receivers[r] == s.receivers[r]
  {
    hide NoLostWakeup, Bounded;
  }

  lemma TryReceiveLeavesReceiversAlone<R, S, T>(s: State<R, S, T>)
    requires Linked(s)
    ensures TryReceive(s).0.receivers == s.receivers
  {
  }

  lemma ClosingStepCallsReceiver<R, S, T>(w: World<R, S, T>, op: Op<R, S, T>, r: R)
    requires WorldInv(w) && r in w.s.receivers && w.s.receivers[r].state == Registered
    requires op in {CloseChannel, DropSender, DropReceiver}
    ensures var w' := Step(w, op);
      w.wakes <= w'.wakes && ReceiverKeptOrCalled(w.s.receivers, w'.s.receivers, w'.wakes[|w.wakes|..], r)
  {
    hide Inv, Close, CloseCalls;
    InvIsLinked(w.s);
    CloseCallsReceiver(w.s, r);
  }

  /** A queued receiver either goes on waiting undisturbed, or is released and its task is called at that moment. */
  lemma NoReceiverIsReleasedSilently<R, S, T>(w: World<R, S, T>, op: Op<R, S, T>, r: R)
    requires WorldInv(w) && r in w.s.receivers && w.s.receivers[r].state == Registered
    requires !(op.PollReceive? && op.r == r) && op != DropReceive(r)
    ensures var w' := Step(w, op);
      w.wakes <= w'.wakes && ReceiverKeptOrCalled(w.s.receivers, w'.s.receivers, w'.wakes[|w.wakes|..], r)
  {
    hide Inv, CloseWorld, SendOrRegister, TrySend, RemoveReceiveWaiter, ReceiveOrRegister, TryReceive;
    InvIsLinked(w.s);
    if Enabled(w, op) {
      match op
      case PollSend(n, waker) => SendCallsReceiver(w.s, n, waker, r);
      case TrySendNow(_, value) => TrySendCallsReceiver(w.s, value, r);
      case DropReceive(other) => GivingUpCallsReceiver(w.s, other, r);
      case PollReceive(other, waker) => ReceivingLeavesReceiversAlone(w.s, other, waker, r);
      case TryReceiveNow => TryReceiveLeavesReceiversAlone(w.s);
      case CloseChannel => ClosingStepCallsReceiver(w, op, r);
      case DropSender => ClosingStepCallsReceiver(w, op, r);
      case DropReceiver => ClosingStepCallsReceiver(w, op, r);
      case _ =>
    }
  }

  lemma ReceivingCallsSender<R, S, T>(s: State<R, S, T>, n: S)
    requires Inv(s) && n in s.senders && s.senders[n].state == SendRegistered
    ensures var (t, result) := TryReceive(s);
      SenderKeptOrCalled(s.senders, t.senders, if result.Received? then Woken(result.task) else [], n)
  {
    hide NoLostWakeup, Bounded;
  }

  lemma PolledReceiveCallsSender<R, S, T>(s: State<R, S, T>, r: R, waker: Waker, n: S)
    requires Inv(s) && r in s.receivers && n in s.senders && s.senders[n].state == SendRegistered
    ensures var (t, p) := ReceiveOrRegister(s, r, waker);
      SenderKeptOrCalled(s.senders, t.senders, if p.Ready? && p.value.Some? then Woken(p.value.value.1) else [], n)
  {
    hide NoLostWakeup, Bounded;
  }

  lemma SendingLeavesSendersAlone<R, S, T>(s: State<R, S, T>, other: S, waker: Waker, n: S)
    requires Inv(s) && other in s.senders && n in s.senders && other != n
    requires s.senders[other].state == SendUnregistered ==> s.senders[other].value.Some?
    ensures var t := SendOrRegister(s, other, waker).0; n in t.senders && t.senders[n] == s.senders[n]
  {
    hide NoLostWakeup, Bounded;
  }

  lemma GivingUpLeavesSendersAlone<R, S, T>(s: State<R, S, T>, other: S, n: S)
    requires other in s.senders && n in s.senders && other != n
    ensures n in RemoveSendWaiter(s, other).senders && RemoveSendWaiter(s, other).senders[n] == s.senders[n]
  {
  }

  lemma ClosingStepCallsSender<R, S, T>(w: World<R, S, T>, op: Op<R, S, T>, n: S)
    requires WorldInv(w) && n in w.s.senders && w.s.senders[n].state == SendRegistered
    requires op in {CloseChannel, DropSender, DropReceiver}
    ensures var w' := Step(w, op);
      w.wakes <= w'.wakes && SenderKeptOrCalled(w.s.senders, w'.s.senders, w'.wakes[|w.wakes|..], n)
  {
    hide Inv, Close, CloseCalls;
    InvIsLinked(w.s);
    CloseCallsSender(w.s, n);
  }

  /** A queued sender either goes on waiting undisturbed, or is released and its task is called at that moment. */
  lemma NoSenderIsReleasedSilently<R, S, T>(w: World<R, S, T>, op: Op<R, S, T>, n: S)
    requires WorldInv(w) && n in w.s.senders && w.s.senders[n].state == SendRegistered
    requires !(op.PollSend? && op.n == n) && op != CancelSend(n) && op != DropSend(n)
    ensures var w' := Step(w, op);
      w.wakes <= w'.wakes && SenderKeptOrCalled(w.s.senders, w'.s.senders, w'.wakes[|w.wakes|..], n)
  {
    hide Inv, CloseWorld, SendOrRegister, RemoveReceiveWaiter, RemoveSendWaiter, ReceiveOrRegister, TryReceive, TrySend;
    InvIsLinked(w.s);
    if Enabled(w, op) {
      match op
      case PollSend(other, waker) => SendingLeavesSendersAlone(w.s, other, waker, n);
      case PollReceive(r, waker) => PolledReceiveCallsSender(w.s, r, waker, n);
      case TryReceiveNow => ReceivingCallsSender(w.s, n);
      case CancelSend(other) => GivingUpLeavesSendersAlone(w.s, other, n);
      case DropSend(other) => GivingUpLeavesSendersAlone(w.s, other, n);
      case TrySendNow(_, value) => TrySendEffect(w.s, value);
      case DropReceive(r) => RemoveReceiveWaiterKeepsInv(w.s, r);
      case CloseChannel => ClosingStepCallsSender(w, op, n);
      case DropSender => ClosingStepCallsSender(w, op, n);
      case DropReceiver => ClosingStepCallsSender(w, op, n);
      case _ =>
    }
  }
}
