/** What happens to a channel once it is closed. */
module MpmcClosing {
  import opened Collections
  import opened MpmcModel
  import opened MpmcInvariants
  import opened MpmcRuns

  /** Nobody queues at a closed channel, and receiving from it never waits: a value, or nothing once it is drained. */
  lemma ClosedReceiveResolves<R, S, T>(s: State<R, S, T>, r: R, waker: Waker)
    requires Inv(s) && s.isClosed && r in s.receivers
    ensures s.receiveWaiters == [] && s.sendWaiters == []
    ensures var (t, p) := ReceiveOrRegister(s, r, waker);
      p == Ready(if s.buffer == [] then None else Some((s.buffer[0], None))) &&
      t.buffer == if s.buffer == [] then [] else s.buffer[1..]
  {
    UnregisteredIsNotQueued(s, r);
  }

  /** Sending to a closed channel never waits either: an unsent value comes back, and a sent one stays sent. */
  lemma ClosedSendResolves<R, S, T>(s: State<R, S, T>, n: S, waker: Waker)
    requires Inv(s) && s.isClosed && n in s.senders
    requires s.senders[n].value.Some? <==> s.senders[n].state != SendComplete
    ensures var (t, p) := SendOrRegister(s, n, waker);
      p == SendPoll(Ready(()), s.senders[n].value, None) && t.senders[n].value == None && t.buffer == s.buffer
  {
    StateTellsQueued(s, n);
  }

  lemma NobodyQueuesWhenClosed<R, S, T>(s: State<R, S, T>)
    requires Inv(s) && s.isClosed
    ensures s.receiveWaiters == [] && s.sendWaiters == []
  {
  }

  /** A run that goes on from `w`. */
  ghost function Continue<R, S, T>(w: World<R, S, T>, ops: seq<Op<R, S, T>>): (w': World<R, S, T>)
    requires WorldInv(w)
    ensures WorldInv(w') && (w.s.isClosed ==> w'.s.isClosed)
  {
    if ops == [] then w
    else
      var v := Continue(w, DropLast(ops));
      StepKeepsWorldInv(v, Last(ops));
      Step(v, Last(ops))
  }

  /** With no sender in line, the value that is received comes out of the buffer. */
  lemma ClosedDelivery<R, S, T>(w: World<R, S, T>, t: State<R, S, T>, value: T)
    requires Linked(w.s) && TookOldest(w.s, t, value) && w.s.sendWaiters == [] && |w.owners| == |w.s.buffer|
    ensures Deliver(w, value).delivered + t.buffer == w.delivered + w.s.buffer
  {
    assert w.s.buffer == [value] + t.buffer;
  }

  lemma ClosedPollDrains<R, S, T>(w: World<R, S, T>, r: R, waker: Waker)
    requires WorldInv(w) && w.s.isClosed && r in w.s.receivers
    ensures PollReceiveStep(w, r, waker).delivered + PollReceiveStep(w, r, waker).s.buffer == w.delivered + w.s.buffer
  {
    hide Inv, ReceiveOrRegister, TookOldest;
    InvIsLinked(w.s);
    SendersQueueOnlyWhenFull(w.s);
    ReceiveEffect(w.s, r, waker);
    ReceiveOrRegisterKeepsInv(w.s, r, waker);
    var (t, p) := ReceiveOrRegister(w.s, r, waker);
    if p.Ready? && p.value.Some? {
      ClosedDelivery(w, t, p.value.value.0);
    }
  }

  /** Until the last receiver clears the channel, what was buffered goes to the receivers, and nothing is added. */
  lemma ClosedStepDrains<R, S, T>(w: World<R, S, T>, op: Op<R, S, T>)
    requires WorldInv(w) && w.s.isClosed && op != ClearChannel
    ensures Step(w, op).delivered + Step(w, op).s.buffer == w.delivered + w.s.buffer
  {
    hide Inv, SendOrRegister, PollReceiveStep, TryReceive, TrySend, TookOldest, RemoveReceiveWaiter;
    InvIsLinked(w.s);
    SendersQueueOnlyWhenFull(w.s);
    match op
    case PollReceive(r, waker) =>
      if Enabled(w, op) {
        ClosedPollDrains(w, r, waker);
      }
    case TryReceiveNow =>
      TryReceiveEffect(w.s);
      var (t, result) := TryReceive(w.s);
      if result.Received? {
        ClosedDelivery(w, t, result.value);
      }
    case PollSend(n, waker) =>
      if Enabled(w, op) {
        SendEffect(w.s, n, waker);
      }
    case TrySendNow(n, value) => TrySendEffect(w.s, value);
    case DropReceive(r) =>
      if Enabled(w, op) {
        DroppedReceiverKeepsBuffer(w.s, r);
      }
    case _ =>
  }

  lemma DroppedReceiverKeepsBuffer<R, S, T>(s: State<R, S, T>, r: R)
    requires Linked(s) && r in s.receivers
    ensures RemoveReceiveWaiter(s, r).0.buffer == s.buffer
  {
  }

  /**
   * After closing, both wait queues are empty for ever, and the received values are those received before followed
   * by the values that were buffered, in order: what has not been received yet is still buffered.
   */
  lemma {:induction false} ClosedChannelDrains<R, S, T>(w: World<R, S, T>, ops: seq<Op<R, S, T>>)
    requires WorldInv(w) && w.s.isClosed && ClearChannel !in ops
    ensures var w' := Continue(w, ops);
      && w'.s.isClosed && w'.s.receiveWaiters == [] && w'.s.sendWaiters == []
      && w'.delivered + w'.s.buffer == w.delivered + w.s.buffer
  {
    hide Inv, Step;
    NobodyQueuesWhenClosed(Continue(w, ops).s);
    if ops != [] {
      ClosedChannelDrains(w, DropLast(ops));
      ClosedStepDrains(Continue(w, DropLast(ops)), Last(ops));
    }
  }
}
