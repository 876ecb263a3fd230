/** Programs that use a channel: whatever they call, and in whatever order, the heap follows the runs of the model. */
module MpmcSessions {
  import opened Collections
  import opened Histories
  import opened LinkedLists
  import opened RingBuffers
  import opened MpmcChannels
  import M = MpmcModel
  import I = MpmcInvariants
  import R = MpmcRuns
  import F = MpmcFifo
  import K = MpmcTasks
  import H = MpmcHandles

  /** One channel with the futures and the number of handles that its users hold, and the operations they called. */
  class Session<T(0)> {
    const channel: ChannelState<T>
    var senders: nat
    var receivers: nat
    ghost var Ops: seq<R.Op<RecvNode, SendNode<T>, T>>
    /** Where the run of these operations has led to. */
    ghost var World: R.World<RecvNode, SendNode<T>, T>

    ghost predicate Recorded()
      reads this`Ops, this`World
    {
      World == R.Exec(channel.buffer.Capacity(), Ops)
    }

    /** The future is one of this channel and has not finished. */
    ghost predicate Sends(future: SendFuture<T>)
      reads future, channel`Senders
    {
      future.channel == channel && future.waitNode in channel.Senders
    }

    ghost predicate Receives(future: ReceiveFuture<T>)
      reads future, channel`Receivers
    {
      future.channel == channel && future.waitNode in channel.Receivers
    }

    /** The futures with these wait nodes have finished or were dropped; the others have not. */
    twostate predicate OnlyFinished(sends: set<SendNode<T>>, receives: set<RecvNode>)
      reads channel`Senders, channel`Receivers
    {
      && channel.Senders.Keys == old(channel.Senders.Keys) - sends
      && channel.Receivers.Keys == old(channel.Receivers.Keys) - receives
    }

    /** The channel on the heap is in the state that the run has led to. */
    ghost predicate Valid()
      reads this, channel, channel.buffer, channel.buffer.buffer, channel.receiveWaiters, channel.sendWaiters
      reads channel.Receivers.Keys, channel.Senders.Keys
    {
      && Recorded()
      && channel.Valid() && channel.Model() == World.s && channel.Wakes == World.wakes
      && senders == World.senderHandles && receivers == World.receiverHandles
    }

    /**
     * First in, first out: after the received values, the ring buffer and then the list of senders hold what is left
     * of the accepted values, in the order in which they were accepted.
     */
    lemma ChannelIsFifo()
      requires Valid()
      ensures Live(World.accepted, World.withdrawn) ==
        World.received + World.owners + Reverse(channel.sendWaiters.Nodes)
      ensures F.Carries(World.submitted, World.received, World.delivered)
      ensures F.Carries(World.submitted, World.owners, channel.buffer.Items)
    {
      hide R.Exec;
      F.RunKeepsFifo(channel.buffer.Capacity(), Ops);
    }

    /** Whoever queues has stored the waker of its latest poll, which is the one that will be called. */
    lemma WaitersRememberLatestPoll()
      requires Valid()
      ensures forall r | r in channel.receiveWaiters.Nodes :: r.data.task == K.LatestReceiveWaker(Ops, r)
      ensures forall n | n in channel.sendWaiters.Nodes :: n.data.task == K.LatestSendWaker(Ops, n)
    {
      hide R.Exec, I.NoLostWakeup, LinkedList<M.RecvEntry>.Valid, LinkedList<M.SendEntry<T>>.Valid;
      forall r | r in channel.receiveWaiters.Nodes
        ensures r.data.task == K.LatestReceiveWaker(Ops, r)
      {
        K.ReceiverRemembersLatestPoll(channel.buffer.Capacity(), Ops, r);
      }
      forall n | n in channel.sendWaiters.Nodes
        ensures n.data.task == K.LatestSendWaker(Ops, n)
      {
        K.SenderRemembersLatestPoll(channel.buffer.Capacity(), Ops, n);
      }
    }

    /** The channel is closed exactly if a call has closed it, or the last handle of one side is gone. */
    lemma ClosedOnlyByClosing()
      requires Valid()
      ensures channel.isClosed <==> exists k :: 0 <= k < |Ops| && H.Closes(Ops, k)
      ensures senders == H.Handles(Ops, R.CloneSender, R.DropSender)
      ensures receivers == H.Handles(Ops, R.CloneReceiver, R.DropReceiver)
    {
      hide R.Exec, I.Inv, ChannelState<T>.Shape;
      H.ClosedOnlyByClosing(channel.buffer.Capacity(), Ops);
    }

    lemma WorldIsSound()
      requires Valid()
      ensures R.WorldInv(World) && M.Linked(World.s)
      ensures channel.Senders.Keys == World.s.senders.Keys && channel.Receivers.Keys == World.s.receivers.Keys
    {
      I.InvIsLinked(World.s);
    }

    lemma SendFutureIsValid(future: SendFuture<T>)
      requires Valid() && Sends(future)
      ensures future.waitNode in World.s.senders
      ensures future.Valid() && future.waitNode.data == World.s.senders[future.waitNode]
      ensures R.WorldInv(World)
    {
      hide R.Exec, I.Inv, LinkedList<M.SendEntry<T>>.Valid;
      assert R.WorldInv(World);
    }

    lemma ReceiveFutureIsValid(future: ReceiveFuture<T>)
      requires Valid() && Receives(future)
      ensures future.waitNode in World.s.receivers && future.Valid()
      ensures R.WorldInv(World)
    {
      hide R.Exec, I.Inv, ChannelState<T>.Shape;
      assert R.WorldInv(World);
    }

    constructor (capacity: nat)
      ensures Valid() && fresh(channel) && fresh(channel.buffer) && fresh(channel.buffer.buffer)
      ensures fresh(channel.receiveWaiters) && fresh(channel.sendWaiters)
      ensures channel.buffer.Capacity() == capacity && Ops == [] && senders == 1 && receivers == 1
    {
      channel := new ChannelState(capacity);
      senders, receivers := 1, 1;
      Ops := [];
      World := R.Start(capacity);
    }

    ghost method Record(op: R.Op<RecvNode, SendNode<T>, T>)
      requires Recorded()
      modifies this`Ops, this`World
      ensures Recorded() && R.WorldInv(old(World))
      ensures Ops == old(Ops) + [op] && World == R.Step(old(World), op)
    {
      R.ExecStep(channel.buffer.Capacity(), Ops, op);
      World := R.Step(World, op);
      Ops := Ops + [op];
    }

    // ---- Sending ----

    method Send(value: T) returns (future: SendFuture<T>)
      requires Valid()
      modifies this`Ops, this`World, channel`Senders
      ensures Valid() && Ops == old(Ops) + [R.Send(future.waitNode, value)]
      ensures fresh(future) && fresh(future.waitNode) && Sends(future)
      ensures channel.Senders.Keys == old(channel.Senders.Keys) + {future.waitNode}
    {
      hide R.Exec, R.WorldInv, I.Inv, ChannelState<T>.Shape;
      WorldIsSound();
      future := MpmcChannels.Send(channel, value);
      Record(R.Send(future.waitNode, value));
    }

    method PollSend(future: SendFuture<T>, waker: Waker) returns (result: Poll<Option<T>>)
      requires Valid() && Sends(future)
      modifies this`Ops, this`World, future, channel, channel.buffer, channel.buffer.buffer
      modifies channel.receiveWaiters, channel.Receivers.Keys, channel.sendWaiters, channel.Senders.Keys
      ensures Valid() && Ops == old(Ops) + [R.PollSend(future.waitNode, waker)]
      ensures OnlyFinished(if result.Ready? then {future.waitNode} else {}, {})
      ensures result.Ready? && result.value.Some? ==> World.returned == old(World.returned) + {future.waitNode}
    {
      hide R.Exec, R.Step, R.WorldInv, I.Inv, M.SendOrRegister, ChannelState<T>.Shape, SendFuture<T>.Valid;
      SendFutureIsValid(future);
      ghost var n := future.waitNode;
      PollSendEffect(World, n, waker);
      result := future.Poll(waker);
      Record(R.PollSend(n, waker));
    }

    /** The value comes back if and only if it has not been sent; then it is the one that was submitted. */
    method CancelSend(future: SendFuture<T>) returns (value: Option<T>)
      requires Valid() && Sends(future)
      modifies this`Ops, this`World, future, channel, channel.sendWaiters, channel.Senders.Keys
      ensures Valid() && Ops == old(Ops) + [R.CancelSend(future.waitNode)]
      ensures OnlyFinished({future.waitNode}, {})
      ensures World.returned == old(World.returned) + if value.Some? then {future.waitNode} else {}
      ensures value.Some? ==> future.waitNode in World.submitted && value.value == World.submitted[future.waitNode]
    {
      hide R.Exec, R.Step, R.WorldInv, I.Inv, M.RemoveSendWaiter, ChannelState<T>.Shape, SendFuture<T>.Valid;
      SendFutureIsValid(future);
      ghost var n := future.waitNode;
      GiveUpSendEffect(World, n);
      HeldValueWasSubmitted(n);
      value := future.Cancel();
      Record(R.CancelSend(n));
    }

    lemma HeldValueWasSubmitted(n: SendNode<T>)
      requires Valid() && n in World.s.senders
      ensures n in World.submitted
      ensures World.s.senders[n].value.Some? ==> World.s.senders[n].value.value == World.submitted[n]
    {
      hide R.Exec;
      F.RunKeepsFifo(channel.buffer.Capacity(), Ops);
    }

    method DropSend(future: SendFuture<T>)
      requires Valid() && Sends(future)
      modifies this`Ops, this`World, channel, channel.sendWaiters, channel.Senders.Keys
      ensures Valid() && Ops == old(Ops) + [R.DropSend(future.waitNode)]
      ensures OnlyFinished({future.waitNode}, {})
    {
      hide R.Exec, R.Step, R.WorldInv, I.Inv, M.RemoveSendWaiter, ChannelState<T>.Shape, SendFuture<T>.Valid;
      SendFutureIsValid(future);
      ghost var n := future.waitNode;
      GiveUpSendEffect(World, n);
      future.Drop();
      Record(R.DropSend(n));
    }

    /** The history needs a name for a value that never waits; an unlinked node serves as one. */
    method TrySend(value: T) returns (error: Option<M.SendResult<T>>, ghost name: SendNode<T>)
      requires Valid() && channel.buffer.Capacity() > 0
      modifies this`Ops, this`World, channel`Receivers, channel`Wakes, channel.buffer, channel.buffer.buffer
      modifies channel.receiveWaiters, channel.Receivers.Keys
      ensures Valid() && Ops == old(Ops) + [R.TrySendNow(name, value)] && OnlyFinished({}, {})
      ensures World.accepted == old(World.accepted) + if error == None then [name] else []
      ensures error ==
        if channel.isClosed then Some(M.SendClosed(value))
        else if old(|channel.buffer.Items|) == channel.buffer.Capacity() then Some(M.SendFull(value))
        else None
    {
      hide R.Exec, R.Step, R.WorldInv, I.Inv, M.TrySend, ChannelState<T>.Shape;
      WorldIsSound();
      var unlinked := new ListNode(M.SendEntry(None, M.SendUnregistered, Some(value)));
      name := unlinked;
      TrySendNowEffect(World, name, value);
      error := MpmcChannels.TrySendNow(channel, value);
      Record(R.TrySendNow(name, value));
    }

    // ---- Receiving ----

    method Receive() returns (future: ReceiveFuture<T>)
      requires Valid()
      modifies this`Ops, this`World, channel`Receivers
      ensures Valid() && Ops == old(Ops) + [R.Receive(future.waitNode)]
      ensures fresh(future) && fresh(future.waitNode) && Receives(future)
      ensures channel.Receivers.Keys == old(channel.Receivers.Keys) + {future.waitNode}
    {
      hide R.Exec, R.WorldInv, I.Inv, ChannelState<T>.Shape;
      WorldIsSound();
      future := MpmcChannels.Receive(channel);
      Record(R.Receive(future.waitNode));
    }

    method PollReceive(future: ReceiveFuture<T>, waker: Waker) returns (result: Poll<Option<T>>)
      requires Valid() && Receives(future)
      modifies this`Ops, this`World, future, channel, channel.buffer, channel.buffer.buffer
      modifies channel.receiveWaiters, channel.Receivers.Keys, channel.sendWaiters, channel.Senders.Keys
      ensures Valid() && Ops == old(Ops) + [R.PollReceive(future.waitNode, waker)]
      ensures OnlyFinished({}, if result.Ready? then {future.waitNode} else {})
      ensures World.delivered == old(World.delivered) + if result.Ready? then OneOrNone(result.value) else []
    {
      hide R.Exec, R.Step, R.WorldInv, I.Inv, M.ReceiveOrRegister, ChannelState<T>.Shape;
      ReceiveFutureIsValid(future);
      ghost var r := future.waitNode;
      PollReceiveEffect(World, r, waker);
      result := future.Poll(waker);
      Record(R.PollReceive(r, waker));
    }

    method DropReceive(future: ReceiveFuture<T>)
      requires Valid() && Receives(future)
      modifies this`Ops, this`World, channel, channel.receiveWaiters, channel.Receivers.Keys
      ensures Valid() && Ops == old(Ops) + [R.DropReceive(future.waitNode)]
      ensures OnlyFinished({}, {future.waitNode})
    {
      hide R.Exec, R.Step, R.WorldInv, I.Inv, M.RemoveReceiveWaiter, ChannelState<T>.Shape;
      ReceiveFutureIsValid(future);
      ghost var r := future.waitNode;
      GiveUpReceiveEffect(World, r);
      future.Drop();
      Record(R.DropReceive(r));
    }

    method TryReceive() returns (received: Result<T, M.TryReceiveError>)
      requires Valid()
      modifies this`Ops, this`World, channel`Senders, channel`Wakes, channel.buffer, channel.buffer.buffer
      modifies channel.sendWaiters, channel.Senders.Keys
      ensures Valid() && Ops == old(Ops) + [R.TryReceiveNow] && OnlyFinished({}, {})
      ensures World.delivered == old(World.delivered) + if received.Ok? then [received.value] else []
    {
      hide R.Exec, R.Step, R.WorldInv, I.Inv, M.TryReceive, ChannelState<T>.Shape;
      WorldIsSound();
      TryReceiveNowEffect(World);
      received := MpmcChannels.TryReceiveNow(channel);
      Record(R.TryReceiveNow);
    }

    // ---- Closing ----

    /** Closing tells the first caller, and only that one, that it has closed the channel. */
    method Close() returns (status: M.CloseStatus)
      requires Valid()
      modifies this`Ops, this`World, channel`isClosed, channel`Receivers, channel`Senders, channel`Wakes
      modifies channel.receiveWaiters, channel.Receivers.Keys, channel.sendWaiters, channel.Senders.Keys
      ensures Valid() && Ops == old(Ops) + [R.CloseChannel] && OnlyFinished({}, {})
      ensures channel.isClosed && (status == M.NewlyClosed <==> !old(channel.isClosed))
      ensures status == M.NewlyClosed <==> !old(exists k :: 0 <= k < |Ops| && H.Closes(Ops, k))
    {
      hide R.Exec, R.Step, R.WorldInv, I.Inv, M.Close, M.CloseCalls, ChannelState<T>.Shape;
      hide Recorded, M.Linked, ChannelState<T>.Valid;
      WorldIsSound();
      CloseEffect(World);
      ClosedOnlyByClosing();
      status := channel.Close();
      Record(R.CloseChannel);
    }

    method CloneSender()
      requires Valid() && senders > 0
      modifies this`Ops, this`World, this`senders
      ensures Valid() && Ops == old(Ops) + [R.CloneSender]
    {
      hide R.Exec, R.WorldInv, I.Inv, ChannelState<T>.Shape;
      senders := senders + 1;
      Record(R.CloneSender);
    }

    /** What both kinds of handles do when they are dropped. */
    method CloseIfLast(left: nat)
      requires channel.Valid()
      modifies channel`isClosed, channel`Receivers, channel`Senders, channel`Wakes
      modifies channel.receiveWaiters, channel.Receivers.Keys, channel.sendWaiters, channel.Senders.Keys
      ensures channel.Valid() && OnlyFinished({}, {})
      ensures channel.Model() == if left == 0 then M.Close(old(channel.Model())).0 else old(channel.Model())
      ensures channel.Wakes == old(channel.Wakes) + if left == 0 then M.CloseCalls(old(channel.Model())) else []
    {
      hide I.Inv, M.Close, M.CloseCalls, ChannelState<T>.Shape;
      I.InvIsLinked(channel.Model());
      if left == 0 {
        var _ := channel.Close();
      }
    }

    /** The last sender handle closes the channel. */
    method DropSender()
      requires Valid() && senders > 0
      modifies this`Ops, this`World, this`senders
      modifies channel`isClosed, channel`Receivers, channel`Senders, channel`Wakes
      modifies channel.receiveWaiters, channel.Receivers.Keys, channel.sendWaiters, channel.Senders.Keys
      ensures Valid() && Ops == old(Ops) + [R.DropSender] && OnlyFinished({}, {})
      ensures senders == 0 ==> channel.isClosed
    {
      hide Recorded, R.Step, R.WorldInv, I.Inv, M.Linked, M.Close, M.CloseCalls, ChannelState<T>.Valid;
      WorldIsSound();
      DropHandleEffect(World, R.DropSender);
      senders := senders - 1;
      CloseIfLast(senders);
      Record(R.DropSender);
    }

    method CloneReceiver()
      requires Valid() && receivers > 0
      modifies this`Ops, this`World, this`receivers
      ensures Valid() && Ops == old(Ops) + [R.CloneReceiver]
    {
      hide R.Exec, R.WorldInv, I.Inv, ChannelState<T>.Shape;
      receivers := receivers + 1;
      Record(R.CloneReceiver);
    }

    /** The last receiver handle closes the channel; it clears the buffer only after it has let go of the lock. */
    method DropReceiver()
      requires Valid() && receivers > 0
      modifies this`Ops, this`World, this`receivers
      modifies channel`isClosed, channel`Receivers, channel`Senders, channel`Wakes
      modifies channel.receiveWaiters, channel.Receivers.Keys, channel.sendWaiters, channel.Senders.Keys
      ensures Valid() && Ops == old(Ops) + [R.DropReceiver] && OnlyFinished({}, {})
      ensures receivers == 0 ==> channel.isClosed && World.clearing
    {
      hide Recorded, R.Step, R.WorldInv, I.Inv, M.Linked, M.Close, M.CloseCalls, ChannelState<T>.Valid;
      WorldIsSound();
      DropHandleEffect(World, R.DropReceiver);
      receivers := receivers - 1;
      CloseIfLast(receivers);
      Record(R.DropReceiver);
    }

    method Clear()
      requires Valid() && World.clearing
      modifies this`Ops, this`World, channel.buffer
      ensures Valid() && Ops == old(Ops) + [R.ClearChannel]
      ensures channel.buffer.Items == [] && !World.clearing
    {
      hide R.Exec, I.Inv, ChannelState<T>.Shape;
      WorldIsSound();
      channel.Clear();
      Record(R.ClearChannel);
    }
  }

  ghost function OneOrNone<T>(value: Option<T>): seq<T> {
    if value.Some? then [value.value] else []
  }

  // ---- What the operations do in a run, as far as the heap can tell ----

  ghost predicate SameHandles<A, B, T>(w: R.World<A, B, T>, w': R.World<A, B, T>) {
    w'.senderHandles == w.senderHandles && w'.receiverHandles == w.receiverHandles
  }

  lemma PollSendEffect<A, B, T>(w: R.World<A, B, T>, n: B, waker: Waker)
    requires R.WorldInv(w) && n in w.s.senders
    ensures M.Linked(w.s) && (w.s.senders[n].state == M.SendUnregistered ==> w.s.senders[n].value.Some?)
    ensures var (s, p) := M.SendOrRegister(w.s, n, waker); var w' := R.Step(w, R.PollSend(n, waker));
      && w'.s == (if p.poll.Ready? then I.ForgetSender(s, n) else s)
      && w'.s.senders.Keys == w.s.senders.Keys - (if p.poll.Ready? then {n} else {})
      && w'.s.receivers.Keys == w.s.receivers.Keys
      && w'.wakes == w.wakes + Woken(p.task) && SameHandles(w, w')
      && (p.poll.Ready? && p.value.Some? ==> w'.returned == w.returned + {n})
  {
    hide M.SendOrRegister, I.Inv;
    I.InvIsLinked(w.s);
    I.SendEffect(w.s, n, waker);
    I.SendOrRegisterKeepsInv(w.s, n, waker);
  }

  lemma GiveUpSendEffect<A, B, T>(w: R.World<A, B, T>, n: B)
    requires R.WorldInv(w) && n in w.s.senders
    ensures var s := I.ForgetSender(M.RemoveSendWaiter(w.s, n), n);
      && s.senders.Keys == w.s.senders.Keys - {n} && s.receivers.Keys == w.s.receivers.Keys
      && forall op | op == R.CancelSend(n) || op == R.DropSend(n) ::
        R.Step(w, op).s == s && R.Step(w, op).wakes == w.wakes && SameHandles(w, R.Step(w, op))
    ensures R.Step(w, R.CancelSend(n)).submitted == w.submitted
    ensures R.Step(w, R.CancelSend(n)).returned == w.returned + if w.s.senders[n].value.Some? then {n} else {}
  {
  }

  lemma TrySendNowEffect<A, B, T>(w: R.World<A, B, T>, n: B, value: T)
    requires R.WorldInv(w) && n !in w.submitted && w.s.capacity > 0
    ensures M.Linked(w.s)
    ensures var (s, result) := M.TrySend(w.s, value); var w' := R.Step(w, R.TrySendNow(n, value));
      && w'.s == s && s.senders.Keys == w.s.senders.Keys && s.receivers.Keys == w.s.receivers.Keys
      && w'.wakes == w.wakes + (if result.Sent? then Woken(result.task) else []) && SameHandles(w, w')
      && w'.accepted == w.accepted + (if result.Sent? then [n] else [])
      && s.isClosed == w.s.isClosed
      && if w.s.isClosed then result == M.SendClosed(value)
        else if |w.s.buffer| == w.s.capacity then result == M.SendFull(value)
        else result.Sent?
  {
    hide M.TrySend;
    I.TrySendKeepsInv(w.s, value);
    I.TrySendEffect(w.s, value);
  }

  lemma PollReceiveEffect<A, B, T>(w: R.World<A, B, T>, r: A, waker: Waker)
    requires R.WorldInv(w) && r in w.s.receivers
    ensures M.Linked(w.s)
    ensures var (s, p) := M.ReceiveOrRegister(w.s, r, waker); var w' := R.Step(w, R.PollReceive(r, waker));
      && w'.s == (if p.Ready? then I.ForgetReceiver(s, r) else s)
      && w'.s.receivers.Keys == w.s.receivers.Keys - (if p.Ready? then {r} else {})
      && w'.s.senders.Keys == w.s.senders.Keys
      && w'.wakes == w.wakes + (if p.Ready? && p.value.Some? then Woken(p.value.value.1) else []) && SameHandles(w, w')
      && w'.delivered == w.delivered + if p.Ready? && p.value.Some? then [p.value.value.0] else []
  {
    hide M.ReceiveOrRegister, I.Inv;
    I.InvIsLinked(w.s);
    I.ReceiveEffect(w.s, r, waker);
    I.ReceiveOrRegisterKeepsInv(w.s, r, waker);
  }

  lemma GiveUpReceiveEffect<A, B, T>(w: R.World<A, B, T>, r: A)
    requires R.WorldInv(w) && r in w.s.receivers
    ensures M.Linked(w.s)
    ensures var (s, task) := M.RemoveReceiveWaiter(w.s, r); var w' := R.Step(w, R.DropReceive(r));
      && w'.s == I.ForgetReceiver(s, r) && w'.wakes == w.wakes + Woken(task) && SameHandles(w, w')
      && w'.s.receivers.Keys == w.s.receivers.Keys - {r} && w'.s.senders.Keys == w.s.senders.Keys
  {
    hide M.RemoveReceiveWaiter;
    I.RemoveReceiveWaiterKeepsInv(w.s, r);
  }

  lemma CloseEffect<A, B, T>(w: R.World<A, B, T>)
    requires R.WorldInv(w)
    ensures M.Linked(w.s)
    ensures var s, w' := M.Close(w.s).0, R.Step(w, R.CloseChannel);
      && s.senders.Keys == w.s.senders.Keys && s.receivers.Keys == w.s.receivers.Keys
      && w'.s == s && w'.wakes == w.wakes + M.CloseCalls(w.s) && SameHandles(w, w')
  {
    hide I.Inv, M.CloseCalls;
    I.InvIsLinked(w.s);
  }

  /** Letting go of a handle closes the channel if it is the last one. */
  lemma DropHandleEffect<A, B, T>(w: R.World<A, B, T>, op: R.Op<A, B, T>)
    requires R.WorldInv(w) && R.Enabled(w, op) && (op == R.DropSender || op == R.DropReceiver)
    ensures M.Linked(w.s)
    ensures var last, w' := if op.DropSender? then w.senderHandles == 1 else w.receiverHandles == 1, R.Step(w, op);
      && w'.s == (if last then M.Close(w.s).0 else w.s)
      && w'.wakes == (if last then w.wakes + M.CloseCalls(w.s) else w.wakes)
      && w'.s.senders.Keys == w.s.senders.Keys && w'.s.receivers.Keys == w.s.receivers.Keys
      && w'.senderHandles == w.senderHandles - (if op.DropSender? then 1 else 0)
      && w'.receiverHandles == w.receiverHandles - (if op.DropReceiver? then 1 else 0)
      && (last && op.DropReceiver? ==> w'.clearing)
      && (last ==> w'.s.isClosed)
  {
    hide I.Inv, M.CloseCalls;
    I.InvIsLinked(w.s);
  }

  lemma TryReceiveNowEffect<A, B, T>(w: R.World<A, B, T>)
    requires R.WorldInv(w)
    ensures M.Linked(w.s)
    ensures var (s, result) := M.TryReceive(w.s); var w' := R.Step(w, R.TryReceiveNow);
      && w'.s == s && s.senders.Keys == w.s.senders.Keys && s.receivers.Keys == w.s.receivers.Keys
      && w'.wakes == w.wakes + (if result.Received? then Woken(result.task) else []) && SameHandles(w, w')
      && w'.delivered == w.delivered + if result.Received? then [result.value] else []
  {
    hide M.TryReceive, I.Inv;
    R.TryReceiveKeepsWellFormed(w.s);
    I.TryReceiveEffect(w.s);
  }
}
