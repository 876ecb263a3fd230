/** The channel on the heap: values in a ring buffer, and the wait queue entries of its futures in two linked lists. */
module MpmcChannels {
  import opened Collections
  import opened LinkedLists
  import opened RingBuffers
  import M = MpmcModel
  import I = MpmcInvariants

  type RecvNode = ListNode<M.RecvEntry>
  type SendNode<T> = ListNode<M.SendEntry<T>>

  /** What closing does to a queued receiver: it is woken and may try again. */
  function ReleaseReceiver(e: M.RecvEntry): (M.RecvEntry, seq<Waker>) {
    (M.RecvEntry(None, M.Unregistered), Woken(e.task))
  }

  /** What closing does to a queued sender: it is woken and still has its value. */
  function ReleaseSender<T>(e: M.SendEntry<T>): (M.SendEntry<T>, seq<Waker>) {
    (e.(task := None, state := M.SendUnregistered), Woken(e.task))
  }

  lemma {:induction false} ReceiversAreCalledOldestFirst(
      nodes: seq<RecvNode>, lo: nat, receivers: map<RecvNode, M.RecvEntry>)
    requires lo <= |nodes|
    requires forall n | n in nodes :: n in receivers && n.data == receivers[n]
    ensures ReverseEffects(ReleaseReceiver, nodes, lo) == M.ReceiverCalls(nodes[lo..], receivers)
    decreases |nodes| - lo
  {
    if lo < |nodes| {
      ReceiversAreCalledOldestFirst(nodes, lo + 1, receivers);
      assert nodes[lo..][1..] == nodes[lo + 1..];
    }
  }

  lemma {:induction false} SendersAreCalledOldestFirst<T>(
      nodes: seq<SendNode<T>>, lo: nat, senders: map<SendNode<T>, M.SendEntry<T>>)
    requires lo <= |nodes|
    requires forall n | n in nodes :: n in senders && n.data == senders[n]
    ensures ReverseEffects(ReleaseSender<T>, nodes, lo) == M.SenderCalls(nodes[lo..], senders)
    decreases |nodes| - lo
  {
    if lo < |nodes| {
      SendersAreCalledOldestFirst(nodes, lo + 1, senders);
      assert nodes[lo..][1..] == nodes[lo + 1..];
    }
  }

  /** Wakes all receivers in the list, the oldest first, and empties it. */
  method WakeRecvWaiters(waiters: LinkedList<M.RecvEntry>) returns (calls: seq<Waker>)
    requires waiters.Valid()
    modifies waiters, waiters.Repr
    ensures waiters.Valid() && waiters.Nodes == [] && waiters.Repr == {}
    ensures forall n {:trigger n.data} | n in old(waiters.Nodes) :: n.data == M.RecvEntry(None, M.Unregistered)
    ensures calls == old(ReverseEffects(ReleaseReceiver, waiters.Nodes, 0))
  {
    calls := waiters.ReverseDrain(ReleaseReceiver);
  }

  /** Wakes all senders in the list, the oldest first, and empties it. */
  method WakeSendWaiters<T>(waiters: LinkedList<M.SendEntry<T>>) returns (calls: seq<Waker>)
    requires waiters.Valid()
    modifies waiters, waiters.Repr
    ensures waiters.Valid() && waiters.Nodes == [] && waiters.Repr == {}
    ensures forall n {:trigger n.data} | n in old(waiters.Nodes) ::
      n.data == old(n.data).(task := None, state := M.SendUnregistered)
    ensures calls == old(ReverseEffects(ReleaseSender<T>, waiters.Nodes, 0))
  {
    calls := waiters.ReverseDrain(ReleaseSender);
  }

  class ChannelState<T(0)> {
    var isClosed: bool
    const buffer: ArrayBuf<T>
    const receiveWaiters: LinkedList<M.RecvEntry>
    const sendWaiters: LinkedList<M.SendEntry<T>>
    /** What the wait nodes of all live receive futures hold, whether they are linked or not. */
    ghost var Receivers: map<RecvNode, M.RecvEntry>
    /** The same for the send futures. */
    ghost var Senders: map<SendNode<T>, M.SendEntry<T>>
    /** Every wake-up call so far. */
    ghost var Wakes: seq<Waker>

    ghost function Model(): M.State<RecvNode, SendNode<T>, T>
      reads this`isClosed, this`Receivers, this`Senders, buffer`Items, receiveWaiters`Nodes, sendWaiters`Nodes
    {
      M.State(isClosed, buffer.Capacity(), buffer.Items, receiveWaiters.Nodes, sendWaiters.Nodes, Receivers, Senders)
    }

    /** The queue of receivers links wait nodes of live receive futures only. */
    ghost predicate ReceiveShape()
      reads this`Receivers, receiveWaiters, Receivers.Keys
    {
      && (forall n | n in receiveWaiters.Nodes :: n in Receivers)
      && receiveWaiters.Repr <= Receivers.Keys
      && receiveWaiters.Valid() && receiveWaiters.Exact()
      && (forall n {:trigger n.data} | n in Receivers :: n.data == Receivers[n])
    }

    /** The queue of senders links wait nodes of live send futures that still have their value. */
    ghost predicate SendShape()
      reads this`Senders, sendWaiters, Senders.Keys
    {
      && (forall n | n in sendWaiters.Nodes :: n in Senders && Senders[n].value.Some?)
      && sendWaiters.Repr <= Senders.Keys
      && sendWaiters.Valid() && sendWaiters.Exact()
      && (forall n {:trigger n.data} | n in Senders :: n.data == Senders[n])
    }

    ghost predicate Shape()
      reads this`isClosed, this`Receivers, this`Senders
      reads receiveWaiters, sendWaiters, Receivers.Keys, Senders.Keys, buffer, buffer.buffer
    {
      ReceiveShape() && SendShape() && buffer.Valid() && M.Linked(Model())
    }

    ghost predicate Valid()
      reads this`isClosed, this`Receivers, this`Senders
      reads receiveWaiters, sendWaiters, Receivers.Keys, Senders.Keys, buffer, buffer.buffer
    {
      Shape() && I.Inv(Model())
    }

    constructor (capacity: nat)
      ensures Valid() && fresh(buffer) && fresh(buffer.buffer) && fresh(receiveWaiters) && fresh(sendWaiters)
      ensures Model() == M.State(false, capacity, [], [], [], map[], map[]) && Wakes == []
    {
      isClosed := false;
      buffer := new ArrayBuf(capacity);
      receiveWaiters := new LinkedList();
      sendWaiters := new LinkedList();
      Receivers, Senders, Wakes := map[], map[], [];
    }

    // ---- Receivers ----

    /** Records a change of a receiver's wait node in the ghost copy. */
    method SetReceiver(node: RecvNode, data: M.RecvEntry)
      requires Shape() && node in Receivers
      modifies this`Receivers, node`data
      ensures Shape()
      ensures Model() == M.SetReceiver(old(Model()), node, data)
    {
      hide SendShape, ArrayBuf<T>.Valid, LinkedList<M.RecvEntry>.Valid;
      node.data := data;
      Receivers := Receivers[node := data];
    }

    method ReleaseAllReceivers()
      requires Shape()
      modifies this`Receivers, this`Wakes, receiveWaiters, Receivers.Keys
      ensures Shape() && Receivers.Keys == old(Receivers.Keys)
      ensures Wakes == old(Wakes + M.ReceiverCalls(receiveWaiters.Nodes, Receivers))
      ensures Model() == old(Model()).(
        receiveWaiters := [], receivers := M.ReleaseReceivers(old(receiveWaiters.Nodes), old(Receivers)))
    {
      hide SendShape, ArrayBuf<T>.Valid, LinkedList<M.RecvEntry>.Valid, ReverseEffects, M.ReceiverCalls;
      ghost var nodes := receiveWaiters.Nodes;
      ReceiversAreCalledOldestFirst(nodes, 0, Receivers);
      assert nodes[0..] == nodes;
      var calls := WakeRecvWaiters(receiveWaiters);
      assert forall n {:trigger n.data} | n in Receivers && n !in nodes :: n.data == old(n.data);
      Wakes := Wakes + calls;
      Receivers := M.ReleaseReceivers(nodes, Receivers);
    }

    method UnlinkOldestReceiver() returns (node: ListNode?<M.RecvEntry>)
      requires Shape()
      modifies receiveWaiters, Receivers.Keys`prev, Receivers.Keys`next
      ensures Shape()
      ensures if old(receiveWaiters.Nodes) == [] then node == null && Model() == old(Model()) else
        node == Last(old(receiveWaiters.Nodes)) &&
        Model() == old(Model()).(receiveWaiters := DropLast(old(receiveWaiters.Nodes)))
    {
      hide SendShape, ArrayBuf<T>.Valid, LinkedList<M.RecvEntry>.Valid;
      node := receiveWaiters.RemoveLast();
      assert node != null ==> receiveWaiters.Nodes == DropLast(old(receiveWaiters.Nodes));
    }

    /** Takes the oldest receiver off its queue, notifies it and hands its waker out. */
    method ReturnOldestReceiver() returns (task: Option<Waker>)
      requires Shape()
      modifies this`Receivers, receiveWaiters, Receivers.Keys
      ensures Shape() && Receivers.Keys == old(Receivers.Keys)
      ensures (Model(), task) == M.ReturnOldestReceiver(old(Model()))
      ensures old(receiveWaiters.Nodes) != [] ==>
        var oldest := old(Last(receiveWaiters.Nodes));
        && oldest.data.state == M.Notified && task == old(oldest.data.task)
        && receiveWaiters.Nodes == old(DropLast(receiveWaiters.Nodes))
    {
      hide SendShape, ArrayBuf<T>.Valid, LinkedList<M.RecvEntry>.Valid;
      assert receiveWaiters.Nodes != [] ==> Last(receiveWaiters.Nodes) in receiveWaiters.Nodes;
      var lastWaiter := UnlinkOldestReceiver();
      if lastWaiter != null {
        task := lastWaiter.data.task;
        SetReceiver(lastWaiter, M.RecvEntry(None, M.Notified));
        return;
      }
      return None;
    }

    method EnqueueReceiver(node: RecvNode, waker: Waker)
      requires Shape() && node in Receivers && node !in receiveWaiters.Nodes
      modifies this`Receivers, receiveWaiters, node, Receivers.Keys`prev
      ensures Shape() && Receivers.Keys == old(Receivers.Keys)
      ensures Model() == M.SetReceiver(old(Model()), node, M.RecvEntry(Some(waker), M.Registered)).(
        receiveWaiters := [node] + old(receiveWaiters.Nodes))
    {
      hide SendShape, ArrayBuf<T>.Valid, LinkedList<M.RecvEntry>.Valid;
      SetReceiver(node, M.RecvEntry(Some(waker), M.Registered));
      receiveWaiters.AddFront(node);
    }

    /** Unlinks a queued receiver. The source panics if the node is not linked, which the precondition excludes. */
    method UnlinkReceiver(node: RecvNode)
      requires Shape() && node in receiveWaiters.Nodes
      modifies receiveWaiters, Receivers.Keys`prev, Receivers.Keys`next
      ensures Shape()
      ensures Model() == old(Model()).(receiveWaiters := Without(old(receiveWaiters.Nodes), node))
    {
      hide SendShape, ArrayBuf<T>.Valid, LinkedList<M.RecvEntry>.Valid;
      WithoutMembers(receiveWaiters.Nodes, node);
      var removed := receiveWaiters.Remove(node);
      assert removed;
    }

    // ---- Senders ----

    method SetSender(node: SendNode<T>, data: M.SendEntry<T>)
      requires Shape() && node in Senders && (node in sendWaiters.Nodes ==> data.value.Some?)
      modifies this`Senders, node`data
      ensures Shape()
      ensures Model() == M.SetSender(old(Model()), node, data)
    {
      hide ReceiveShape, ArrayBuf<T>.Valid, LinkedList<M.SendEntry<T>>.Valid;
      node.data := data;
      Senders := Senders[node := data];
    }

    method ReleaseAllSenders()
      requires Shape()
      modifies this`Senders, this`Wakes, sendWaiters, Senders.Keys
      ensures Shape() && Senders.Keys == old(Senders.Keys)
      ensures Wakes == old(Wakes + M.SenderCalls(sendWaiters.Nodes, Senders))
      ensures Model() == old(Model()).(
        sendWaiters := [], senders := M.ReleaseSenders(old(sendWaiters.Nodes), old(Senders)))
    {
      hide ReceiveShape, ArrayBuf<T>.Valid, LinkedList<M.SendEntry<T>>.Valid, ReverseEffects, M.SenderCalls;
      ghost var nodes := sendWaiters.Nodes;
      SendersAreCalledOldestFirst(nodes, 0, Senders);
      assert nodes[0..] == nodes;
      var calls := WakeSendWaiters(sendWaiters);
      assert forall n {:trigger n.data} | n in Senders && n !in nodes :: n.data == old(n.data);
      Wakes := Wakes + calls;
      Senders := M.ReleaseSenders(nodes, Senders);
    }

    method UnlinkOldestSender() returns (node: ListNode?<M.SendEntry<T>>)
      requires Shape()
      modifies sendWaiters, Senders.Keys`prev, Senders.Keys`next
      ensures Shape()
      ensures if old(sendWaiters.Nodes) == [] then node == null && Model() == old(Model()) else
        node == Last(old(sendWaiters.Nodes)) &&
        Model() == old(Model()).(sendWaiters := DropLast(old(sendWaiters.Nodes))) &&
        node !in sendWaiters.Nodes
    {
      hide ReceiveShape, ArrayBuf<T>.Valid, LinkedList<M.SendEntry<T>>.Valid;
      node := sendWaiters.RemoveLast();
      assert node != null ==> sendWaiters.Nodes == DropLast(old(sendWaiters.Nodes));
    }

    /** Takes the oldest sender off its queue and completes its send; its value and its waker are handed out. */
    method CompleteOldestSender() returns (oldest: Option<(T, Option<Waker>)>)
      requires Shape()
      modifies this`Senders, sendWaiters, Senders.Keys
      ensures Shape() && Senders.Keys == old(Senders.Keys)
      ensures if old(sendWaiters.Nodes) == [] then oldest == None && Model() == old(Model()) else
        var e := old(Senders[Last(sendWaiters.Nodes)]);
        Model() == M.CompleteOldestSender(old(Model())) && oldest == Some((e.value.value, e.task))
    {
      hide ReceiveShape, ArrayBuf<T>.Valid, LinkedList<M.SendEntry<T>>.Valid;
      assert sendWaiters.Nodes != [] ==> Last(sendWaiters.Nodes) in sendWaiters.Nodes;
      var lastWaiter := UnlinkOldestSender();
      if lastWaiter != null {
        var value, task := lastWaiter.data.value.value, lastWaiter.data.task;
        SetSender(lastWaiter, M.SendEntry(None, M.SendComplete, None));
        return Some((value, task));
      }
      return None;
    }

    method EnqueueSender(node: SendNode<T>, waker: Waker)
      requires Shape() && node in Senders && node !in sendWaiters.Nodes && node.data.value.Some?
      modifies this`Senders, sendWaiters, node, Senders.Keys`prev
      ensures Shape() && Senders.Keys == old(Senders.Keys)
      ensures var e := M.SendEntry(Some(waker), M.SendRegistered, old(node.data.value));
        Model() == M.SetSender(old(Model()), node, e).(sendWaiters := [node] + old(sendWaiters.Nodes))
    {
      hide ReceiveShape, ArrayBuf<T>.Valid, LinkedList<M.SendEntry<T>>.Valid;
      SetSender(node, M.SendEntry(Some(waker), M.SendRegistered, node.data.value));
      sendWaiters.AddFront(node);
    }

    /** Unlinks a queued sender. The source panics if the node is not linked, which the precondition excludes. */
    method UnlinkSender(node: SendNode<T>)
      requires Shape() && node in sendWaiters.Nodes
      modifies sendWaiters, Senders.Keys`prev, Senders.Keys`next
      ensures Shape()
      ensures Model() == old(Model()).(sendWaiters := Without(old(sendWaiters.Nodes), node))
    {
      hide ReceiveShape, ArrayBuf<T>.Valid, LinkedList<M.SendEntry<T>>.Valid;
      WithoutMembers(sendWaiters.Nodes, node);
      var removed := sendWaiters.Remove(node);
      assert removed;
    }

    // ---- The buffer ----

    method PushValue(value: T)
      requires Shape() && |buffer.Items| < buffer.Capacity()
      modifies buffer, buffer.buffer
      ensures Shape()
      ensures Model() == old(Model()).(buffer := old(buffer.Items) + [value])
    {
      hide ReceiveShape, SendShape, ArrayBuf<T>.Valid;
      buffer.Push(value);
    }

    method PopValue() returns (value: T)
      requires Shape() && buffer.Items != []
      modifies buffer
      ensures Shape()
      ensures value == old(buffer.Items[0]) && Model() == old(Model()).(buffer := old(buffer.Items[1..]))
    {
      hide ReceiveShape, SendShape, ArrayBuf<T>.Valid;
      value := buffer.Pop();
    }

    // ---- The operations under the channel's lock ----

    /** Closes the channel and wakes everybody who waits for it. */
    method Close() returns (status: M.CloseStatus)
      requires Valid()
      modifies this`isClosed, this`Receivers, this`Senders, this`Wakes
      modifies receiveWaiters, Receivers.Keys, sendWaiters, Senders.Keys
      ensures Valid() && Receivers.Keys == old(Receivers.Keys) && Senders.Keys == old(Senders.Keys)
      ensures (Model(), status) == M.Close(old(Model()))
      ensures isClosed && (status == M.NewlyClosed <==> !old(isClosed))
      ensures Wakes == old(Wakes) + M.CloseCalls(old(Model()))
    {
      hide I.Inv, ReceiveShape, SendShape, M.ReceiverCalls, M.SenderCalls, M.ReleaseReceivers, M.ReleaseSenders;
      I.CloseKeepsInv(Model());
      if isClosed {
        return M.AlreadyClosed;
      }
      isClosed := true;
      assert Model() == old(Model()).(isClosed := true);
      ReleaseAllReceivers();
      ReleaseAllSenders();
      return M.NewlyClosed;
    }

    /** Sends without waiting. The source's debug assertion refuses this for a channel without a buffer. */
    method TrySend(value: T) returns (result: M.SendResult<T>)
      requires Valid() && buffer.Capacity() > 0
      modifies this`Receivers, buffer, buffer.buffer, receiveWaiters, Receivers.Keys
      ensures Valid() && Receivers.Keys == old(Receivers.Keys)
      ensures (Model(), result) == M.TrySend(old(Model()), value)
    {
      hide I.NoLostWakeup, I.WellFormed, ReceiveShape, SendShape;
      I.TrySendKeepsInv(Model(), value);
      var canPush := buffer.CanPush();
      if isClosed {
        return M.SendClosed(value);
      } else if canPush {
        PushValue(value);
        var task := ReturnOldestReceiver();
        return M.Sent(task);
      } else {
        return M.SendFull(value);
      }
    }

    /** One poll of a send future, which must not have finished before. */
    method SendOrRegister(node: SendNode<T>, waker: Waker) returns (result: M.SendPoll<T>)
      requires Valid() && node in Senders && (node.data.state == M.SendUnregistered ==> node.data.value.Some?)
      modifies this`Receivers, this`Senders, buffer, buffer.buffer
      modifies receiveWaiters, Receivers.Keys, sendWaiters, Senders.Keys
      ensures Valid() && Receivers.Keys == old(Receivers.Keys) && Senders.Keys == old(Senders.Keys)
      ensures (Model(), result) == M.SendOrRegister(old(Model()), node, waker)
    {
      hide I.NoLostWakeup, I.WellFormed, ReceiveShape, LinkedList<M.SendEntry<T>>.Valid;
      I.SendOrRegisterKeepsInv(Model(), node, waker);
      I.StateTellsQueued(Model(), node);
      match node.data.state
      case SendUnregistered =>
        if isClosed {
          var value := node.data.value;
          SetSender(node, node.data.(value := None));
          return M.SendPoll(Ready(()), value, None);
        }
        var canPush := buffer.CanPush();
        if !canPush {
          EnqueueSender(node, waker);
          var task := ReturnOldestReceiver();
          return M.SendPoll(Pending, None, task);
        } else {
          var value := node.data.value.value;
          SetSender(node, node.data.(value := None));
          PushValue(value);
          var task := ReturnOldestReceiver();
          return M.SendPoll(Ready(()), None, task);
        }
      case SendRegistered =>
        SetSender(node, node.data.(task := UpdateWakerRef(node.data.task, waker)));
        return M.SendPoll(Pending, None, None);
      case SendComplete =>
        return M.SendPoll(Ready(()), None, None);
    }

    /** Moves the value of the oldest queued sender into the buffer, which must have room for it. */
    method TryCopyValueFromOldestWaiter() returns (task: Option<Waker>)
      requires Shape() && |buffer.Items| < buffer.Capacity()
      modifies this`Senders, buffer, buffer.buffer, sendWaiters, Senders.Keys
      ensures Shape() && Senders.Keys == old(Senders.Keys)
      ensures (Model(), task) == M.TryCopyValueFromOldestWaiter(old(Model()))
    {
      hide ReceiveShape, SendShape;
      var oldest := CompleteOldestSender();
      if oldest.Some? {
        PushValue(oldest.value.0);
        return oldest.value.1;
      }
      return None;
    }

    /** Takes the value directly out of the oldest queued sender. */
    method TryTakeValueFromSender() returns (taken: Option<(T, Option<Waker>)>)
      requires Shape() && (sendWaiters.Nodes != [] ==> buffer.Capacity() == 0)
      modifies this`Senders, sendWaiters, Senders.Keys
      ensures Shape() && Senders.Keys == old(Senders.Keys)
      ensures if old(sendWaiters.Nodes) == [] then taken == None && Model() == old(Model()) else
        var e := old(Senders[Last(sendWaiters.Nodes)]);
        Model() == M.CompleteOldestSender(old(Model())) && taken == Some((e.value.value, e.task))
    {
      hide ReceiveShape, SendShape;
      taken := CompleteOldestSender();
      if taken.Some? {
        assert buffer.Capacity() == 0;  // the source's own debug assertion
      }
    }

    /** Receives without waiting. */
    method TryReceive() returns (result: M.ReceiveResult<T>)
      requires Valid()
      modifies this`Senders, buffer, buffer.buffer, sendWaiters, Senders.Keys
      ensures Valid() && Senders.Keys == old(Senders.Keys)
      ensures (Model(), result) == M.TryReceive(old(Model()))
    {
      I.TryReceiveKeepsInv(Model());
      result := ReceiveFrom();
    }

    /** The body of `TryReceive`, which a receive future runs after it has given its notification back. */
    method ReceiveFrom() returns (result: M.ReceiveResult<T>)
      requires Shape() && I.Bounded(Model())
      modifies this`Senders, buffer, buffer.buffer, sendWaiters, Senders.Keys
      ensures Shape() && Senders.Keys == old(Senders.Keys)
      ensures (Model(), result) == M.TryReceive(old(Model()))
    {
      hide ReceiveShape, SendShape;
      var empty := buffer.IsEmpty();
      if !empty {
        var value := PopValue();
        var task := TryCopyValueFromOldestWaiter();
        return M.Received(value, task);
      }
      var taken := TryTakeValueFromSender();
      if taken.Some? {
        return M.Received(taken.value.0, taken.value.1);
      } else if isClosed {
        return M.ReceiveClosed;
      } else {
        return M.ReceiveEmpty;
      }
    }

    /** One poll of a receive future, which must not have finished before. */
    method ReceiveOrRegister(node: RecvNode, waker: Waker) returns (result: Poll<Option<(T, Option<Waker>)>>)
      requires Valid() && node in Receivers
      modifies this`Receivers, this`Senders, buffer, buffer.buffer
      modifies receiveWaiters, Receivers.Keys, sendWaiters, Senders.Keys
      ensures Valid() && Receivers.Keys == old(Receivers.Keys) && Senders.Keys == old(Senders.Keys)
      ensures (Model(), result) == M.ReceiveOrRegister(old(Model()), node, waker)
      ensures result.Pending? ==> node.data == M.RecvEntry(Some(waker), M.Registered) && node in receiveWaiters.Nodes
    {
      hide I.NoLostWakeup, I.WellFormed, SendShape, LinkedList<M.RecvEntry>.Valid, M.TryReceive;
      I.ReceiveOrRegisterKeepsInv(Model(), node, waker);
      I.UnregisteredIsNotQueued(Model(), node);
      if node.data.state == M.Registered {
        SetReceiver(node, node.data.(task := UpdateWakerRef(node.data.task, waker)));
        return Pending;
      }
      I.UnregisterKeeps(Model(), node);
      SetReceiver(node, node.data.(state := M.Unregistered));
      I.TryReceiveKeeps(Model());
      var received := ReceiveFrom();
      match received
      case Received(value, task) =>
        return Ready(Some((value, task)));
      case ReceiveClosed =>
        return Ready(None);
      case ReceiveEmpty =>
        EnqueueReceiver(node, waker);
        return Pending;
    }

    /** Takes a send future that gives up out of the queue; it keeps its value. */
    method RemoveSendWaiter(node: SendNode<T>)
      requires Valid() && node in Senders
      modifies this`Senders, sendWaiters, Senders.Keys
      ensures Valid() && Senders.Keys == old(Senders.Keys)
      ensures Model() == M.RemoveSendWaiter(old(Model()), node)
      ensures node !in sendWaiters.Nodes
    {
      hide I.Inv, ReceiveShape, LinkedList<M.SendEntry<T>>.Valid, ArrayBuf<T>.Valid;
      I.RemoveSendWaiterKeepsInv(Model(), node);
      I.StateTellsQueued(Model(), node);
      match node.data.state
      case SendRegistered =>
        UnlinkSender(node);
        SetSender(node, node.data.(state := M.SendUnregistered));
      case SendUnregistered =>
      case SendComplete =>
    }

    /** Takes a receive future that gives up out of the queue; a notified one passes its notification on. */
    method RemoveReceiveWaiter(node: RecvNode) returns (task: Option<Waker>)
      requires Valid() && node in Receivers
      modifies this`Receivers, receiveWaiters, Receivers.Keys
      ensures Valid() && Receivers.Keys == old(Receivers.Keys)
      ensures (Model(), task) == M.RemoveReceiveWaiter(old(Model()), node)
      ensures node !in receiveWaiters.Nodes
    {
      hide I.Inv, SendShape, LinkedList<M.RecvEntry>.Valid, ArrayBuf<T>.Valid;
      I.RemoveReceiveWaiterKeepsInv(Model(), node);
      I.UnregisteredIsNotQueued(Model(), node);
      match node.data.state
      case Registered =>
        UnlinkReceiver(node);
        SetReceiver(node, node.data.(state := M.Unregistered));
        return None;
      case Notified =>
        SetReceiver(node, node.data.(state := M.Unregistered));
        task := ReturnOldestReceiver();
      case Unregistered =>
        return None;
    }

    /** Drops the buffered values. The last receiver does this after closing; at an open channel senders may queue. */
    method Clear()
      requires Valid()
      modifies buffer
      ensures Shape() && (isClosed ==> Valid())
      ensures Model() == M.Clear(old(Model()))
    {
      hide I.Inv, ReceiveShape, SendShape;
      if isClosed {
        I.ClearKeepsInv(Model());
      }
      while true
        invariant Shape()
        invariant M.Clear(Model()) == M.Clear(old(Model()))
        decreases |buffer.Items|
      {
        var empty := buffer.IsEmpty();
        if empty {
          return;
        }
        var _ := PopValue();
      }
    }

    /** Wakes the task behind a waker that an operation handed out. */
    method Wake(task: Option<Waker>)
      modifies this`Wakes
      ensures Wakes == old(Wakes) + Woken(task)
    {
      if task.Some? {
        Wakes := Wakes + [task.value];
      }
    }

    /** A future that is not queued may disappear. */
    ghost method ForgetSender(node: SendNode<T>)
      requires Shape() && node !in sendWaiters.Nodes
      modifies this`Senders
      ensures Shape()
      ensures Model() == I.ForgetSender(old(Model()), node)
    {
      Senders := Senders - {node};
    }

    ghost method ForgetReceiver(node: RecvNode)
      requires Shape() && node !in receiveWaiters.Nodes
      modifies this`Receivers
      ensures Shape()
      ensures Model() == I.ForgetReceiver(old(Model()), node)
    {
      Receivers := Receivers - {node};
    }
  }

  // ---- The channel's interface ----

  /** Creates a future that will send `value` when it is polled. */
  method Send<T(0)>(channel: ChannelState<T>, value: T) returns (future: SendFuture<T>)
    requires channel.Valid()
    modifies channel`Senders
    ensures channel.Valid()
    ensures fresh(future) && fresh(future.waitNode) && future.channel == channel && future.Valid()
    ensures channel.Model() ==
      M.SetSender(old(channel.Model()), future.waitNode, M.SendEntry(None, M.SendUnregistered, Some(value)))
  {
    hide I.Inv, ArrayBuf<T>.Valid, LinkedList<M.SendEntry<T>>.Valid, LinkedList<M.RecvEntry>.Valid;
    var node := new ListNode(M.SendEntry(None, M.SendUnregistered, Some(value)));
    future := new SendFuture(channel, node);
    I.NewSenderKeepsInv(channel.Model(), node, value);
    channel.Senders := channel.Senders[node := node.data];
  }

  /** Creates a future that will receive a value when it is polled. */
  method Receive<T(0)>(channel: ChannelState<T>) returns (future: ReceiveFuture<T>)
    requires channel.Valid()
    modifies channel`Receivers
    ensures channel.Valid()
    ensures fresh(future) && fresh(future.waitNode) && future.channel == channel && future.Valid()
    ensures channel.Model() == M.SetReceiver(old(channel.Model()), future.waitNode, M.RecvEntry(None, M.Unregistered))
  {
    hide I.Inv, ArrayBuf<T>.Valid, LinkedList<M.SendEntry<T>>.Valid, LinkedList<M.RecvEntry>.Valid;
    var node := new ListNode(M.RecvEntry(None, M.Unregistered));
    future := new ReceiveFuture(channel, node);
    I.NewReceiverKeepsInv(channel.Model(), node);
    channel.Receivers := channel.Receivers[node := node.data];
  }

  /** Sends without waiting and wakes the receiver that can have the value now. */
  method TrySendNow<T(0)>(channel: ChannelState<T>, value: T) returns (error: Option<M.SendResult<T>>)
    requires channel.Valid() && channel.buffer.Capacity() > 0
    modifies channel`Receivers, channel`Wakes, channel.buffer, channel.buffer.buffer
    modifies channel.receiveWaiters, channel.Receivers.Keys
    ensures channel.Valid()
    ensures var (s, result) := M.TrySend(old(channel.Model()), value);
      && channel.Model() == s
      && channel.Wakes == old(channel.Wakes) + (if result.Sent? then Woken(result.task) else [])
      && error == (if result.Sent? then None else Some(result))
  {
    hide I.Inv, M.TrySend;
    var result := channel.TrySend(value);
    match result
    case Sent(task) =>
      channel.Wake(task);
      return None;
    case SendFull(_) =>
      return Some(result);
    case SendClosed(_) =>
      return Some(result);
  }

  /** Receives without waiting and wakes the sender whose send is now complete. */
  method TryReceiveNow<T(0)>(channel: ChannelState<T>) returns (received: Result<T, M.TryReceiveError>)
    requires channel.Valid()
    modifies channel`Senders, channel`Wakes, channel.buffer, channel.buffer.buffer
    modifies channel.sendWaiters, channel.Senders.Keys
    ensures channel.Valid()
    ensures var (s, result) := M.TryReceive(old(channel.Model()));
      && channel.Model() == s
      && channel.Wakes == old(channel.Wakes) + (if result.Received? then Woken(result.task) else [])
      && match result
        case Received(value, _) => received == Ok(value)
        case ReceiveEmpty => received == Err(M.Empty)
        case ReceiveClosed => received == Err(M.Closed)
  {
    hide I.Inv, M.TryReceive;
    var result := channel.TryReceive();
    match result
    case Received(value, task) =>
      channel.Wake(task);
      return Ok(value);
    case ReceiveEmpty =>
      return Err(M.Empty);
    case ReceiveClosed =>
      return Err(M.Closed);
  }

  class SendFuture<T(0)> {
    /** The channel, until the future has finished or was cancelled. */
    var channel: ChannelState?<T>
    const waitNode: SendNode<T>

    constructor (channel: ChannelState<T>, waitNode: SendNode<T>)
      ensures this.channel == channel && this.waitNode == waitNode
    {
      this.channel := channel;
      this.waitNode := waitNode;
    }

    /** An unfinished future is attached to its channel, and has its value until the send is complete. */
    ghost predicate Valid()
      reads this, channel, waitNode
    {
      channel != null ==>
        waitNode in channel.Senders && (waitNode.data.value.Some? <==> waitNode.data.state != M.SendComplete)
    }

    /** Polls a future that has not finished. It is ready with nothing when the value was sent, and with it when not. */
    method Poll(waker: Waker) returns (result: Poll<Option<T>>)
      requires channel != null && channel.Valid() && Valid()
      modifies this, channel, channel.buffer, channel.buffer.buffer
      modifies channel.receiveWaiters, channel.Receivers.Keys, channel.sendWaiters, channel.Senders.Keys
      ensures Valid() && old(channel).Valid()
      ensures var (s, p) := M.SendOrRegister(old(channel.Model()), waitNode, waker);
        && old(channel).Model() == (if p.poll.Ready? then I.ForgetSender(s, waitNode) else s)
        && old(channel).Wakes == old(channel.Wakes) + Woken(p.task)
        && result == (if p.poll.Ready? then Ready(p.value) else Pending)
      ensures channel == if result.Ready? then null else old(channel)
      ensures result != Panicked
    {
      hide I.Inv, M.SendOrRegister, ChannelState<T>.ReceiveShape, LinkedList<M.SendEntry<T>>.Valid, ArrayBuf<T>.Valid;
      var c := channel;
      PolledSendStands(c.Model(), waitNode, waker);
      var sent := c.SendOrRegister(waitNode, waker);
      c.Wake(sent.task);
      if sent.poll.Ready? {
        channel := null;
        c.ForgetSender(waitNode);
        return Ready(sent.value);
      }
      return Pending;
    }

    /** Gives the send up and takes the value back, unless it was sent. */
    method Cancel() returns (value: Option<T>)
      requires channel != null ==> channel.Valid() && Valid()
      modifies this, waitNode, channel, if channel == null then {} else {channel.sendWaiters} + channel.Senders.Keys
      ensures channel == null
      ensures old(channel) == null ==> value == None
      ensures old(channel) != null ==>
        && old(channel).Valid()
        && value == old(waitNode.data.value)
        && old(channel).Model() == I.ForgetSender(M.RemoveSendWaiter(old(channel.Model()), waitNode), waitNode)
        && old(channel).Wakes == old(channel.Wakes)
    {
      hide I.Inv, M.RemoveSendWaiter, ChannelState<T>.ReceiveShape, LinkedList<M.SendEntry<T>>.Valid, ArrayBuf<T>.Valid;
      var c := channel;
      channel := null;
      if c == null {
        return None;
      }
      I.RemoveSendWaiterKeepsInv(c.Model(), waitNode);
      I.ForgetSenderKeepsInv(M.RemoveSendWaiter(c.Model(), waitNode), waitNode);
      c.RemoveSendWaiter(waitNode);
      c.ForgetSender(waitNode);
      value := waitNode.data.value;
      waitNode.data := waitNode.data.(value := None);
    }

    /** The destructor: gives the send up if the future has not finished; the value goes down with the future. */
    method Drop()
      requires channel != null ==> channel.Valid() && Valid()
      modifies channel, if channel == null then {} else {channel.sendWaiters} + channel.Senders.Keys
      ensures channel != null ==>
        && channel.Valid()
        && channel.Model() == I.ForgetSender(M.RemoveSendWaiter(old(channel.Model()), waitNode), waitNode)
        && channel.Wakes == old(channel.Wakes)
    {
      hide I.Inv, M.RemoveSendWaiter, ChannelState<T>.ReceiveShape, LinkedList<M.SendEntry<T>>.Valid, ArrayBuf<T>.Valid;
      if channel != null {
        I.RemoveSendWaiterKeepsInv(channel.Model(), waitNode);
        I.ForgetSenderKeepsInv(M.RemoveSendWaiter(channel.Model(), waitNode), waitNode);
        channel.RemoveSendWaiter(waitNode);
        channel.ForgetSender(waitNode);
      }
    }
  }

  lemma PolledSendStands<T>(s: M.State<RecvNode, SendNode<T>, T>, n: SendNode<T>, waker: Waker)
    requires I.Inv(s) && n in s.senders
    requires s.senders[n].value.Some? <==> s.senders[n].state != M.SendComplete
    ensures M.Linked(s)
    ensures var (t, p) := M.SendOrRegister(s, n, waker);
      && p.poll != Panicked
      && (p.poll.Ready? ==> n in t.senders && n !in t.sendWaiters && I.Inv(I.ForgetSender(t, n)))
      && (p.poll.Pending? ==> n in t.senders && t.senders[n].value.Some? && t.senders[n].state != M.SendComplete)
  {
    hide M.SendOrRegister;
    I.InvIsLinked(s);
    I.SendOrRegisterKeepsInv(s, n, waker);
    I.SendEffect(s, n, waker);
    var (t, p) := M.SendOrRegister(s, n, waker);
    I.StateTellsQueued(t, n);
    if p.poll.Ready? {
      I.ForgetSenderKeepsInv(t, n);
    }
  }

  class ReceiveFuture<T(0)> {
    /** The channel, until the future has finished. */
    var channel: ChannelState?<T>
    const waitNode: RecvNode

    constructor (channel: ChannelState<T>, waitNode: RecvNode)
      ensures this.channel == channel && this.waitNode == waitNode
    {
      this.channel := channel;
      this.waitNode := waitNode;
    }

    /** An unfinished future is attached to its channel. */
    ghost predicate Valid()
      reads this, channel
    {
      channel != null ==> waitNode in channel.Receivers
    }

    /** Polls a future that has not finished. It is ready with a value, or with nothing once the channel is closed. */
    method Poll(waker: Waker) returns (result: Poll<Option<T>>)
      requires channel != null && channel.Valid() && Valid()
      modifies this, channel, channel.buffer, channel.buffer.buffer
      modifies channel.receiveWaiters, channel.Receivers.Keys, channel.sendWaiters, channel.Senders.Keys
      ensures Valid() && old(channel).Valid()
      ensures var (s, p) := M.ReceiveOrRegister(old(channel.Model()), waitNode, waker);
        && old(channel).Model() == (if p.Ready? then I.ForgetReceiver(s, waitNode) else s)
        && old(channel).Wakes == old(channel.Wakes) + (if p.Ready? && p.value.Some? then Woken(p.value.value.1) else [])
        && result == (if !p.Ready? then Pending else Ready(if p.value.Some? then Some(p.value.value.0) else None))
      ensures channel == if result.Ready? then null else old(channel)
      ensures result != Panicked
    {
      hide I.Inv, M.ReceiveOrRegister, ChannelState<T>.SendShape, LinkedList<M.RecvEntry>.Valid, ArrayBuf<T>.Valid;
      var c := channel;
      PolledReceiveStands(c.Model(), waitNode, waker);
      var received := c.ReceiveOrRegister(waitNode, waker);
      if received.Ready? {
        channel := null;
        c.ForgetReceiver(waitNode);
        if received.value.Some? {
          c.Wake(received.value.value.1);
          return Ready(Some(received.value.value.0));
        }
        return Ready(None);
      }
      return Pending;
    }

    /** The destructor: gives up if the future has not finished; a notification is passed on. */
    method Drop()
      requires channel != null ==> channel.Valid() && Valid()
      modifies channel, if channel == null then {} else {channel.receiveWaiters} + channel.Receivers.Keys
      ensures channel != null ==>
        var (s, task) := M.RemoveReceiveWaiter(old(channel.Model()), waitNode);
        && channel.Valid()
        && channel.Model() == I.ForgetReceiver(s, waitNode)
        && channel.Wakes == old(channel.Wakes) + Woken(task)
    {
      hide I.Inv, M.RemoveReceiveWaiter, ChannelState<T>.SendShape, LinkedList<M.RecvEntry>.Valid, ArrayBuf<T>.Valid;
      if channel != null {
        I.RemoveReceiveWaiterKeepsInv(channel.Model(), waitNode);
        I.ForgetReceiverKeepsInv(M.RemoveReceiveWaiter(channel.Model(), waitNode).0, waitNode);
        var task := channel.RemoveReceiveWaiter(waitNode);
        channel.ForgetReceiver(waitNode);
        channel.Wake(task);
      }
    }
  }

  lemma PolledReceiveStands<T>(s: M.State<RecvNode, SendNode<T>, T>, r: RecvNode, waker: Waker)
    requires I.Inv(s) && r in s.receivers
    ensures M.Linked(s)
    ensures var (t, p) := M.ReceiveOrRegister(s, r, waker);
      && p != Panicked
      && (p.Ready? ==> r in t.receivers && r !in t.receiveWaiters && I.Inv(I.ForgetReceiver(t, r)))
  {
    hide M.ReceiveOrRegister;
    I.InvIsLinked(s);
    I.ReceiveOrRegisterKeepsInv(s, r, waker);
    var (t, p) := M.ReceiveOrRegister(s, r, waker);
    I.UnregisteredIsNotQueued(t, r);
    if p.Ready? {
      I.ForgetReceiverKeepsInv(t, r);
    }
  }
}
