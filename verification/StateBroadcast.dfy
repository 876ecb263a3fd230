/** The state broadcast channel on the heap: wait queue entries live in the receive futures. */
module StateBroadcasts {
  import opened Collections
  import opened LinkedLists
  import M = StateBroadcastModel

  type WaitNode = ListNode<M.RecvEntry>

  /** What a wake-up does to a queued receiver. */
  function Release(e: M.RecvEntry): (M.RecvEntry, seq<Waker>) {
    (e.(task := None, state := M.Unregistered), Woken(e.task))
  }

  lemma {:induction false} DrainCallsOldestFirst(nodes: seq<WaitNode>, lo: nat, entries: map<WaitNode, M.RecvEntry>)
    requires lo <= |nodes|
    requires forall n | n in nodes :: n in entries && n.data == entries[n]
    ensures ReverseEffects(Release, nodes, lo) == M.Calls(nodes[lo..], entries)
    decreases |nodes| - lo
  {
    if lo < |nodes| {
      DrainCallsOldestFirst(nodes, lo + 1, entries);
      assert nodes[lo..][1..] == nodes[lo + 1..];
    }
  }

  /** Wakes all waiters in the list, the oldest first, and empties it. */
  method WakeWaiters(waiters: LinkedList<M.RecvEntry>) returns (calls: seq<Waker>)
    requires waiters.Valid()
    modifies waiters, waiters.Repr
    ensures waiters.Valid() && waiters.Nodes == [] && waiters.Repr == {}
    ensures forall n {:trigger n.data} | n in old(waiters.Nodes) ::
      n.data == old(n.data).(task := None, state := M.Unregistered)
    ensures calls == old(ReverseEffects(Release, waiters.Nodes, 0))
  {
    calls := waiters.ReverseDrain(Release);
  }

  class ChannelState<T> {
    var isClosed: bool
    var stateId: nat
    var value: Option<T>
    const waiters: LinkedList<M.RecvEntry>
    /** What the wait nodes of all live receive futures hold, whether they are linked or not. */
    ghost var Entries: map<WaitNode, M.RecvEntry>
    /** Every wake-up call so far. */
    ghost var Wakes: seq<Waker>

    ghost function Model(): M.State<WaitNode, T>
      reads this`isClosed, this`stateId, this`value, this`Entries, waiters`Nodes
    {
      M.State(isClosed, stateId, value, waiters.Nodes, Entries)
    }

    /** The list links wait nodes of live futures only. */
    ghost predicate Shape()
      reads this`isClosed, this`stateId, this`value, this`Entries, waiters, Entries.Keys
    {
      && M.Linked(Model())
      && waiters.Repr <= Entries.Keys
      && waiters.Valid() && waiters.Exact()
      && (forall n {:trigger n.data} | n in Entries :: n.data == Entries[n])
    }

    ghost predicate Valid()
      reads this`isClosed, this`stateId, this`value, this`Entries, waiters, Entries.Keys
    {
      Shape() && M.Inv(Model())
    }

    constructor ()
      ensures Valid() && fresh(waiters)
      ensures Model() == M.State(false, 0, None, [], map[]) && Wakes == []
    {
      isClosed, stateId, value := false, 0, None;
      waiters := new LinkedList();
      Entries, Wakes := map[], [];
    }

    /** Records a change of a wait node's data in the ghost copy. */
    method SetData(node: WaitNode, data: M.RecvEntry)
      requires Shape() && node in Entries
      modifies this`Entries, node`data
      ensures Shape()
      ensures Model() == M.SetEntry(old(Model()), node, data)
    {
      node.data := data;
      Entries := Entries[node := data];
    }

    method ReleaseAll()
      requires Shape()
      modifies this`Entries, this`Wakes, waiters, Entries.Keys
      ensures Shape() && Entries.Keys == old(Entries.Keys)
      ensures Wakes == old(Wakes + M.Calls(waiters.Nodes, Entries))
      ensures Model() == M.WakeWaiters(old(Model()))
    {
      hide ReverseEffects, M.Calls;
      ghost var nodes := waiters.Nodes;
      DrainCallsOldestFirst(nodes, 0, Entries);
      assert nodes[0..] == nodes;
      var calls := WakeWaiters(waiters);
      assert forall n {:trigger n.data} | n in Entries && n !in nodes :: n.data == old(n.data);
      Wakes := Wakes + calls;
      Entries := M.Released(nodes, Entries);
    }

    /** Publishes a value, or hands it back if the channel is closed or has run out of ids. */
    method Send(value: T) returns (rejected: Option<T>)
      requires Valid()
      modifies this`stateId, this`value, this`Entries, this`Wakes, waiters, Entries.Keys
      ensures Valid() && Entries.Keys == old(Entries.Keys)
      ensures (Model(), rejected) == M.Send(old(Model()), value)
      ensures Wakes == if rejected.Some? then old(Wakes) else old(Wakes + M.Calls(waiters.Nodes, Entries))
    {
      hide M.Calls, M.Released, LinkedList<M.RecvEntry>.Valid;
      if isClosed || stateId == M.MAX_STATE_ID {
        return Some(value);
      }
      this.value := Some(value);
      stateId := stateId + 1;
      M.WakeWaitersKeepsInv(Model());
      ReleaseAll();
      return None;
    }

    method Close() returns (status: M.CloseStatus)
      requires Valid()
      modifies this`isClosed, this`Entries, this`Wakes, waiters, Entries.Keys
      ensures Valid() && Entries.Keys == old(Entries.Keys)
      ensures (Model(), status) == M.Close(old(Model()))
      ensures isClosed && (status == M.NewlyClosed <==> !old(isClosed))
      ensures Wakes == if status.AlreadyClosed? then old(Wakes) else old(Wakes + M.Calls(waiters.Nodes, Entries))
    {
      hide M.Calls, M.Released, LinkedList<M.RecvEntry>.Valid;
      if isClosed {
        return M.AlreadyClosed;
      }
      isClosed := true;
      M.WakeWaitersKeepsInv(Model());
      ReleaseAll();
      return M.NewlyClosed;
    }

    /** The current value with its id, if it is newer than the state asked for. Changes nothing. */
    method TryReceive(stateId: nat) returns (found: Option<(nat, T)>)
      ensures found == M.TryReceive(Model(), stateId)
    {
      if value.None? {
        return None;
      }
      if stateId < this.stateId {
        return Some((this.stateId, value.value));
      } else {
        return None;
      }
    }

    /** One poll of a receive future. */
    method ReceiveOrRegister(node: WaitNode, waker: Waker) returns (result: Poll<Option<(nat, T)>>)
      requires Valid() && node in Entries
      modifies this`Entries, waiters, node, Entries.Keys`prev
      ensures Valid() && Entries.Keys == old(Entries.Keys)
      ensures (Model(), result) == M.ReceiveOrRegister(old(Model()), node, waker)
      ensures result.Pending? ==> node.data.task == Some(waker) && node in waiters.Nodes
    {
      hide M.Inv, LinkedList<M.RecvEntry>.Valid;
      M.ReceiveOrRegisterKeepsInv(Model(), node, waker);
      StateTellsQueued(Model(), node);
      match node.data.state
      case Unregistered =>
        var valToDeliver := if value.Some? && node.data.stateId < stateId then value else None;
        match valToDeliver {
          case Some(v) =>
            return Ready(Some((stateId, v)));
          case None =>
            if isClosed {
              return Ready(None);
            }
            SetData(node, node.data.(task := Some(waker), state := M.Registered));
            waiters.AddFront(node);
            return Pending;
        }
      case Registered =>
        SetData(node, node.data.(task := UpdateWakerRef(node.data.task, waker)));
        return Pending;
    }

    /** Takes a future that gives up out of the queue. The source panics if a registered node is not linked. */
    method RemoveWaiter(node: WaitNode)
      requires Valid() && node in Entries
      modifies this`Entries, waiters, Entries.Keys
      ensures Valid() && Entries.Keys == old(Entries.Keys)
      ensures Model() == M.RemoveWaiter(old(Model()), node)
      ensures node !in waiters.Nodes
    {
      hide M.Inv, LinkedList<M.RecvEntry>.Valid;
      M.RemoveWaiterKeepsInv(Model(), node);
      StateTellsQueued(Model(), node);
      if node.data.state == M.Registered {
        WithoutMembers(waiters.Nodes, node);
        var removed := waiters.Remove(node);
        assert removed;
        SetData(node, node.data.(state := M.Unregistered));
      }
    }

    /** A future that is not queued may disappear. */
    ghost method Forget(node: WaitNode)
      requires Shape() && node !in waiters.Nodes
      modifies this`Entries
      ensures Shape()
      ensures Model() == M.Forget(old(Model()), node)
    {
      Entries := Entries - {node};
    }
  }

  lemma StateTellsQueued<T>(s: M.State<WaitNode, T>, n: WaitNode)
    requires M.Inv(s) && n in s.entries
    ensures n in s.waiters <==> s.entries[n].state == M.Registered
  {
  }

  /** Creates a future that will receive the next state newer than `stateId` when it is polled. */
  method Receive<T>(channel: ChannelState<T>, stateId: nat) returns (future: ReceiveFuture<T>)
    requires channel.Valid()
    modifies channel`Entries
    ensures channel.Valid()
    ensures fresh(future) && fresh(future.waitNode) && future.channel == channel && future.Valid()
    ensures channel.Model() ==
      M.SetEntry(old(channel.Model()), future.waitNode, M.RecvEntry(None, M.Unregistered, stateId))
  {
    hide M.Inv;
    var node := new ListNode(M.RecvEntry(None, M.Unregistered, stateId));
    future := new ReceiveFuture(channel, node);
    M.NewFutureKeepsInv(channel.Model(), node, stateId);
    channel.Entries := channel.Entries[node := node.data];
  }

  class ReceiveFuture<T> {
    /** The channel, until the future has finished. */
    var channel: ChannelState?<T>
    const waitNode: WaitNode

    constructor (channel: ChannelState<T>, waitNode: WaitNode)
      ensures this.channel == channel && this.waitNode == waitNode
    {
      this.channel := channel;
      this.waitNode := waitNode;
    }

    /** An unfinished future is attached to its channel. */
    ghost predicate Valid()
      reads this, channel
    {
      channel != null ==> waitNode in channel.Entries
    }

    /** Polls a future that has not finished; the source panics on any other. */
    method Poll(waker: Waker) returns (result: Poll<Option<(nat, T)>>)
      requires channel != null && channel.Valid() && Valid()
      modifies this, channel`Entries, channel.waiters, channel.Entries.Keys
      ensures Valid() && old(channel).Valid()
      ensures var (s, p) := M.ReceiveOrRegister(old(channel.Model()), waitNode, waker);
        old(channel).Model() == (if p.Ready? then M.Forget(s, waitNode) else s) && result == p
      ensures channel == if result.Ready? then null else old(channel)
      ensures result != Panicked
    {
      hide M.Inv, M.ReceiveOrRegister, LinkedList<M.RecvEntry>.Valid;
      var c := channel;
      M.ReceiveOrRegisterKeepsInv(c.Model(), waitNode, waker);
      ghost var s := M.ReceiveOrRegister(c.Model(), waitNode, waker).0;
      result := c.ReceiveOrRegister(waitNode, waker);
      if result.Ready? {
        M.ForgetKeepsInv(s, waitNode);
        channel := null;
        c.Forget(waitNode);
      }
    }

    /** The destructor: gives up if the future has not finished. */
    method Drop()
      requires channel != null ==> channel.Valid() && Valid()
      modifies channel, if channel == null then {} else {channel.waiters} + channel.Entries.Keys
      ensures channel != null ==>
        && channel.Valid()
        && channel.Model() == M.Forget(M.RemoveWaiter(old(channel.Model()), waitNode), waitNode)
        && channel.Wakes == old(channel.Wakes)
    {
      hide M.Inv, M.RemoveWaiter, LinkedList<M.RecvEntry>.Valid;
      if channel != null {
        M.RemoveWaiterKeepsInv(channel.Model(), waitNode);
        M.ForgetKeepsInv(M.RemoveWaiter(channel.Model(), waitNode), waitNode);
        channel.RemoveWaiter(waitNode);
        channel.Forget(waitNode);
      }
    }
  }
}
