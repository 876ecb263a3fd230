/** Programs that use a state broadcast channel: whatever they call, the heap follows the runs of the model. */
module StateBroadcastSessions {
  import opened Collections
  import opened LinkedLists
  import opened StateBroadcasts
  import M = StateBroadcastModel
  import P = StateBroadcastPolling

  /** One channel with the futures that its users hold, and the operations that they have called. */
  class Session<T> {
    const channel: ChannelState<T>
    ghost var Ops: seq<M.Op<WaitNode, T>>
    /** Where the run of these operations has led to. */
    ghost var World: M.World<WaitNode, T>

    ghost predicate Recorded()
      reads this`Ops, this`World
    {
      World == M.Exec(Ops)
    }

    /** The future is one of this channel and has not finished. */
    ghost predicate Unfinished(future: ReceiveFuture<T>)
      reads future, channel`Entries
    {
      future.channel == channel && future.waitNode in channel.Entries
    }

    /** The channel on the heap is in the state that the run has led to. */
    ghost predicate Valid()
      reads this, channel, channel.waiters, channel.Entries.Keys
    {
      && Recorded()
      && channel.Valid() && channel.Model() == World.s && channel.Wakes == World.wakes
    }

    /** Whoever queues has stored the waker of its latest poll, which is the one that will be called. */
    lemma WaiterRemembersLatestPoll(n: WaitNode)
      requires Valid() && n in channel.waiters.Nodes
      ensures n.data.task == P.LatestWaker(Ops, n)
    {
      hide M.Exec, LinkedList<M.RecvEntry>.Valid;
      P.WaiterRemembersLatestPoll(Ops, n);
    }

    /** What is in the channel is the last value that it accepted, under the number of accepted values as its id. */
    lemma HoldsTheLatest()
      requires Valid()
      ensures channel.stateId == |World.accepted|
      ensures channel.value == if World.accepted == [] then None else Some(Last(World.accepted))
    {
      assert M.WorldInv(World);
    }

    constructor ()
      ensures Valid() && fresh(channel) && fresh(channel.waiters) && Ops == []
    {
      channel := new ChannelState();
      Ops := [];
      World := M.Start();
    }

    ghost method Record(op: M.Op<WaitNode, T>)
      requires Recorded()
      modifies this`Ops, this`World
      ensures Recorded() && M.WorldInv(old(World))
      ensures Ops == old(Ops) + [op] && World == M.Step(old(World), op)
    {
      M.ExecStep(Ops, op);
      World := M.Step(World, op);
      Ops := Ops + [op];
    }

    method Send(value: T) returns (rejected: Option<T>)
      requires Valid()
      modifies this`Ops, this`World, channel, channel.waiters, channel.Entries.Keys
      ensures Valid() && Ops == old(Ops) + [M.SendValue(value)] && channel.Entries.Keys == old(channel.Entries.Keys)
      ensures rejected == None ==> World.accepted == old(World.accepted) + [value]
      ensures rejected.Some? ==> rejected == Some(value) && World.accepted == old(World.accepted)
    {
      hide M.Exec, M.WorldInv, ChannelState<T>.Shape, M.Inv;
      rejected := channel.Send(value);
      Record(M.SendValue(value));
    }

    method Close() returns (status: M.CloseStatus)
      requires Valid()
      modifies this`Ops, this`World, channel, channel.waiters, channel.Entries.Keys
      ensures Valid() && Ops == old(Ops) + [M.CloseChannel] && channel.Entries.Keys == old(channel.Entries.Keys)
      ensures channel.isClosed && (status == M.NewlyClosed <==> M.CloseChannel !in old(Ops))
    {
      hide M.Exec, M.WorldInv, ChannelState<T>.Shape, M.Inv;
      P.FirstCloseReports(Ops);
      status := channel.Close();
      Record(M.CloseChannel);
    }

    method Receive(stateId: nat) returns (future: ReceiveFuture<T>)
      requires Valid()
      modifies this, channel`Entries
      ensures Valid() && Ops == old(Ops) + [M.Receive(future.waitNode, stateId)]
      ensures fresh(future) && fresh(future.waitNode) && Unfinished(future)
      ensures channel.Entries.Keys == old(channel.Entries.Keys) + {future.waitNode}
    {
      hide M.Exec, M.WorldInv, ChannelState<T>.Shape, M.Inv;
      future := StateBroadcasts.Receive(channel, stateId);
      Record(M.Receive(future.waitNode, stateId));
    }

    method Poll(future: ReceiveFuture<T>, waker: Waker) returns (result: Poll<Option<(nat, T)>>)
      requires Valid() && Unfinished(future)
      modifies this, future, channel`Entries, channel.waiters, channel.Entries.Keys
      ensures Valid() && Ops == old(Ops) + [M.PollFuture(future.waitNode, waker)]
      ensures channel.Entries.Keys == old(channel.Entries.Keys) - if result.Ready? then {future.waitNode} else {}
      ensures result.Ready? && result.value.Some? ==> M.Authentic(result.value.value, World.accepted)
    {
      hide M.Exec, M.Step, M.WorldInv, M.ReceiveOrRegister, M.Inv, ChannelState<T>.Shape;
      var n := future.waitNode;
      PollEffect(World, n, waker);
      result := future.Poll(waker);
      Record(M.PollFuture(n, waker));
    }

    /** The history needs a name for a receiver that never waits; an unlinked node serves as one. */
    method TryReceive(stateId: nat) returns (found: Option<(nat, T)>, ghost name: WaitNode)
      requires Valid()
      modifies this`Ops, this`World
      ensures Valid() && Ops == old(Ops) + [M.TryReceiveNow(name, stateId)]
      ensures found.Some? ==> M.Authentic(found.value, World.accepted) && stateId < found.value.0
    {
      hide M.Exec, ChannelState<T>.Shape, M.Inv;
      var unlinked := new ListNode(M.RecvEntry(None, M.Unregistered, stateId));
      name := unlinked;
      assert name !in World.seen;
      found := channel.TryReceive(stateId);
      Record(M.TryReceiveNow(name, stateId));
    }

    method Drop(future: ReceiveFuture<T>)
      requires Valid() && Unfinished(future)
      modifies this, channel, channel.waiters, channel.Entries.Keys
      ensures Valid() && Ops == old(Ops) + [M.DropFuture(future.waitNode)]
      ensures channel.Entries.Keys == old(channel.Entries.Keys) - {future.waitNode}
    {
      hide M.Exec, M.Step, M.WorldInv, M.RemoveWaiter, M.Inv, ChannelState<T>.Shape;
      DropEffect(World, future.waitNode);
      future.Drop();
      Record(M.DropFuture(future.waitNode));
    }
  }

  /** What polling does in a run, as far as the heap can tell. */
  lemma PollEffect<T>(w: M.World<WaitNode, T>, n: WaitNode, waker: Waker)
    requires M.WorldInv(w) && n in w.s.entries
    ensures var (s, p) := M.ReceiveOrRegister(w.s, n, waker); var w' := M.Step(w, M.PollFuture(n, waker));
      && w'.s == (if p.Ready? then M.Forget(s, n) else s) && w'.wakes == w.wakes && w'.accepted == w.accepted
      && w'.s.entries.Keys == w.s.entries.Keys - (if p.Ready? then {n} else {})
      && (p.Ready? && p.value.Some? ==> M.Authentic(p.value.value, w.accepted))
  {
    hide M.ReceiveOrRegister;
    M.ReceiveOrRegisterKeepsInv(w.s, n, waker);
    M.PollTells(w.s, n, waker);
  }

  lemma DropEffect<T>(w: M.World<WaitNode, T>, n: WaitNode)
    requires M.WorldInv(w) && n in w.s.entries
    ensures var w' := M.Step(w, M.DropFuture(n));
      && w'.s == M.Forget(M.RemoveWaiter(w.s, n), n) && w'.wakes == w.wakes
      && w'.s.entries.Keys == w.s.entries.Keys - {n}
  {
    hide M.RemoveWaiter;
    M.RemoveWaiterKeepsInv(w.s, n);
  }
}
