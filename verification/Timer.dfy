/** The timer on the heap: wait queue entries live in the timer futures and are linked into a pairing heap. */
module Timers {
  import opened Collections
  import opened PairingHeaps
  import M = TimerModel

  type WaitNode = HeapNode<M.TimerQueueEntry>

  class TimerState {
    const waiters: PairingHeap<M.TimerQueueEntry>
    /** What the wait nodes of all live timer futures hold, whether they are in the heap or not. */
    ghost var Entries: map<WaitNode, M.TimerQueueEntry>
    /** Every wake-up call so far. */
    ghost var Wakes: seq<Waker>

    ghost function Model(): M.State<WaitNode>
      reads this`Entries, waiters`Repr
    {
      M.State(waiters.Repr, Entries)
    }

    /** The heap holds wait nodes of live futures only, and orders them by their expiry. Other nodes are clean. */
    ghost predicate Shape()
      reads this`Entries, waiters, waiters.Repr, Entries.Keys
    {
      && M.Linked(Model())
      && waiters.Valid()
      && (forall n {:trigger n.data} | n in Entries :: n.data == Entries[n])
      && (forall n {:trigger n.key} | n in Entries :: n.key == Entries[n].expiry)
      && (forall n {:trigger n.IsClean()} | n in Entries && n !in waiters.Repr :: n.IsClean())
    }

    ghost predicate Valid()
      reads this`Entries, waiters, waiters.Repr, Entries.Keys
    {
      Shape() && M.Inv(Model())
    }

    constructor ()
      ensures Valid() && fresh(waiters)
      ensures Model() == M.State({}, map[]) && Wakes == []
    {
      waiters := new PairingHeap();
      Entries, Wakes := map[], [];
    }

    /** Records a change of a wait node's data in the ghost copy; the expiry stays. */
    method SetData(node: WaitNode, data: M.TimerQueueEntry)
      requires Shape() && node in Entries && data.expiry == Entries[node].expiry
      modifies this`Entries, node`data
      ensures Shape()
      ensures Model() == M.SetEntry(old(Model()), node, data)
    {
      hide PairingHeap<M.TimerQueueEntry>.Valid;
      node.data := data;
      Entries := Entries[node := data];
    }

    method InsertWaiter(node: WaitNode)
      requires Shape() && node in Entries && node !in waiters.Repr
      modifies waiters
      modifies Entries.Keys`parent, Entries.Keys`prev, Entries.Keys`next, Entries.Keys`firstChild
      modifies Entries.Keys`rank, Entries.Keys`position
      ensures Shape()
      ensures Model() == old(Model()).(waiters := old(waiters.Repr) + {node})
    {
      hide PairingHeap<M.TimerQueueEntry>.Valid;
      waiters.Insert(node);
    }

    method TakeWaiter(node: WaitNode)
      requires Shape() && node in waiters.Repr
      modifies waiters
      modifies Entries.Keys`parent, Entries.Keys`prev, Entries.Keys`next, Entries.Keys`firstChild
      modifies Entries.Keys`rank, Entries.Keys`position
      ensures Shape()
      ensures Model() == old(Model()).(waiters := old(waiters.Repr) - {node})
    {
      hide PairingHeap<M.TimerQueueEntry>.Valid;
      waiters.Remove(node);
    }

    /** One poll of a timer future; `now` is what the clock says if it is read. */
    method TryWait(node: WaitNode, now: nat, waker: Waker) returns (result: Poll<()>)
      requires Valid() && node in Entries
      modifies this`Entries, waiters, Entries.Keys
      ensures Valid() && Entries.Keys == old(Entries.Keys)
      ensures (Model(), result) == M.TryWait(old(Model()), node, now, waker)
      ensures result.Pending? ==> node.data.task == Some(waker) && node.data.state == M.Registered
    {
      hide PairingHeap<M.TimerQueueEntry>.Valid, M.Inv;
      M.TryWaitKeepsInv(Model(), node, now, waker);
      StateTellsRegistered(Model(), node);
      match node.data.state
      case Unregistered =>
        if now >= node.data.expiry {
          SetData(node, node.data.(state := M.Expired));
          return Ready(());
        } else {
          SetData(node, node.data.(task := Some(waker), state := M.Registered));
          InsertWaiter(node);
          return Pending;
        }
      case Registered =>
        SetData(node, node.data.(task := UpdateWakerRef(node.data.task, waker)));
        return Pending;
      case Expired =>
        return Ready(());
    }

    method RemoveWaiter(node: WaitNode)
      requires Valid() && node in Entries
      modifies this`Entries, waiters, Entries.Keys
      ensures Valid() && Entries.Keys == old(Entries.Keys)
      ensures Model() == M.RemoveWaiter(old(Model()), node)
    {
      hide PairingHeap<M.TimerQueueEntry>.Valid, M.Inv;
      M.RemoveWaiterKeepsInv(Model(), node);
      StateTellsRegistered(Model(), node);
      if node.data.state == M.Registered {
        TakeWaiter(node);
        SetData(node, node.data.(state := M.Unregistered));
      }
    }

    /** The time at which the next timer expires, if any is waiting. */
    method NextExpiration() returns (t: Option<nat>)
      requires Valid()
      ensures M.IsNextExpiration(Model(), t)
    {
      hide PairingHeap<M.TimerQueueEntry>.Valid, M.Inv;
      var first := waiters.PeekMin();
      if first == null {
        return None;
      }
      assert forall n | n in waiters.Repr :: first.key <= n.key == Entries[n].expiry;
      return Some(first.data.expiry);
    }

    /** Wakes and removes the timers that have expired by `now`, in the order that is returned. */
    method CheckExpirations(now: nat) returns (ghost order: seq<WaitNode>)
      requires Valid()
      modifies this`Entries, this`Wakes, waiters, Entries.Keys
      ensures Valid() && Entries.Keys == old(Entries.Keys)
      ensures M.ExpirationOrder(old(Model()), now, order)
      ensures Model() == M.Expire(old(Model()), order)
      ensures Wakes == old(Wakes) + M.Calls(old(Entries), order)
    {
      hide PairingHeap<M.TimerQueueEntry>.Valid, M.Inv, M.Expire, M.Calls, M.Expiring, M.ExpirationOrder;
      ghost var s := Model();
      ghost var wakes := Wakes;
      order := [];
      M.NothingExpiredYet(s, now);
      while true
        invariant Shape() && Entries.Keys == old(Entries.Keys)
        invariant M.Expiring(s, now, order) && forall n | n in order :: n in s.entries
        invariant Model() == M.Expire(s, order)
        invariant Wakes == wakes + M.Calls(s.entries, order)
        decreases |waiters.Repr|
      {
        var first := waiters.PeekMin();
        M.ExpireMeans(s, order);
        assert first != null ==> forall n | n in waiters.Repr :: first.key <= n.key == Entries[n].expiry;
        if first == null || now < first.data.expiry {
          M.ExpiredAll(s, now, order);
          M.ExpireKeepsInv(s, order);
          return;
        }
        M.ExpireNext(s, now, order, first);
        ExpireFirst(first);
        order := order + [first];
      }
    }

    /** The body of the loop of `CheckExpirations`: the timer expires, its task is woken, and it leaves the heap. */
    method ExpireFirst(entry: WaitNode)
      requires Shape() && entry in waiters.Repr
      modifies this`Entries, this`Wakes, waiters, Entries.Keys
      ensures Shape() && Entries.Keys == old(Entries.Keys)
      ensures Model() == M.ExpireOne(old(Model()), entry)
      ensures Wakes == old(Wakes) + Woken(old(Entries)[entry].task)
    {
      hide PairingHeap<M.TimerQueueEntry>.Valid;
      var task := entry.data.task;
      SetData(entry, entry.data.(task := None, state := M.Expired));
      if task.Some? {
        Wakes := Wakes + [task.value];
      }
      TakeWaiter(entry);
    }

    /** A future that is not in the heap may disappear. */
    ghost method Forget(node: WaitNode)
      requires Shape() && node !in waiters.Repr
      modifies this`Entries
      ensures Shape()
      ensures Model() == M.Forget(old(Model()), node)
    {
      Entries := Entries - {node};
    }
  }

  lemma StateTellsRegistered(s: M.State<WaitNode>, n: WaitNode)
    requires M.Inv(s) && n in s.entries
    ensures n in s.waiters <==> s.entries[n].state == M.Registered
  {
  }

  /** Creates a future that resolves once the clock has reached `timestamp`. */
  method Deadline(timer: TimerState, timestamp: nat) returns (future: TimerFuture)
    requires timer.Valid()
    modifies timer`Entries
    ensures timer.Valid()
    ensures fresh(future) && fresh(future.waitNode) && future.timer == timer && future.Valid()
    ensures timer.Model() ==
      M.SetEntry(old(timer.Model()), future.waitNode, M.TimerQueueEntry(timestamp, None, M.Unregistered))
  {
    hide PairingHeap<M.TimerQueueEntry>.Valid, M.Inv;
    var node := new HeapNode(timestamp, M.TimerQueueEntry(timestamp, None, M.Unregistered));
    future := new TimerFuture(timer, node);
    M.NewFutureKeepsInv(timer.Model(), node, timestamp);
    timer.Entries := timer.Entries[node := node.data];
  }

  /** Creates a future that resolves once `duration` milliseconds have passed since the clock reading `now`. */
  method Delay(timer: TimerState, duration: nat, now: nat) returns (future: TimerFuture)
    requires timer.Valid() && now <= M.MAX_TIMESTAMP
    modifies timer`Entries
    ensures timer.Valid()
    ensures fresh(future) && fresh(future.waitNode) && future.timer == timer && future.Valid()
    ensures timer.Model() == M.SetEntry(old(timer.Model()), future.waitNode,
      M.TimerQueueEntry(M.DeadlineFromNow(now, duration), None, M.Unregistered))
  {
    future := Deadline(timer, M.DeadlineFromNow(now, duration));
  }

  class TimerFuture {
    /** The timer, until the future has finished. */
    var timer: TimerState?
    const waitNode: WaitNode

    constructor (timer: TimerState, waitNode: WaitNode)
      ensures this.timer == timer && this.waitNode == waitNode
    {
      this.timer := timer;
      this.waitNode := waitNode;
    }

    /** An unfinished future is attached to its timer. */
    ghost predicate Valid()
      reads this, timer
    {
      timer != null ==> waitNode in timer.Entries
    }

    /** Polls a future that has not finished; the source panics on any other. */
    method Poll(waker: Waker, now: nat) returns (result: Poll<()>)
      requires timer != null && timer.Valid() && Valid()
      modifies this, timer`Entries, timer.waiters, timer.Entries.Keys
      ensures Valid() && old(timer).Valid()
      ensures var (s, p) := M.TryWait(old(timer.Model()), waitNode, now, waker);
        old(timer).Model() == (if p.Ready? then M.Forget(s, waitNode) else s) && result == p
      ensures timer == if result.Ready? then null else old(timer)
      ensures result != Panicked
    {
      hide PairingHeap<M.TimerQueueEntry>.Valid, M.Inv, M.TryWait;
      var t := timer;
      M.TryWaitKeepsInv(t.Model(), waitNode, now, waker);
      ghost var s := M.TryWait(t.Model(), waitNode, now, waker).0;
      result := t.TryWait(waitNode, now, waker);
      if result.Ready? {
        M.ForgetKeepsInv(s, waitNode);
        timer := null;
        t.Forget(waitNode);
      }
    }

    /** The destructor: leaves the heap if the future has not finished. */
    method Drop()
      requires timer != null ==> timer.Valid() && Valid()
      modifies timer, if timer == null then {} else {timer.waiters} + timer.Entries.Keys
      ensures timer != null ==> timer.Valid() && waitNode !in timer.waiters.Repr && timer.Wakes == old(timer.Wakes)
      ensures timer != null ==> timer.Model() == M.Forget(M.RemoveWaiter(old(timer.Model()), waitNode), waitNode)
    {
      hide PairingHeap<M.TimerQueueEntry>.Valid, M.Inv, M.RemoveWaiter;
      if timer != null {
        M.RemoveWaiterKeepsInv(timer.Model(), waitNode);
        M.ForgetKeepsInv(M.RemoveWaiter(timer.Model(), waitNode), waitNode);
        timer.RemoveWaiter(waitNode);
        timer.Forget(waitNode);
      }
    }
  }
}
