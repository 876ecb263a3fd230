/** Programs that use a timer: whatever they call, and in whatever order, the heap follows the runs of the model. */
module TimerSessions {
  import opened Collections
  import opened PairingHeaps
  import opened Timers
  import M = TimerModel
  import P = TimerPolling

  /** One timer with the futures that its users hold, and the operations that they have called. */
  class Session {
    const timer: TimerState
    ghost var Ops: seq<M.Op<WaitNode>>
    /** Where the run of these operations has led to. */
    ghost var World: M.World<WaitNode>

    ghost predicate Recorded()
      reads this`Ops, this`World
    {
      World == M.Exec(Ops)
    }

    /** The future is one of this timer and has not finished. */
    ghost predicate Unfinished(future: TimerFuture)
      reads future, timer`Entries
    {
      future.timer == timer && future.waitNode in timer.Entries
    }

    /** The timer on the heap is in the state that the run has led to. */
    ghost predicate Valid()
      reads this, timer, timer.waiters, timer.waiters.Repr, timer.Entries.Keys
    {
      && Recorded()
      && timer.Valid() && timer.Model() == World.s && timer.Wakes == World.wakes
    }

    /** Whoever is in the heap has stored the waker of its latest poll, which is the one that will be called. */
    lemma WaiterRemembersLatestPoll(n: WaitNode)
      requires Valid() && n in timer.waiters.Repr
      ensures n.data.task == P.LatestWaker(Ops, n)
    {
      hide M.Exec, PairingHeap<M.TimerQueueEntry>.Valid;
      P.WaiterRemembersLatestPoll(Ops, n);
    }

    constructor ()
      ensures Valid() && fresh(timer) && fresh(timer.waiters) && Ops == []
    {
      timer := new TimerState();
      Ops := [];
      World := M.Start();
    }

    ghost method Record(op: M.Op<WaitNode>)
      requires Recorded()
      modifies this`Ops, this`World
      ensures Recorded() && M.WorldInv(old(World))
      ensures Ops == old(Ops) + [op] && World == M.Step(old(World), op)
    {
      M.ExecStep(Ops, op);
      World := M.Step(World, op);
      Ops := Ops + [op];
    }

    method Deadline(timestamp: nat) returns (future: TimerFuture)
      requires Valid() && timestamp <= M.MAX_TIMESTAMP
      modifies this, timer`Entries
      ensures Valid() && Ops == old(Ops) + [M.Deadline(future.waitNode, timestamp)]
      ensures fresh(future) && fresh(future.waitNode) && Unfinished(future)
      ensures timer.Entries.Keys == old(timer.Entries.Keys) + {future.waitNode}
    {
      hide M.Exec, M.WorldInv, TimerState.Shape, M.Inv;
      future := Timers.Deadline(timer, timestamp);
      Record(M.Deadline(future.waitNode, timestamp));
    }

    /** Time must not run backwards. */
    method Delay(duration: nat, now: nat) returns (future: TimerFuture)
      requires Valid() && World.now <= now <= M.MAX_TIMESTAMP
      modifies this, timer`Entries
      ensures Valid() && Ops == old(Ops) + [M.Delay(future.waitNode, duration, now)]
      ensures fresh(future) && fresh(future.waitNode) && Unfinished(future)
      ensures timer.Entries.Keys == old(timer.Entries.Keys) + {future.waitNode}
    {
      hide M.Exec, M.WorldInv, TimerState.Shape, M.Inv;
      future := Timers.Delay(timer, duration, now);
      Record(M.Delay(future.waitNode, duration, now));
    }

    /** A future that resolves has been seen to be due. */
    method Poll(future: TimerFuture, waker: Waker, now: nat) returns (result: Poll<()>)
      requires Valid() && Unfinished(future) && World.now <= now <= M.MAX_TIMESTAMP
      modifies this, future, timer`Entries, timer.waiters, timer.Entries.Keys
      ensures Valid() && Ops == old(Ops) + [M.PollFuture(future.waitNode, waker, now)]
      ensures timer.Entries.Keys == old(timer.Entries.Keys) - if result.Ready? then {future.waitNode} else {}
      ensures result.Ready? ==> old(timer.Entries)[future.waitNode].expiry <= World.seen <= now
    {
      hide M.Exec, M.Step, M.WorldInv, M.TryWait, M.Inv, TimerState.Shape;
      var n := future.waitNode;
      PollEffect(World, n, waker, now);
      result := future.Poll(waker, now);
      Record(M.PollFuture(n, waker, now));
    }

    method Drop(future: TimerFuture)
      requires Valid() && Unfinished(future)
      modifies this, timer, timer.waiters, timer.Entries.Keys
      ensures Valid() && Ops == old(Ops) + [M.DropFuture(future.waitNode)]
      ensures timer.Entries.Keys == old(timer.Entries.Keys) - {future.waitNode}
    {
      hide M.Exec, M.Step, M.WorldInv, M.RemoveWaiter, M.Inv, TimerState.Shape;
      DropEffect(World, future.waitNode);
      future.Drop();
      Record(M.DropFuture(future.waitNode));
    }

    method CheckExpirations(now: nat) returns (ghost order: seq<WaitNode>)
      requires Valid() && World.now <= now <= M.MAX_TIMESTAMP
      modifies this`Ops, this`World, timer, timer.waiters, timer.Entries.Keys
      ensures Valid() && Ops == old(Ops) + [M.CheckExpirations(now, order)]
      ensures timer.Entries.Keys == old(timer.Entries.Keys)
    {
      hide M.Exec, M.WorldInv, M.Expire, M.Calls, TimerState.Shape, M.Inv;
      order := timer.CheckExpirations(now);
      Record(M.CheckExpirations(now, order));
    }
  }

  /** What polling does in a run, as far as the heap can tell. */
  lemma PollEffect(w: M.World<WaitNode>, n: WaitNode, waker: Waker, now: nat)
    requires M.WorldInv(w) && n in w.s.entries && w.now <= now <= M.MAX_TIMESTAMP
    ensures M.Linked(w.s)
    ensures var (s, p) := M.TryWait(w.s, n, now, waker); var w' := M.Step(w, M.PollFuture(n, waker, now));
      && w'.s == (if p.Ready? then M.Forget(s, n) else s) && w'.wakes == w.wakes
      && w'.s.entries.Keys == w.s.entries.Keys - (if p.Ready? then {n} else {})
      && (p.Ready? ==> w.s.entries[n].expiry <= w'.seen <= now)
  {
  }

  lemma DropEffect(w: M.World<WaitNode>, n: WaitNode)
    requires M.WorldInv(w) && n in w.s.entries
    ensures M.Linked(w.s)
    ensures var w' := M.Step(w, M.DropFuture(n));
      && w'.s == M.Forget(M.RemoveWaiter(w.s, n), n) && w'.wakes == w.wakes
      && w'.s.entries.Keys == w.s.entries.Keys - {n}
  {
  }
}
