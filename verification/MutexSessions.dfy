/** Programs that use a mutex: whatever they call, and in whatever order, the heap follows the runs of the model. */
module MutexSessions {
  import opened Collections
  import opened LinkedLists
  import opened Mutexes
  import M = MutexModel
  import R = MutexRuns
  import P = MutexPolling

  /** One mutex with the futures and guards that its users hold, and the operations that they have called. */
  class Session {
    const mutex: MutexState
    ghost var Guards: set<Guard>
    ghost var Ops: seq<R.Op<WaitNode>>
    /** Where the run of these operations has led to. */
    ghost var World: R.World<WaitNode>

    ghost predicate Recorded()
      reads this`Ops, this`World
    {
      World == R.Exec(mutex.isFair, Ops)
    }

    /** The future is one of this mutex and has not finished. */
    ghost predicate Unfinished(future: LockFuture)
      reads future, mutex`Entries
    {
      future.mutex == mutex && future.waitNode in mutex.Entries
    }

    /** The mutex on the heap is in the state that the run has led to, and there are as many guards as in the run. */
    ghost predicate Valid()
      reads this, mutex, mutex.waiters, mutex.Entries.Keys
    {
      && Recorded()
      && mutex.Valid() && mutex.Model() == World.s && mutex.Wakes == World.wakes
      && |Guards| == World.guards && (forall g | g in Guards :: g.mutex == mutex)
    }

    /** Mutual exclusion: the users hold one guard while the mutex is locked, and none otherwise. */
    lemma OneGuard()
      requires Valid()
      ensures |Guards| == if mutex.isLocked then 1 else 0
      ensures forall g, h | g in Guards && h in Guards :: g == h
    {
      assert R.WorldInv(World);
      forall g, h | g in Guards && h in Guards
        ensures g == h
      {
        assert |Guards - {g}| == 0;
        assert h !in Guards - {g};
      }
    }

    /** Whoever waits has stored the waker of its latest poll, which is the one that will be called. */
    lemma WaiterRemembersLatestPoll(n: WaitNode)
      requires Valid() && n in mutex.Entries && n.data.state == M.Waiting
      ensures n.data.task == P.LatestWaker(Ops, n)
    {
      hide R.Exec, M.Inv, LinkedList<M.WaitQueueEntry>.Valid;
      P.WaiterRemembersLatestPoll(mutex.isFair, Ops, n);
    }

    lemma FutureIsValid(future: LockFuture)
      requires Valid() && Unfinished(future)
      ensures future.Valid() && future.waitNode in World.s.entries
      ensures R.WorldInv(World)
    {
      hide R.Exec, M.Inv, LinkedList<M.WaitQueueEntry>.Valid;
      assert R.WorldInv(World);
    }

    constructor (isFair: bool)
      ensures Valid() && fresh(mutex) && fresh(mutex.waiters)
      ensures mutex.isFair == isFair && Ops == []
    {
      mutex := new MutexState(isFair);
      Guards, Ops := {}, [];
      World := R.Start(isFair);
    }

    ghost method Record(op: R.Op<WaitNode>)
      requires Recorded()
      modifies this`Ops, this`World
      ensures Recorded() && R.WorldInv(old(World))
      ensures Ops == old(Ops) + [op] && World == R.Step(old(World), op)
    {
      R.ExecStep(mutex.isFair, Ops, op);
      World := R.Step(World, op);
      Ops := Ops + [op];
    }

    method Lock() returns (future: LockFuture)
      requires Valid()
      modifies this, mutex`Entries
      ensures Valid() && Ops == old(Ops) + [R.Lock(future.waitNode)]
      ensures fresh(future) && fresh(future.waitNode) && Unfinished(future) && Guards == old(Guards)
      ensures mutex.Entries.Keys == old(mutex.Entries.Keys) + {future.waitNode}
    {
      hide R.Exec, R.WorldInv, MutexState.Shape, M.Inv;
      future := Mutexes.Lock(mutex);
      Record(R.Lock(future.waitNode));
    }

    method Poll(future: LockFuture, waker: Waker) returns (result: Poll<Guard>)
      requires Valid() && Unfinished(future)
      modifies this, future, mutex, mutex.waiters, mutex.Entries.Keys
      ensures Valid() && Ops == old(Ops) + [R.PollFuture(future.waitNode, waker)]
      ensures Guards == if result.Ready? then old(Guards) + {result.value} else old(Guards)
      ensures mutex.Entries.Keys == old(mutex.Entries.Keys) - if result.Ready? then {future.waitNode} else {}
    {
      hide R.Exec, R.Step, R.WorldInv, M.Polled, M.Inv, MutexState.Shape, LockFuture.Valid;
      FutureIsValid(future);
      PollEffect(World, future.waitNode, waker);
      result := future.Poll(waker);
      Record(R.PollFuture(future.waitNode, waker));
      if result.Ready? {
        Guards := Guards + {result.value};
      }
    }

    method Drop(future: LockFuture)
      requires Valid() && Unfinished(future)
      modifies this, mutex, mutex.waiters, mutex.Entries.Keys
      ensures Valid() && Ops == old(Ops) + [R.DropFuture(future.waitNode)]
      ensures mutex.Entries.Keys == old(mutex.Entries.Keys) - {future.waitNode} && Guards == old(Guards)
    {
      hide R.Exec, R.Step, R.WorldInv, M.Dropped, M.Inv, MutexState.Shape, LockFuture.Valid;
      FutureIsValid(future);
      DropEffect(World, future.waitNode);
      future.Drop();
      Record(R.DropFuture(future.waitNode));
    }

    /** The history needs a name for a request that never waits; an unlinked node serves as one. */
    method TryLock() returns (guard: Option<Guard>, ghost name: WaitNode)
      requires Valid()
      modifies this, mutex`isLocked
      ensures Valid() && Ops == old(Ops) + [R.TryLockNow(name)]
      ensures Guards == old(Guards) + if guard.Some? then {guard.value} else {}
      ensures guard.Some? <==> !old(mutex.isLocked) && (!mutex.isFair || mutex.waiters.Nodes == [])
    {
      hide R.Exec, R.WorldInv, MutexState.Shape, M.Inv;
      var unlinked := new ListNode(M.WaitQueueEntry(None, M.New));
      name := unlinked;
      guard := TryLockNow(mutex);
      Record(R.TryLockNow(name));
      if guard.Some? {
        Guards := Guards + {guard.value};
      }
    }

    method DropGuard(guard: Guard)
      requires Valid() && guard in Guards
      modifies this`Ops, this`World, this`Guards, mutex, mutex.waiters, mutex.Entries.Keys
      ensures Valid() && Ops == old(Ops) + [R.DropGuard] && mutex.Entries.Keys == old(mutex.Entries.Keys)
      ensures Guards == old(Guards) - {guard}
    {
      hide R.Exec, R.WorldInv, MutexState.Shape, M.Inv, M.Unlock;
      assert World.guards > 0;
      UnlockEffect(World.s);
      guard.Drop();
      Record(R.DropGuard);
      Guards := Guards - {guard};
    }
  }

  /** What polling does in a run, as far as the heap can tell. */
  lemma PollEffect(w: R.World<WaitNode>, n: WaitNode, waker: Waker)
    requires R.WorldInv(w) && n in w.s.entries
    ensures var (s, result) := M.Polled(w.s, n, waker); var w' := R.Step(w, R.PollFuture(n, waker));
      && w'.s == s && w'.wakes == w.wakes
      && w'.guards == w.guards + (if result.Ready? then 1 else 0)
      && s.entries.Keys == w.s.entries.Keys - if result.Ready? then {n} else {}
  {
    hide M.Polled;
    R.PolledKeepsInv(w.s, n, waker);
  }

  lemma DropEffect(w: R.World<WaitNode>, n: WaitNode)
    requires R.WorldInv(w) && n in w.s.entries
    ensures M.Linked(w.s)
    ensures var (s, task) := M.Dropped(w.s, n); var w' := R.Step(w, R.DropFuture(n));
      && w'.s == s && w'.wakes == w.wakes + Woken(task) && w'.guards == w.guards
      && s.entries.Keys == w.s.entries.Keys - {n}
  {
    hide M.Dropped;
    R.DropKeepsInv(w.s, n);
  }

  lemma UnlockEffect(s: M.State<WaitNode>)
    requires M.Inv(s)
    ensures M.Linked(s) && M.Unlock(s).0.entries.Keys == s.entries.Keys
  {
    M.UnlockKeepsInv(s);
  }
}
