/** Programs that use a semaphore: whatever they call, and in whatever order, the heap follows the runs of the model. */
module SemaphoreSessions {
  import opened Collections
  import opened LinkedLists
  import opened Semaphores
  import M = SemaphoreModel
  import I = SemaphoreInvariants
  import R = SemaphoreRuns
  import P = SemaphorePolling

  /** One semaphore with the futures and releasers that its users hold, and the operations that they have called. */
  class Session {
    const semaphore: SemaphoreState
    ghost const initial: nat
    ghost var Releasers: seq<Releaser>
    ghost var Ops: seq<R.Op<WaitNode>>
    /** Where the run of these operations has led to. */
    ghost var World: R.World<WaitNode>

    ghost predicate Recorded()
      reads this`Ops, this`World
    {
      World == R.Exec(semaphore.isFair, initial, Ops)
    }

    /** The future is one of this semaphore and has not finished. */
    ghost predicate Unfinished(future: AcquireFuture)
      reads future, semaphore`Entries
    {
      future.semaphore == semaphore && future.waitNode in semaphore.Entries
    }

    /** The releasers on the heap are those of the run, with the same permits. */
    ghost predicate ReleasersMatch()
      reads this`World, this`Releasers, Releasers
    {
      && NoDup(Releasers)
      && |Releasers| == |World.releasers|
      && (forall i | 0 <= i < |Releasers| ::
        Releasers[i].semaphore == semaphore && Releasers[i].permits == World.releasers[i])
    }

    /** The semaphore on the heap is in the state that the run has led to. */
    ghost predicate Valid()
      reads this, semaphore, semaphore.waiters, semaphore.Entries.Keys, Releasers
    {
      && Recorded()
      && semaphore.Valid() && semaphore.Model() == World.s
      && ReleasersMatch()
    }

    /** No permit is lost: those that are free, held by releasers or disarmed are the initial ones and those added. */
    lemma PermitsAreConserved()
      requires Valid()
      ensures semaphore.permits + R.Sum(World.releasers) + World.disarmed == initial + World.added
      ensures forall i | 0 <= i < |Releasers| :: Releasers[i].permits == World.releasers[i]
    {
      assert R.WorldInv(World);
    }

    /** Whoever waits has stored the waker of its latest poll, which is the one that will be called. */
    lemma WaiterRemembersLatestPoll(n: WaitNode)
      requires Valid() && n in semaphore.Entries && n.data.state == M.Waiting
      ensures n.data.task == P.LatestWaker(Ops, n)
    {
      hide R.Exec, I.Inv, LinkedList<M.WaitQueueEntry>.Valid;
      P.WaiterRemembersLatestPoll(semaphore.isFair, initial, Ops, n);
    }

    lemma FutureIsValid(future: AcquireFuture)
      requires Valid() && Unfinished(future)
      ensures future.Valid() && future.waitNode in World.s.entries
      ensures future.waitNode.data == World.s.entries[future.waitNode]
      ensures R.WorldInv(World)
    {
      hide R.Exec, I.Inv, LinkedList<M.WaitQueueEntry>.Valid;
      assert R.WorldInv(World);
    }

    constructor (isFair: bool, permits: nat)
      ensures Valid() && fresh(semaphore) && fresh(semaphore.waiters)
      ensures semaphore.isFair == isFair && initial == permits && Ops == []
    {
      semaphore := new SemaphoreState(isFair, permits);
      initial := permits;
      Releasers, Ops := [], [];
      World := R.Start(isFair, permits);
    }

    ghost method Record(op: R.Op<WaitNode>)
      requires Recorded()
      modifies this`Ops, this`World
      ensures Recorded() && R.WorldInv(old(World))
      ensures Ops == old(Ops) + [op] && World == R.Step(old(World), op)
    {
      R.ExecStep(semaphore.isFair, initial, Ops, op);
      World := R.Step(World, op);
      Ops := Ops + [op];
    }

    method Acquire(permits: nat) returns (future: AcquireFuture)
      requires Valid()
      modifies this, semaphore`Entries
      ensures Valid() && Ops == old(Ops) + [R.Acquire(future.waitNode, permits)]
      ensures fresh(future) && fresh(future.waitNode) && Unfinished(future) && Releasers == old(Releasers)
      ensures semaphore.Entries.Keys == old(semaphore.Entries.Keys) + {future.waitNode}
    {
      hide R.Exec, R.WorldInv, SemaphoreState.Shape, I.Inv;
      future := Semaphores.Acquire(semaphore, permits);
      Record(R.Acquire(future.waitNode, permits));
    }

    method Poll(future: AcquireFuture, waker: Waker) returns (result: Poll<Releaser>)
      requires Valid() && Unfinished(future)
      modifies this, future, semaphore, semaphore.waiters, semaphore.Entries.Keys
      ensures Valid() && Ops == old(Ops) + [R.PollFuture(future.waitNode, waker)]
      ensures result.Ready? ==> Releasers == old(Releasers) + [result.value] && fresh(result.value)
      ensures !result.Ready? ==> Releasers == old(Releasers)
      ensures semaphore.Entries.Keys == old(semaphore.Entries.Keys) - if result.Ready? then {future.waitNode} else {}
    {
      hide R.Exec, R.Step, R.WorldInv, M.Polled, I.Inv, SemaphoreState.Shape, AcquireFuture.Valid;
      FutureIsValid(future);
      PollEffect(World, future.waitNode, waker);
      result := future.Poll(waker);
      Record(R.PollFuture(future.waitNode, waker));
      if result.Ready? {
        Releasers := Releasers + [result.value];
      }
    }

    method Drop(future: AcquireFuture)
      requires Valid() && Unfinished(future)
      modifies this, semaphore, semaphore.waiters, semaphore.Entries.Keys
      ensures Valid() && Ops == old(Ops) + [R.DropFuture(future.waitNode)]
      ensures semaphore.Entries.Keys == old(semaphore.Entries.Keys) - {future.waitNode} && Releasers == old(Releasers)
    {
      hide R.Exec, R.Step, R.WorldInv, M.Dropped, I.Inv, SemaphoreState.Shape, AcquireFuture.Valid;
      FutureIsValid(future);
      DropEffect(World, future.waitNode);
      future.Drop();
      Record(R.DropFuture(future.waitNode));
    }

    /** The history needs a name for a request that never waits; an unlinked node serves as one. */
    method TryAcquire(permits: nat) returns (releaser: Option<Releaser>, ghost name: WaitNode)
      requires Valid()
      modifies this, semaphore`permits
      ensures Valid() && Ops == old(Ops) + [R.TryAcquireNow(name, permits)]
      ensures Releasers == old(Releasers) + if releaser.Some? then [releaser.value] else []
      ensures releaser.Some? ==> fresh(releaser.value)
      ensures releaser.Some? <==>
        permits <= old(semaphore.permits) && (!semaphore.isFair || semaphore.waiters.Nodes == [] || permits == 0)
    {
      hide R.Exec, R.Step, R.WorldInv, M.TryAcquireSync, SemaphoreState.Shape, I.Inv;
      var unlinked := new ListNode(M.WaitQueueEntry(None, M.New, permits));
      name := unlinked;
      TryAcquireEffect(World, name, permits);
      releaser := TryAcquireNow(semaphore, permits);
      Record(R.TryAcquireNow(name, permits));
      if releaser.Some? {
        Releasers := Releasers + [releaser.value];
      }
    }

    method Disarm(ghost i: nat, releaser: Releaser) returns (disarmed: nat)
      requires Valid() && i < |Releasers| && Releasers[i] == releaser
      modifies this`Ops, this`World, releaser
      ensures Valid() && Ops == old(Ops) + [R.Disarm(i)]
      ensures disarmed == old(releaser.permits)
    {
      hide R.Exec, R.WorldInv, SemaphoreState.Shape, I.Inv;
      disarmed := releaser.Disarm();
      Record(R.Disarm(i));
    }

    method DropReleaser(ghost i: nat, releaser: Releaser)
      requires Valid() && i < |Releasers| && Releasers[i] == releaser
      modifies this`Ops, this`World, this`Releasers, semaphore, semaphore.waiters, semaphore.Entries.Keys
      ensures Valid() && Ops == old(Ops) + [R.DropReleaser(i)] && semaphore.Entries.Keys == old(semaphore.Entries.Keys)
      ensures Releasers == old(Releasers[..i] + Releasers[i + 1..])
    {
      hide R.Exec, R.Step, R.WorldInv, SemaphoreState.Shape, I.Inv, M.Release;
      DropReleaserEffect(World, i);
      releaser.Drop();
      Record(R.DropReleaser(i));
      Releasers := Releasers[..i] + Releasers[i + 1..];
    }

    method Release(permits: nat)
      requires Valid()
      modifies this`Ops, this`World, semaphore, semaphore.waiters, semaphore.Entries.Keys
      ensures Valid() && Ops == old(Ops) + [R.ReleaseByHand(permits)]
      ensures semaphore.Entries.Keys == old(semaphore.Entries.Keys)
    {
      hide R.Exec, R.WorldInv, SemaphoreState.Shape, I.Inv, M.Release;
      I.ReleaseKeepsInv(semaphore.Model(), permits);
      semaphore.Release(permits);
      Record(R.ReleaseByHand(permits));
    }
  }

  /** What polling does in a run, as far as the heap can tell. */
  lemma PollEffect(w: R.World<WaitNode>, n: WaitNode, waker: Waker)
    requires R.WorldInv(w) && n in w.s.entries
    ensures M.Linked(w.s)
    ensures var (s, result) := M.Polled(w.s, n, waker); var w' := R.Step(w, R.PollFuture(n, waker));
      && w'.s == s
      && w'.releasers == w.releasers + (if result.Ready? then [w.s.entries[n].requiredPermits] else [])
      && s.entries.Keys == w.s.entries.Keys - if result.Ready? then {n} else {}
  {
    hide M.Polled;
    I.PolledKeepsInv(w.s, n, waker);
  }

  lemma DropEffect(w: R.World<WaitNode>, n: WaitNode)
    requires R.WorldInv(w) && n in w.s.entries
    ensures M.Linked(w.s)
    ensures var w' := R.Step(w, R.DropFuture(n));
      w'.s == M.Dropped(w.s, n) && w'.releasers == w.releasers && w'.s.entries.Keys == w.s.entries.Keys - {n}
  {
    hide M.Dropped;
    I.DropKeepsInv(w.s, n);
  }

  lemma TryAcquireEffect(w: R.World<WaitNode>, n: WaitNode, permits: nat)
    requires n !in w.used && I.Inv(w.s)
    ensures var (s, acquired) := M.TryAcquireSync(w.s, permits); var w' := R.Step(w, R.TryAcquireNow(n, permits));
      && w'.s == s && s.entries == w.s.entries && s.waiters == w.s.waiters
      && (acquired <==> permits <= w.s.permits && (!w.s.isFair || w.s.waiters == [] || permits == 0))
      && w'.releasers == w.releasers + (if acquired then [permits] else [])
  {
  }

  lemma DropReleaserEffect(w: R.World<WaitNode>, i: nat)
    requires i < |w.releasers| && I.Inv(w.s)
    ensures M.Linked(w.s)
    ensures var w' := R.Step(w, R.DropReleaser(i));
      && w'.s == M.Release(w.s, w.releasers[i]) && w'.s.entries.Keys == w.s.entries.Keys
      && w'.releasers == w.releasers[..i] + w.releasers[i + 1..]
  {
    hide M.Release;
    I.ReleaseKeepsInv(w.s, w.releasers[i]);
  }
}
