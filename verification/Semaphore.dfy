/** The semaphore on the heap: wait queue entries live in the futures and are linked into an intrusive list. */
module Semaphores {
  import opened Collections
  import opened LinkedLists
  import M = SemaphoreModel
  import I = SemaphoreInvariants
  import A = SemaphorePolling

  type WaitNode = ListNode<M.WaitQueueEntry>

  class SemaphoreState {
    const isFair: bool
    var permits: nat
    const waiters: LinkedList<M.WaitQueueEntry>
    /** What the wait nodes of all live acquire futures hold, whether they are linked or not. */
    ghost var Entries: map<WaitNode, M.WaitQueueEntry>
    /** Every wake-up call so far. */
    ghost var Wakes: seq<Waker>

    ghost function Model(): M.State<WaitNode>
      reads this, waiters
    {
      M.State(isFair, permits, waiters.Nodes, Entries, Wakes)
    }

    /** The list links wait nodes of live futures only. */
    ghost predicate Shape()
      reads this, waiters, Entries.Keys
    {
      && M.Linked(Model())
      && waiters.Repr <= Entries.Keys
      && waiters.Valid() && waiters.Exact()
      && (forall n {:trigger n.data} | n in Entries :: n.data == Entries[n])
    }

    ghost predicate Valid()
      reads this, waiters, Entries.Keys
    {
      Shape() && I.Inv(Model())
    }

    constructor (isFair: bool, permits: nat)
      ensures Valid() && fresh(waiters)
      ensures Model() == M.State(isFair, permits, [], map[], [])
    {
      this.isFair := isFair;
      this.permits := permits;
      waiters := new LinkedList();
      Entries, Wakes := map[], [];
    }

    /** Wakes as many waiters as the permits allow, oldest first; a fair semaphore wakes no more than one. */
    method WakeupWaiters()
      requires Shape()
      modifies this`Wakes, this`Entries, waiters, Entries.Keys
      ensures Shape() && Entries.Keys == old(Entries.Keys)
      ensures Model() == M.WakeupWaiters(old(Model()))
    {
      hide M.WakeLoop, LinkedList<M.WaitQueueEntry>.Valid;
      var available := permits;
      while true
        invariant Shape() && Entries.Keys == old(Entries.Keys)
        invariant M.WakeLoop(Model(), available) == M.WakeLoop(old(Model()), permits)
        invariant permits == old(permits)
        decreases |waiters.Nodes|
      {
        ghost var s := Model();
        M.WakeLoopRound(s, available);
        var lastWaiter := waiters.PeekLast();
        if lastWaiter == null {
          return;
        }
        var required := lastWaiter.data.requiredPermits;
        if available < required {
          return;
        }
        available := available - required;
        NotifyWaiter(lastWaiter);
        if isFair {
          return;
        }
        DropOldest();
      }
    }

    method DropOldest()
      requires Shape() && waiters.Nodes != []
      modifies waiters, Entries.Keys`prev, Entries.Keys`next
      ensures Shape()
      ensures Model() == old(Model()).(waiters := DropLast(old(waiters.Nodes)))
    {
      var _ := waiters.RemoveLast();
      assert waiters.Nodes == DropLast(old(waiters.Nodes));
    }

    /** Tells a waiter that it may try again, unless it has been told already. */
    method NotifyWaiter(waiter: WaitNode)
      requires Shape() && waiter in Entries
      modifies this`Wakes, this`Entries, waiter`data
      ensures Shape() && Entries.Keys == old(Entries.Keys)
      ensures Model() == M.Notify(old(Model()), waiter)
    {
      if waiter.data.state != M.Notified {
        waiter.data := waiter.data.(state := M.Notified);
        Entries := Entries[waiter := waiter.data];
        Wakes := Wakes + Woken(waiter.data.task);
      }
    }

    method Release(permits: nat)
      requires Valid()
      modifies this, waiters, Entries.Keys
      ensures Valid() && Entries.Keys == old(Entries.Keys)
      ensures Model() == M.Release(old(Model()), permits)
    {
      hide M.WakeLoop, I.Inv;
      I.ReleaseKeepsInv(Model(), permits);
      if permits == 0 {
        return;
      }
      this.permits := this.permits + permits;
      assert Model() == old(Model()).(permits := this.permits);
      WakeupWaiters();
    }

    /** Acquires at once if the permits are there and, on a fair semaphore, nobody is waiting for any. */
    method TryAcquireSync(required: nat) returns (acquired: bool)
      requires Shape()
      modifies this`permits
      ensures Shape()
      ensures (Model(), acquired) == M.TryAcquireSync(old(Model()), required)
      ensures acquired <==> required <= old(permits) && (!isFair || waiters.Nodes == [] || required == 0)
    {
      var empty := waiters.IsEmpty();
      if permits >= required && (!isFair || empty || required == 0) {
        permits := permits - required;
        return true;
      } else {
        return false;
      }
    }

    /** Unlinks a queued waiter. The source panics if the node is not linked, which the precondition excludes. */
    method ForceRemoveWaiter(node: WaitNode)
      requires Shape() && node in waiters.Nodes
      modifies waiters, Entries.Keys`prev, Entries.Keys`next
      ensures Shape()
      ensures Model() == M.Unlink(old(Model()), node)
    {
      WithoutMembers(waiters.Nodes, node);
      var removed := waiters.Remove(node);
      assert removed;
    }

    /** Records a change of a wait node's data in the ghost copy. */
    method SetData(node: WaitNode, data: M.WaitQueueEntry)
      requires Shape() && node in Entries
      modifies this`Entries, node`data
      ensures Shape()
      ensures Model() == old(Model()).(entries := old(Entries)[node := data])
    {
      node.data := data;
      Entries := Entries[node := data];
    }

    method Enqueue(node: WaitNode, waker: Waker)
      requires Shape() && node in Entries && node !in waiters.Nodes
      modifies this`Entries, waiters, node, Entries.Keys`prev
      ensures Shape()
      ensures Model() == M.Enqueue(old(Model()), node, waker)
    {
      hide LinkedList<M.WaitQueueEntry>.Valid;
      SetData(node, node.data.(task := Some(waker)));
      SetData(node, node.data.(state := M.Waiting));
      waiters.AddFront(node);
    }

    /** One poll of an acquire future, which must not have finished before. */
    method TryAcquire(node: WaitNode, waker: Waker) returns (result: Poll<()>)
      requires Valid() && node in Entries && node.data.state != M.Done
      modifies this, waiters, Entries.Keys
      ensures Valid() && Entries.Keys == old(Entries.Keys)
      ensures (Model(), result) == M.TryAcquire(old(Model()), node, waker)
      ensures result != Panicked
      ensures !isFair ==> (result.Ready? <==> old(node.data.requiredPermits <= permits))
      ensures result.Pending? ==>
        node.data == M.WaitQueueEntry(Some(waker), M.Waiting, old(node.data.requiredPermits)) && node in waiters.Nodes
    {
      hide M.WakeLoop, I.WellFormed, I.NotifiedIsServable, LinkedList<M.WaitQueueEntry>.Valid;
      I.TryAcquireKeepsInv(Model(), node, waker);
      AnswersAndRemembers(Model(), node, waker);
      I.StateTellsQueued(Model(), node);
      M.UnlinkLinked(Model(), node);
      var required := node.data.requiredPermits;
      match node.data.state
      case New =>
        var acquired := TryAcquireSync(required);
        if acquired {
          SetData(node, node.data.(state := M.Done));
          return Ready(());
        } else {
          Enqueue(node, waker);
          return Pending;
        }
      case Waiting =>
        if isFair {
          SetData(node, node.data.(task := UpdateWakerRef(node.data.task, waker)));
          return Pending;
        } else if permits >= required {
          permits := permits - required;
          SetData(node, node.data.(state := M.Done));
          ForceRemoveWaiter(node);
          return Ready(());
        } else {
          SetData(node, node.data.(task := UpdateWakerRef(node.data.task, waker)));
          return Pending;
        }
      case Notified =>
        if permits >= required {
          if isFair {
            ForceRemoveWaiter(node);
          }
          permits := permits - required;
          if isFair {
            WakeupWaiters();
          }
          SetData(node, node.data.(state := M.Done));
          return Ready(());
        } else {
          assert !isFair;  // the source's own assertion: fair waiters are always servable when notified
          Enqueue(node, waker);
          return Pending;
        }
    }

    /** Takes a future that gives up out of the queue, and passes a notification on if it had one. */
    method RemoveWaiter(node: WaitNode)
      requires Valid() && node in Entries
      modifies this, waiters, Entries.Keys
      ensures Valid() && Entries.Keys == old(Entries.Keys)
      ensures Model() == M.RemoveWaiter(old(Model()), node)
      ensures node !in waiters.Nodes
    {
      hide M.WakeLoop, I.WellFormed, I.NotifiedIsServable, LinkedList<M.WaitQueueEntry>.Valid;
      I.RemoveWaiterKeepsInv(Model(), node);
      I.StateTellsQueued(Model(), node);
      M.UnlinkLinked(Model(), node);
      match node.data.state
      case Notified =>
        if isFair {
          ForceRemoveWaiter(node);
        }
        SetData(node, node.data.(state := M.Done));
        WakeupWaiters();
      case Waiting =>
        ForceRemoveWaiter(node);
        SetData(node, node.data.(state := M.Done));
      case New =>
      case Done =>
    }

    /** A future that is not queued may disappear. */
    ghost method Forget(node: WaitNode)
      requires Shape() && node !in waiters.Nodes
      modifies this`Entries
      ensures Shape()
      ensures Model() == M.Forget(old(Model()), node)
    {
      Entries := Entries - {node};
    }
  }

  /** Creates a future that will ask for `permits` when it is polled. */
  method Acquire(semaphore: SemaphoreState, permits: nat) returns (future: AcquireFuture)
    requires semaphore.Valid()
    modifies semaphore`Entries
    ensures semaphore.Valid()
    ensures fresh(future) && fresh(future.waitNode) && future.semaphore == semaphore && future.Valid()
    ensures semaphore.Model() == old(semaphore.Model()).(
      entries := old(semaphore.Entries)[future.waitNode := M.WaitQueueEntry(None, M.New, permits)])
  {
    var node := new ListNode(M.WaitQueueEntry(None, M.New, permits));
    future := new AcquireFuture(semaphore, node);
    I.NewFutureKeepsInv(semaphore.Model(), node, permits);
    semaphore.Entries := semaphore.Entries[node := node.data];
  }

  /** Acquires permits at once, if that is possible. */
  method TryAcquireNow(semaphore: SemaphoreState, permits: nat) returns (releaser: Option<Releaser>)
    requires semaphore.Valid()
    modifies semaphore`permits
    ensures semaphore.Valid()
    ensures (semaphore.Model(), releaser.Some?) == M.TryAcquireSync(old(semaphore.Model()), permits)
    ensures releaser.Some? ==> fresh(releaser.value) && releaser.value.semaphore == semaphore
    ensures releaser.Some? ==> releaser.value.permits == permits
  {
    I.TryAcquireSyncKeepsInv(semaphore.Model(), permits);
    var acquired := semaphore.TryAcquireSync(permits);
    if acquired {
      var r := new Releaser(semaphore, permits);
      return Some(r);
    } else {
      return None;
    }
  }

  class AcquireFuture {
    /** The semaphore, until the future has finished. */
    var semaphore: SemaphoreState?
    const waitNode: WaitNode

    constructor (semaphore: SemaphoreState, waitNode: WaitNode)
      ensures this.semaphore == semaphore && this.waitNode == waitNode
    {
      this.semaphore := semaphore;
      this.waitNode := waitNode;
    }

    /** An unfinished future is attached to its semaphore. */
    ghost predicate Valid()
      reads this, semaphore, waitNode
    {
      semaphore != null ==> waitNode in semaphore.Entries && waitNode.data.state != M.Done
    }

    /** Polls a future that has not finished; the source panics on any other. */
    method Poll(waker: Waker) returns (result: Poll<Releaser>)
      requires semaphore != null && semaphore.Valid() && Valid()
      modifies this, semaphore, semaphore.waiters, semaphore.Entries.Keys
      ensures Valid() && old(semaphore).Valid()
      ensures old(semaphore).Model() == M.Polled(old(semaphore.Model()), waitNode, waker).0
      ensures result.Ready? <==> M.Polled(old(semaphore.Model()), waitNode, waker).1.Ready?
      ensures semaphore == if result.Ready? then null else old(semaphore)
      ensures result.Ready? ==> fresh(result.value) && result.value.semaphore == old(semaphore)
      ensures result.Ready? ==> result.value.permits == old(waitNode.data.requiredPermits)
      ensures result != Panicked
    {
      hide M.TryAcquire, I.Inv, LinkedList<M.WaitQueueEntry>.Valid;
      var s := semaphore;
      PolledStands(s.Model(), waitNode, waker);
      var required := waitNode.data.requiredPermits;
      var polled := s.TryAcquire(waitNode, waker);
      match polled
      case Pending =>
        return Pending;
      case Ready(_) =>
        semaphore := null;
        s.Forget(waitNode);
        var releaser := new Releaser(s, required);
        return Ready(releaser);
    }

    /** The destructor: gives up if the future has not finished. */
    method Drop()
      requires semaphore != null ==> semaphore.Valid() && Valid()
      modifies semaphore, if semaphore == null then {} else {semaphore.waiters} + semaphore.Entries.Keys
      ensures semaphore != null ==> semaphore.Valid() && waitNode !in semaphore.Entries
      ensures semaphore != null ==> semaphore.Model() == M.Dropped(old(semaphore.Model()), waitNode)
    {
      hide M.RemoveWaiter, I.Inv, LinkedList<M.WaitQueueEntry>.Valid;
      if semaphore != null {
        I.DropKeepsInv(semaphore.Model(), waitNode);
        semaphore.RemoveWaiter(waitNode);
        semaphore.Forget(waitNode);
      }
    }
  }

  lemma AnswersAndRemembers(s: M.State<WaitNode>, n: WaitNode, waker: Waker)
    requires I.Inv(s) && n in s.entries && s.entries[n].state != M.Done
    ensures var (t, p) := M.TryAcquire(s, n, waker);
      && (!s.isFair ==> (p.Ready? <==> s.entries[n].requiredPermits <= s.permits))
      && (p.Pending? ==>
        n in t.waiters && n in t.entries &&
        t.entries[n] == M.WaitQueueEntry(Some(waker), M.Waiting, s.entries[n].requiredPermits))
  {
    hide M.TryAcquire;
    if !s.isFair {
      A.UnfairPollIsReadyIfItFits(s, n, waker);
    }
    if M.TryAcquire(s, n, waker).1.Pending? {
      A.PendingPollRemembersTheTask(s, n, waker);
    }
  }

  lemma PolledStands(s: M.State<WaitNode>, n: WaitNode, waker: Waker)
    requires I.Inv(s) && n in s.entries && s.entries[n].state != M.Done
    ensures M.Linked(s) && I.Inv(M.Polled(s, n, waker).0)
    ensures var (r, result) := M.TryAcquire(s, n, waker);
      && (result.Pending? ==> n in r.entries && r.entries[n].state != M.Done)
      && (result.Ready? ==> n !in r.waiters)
  {
    I.PolledKeepsInv(s, n, waker);
    I.TryAcquireKeepsInv(s, n, waker);
    if M.TryAcquire(s, n, waker).1.Ready? {
      I.ReadyIsDone(s, n, waker);
    }
  }

  class Releaser {
    const semaphore: SemaphoreState
    /** The permits that dropping the releaser gives back. */
    var permits: nat

    constructor (semaphore: SemaphoreState, permits: nat)
      ensures this.semaphore == semaphore && this.permits == permits
    {
      this.semaphore := semaphore;
      this.permits := permits;
    }

    /** From now on the caller answers for the permits. */
    method Disarm() returns (disarmed: nat)
      modifies this
      ensures disarmed == old(permits) && permits == 0
    {
      disarmed := permits;
      permits := 0;
    }

    /** The destructor. */
    method Drop()
      requires semaphore.Valid()
      modifies semaphore, semaphore.waiters, semaphore.Entries.Keys
      ensures semaphore.Valid()
      ensures semaphore.Model() == M.Release(old(semaphore.Model()), permits)
    {
      if permits != 0 {
        semaphore.Release(permits);
      }
    }
  }
}
