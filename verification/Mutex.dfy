/** The mutex on the heap: wait queue entries live in the lock futures and are linked into an intrusive list. */
module Mutexes {
  import opened Collections
  import opened LinkedLists
  import M = MutexModel
  import R = MutexRuns

  type WaitNode = ListNode<M.WaitQueueEntry>

  class MutexState {
    const isFair: bool
    var isLocked: bool
    const waiters: LinkedList<M.WaitQueueEntry>
    /** What the wait nodes of all live lock futures hold, whether they are linked or not. */
    ghost var Entries: map<WaitNode, M.WaitQueueEntry>
    /** Every wake-up call so far. */
    ghost var Wakes: seq<Waker>

    ghost function Model(): M.State<WaitNode>
      reads this`isLocked, this`Entries, waiters`Nodes
    {
      M.State(isFair, isLocked, waiters.Nodes, Entries)
    }

    /** The list links wait nodes of live futures only. */
    ghost predicate Shape()
      reads this`isLocked, this`Entries, waiters, Entries.Keys
    {
      && M.Linked(Model())
      && waiters.Repr <= Entries.Keys
      && waiters.Valid() && waiters.Exact()
      && (forall n {:trigger n.data} | n in Entries :: n.data == Entries[n])
    }

    ghost predicate Valid()
      reads this`isLocked, this`Entries, waiters, Entries.Keys
    {
      Shape() && M.Inv(Model())
    }

    constructor (isFair: bool)
      ensures Valid() && fresh(waiters)
      ensures Model() == M.State(isFair, false, [], map[]) && Wakes == []
    {
      this.isFair := isFair;
      isLocked := false;
      waiters := new LinkedList();
      Entries, Wakes := map[], [];
    }

    /** Records a change of a wait node's data in the ghost copy. */
    method SetData(node: WaitNode, data: M.WaitQueueEntry)
      requires Shape() && node in Entries
      modifies this`Entries, node`data
      ensures Shape()
      ensures Model() == M.SetEntry(old(Model()), node, data)
    {
      node.data := data;
      Entries := Entries[node := data];
    }

    /** Notifies the oldest waiter and hands its waker out; an unfair mutex also takes it off the queue. */
    method ReturnLastWaiter() returns (task: Option<Waker>)
      requires Shape()
      modifies this`Entries, waiters, Entries.Keys
      ensures Shape() && Entries.Keys == old(Entries.Keys)
      ensures (Model(), task) == M.ReturnLastWaiter(old(Model()))
      ensures old(waiters.Nodes) != [] ==>
        var oldest := old(Last(waiters.Nodes));
        && oldest.data.state == M.Notified && task == old(oldest.data.task)
        && waiters.Nodes == old(if isFair then waiters.Nodes else DropLast(waiters.Nodes))
    {
      var lastWaiter;
      if isFair {
        lastWaiter := waiters.PeekLast();
      } else {
        lastWaiter := waiters.RemoveLast();
        assert waiters.Nodes == if old(waiters.Nodes) == [] then [] else DropLast(old(waiters.Nodes));
      }
      if lastWaiter != null {
        task := lastWaiter.data.task;
        SetData(lastWaiter, M.WaitQueueEntry(None, M.Notified));
        return;
      }
      return None;
    }

    method Unlock() returns (task: Option<Waker>)
      requires Valid()
      modifies this`isLocked, this`Entries, waiters, Entries.Keys
      ensures Valid() && Entries.Keys == old(Entries.Keys)
      ensures (Model(), task) == M.Unlock(old(Model()))
    {
      M.UnlockKeepsInv(Model());
      if isLocked {
        isLocked := false;
        assert Model() == old(Model()).(isLocked := false);
        task := ReturnLastWaiter();
      } else {
        return None;
      }
    }

    /** Locks at once if the mutex is free and, on a fair mutex, nobody is waiting for it. */
    method TryLockSync() returns (locked: bool)
      requires Shape()
      modifies this`isLocked
      ensures Shape()
      ensures (Model(), locked) == M.TryLockSync(old(Model()))
      ensures locked <==> !old(isLocked) && (!isFair || waiters.Nodes == [])
    {
      var empty := waiters.IsEmpty();
      if !isLocked && (!isFair || empty) {
        isLocked := true;
        return true;
      } else {
        return false;
      }
    }

    method Enqueue(node: WaitNode, waker: Waker)
      requires Shape() && node in Entries && node !in waiters.Nodes
      modifies this`Entries, waiters, node, Entries.Keys`prev
      ensures Shape()
      ensures Model() == M.Enqueue(old(Model()), node, waker)
    {
      SetData(node, M.WaitQueueEntry(Some(waker), M.Waiting));
      waiters.AddFront(node);
    }

    /** Unlinks a queued waiter. The source panics if the node is not linked, which the precondition excludes. */
    method ForceRemoveWaiter(node: WaitNode)
      requires Shape() && node in waiters.Nodes
      modifies waiters, Entries.Keys`prev, Entries.Keys`next
      ensures Shape()
      ensures Model() == M.Unlink(old(Model()), node)
    {
      WithoutMembers(waiters.Nodes, node);
      var removed := waiters.Remove(node);
      assert removed;
    }

    /** One poll of a lock future, which must not have finished before. */
    method TryLock(node: WaitNode, waker: Waker) returns (result: Poll<()>)
      requires Valid() && node in Entries && node.data.state != M.Done
      modifies this`isLocked, this`Entries, waiters, Entries.Keys
      ensures Valid() && Entries.Keys == old(Entries.Keys)
      ensures (Model(), result) == M.TryLock(old(Model()), node, waker)
      ensures result != Panicked
      ensures !isFair ==> (result.Ready? <==> !old(isLocked))
      ensures result.Pending? ==>
        node.data == M.WaitQueueEntry(Some(waker), M.Waiting) && node in waiters.Nodes
    {
      hide M.Inv, LinkedList<M.WaitQueueEntry>.Valid;
      R.TryLockKeepsInv(Model(), node, waker);
      M.StateTellsQueued(Model(), node);
      match node.data.state
      case New =>
        var locked := TryLockSync();
        if locked {
          SetData(node, node.data.(state := M.Done));
          return Ready(());
        } else {
          Enqueue(node, waker);
          return Pending;
        }
      case Waiting =>
        if isFair {
          SetData(node, node.data.(task := UpdateWakerRef(node.data.task, waker)));
          return Pending;
        } else if !isLocked {
          isLocked := true;
          SetData(node, node.data.(state := M.Done));
          ForceRemoveWaiter(node);
          return Ready(());
        } else {
          SetData(node, node.data.(task := UpdateWakerRef(node.data.task, waker)));
          return Pending;
        }
      case Notified =>
        if !isLocked {
          if isFair {
            ForceRemoveWaiter(node);
          }
          isLocked := true;
          SetData(node, node.data.(state := M.Done));
          return Ready(());
        } else {
          assert !isFair;  // the source's own debug assertion: fair waiters always get the lock when notified
          Enqueue(node, waker);
          return Pending;
        }
    }

    /** Takes a future that gives up out of the queue; the waker of the next in line is returned if it was notified. */
    method RemoveWaiter(node: WaitNode) returns (task: Option<Waker>)
      requires Valid() && node in Entries
      modifies this`Entries, waiters, Entries.Keys
      ensures Valid() && Entries.Keys == old(Entries.Keys)
      ensures (Model(), task) == M.RemoveWaiter(old(Model()), node)
      ensures node !in waiters.Nodes
    {
      hide M.Inv, LinkedList<M.WaitQueueEntry>.Valid;
      R.RemoveWaiterKeepsInv(Model(), node);
      M.StateTellsQueued(Model(), node);
      match node.data.state
      case Notified =>
        if isFair {
          ForceRemoveWaiter(node);
        }
        SetData(node, node.data.(state := M.Done));
        task := ReturnLastWaiter();
      case Waiting =>
        ForceRemoveWaiter(node);
        SetData(node, node.data.(state := M.Done));
        return None;
      case New =>
        return None;
      case Done =>
        return None;
    }

    /** A future that is not queued may disappear. */
    ghost method Forget(node: WaitNode)
      requires Shape() && node !in waiters.Nodes
      modifies this`Entries
      ensures Shape()
      ensures Model() == M.Forget(old(Model()), node)
    {
      Entries := Entries - {node};
    }

    /** Wakes the task behind a waker that an operation handed out. */
    method Wake(task: Option<Waker>)
      modifies this`Wakes
      ensures Wakes == old(Wakes) + Woken(task)
    {
      if task.Some? {
        Wakes := Wakes + [task.value];
      }
    }
  }

  /** Creates a future that will ask for the lock when it is polled. */
  method Lock(mutex: MutexState) returns (future: LockFuture)
    requires mutex.Valid()
    modifies mutex`Entries
    ensures mutex.Valid()
    ensures fresh(future) && fresh(future.waitNode) && future.mutex == mutex && future.Valid()
    ensures mutex.Model() == M.SetEntry(old(mutex.Model()), future.waitNode, M.WaitQueueEntry(None, M.New))
  {
    var node := new ListNode(M.WaitQueueEntry(None, M.New));
    future := new LockFuture(mutex, node);
    R.NewFutureKeepsInv(mutex.Model(), node);
    mutex.Entries := mutex.Entries[node := node.data];
  }

  /** Locks at once, if that is possible. */
  method TryLockNow(mutex: MutexState) returns (guard: Option<Guard>)
    requires mutex.Valid()
    modifies mutex`isLocked
    ensures mutex.Valid()
    ensures (mutex.Model(), guard.Some?) == M.TryLockSync(old(mutex.Model()))
    ensures guard.Some? ==> fresh(guard.value) && guard.value.mutex == mutex
  {
    R.TryLockSyncKeepsInv(mutex.Model());
    var locked := mutex.TryLockSync();
    if locked {
      var g := new Guard(mutex);
      return Some(g);
    } else {
      return None;
    }
  }

  class LockFuture {
    /** The mutex, until the future has finished. */
    var mutex: MutexState?
    const waitNode: WaitNode

    constructor (mutex: MutexState, waitNode: WaitNode)
      ensures this.mutex == mutex && this.waitNode == waitNode
    {
      this.mutex := mutex;
      this.waitNode := waitNode;
    }

    /** An unfinished future is attached to its mutex. */
    ghost predicate Valid()
      reads this, mutex, waitNode
    {
      mutex != null ==> waitNode in mutex.Entries && waitNode.data.state != M.Done
    }

    /** Polls a future that has not finished; the source panics on any other. */
    method Poll(waker: Waker) returns (result: Poll<Guard>)
      requires mutex != null && mutex.Valid() && Valid()
      modifies this, mutex, mutex.waiters, mutex.Entries.Keys
      ensures Valid() && old(mutex).Valid() && old(mutex).Wakes == old(mutex.Wakes)
      ensures old(mutex).Model() == M.Polled(old(mutex.Model()), waitNode, waker).0
      ensures result.Ready? <==> M.Polled(old(mutex.Model()), waitNode, waker).1.Ready?
      ensures mutex == if result.Ready? then null else old(mutex)
      ensures result.Ready? ==> fresh(result.value) && result.value.mutex == old(mutex) && old(mutex).isLocked
      ensures result != Panicked
    {
      hide M.TryLock, M.Inv, LinkedList<M.WaitQueueEntry>.Valid;
      var m := mutex;
      PolledStands(m.Model(), waitNode, waker);
      var polled := m.TryLock(waitNode, waker);
      match polled
      case Pending =>
        return Pending;
      case Ready(_) =>
        mutex := null;
        m.Forget(waitNode);
        var guard := new Guard(m);
        return Ready(guard);
    }

    /** The destructor: gives up if the future has not finished. */
    method Drop()
      requires mutex != null ==> mutex.Valid() && Valid()
      modifies mutex, if mutex == null then {} else {mutex.waiters} + mutex.Entries.Keys
      ensures mutex != null ==> mutex.Valid() && waitNode !in mutex.Entries
      ensures mutex != null ==>
        var (s, task) := M.Dropped(old(mutex.Model()), waitNode);
        mutex.Model() == s && mutex.Wakes == old(mutex.Wakes) + Woken(task)
    {
      hide M.RemoveWaiter, M.Inv, LinkedList<M.WaitQueueEntry>.Valid;
      if mutex != null {
        R.DropKeepsInv(mutex.Model(), waitNode);
        var task := mutex.RemoveWaiter(waitNode);
        mutex.Forget(waitNode);
        mutex.Wake(task);
      }
    }
  }

  lemma PolledStands(s: M.State<WaitNode>, n: WaitNode, waker: Waker)
    requires M.Inv(s) && n in s.entries && s.entries[n].state != M.Done
    ensures M.Inv(M.Polled(s, n, waker).0)
    ensures var (r, result) := M.TryLock(s, n, waker);
      && (result.Pending? ==> n in r.entries && r.entries[n].state != M.Done)
      && (result.Ready? ==> n !in r.waiters && r.isLocked)
  {
    R.PolledKeepsInv(s, n, waker);
    R.TryLockKeepsInv(s, n, waker);
    if M.TryLock(s, n, waker).1.Ready? {
      R.ReadyIsDone(s, n, waker);
    }
  }

  class Guard {
    const mutex: MutexState

    constructor (mutex: MutexState)
      ensures this.mutex == mutex
    {
      this.mutex := mutex;
    }

    /** The destructor: unlocks the mutex and wakes whoever is next. */
    method Drop()
      requires mutex.Valid()
      modifies mutex, mutex.waiters, mutex.Entries.Keys
      ensures mutex.Valid()
      ensures var (s, task) := M.Unlock(old(mutex.Model()));
        mutex.Model() == s && mutex.Wakes == old(mutex.Wakes) + Woken(task)
    {
      var task := mutex.Unlock();
      mutex.Wake(task);
    }
  }
}
