/** The intrusive doubly linked list: nodes live inside the futures that wait, and the list only links them. */
module LinkedLists {
  import opened Collections

  class ListNode<T> {
    var prev: ListNode?<T>
    var next: ListNode?<T>
    var data: T

    constructor (data: T)
      ensures this.data == data && IsClean()
    {
      this.data := data;
      prev, next := null, null;
    }

    /** The body shared by both drain loops: detach the node, then hand its data to the callback. */
    method Visit<E>(func: T -> (T, seq<E>)) returns (effects: seq<E>)
      modifies this
      ensures IsClean()
      ensures (data, effects) == func(old(data))
    {
      next := null;
      prev := null;
      var result := func(data);
      data := result.0;
      effects := result.1;
    }

    /** Linked to nothing, which is how a node outside every list looks. */
    ghost predicate IsClean()
      reads this
    {
      prev == null && next == null
    }
  }

  /** The neighbour of position `i`, or null when `i` falls off an end. */
  ghost function At<T>(nodes: seq<ListNode<T>>, i: int): ListNode?<T> {
    if 0 <= i < |nodes| then nodes[i] else null
  }

  /** The nodes at positions `lo..hi` point at their neighbours in `nodes`. */
  ghost predicate LinkedBetween<T>(nodes: seq<ListNode<T>>, lo: nat, hi: nat)
    requires hi <= |nodes|
    reads nodes`prev, nodes`next
  {
    && (forall i {:trigger nodes[i].prev} :: lo <= i < hi ==> nodes[i].prev == At(nodes, i - 1))
    && (forall i {:trigger nodes[i].next} :: lo <= i < hi ==> nodes[i].next == At(nodes, i + 1))
  }

  class LinkedList<T> {
    var head: ListNode?<T>
    var tail: ListNode?<T>
    /** The linked nodes from head to tail; the oldest waiter is the last one. */
    ghost var Nodes: seq<ListNode<T>>
    /** The same nodes as a set. */
    ghost var Repr: set<ListNode<T>>

    ghost predicate Valid()
      reads this, Nodes`prev, Nodes`next
    {
      && NoDup(Nodes)
      && (forall i :: 0 <= i < |Nodes| ==> Nodes[i] in Repr)
      && head == At(Nodes, 0)
      && tail == At(Nodes, |Nodes| - 1)
      && LinkedBetween(Nodes, 0, |Nodes|)
    }

    /** `Repr` holds linked nodes only. */
    ghost predicate Exact()
      reads this
    {
      forall n | n in Repr :: n in Nodes
    }

    constructor ()
      ensures Valid() && Nodes == [] && Repr == {}
    {
      head, tail, Nodes, Repr := null, null, [], {};
    }

    method AddFront(node: ListNode<T>)
      requires Valid() && node !in Nodes
      modifies this, node`prev, node`next, Repr`prev
      ensures Valid()
      ensures Nodes == [node] + old(Nodes) && Repr == old(Repr) + {node}
    {
      node.next := head;
      node.prev := null;
      if head != null {
        head.prev := node;
      }
      head := node;
      if tail == null {
        tail := node;
      }
      Nodes, Repr := [node] + Nodes, Repr + {node};
    }

    method PeekFirst() returns (r: ListNode?<T>)
      requires Valid()
      ensures r == At(Nodes, 0)
    {
      r := head;
    }

    method PeekLast() returns (r: ListNode?<T>)
      requires Valid()
      ensures r == At(Nodes, |Nodes| - 1)
    {
      r := tail;
    }

    method IsEmpty() returns (r: bool)
      requires Valid()
      ensures r <==> Nodes == []
    {
      if head != null {
        return false;
      }
      assert tail == null;  // the source's own debug assertion
      return true;
    }

    method RemoveFirst() returns (r: ListNode?<T>)
      requires Valid()
      modifies this, Repr`prev, Repr`next
      ensures Valid()
      ensures r == old(At(Nodes, 0))
      ensures r == null ==> Nodes == [] && Repr == old(Repr)
      ensures r != null ==> old(Nodes) == [r] + Nodes && r !in Nodes && Repr == old(Repr) - {r} && r.IsClean()
    {
      if head == null {
        return null;
      }
      var first := head;
      head := first.next;
      if first.next == null {
        assert tail == first;  // the source's own debug assertion
        tail := null;
      } else {
        first.next.prev := null;
      }
      first.prev := null;
      first.next := null;
      Nodes, Repr := Nodes[1..], Repr - {first};
      return first;
    }

    method RemoveLast() returns (r: ListNode?<T>)
      requires Valid()
      modifies this, Repr`prev, Repr`next
      ensures Valid()
      ensures r == old(At(Nodes, |Nodes| - 1))
      ensures r == null ==> Nodes == [] && Repr == old(Repr)
      ensures r != null ==> old(Nodes) == Nodes + [r] && r !in Nodes && Repr == old(Repr) - {r} && r.IsClean()
    {
      if tail == null {
        return null;
      }
      var last := tail;
      tail := last.prev;
      if last.prev == null {
        assert head == last;  // the source's own debug assertion
        head := null;
      } else {
        last.prev.next := null;
      }
      last.prev := null;
      last.next := null;
      Nodes, Repr := DropLast(Nodes), Repr - {last};
      return last;
    }

    /** Removes `node`, which must be in this list or in none. Only a node in no list is refused. */
    method Remove(node: ListNode<T>) returns (removed: bool)
      requires Valid()
      requires node !in Nodes ==> node.IsClean()
      modifies this, node`prev, node`next, Repr`prev, Repr`next
      ensures Valid()
      ensures removed <==> node in old(Nodes)
      ensures Nodes == Without(old(Nodes), node) && Repr == old(Repr) - {node}
      ensures node.IsClean()
    {
      ghost var k := if node in Nodes then IndexOf(Nodes, node) else -1;
      if node.prev == null && head != node {
        // A first node is the head, so this node is in no list at all.
        assert k < 0;
        assert node.next == null;  // the source's own debug assertion
        Repr := Repr - {node};
        return false;
      }
      assert 0 <= k;
      WithoutAt(Nodes, k);
      Unlink(node, k);
      return true;
    }

    /** The pointer surgery of `Remove` on the node at position `k`. */
    method Unlink(node: ListNode<T>, ghost k: nat)
      requires Valid()
      requires k < |Nodes| && Nodes[k] == node
      modifies this, Repr`prev, Repr`next
      ensures Valid()
      ensures Nodes == old(Nodes[..k] + Nodes[k + 1..]) && Repr == old(Repr) - {node}
      ensures node.IsClean()
    {
      if node.prev == null {
        head := node.next;
      } else {
        assert node.prev.next == node;  // the source's own debug assertion
        node.prev.next := node.next;
      }
      if node.next == null {
        assert tail == node;  // the source's own debug assertion
        tail := node.prev;
      } else {
        assert node.next.prev == node;  // the source's own debug assertion
        node.next.prev := node.prev;
      }
      node.next := null;
      node.prev := null;
      CutOut(Nodes, k);
      Nodes, Repr := Nodes[..k] + Nodes[k + 1..], Repr - {node};
    }

    /** Empties the list from the head. The callback rewrites a node's data and may emit effects. */
    method Drain<E>(func: T -> (T, seq<E>)) returns (effects: seq<E>)
      requires Valid()
      modifies this, Repr
      ensures Valid() && Nodes == [] && Repr == {}
      ensures Visited(func, old(Nodes), 0, |old(Nodes)|)
      ensures effects == old(ForwardEffects(func, Nodes, |Nodes|))
    {
      var current := head;
      head := null;
      tail := null;
      ghost var nodes := Nodes;
      ghost var k := 0;
      effects := [];
      while current != null
        invariant 0 <= k <= |nodes|
        invariant current == At(nodes, k)
        invariant head == null && tail == null && Nodes == nodes && Repr == old(Repr)
        invariant Visited(func, nodes, 0, k)
        // The nodes still to be visited keep their links, so the first of them points back at a detached node.
        invariant forall i :: k <= i < |nodes| ==> unchanged(nodes[i])
        invariant effects == old(ForwardEffects(func, nodes, k))
        decreases |nodes| - k
      {
        var node := current;
        assert forall i :: 0 <= i < |nodes| && i != k ==> nodes[i] != node;
        current := node.next;
        var emitted := node.Visit(func);
        effects := effects + emitted;
        k := k + 1;
      }
      Nodes, Repr := [], {};
    }

    /** Empties the list from the tail, that is from the oldest waiter. */
    method ReverseDrain<E>(func: T -> (T, seq<E>)) returns (effects: seq<E>)
      requires Valid()
      modifies this, Repr
      ensures Valid() && Nodes == [] && Repr == {}
      ensures Visited(func, old(Nodes), 0, |old(Nodes)|)
      ensures effects == old(ReverseEffects(func, Nodes, 0))
    {
      var current := tail;
      head := null;
      tail := null;
      ghost var nodes := Nodes;
      ghost var k := |nodes|;
      effects := [];
      while current != null
        invariant 0 <= k <= |nodes|
        invariant current == At(nodes, k - 1)
        invariant head == null && tail == null && Nodes == nodes && Repr == old(Repr)
        invariant Visited(func, nodes, k, |nodes|)
        // The nodes still to be visited keep their links, so the last of them points on at a detached node.
        invariant forall i :: 0 <= i < k ==> unchanged(nodes[i])
        invariant effects == old(ReverseEffects(func, nodes, k))
        decreases k
      {
        var node := current;
        assert forall i :: 0 <= i < |nodes| && i != k - 1 ==> nodes[i] != node;
        current := node.prev;
        var emitted := node.Visit(func);
        effects := effects + emitted;
        k := k - 1;
      }
      Nodes, Repr := [], {};
    }
  }

  /** Once the neighbours of position `k` point at each other, the sequence without it is linked. */
  lemma CutOut<T>(nodes: seq<ListNode<T>>, k: nat)
    requires NoDup(nodes) && k < |nodes|
    requires forall i {:trigger nodes[i].prev} :: 0 <= i < |nodes| && i != k ==>
      nodes[i].prev == At(nodes, if i == k + 1 then k - 1 else i - 1)
    requires forall i {:trigger nodes[i].next} :: 0 <= i < |nodes| && i != k ==>
      nodes[i].next == At(nodes, if i == k - 1 then k + 1 else i + 1)
    ensures var rest := nodes[..k] + nodes[k + 1..]; NoDup(rest) && LinkedBetween(rest, 0, |rest|)
  {
    var rest := nodes[..k] + nodes[k + 1..];
    assert forall i | 0 <= i < |rest| :: rest[i] == nodes[if i < k then i else i + 1];
    forall i | 0 <= i < |rest|
      ensures rest[i].prev == At(rest, i - 1) && rest[i].next == At(rest, i + 1)
    {
      var j := if i < k then i else i + 1;
      assert nodes[j].prev == At(nodes, if j == k + 1 then k - 1 else j - 1);
      assert nodes[j].next == At(nodes, if j == k - 1 then k + 1 else j + 1);
    }
  }

  /** Positions `lo..hi` were unlinked and had their data rewritten by the callback. */
  twostate predicate Visited<T, E>(func: T -> (T, seq<E>), nodes: seq<ListNode<T>>, lo: nat, hi: nat)
    requires hi <= |nodes|
    reads nodes
  {
    && (forall i {:trigger nodes[i].prev} :: lo <= i < hi ==> nodes[i].prev == null)
    && (forall i {:trigger nodes[i].next} :: lo <= i < hi ==> nodes[i].next == null)
    && (forall i {:trigger nodes[i].data} :: lo <= i < hi ==> nodes[i].data == func(old(nodes[i].data)).0)
  }

  /** What the callback emits on `nodes[..n]`, visited from the front. */
  ghost function ForwardEffects<T, E>(func: T -> (T, seq<E>), nodes: seq<ListNode<T>>, n: nat): seq<E>
    requires n <= |nodes|
    reads nodes
  {
    if n == 0 then [] else ForwardEffects(func, nodes, n - 1) + func(nodes[n - 1].data).1
  }

  /** What the callback emits on `nodes[lo..]`, visited from the back. */
  ghost function ReverseEffects<T, E>(func: T -> (T, seq<E>), nodes: seq<ListNode<T>>, lo: nat): seq<E>
    requires lo <= |nodes|
    reads nodes
    decreases |nodes| - lo
  {
    if lo == |nodes| then [] else ReverseEffects(func, nodes, lo + 1) + func(nodes[lo].data).1
  }

  /** Draining backwards emits exactly what draining the reversed list forwards would. */
  lemma {:induction false} ReverseDrainMirrorsDrain<T, E>(func: T -> (T, seq<E>), nodes: seq<ListNode<T>>, lo: nat)
    requires lo <= |nodes|
    ensures ReverseEffects(func, nodes, lo) == ForwardEffects(func, Reverse(nodes), |nodes| - lo)
    decreases |nodes| - lo
  {
    if lo < |nodes| {
      ReverseDrainMirrorsDrain(func, nodes, lo + 1);
      ReverseAt(nodes, |nodes| - lo - 1);
    }
  }
}
