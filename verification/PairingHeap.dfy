/** The intrusive pairing heap: a tree of nodes threaded through parent, sibling and first-child pointers. */
module PairingHeaps {
  import opened Collections

  class HeapNode<T> {
    var parent: HeapNode?<T>
    var prev: HeapNode?<T>
    var next: HeapNode?<T>
    var firstChild: HeapNode?<T>
    /** The part of the payload that orders nodes. It never changes while the node exists. */
    const key: int
    var data: T
    /** Grows strictly towards the root, which rules out cycles through parents. */
    ghost var rank: real
    /** Grows strictly along a list of siblings, which rules out cycles through siblings. */
    ghost var position: int

    constructor (key: int, data: T)
      ensures this.key == key && this.data == data && IsClean()
    {
      this.key := key;
      this.data := data;
      parent, prev, next, firstChild := null, null, null, null;
    }

    /** Linked to nothing, which is how a node outside every heap looks. */
    ghost predicate IsClean()
      reads this`parent, this`prev, this`next, this`firstChild
    {
      parent == null && prev == null && next == null && firstChild == null
    }

    /** A node without a parent has no siblings either. */
    method IsRoot() returns (r: bool)
      requires parent == null ==> prev == null && next == null
      ensures r <==> parent == null
    {
      if parent == null {
        assert prev == null;  // the source's own debug assertions
        assert next == null;
        return true;
      } else {
        return false;
      }
    }
  }

  ghost function At<T>(nodes: seq<HeapNode<T>>, i: int): HeapNode?<T> {
    if 0 <= i < |nodes| then nodes[i] else null
  }

  /** `nodes` is a forest of heap-ordered trees, except for the orphans of a parent that has been cut out. */
  ghost predicate Forest<T>(nodes: set<HeapNode<T>>, missing: HeapNode?<T>)
    reads nodes`parent, nodes`prev, nodes`next, nodes`firstChild, nodes`rank, nodes`position
  {
    && missing !in nodes
    && (forall n {:trigger n.firstChild} | n in nodes && n.firstChild != null ::
      n.firstChild in nodes && n.firstChild.parent == n && n.firstChild.prev == null)
    && (forall n {:trigger n.next} | n in nodes && (n.parent == null || n.parent != missing) && n.next != null ::
      n.next in nodes && n.next.prev == n && n.next.parent == n.parent != null && n.position < n.next.position)
    && (forall n {:trigger n.prev} | n in nodes && (n.parent == null || n.parent != missing) && n.prev != null ::
      n.prev in nodes && n.prev.next == n && n.prev.parent == n.parent != null)
    && (forall n {:trigger n.parent} | n in nodes && (n.parent == null || n.parent != missing) && n.parent != null ::
      n.parent in nodes && n.parent.key <= n.key && n.rank < n.parent.rank &&
      (n.prev == null ==> n.parent.firstChild == n))
  }

  /** Links a parentless `child` in front of the children of `parent`. */
  method AddChild<T>(parent: HeapNode<T>, child: HeapNode<T>,
      ghost nodes: set<HeapNode<T>>, ghost missing: HeapNode?<T>)
    requires Forest(nodes, missing)
    requires parent in nodes && child in nodes && parent != child
    requires child.parent == null
    requires parent.key <= child.key  // the source's own debug assertion
    requires child.rank < parent.rank
    modifies parent`firstChild, child`parent, child`next, child`position, nodes`prev
    ensures Forest(nodes, missing)
    ensures child.parent == parent && parent.firstChild == child
    ensures forall n | n in nodes && n.parent == missing != null :: n.prev == old(n.prev)
  {
    var oldFirstChild := parent.firstChild;
    if oldFirstChild != null {
      child.next := oldFirstChild;
      assert oldFirstChild.prev == null;  // the source's own debug assertion
      oldFirstChild.prev := child;
      child.position := oldFirstChild.position - 1;
    }
    parent.firstChild := child;
    child.parent := parent;
    assert forall n {:trigger n.next} | n in nodes && n != child :: n.next == old(n.next);
    assert forall n {:trigger n.parent} | n in nodes && n != child :: n.parent == old(n.parent);
    assert forall n {:trigger n.firstChild} | n in nodes && n != parent :: n.firstChild == old(n.firstChild);
    assert forall n {:trigger n.prev} | n in nodes && n != oldFirstChild :: n.prev == old(n.prev);
  }

  /** Merges two distinct trees; the root with the lesser key wins, and the right one wins a tie. */
  method Meld<T>(left: HeapNode<T>, right: HeapNode<T>,
      ghost nodes: set<HeapNode<T>>, ghost missing: HeapNode?<T>, ghost bound: real)
    returns (root: HeapNode<T>)
    requires Forest(nodes, missing)
    requires left in nodes && right in nodes && left != right
    requires left.parent == null && right.parent == null
    requires left.rank < bound && right.rank < bound
    modifies left`firstChild, left`parent, left`next, left`position, left`rank
    modifies right`firstChild, right`parent, right`next, right`position, right`rank
    modifies nodes`prev
    ensures Forest(nodes, missing)
    ensures root == if left.key < right.key then left else right
    ensures root.parent == null && root.rank < bound
    ensures (if left.key < right.key then right else left).parent == root
    ensures forall n | n in nodes && n.parent == missing != null :: n.prev == old(n.prev)
  {
    var _ := left.IsRoot();  // the source's own debug assertions
    var _ := right.IsRoot();
    if left.key < right.key {
      left.rank := if left.rank > right.rank then left.rank else (right.rank + bound) / 2.0;
      AddChild(left, right, nodes, missing);
      return left;
    } else {
      right.rank := if right.rank > left.rank then right.rank else (left.rank + bound) / 2.0;
      AddChild(right, left, nodes, missing);
      return right;
    }
  }

  /** A child list with the index at which each child stands in it. */
  datatype Siblings<T> = Siblings(parent: HeapNode<T>, children: seq<HeapNode<T>>, index: map<HeapNode<T>, int>)
  {
    /** The index is the inverse of the list, so the list has no duplicates. */
    ghost predicate Indexed() {
      && (forall i {:trigger children[i]} :: 0 <= i < |children| ==> children[i] in index && index[children[i]] == i)
      && (forall n | n in index :: 0 <= index[n] < |children| && children[index[n]] == n)
    }
  }

  /** The first `k` siblings are all the nodes that name their parent, and they are linked first to last. */
  ghost predicate Linked<T>(nodes: set<HeapNode<T>>, s: Siblings<T>, k: nat)
    reads nodes
  {
    && k <= |s.children|
    && s.index.Keys <= nodes
    && s.Indexed()
    && (forall n {:trigger n.prev} | n in s.index && s.index[n] < k :: n.prev == At(s.children, s.index[n] - 1))
    && (forall n {:trigger n.next} | n in s.index && s.index[n] < k ::
      n.next == if s.index[n] + 1 < k then s.children[s.index[n] + 1] else null)
    && (forall n {:trigger n.parent} | n in nodes :: n.parent == s.parent <==> n in s.index && s.index[n] < k)
  }

  /** What stays fixed while the children of a cut-out parent are merged; their ranks stay below `bound`. */
  datatype Merge<T> = Merge(nodes: set<HeapNode<T>>, siblings: Siblings<T>, bound: real)
  {
    ghost function Batch(): set<HeapNode<T>> {
      siblings.index.Keys
    }
  }

  /** The first `k` children still have to be merged, and the others have become the trees with the given `roots`. */
  ghost predicate Merging<T>(m: Merge<T>, k: nat, roots: set<HeapNode<T>>)
    reads m.nodes
  {
    && Forest(m.nodes, m.siblings.parent)
    && Linked(m.nodes, m.siblings, k)
    && (forall n {:trigger n.rank} | n in m.Batch() :: n.rank < m.bound)
    && roots <= m.Batch()
    && (forall n {:trigger n.parent} | n in m.Batch() :: n.parent == null <==> n in roots)
  }

  /** Given the first child, walks to the last one. */
  method LastChild<T>(firstChild: HeapNode<T>, ghost m: Merge<T>)
    returns (last: HeapNode<T>)
    requires Merging(m, |m.siblings.children|, {})
    requires m.siblings.children != [] && m.siblings.children[0] == firstChild
    ensures last == Last(m.siblings.children)
    ensures firstChild.parent == m.siblings.parent
  {
    ghost var i := 0;
    last := firstChild;
    while last.next != null
      invariant i < |m.siblings.children| && last == m.siblings.children[i]
      decreases |m.siblings.children| - i
    {
      last := last.next;
      i := i + 1;
    }
  }

  /** Cuts the last node of a child list off and returns the one before it, if there is one. */
  method UnlinkPrev<T>(node: HeapNode<T>) returns (prev: HeapNode?<T>)
    requires node.next == null  // the source's own debug assertions
    requires node.prev != null ==> node.prev != node && node.prev.next == node
    modifies node`prev, (if node.prev == null then {} else {node.prev})`next
    ensures prev == old(node.prev) && node.prev == null
    ensures prev != null ==> prev.next == null
  {
    prev := node.prev;
    node.prev := null;
    if prev != null {
      prev.next := null;
    }
  }

  /** Takes the parent of an orphan away and unlinks it from the orphan before it, if there is one. */
  method Release<T>(node: HeapNode<T>, ghost nodes: set<HeapNode<T>>, ghost missing: HeapNode<T>)
    returns (prev: HeapNode?<T>)
    requires Forest(nodes, missing)
    requires node in nodes && node.parent == missing && node.next == null
    requires node.prev != null ==> node.prev in nodes && node.prev.parent == missing
    requires node.prev != null ==> node.prev != node && node.prev.next == node
    modifies node`parent, node`prev, nodes`next
    ensures Forest(nodes, missing)
    ensures prev == old(node.prev) && node.parent == null && node.prev == null
    ensures prev != null ==> prev.next == null
    ensures forall n {:trigger n.next} | n in nodes && n != prev :: n.next == old(n.next)
  {
    var nodeParent := node.parent;
    node.parent := null;
    assert nodeParent == missing;  // the source's own debug assertion
    prev := UnlinkPrev(node);
    assert forall n {:trigger n.next} | n in nodes && n != prev :: n.next == old(n.next);
    assert forall n {:trigger n.prev} | n in nodes && n != node :: n.prev == old(n.prev);
    assert forall n {:trigger n.parent} | n in nodes && n != node :: n.parent == old(n.parent);
  }

  /** Makes the last pending child a tree of its own; the list that is left ends in the node before it. */
  method TakeLast<T>(node: HeapNode<T>, ghost m: Merge<T>, ghost k: nat, ghost roots: set<HeapNode<T>>)
    returns (prev: HeapNode?<T>)
    requires Merging(m, k, roots)
    requires 0 < k && node == m.siblings.children[k - 1]
    modifies m.Batch()`parent, m.nodes`prev, m.nodes`next
    ensures Merging(m, k - 1, roots + {node})
    ensures node !in roots
    ensures prev == At(m.siblings.children, k - 2)
  {
    hide Forest;
    prev := Release(node, m.nodes, m.siblings.parent);
  }

  /** Melds two of the trees that a merge is working on. */
  method MeldRoots<T>(left: HeapNode<T>, right: HeapNode<T>,
      ghost m: Merge<T>, ghost k: nat, ghost roots: set<HeapNode<T>>)
    returns (root: HeapNode<T>)
    requires Merging(m, k, roots)
    requires left in roots && right in roots && left != right
    modifies m.Batch()`parent, m.Batch()`firstChild, m.Batch()`position, m.Batch()`rank, m.Batch()`next, m.nodes`prev
    ensures root in {left, right}
    ensures Merging(m, k, roots - {left, right} + {root})
  {
    hide Siblings<T>.Indexed;
    root := Meld(left, right, m.nodes, m.siblings.parent, m.bound);
    assert forall n {:trigger n.next} | n in m.nodes && n != left && n != right :: n.next == old(n.next);
    assert forall n {:trigger n.parent} | n in m.nodes && n != left && n != right :: n.parent == old(n.parent);
    assert forall n {:trigger n.position} | n in m.nodes && n != left && n != right :: n.position == old(n.position);
  }

  /** Melds two trees, of which the left one may be absent. */
  method MaybeMeld<T>(left: HeapNode?<T>, right: HeapNode<T>,
      ghost m: Merge<T>, ghost k: nat, ghost roots: set<HeapNode<T>>)
    returns (root: HeapNode<T>)
    requires Merging(m, k, roots)
    requires right in roots && left != right && (left != null ==> left in roots)
    modifies m.Batch()`parent, m.Batch()`firstChild, m.Batch()`position, m.Batch()`rank, m.Batch()`next, m.nodes`prev
    ensures root == left || root == right
    ensures Merging(m, k, roots - {left, right} + {root})
  {
    if left != null {
      root := MeldRoots(left, right, m, k, roots);
    } else {
      assert roots - {left, right} + {right} == roots;
      return right;
    }
  }

  ghost function Trees<T>(root: HeapNode?<T>): set<HeapNode<T>> {
    if root == null then {} else {root}
  }

  /** The second half of a round: two neighbours become one tree, which is then joined with what is there already. */
  method MeldPair<T>(current: HeapNode?<T>, prev: HeapNode<T>, node: HeapNode<T>, ghost m: Merge<T>, ghost k: nat)
    returns (merged: HeapNode<T>)
    requires current != prev && current != node && prev != node
    requires Merging(m, k, Trees(current) + {node} + {prev})
    modifies m.Batch()`parent, m.Batch()`firstChild, m.Batch()`position, m.Batch()`rank, m.Batch()`next, m.nodes`prev
    ensures Merging(m, k, {merged})
  {
    ghost var roots := Trees(current);
    var pair := MeldRoots(prev, node, m, k, roots + {node} + {prev});
    assert roots + {node} + {prev} - {prev, node} + {pair} == roots + {pair};
    merged := MaybeMeld(current, pair, m, k, roots + {pair});
    assert roots + {pair} - {current, pair} + {merged} == {merged};
  }

  /** Merges the children of a cut-out parent into one tree, taking them two at a time from the right. */
  method MergeChildren<T>(firstChild: HeapNode<T>, ghost m: Merge<T>)
    returns (root: HeapNode<T>)
    requires Merging(m, |m.siblings.children|, {})
    requires m.siblings.children != [] && m.siblings.children[0] == firstChild
    modifies m.Batch()`parent, m.Batch()`firstChild, m.Batch()`position, m.Batch()`rank, m.Batch()`next
    modifies m.nodes`next, m.nodes`prev
    ensures Merging(m, 0, {root})
  {
    hide Merging;
    var commonParent := firstChild.parent;
    var node := LastChild(firstChild, m);
    assert commonParent == m.siblings.parent;  // the source's own debug assertion
    ghost var k := |m.siblings.children|;
    var current: HeapNode?<T> := null;
    while true
      invariant 0 < k <= |m.siblings.children| && node == m.siblings.children[k - 1]
      invariant Merging(m, k, Trees(current))
      decreases k
    {
      var prev := TakeLast(node, m, k, Trees(current));
      k := k - 1;
      if prev == null {
        // Odd case.
        root := MaybeMeld(current, node, m, k, Trees(current) + {node});
        assert Trees(current) + {node} - {current, node} + {root} == {root};
        return;
      }
      var prevPrev := TakeLast(prev, m, k, Trees(current) + {node});
      k := k - 1;
      current := MeldPair(current, prev, node, m, k);
      if prevPrev == null {
        // Even case.
        return current;
      }
      node := prevPrev;
    }
  }

  /** Makes the neighbours of `node` in the child list of `parent` point past it. */
  method Bypass<T>(node: HeapNode<T>, parent: HeapNode<T>, ghost nodes: set<HeapNode<T>>)
    requires parent in nodes
    requires node.prev != null ==> node.prev in nodes
    requires node.next != null ==> node.next in nodes
    modifies nodes`prev, nodes`next, nodes`firstChild
    ensures old(node.prev) != null ==> old(node.prev).next == old(node.next)
    ensures old(node.prev) == null ==> parent.firstChild == old(node.next)
    ensures old(node.next) != null ==> old(node.next).prev == old(node.prev)
    ensures forall n {:trigger n.next} | n in nodes && n != old(node.prev) :: n.next == old(n.next)
    ensures forall n {:trigger n.prev} | n in nodes && n != old(node.next) :: n.prev == old(n.prev)
    ensures forall n {:trigger n.firstChild} | n in nodes && (old(node.prev) != null || n != parent) ::
      n.firstChild == old(n.firstChild)
  {
    var prev, next := node.prev, node.next;
    if prev != null {
      prev.next := next;
    } else {
      parent.firstChild := next;
    }
    if next != null {
      next.prev := prev;
    }
  }

  /** Cuts `node` out of its parent's child list; its own children become its orphans. */
  method Detach<T>(node: HeapNode<T>, ghost nodes: set<HeapNode<T>>) returns (parent: HeapNode?<T>)
    requires Forest(nodes, null) && node in nodes
    modifies node`parent, nodes`prev, nodes`next, nodes`firstChild
    ensures Forest(nodes - {node}, node)
    ensures parent == old(node.parent)
    ensures node.parent == null && node.prev == null && node.next == null && node.firstChild == old(node.firstChild)
    ensures forall n {:trigger n.parent} | n in nodes && n != node :: n.parent == old(n.parent)
    ensures forall n {:trigger n.prev} | n in nodes && n.parent == node :: n.prev == old(n.prev)
    ensures forall n {:trigger n.next} | n in nodes && n.parent == node :: n.next == old(n.next)
  {
    parent := node.parent;
    if parent != null {
      Bypass(node, parent, nodes);
      node.next := null;
      node.prev := null;
    } else {
      assert node.next == null;  // the source's own debug assertions
      assert node.prev == null;
    }
    node.parent := null;
    assert forall n {:trigger n.parent} | n in nodes && n != node :: n.parent == old(n.parent);
  }

  /** Nodes further along than `position`, a measure for walking to the right. */
  ghost function Beyond<T>(nodes: set<HeapNode<T>>, position: int): set<HeapNode<T>>
    reads nodes
  {
    set n | n in nodes && n.position > position
  }

  ghost function Before<T>(nodes: set<HeapNode<T>>, position: int): set<HeapNode<T>>
    reads nodes
  {
    set n | n in nodes && n.position < position
  }

  lemma BeforeShrinks<T>(nodes: set<HeapNode<T>>, position: int, n: HeapNode<T>)
    requires n in nodes && n.position < position
    ensures Before(nodes, n.position) < Before(nodes, position)
  {
    assert n in Before(nodes, position);
  }

  lemma BeyondShrinks<T>(nodes: set<HeapNode<T>>, position: int, n: HeapNode<T>)
    requires n in nodes && n.position > position
    ensures Beyond(nodes, n.position) < Beyond(nodes, position)
  {
    assert n in Beyond(nodes, position);
  }

  /** Walking from the first child along `next` collects every child exactly once. */
  lemma ChildrenInOrder<T>(parent: HeapNode<T>, nodes: set<HeapNode<T>>) returns (s: Siblings<T>)
    requires Forest(nodes, null) && parent in nodes
    ensures s.parent == parent && Linked(nodes, s, |s.children|)
    ensures At(s.children, 0) == parent.firstChild
  {
    hide Forest, Walked, Linked;
    if parent.firstChild == null {
      s := Siblings(parent, [], map[]);
    } else {
      var first := parent.firstChild;
      s := Siblings(parent, [first], map[first := 0]);
      WalkStarts(nodes, parent, first);
      while Last(s.children).next != null
        invariant s.children != [] && s.parent == parent && s.children[0] == first
        invariant Walked(nodes, s)
        decreases Beyond(nodes, Last(s.children).position)
      {
        var next := WalkOn(nodes, s);
        BeyondShrinks(nodes, Last(s.children).position, next);
        s := Append(s, next);
      }
    }
    WalkEnds(nodes, s);
  }

  lemma WalkStarts<T>(nodes: set<HeapNode<T>>, parent: HeapNode<T>, first: HeapNode<T>)
    requires Forest(nodes, null) && parent in nodes && parent.firstChild == first
    ensures Walked(nodes, Siblings(parent, [first], map[first := 0]))
  {
  }

  /** A walk that has come to the end of the list has met every child. */
  lemma WalkEnds<T>(nodes: set<HeapNode<T>>, s: Siblings<T>)
    requires Forest(nodes, null) && s.parent in nodes
    requires s.children != [] ==> Walked(nodes, s)
    requires s.children != [] ==> s.children[0] == s.parent.firstChild && Last(s.children).next == null
    requires s.children == [] ==> s.parent.firstChild == null && s.index == map[]
    ensures Linked(nodes, s, |s.children|)
  {
    hide Forest;
    forall n | n in nodes && n.parent == s.parent
      ensures n in s.index
    {
      ChildIsListed(n, nodes, s);
    }
    assert s.children == [] ==> forall n {:trigger n.parent} | n in nodes :: n.parent != s.parent;
  }

  ghost predicate PrevLinked<T>(s: Siblings<T>)
    requires s.Indexed()
    reads s.index.Keys
  {
    forall n {:trigger n.prev} | n in s.index :: n.prev == At(s.children, s.index[n] - 1)
  }

  ghost predicate NextLinked<T>(s: Siblings<T>)
    requires s.Indexed()
    reads s.index.Keys
  {
    forall n {:trigger n.next} | n in s.index && s.index[n] + 1 < |s.children| :: n.next == s.children[s.index[n] + 1]
  }

  /** A walk along `next` that started at the first child of `s.parent`. */
  ghost predicate Walked<T>(nodes: set<HeapNode<T>>, s: Siblings<T>)
    reads nodes
  {
    && s.index.Keys <= nodes
    && s.Indexed()
    && PrevLinked(s)
    && NextLinked(s)
    && (forall n {:trigger n.position} | n in s.index :: n.position <= Last(s.children).position)
    && (forall n {:trigger n.parent} | n in s.index :: n.parent == s.parent)
  }

  function Append<T>(s: Siblings<T>, n: HeapNode<T>): Siblings<T> {
    Siblings(s.parent, s.children + [n], s.index[n := |s.children|])
  }

  lemma AppendIndexed<T>(s: Siblings<T>, n: HeapNode<T>)
    requires s.Indexed() && n !in s.index
    ensures Append(s, n).Indexed()
  {
  }

  lemma AppendPrevLinked<T>(s: Siblings<T>, n: HeapNode<T>)
    requires s.Indexed() && Append(s, n).Indexed() && n !in s.index
    requires PrevLinked(s) && s.children != [] && n.prev == Last(s.children)
    ensures PrevLinked(Append(s, n))
  {
    var r := Append(s, n);
    forall m | m in r.index
      ensures m.prev == At(r.children, r.index[m] - 1)
    {
      assert m in s.index ==> m.prev == At(s.children, s.index[m] - 1);
    }
  }

  lemma AppendNextLinked<T>(s: Siblings<T>, n: HeapNode<T>)
    requires s.Indexed() && Append(s, n).Indexed() && n !in s.index
    requires NextLinked(s) && s.children != [] && Last(s.children).next == n
    ensures NextLinked(Append(s, n))
  {
    var r := Append(s, n);
    forall m | m in r.index && r.index[m] + 1 < |r.children|
      ensures m.next == r.children[r.index[m] + 1]
    {
      assert s.children[s.index[m]] == m;
    }
  }

  /** The walk may take one more step, to a node that the list has not met before. */
  lemma WalkOn<T>(nodes: set<HeapNode<T>>, s: Siblings<T>) returns (next: HeapNode<T>)
    requires Forest(nodes, null)
    requires s.children != [] && Walked(nodes, s) && Last(s.children).next != null
    ensures next == Last(s.children).next && next in nodes && Last(s.children).position < next.position
    ensures Walked(nodes, Append(s, next))
  {
    var last := Last(s.children);
    assert last in s.index && last.parent == s.parent;
    next := last.next;
    assert next !in s.index;
    AppendIndexed(s, next);
    AppendPrevLinked(s, next);
    AppendNextLinked(s, next);
    hide Siblings<T>.Indexed, PrevLinked, NextLinked;
  }

  lemma {:induction false} ChildIsListed<T>(n: HeapNode<T>, nodes: set<HeapNode<T>>, s: Siblings<T>)
    requires Forest(nodes, null)
    requires s.children != [] ==> Walked(nodes, s)
    requires s.children != [] ==> s.children[0] == s.parent.firstChild && Last(s.children).next == null
    requires s.children == [] ==> s.parent.firstChild == null && s.index == map[]
    requires n in nodes && n.parent == s.parent
    ensures n in s.index
    decreases Before(nodes, n.position)
  {
    if n.prev != null {
      BeforeShrinks(nodes, n.position, n.prev);
      ChildIsListed(n.prev, nodes, s);
      assert s.children[s.index[n.prev]].next == n;
    }
  }

  class PairingHeap<T> {
    var root: HeapNode?<T>
    /** The nodes that are in the heap. */
    ghost var Repr: set<HeapNode<T>>

    ghost predicate Valid()
      reads this, Repr`parent, Repr`prev, Repr`next, Repr`firstChild, Repr`rank, Repr`position
    {
      && Forest(Repr, null)
      && (root == null <==> Repr == {})
      && (root != null ==> root in Repr && root.parent == null)
      && (forall n {:trigger n.parent} | n in Repr && n.parent == null :: n == root)
    }

    constructor ()
      ensures Valid() && Repr == {}
    {
      root, Repr := null, {};
    }

    /** Adds a node that is in no heap. */
    method Insert(node: HeapNode<T>)
      requires Valid()
      requires node.IsClean() && node !in Repr  // the source's own debug assertions
      modifies this
      modifies node`parent, node`prev, node`next, node`firstChild, node`rank, node`position
      modifies Repr`parent, Repr`prev, Repr`next, Repr`firstChild, Repr`rank, Repr`position
      ensures Valid()
      ensures Repr == old(Repr) + {node}
    {
      ghost var nodes := Repr + {node};
      assert Forest(nodes, null);
      if root != null {
        ghost var bound := if root.rank > node.rank then root.rank + 1.0 else node.rank + 1.0;
        root := Meld(root, node, nodes, null, bound);
      } else {
        root := node;
      }
      Repr := nodes;
    }

    /** The root, which is a least node. */
    method PeekMin() returns (least: HeapNode?<T>)
      requires Valid()
      ensures least == null <==> Repr == {}
      ensures least != null ==> least in Repr && forall n | n in Repr :: least.key <= n.key
    {
      least := root;
      forall n | n in Repr
        ensures root.key <= n.key
      {
        RootIsLeast(n, root, Repr);
      }
    }

    /** Removes a node of this heap, wherever it is. */
    method Remove(node: HeapNode<T>)
      requires Valid() && node in Repr
      modifies this
      modifies Repr`parent, Repr`prev, Repr`next, Repr`firstChild, Repr`rank, Repr`position
      ensures Valid()
      ensures Repr == old(Repr) - {node}
      ensures node.IsClean()
    {
      hide Merging, Forest;
      LoneRoot(node, Repr);
      ghost var m;
      var parent;
      parent, m := CutOut(node, Repr);
      if parent == null {
        assert root == node;  // the source's own debug assertion
        root := null;
      }
      Repr := Repr - {node};
      assert forall n {:trigger n.parent} | n in Repr && n.parent == null :: n == root && parent != null;
      assert parent != null ==> root != null && root in Repr && root.parent == null && root !in m.Batch();
      var firstChild := node.firstChild;
      node.firstChild := null;
      if firstChild != null {
        // Merge together the children, and add them back into the parent.
        var children := MergeChildren(firstChild, m);
        Merged(m, children);
        assert forall n {:trigger n.parent} | n in Repr && n.parent == null ::
          n == children || (n == root && parent != null);
        if parent != null {
          // The removed node had a key between those of its parent and its children.
          AddChild(parent, children, Repr, null);
          assert root != children && root.parent == null;
          assert forall n {:trigger n.parent} | n in Repr && n.parent == null :: n == root;
        } else {
          root := children;
        }
      } else {
        Unmerged(m);
      }
    }
  }

  /** Cuts `node` out and records what a merge of its children will rely on. */
  method CutOut<T>(node: HeapNode<T>, ghost nodes: set<HeapNode<T>>) returns (parent: HeapNode?<T>, ghost m: Merge<T>)
    requires Forest(nodes, null) && node in nodes
    modifies node`parent, nodes`prev, nodes`next, nodes`firstChild
    ensures Merging(m, |m.siblings.children|, {})
    ensures m.nodes == nodes - {node} && m.siblings.parent == node && m.Batch() <= m.nodes
    ensures At(m.siblings.children, 0) == node.firstChild == old(node.firstChild)
    ensures node.parent == null && node.prev == null && node.next == null
    ensures parent == old(node.parent)
    ensures parent != null ==> parent in m.nodes && parent !in m.Batch() && m.bound < parent.rank
    ensures parent != null ==> forall n | n in m.Batch() :: parent.key <= n.key
    ensures forall n {:trigger n.parent} | n in m.nodes :: n.parent == old(n.parent)
    ensures forall n {:trigger n.parent} | n in m.Batch() :: n.parent == node
  {
    hide Forest, Siblings<T>.Indexed;
    ghost var siblings := ChildrenInOrder(node, nodes);
    m := Merge(nodes - {node}, siblings, node.rank);
    AroundNode(node, nodes, siblings);
    parent := Detach(node, nodes);
    assert forall n {:trigger n.parent} | n in m.nodes :: n.parent == old(n.parent);
    assert forall n {:trigger n.prev} | n in siblings.index :: n.parent == node && n.prev == old(n.prev);
    assert forall n {:trigger n.next} | n in siblings.index :: n.parent == node && n.next == old(n.next);
    assert Linked(m.nodes, siblings, |siblings.children|);
  }

  /** The ranks and keys of a node lie between those of its parent and those of its children. */
  lemma AroundNode<T>(node: HeapNode<T>, nodes: set<HeapNode<T>>, s: Siblings<T>)
    requires Forest(nodes, null) && node in nodes
    requires s.parent == node && Linked(nodes, s, |s.children|)
    ensures forall n {:trigger n.parent} | n in s.index :: n.parent == node && n != node
    ensures forall n {:trigger n.rank} | n in s.index :: n.rank < node.rank
    ensures forall n {:trigger n.key} | n in s.index :: node.key <= n.key
    ensures node.parent != null ==> node.parent in nodes && node.parent != node && node.parent !in s.index
    ensures node.parent != null ==> node.parent.key <= node.key && node.rank < node.parent.rank
  {
    assert node.parent != node;
    forall n | n in s.index
      ensures n.parent == node && n != node && n.rank < node.rank && node.key <= n.key
    {
      assert n.parent == node;
    }
  }

  /** A finished merge has left a forest in which nobody misses a parent. */
  lemma Merged<T>(m: Merge<T>, root: HeapNode<T>)
    requires Merging(m, 0, {root})
    ensures Forest(m.nodes, null)
    ensures root in m.nodes && root in m.Batch() && root.parent == null && root.rank < m.bound
    ensures forall n {:trigger n.parent} | n in m.Batch() && n.parent == null :: n == root
  {
  }

  lemma Unmerged<T>(m: Merge<T>)
    requires Merging(m, |m.siblings.children|, {}) && m.siblings.children == []
    ensures Forest(m.nodes, null)
  {
  }

  /** A root that has no children is the only node below itself. */
  lemma LoneRoot<T>(root: HeapNode<T>, nodes: set<HeapNode<T>>)
    requires Forest(nodes, null) && root in nodes
    ensures root.firstChild == null && (forall r {:trigger r.parent} | r in nodes && r.parent == null :: r == root) ==>
      nodes == {root}
  {
    if root.firstChild == null && (forall r {:trigger r.parent} | r in nodes && r.parent == null :: r == root) {
      var s := ChildrenInOrder(root, nodes);
      forall n | n in nodes
        ensures n == root
      {
        if n != root {
          var _ := AncestorBelowRoot(n, root, nodes);
        }
      }
    }
  }

  lemma {:induction false} AncestorBelowRoot<T>(n: HeapNode<T>, root: HeapNode<T>, nodes: set<HeapNode<T>>)
    returns (child: HeapNode<T>)
    requires Forest(nodes, null) && n in nodes && n != root
    requires forall r {:trigger r.parent} | r in nodes && r.parent == null :: r == root
    ensures child in nodes && child.parent == root
    decreases Above(nodes, n.rank)
  {
    if n.parent == root {
      child := n;
    } else {
      AboveShrinks(nodes, n.rank, n.parent);
      child := AncestorBelowRoot(n.parent, root, nodes);
    }
  }

  /** Nodes of higher rank, a measure for walking towards the root. */
  ghost function Above<T>(nodes: set<HeapNode<T>>, rank: real): set<HeapNode<T>>
    reads nodes
  {
    set n | n in nodes && n.rank > rank
  }

  lemma AboveShrinks<T>(nodes: set<HeapNode<T>>, rank: real, n: HeapNode<T>)
    requires n in nodes && n.rank > rank
    ensures Above(nodes, n.rank) < Above(nodes, rank)
  {
    assert n in Above(nodes, rank);
  }

  /** A walk along parents, from a node of the heap to one that it descends from. */
  ghost predicate PathUp<T>(path: seq<HeapNode<T>>, nodes: set<HeapNode<T>>)
    reads nodes`parent, path`parent
  {
    && path != []
    && (forall i | 0 <= i < |path| :: path[i] in nodes)
    && (forall i | 0 <= i < |path| - 1 :: path[i].parent == path[i + 1])
  }

  /** Every node descends from the root, and no walk towards it ever comes back to a node: the heap is one tree. */
  lemma {:induction false} PathToRoot<T>(n: HeapNode<T>, root: HeapNode?<T>, nodes: set<HeapNode<T>>)
    returns (path: seq<HeapNode<T>>)
    requires Forest(nodes, null) && n in nodes
    requires forall r {:trigger r.parent} | r in nodes && r.parent == null :: r == root
    ensures PathUp(path, nodes) && path[0] == n && Last(path) == root
    ensures NoDup(path) && forall i | 0 < i < |path| :: n.rank < path[i].rank && path[i].key <= n.key
    decreases Above(nodes, n.rank)
  {
    if n.parent == null {
      path := [n];
    } else {
      AboveShrinks(nodes, n.rank, n.parent);
      var above := PathToRoot(n.parent, root, nodes);
      path := [n] + above;
      assert forall i | 0 < i < |path| :: path[i] == above[i - 1];
    }
  }

  /** The heap order makes the only root a least node. */
  lemma {:induction false} RootIsLeast<T>(n: HeapNode<T>, root: HeapNode?<T>, nodes: set<HeapNode<T>>)
    requires Forest(nodes, null) && n in nodes
    requires forall r {:trigger r.parent} | r in nodes && r.parent == null :: r == root
    ensures root != null && root in nodes && root.key <= n.key
    decreases Above(nodes, n.rank)
  {
    if n.parent != null {
      AboveShrinks(nodes, n.rank, n.parent);
      RootIsLeast(n.parent, root, nodes);
    }
  }
}
