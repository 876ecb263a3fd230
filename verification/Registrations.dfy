/** The order in which waiters have queued up, read off the history of a queue that grows at the front. */
module Registrations {
  import opened Collections

  /** The moment at which `n` last joined the queue, as a position in the history of the queue. */
  ghost function Since<N>(queues: seq<seq<N>>, n: N): (k: nat)
    ensures k <= |queues|
  {
    if queues == [] then 0
    else if n in Last(queues) && (|queues| == 1 || n !in queues[|queues| - 2]) then |queues|
    else Since(DropLast(queues), n)
  }

  /** Whoever stands closer to the front has joined later. */
  ghost predicate NewestFirst<N>(queues: seq<seq<N>>)
    requires queues != []
  {
    var q := Last(queues);
    forall i, j | 0 <= i < j < |q| :: Since(queues, q[j]) < Since(queues, q[i])
  }

  /** From `q` to `r` at most one joins, at the front, and nobody overtakes anybody. */
  ghost predicate Follows<N>(q: seq<N>, r: seq<N>) {
    forall i, j | 0 <= i < j < |r| :: r[j] in q && (r[i] in q ==> Before(q, r[i], r[j]))
  }

  ghost predicate Before<N>(q: seq<N>, m: N, n: N) {
    exists i, j :: 0 <= i < j < |q| && q[i] == m && q[j] == n
  }

  /** What does not overtake keeps the order. */
  lemma NewestStaysFirst<N>(queues: seq<seq<N>>, r: seq<N>)
    requires queues != [] && NewestFirst(queues) && Follows(Last(queues), r)
    ensures NewestFirst(queues + [r])
  {
    var q, all := Last(queues), queues + [r];
    assert DropLast(all) == queues;
    forall i, j | 0 <= i < j < |r|
      ensures Since(all, r[j]) < Since(all, r[i])
    {
      assert r[j] in q && Since(all, r[j]) == Since(queues, r[j]);
      if r[i] in q {
        assert Before(q, r[i], r[j]);
        assert Since(all, r[i]) == Since(queues, r[i]);
      } else {
        assert Since(all, r[i]) == |all|;
      }
    }
  }

  lemma PositionTells<N>(queues: seq<seq<N>>, m: N, n: N)
    requires queues != [] && NewestFirst(queues) && m in Last(queues) && n in Last(queues) && m != n
    ensures Before(Last(queues), m, n) <==> Since(queues, n) < Since(queues, m)
  {
    var q := Last(queues);
    var i, j := IndexOf(q, m), IndexOf(q, n);
    if i < j {
      assert Since(queues, q[j]) < Since(queues, q[i]);
    } else {
      assert Since(queues, q[i]) < Since(queues, q[j]);
    }
  }

  // ---- The changes to a queue ----

  lemma StayingFollows<N>(q: seq<N>)
    ensures Follows(q, q)
  {
  }

  lemma JoiningFollows<N>(q: seq<N>, n: N)
    requires n !in q
    ensures Follows(q, [n] + q)
  {
    forall i, j | 0 <= i < j < |[n] + q|
      ensures ([n] + q)[j] in q && (([n] + q)[i] in q ==> Before(q, ([n] + q)[i], ([n] + q)[j]))
    {
      if i > 0 {
        assert q[i - 1] == ([n] + q)[i] && q[j - 1] == ([n] + q)[j];
      }
    }
  }

  lemma OldestLeavingFollows<N>(q: seq<N>, k: nat)
    requires k <= |q|
    ensures Follows(q, q[..k])
  {
    forall i, j | 0 <= i < j < |q[..k]|
      ensures q[..k][j] in q && Before(q, q[..k][i], q[..k][j])
    {
      assert q[i] == q[..k][i] && q[j] == q[..k][j];
    }
  }

  lemma LeavingFollows<N>(q: seq<N>, n: N)
    requires NoDup(q)
    ensures Follows(q, Without(q, n))
  {
    if n in q {
      var k, r := IndexOf(q, n), Without(q, n);
      WithoutAt(q, k);
      forall i, j | 0 <= i < j < |r|
        ensures r[j] in q && Before(q, r[i], r[j])
      {
        assert r[i] == q[if i < k then i else i + 1] && r[j] == q[if j < k then j else j + 1];
      }
    }
  }

  lemma FollowsOn<N>(q: seq<N>, r: seq<N>, t: seq<N>)
    requires Follows(q, r) && Follows(r, t) && (forall n | n in r :: n in q) && (forall n | n in t :: n in r)
    ensures Follows(q, t)
  {
    forall i, j | 0 <= i < j < |t|
      ensures t[j] in q && (t[i] in q ==> Before(q, t[i], t[j]))
    {
      assert Before(r, t[i], t[j]);
      var a, b :| 0 <= a < b < |r| && r[a] == t[i] && r[b] == t[j];
      assert Before(q, r[a], r[b]);
    }
  }

  /** Those who stay keep their places relative to each other. */
  lemma BeforeWithout<N>(q: seq<N>, n: N, x: N, y: N)
    requires NoDup(q) && Before(Without(q, n), x, y)
    ensures Before(q, x, y)
  {
    LeavingFollows(q, n);
    var r := Without(q, n);
    var i, j :| 0 <= i < j < |r| && r[i] == x && r[j] == y;
    assert r[i] in q by {
      WithoutMembers(q, n);
    }
  }

  /** Whoever stays is newer than whoever is taken off the old end. */
  lemma BeforeOldEnd<N>(q: seq<N>, r: seq<N>, m: N, n: N)
    requires r <= q && m in r && n in q && n !in r
    ensures Before(q, m, n)
  {
    var i, j := IndexOf(r, m), IndexOf(q, n);
    assert q[i] == m;
    assert forall k | 0 <= k < |r| :: r[k] == q[k] && r[k] != n;
  }

  lemma AllBeforeLast<N>(q: seq<N>, m: N)
    requires m in q && m != Last(q)
    ensures Before(q, m, Last(q))
  {
    var i := IndexOf(q, m);
    assert q[|q| - 1] == Last(q);
  }
}
