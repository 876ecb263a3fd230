/** Vocabulary shared by every module: optional values, results, wakers, poll results and sequence facts. */
module Collections {

  datatype Option<+T> = None | Some(value: T)

  datatype Result<+T, +E> = Ok(value: T) | Err(error: E)

  /** The result of polling a future, where the source may also panic. */
  datatype Poll<+T> = Pending | Ready(value: T) | Panicked

  /** A task handle; two wakers with the same id wake the same task. */
  datatype Waker = Waker(id: nat)

  /** Refreshes a stored waker: it is kept when it already wakes the task, and replaced otherwise. */
  function UpdateWakerRef(stored: Option<Waker>, current: Waker): (r: Option<Waker>)
    ensures r == Some(current)
  {
    if stored.None? || stored.value != current then Some(current) else stored
  }

  /** What waking an optional waker adds to the log of wake-ups. */
  function Woken(task: Option<Waker>): seq<Waker> {
    match task
    case Some(w) => [w]
    case None => []
  }

  function Last<T>(s: seq<T>): T
    requires s != []
  {
    s[|s| - 1]
  }

  function DropLast<T>(s: seq<T>): seq<T>
    requires s != []
  {
    s[..|s| - 1]
  }

  ghost function IndexOf<T>(s: seq<T>, x: T): (k: nat)
    requires x in s
    ensures k < |s| && s[k] == x
  {
    var k :| 0 <= k < |s| && s[k] == x; k
  }

  ghost predicate NoDup<T>(s: seq<T>) {
    forall i, j :: 0 <= i < j < |s| ==> s[i] != s[j]
  }

  /** The elements of `s` other than `x`, in order. */
  ghost function Without<T>(s: seq<T>, x: T): (r: seq<T>)
    ensures x !in s ==> r == s
  {
    if s == [] then [] else (if s[0] == x then [] else [s[0]]) + Without(s[1..], x)
  }

  lemma {:induction false} InWithout<T>(s: seq<T>, x: T, y: T)
    ensures y in Without(s, x) <==> y in s && y != x
  {
    if s != [] {
      InWithout(s[1..], x, y);
      assert y in s <==> y == s[0] || y in s[1..];
    }
  }

  lemma {:induction false} WithoutAppend<T>(s: seq<T>, t: seq<T>, x: T)
    ensures Without(s + t, x) == Without(s, x) + Without(t, x)
  {
    if s == [] {
      assert s + t == t;
    } else {
      assert (s + t)[1..] == s[1..] + t;
      WithoutAppend(s[1..], t, x);
    }
  }

  lemma WithoutMembers<T>(s: seq<T>, x: T)
    ensures forall y | y in s :: y in Without(s, x) <==> y != x
    ensures forall y | y in Without(s, x) :: y in s && y != x
  {
    forall y | y in s
      ensures y in Without(s, x) <==> y != x
    {
      InWithout(s, x, y);
    }
    forall y | y in Without(s, x)
      ensures y in s && y != x
    {
      InWithout(s, x, y);
    }
  }

  lemma WithoutKeepsLast<T>(s: seq<T>, x: T)
    ensures s != [] && x != Last(s) ==> Without(s, x) != [] && Last(Without(s, x)) == Last(s)
  {
    if s != [] {
      assert s == DropLast(s) + [Last(s)];
      WithoutAppend(DropLast(s), [Last(s)], x);
    }
  }

  /** In a duplicate-free sequence, `Without` cuts out exactly one position. */
  lemma {:induction false} WithoutAt<T>(s: seq<T>, k: nat)
    requires NoDup(s) && k < |s|
    ensures Without(s, s[k]) == s[..k] + s[k + 1..]
  {
    if k == 0 {
      assert s[k] !in s[1..];
      assert s[..k] + s[k + 1..] == s[1..];
    } else {
      WithoutAt(s[1..], k - 1);
      assert s[..k] + s[k + 1..] == [s[0]] + (s[1..][..k - 1] + s[1..][k..]);
    }
  }

  lemma {:induction false} WithoutNoDup<T>(s: seq<T>, x: T)
    requires NoDup(s)
    ensures NoDup(Without(s, x))
    ensures |Without(s, x)| == if x in s then |s| - 1 else |s|
  {
    if x in s {
      var k :| 0 <= k < |s| && s[k] == x;
      WithoutAt(s, k);
    }
  }

  /** Removing the last element of a duplicate-free sequence is dropping it. */
  lemma WithoutLast<T>(s: seq<T>)
    requires NoDup(s) && s != []
    ensures Without(s, Last(s)) == DropLast(s)
  {
    WithoutAt(s, |s| - 1);
  }

  /** What is left of a queue when one member is taken out of it. */
  lemma TakenOut<T>(s: seq<T>, x: T)
    requires NoDup(s)
    ensures forall y | y in s :: y in Without(s, x) <==> y != x
    ensures forall y | y in Without(s, x) :: y in s && y != x
    ensures NoDup(Without(s, x))
    ensures s != [] && x != Last(s) ==> Without(s, x) != [] && Last(Without(s, x)) == Last(s)
  {
    WithoutMembers(s, x);
    WithoutNoDup(s, x);
    WithoutKeepsLast(s, x);
  }

  function Reverse<T>(s: seq<T>): (r: seq<T>)
    ensures |r| == |s|
  {
    if s == [] then [] else Reverse(s[1..]) + [s[0]]
  }

  lemma {:induction false} ReverseAt<T>(s: seq<T>, i: nat)
    requires i < |s|
    ensures Reverse(s)[i] == s[|s| - 1 - i]
  {
    if i < |s| - 1 {
      ReverseAt(s[1..], i);
    }
  }

  lemma {:induction false} ReverseAppend<T>(s: seq<T>, t: seq<T>)
    ensures Reverse(s + t) == Reverse(t) + Reverse(s)
  {
    if s == [] {
      assert s + t == t;
    } else {
      assert (s + t)[1..] == s[1..] + t;
      ReverseAppend(s[1..], t);
    }
  }

  lemma InDropLast<T>(s: seq<T>)
    requires NoDup(s) && s != []
    ensures forall m | m in s :: m in DropLast(s) <==> m != Last(s)
    ensures forall m | m in DropLast(s) :: m in s
    ensures NoDup(DropLast(s))
  {
    forall m | m in s && m != Last(s)
      ensures m in DropLast(s)
    {
      var i := IndexOf(s, m);
      assert DropLast(s)[i] == m;
    }
  }
}
