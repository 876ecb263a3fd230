/** Histories of arrivals, from which those who gave up are struck out. */
module Histories {
  import opened Collections

  /** The history with the requests that were given up while waiting struck out. */
  ghost function Live<N>(history: seq<N>, cancelled: set<N>): seq<N> {
    if history == [] then []
    else Live(DropLast(history), cancelled) + if Last(history) in cancelled then [] else [Last(history)]
  }

  lemma {:induction false} LiveAfterCancel<N>(history: seq<N>, cancelled: set<N>, n: N)
    ensures Live(history, cancelled + {n}) == Without(Live(history, cancelled), n)
  {
    if history != [] {
      var last := if Last(history) in cancelled then [] else [Last(history)];
      LiveAfterCancel(DropLast(history), cancelled, n);
      WithoutAppend(Live(DropLast(history), cancelled), last, n);
    }
  }

  lemma {:induction false} ReverseWithout<N>(s: seq<N>, n: N)
    ensures Reverse(Without(s, n)) == Without(Reverse(s), n)
  {
    if s != [] {
      ReverseWithout(s[1..], n);
      WithoutAppend(Reverse(s[1..]), [s[0]], n);
      ReverseAppend(if s[0] == n then [] else [s[0]], Without(s[1..], n));
      assert [s[0]][1..] == [];
    }
  }

  lemma ReverseEnds<N>(s: seq<N>, n: N)
    ensures Reverse([n] + s) == Reverse(s) + [n]
    ensures Reverse(s + [n]) == [n] + Reverse(s)
  {
    ReverseAppend(s, [n]);
    assert ([n] + s)[1..] == s;
  }

  lemma LiveAppend<N>(history: seq<N>, cancelled: set<N>, n: N)
    requires n !in cancelled
    ensures Live(history + [n], cancelled) == Live(history, cancelled) + [n]
  {
    assert DropLast(history + [n]) == history;
  }

  lemma {:induction false} LiveAfterCancelAll<N>(history: seq<N>, cancelled: set<N>, gone: set<N>)
    ensures Live(history, cancelled + gone) == Live(Live(history, cancelled), gone)
  {
    if history != [] {
      var last := if Last(history) in cancelled then [] else [Last(history)];
      LiveAfterCancelAll(DropLast(history), cancelled, gone);
      LiveConcat(Live(DropLast(history), cancelled), last, gone);
    }
  }

  lemma {:induction false} LiveConcat<N>(s: seq<N>, t: seq<N>, gone: set<N>)
    ensures Live(s + t, gone) == Live(s, gone) + Live(t, gone)
  {
    if t == [] {
      assert s + t == s;
    } else {
      var u, tail := DropLast(t), if Last(t) in gone then [] else [Last(t)];
      LiveConcat(s, u, gone);
      assert DropLast(s + t) == s + u && Last(s + t) == Last(t);
      assert (Live(s, gone) + Live(u, gone)) + tail == Live(s, gone) + (Live(u, gone) + tail);
    }
  }

  lemma {:induction false} LiveUntouched<N>(s: seq<N>, gone: set<N>)
    requires forall n | n in s :: n !in gone
    ensures Live(s, gone) == s
  {
    if s != [] {
      LiveUntouched(DropLast(s), gone);
      assert s == DropLast(s) + [Last(s)];
    }
  }

  lemma {:induction false} LiveAllGone<N>(s: seq<N>, gone: set<N>)
    requires forall n | n in s :: n in gone
    ensures Live(s, gone) == []
  {
    if s != [] {
      LiveAllGone(DropLast(s), gone);
    }
  }

  lemma {:induction false} ReverseMembers<N>(s: seq<N>)
    ensures forall n | n in Reverse(s) :: n in s
  {
    if s != [] {
      ReverseMembers(s[1..]);
    }
  }

  // ---- Waiting in line ----

  /**
   * A line at which something is handed out: the requests made so far (`used`), those that have not turned up yet
   * (`newcomers`), the order in which the others arrived and were served, those that gave up, and those that wait, the
   * newest first.
   */
  datatype Line<N> = Line(
    used: set<N>,
    newcomers: set<N>,
    arrivals: seq<N>,
    grants: seq<N>,
    cancelled: set<N>,
    queue: seq<N>)
  {
    /** First come, first served: those not given up are the ones served so far, then the waiting ones, oldest first. */
    ghost predicate InOrder() {
      Live(arrivals, cancelled) == grants + Reverse(queue)
    }

    /** Everybody in the books is known, and nobody who waits or has yet to come is done already. */
    ghost predicate Consistent() {
      && (forall n | n in arrivals :: n in used) && (forall n | n in grants :: n in used)
      && cancelled <= used && newcomers <= used
      && (forall n | n in newcomers :: n !in grants && n !in cancelled)
      && (forall n | n in queue :: n in used && n !in newcomers && n !in grants && n !in cancelled)
    }

    ghost predicate Fair() {
      InOrder() && Consistent()
    }

    ghost function Create(n: N): Line<N> {
      this.(used := used + {n}, newcomers := newcomers + {n})
    }

    /** A newcomer that goes away, or needs nothing. */
    ghost function Leave(n: N): Line<N> {
      this.(newcomers := newcomers - {n})
    }

    ghost function Arrive(n: N): Line<N> {
      this.(newcomers := newcomers - {n}, arrivals := arrivals + [n], queue := [n] + queue)
    }

    /** A newcomer that is served at once. */
    ghost function Pass(n: N): Line<N> {
      this.(newcomers := newcomers - {n}, arrivals := arrivals + [n], grants := grants + [n])
    }

    ghost function ServeOldest(): Line<N>
      requires queue != []
    {
      this.(grants := grants + [Last(queue)], queue := DropLast(queue))
    }

    ghost function GiveUp(n: N): Line<N> {
      this.(cancelled := cancelled + {n}, queue := Without(queue, n))
    }

    lemma CreateKeepsFair(n: N)
      requires Fair() && n !in used
      ensures Create(n).Fair()
    {
    }

    lemma ArriveKeepsFair(n: N)
      requires Fair() && n in newcomers
      ensures Arrive(n).Fair()
    {
      LiveAppend(arrivals, cancelled, n);
      ReverseEnds(queue, n);
    }

    /** Serving at once is fair only while nobody waits. */
    lemma PassKeepsFair(n: N)
      requires Fair() && n in newcomers && queue == []
      ensures Pass(n).Fair()
    {
      LiveAppend(arrivals, cancelled, n);
    }

    lemma ServeOldestKeepsFair()
      requires Fair() && queue != [] && NoDup(queue)
      ensures ServeOldest().Fair()
    {
      InDropLast(queue);
      ReverseEnds(DropLast(queue), Last(queue));
      assert queue == DropLast(queue) + [Last(queue)];
    }

    lemma GiveUpKeepsFair(n: N)
      requires Fair() && n in queue
      ensures GiveUp(n).Fair()
    {
      LiveAfterCancel(arrivals, cancelled, n);
      WithoutAppend(grants, Reverse(queue), n);
      ReverseWithout(queue, n);
      WithoutMembers(queue, n);
    }
  }
}
