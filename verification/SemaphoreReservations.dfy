/** How an unfair semaphore serves requests of different sizes, and which of its steps can leave a waiter asleep. */
module SemaphoreReservations {
  import opened Collections
  import opened SemaphoreModel
  import opened SemaphoreInvariants
  import opened SemaphoreRuns
  import opened SemaphoreWakeups

  /** What the futures in `group` ask for together. */
  ghost function Requested<N>(group: set<N>, entries: map<N, WaitQueueEntry>): nat
    requires group <= entries.Keys
  {
    if group == {} then 0
    else
      var n :| n in group;
      entries[n].requiredPermits + Requested(group - {n}, entries)
  }

  /** It does not matter in which order the requests are added up. */
  lemma {:induction false} RequestedWithout<N>(group: set<N>, entries: map<N, WaitQueueEntry>, n: N)
    requires group <= entries.Keys && n in group
    ensures Requested(group, entries) == entries[n].requiredPermits + Requested(group - {n}, entries)
  {
    var m :| m in group && Requested(group, entries) == entries[m].requiredPermits + Requested(group - {m}, entries);
    if m != n {
      RequestedWithout(group - {m}, entries, n);
      RequestedWithout(group - {n}, entries, m);
      assert group - {m} - {n} == group - {n} - {m};
    }
  }

  lemma {:induction false} RequestedSame<N>(
      group: set<N>, entries: map<N, WaitQueueEntry>, entries': map<N, WaitQueueEntry>)
    requires group <= entries.Keys && group <= entries'.Keys
    requires forall n | n in group :: entries[n].requiredPermits == entries'[n].requiredPermits
    ensures Requested(group, entries) == Requested(group, entries')
  {
    if group != {} {
      var n :| n in group && Requested(group, entries) == entries[n].requiredPermits + Requested(group - {n}, entries);
      RequestedWithout(group, entries', n);
      RequestedSame(group - {n}, entries, entries');
    }
  }

  /** The permits that notified futures are about to take. */
  ghost function Reserved<N>(s: State<N>): nat {
    Requested(NotifiedSet(s), s.entries)
  }

  /** The permits that are not reserved are too few for the oldest waiter. */
  ghost predicate NobodyOverlooked<N>(s: State<N>)
    requires Linked(s)
  {
    !s.isFair && s.waiters != [] ==> s.permits < Reserved(s) + s.entries[Last(s.waiters)].requiredPermits
  }

  /** In particular, when the oldest waiter's request fits, some future has been notified. */
  lemma SomebodyKnows<N>(s: State<N>)
    requires Linked(s) && NobodyOverlooked(s) && !s.isFair && s.waiters != []
    requires s.entries[Last(s.waiters)].requiredPermits <= s.permits
    ensures exists n :: n in s.entries && s.entries[n].state == Notified
  {
    assert NotifiedSet(s) != {};
    var n :| n in NotifiedSet(s);
  }

  /**
   * The two ways to leave a waiter overlooked. Either the oldest waiter gives up before it was notified, and the
   * unreserved permits are enough for the next oldest; or a notified future finds too few permits and queues up again,
   * and what it leaves is enough for the oldest waiter.
   */
  ghost predicate Overlooks<N>(s: State<N>, op: Op<N>)
    requires Linked(s)
  {
    match op
    case DropFuture(n) =>
      && |s.waiters| >= 2 && n == Last(s.waiters) && s.entries[n].state == Waiting
      && Reserved(s) + s.entries[s.waiters[|s.waiters| - 2]].requiredPermits <= s.permits
    case PollFuture(n, _) =>
      && n in s.entries && s.entries[n].state == Notified && s.permits < s.entries[n].requiredPermits
      && s.waiters != []
      && Reserved(s) + s.entries[Last(s.waiters)].requiredPermits <= s.permits + s.entries[n].requiredPermits
    case _ => false
  }

  // ---- How single changes affect the reservations ----

  /** `n` has become notified, and apart from that only tasks and other states have changed. */
  lemma OneMoreReserves<N>(s: State<N>, t: State<N>, n: N)
    requires n in s.entries && t.entries.Keys == s.entries.Keys
    requires forall m | m in s.entries :: t.entries[m].requiredPermits == s.entries[m].requiredPermits
    requires n !in NotifiedSet(s) && NotifiedSet(t) == NotifiedSet(s) + {n}
    ensures Reserved(t) == Reserved(s) + s.entries[n].requiredPermits
  {
    RequestedWithout(NotifiedSet(t), t.entries, n);
    assert NotifiedSet(t) - {n} == NotifiedSet(s);
    RequestedSame(NotifiedSet(s), s.entries, t.entries);
  }

  /** The notified futures are the same ones, asking for the same. */
  lemma SameReserve<N>(s: State<N>, t: State<N>)
    requires NotifiedSet(t) == NotifiedSet(s)
    requires forall m | m in NotifiedSet(s) :: t.entries[m].requiredPermits == s.entries[m].requiredPermits
    ensures Reserved(t) == Reserved(s)
  {
    RequestedSame(NotifiedSet(s), s.entries, t.entries);
  }

  /** `n` is no longer notified. */
  lemma OneLessReserves<N>(s: State<N>, t: State<N>, n: N)
    requires n in NotifiedSet(s) && NotifiedSet(t) == NotifiedSet(s) - {n}
    requires forall m | m in NotifiedSet(t) :: t.entries[m].requiredPermits == s.entries[m].requiredPermits
    ensures Reserved(s) == Reserved(t) + s.entries[n].requiredPermits
  {
    RequestedWithout(NotifiedSet(s), s.entries, n);
    RequestedSame(NotifiedSet(t), s.entries, t.entries);
  }

  /** Waking goes on until the next request does not fit into what it has not given out. */
  lemma {:induction false} WakeReserves<N>(s: State<N>, available: nat)
    requires WellFormed(s) && !s.isFair
    ensures var r := WakeLoop(s, available);
      && Reserved(s) <= Reserved(r)
      && (r.waiters != [] ==> available + Reserved(s) < Reserved(r) + r.entries[Last(r.waiters)].requiredPermits)
    decreases |s.waiters|
  {
    hide WakeLoop, Reserved, NotifiedSet, WellFormed;
    InvOfWellFormed(s);
    WakeLoopRound(s, available);
    if s.waiters != [] {
      var n := Last(s.waiters);
      NotifyOldestKeepsWellFormed(s);
      if s.entries[n].requiredPermits <= available {
        var t := Notify(s, n).(waiters := DropLast(s.waiters));
        NotifyReserves(s);
        WakeReserves(t, available - s.entries[n].requiredPermits);
      }
    }
  }

  lemma InvOfWellFormed<N>(s: State<N>)
    requires WellFormed(s)
    ensures Linked(s)
  {
  }

  lemma NotifyReserves<N>(s: State<N>)
    requires WellFormed(s) && !s.isFair && s.waiters != []
    ensures Linked(s)
    ensures var n := Last(s.waiters);
      Reserved(Notify(s, n).(waiters := DropLast(s.waiters))) == Reserved(s) + s.entries[n].requiredPermits
  {
    var n := Last(s.waiters);
    assert n in s.waiters;
    var t := Notify(s, n).(waiters := DropLast(s.waiters));
    assert NotifiedSet(t) == NotifiedSet(s) + {n};
    OneMoreReserves(s, t, n);
  }

  lemma WakeOverlooksNobody<N>(s: State<N>)
    requires WellFormed(s) && !s.isFair
    ensures Linked(WakeupWaiters(s)) && NobodyOverlooked(WakeupWaiters(s))
  {
    WakeReserves(s, s.permits);
  }

  // ---- Steps ----

  lemma PollNewKeeps<N>(s: State<N>, n: N, waker: Waker)
    requires Inv(s) && !s.isFair && n in s.entries && s.entries[n].state == New && NobodyOverlooked(s)
    ensures Linked(Polled(s, n, waker).0) && NobodyOverlooked(Polled(s, n, waker).0)
  {
    hide Requested;
    var t := Polled(s, n, waker).0;
    assert n !in s.waiters;
    assert NotifiedSet(t) == NotifiedSet(s);
    SameReserve(s, t);
  }

  /** A waiter that barges in takes no more than what was unreserved, or leaves less than the next one needs. */
  lemma PollWaitingKeeps<N>(s: State<N>, n: N, waker: Waker)
    requires Inv(s) && !s.isFair && n in s.entries && s.entries[n].state == Waiting && NobodyOverlooked(s)
    ensures Linked(Polled(s, n, waker).0) && NobodyOverlooked(Polled(s, n, waker).0)
  {
    hide Requested, NotifiedIsServable;
    var t := Polled(s, n, waker).0;
    assert NotifiedSet(t) == NotifiedSet(s);
    SameReserve(s, t);
    InUnlink(s, n);
  }

  lemma PollNotifiedKeeps<N>(s: State<N>, n: N, waker: Waker)
    requires Inv(s) && !s.isFair && n in s.entries && s.entries[n].state == Notified && NobodyOverlooked(s)
    ensures Linked(Polled(s, n, waker).0)
    ensures NobodyOverlooked(Polled(s, n, waker).0) <==> !Overlooks(s, PollFuture(n, waker))
  {
    hide Requested;
    var t := Polled(s, n, waker).0;
    PolledKeepsInv(s, n, waker);
    assert NotifiedSet(t) == NotifiedSet(s) - {n};
    OneLessReserves(s, t, n);
  }

  lemma DropNotifiedKeeps<N>(s: State<N>, n: N)
    requires Inv(s) && !s.isFair && n in s.entries && s.entries[n].state == Notified
    ensures var t := Dropped(s, n);
      Linked(t) && NobodyOverlooked(t)
  {
    hide Requested, WakeLoop;
    var u := SetState(s, n, Done);
    assert WellFormed(u);
    WakeOverlooksNobody(u);
    WakeLeavesOthersAlone(u, u.permits, n);
    var r := WakeupWaiters(u);
    var t := r.(entries := r.entries - {n});
    assert NotifiedSet(t) == NotifiedSet(r);
    SameReserve(r, t);
    WakeKeepsWellFormed(u, u.permits);
  }

  /** Giving up before being notified takes a future out of the queue and changes nothing else. */
  lemma DropWaitingEffect<N>(s: State<N>, n: N)
    requires Inv(s) && !s.isFair && n in s.entries && s.entries[n].state != Notified
    ensures var t := Dropped(s, n);
      && t.waiters == Without(s.waiters, n) && t.permits == s.permits && !t.isFair && Linked(t)
      && (forall m | m in s.entries && m != n :: m in t.entries && t.entries[m] == s.entries[m])
      && NotifiedSet(t) == NotifiedSet(s)
    ensures s.waiters != [] && n == Last(s.waiters) ==>
      s.entries[n].state == Waiting && Without(s.waiters, n) == DropLast(s.waiters) && n !in DropLast(s.waiters)
  {
    InUnlink(s, n);
    if s.waiters != [] && n == Last(s.waiters) {
      assert n in s.waiters;
      WithoutLast(s.waiters);
      InDropLast(s.waiters);
    }
  }

  lemma DropWaitingKeeps<N>(s: State<N>, n: N)
    requires Inv(s) && !s.isFair && n in s.entries && s.entries[n].state != Notified && NobodyOverlooked(s)
    ensures var t := Dropped(s, n);
      Linked(t) && (NobodyOverlooked(t) <==> !Overlooks(s, DropFuture(n)))
  {
    hide Requested, RemoveWaiter, NotifiedIsServable, Without;
    DropWaitingEffect(s, n);
    var r := RemoveWaiter(s, n);
    var t := r.(entries := r.entries - {n});
    SameReserve(s, t);
    WithoutKeepsLast(s.waiters, n);
    if |s.waiters| >= 2 && n == Last(s.waiters) {
      assert Last(t.waiters) == s.waiters[|s.waiters| - 2] && Last(t.waiters) in DropLast(s.waiters);
    }
  }

  lemma ReleaseKeeps<N>(s: State<N>, permits: nat)
    requires Inv(s) && !s.isFair && NobodyOverlooked(s)
    ensures Linked(Release(s, permits)) && NobodyOverlooked(Release(s, permits))
  {
    if permits > 0 {
      WakeOverlooksNobody(s.(permits := s.permits + permits));
    }
  }

  /** A step of an unfair semaphore overlooks a waiter in exactly two situations. */
  lemma UnfairStepOverlooks<N>(w: World<N>, op: Op<N>)
    requires WorldInv(w) && !w.s.isFair && NobodyOverlooked(w.s)
    ensures Linked(Step(w, op).s)
    ensures NobodyOverlooked(Step(w, op).s) <==> !(Enabled(w, op) && Overlooks(w.s, op))
  {
    hide Polled, Dropped, Release, Requested, NotifiedIsServable;
    StepKeepsWorldInv(w, op);
    if Enabled(w, op) {
      match op
      case Acquire(n, permits) =>
        assert n !in w.s.waiters;
        assert NotifiedSet(Step(w, op).s) == NotifiedSet(w.s);
        SameReserve(w.s, Step(w, op).s);
      case PollFuture(n, waker) =>
        if w.s.entries[n].state == Notified {
          PollNotifiedKeeps(w.s, n, waker);
        } else if w.s.entries[n].state == New {
          PollNewKeeps(w.s, n, waker);
        } else {
          PollWaitingKeeps(w.s, n, waker);
        }
      case DropFuture(n) =>
        if w.s.entries[n].state == Notified {
          DropNotifiedKeeps(w.s, n);
        } else {
          DropWaitingKeeps(w.s, n);
        }
      case TryAcquireNow(n, permits) =>
        SameReserve(w.s, Step(w, op).s);
      case Disarm(i) =>
      case DropReleaser(i) => ReleaseKeeps(w.s, w.releasers[i]);
      case ReleaseByHand(permits) => ReleaseKeeps(w.s, permits);
    }
  }

  /** Any release of permits, and any notified future that gives up, makes up for whoever has been overlooked. */
  lemma UnfairSemaphoreRecovers<N>(w: World<N>, op: Op<N>)
    requires WorldInv(w) && !w.s.isFair && Enabled(w, op)
    requires match op
      case ReleaseByHand(permits) => permits > 0
      case DropReleaser(i) => w.releasers[i] > 0
      case DropFuture(n) => w.s.entries[n].state == Notified
      case _ => false
    ensures Linked(Step(w, op).s) && NobodyOverlooked(Step(w, op).s)
  {
    hide Dropped, Requested, WakeLoop;
    match op
    case ReleaseByHand(permits) => WakeOverlooksNobody(w.s.(permits := w.s.permits + permits));
    case DropReleaser(i) => WakeOverlooksNobody(w.s.(permits := w.s.permits + w.releasers[i]));
    case DropFuture(n) => DropNotifiedKeeps(w.s, n);
  }

  /** No step of the run overlooks anybody. */
  ghost predicate Careful<N>(permits: nat, ops: seq<Op<N>>) {
    forall k | 0 <= k < |ops| ::
      var w := Exec(false, permits, ops[..k]); !(Enabled(w, ops[k]) && Overlooks(w.s, ops[k]))
  }

  /**
   * No waiter is left asleep while unreserved permits are enough for it, at any point of an unfair run, if and only if
   * no step of the run is one of the two that overlook somebody.
   */
  lemma CarefulRunsOverlookNobody<N>(permits: nat, ops: seq<Op<N>>)
    ensures Careful(permits, ops) <==> forall k | 0 <= k <= |ops| :: NobodyOverlooked(Exec(false, permits, ops[..k]).s)
  {
    if Careful(permits, ops) {
      forall k | 0 <= k <= |ops|
        ensures NobodyOverlooked(Exec(false, permits, ops[..k]).s)
      {
        NobodyOverlookedSoFar(permits, ops, k);
      }
    }
    if forall k | 0 <= k <= |ops| :: NobodyOverlooked(Exec(false, permits, ops[..k]).s) {
      forall k | 0 <= k < |ops|
        ensures var w := Exec(false, permits, ops[..k]); !(Enabled(w, ops[k]) && Overlooks(w.s, ops[k]))
      {
        ExecPrefix(false, permits, ops, k);
        UnfairStepOverlooks(Exec(false, permits, ops[..k]), ops[k]);
        assert NobodyOverlooked(Exec(false, permits, ops[..k + 1]).s);
      }
    }
  }

  lemma {:induction false} NobodyOverlookedSoFar<N>(permits: nat, ops: seq<Op<N>>, k: nat)
    requires Careful(permits, ops) && k <= |ops|
    ensures NobodyOverlooked(Exec(false, permits, ops[..k]).s)
  {
    hide Requested, Step;
    if k > 0 {
      NobodyOverlookedSoFar(permits, ops, k - 1);
      ExecPrefix(false, permits, ops, k - 1);
      UnfairStepOverlooks(Exec(false, permits, ops[..k - 1]), ops[k - 1]);
    }
  }
}
