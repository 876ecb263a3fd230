/** When a semaphore may, and when it may not, leave a waiter asleep whose request could be served. */
module SemaphoreWakeups {
  import opened Collections
  import opened SemaphoreModel
  import opened SemaphoreInvariants
  import opened SemaphoreRuns

  // ---- Fair semaphores, requests of any size ----

  /** If the oldest waiter's request fits, that waiter has been notified. */
  ghost predicate OldestIsServed<N>(s: State<N>)
    requires Linked(s)
  {
    s.waiters != [] && s.entries[Last(s.waiters)].requiredPermits <= s.permits ==>
      s.entries[Last(s.waiters)].state == Notified
  }

  /**
   * The one way to leave a fair waiter stranded: the oldest waiter gives up before it was notified, and the request
   * of the next oldest fits into the permits that were not enough for the oldest.
   */
  ghost predicate Strands<N>(s: State<N>, n: N)
    requires Linked(s)
  {
    && |s.waiters| >= 2
    && n == Last(s.waiters)
    && s.entries[n].state == Waiting
    && s.entries[s.waiters[|s.waiters| - 2]].requiredPermits <= s.permits
  }

  lemma WakeServesOldest<N>(s: State<N>)
    requires Linked(s) && s.isFair
    ensures OldestIsServed(WakeupWaiters(s))
  {
  }

  /** Every step of a fair semaphore keeps the oldest waiter served, except dropping a future that strands another. */
  lemma FairStepKeepsOldestServed<N>(w: World<N>, op: Op<N>)
    requires WorldInv(w) && w.s.isFair && OldestIsServed(w.s)
    ensures Linked(Step(w, op).s)
    ensures OldestIsServed(Step(w, op).s) <==> !(Enabled(w, op) && op.DropFuture? && Strands(w.s, op.n))
  {
    hide Polled, Dropped, Release, NotifiedIsServable;
    StepKeepsWorldInv(w, op);
    if Enabled(w, op) {
      match op
      case Acquire(n, permits) =>
        assert n !in w.s.waiters;
      case PollFuture(n, waker) =>
        FairPollKeepsOldestServed(w.s, n, waker);
      case DropFuture(n) =>
        FairDropKeepsOldestServed(w.s, n);
      case TryAcquireNow(n, permits) =>
      case Disarm(i) =>
      case DropReleaser(i) =>
        FairReleaseKeepsOldestServed(w.s, w.releasers[i]);
      case ReleaseByHand(permits) =>
        FairReleaseKeepsOldestServed(w.s, permits);
    }
  }

  lemma FairReleaseKeepsOldestServed<N>(s: State<N>, permits: nat)
    requires Linked(s) && s.isFair && OldestIsServed(s)
    ensures Linked(Release(s, permits)) && OldestIsServed(Release(s, permits))
  {
    WakeServesOldest(s.(permits := s.permits + permits));
  }

  lemma FairPollKeepsOldestServed<N>(s: State<N>, n: N, waker: Waker)
    requires Inv(s) && s.isFair && n in s.entries && OldestIsServed(s)
    ensures Linked(Polled(s, n, waker).0) && OldestIsServed(Polled(s, n, waker).0)
  {
    TryAcquireKeepsInv(s, n, waker);
    if TryAcquire(s, n, waker).1.Ready? {
      ReadyIsDone(s, n, waker);
    }
  }

  lemma FairDropKeepsOldestServed<N>(s: State<N>, n: N)
    requires Inv(s) && s.isFair && n in s.entries && OldestIsServed(s)
    ensures Linked(Dropped(s, n))
    ensures OldestIsServed(Dropped(s, n)) <==> !Strands(s, n)
  {
    RemoveWaiterKeepsInv(s, n);
    InUnlink(s, n);
    if s.waiters != [] && n == Last(s.waiters) {
      WithoutLast(s.waiters);
    }
  }

  lemma FairReleaseServesOldest<N>(s: State<N>, permits: nat)
    requires Inv(s) && s.isFair && permits > 0
    ensures Linked(Release(s, permits)) && OldestIsServed(Release(s, permits))
  {
    WakeServesOldest(s.(permits := s.permits + permits));
  }

  lemma FairPollServesNext<N>(s: State<N>, n: N, waker: Waker)
    requires Inv(s) && s.isFair && n in s.entries && s.entries[n].state == Notified
    ensures Linked(Polled(s, n, waker).0) && OldestIsServed(Polled(s, n, waker).0)
  {
    UnlinkLinked(s, n);
    InUnlink(s, n);
  }

  lemma FairDropServesNext<N>(s: State<N>, n: N)
    requires Inv(s) && s.isFair && n in s.entries && s.entries[n].state == Notified
    ensures Linked(Dropped(s, n)) && OldestIsServed(Dropped(s, n))
  {
    UnlinkLinked(s, n);
    InUnlink(s, n);
  }

  /** A stranded waiter is served again by any later release, and when the notified future acquires or gives up. */
  lemma FairSemaphoreRecovers<N>(w: World<N>, op: Op<N>)
    requires WorldInv(w) && w.s.isFair && Enabled(w, op)
    requires match op
      case ReleaseByHand(permits) => permits > 0
      case DropReleaser(i) => w.releasers[i] > 0
      case PollFuture(n, _) => w.s.entries[n].state == Notified
      case DropFuture(n) => w.s.entries[n].state == Notified
      case _ => false
    ensures Linked(Step(w, op).s) && OldestIsServed(Step(w, op).s)
  {
    hide Polled, Dropped, Release, Inv, OldestIsServed;
    match op
    case ReleaseByHand(permits) => FairReleaseServesOldest(w.s, permits);
    case DropReleaser(i) => FairReleaseServesOldest(w.s, w.releasers[i]);
    case PollFuture(n, waker) => FairPollServesNext(w.s, n, waker);
    case DropFuture(n) => FairDropServesNext(w.s, n);
  }

  /** No step of the run strands a waiter. */
  ghost predicate NeverStrands<N>(permits: nat, ops: seq<Op<N>>) {
    forall k | 0 <= k < |ops| ::
      var w := Exec(true, permits, ops[..k]);
      !(Enabled(w, ops[k]) && ops[k].DropFuture? && Strands(w.s, ops[k].n))
  }

  /** The oldest waiter is served throughout a fair run if and only if no cancellation in it strands another waiter. */
  lemma FairOldestServedThroughout<N>(permits: nat, ops: seq<Op<N>>)
    ensures NeverStrands(permits, ops) <==>
      forall k | 0 <= k <= |ops| :: OldestIsServed(Exec(true, permits, ops[..k]).s)
  {
    if NeverStrands(permits, ops) {
      forall k | 0 <= k <= |ops|
        ensures OldestIsServed(Exec(true, permits, ops[..k]).s)
      {
        FairOldestServedSoFar(permits, ops, k);
      }
    }
    if forall k | 0 <= k <= |ops| :: OldestIsServed(Exec(true, permits, ops[..k]).s) {
      forall k | 0 <= k < |ops|
        ensures var w := Exec(true, permits, ops[..k]);
          !(Enabled(w, ops[k]) && ops[k].DropFuture? && Strands(w.s, ops[k].n))
      {
        ExecPrefix(true, permits, ops, k);
        FairStepKeepsOldestServed(Exec(true, permits, ops[..k]), ops[k]);
        assert OldestIsServed(Exec(true, permits, ops[..k + 1]).s);
      }
    }
  }

  lemma {:induction false} FairOldestServedSoFar<N>(permits: nat, ops: seq<Op<N>>, k: nat)
    requires NeverStrands(permits, ops) && k <= |ops|
    ensures OldestIsServed(Exec(true, permits, ops[..k]).s)
  {
    hide Step, Strands, Inv, NobodyDone;
    if k > 0 {
      FairOldestServedSoFar(permits, ops, k - 1);
      ExecPrefix(true, permits, ops, k - 1);
      FairStepKeepsOldestServed(Exec(true, permits, ops[..k - 1]), ops[k - 1]);
    }
  }

  // ---- Uniform requests: every acquire future asks for the same number of permits ----

  ghost function NotifiedSet<N>(s: State<N>): set<N> {
    set n | n in s.entries && s.entries[n].state == Notified
  }

  ghost predicate Uniform<N>(s: State<N>, k: nat) {
    forall n | n in s.entries :: s.entries[n].requiredPermits == k
  }

  /** On an unfair semaphore, enough futures have been notified to use up every permit that somebody waits for. */
  ghost predicate NoLostWakeup<N>(s: State<N>, k: nat)
    requires k > 0
  {
    !s.isFair && s.waiters != [] ==> s.permits < (|NotifiedSet(s)| + 1) * k
  }

  /** In terms of whole requests: at least `permits / k` futures are notified. */
  lemma NoLostWakeupCounts<N>(s: State<N>, k: nat)
    requires k > 0 && !s.isFair && s.waiters != []
    ensures NoLostWakeup(s, k) <==> s.permits / k <= |NotifiedSet(s)|
  {
    var q, r, c := s.permits / k, s.permits % k, |NotifiedSet(s)|;
    assert s.permits == q * k + r;
    if q <= c {
      MulMonotone(q + 1, c + 1, k);
      assert (q + 1) * k == q * k + k;
    } else {
      MulMonotone(c + 1, q, k);
    }
  }

  /** On a fair semaphore, the oldest waiter is notified exactly when its request fits. */
  ghost predicate OldestKnows<N>(s: State<N>, k: nat)
    requires Linked(s)
  {
    s.isFair && s.waiters != [] ==> (s.entries[Last(s.waiters)].state == Notified <==> k <= s.permits)
  }

  lemma {:induction false} MulMonotone(a: int, b: int, k: nat)
    requires a <= b
    ensures a * k <= b * k
  {
    assert b * k == a * k + (b - a) * k;
  }

  lemma NotifyOldest<N>(s: State<N>, k: nat)
    requires WellFormed(s) && !s.isFair && Uniform(s, k) && s.waiters != []
    ensures Last(s.waiters) in s.entries && s.entries[Last(s.waiters)].requiredPermits == k
    ensures var t := Notify(s, Last(s.waiters)).(waiters := DropLast(s.waiters));
      && WellFormed(t) && Uniform(t, k)
      && NotifiedSet(s) <= NotifiedSet(t) && |NotifiedSet(t)| == |NotifiedSet(s)| + 1
  {
    var n := Last(s.waiters);
    assert n in s.waiters;
    InDropLast(s.waiters);
    assert NotifiedSet(Notify(s, n).(waiters := DropLast(s.waiters))) == NotifiedSet(s) + {n};
  }

  /** Unless it empties the queue, a wake-up notifies so many waiters that less than one request is left over. */
  lemma {:induction false} WakeUsesPermitsUp<N>(s: State<N>, available: nat, k: nat)
    requires WellFormed(s) && !s.isFair && Uniform(s, k) && k > 0
    ensures var r := WakeLoop(s, available);
      && NotifiedSet(s) <= NotifiedSet(r)
      && (r.waiters != [] ==> available < (|NotifiedSet(r)| - |NotifiedSet(s)| + 1) * k)
    decreases |s.waiters|
  {
    hide Uniform, NotifiedSet, WakeLoop;
    WakeLoopRound(s, available);
    if s.waiters != [] {
      NotifyOldest(s, k);
      var c := |NotifiedSet(s)|;
      if k <= available {
        var t := Notify(s, Last(s.waiters)).(waiters := DropLast(s.waiters));
        WakeUsesPermitsUp(t, available - k, k);
        var r := WakeLoop(t, available - k);
        if r.waiters != [] {
          OneRequestMore(available - k, |NotifiedSet(r)| - c, k);
        }
      } else {
        OneRequestMore(available - k, 0, k);
      }
    }
  }

  lemma OneRequestMore(a: int, d: int, k: nat)
    requires a < d * k
    ensures a + k < (d + 1) * k
  {
  }

  lemma WakeLosesNothing<N>(s: State<N>, k: nat)
    requires WellFormed(s) && !s.isFair && Uniform(s, k) && k > 0
    ensures NoLostWakeup(WakeupWaiters(s), k)
  {
    WakeUsesPermitsUp(s, s.permits, k);
    MulMonotone(1 + |NotifiedSet(WakeupWaiters(s))| - |NotifiedSet(s)|, |NotifiedSet(WakeupWaiters(s))| + 1, k);
  }

  lemma UnfairPollLosesNothing<N>(s: State<N>, n: N, waker: Waker, k: nat)
    requires Inv(s) && !s.isFair && Uniform(s, k) && k > 0 && NoLostWakeup(s, k)
    requires n in s.entries && s.entries[n].state != Done
    ensures NoLostWakeup(Polled(s, n, waker).0, k)
  {
    var r := Polled(s, n, waker).0;
    assert s.waiters == [] ==> Without(s.waiters, n) == [];
    assert NotifiedSet(r) == NotifiedSet(s) - {n};
    var c := |NotifiedSet(s)|;
    assert (c + 1) * k == c * k + k;
    MulMonotone(1, c + 1, k);
    if n in NotifiedSet(s) {
      MulMonotone(1, c, k);
    }
  }

  lemma UnfairDropLosesNothing<N>(s: State<N>, n: N, k: nat)
    requires Inv(s) && !s.isFair && Uniform(s, k) && k > 0 && NoLostWakeup(s, k) && n in s.entries
    ensures NoLostWakeup(Dropped(s, n), k)
  {
    var r := RemoveWaiter(s, n);
    if s.entries[n].state == Notified {
      UnfairCancelPassesTheBaton(s, n, k);
    } else {
      InUnlink(s, n);
      assert NotifiedSet(Dropped(s, n)) == NotifiedSet(s);
    }
  }

  /** A notified future that gives up hands its notification on. */
  lemma UnfairCancelPassesTheBaton<N>(s: State<N>, n: N, k: nat)
    requires Inv(s) && !s.isFair && Uniform(s, k) && k > 0
    requires n in s.entries && s.entries[n].state == Notified
    ensures NoLostWakeup(Dropped(s, n), k)
  {
    var t := SetState(s, n, Done);
    assert WellFormed(t);
    WakeLosesNothing(t, k);
    WakeLeavesOthersAlone(t, t.permits, n);
    var r := WakeupWaiters(t);
    assert NotifiedSet(Dropped(s, n)) == NotifiedSet(r);
  }

  ghost predicate UniformOps<N>(ops: seq<Op<N>>, k: nat) {
    forall i :: 0 <= i < |ops| && ops[i].Acquire? ==> ops[i].permits == k
  }

  ghost predicate UniformInv<N>(s: State<N>, k: nat)
    requires k > 0 && Linked(s)
  {
    Uniform(s, k) && NoLostWakeup(s, k) && OldestKnows(s, k)
  }

  lemma UnfairStepLosesNothing<N>(w: World<N>, op: Op<N>, k: nat)
    requires WorldInv(w) && !w.s.isFair && k > 0 && Uniform(w.s, k) && NoLostWakeup(w.s, k)
    requires op.Acquire? ==> op.permits == k
    ensures Uniform(Step(w, op).s, k) && NoLostWakeup(Step(w, op).s, k)
  {
    hide Uniform, Polled, Dropped, Release, Inv;
    StepKeepsUniform(w, op, k);
    if Enabled(w, op) {
      match op
      case Acquire(n, permits) =>
        assert NotifiedSet(Step(w, op).s) == NotifiedSet(w.s);
      case PollFuture(n, waker) =>
        UnfairPollLosesNothing(w.s, n, waker, k);
      case DropFuture(n) =>
        UnfairDropLosesNothing(w.s, n, k);
      case TryAcquireNow(n, permits) =>
        assert NotifiedSet(Step(w, op).s) == NotifiedSet(w.s);
      case Disarm(i) =>
      case DropReleaser(i) =>
        UnfairReleaseLosesNothing(w.s, w.releasers[i], k);
      case ReleaseByHand(permits) =>
        UnfairReleaseLosesNothing(w.s, permits, k);
    }
  }

  lemma UnfairReleaseLosesNothing<N>(s: State<N>, permits: nat, k: nat)
    requires Inv(s) && !s.isFair && Uniform(s, k) && k > 0 && NoLostWakeup(s, k)
    ensures NoLostWakeup(Release(s, permits), k)
  {
    if permits > 0 {
      WakeLosesNothing(s.(permits := s.permits + permits), k);
    }
  }

  lemma StepKeepsUniform<N>(w: World<N>, op: Op<N>, k: nat)
    requires WorldInv(w) && Uniform(w.s, k)
    requires op.Acquire? ==> op.permits == k
    ensures Uniform(Step(w, op).s, k)
  {
    hide Polled, Dropped, Inv;
    if Enabled(w, op) {
      match op
      case PollFuture(n, waker) => PollKeepsRequests(w.s, n, waker);
      case DropFuture(n) => DropKeepsRequests(w.s, n);
      case _ =>
    }
  }

  lemma PollKeepsRequests<N>(s: State<N>, n: N, waker: Waker)
    requires Inv(s) && n in s.entries
    ensures var r := Polled(s, n, waker).0;
      forall m | m in r.entries :: m in s.entries && r.entries[m].requiredPermits == s.entries[m].requiredPermits
  {
    UnlinkLinked(s, n);
    hide WakeLoop, NotifiedIsServable;
  }

  lemma DropKeepsRequests<N>(s: State<N>, n: N)
    requires Inv(s) && n in s.entries
    ensures var r := Dropped(s, n);
      forall m | m in r.entries :: m in s.entries && r.entries[m].requiredPermits == s.entries[m].requiredPermits
  {
    UnlinkLinked(s, n);
    hide WakeLoop, NotifiedIsServable;
  }

  lemma FairStepKeepsOldestInformed<N>(w: World<N>, op: Op<N>, k: nat)
    requires WorldInv(w) && w.s.isFair && k > 0 && Uniform(w.s, k) && OldestKnows(w.s, k)
    requires op.Acquire? ==> op.permits == k
    ensures Uniform(Step(w, op).s, k) && Linked(Step(w, op).s) && OldestKnows(Step(w, op).s, k)
  {
    hide Step;
    StepKeepsUniform(w, op, k);
    FairStepKeepsOldestServed(w, op);
    StepKeepsWorldInv(w, op);
  }

  /** Uniform requests never lose a wake-up, in either mode and in any run. */
  lemma {:induction false} UniformRunsLoseNoWakeup<N>(isFair: bool, permits: nat, ops: seq<Op<N>>, k: nat)
    requires k > 0 && UniformOps(ops, k)
    ensures UniformInv(Exec(isFair, permits, ops).s, k)
  {
    if ops != [] {
      var w := Exec(isFair, permits, DropLast(ops));
      UniformRunsLoseNoWakeup(isFair, permits, DropLast(ops), k);
      if isFair {
        FairStepKeepsOldestInformed(w, Last(ops), k);
      } else {
        UnfairStepLosesNothing(w, Last(ops), k);
      }
    }
  }
}
