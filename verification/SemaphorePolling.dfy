/** What a semaphore answers to those who ask for permits, and which task it wakes for those who have to wait. */
module SemaphorePolling {
  import opened Collections
  import opened SemaphoreModel
  import opened SemaphoreInvariants
  import opened SemaphoreRuns
  import opened SemaphoreCalls

  // ---- Who gets permits ----

  /** Barging: an unfair semaphore serves whoever asks while the request fits, no matter who waits. */
  lemma UnfairPollIsReadyIfItFits<N>(s: State<N>, n: N, waker: Waker)
    requires Inv(s) && !s.isFair && n in s.entries && s.entries[n].state != Done
    ensures TryAcquire(s, n, waker).1 == if s.entries[n].requiredPermits <= s.permits then Ready(()) else Pending
  {
  }

  /** A fair semaphore serves newcomers only if nobody waits or they ask for nothing, and then whom it has notified. */
  lemma FairPollWaitsForItsTurn<N>(s: State<N>, n: N, waker: Waker)
    requires Inv(s) && s.isFair && n in s.entries && s.entries[n].state != Done
    ensures var e, k := s.entries[n], s.entries[n].requiredPermits;
      var served := if e.state == New then k <= s.permits && (s.waiters == [] || k == 0) else e.state == Notified;
      TryAcquire(s, n, waker).1 == if served then Ready(()) else Pending
  {
    hide WakeLoop;
    StateTellsQueued(s, n);
  }

  /** Acquiring at once follows the rule for newcomers: a releaser for exactly the request, or no change at all. */
  lemma TryAcquireNowIsServedIfItFits<N>(w: World<N>, n: N, permits: nat)
    requires WorldInv(w) && Enabled(w, TryAcquireNow(n, permits))
    ensures var w' := Step(w, TryAcquireNow(n, permits));
      if permits <= w.s.permits && (!w.s.isFair || w.s.waiters == [] || permits == 0)
      then w'.releasers == w.releasers + [permits] && w'.s == w.s.(permits := w.s.permits - permits)
      else w' == w
  {
  }

  /** A disarmed releaser gives nothing back and wakes nobody; its permits have passed to whoever has disarmed it. */
  lemma DisarmedReleaserReturnsNothing<N>(w: World<N>, i: nat)
    requires WorldInv(w) && Enabled(w, Disarm(i))
    ensures var disarmed := Step(w, Disarm(i));
      && Enabled(disarmed, DropReleaser(i))
      && Step(disarmed, DropReleaser(i)) == w.(
        releasers := w.releasers[..i] + w.releasers[i + 1..], disarmed := w.disarmed + w.releasers[i])
  {
    var disarmed := Step(w, Disarm(i));
    assert disarmed.releasers[..i] + disarmed.releasers[i + 1..] == w.releasers[..i] + w.releasers[i + 1..];
  }

  /** A ready poll hands out a releaser for the request of that future. */
  lemma ReadyPollHandsOutItsRequest<N>(w: World<N>, n: N, waker: Waker)
    requires WorldInv(w) && Enabled(w, PollFuture(n, waker))
    ensures Step(w, PollFuture(n, waker)).releasers ==
      w.releasers + if Polled(w.s, n, waker).1.Ready? then [w.s.entries[n].requiredPermits] else []
  {
    hide Polled;
  }

  /** A future asks for the number of permits that it was created with, for as long as it lives. */
  lemma {:induction false} RequestStands<N>(
      isFair: bool, initial: nat, ops: seq<Op<N>>, n: N, permits: nat, more: seq<Op<N>>)
    requires n !in Exec(isFair, initial, ops).used
    ensures var w := Exec(isFair, initial, ops + [Acquire(n, permits)] + more);
      n in w.used && (n in w.s.entries ==> w.s.entries[n].requiredPermits == permits)
  {
    hide WorldInv;
    var begun := ops + [Acquire(n, permits)];
    if more == [] {
      assert begun + more == begun;
      assert DropLast(begun) == ops;
    } else {
      RequestStands(isFair, initial, ops, n, permits, DropLast(more));
      assert DropLast(begun + more) == begun + DropLast(more);
      StepKeepsRequest(Exec(isFair, initial, begun + DropLast(more)), Last(more), n);
    }
  }

  /** From `s` to `t` nobody appears, nobody changes its request, and nobody outside `polled` starts to wait. */
  ghost predicate OthersStand<N>(s: State<N>, t: State<N>, polled: set<N>) {
    forall m | m in t.entries ::
      && m in s.entries && t.entries[m].requiredPermits == s.entries[m].requiredPermits
      && (t.entries[m].state == Waiting && m !in polled ==> s.entries[m].state == Waiting)
  }

  lemma PollLetsOthersStand<N>(s: State<N>, n: N, waker: Waker)
    requires Inv(s) && n in s.entries
    ensures OthersStand(s, Polled(s, n, waker).0, {n})
  {
    hide WakeLoop;
    UnlinkLinked(s, n);
  }

  lemma DropLetsOthersStand<N>(s: State<N>, n: N)
    requires Inv(s) && n in s.entries
    ensures OthersStand(s, Dropped(s, n), {})
  {
    hide WakeLoop;
    UnlinkLinked(s, n);
  }

  lemma ReleaseLetsOthersStand<N>(s: State<N>, permits: nat)
    requires Inv(s)
    ensures OthersStand(s, Release(s, permits), {})
  {
    hide WakeLoop;
  }

  lemma StepLetsOthersStand<N>(w: World<N>, op: Op<N>)
    requires WorldInv(w) && (Enabled(w, op) ==> !op.Acquire?)
    ensures OthersStand(w.s, Step(w, op).s, if op.PollFuture? then {op.n} else {})
  {
    hide Polled, Dropped, Release, Inv;
    if Enabled(w, op) {
      match op
      case PollFuture(n, waker) => PollLetsOthersStand(w.s, n, waker);
      case DropFuture(n) => DropLetsOthersStand(w.s, n);
      case DropReleaser(i) => ReleaseLetsOthersStand(w.s, w.releasers[i]);
      case ReleaseByHand(permits) => ReleaseLetsOthersStand(w.s, permits);
      case _ =>
    }
  }

  lemma StepKeepsRequest<N>(w: World<N>, op: Op<N>, n: N)
    requires WorldInv(w) && n in w.used
    ensures n in Step(w, op).used
    ensures n in Step(w, op).s.entries ==>
      n in w.s.entries && Step(w, op).s.entries[n].requiredPermits == w.s.entries[n].requiredPermits
  {
    hide Inv, Polled, Dropped, Release;
    if Enabled(w, op) && !op.Acquire? {
      StepLetsOthersStand(w, op);
    }
  }

  // ---- Whom a waiting future has woken ----

  /** A future that has to wait is queued, once, and remembers the task that has polled it; nothing else changes. */
  lemma PendingPollRemembersTheTask<N>(s: State<N>, n: N, waker: Waker)
    requires Inv(s) && n in s.entries && TryAcquire(s, n, waker).1.Pending?
    ensures TryAcquire(s, n, waker).0 == s.(
      waiters := if n in s.waiters then s.waiters else [n] + s.waiters,
      entries := s.entries[n := WaitQueueEntry(Some(waker), Waiting, s.entries[n].requiredPermits)])
  {
    hide WakeLoop;
    StateTellsQueued(s, n);
  }

  /** The waker of the latest poll of a future. */
  ghost function LatestWaker<N>(ops: seq<Op<N>>, n: N): Option<Waker> {
    if ops == [] then None
    else if Last(ops).PollFuture? && Last(ops).n == n then Some(Last(ops).waker)
    else LatestWaker(DropLast(ops), n)
  }

  /** Nobody else changes which task a waiting future has woken, or makes a future wait. */
  lemma OnlyPollsRegister<N>(w: World<N>, op: Op<N>, n: N)
    requires WorldInv(w) && n in Step(w, op).s.entries && Step(w, op).s.entries[n].state == Waiting
    requires !(op.PollFuture? && op.n == n)
    ensures n in w.s.entries && w.s.entries[n].state == Waiting
    ensures Step(w, op).s.entries[n].task == w.s.entries[n].task
  {
    hide Polled, Dropped, Release, Inv;
    if n in w.s.entries && w.s.entries[n].state == Waiting {
      if op != DropFuture(n) {
        NobodyIsReleasedSilently(w, op, n);
      } else {
        DropKeepsInv(w.s, n);
      }
    } else if !(Enabled(w, op) && op.Acquire?) {
      StepLetsOthersStand(w, op);
    }
  }

  /** In every run, a waiting future remembers the task that has polled it last. */
  lemma {:induction false} WaiterRemembersLatestPoll<N>(isFair: bool, permits: nat, ops: seq<Op<N>>, n: N)
    requires var s := Exec(isFair, permits, ops).s; n in s.entries && s.entries[n].state == Waiting
    ensures Exec(isFair, permits, ops).s.entries[n].task == LatestWaker(ops, n)
  {
    hide Step, Inv, NobodyDone;
    if ops != [] {
      var w, op := Exec(isFair, permits, DropLast(ops)), Last(ops);
      if op.PollFuture? && op.n == n {
        PollRegisters(w, n, op.waker);
      } else {
        OnlyPollsRegister(w, op, n);
        WaiterRemembersLatestPoll(isFair, permits, DropLast(ops), n);
      }
    }
  }

  lemma PollRegisters<N>(w: World<N>, n: N, waker: Waker)
    requires WorldInv(w)
    requires var s := Step(w, PollFuture(n, waker)).s; n in s.entries && s.entries[n].state == Waiting
    ensures Step(w, PollFuture(n, waker)).s.entries[n].task == Some(waker)
  {
    hide TryAcquire;
    TryAcquireKeepsInv(w.s, n, waker);
    if TryAcquire(w.s, n, waker).1.Pending? {
      PendingPollRemembersTheTask(w.s, n, waker);
    }
  }

  /**
   * In every run and whatever happens next, a waiting future goes on waiting undisturbed, or is notified and the task
   * that has polled it last is called at that moment.
   */
  lemma LatestTaskIsCalled<N>(isFair: bool, permits: nat, ops: seq<Op<N>>, op: Op<N>, n: N)
    requires var s := Exec(isFair, permits, ops).s; n in s.entries && s.entries[n].state == Waiting
    requires !(op.PollFuture? && op.n == n) && op != DropFuture(n)
    ensures var s, t := Exec(isFair, permits, ops).s, Exec(isFair, permits, ops + [op]).s;
      && s.wakes <= t.wakes && n in t.entries && LatestWaker(ops, n).Some?
      && (t.entries[n] == s.entries[n] ||
        (t.entries[n].state == Notified && LatestWaker(ops, n).value in t.wakes[|s.wakes|..]))
  {
    hide Step, Exec;
    WaiterRemembersLatestPoll(isFair, permits, ops, n);
    ExecStep(isFair, permits, ops, op);
    NobodyIsReleasedSilently(Exec(isFair, permits, ops), op, n);
  }
}
