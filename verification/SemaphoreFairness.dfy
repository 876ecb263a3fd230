/** The order in which a fair semaphore hands out permits. */
module SemaphoreFairness {
  import opened Collections
  import opened Histories
  import opened SemaphoreModel
  import opened SemaphoreInvariants
  import opened SemaphoreRuns

  ghost function NewFutures<N>(s: State<N>): set<N> {
    set n | n in s.entries && s.entries[n].state == New
  }

  /** The line of those who ask for permits; requests for none are not in it once they have been polled. */
  ghost function LineOf<N>(w: World<N>): Line<N> {
    Line(w.used, NewFutures(w.s), w.arrivals, w.grants, w.cancelled, w.s.waiters)
  }

  /** How a poll moves a future through the queue of a fair semaphore. Only the oldest waiter ever leaves it. */
  lemma FairPoll<N>(s: State<N>, n: N, waker: Waker)
    requires Inv(s) && s.isFair && n in s.entries && s.entries[n].state != Done
    ensures var e := s.entries[n]; var (r, result) := TryAcquire(s, n, waker);
      && (e.state == New && result.Ready? ==> r.waiters == s.waiters && (s.waiters == [] || e.requiredPermits == 0))
      && (e.state == New && !result.Ready? ==> r.waiters == [n] + s.waiters && e.requiredPermits > 0)
      && (e.state == Waiting ==> !result.Ready? && r.waiters == s.waiters)
      && (e.state == Notified ==>
        result.Ready? && s.waiters == r.waiters + [n] && n !in r.waiters && e.requiredPermits > 0)
    ensures forall m | m in s.entries && TryAcquire(s, n, waker).0.entries[m].state == New ::
      m != n && s.entries[m].state == New
  {
    hide WakeLoop, Without;
    if s.entries[n].state == Notified {
      FairNotifiedPoll(s, n, waker);
    }
  }

  /** Waking on a fair semaphore moves nobody, and changes nobody outside the queue. */
  lemma FairWake<N>(s: State<N>)
    requires Linked(s) && s.isFair
    ensures WakeupWaiters(s).waiters == s.waiters
    ensures forall m | m in s.entries && WakeupWaiters(s).entries[m].state == New :: s.entries[m].state == New
    ensures forall m | m in s.entries && m !in s.waiters :: WakeupWaiters(s).entries[m] == s.entries[m]
  {
    assert s.waiters != [] ==> Last(s.waiters) in s.waiters;
  }

  lemma FairNotifiedPoll<N>(s: State<N>, n: N, waker: Waker)
    requires Inv(s) && s.isFair && n in s.entries && s.entries[n].state == Notified
    ensures var (r, result) := TryAcquire(s, n, waker);
      result.Ready? && s.waiters == r.waiters + [n] && n !in r.waiters && s.entries[n].requiredPermits > 0
    ensures forall m | m in s.entries && TryAcquire(s, n, waker).0.entries[m].state == New ::
      m != n && s.entries[m].state == New
  {
    hide WakeLoop, Without;
    UnlinkLinked(s, n);
    WithoutLast(s.waiters);
    InDropLast(s.waiters);
    assert s.waiters == DropLast(s.waiters) + [n];
    FairWake(Unlink(s, n).(permits := s.permits - s.entries[n].requiredPermits));
  }

  /** What a poll means for the line. */
  ghost function LineAfterPoll<N>(w: World<N>, n: N, ready: bool): Line<N>
    requires n in w.s.entries
  {
    var e, line := w.s.entries[n], LineOf(w);
    match e.state
    case New => if !ready then line.Arrive(n) else if e.requiredPermits == 0 then line.Leave(n) else line.Pass(n)
    case Notified => if line.queue != [] then line.ServeOldest() else line
    case Waiting | Done => line
  }

  lemma PollInLine<N>(w: World<N>, n: N, waker: Waker)
    requires WorldInv(w) && w.s.isFair && Enabled(w, PollFuture(n, waker))
    ensures LineOf(Step(w, PollFuture(n, waker))) == LineAfterPoll(w, n, Polled(w.s, n, waker).1.Ready?)
    ensures w.s.entries[n].state == New && Polled(w.s, n, waker).1.Ready? ==>
      w.s.waiters == [] || w.s.entries[n].requiredPermits == 0
    ensures w.s.entries[n].state == Notified ==> w.s.waiters != []
  {
    hide Inv, TryAcquire;
    FairPoll(w.s, n, waker);
    TryAcquireKeepsInv(w.s, n, waker);
    PollKeepsNew(w.s, n, waker);
    var w' := Step(w, PollFuture(n, waker));
    assert NewFutures(w'.s) == NewFutures(w.s) - {n};
  }

  lemma PollKeepsNew<N>(s: State<N>, n: N, waker: Waker)
    requires Inv(s) && s.isFair && n in s.entries
    ensures forall m | m in s.entries && m != n && s.entries[m].state == New ::
      m in TryAcquire(s, n, waker).0.entries && TryAcquire(s, n, waker).0.entries[m].state == New
  {
    hide WakeLoop;
    if s.entries[n].state == Notified {
      UnlinkLinked(s, n);
      InUnlink(s, n);
      FairWake(Unlink(s, n).(permits := s.permits - s.entries[n].requiredPermits));
    }
  }

  /** How giving up moves a future through the queue of a fair semaphore. */
  lemma FairDrop<N>(s: State<N>, n: N)
    requires Inv(s) && s.isFair && n in s.entries
    ensures Dropped(s, n).waiters == Without(s.waiters, n)
    ensures n in s.waiters <==> s.entries[n].state in {Waiting, Notified}
    ensures NewFutures(Dropped(s, n)) == NewFutures(s) - {n}
  {
    hide WakeLoop;
    UnlinkLinked(s, n);
    InUnlink(s, n);
    if s.entries[n].state == Notified {
      FairWake(SetState(Unlink(s, n), n, Done));
    }
  }

  lemma DropInLine<N>(w: World<N>, n: N)
    requires WorldInv(w) && w.s.isFair && Enabled(w, DropFuture(n))
    ensures LineOf(Step(w, DropFuture(n))) == if n in w.s.waiters then LineOf(w).GiveUp(n) else LineOf(w).Leave(n)
  {
    hide Dropped, Without;
    FairDrop(w.s, n);
    assert n in w.s.waiters ==> NewFutures(w.s) - {n} == NewFutures(w.s);
  }

  /** Releasing permits notifies within the queue of a fair semaphore, but moves nobody. */
  lemma FairRelease<N>(s: State<N>, permits: nat)
    requires Inv(s) && s.isFair
    ensures Release(s, permits).waiters == s.waiters && NewFutures(Release(s, permits)) == NewFutures(s)
  {
    hide WakeLoop;
    FairWake(s.(permits := s.permits + permits));
  }

  /** The line stays fair, whatever happens. */
  lemma StepKeepsFair<N>(w: World<N>, op: Op<N>)
    requires WorldInv(w) && w.s.isFair && LineOf(w).Fair()
    ensures LineOf(Step(w, op)).Fair()
  {
    hide Inv, Polled, Dropped, Release, Line<N>.Fair;
    var line := LineOf(w);
    if Enabled(w, op) {
      match op
      case Acquire(n, permits) =>
        assert NewFutures(Step(w, op).s) == NewFutures(w.s) + {n};
        line.CreateKeepsFair(n);
      case PollFuture(n, waker) => PollKeepsFair(w, n, waker);
      case DropFuture(n) => DropKeepsFair(w, n);
      case TryAcquireNow(n, permits) => TryAcquireKeepsFair(w, n, permits);
      case Disarm(i) =>
      case DropReleaser(i) => FairRelease(w.s, w.releasers[i]);
      case ReleaseByHand(permits) => FairRelease(w.s, permits);
    }
  }

  lemma PollKeepsFair<N>(w: World<N>, n: N, waker: Waker)
    requires WorldInv(w) && w.s.isFair && LineOf(w).Fair() && Enabled(w, PollFuture(n, waker))
    ensures LineOf(Step(w, PollFuture(n, waker))).Fair()
  {
    hide Polled, Step;
    var line := LineOf(w);
    PollInLine(w, n, waker);
    assert w.s.entries[n].state == New ==> n in line.newcomers;
    if w.s.entries[n].state == New {
      if !Polled(w.s, n, waker).1.Ready? {
        line.ArriveKeepsFair(n);
      } else if w.s.entries[n].requiredPermits > 0 {
        line.PassKeepsFair(n);
      }
    } else if w.s.entries[n].state == Notified {
      line.ServeOldestKeepsFair();
    }
  }

  lemma DropKeepsFair<N>(w: World<N>, n: N)
    requires WorldInv(w) && w.s.isFair && LineOf(w).Fair() && Enabled(w, DropFuture(n))
    ensures LineOf(Step(w, DropFuture(n))).Fair()
  {
    hide Step;
    DropInLine(w, n);
    if n in w.s.waiters {
      LineOf(w).GiveUpKeepsFair(n);
    }
  }

  /** Acquiring at once is coming and being served at once. */
  lemma TryAcquireKeepsFair<N>(w: World<N>, n: N, permits: nat)
    requires WorldInv(w) && w.s.isFair && LineOf(w).Fair() && Enabled(w, TryAcquireNow(n, permits))
    ensures LineOf(Step(w, TryAcquireNow(n, permits))).Fair()
  {
    hide Inv;
    var line, w' := LineOf(w), Step(w, TryAcquireNow(n, permits));
    line.CreateKeepsFair(n);
    if CanAcquireSync(w.s, permits) {
      if permits > 0 {
        line.Create(n).PassKeepsFair(n);
        assert LineOf(w').newcomers == line.Create(n).Pass(n).newcomers;
        assert LineOf(w') == line.Create(n).Pass(n);
      } else {
        assert LineOf(w').newcomers == line.Create(n).Leave(n).newcomers;
        assert LineOf(w') == line.Create(n).Leave(n);
      }
    }
  }

  lemma {:induction false} FairThroughout<N>(permits: nat, ops: seq<Op<N>>)
    ensures LineOf(Exec(true, permits, ops)).Fair()
  {
    if ops != [] {
      FairThroughout(permits, DropLast(ops));
      StepKeepsFair(Exec(true, permits, DropLast(ops)), Last(ops));
    }
  }

  /**
   * In every run of a fair semaphore, permits are granted strictly in the order of arrival: the requests that arrived
   * and were not given up are the ones granted so far, in this order, and then the waiting ones from the oldest on.
   */
  lemma FairRunGrantsInOrder<N>(permits: nat, ops: seq<Op<N>>)
    ensures var w := Exec(true, permits, ops);
      Live(w.arrivals, w.cancelled) == w.grants + Reverse(w.s.waiters) && LineOf(w).Consistent()
  {
    FairThroughout(permits, ops);
  }
}
