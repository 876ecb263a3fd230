/** The order in which a fair mutex hands out the lock. */
module MutexFairness {
  import opened Collections
  import opened Histories
  import opened MutexModel
  import opened MutexRuns

  ghost function NewFutures<N>(s: State<N>): set<N> {
    set n | n in s.entries && s.entries[n].state == New
  }

  /** The line of those who ask for the lock. */
  ghost function LineOf<N>(w: World<N>): Line<N> {
    Line(w.used, NewFutures(w.s), w.arrivals, w.grants, w.cancelled, w.s.waiters)
  }

  /** How a poll moves a future through the queue of a fair mutex. Only the oldest waiter ever leaves it. */
  lemma FairPoll<N>(s: State<N>, n: N, waker: Waker)
    requires Inv(s) && s.isFair && n in s.entries && s.entries[n].state != Done
    ensures var e := s.entries[n]; var (r, result) := TryLock(s, n, waker);
      && (e.state == New && result.Ready? ==> r.waiters == s.waiters == [])
      && (e.state == New && !result.Ready? ==> r.waiters == [n] + s.waiters)
      && (e.state == Waiting ==> !result.Ready? && r.waiters == s.waiters)
      && (e.state == Notified ==> result.Ready? && s.waiters == r.waiters + [n] && n !in r.waiters)
    ensures forall m | m in s.entries && TryLock(s, n, waker).0.entries[m].state == New ::
      m != n && s.entries[m].state == New
  {
    hide Without;
    if s.entries[n].state == Notified {
      WithoutLast(s.waiters);
      InDropLast(s.waiters);
      assert s.waiters == DropLast(s.waiters) + [n];
    }
  }

  /** What a poll means for the line. */
  ghost function LineAfterPoll<N>(w: World<N>, n: N, ready: bool): Line<N>
    requires n in w.s.entries
  {
    var line := LineOf(w);
    match w.s.entries[n].state
    case New => if ready then line.Pass(n) else line.Arrive(n)
    case Notified => if line.queue != [] then line.ServeOldest() else line
    case Waiting | Done => line
  }

  lemma PollInLine<N>(w: World<N>, n: N, waker: Waker)
    requires WorldInv(w) && w.s.isFair && Enabled(w, PollFuture(n, waker))
    ensures LineOf(Step(w, PollFuture(n, waker))) == LineAfterPoll(w, n, Polled(w.s, n, waker).1.Ready?)
    ensures w.s.entries[n].state == New && Polled(w.s, n, waker).1.Ready? ==> w.s.waiters == []
    ensures w.s.entries[n].state == Notified ==> w.s.waiters != []
  {
    hide Inv, TryLock;
    FairPoll(w.s, n, waker);
    TryLockKeepsInv(w.s, n, waker);
    PollKeepsNew(w.s, n, waker);
    var w' := Step(w, PollFuture(n, waker));
    assert NewFutures(w'.s) == NewFutures(w.s) - {n};
  }

  lemma PollKeepsNew<N>(s: State<N>, n: N, waker: Waker)
    requires Inv(s) && n in s.entries
    ensures forall m | m in s.entries && m != n ::
      m in TryLock(s, n, waker).0.entries && TryLock(s, n, waker).0.entries[m] == s.entries[m]
  {
  }

  /** How giving up moves a future through the queue of a fair mutex. */
  lemma FairDrop<N>(s: State<N>, n: N)
    requires Inv(s) && s.isFair && n in s.entries
    ensures Dropped(s, n).0.waiters == Without(s.waiters, n)
    ensures n in s.waiters <==> s.entries[n].state in {Waiting, Notified}
    ensures NewFutures(Dropped(s, n).0) == NewFutures(s) - {n}
  {
    hide Without;
    TakenOut(s.waiters, n);
    if s.entries[n].state == Notified {
      FairReturn(SetEntry(Unlink(s, n), n, s.entries[n].(state := Done)));
    }
  }

  /** Notifying on a fair mutex moves nobody, and changes nobody outside the queue. */
  lemma FairReturn<N>(s: State<N>)
    requires Linked(s) && s.isFair
    ensures ReturnLastWaiter(s).0.waiters == s.waiters
    ensures forall m | m in s.entries && ReturnLastWaiter(s).0.entries[m].state == New :: s.entries[m].state == New
    ensures forall m | m in s.entries && m !in s.waiters :: ReturnLastWaiter(s).0.entries[m] == s.entries[m]
  {
    assert s.waiters != [] ==> Last(s.waiters) in s.waiters;
  }

  /** Unlocking notifies within the queue of a fair mutex, but moves nobody. */
  lemma FairUnlock<N>(s: State<N>)
    requires Inv(s) && s.isFair
    ensures Unlock(s).0.waiters == s.waiters && NewFutures(Unlock(s).0) == NewFutures(s)
  {
    FairReturn(s.(isLocked := false));
  }

  /** The line stays fair, whatever happens. */
  lemma StepKeepsFair<N>(w: World<N>, op: Op<N>)
    requires WorldInv(w) && w.s.isFair && LineOf(w).Fair()
    ensures LineOf(Step(w, op)).Fair()
  {
    hide Inv, Polled, Dropped, Unlock, Line<N>.Fair;
    if Enabled(w, op) {
      match op
      case Lock(n) =>
        assert NewFutures(Step(w, op).s) == NewFutures(w.s) + {n};
        LineOf(w).CreateKeepsFair(n);
      case PollFuture(n, waker) => LockPollKeepsFair(w, n, waker);
      case DropFuture(n) => LockDropKeepsFair(w, n);
      case TryLockNow(n) => TryLockKeepsFair(w, n);
      case DropGuard => FairUnlock(w.s);
    }
  }

  lemma LockPollKeepsFair<N>(w: World<N>, n: N, waker: Waker)
    requires WorldInv(w) && w.s.isFair && LineOf(w).Fair() && Enabled(w, PollFuture(n, waker))
    ensures LineOf(Step(w, PollFuture(n, waker))).Fair()
  {
    hide Polled, Step;
    var line := LineOf(w);
    PollInLine(w, n, waker);
    assert w.s.entries[n].state == New ==> n in line.newcomers;
    if w.s.entries[n].state == New {
      if Polled(w.s, n, waker).1.Ready? {
        line.PassKeepsFair(n);
      } else {
        line.ArriveKeepsFair(n);
      }
    } else if w.s.entries[n].state == Notified {
      line.ServeOldestKeepsFair();
    }
  }

  lemma LockDropKeepsFair<N>(w: World<N>, n: N)
    requires WorldInv(w) && w.s.isFair && LineOf(w).Fair() && Enabled(w, DropFuture(n))
    ensures LineOf(Step(w, DropFuture(n))).Fair()
  {
    hide Dropped, Without;
    FairDrop(w.s, n);
    var line, w' := LineOf(w), Step(w, DropFuture(n));
    if n in w.s.waiters {
      line.GiveUpKeepsFair(n);
      assert LineOf(w').newcomers == line.newcomers;
      assert LineOf(w') == line.GiveUp(n);
    } else {
      assert LineOf(w') == line.Leave(n);
    }
  }

  /** Locking at once is coming and being served at once. */
  lemma TryLockKeepsFair<N>(w: World<N>, n: N)
    requires WorldInv(w) && w.s.isFair && LineOf(w).Fair() && Enabled(w, TryLockNow(n))
    ensures LineOf(Step(w, TryLockNow(n))).Fair()
  {
    hide Inv;
    var line, w' := LineOf(w), Step(w, TryLockNow(n));
    line.CreateKeepsFair(n);
    if CanLockSync(w.s) {
      line.Create(n).PassKeepsFair(n);
      assert LineOf(w').newcomers == line.Create(n).Pass(n).newcomers;
      assert LineOf(w') == line.Create(n).Pass(n);
    }
  }

  lemma {:induction false} FairThroughout<N>(ops: seq<Op<N>>)
    ensures LineOf(Exec(true, ops)).Fair()
  {
    if ops != [] {
      FairThroughout(DropLast(ops));
      StepKeepsFair(Exec(true, DropLast(ops)), Last(ops));
    }
  }

  /**
   * In every run of a fair mutex, the lock is granted strictly in the order of arrival: the requests that arrived and
   * were not given up are the ones granted so far, in this order, and then the waiting ones from the oldest on.
   */
  lemma FairRunGrantsInOrder<N>(ops: seq<Op<N>>)
    ensures var w := Exec(true, ops);
      Live(w.arrivals, w.cancelled) == w.grants + Reverse(w.s.waiters) && LineOf(w).Consistent()
  {
    FairThroughout(ops);
  }
}
