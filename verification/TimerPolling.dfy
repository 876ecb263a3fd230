/** Which tasks a timer wakes, and by when: for each future the one that has polled it last, at its own deadline. */
module TimerPolling {
  import opened Collections
  import opened TimerModel
  import opened TimerOverdue

  // ---- Whom a waiting future has woken ----

  /** A future that has to wait is in the heap and remembers the task that has just polled it; nothing else changes. */
  lemma PendingPollRemembersTheTask<N>(s: State<N>, n: N, now: nat, waker: Waker)
    requires Inv(s) && n in s.entries && TryWait(s, n, now, waker).1.Pending?
    ensures TryWait(s, n, now, waker).0 == s.(
      waiters := s.waiters + {n},
      entries := s.entries[n := TimerQueueEntry(s.entries[n].expiry, Some(waker), Registered)])
  {
  }

  /** The waker of the latest poll of a timer future that the run allows; a poll must not be earlier than others. */
  ghost function LatestWaker<N>(ops: seq<Op<N>>, n: N): Option<Waker> {
    if ops == [] then None
    else if Last(ops).PollFuture? && Last(ops).n == n && Enabled(Exec(DropLast(ops)), Last(ops))
    then Some(Last(ops).waker)
    else LatestWaker(DropLast(ops), n)
  }

  /** Nobody else changes which task a waiting future has woken, or makes a future wait. */
  lemma OnlyPollsRegister<N>(w: World<N>, op: Op<N>, n: N)
    requires WorldInv(w) && n in Step(w, op).s.waiters
    requires !(op.PollFuture? && op.n == n && Enabled(w, op))
    ensures n in w.s.waiters && n in Step(w, op).s.entries && Step(w, op).s.entries[n] == w.s.entries[n]
  {
    hide Calls, Expire;
    if Enabled(w, op) && op.CheckExpirations? {
      ExpireMeans(w.s, op.order);
    }
  }

  lemma PollRegisters<N>(w: World<N>, n: N, waker: Waker, now: nat)
    requires WorldInv(w) && Enabled(w, PollFuture(n, waker, now))
    requires n in Step(w, PollFuture(n, waker, now)).s.waiters
    ensures n in Step(w, PollFuture(n, waker, now)).s.entries
    ensures Step(w, PollFuture(n, waker, now)).s.entries[n].task == Some(waker)
  {
    hide TryWait;
    TryWaitKeepsInv(w.s, n, now, waker);
    if TryWait(w.s, n, now, waker).1.Pending? {
      PendingPollRemembersTheTask(w.s, n, now, waker);
    }
  }

  /** In every run, a waiting future remembers the task that has polled it last. */
  lemma {:induction false} WaiterRemembersLatestPoll<N>(ops: seq<Op<N>>, n: N)
    requires n in Exec(ops).s.waiters
    ensures n in Exec(ops).s.entries && Exec(ops).s.entries[n].task == LatestWaker(ops, n)
  {
    hide Step, Enabled;
    if ops != [] {
      var w, op := Exec(DropLast(ops)), Last(ops);
      if op.PollFuture? && op.n == n && Enabled(w, op) {
        PollRegisters(w, n, op.waker, op.now);
      } else {
        OnlyPollsRegister(w, op, n);
        WaiterRemembersLatestPoll(DropLast(ops), n);
      }
    }
  }

  lemma OnlyChecksCall<N>(w: World<N>, op: Op<N>)
    requires WorldInv(w)
    ensures op.CheckExpirations? && Enabled(w, op) ==>
      (forall n | n in op.order :: n in w.s.waiters) && Step(w, op).wakes == w.wakes + Calls(w.s.entries, op.order)
    ensures !(op.CheckExpirations? && Enabled(w, op)) ==> Step(w, op).wakes == w.wakes
  {
    hide Calls, Expire;
  }

  /**
   * In every run, a check calls exactly the timers that are due, each once, in the order of their deadlines, and each
   * by the task that has polled it last. No other operation calls anybody.
   */
  lemma DueTimersAreCalledInOrder<N>(ops: seq<Op<N>>, op: Op<N>)
    ensures var w, w' := Exec(ops), Exec(ops + [op]);
      if op.CheckExpirations? && Enabled(w, op)
      then
        && w.wakes <= w'.wakes && |w'.wakes| == |w.wakes| + |op.order|
        && (forall n | n in w.s.waiters :: n in op.order <==> w.s.entries[n].expiry <= op.now)
        && (forall i | 0 <= i < |op.order| ::
          op.order[i] in w.s.waiters && LatestWaker(ops, op.order[i]) == Some(w'.wakes[|w.wakes| + i]))
        && (forall i, j | 0 <= i < j < |op.order| ::
          w.s.entries[op.order[i]].expiry <= w.s.entries[op.order[j]].expiry)
      else w'.wakes == w.wakes
  {
    hide Exec, Step, Calls, LatestWaker;
    var w := Exec(ops);
    ExecStep(ops, op);
    OnlyChecksCall(w, op);
    if op.CheckExpirations? && Enabled(w, op) {
      CallsAreInOrder(w.s, op.order);
      forall i | 0 <= i < |op.order|
        ensures op.order[i] in w.s.waiters
        ensures LatestWaker(ops, op.order[i]) == w.s.entries[op.order[i]].task
      {
        assert op.order[i] in op.order;
        WaiterRemembersLatestPoll(ops, op.order[i]);
      }
    }
  }

  // ---- By when ----

  /** A future waits for the deadline that it was created with, for as long as it lives. */
  lemma DeadlineStands<N>(ops: seq<Op<N>>, n: N, expiry: nat, more: seq<Op<N>>)
    requires Enabled(Exec(ops), Deadline(n, expiry))
    ensures var w := Exec(ops + [Deadline(n, expiry)] + more); n in w.s.entries ==> w.s.entries[n].expiry == expiry
  {
    var begun := ops + [Deadline(n, expiry)];
    assert DropLast(begun) == ops;
    DeadlinesStick(begun, more, n);
  }

  /** A delay that has overflown, or not, has the deadline that it should have. */
  lemma DelayStands<N>(ops: seq<Op<N>>, n: N, duration: nat, start: nat, more: seq<Op<N>>)
    requires Enabled(Exec(ops), Delay(n, duration, start))
    ensures var w := Exec(ops + [Delay(n, duration, start)] + more);
      n in w.s.entries ==>
        w.s.entries[n].expiry == if start + duration <= MAX_TIMESTAMP then start + duration else MAX_TIMESTAMP
  {
    var begun := ops + [Delay(n, duration, start)];
    assert DropLast(begun) == ops;
    DeadlinesStick(begun, more, n);
  }

  /** A check takes a timer that is due out of the heap and calls its latest task. */
  lemma CheckReleasesDue<N>(ops: seq<Op<N>>, n: N, now: nat, order: seq<N>)
    requires var w := Exec(ops); n in w.s.waiters && w.s.entries[n].expiry <= now
    requires Enabled(Exec(ops), CheckExpirations(now, order))
    ensures var w, w' := Exec(ops), Exec(ops + [CheckExpirations(now, order)]);
      && n !in w'.s.waiters && w.wakes <= w'.wakes
      && LatestWaker(ops, n).Some? && LatestWaker(ops, n).value in w'.wakes[|w.wakes|..]
  {
    hide Exec, LatestWaker, Calls, Expire;
    var op := CheckExpirations(now, order);
    DueTimersAreCalledInOrder(ops, op);
    ExecStep(ops, op);
    ExpireMeans(Exec(ops).s, order);
    var w, w', i := Exec(ops), Exec(ops + [op]), IndexOf(order, n);
    assert w'.wakes[|w.wakes|..][i] == w'.wakes[|w.wakes| + i];
  }

  /**
   * A delay is not late either: in every run, polled at a time when its duration is over, it resolves, unless it is
   * registered; and then a check at such a time takes it out of the heap and calls its latest task.
   */
  lemma DelayIsNotLate<N>(ops: seq<Op<N>>, n: N, duration: nat, start: nat, more: seq<Op<N>>, waker: Waker, now: nat)
    requires Enabled(Exec(ops), Delay(n, duration, start)) && start + duration <= now <= MAX_TIMESTAMP
    requires n in Exec(ops + [Delay(n, duration, start)] + more).s.entries
    ensures var all := ops + [Delay(n, duration, start)] + more; var w := Exec(all);
      && (n !in w.s.waiters ==> TryWait(w.s, n, now, waker).1 == Ready(()))
      && (n in w.s.waiters ==> forall order | Enabled(w, CheckExpirations(now, order)) ::
        var w' := Exec(all + [CheckExpirations(now, order)]);
        && n !in w'.s.waiters && w.wakes <= w'.wakes
        && LatestWaker(all, n).Some? && LatestWaker(all, n).value in w'.wakes[|w.wakes|..])
  {
    hide Exec, Step, TryWait, LatestWaker;
    var all := ops + [Delay(n, duration, start)] + more;
    var w := Exec(all);
    DelayStands(ops, n, duration, start, more);
    if n !in w.s.waiters {
      DueFutureResolves(all, n, waker, now);
    } else {
      forall order | Enabled(w, CheckExpirations(now, order))
        ensures var w' := Exec(all + [CheckExpirations(now, order)]);
          && n !in w'.s.waiters && w.wakes <= w'.wakes
          && LatestWaker(all, n).Some? && LatestWaker(all, n).value in w'.wakes[|w.wakes|..]
      {
        CheckReleasesDue(all, n, now, order);
      }
    }
  }
}
