/** When a timer that is due resolves, and when it stays overdue until expirations are checked. */
module TimerOverdue {
  import opened Collections
  import opened TimerModel

  // ---- At a poll ----

  /**
   * Whatever the clock says when a live future is polled, the poll resolves it exactly if it is due, unless the future
   * is registered and due: that is exactly when the poll fails to tell.
   */
  lemma PollResolvesWhenDue<N>(w: World<N>, n: N, waker: Waker, now: nat)
    requires WorldInv(w) && n in w.s.entries && w.now <= now
    ensures var due := w.s.entries[n].expiry <= now;
      ((TryWait(w.s, n, now, waker).1 == Ready(())) <==> due) <==> !(n in w.s.waiters && due)
  {
    match w.s.entries[n].state
    case Unregistered =>
    case Registered =>
    case Expired => assert w.s.entries[n].expiry <= w.seen;
  }

  /** In every run, a future that is due and not registered resolves when it is polled. */
  lemma DueFutureResolves<N>(ops: seq<Op<N>>, n: N, waker: Waker, now: nat)
    requires var w := Exec(ops); n in w.s.entries && n !in w.s.waiters && w.s.entries[n].expiry <= now
    ensures TryWait(Exec(ops).s, n, now, waker).1 == Ready(())
  {
  }

  /** In every run, a future that was due at the latest check is not registered any more, so it resolves. */
  lemma DueAtCheckIsNotRegistered<N>(ops: seq<Op<N>>, n: N)
    requires var w := Exec(ops); n in w.s.entries && w.checked.Some? && w.s.entries[n].expiry <= w.checked.value
    ensures n !in Exec(ops).s.waiters
  {
  }

  // ---- In a run ----

  /** No registered timer has reached its deadline by the time of the latest operation. */
  ghost predicate NobodyOverdue<N>(w: World<N>)
    requires Linked(w.s)
  {
    forall n | n in w.s.waiters :: w.now < w.s.entries[n].expiry
  }

  ghost predicate SomebodyDue<N>(s: State<N>, now: nat)
    requires Linked(s)
  {
    exists n :: n in s.waiters && s.entries[n].expiry <= now
  }

  /** The operation takes place when a registered timer has reached its deadline, and does not check expirations. */
  ghost predicate Overtakes<N>(w: World<N>, op: Op<N>)
    requires Linked(w.s)
  {
    match op
    case Delay(_, _, now) => SomebodyDue(w.s, now)
    case PollFuture(_, _, now) => SomebodyDue(w.s, now)
    case _ => false
  }

  lemma PollOvertakes<N>(w: World<N>, n: N, waker: Waker, now: nat)
    requires WorldInv(w) && NobodyOverdue(w) && Enabled(w, PollFuture(n, waker, now))
    ensures var w' := Step(w, PollFuture(n, waker, now));
      Linked(w'.s) && (NobodyOverdue(w') <==> !Overtakes(w, PollFuture(n, waker, now)))
  {
    StepKeepsWorldInv(w, PollFuture(n, waker, now));
    var w' := Step(w, PollFuture(n, waker, now));
    if SomebodyDue(w.s, now) {
      var m :| m in w.s.waiters && w.s.entries[m].expiry <= now;
      assert m in w'.s.waiters && w'.s.entries[m].expiry == w.s.entries[m].expiry;
    }
  }

  lemma DelayOvertakes<N>(w: World<N>, n: N, duration: nat, now: nat)
    requires WorldInv(w) && NobodyOverdue(w) && Enabled(w, Delay(n, duration, now))
    ensures var w' := Step(w, Delay(n, duration, now));
      Linked(w'.s) && (NobodyOverdue(w') <==> !Overtakes(w, Delay(n, duration, now)))
  {
    StepKeepsWorldInv(w, Delay(n, duration, now));
    var w' := Step(w, Delay(n, duration, now));
    if SomebodyDue(w.s, now) {
      var m :| m in w.s.waiters && w.s.entries[m].expiry <= now;
      assert m in w'.s.waiters && w'.s.entries[m] == w.s.entries[m];
    }
  }

  /** A step leaves a registered timer overdue if and only if it comes too late and does not check expirations. */
  lemma StepOvertakes<N>(w: World<N>, op: Op<N>)
    requires WorldInv(w) && NobodyOverdue(w)
    ensures Linked(Step(w, op).s)
    ensures NobodyOverdue(Step(w, op)) <==> !(Enabled(w, op) && Overtakes(w, op))
  {
    hide TryWait, Expire;
    StepKeepsWorldInv(w, op);
    if Enabled(w, op) {
      match op
      case Delay(n, duration, now) => DelayOvertakes(w, n, duration, now);
      case PollFuture(n, waker, now) => PollOvertakes(w, n, waker, now);
      case CheckExpirations(now, order) => CheckLeavesNobodyOverdue(w, now, order);
      case _ =>
    }
  }

  /** A check makes up for whatever has been missed. */
  lemma CheckLeavesNobodyOverdue<N>(w: World<N>, now: nat, order: seq<N>)
    requires WorldInv(w) && Enabled(w, CheckExpirations(now, order))
    ensures Linked(Step(w, CheckExpirations(now, order)).s)
    ensures NobodyOverdue(Step(w, CheckExpirations(now, order)))
  {
    ExpireMeans(w.s, order);
    ExpireKeepsInv(w.s, order);
  }

  /** No step of the run other than a check takes place at or past the deadline of a registered timer. */
  ghost predicate NeverOvertakes<N>(ops: seq<Op<N>>) {
    forall k | 0 <= k < |ops| :: var w := Exec(ops[..k]); !(Enabled(w, ops[k]) && Overtakes(w, ops[k]))
  }

  lemma ExecPrefix<N>(ops: seq<Op<N>>, k: nat)
    requires k < |ops|
    ensures Exec(ops[..k + 1]) == Step(Exec(ops[..k]), ops[k])
  {
    assert DropLast(ops[..k + 1]) == ops[..k];
  }

  /** No registered timer is overdue at any point of a run if and only if no step of it other than a check is late. */
  lemma NobodyOverdueThroughout<N>(ops: seq<Op<N>>)
    ensures NeverOvertakes(ops) <==> forall k | 0 <= k <= |ops| :: NobodyOverdue(Exec(ops[..k]))
  {
    if NeverOvertakes(ops) {
      forall k | 0 <= k <= |ops|
        ensures NobodyOverdue(Exec(ops[..k]))
      {
        NobodyOverdueSoFar(ops, k);
      }
    }
    if forall k | 0 <= k <= |ops| :: NobodyOverdue(Exec(ops[..k])) {
      forall k | 0 <= k < |ops|
        ensures var w := Exec(ops[..k]); !(Enabled(w, ops[k]) && Overtakes(w, ops[k]))
      {
        ExecPrefix(ops, k);
        StepOvertakes(Exec(ops[..k]), ops[k]);
        assert NobodyOverdue(Exec(ops[..k + 1]));
      }
    }
  }

  lemma {:induction false} NobodyOverdueSoFar<N>(ops: seq<Op<N>>, k: nat)
    requires NeverOvertakes(ops) && k <= |ops|
    ensures NobodyOverdue(Exec(ops[..k]))
  {
    hide Step;
    if k > 0 {
      NobodyOverdueSoFar(ops, k - 1);
      ExecPrefix(ops, k - 1);
      StepOvertakes(Exec(ops[..k - 1]), ops[k - 1]);
    }
  }

  /** The poll at position `k` of a run, if there is one, resolves its future exactly if that is due at that time. */
  ghost predicate TellsTheTruth<N>(ops: seq<Op<N>>, k: nat)
    requires k < |ops|
  {
    var w := Exec(ops[..k]);
    ops[k].PollFuture? && Enabled(w, ops[k]) ==>
      (TryWait(w.s, ops[k].n, ops[k].now, ops[k].waker).1 == Ready(()) <==> w.s.entries[ops[k].n].expiry <= ops[k].now)
  }

  /** The poll at position `k` of a run, if there is one, is not that of a registered timer past its deadline. */
  ghost predicate InTime<N>(ops: seq<Op<N>>, k: nat)
    requires k < |ops|
  {
    var w := Exec(ops[..k]);
    ops[k].PollFuture? && Enabled(w, ops[k]) ==>
      !(ops[k].n in w.s.waiters && w.s.entries[ops[k].n].expiry <= ops[k].now)
  }

  /**
   * All polls of a run tell the truth if and only if none of them is that of a registered timer past its deadline,
   * and that is so whenever no step of the run other than a check is late.
   */
  lemma PollsTellTheTruth<N>(ops: seq<Op<N>>)
    ensures (forall k | 0 <= k < |ops| :: TellsTheTruth(ops, k)) <==> (forall k | 0 <= k < |ops| :: InTime(ops, k))
    ensures NeverOvertakes(ops) ==> forall k | 0 <= k < |ops| :: InTime(ops, k)
  {
    forall k | 0 <= k < |ops|
      ensures TellsTheTruth(ops, k) <==> InTime(ops, k)
      ensures NeverOvertakes(ops) ==> InTime(ops, k)
    {
      PollTellsTheTruth(ops, k);
    }
  }

  lemma PollTellsTheTruth<N>(ops: seq<Op<N>>, k: nat)
    requires k < |ops|
    ensures TellsTheTruth(ops, k) <==> InTime(ops, k)
    ensures NeverOvertakes(ops) ==> InTime(ops, k)
  {
    hide TryWait;
    var w := Exec(ops[..k]);
    if ops[k].PollFuture? && Enabled(w, ops[k]) {
      PollResolvesWhenDue(w, ops[k].n, ops[k].waker, ops[k].now);
    }
  }

  // ---- A run with an overdue timer ----

  /** A run after which a registered timer is overdue, and yet polling it does not resolve it: that takes a check. */
  lemma OverdueTimerNeedsACheck(waker: Waker)
    ensures exists ops: seq<Op<nat>> ::
      var w := Exec(ops);
      && 0 in w.s.entries && w.s.entries[0].expiry <= w.now
      && forall now {:trigger TryWait(w.s, 0, now, waker)} :: TryWait(w.s, 0, now, waker).1 == Pending
  {
    hide WorldInv, Inv;
    var o1: seq<Op<nat>> := [Deadline(0, 1)];
    var o2 := o1 + [PollFuture(0, waker, 0)];
    var o3 := o2 + [Delay(1, 0, 1)];
    ExecStep<nat>([], Deadline(0, 1));
    assert [] + o1 == o1;
    ExecStep<nat>(o1, PollFuture(0, waker, 0));
    ExecStep<nat>(o2, Delay(1, 0, 1));
    assert Exec(o3).s.entries[0] == TimerQueueEntry(1, Some(waker), Registered);
  }
}
