/** Which tasks the channel wakes in whole runs: for each future, the one that has polled it last. */
module MpmcTasks {
  import opened Collections
  import opened MpmcModel
  import opened MpmcInvariants
  import opened MpmcRuns
  import opened MpmcWakeups
  import opened MpmcPolling
  import opened MpmcOrder

  // ---- Receivers ----

  /** The waker of the latest poll of a receive future. */
  ghost function LatestReceiveWaker<R, S, T>(ops: seq<Op<R, S, T>>, r: R): Option<Waker> {
    if ops == [] then None
    else if Last(ops).PollReceive? && Last(ops).r == r then Some(Last(ops).waker)
    else LatestReceiveWaker(DropLast(ops), r)
  }

  ghost predicate ReceiverWaits<R, S, T>(s: State<R, S, T>, r: R) {
    r in s.receivers && s.receivers[r].state == Registered
  }

  /** Nobody else changes which task a queued receiver has woken, or puts it into the queue. */
  lemma OnlyPollsRegisterReceivers<R, S, T>(w: World<R, S, T>, op: Op<R, S, T>, r: R)
    requires WorldInv(w) && ReceiverWaits(Step(w, op).s, r) && !(op.PollReceive? && op.r == r)
    ensures ReceiverWaits(w.s, r) && Step(w, op).s.receivers[r] == w.s.receivers[r]
  {
    hide Step, NoLostWakeup, Bounded;
    StepKeepsWorldInv(w, op);
    StepKeepsOrder(w, op);
    assert r in w.s.receiveWaiters;
    if op == DropReceive(r) {
      DroppedReceiverIsGone(w, r);
    } else {
      NoReceiverIsReleasedSilently(w, op, r);
    }
  }

  lemma DroppedReceiverIsGone<R, S, T>(w: World<R, S, T>, r: R)
    requires WorldInv(w)
    ensures r !in Step(w, DropReceive(r)).s.receivers
  {
    hide RemoveReceiveWaiter;
    InvIsLinked(w.s);
  }

  lemma PollRegistersReceiver<R, S, T>(w: World<R, S, T>, r: R, waker: Waker)
    requires WorldInv(w) && ReceiverWaits(Step(w, PollReceive(r, waker)).s, r)
    ensures Step(w, PollReceive(r, waker)).s.receivers[r].task == Some(waker)
  {
    hide ReceiveOrRegister, NoLostWakeup, Bounded;
    if r in w.s.receivers {
      ReceiveOrRegisterKeepsInv(w.s, r, waker);
      if ReceiveOrRegister(w.s, r, waker).1.Pending? {
        PendingReceiveRemembersTheTask(w.s, r, waker);
      }
    }
  }

  /** In every run, a queued receiver remembers the task that has polled it last. */
  lemma {:induction false} ReceiverRemembersLatestPoll<R, S, T>(capacity: nat, ops: seq<Op<R, S, T>>, r: R)
    requires ReceiverWaits(Exec(capacity, ops).s, r)
    ensures Exec(capacity, ops).s.receivers[r].task == LatestReceiveWaker(ops, r)
  {
    hide Step, WorldInv;
    if ops != [] {
      var w, op := Exec(capacity, DropLast(ops)), Last(ops);
      if op.PollReceive? && op.r == r {
        PollRegistersReceiver(w, r, op.waker);
      } else {
        OnlyPollsRegisterReceivers(w, op, r);
        ReceiverRemembersLatestPoll(capacity, DropLast(ops), r);
      }
    }
  }

  /**
   * In every run and whatever happens next, a queued receiver goes on waiting undisturbed, or is released and the task
   * that has polled it last is called at that moment.
   */
  lemma LatestReceiverTaskIsCalled<R, S, T>(capacity: nat, ops: seq<Op<R, S, T>>, op: Op<R, S, T>, r: R)
    requires ReceiverWaits(Exec(capacity, ops).s, r) && !(op.PollReceive? && op.r == r) && op != DropReceive(r)
    ensures var w, w' := Exec(capacity, ops), Exec(capacity, ops + [op]);
      && w.wakes <= w'.wakes && r in w'.s.receivers && LatestReceiveWaker(ops, r).Some?
      && (w'.s.receivers[r] == w.s.receivers[r] ||
        (!ReceiverWaits(w'.s, r) && LatestReceiveWaker(ops, r).value in w'.wakes[|w.wakes|..]))
  {
    hide Step, Exec, NoLostWakeup, Bounded;
    assert WorldInv(Exec(capacity, ops));
    ReceiverRemembersLatestPoll(capacity, ops, r);
    ExecStep(capacity, ops, op);
    NoReceiverIsReleasedSilently(Exec(capacity, ops), op, r);
  }

  // ---- Senders ----

  /** The waker of the latest poll of a send future. */
  ghost function LatestSendWaker<R, S, T>(ops: seq<Op<R, S, T>>, n: S): Option<Waker> {
    if ops == [] then None
    else if Last(ops).PollSend? && Last(ops).n == n then Some(Last(ops).waker)
    else LatestSendWaker(DropLast(ops), n)
  }

  ghost predicate SenderWaits<R, S, T>(s: State<R, S, T>, n: S) {
    n in s.senders && s.senders[n].state == SendRegistered
  }

  lemma PollingQueuesNoOtherSender<R, S, T>(w: World<R, S, T>, op: Op<R, S, T>, n: S)
    requires WorldInv(w) && Enabled(w, op) && SenderWaits(Step(w, op).s, n)
    requires op.PollReceive? || op.TryReceiveNow? || (op.PollSend? && op.n != n)
    ensures SenderWaits(w.s, n)
  {
    hide Inv, SendOrRegister, ReceiveOrRegister, TryReceive;
    InvIsLinked(w.s);
    match op
    case PollSend(m, waker) => SendOrRegisterKeepsInv(w.s, m, waker);
    case PollReceive(r, waker) => ReceiveEffect(w.s, r, waker);
    case TryReceiveNow => TryReceiveEffect(w.s);
  }

  /** Nobody but its own poll puts a sender into the queue. */
  lemma OnlyPollsQueueSenders<R, S, T>(w: World<R, S, T>, op: Op<R, S, T>, n: S)
    requires WorldInv(w) && SenderWaits(Step(w, op).s, n) && !(op.PollSend? && op.n == n)
    ensures SenderWaits(w.s, n)
  {
    hide Inv, TrySend, RemoveReceiveWaiter, PollSendStep, PollReceiveStep, TryReceive;
    InvIsLinked(w.s);
    if Enabled(w, op) {
      if op.PollReceive? || op.TryReceiveNow? || op.PollSend? {
        PollingQueuesNoOtherSender(w, op, n);
      } else if op.TrySendNow? {
        TrySendEffect(w.s, op.value);
      } else if op.DropReceive? {
        RemoveReceiveWaiterKeepsInv(w.s, op.r);
      }
    }
  }

  lemma OnlyPollsRegisterSenders<R, S, T>(w: World<R, S, T>, op: Op<R, S, T>, n: S)
    requires WorldInv(w) && SenderWaits(Step(w, op).s, n) && !(op.PollSend? && op.n == n)
    ensures SenderWaits(w.s, n) && Step(w, op).s.senders[n] == w.s.senders[n]
  {
    hide Step, NoLostWakeup, Bounded;
    OnlyPollsQueueSenders(w, op, n);
    if op == CancelSend(n) || op == DropSend(n) {
      LeavingSenderIsGone(w, op, n);
    } else {
      NoSenderIsReleasedSilently(w, op, n);
    }
  }

  lemma LeavingSenderIsGone<R, S, T>(w: World<R, S, T>, op: Op<R, S, T>, n: S)
    requires WorldInv(w) && (op == CancelSend(n) || op == DropSend(n))
    ensures n !in Step(w, op).s.senders
  {
  }

  lemma PollRegistersSender<R, S, T>(w: World<R, S, T>, n: S, waker: Waker)
    requires WorldInv(w) && SenderWaits(Step(w, PollSend(n, waker)).s, n)
    ensures Step(w, PollSend(n, waker)).s.senders[n].task == Some(waker)
  {
    hide SendOrRegister, NoLostWakeup, Bounded;
    if n in w.s.senders {
      SendOrRegisterKeepsInv(w.s, n, waker);
      SendEffect(w.s, n, waker);
    }
  }

  /** In every run, a queued sender remembers the task that has polled it last. */
  lemma {:induction false} SenderRemembersLatestPoll<R, S, T>(capacity: nat, ops: seq<Op<R, S, T>>, n: S)
    requires SenderWaits(Exec(capacity, ops).s, n)
    ensures Exec(capacity, ops).s.senders[n].task == LatestSendWaker(ops, n)
  {
    hide Step, WorldInv;
    if ops != [] {
      var w, op := Exec(capacity, DropLast(ops)), Last(ops);
      if op.PollSend? && op.n == n {
        PollRegistersSender(w, n, op.waker);
      } else {
        OnlyPollsRegisterSenders(w, op, n);
        SenderRemembersLatestPoll(capacity, DropLast(ops), n);
      }
    }
  }

  /** The same for queued senders: whoever completes the send, or closes the channel, calls the latest task. */
  lemma LatestSenderTaskIsCalled<R, S, T>(capacity: nat, ops: seq<Op<R, S, T>>, op: Op<R, S, T>, n: S)
    requires SenderWaits(Exec(capacity, ops).s, n)
    requires !(op.PollSend? && op.n == n) && op != CancelSend(n) && op != DropSend(n)
    ensures var w, w' := Exec(capacity, ops), Exec(capacity, ops + [op]);
      && w.wakes <= w'.wakes && n in w'.s.senders && LatestSendWaker(ops, n).Some?
      && (w'.s.senders[n] == w.s.senders[n] ||
        (!SenderWaits(w'.s, n) && LatestSendWaker(ops, n).value in w'.wakes[|w.wakes|..]))
  {
    hide Step, Exec, NoLostWakeup, Bounded;
    assert WorldInv(Exec(capacity, ops));
    SenderRemembersLatestPoll(capacity, ops, n);
    ExecStep(capacity, ops, op);
    NoSenderIsReleasedSilently(Exec(capacity, ops), op, n);
  }
}
