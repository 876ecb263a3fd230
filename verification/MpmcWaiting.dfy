/** When a queued receiver of the channel can be sure that there is nothing to receive, and when it cannot. */
module MpmcWaiting {
  import opened Collections
  import opened MpmcModel
  import opened MpmcInvariants
  import opened MpmcRuns

  /** While a receiver queues, the channel holds no value, be it in the buffer or with a queued sender. */
  ghost predicate NothingToReceive<R, S, T>(s: State<R, S, T>) {
    s.receiveWaiters != [] ==> s.buffer == [] && s.sendWaiters == []
  }

  /** The operation hands a value to an open channel at which two receivers queue, and only one of them is notified. */
  ghost predicate Offers<R, S, T>(s: State<R, S, T>, op: Op<R, S, T>) {
    && !s.isClosed && |s.receiveWaiters| >= 2
    && (op.TrySendNow? || (op.PollSend? && op.n in s.senders && s.senders[op.n].state == SendUnregistered))
  }

  /** A poll yields a value exactly if there is one, unless the future queues and there is one. */
  lemma PollReceivesWhatIsThere<R, S, T>(s: State<R, S, T>, r: R, waker: Waker)
    requires Inv(s) && r in s.receivers
    ensures var p, there := ReceiveOrRegister(s, r, waker).1, s.buffer != [] || s.sendWaiters != [];
      ((p.Ready? && p.value.Some?) <==> there) <==> !(r in s.receiveWaiters && there)
  {
    UnregisteredIsNotQueued(s, r);
    if s.receivers[r].state != Registered {
      UnregisterKeeps(s, r);
      TryReceiveKeeps(SetReceiver(s, r, s.receivers[r].(state := Unregistered)));
    }
  }

  lemma TrySendOffers<R, S, T>(s: State<R, S, T>, n: S, value: T)
    requires Inv(s) && NothingToReceive(s) && s.capacity > 0
    ensures NothingToReceive(TrySend(s, value).0) <==> !Offers(s, TrySendNow(n, value))
  {
    hide WellFormed, NoLostWakeup;
  }

  lemma PollSendOffers<R, S, T>(s: State<R, S, T>, n: S, waker: Waker)
    requires Inv(s) && NothingToReceive(s) && n in s.senders
    requires s.senders[n].state == SendUnregistered ==> s.senders[n].value.Some?
    ensures NothingToReceive(SendOrRegister(s, n, waker).0) <==> !Offers(s, PollSend(n, waker))
  {
    hide WellFormed, NoLostWakeup;
  }

  lemma PollReceiveOffersNothing<R, S, T>(s: State<R, S, T>, r: R, waker: Waker)
    requires Inv(s) && NothingToReceive(s) && r in s.receivers
    ensures NothingToReceive(ReceiveOrRegister(s, r, waker).0)
  {
    hide WellFormed, NoLostWakeup;
  }

  lemma TryReceiveOffersNothing<R, S, T>(s: State<R, S, T>)
    requires Inv(s) && NothingToReceive(s)
    ensures NothingToReceive(TryReceive(s).0)
  {
  }

  /** Whoever gives up takes at most queue entries away. */
  lemma GivingUpOffersNothing<R, S, T>(s: State<R, S, T>)
    requires Inv(s) && NothingToReceive(s)
    ensures forall r | r in s.receivers :: NothingToReceive(RemoveReceiveWaiter(s, r).0)
    ensures forall n | n in s.senders :: NothingToReceive(RemoveSendWaiter(s, n))
  {
    hide NoLostWakeup, Bounded;
  }

  lemma SendStepOffers<R, S, T>(w: World<R, S, T>, op: Op<R, S, T>)
    requires WorldInv(w) && NothingToReceive(w.s) && Enabled(w, op)
    requires op.TrySendNow? || op.PollSend? || op.CancelSend? || op.DropSend?
    ensures NothingToReceive(Step(w, op).s) <==> !Offers(w.s, op)
  {
    hide Inv, TrySend, SendOrRegister, RemoveSendWaiter;
    InvIsLinked(w.s);
    match op
    case TrySendNow(n, value) => TrySendOffers(w.s, n, value);
    case PollSend(n, waker) => PollSendOffers(w.s, n, waker);
    case CancelSend(n) => GivingUpOffersNothing(w.s);
    case DropSend(n) => GivingUpOffersNothing(w.s);
  }

  lemma ReceiveStepOffersNothing<R, S, T>(w: World<R, S, T>, op: Op<R, S, T>)
    requires WorldInv(w) && NothingToReceive(w.s) && Enabled(w, op)
    requires op.PollReceive? || op.TryReceiveNow? || op.DropReceive?
    ensures NothingToReceive(Step(w, op).s)
  {
    hide Inv, ReceiveOrRegister, TryReceive, RemoveReceiveWaiter;
    InvIsLinked(w.s);
    match op
    case PollReceive(r, waker) =>
      PollReceiveOffersNothing(w.s, r, waker);
      ReceiveOrRegisterKeepsInv(w.s, r, waker);
    case TryReceiveNow => TryReceiveOffersNothing(w.s);
    case DropReceive(r) => GivingUpOffersNothing(w.s);
  }

  /** A step leaves a receiver queued in front of a value if and only if it hands one to two queued receivers. */
  lemma StepOffers<R, S, T>(w: World<R, S, T>, op: Op<R, S, T>)
    requires WorldInv(w) && NothingToReceive(w.s)
    ensures NothingToReceive(Step(w, op).s) <==> !(Enabled(w, op) && Offers(w.s, op))
  {
    hide Step, Inv, NothingToReceive;
    if Enabled(w, op) {
      if op.TrySendNow? || op.PollSend? || op.CancelSend? || op.DropSend? {
        SendStepOffers(w, op);
      } else if op.PollReceive? || op.TryReceiveNow? || op.DropReceive? {
        ReceiveStepOffersNothing(w, op);
      } else {
        OtherStepOffersNothing(w, op);
      }
    } else {
      OtherStepOffersNothing(w, op);
    }
  }

  /** Creating futures, counting handles, closing and clearing put no value before a queued receiver. */
  lemma OtherStepOffersNothing<R, S, T>(w: World<R, S, T>, op: Op<R, S, T>)
    requires WorldInv(w) && NothingToReceive(w.s)
    requires Enabled(w, op) ==>
      && !op.TrySendNow? && !op.PollSend? && !op.CancelSend? && !op.DropSend?
      && !op.PollReceive? && !op.TryReceiveNow? && !op.DropReceive?
    ensures NothingToReceive(Step(w, op).s)
  {
    hide Inv, CloseCalls;
    InvIsLinked(w.s);
  }

  /** No step of the run offers a value to two queued receivers. */
  ghost predicate NeverOffers<R, S, T>(capacity: nat, ops: seq<Op<R, S, T>>) {
    forall k | 0 <= k < |ops| ::
      var w := Exec(capacity, ops[..k]); !(Enabled(w, ops[k]) && Offers(w.s, ops[k]))
  }

  lemma ExecPrefix<R, S, T>(capacity: nat, ops: seq<Op<R, S, T>>, k: nat)
    requires k < |ops|
    ensures Exec(capacity, ops[..k + 1]) == Step(Exec(capacity, ops[..k]), ops[k])
  {
    assert DropLast(ops[..k + 1]) == ops[..k];
  }

  /** Queued receivers have nothing to receive throughout a run if and only if no step of it makes such an offer. */
  lemma NothingToReceiveThroughout<R, S, T>(capacity: nat, ops: seq<Op<R, S, T>>)
    ensures NeverOffers(capacity, ops) <==> forall k | 0 <= k <= |ops| :: NothingToReceive(Exec(capacity, ops[..k]).s)
  {
    if NeverOffers(capacity, ops) {
      forall k | 0 <= k <= |ops|
        ensures NothingToReceive(Exec(capacity, ops[..k]).s)
      {
        NothingToReceiveSoFar(capacity, ops, k);
      }
    }
    if forall k | 0 <= k <= |ops| :: NothingToReceive(Exec(capacity, ops[..k]).s) {
      forall k | 0 <= k < |ops|
        ensures var w := Exec(capacity, ops[..k]); !(Enabled(w, ops[k]) && Offers(w.s, ops[k]))
      {
        ExecPrefix(capacity, ops, k);
        StepOffers(Exec(capacity, ops[..k]), ops[k]);
        assert NothingToReceive(Exec(capacity, ops[..k + 1]).s);
      }
    }
  }

  lemma {:induction false} NothingToReceiveSoFar<R, S, T>(capacity: nat, ops: seq<Op<R, S, T>>, k: nat)
    requires NeverOffers(capacity, ops) && k <= |ops|
    ensures NothingToReceive(Exec(capacity, ops[..k]).s)
  {
    hide Step, WorldInv;
    if k > 0 {
      NothingToReceiveSoFar(capacity, ops, k - 1);
      ExecPrefix(capacity, ops, k - 1);
      StepOffers(Exec(capacity, ops[..k - 1]), ops[k - 1]);
    }
  }

  // ---- A run with such an offer ----

  /** A receiver that finds an open channel empty joins the queue. */
  lemma ReceiverQueues<S, T>(capacity: nat, ops: seq<Op<nat, S, T>>, r: nat, waker: Waker)
    requires r !in Exec(capacity, ops).usedReceivers
    requires var s := Exec(capacity, ops).s; !s.isClosed && s.buffer == [] && s.sendWaiters == []
    ensures var w, w' := Exec(capacity, ops), Exec(capacity, ops + [Receive(r), PollReceive(r, waker)]);
      && w'.s == SetReceiver(w.s, r, RecvEntry(Some(waker), Registered)).(receiveWaiters := [r] + w.s.receiveWaiters)
      && w'.usedReceivers == w.usedReceivers + {r} && w'.submitted == w.submitted
  {
    hide Exec, Inv;
    var ops' := ops + [Receive(r)];
    ExecStep(capacity, ops, Receive(r));
    ExecStep(capacity, ops', PollReceive(r, waker));
    assert ops + [Receive(r), PollReceive(r, waker)] == ops' + [PollReceive(r, waker)];
    var w := Exec(capacity, ops);
    var e := RecvEntry(Some(waker), Registered);
    assert w.s.receivers[r := RecvEntry(None, Unregistered)][r := e] == w.s.receivers[r := e];
  }

  /**
   * A run after which a value is in the buffer, and yet a queued receiver that is polled goes on waiting: the value is
   * meant for the receiver that was notified.
   */
  lemma QueuedReceiverDespiteValue<T>(value: T, waker: Waker)
    ensures exists ops: seq<Op<nat, nat, T>> ::
      var s := Exec(1, ops).s;
      s.buffer == [value] && 1 in s.receivers && ReceiveOrRegister(s, 1, waker).1 == Pending
  {
    hide Exec, Inv;
    assert Exec<nat, nat, T>(1, []) == Start(1) by {
      ExecStart<T>();
    }
    var o1 := [] + [Receive(0), PollReceive(0, waker)];
    var o2 := o1 + [Receive(1), PollReceive(1, waker)];
    ReceiverQueues<nat, T>(1, [], 0, waker);
    ReceiverQueues<nat, T>(1, o1, 1, waker);
    ExecStep<nat, nat, T>(1, o2, TrySendNow(0, value));
    var s := Exec<nat, nat, T>(1, o2 + [TrySendNow(0, value)]).s;
    assert s.buffer == [value] && s.receivers[1].state == Registered;
  }

  lemma ExecStart<T>()
    ensures Exec<nat, nat, T>(1, []) == Start(1)
  {
  }
}
