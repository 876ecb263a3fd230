/** The channel is one queue of values, and no value is ever lost, duplicated or reordered in it. */
module MpmcFifo {
  import opened Collections
  import opened Histories
  import opened MpmcModel
  import opened MpmcInvariants
  import opened MpmcRuns

  /** The ids of the send futures that still have their value. */
  ghost function Held<R, S, T>(s: State<R, S, T>): set<S> {
    set n | n in s.senders && s.senders[n].value.Some?
  }

  /**
   * Every submitted value is in exactly one place: with its send future, in the buffer, received, handed back,
   * or dropped.
   */
  ghost predicate EachInOnePlace<R, S, T>(w: World<R, S, T>) {
    multiset(Held(w.s)) + multiset(w.owners) + multiset(w.received) + multiset(w.returned) + multiset(w.dropped)
      == multiset(w.submitted.Keys)
  }

  /** `values` are the values submitted under `ids`. */
  ghost predicate Carries<S, T>(submitted: map<S, T>, ids: seq<S>, values: seq<T>) {
    |ids| == |values| && forall i :: 0 <= i < |ids| ==> ids[i] in submitted && submitted[ids[i]] == values[i]
  }

  /** The bytes stay with the id: no operation mixes up whose value it moves. */
  ghost predicate ValuesMatch<R, S, T>(w: World<R, S, T>) {
    && Carries(w.submitted, w.owners, w.s.buffer)
    && Carries(w.submitted, w.received, w.delivered)
    && (forall n | n in w.s.senders ::
      n in w.submitted && (w.s.senders[n].value.Some? ==> w.s.senders[n].value.value == w.submitted[n]))
  }

  /**
   * The accepted values that were not taken back are the received ones, then the buffered ones, then those of the
   * queued senders from the oldest to the newest: first in, first out.
   */
  ghost predicate FirstInFirstOut<R, S, T>(w: World<R, S, T>) {
    Live(w.accepted, w.withdrawn) == w.received + w.owners + Reverse(w.s.sendWaiters)
  }

  /** A value that has yet to be accepted has not been taken back. */
  ghost predicate HistoryOk<R, S, T>(w: World<R, S, T>) {
    && w.withdrawn <= w.submitted.Keys
    && (forall n | n in w.accepted :: n in w.submitted)
    && (forall n | n in w.s.senders && w.s.senders[n].state == SendUnregistered && !w.s.isClosed :: n !in w.withdrawn)
  }

  ghost predicate Fifo<R, S, T>(w: World<R, S, T>) {
    EachInOnePlace(w) && ValuesMatch(w) && FirstInFirstOut(w) && HistoryOk(w)
  }

  // ---- Receiving ----

  lemma DeliverKeepsOrder<R, S, T>(w: World<R, S, T>, t: State<R, S, T>, value: T)
    requires Inv(w.s) && TookOldest(w.s, t, value) && |w.owners| == |w.s.buffer|
    requires FirstInFirstOut(w)
    ensures FirstInFirstOut(Deliver(w, value).(s := t))
  {
    if w.s.sendWaiters != [] {
      ReverseEnds(DropLast(w.s.sendWaiters), Last(w.s.sendWaiters));
      assert w.s.sendWaiters == DropLast(w.s.sendWaiters) + [Last(w.s.sendWaiters)];
    }
  }

  lemma DeliverKeepsPlaces<R, S, T>(w: World<R, S, T>, t: State<R, S, T>, value: T)
    requires Inv(w.s) && TookOldest(w.s, t, value) && |w.owners| == |w.s.buffer|
    requires EachInOnePlace(w)
    ensures EachInOnePlace(Deliver(w, value).(s := t))
  {
    var next := if w.s.sendWaiters == [] then [] else [Last(w.s.sendWaiters)];
    var line := w.owners + next;
    assert multiset(line) == multiset([line[0]] + line[1..]) by {
      assert line == [line[0]] + line[1..];
    }
    assert multiset(Held(w.s)) == multiset(Held(t)) + multiset(next) by {
      if w.s.sendWaiters != [] {
        var n := Last(w.s.sendWaiters);
        assert n in w.s.sendWaiters && n in Held(w.s);
        assert Held(t) == Held(w.s) - {n};
      } else {
        assert Held(t) == Held(w.s);
      }
    }
    var w' := Deliver(w, value).(s := t);
    assert multiset(w'.received) == multiset(w.received) + multiset{line[0]};
    assert multiset(w.owners) + multiset(next) == multiset{line[0]} + multiset(w'.owners);
    Regroup(multiset(Held(w.s)), multiset(Held(t)), multiset(w.owners), multiset(w'.owners),
      multiset(w.received), multiset(w'.received), multiset(next), multiset{line[0]});
  }

  /** Values moving on by one place each. */
  lemma Regroup<S>(h: multiset<S>, h': multiset<S>, o: multiset<S>, o': multiset<S>, r: multiset<S>, r': multiset<S>,
      n: multiset<S>, l: multiset<S>)
    requires h == h' + n && o + n == l + o' && r' == r + l
    ensures h' + o' + r' == h + o + r
  {
    assert (h' + o') + r' == h' + r + (l + o');
    assert h' + r + (o + n) == (h' + n) + o + r;
  }

  lemma DeliverKeepsValues<R, S, T>(w: World<R, S, T>, t: State<R, S, T>, value: T)
    requires Inv(w.s) && TookOldest(w.s, t, value)
    requires ValuesMatch(w)
    ensures ValuesMatch(Deliver(w, value).(s := t))
  {
    if w.s.sendWaiters != [] {
      var n := Last(w.s.sendWaiters);
      assert n in w.s.sendWaiters;
      var line := w.owners + [n];
      assert Carries(w.submitted, line, [value] + t.buffer);
      assert line[1..] == (w.owners + [n])[1..];
    }
  }

  // ---- Sending ----

  /** A value that is still with its future is nowhere else. */
  lemma HeldIsNowhereElse<R, S, T>(w: World<R, S, T>, n: S)
    requires EachInOnePlace(w) && n in Held(w.s)
    ensures n in w.submitted && n !in w.owners && n !in w.received && n !in w.returned && n !in w.dropped
  {
    var places :=
      multiset(Held(w.s)) + multiset(w.owners) + multiset(w.received) + multiset(w.returned) + multiset(w.dropped);
    assert multiset(Held(w.s))[n] == 1;
    assert multiset(w.submitted.Keys)[n] <= 1;
    assert places[n] == 1;
    assert n !in multiset(w.owners) && n !in multiset(w.received);
    assert n !in multiset(w.returned) && n !in multiset(w.dropped);
    assert n in multiset(w.submitted.Keys);
  }

  /** The value of `n` leaves its future and goes to one other place. */
  lemma MoveOn<R, S, T>(w: World<R, S, T>, w': World<R, S, T>, n: S)
    requires EachInOnePlace(w) && n in Held(w.s)
    requires Held(w'.s) == Held(w.s) - {n} && w'.submitted.Keys == w.submitted.Keys && w'.received == w.received
    requires
      || (w'.owners == w.owners + [n] && w'.returned == w.returned && w'.dropped == w.dropped)
      || (w'.owners == w.owners && w'.returned == w.returned + {n} && w'.dropped == w.dropped)
      || (w'.owners == w.owners && w'.returned == w.returned && w'.dropped == w.dropped + {n})
    ensures EachInOnePlace(w')
  {
    HeldIsNowhereElse(w, n);
    assert multiset(Held(w.s)) == multiset(Held(w'.s)) + multiset{n};
    assert multiset(w.owners + [n]) == multiset(w.owners) + multiset{n};
    assert multiset(w.returned + {n}) == multiset(w.returned) + multiset{n};
    assert multiset(w.dropped + {n}) == multiset(w.dropped) + multiset{n};
  }

  lemma PollSendKeepsPlaces<R, S, T>(w: World<R, S, T>, n: S, waker: Waker)
    requires WorldInv(w) && n in w.s.senders && EachInOnePlace(w)
    ensures EachInOnePlace(PollSendStep(w, n, waker))
  {
    hide SendOrRegister, WellFormed, NoLostWakeup;
    InvIsLinked(w.s);
    SendEffect(w.s, n, waker);
    SendOrRegisterKeepsInv(w.s, n, waker);
    var w' := PollSendStep(w, n, waker);
    if w.s.senders[n].state == SendUnregistered && SendOrRegister(w.s, n, waker).1.poll.Ready? {
      assert Held(w'.s) == Held(w.s) - {n};
      MoveOn(w, w', n);
    } else {
      assert Held(w'.s) == Held(w.s);
    }
  }

  lemma PollSendKeepsValues<R, S, T>(w: World<R, S, T>, n: S, waker: Waker)
    requires WorldInv(w) && n in w.s.senders && ValuesMatch(w)
    ensures ValuesMatch(PollSendStep(w, n, waker))
  {
    hide SendOrRegister, WellFormed, NoLostWakeup;
    InvIsLinked(w.s);
    SendEffect(w.s, n, waker);
    SendOrRegisterKeepsInv(w.s, n, waker);
  }

  lemma PollSendKeepsOrder<R, S, T>(w: World<R, S, T>, n: S, waker: Waker)
    requires WorldInv(w) && n in w.s.senders && FirstInFirstOut(w) && HistoryOk(w)
    ensures FirstInFirstOut(PollSendStep(w, n, waker)) && HistoryOk(PollSendStep(w, n, waker))
  {
    hide SendOrRegister, WellFormed, NoLostWakeup;
    InvIsLinked(w.s);
    SendEffect(w.s, n, waker);
    SendOrRegisterKeepsInv(w.s, n, waker);
    if w.s.senders[n].state == SendUnregistered && !w.s.isClosed {
      LiveAppend(w.accepted, w.withdrawn, n);
      ReverseEnds(w.s.sendWaiters, n);
    }
  }

  lemma TrySendKeepsPlaces<R, S, T>(w: World<R, S, T>, n: S, value: T)
    requires WorldInv(w) && EachInOnePlace(w) && Enabled(w, TrySendNow(n, value))
    ensures EachInOnePlace(Step(w, TrySendNow(n, value)))
  {
    hide TrySend, Inv;
    TrySendEffect(w.s, value);
    var w' := Step(w, TrySendNow(n, value));
    assert Held(w'.s) == Held(w.s);
    NewIdIsNowhere(w, n);
    assert multiset(w'.submitted.Keys) == multiset(w.submitted.Keys) + multiset{n};
    assert multiset(w.owners + [n]) == multiset(w.owners) + multiset{n};
    assert multiset(w.returned + {n}) == multiset(w.returned) + multiset{n};
  }

  lemma TrySendKeepsValues<R, S, T>(w: World<R, S, T>, n: S, value: T)
    requires WorldInv(w) && ValuesMatch(w) && Enabled(w, TrySendNow(n, value))
    ensures ValuesMatch(Step(w, TrySendNow(n, value)))
  {
    hide TrySend, Inv;
    TrySendEffect(w.s, value);
  }

  lemma TrySendKeepsOrder<R, S, T>(w: World<R, S, T>, n: S, value: T)
    requires WorldInv(w) && Enabled(w, TrySendNow(n, value)) && FirstInFirstOut(w) && HistoryOk(w)
    ensures FirstInFirstOut(Step(w, TrySendNow(n, value))) && HistoryOk(Step(w, TrySendNow(n, value)))
  {
    hide TrySend, WellFormed, NoLostWakeup, Live;
    InvIsLinked(w.s);
    TrySendEffect(w.s, value);
    if TrySend(w.s, value).1.Sent? {
      SendersQueueOnlyWhenFull(w.s);
      LiveAppend(w.accepted, w.withdrawn, n);
      assert w.received + w.owners + [] + [n] == w.received + (w.owners + [n]) + [];
    }
  }

  lemma NewIdIsNowhere<R, S, T>(w: World<R, S, T>, n: S)
    requires EachInOnePlace(w) && n !in w.submitted
    ensures n !in Held(w.s) && n !in w.owners && n !in w.received && n !in w.returned && n !in w.dropped
  {
    assert n !in multiset(w.submitted.Keys);
  }

  lemma NewSenderKeepsFifo<R, S, T>(w: World<R, S, T>, n: S, value: T)
    requires WorldInv(w) && Fifo(w) && n !in w.submitted
    ensures Fifo(Step(w, Send(n, value)))
  {
    hide EachInOnePlace, Inv, Live;
    NewSenderKeepsPlaces(w, n, value);
  }

  lemma NewSenderKeepsPlaces<R, S, T>(w: World<R, S, T>, n: S, value: T)
    requires WorldInv(w) && EachInOnePlace(w) && n !in w.submitted
    ensures EachInOnePlace(Step(w, Send(n, value)))
  {
    hide Inv;
    var w' := Step(w, Send(n, value));
    NewIdIsNowhere(w, n);
    assert Held(w'.s) == Held(w.s) + {n};
    assert multiset(Held(w'.s)) == multiset(Held(w.s)) + multiset{n};
    assert multiset(w'.submitted.Keys) == multiset(w.submitted.Keys) + multiset{n};
  }

  // ---- Taking values back ----

  /** Cancelling hands the value back, dropping the future drops it; either way it leaves the queue. */
  lemma RemoveSenderKeepsPlaces<R, S, T>(w: World<R, S, T>, op: Op<R, S, T>, n: S)
    requires WorldInv(w) && EachInOnePlace(w) && n in w.s.senders
    requires op == CancelSend(n) || op == DropSend(n)
    ensures EachInOnePlace(Step(w, op))
  {
    hide Inv;
    var w' := Step(w, op);
    RemoveSendWaiterKeepsInv(w.s, n);
    assert Held(w'.s) == Held(w.s) - {n};
    if w.s.senders[n].value.Some? {
      MoveOn(w, w', n);
    }
  }

  lemma RemoveSenderKeepsValues<R, S, T>(w: World<R, S, T>, op: Op<R, S, T>, n: S)
    requires WorldInv(w) && ValuesMatch(w) && n in w.s.senders
    requires op == CancelSend(n) || op == DropSend(n)
    ensures ValuesMatch(Step(w, op))
  {
  }

  lemma RemoveSenderKeepsOrder<R, S, T>(w: World<R, S, T>, op: Op<R, S, T>, n: S)
    requires WorldInv(w) && FirstInFirstOut(w) && HistoryOk(w) && n in w.s.senders && n in w.submitted
    requires n in w.s.sendWaiters ==> n !in w.received && n !in w.owners
    requires op == CancelSend(n) || op == DropSend(n)
    ensures FirstInFirstOut(Step(w, op)) && HistoryOk(Step(w, op))
  {
    StateTellsQueued(w.s, n);
    if n in w.s.sendWaiters {
      LiveAfterCancel(w.accepted, w.withdrawn, n);
      WithoutAppend(w.received + w.owners, Reverse(w.s.sendWaiters), n);
      WithoutAppend(w.received, w.owners, n);
      ReverseWithout(w.s.sendWaiters, n);
    }
  }

  /** Closing takes all queued values out of the queue and leaves the buffered ones in it. */
  lemma CloseKeepsOrder<R, S, T>(w: World<R, S, T>)
    requires WorldInv(w) && FirstInFirstOut(w) && HistoryOk(w) && SetOf(w.s.sendWaiters) <= w.submitted.Keys
    requires forall n | n in w.s.sendWaiters :: n !in w.received && n !in w.owners
    ensures FirstInFirstOut(CloseWorld(w)) && HistoryOk(CloseWorld(w))
  {
    var gone := SetOf(w.s.sendWaiters);
    LiveAfterCancelAll(w.accepted, w.withdrawn, gone);
    LiveConcat(w.received + w.owners, Reverse(w.s.sendWaiters), gone);
    LiveUntouched(w.received + w.owners, gone);
    ReverseMembers(w.s.sendWaiters);
    LiveAllGone(Reverse(w.s.sendWaiters), gone);
  }

  lemma CloseKeepsPlaces<R, S, T>(w: World<R, S, T>)
    requires WorldInv(w) && EachInOnePlace(w) && ValuesMatch(w)
    ensures EachInOnePlace(CloseWorld(w)) && ValuesMatch(CloseWorld(w))
  {
    assert Held(CloseWorld(w).s) == Held(w.s);
  }

  /** The last receiver takes everything with it that is still buffered. */
  lemma ClearKeepsPlaces<R, S, T>(w: World<R, S, T>)
    requires WorldInv(w) && EachInOnePlace(w) && ValuesMatch(w) && w.clearing
    ensures EachInOnePlace(Step(w, ClearChannel)) && ValuesMatch(Step(w, ClearChannel))
  {
    var w' := Step(w, ClearChannel);
    OwnersAreDistinct(w);
    assert Held(w'.s) == Held(w.s);
    assert multiset(w.dropped + SetOf(w.owners)) == multiset(w.dropped) + multiset(w.owners);
  }

  lemma ClearKeepsOrder<R, S, T>(w: World<R, S, T>)
    requires WorldInv(w) && FirstInFirstOut(w) && HistoryOk(w) && w.clearing
    requires forall n | n in w.owners :: n !in w.received && n in w.submitted
    ensures FirstInFirstOut(Step(w, ClearChannel)) && HistoryOk(Step(w, ClearChannel))
  {
    hide Inv, Live;
    SendersQueueOnlyWhenFull(w.s);
    assert w.received + w.owners + [] == w.received + w.owners;
    var gone := SetOf(w.owners);
    LiveAfterCancelAll(w.accepted, w.withdrawn, gone);
    LiveConcat(w.received, w.owners, gone);
    LiveUntouched(w.received, gone);
    LiveAllGone(w.owners, gone);
  }

  lemma OwnersAreDistinct<R, S, T>(w: World<R, S, T>)
    requires EachInOnePlace(w)
    ensures multiset(w.owners) == multiset(SetOf(w.owners))
    ensures forall n | n in w.owners :: n !in w.received && n !in w.dropped && n in w.submitted
  {
    var places :=
      multiset(Held(w.s)) + multiset(w.owners) + multiset(w.received) + multiset(w.returned) + multiset(w.dropped);
    forall n
      ensures multiset(w.owners)[n] == multiset(SetOf(w.owners))[n]
      ensures n in w.owners ==> n !in w.received && n !in w.dropped && n in w.submitted
    {
      assert multiset(w.submitted.Keys)[n] <= 1;
      assert places[n] <= 1;
      if n in w.owners {
        assert n in multiset(w.owners) && n in SetOf(w.owners);
        assert n !in multiset(w.received) && n !in multiset(w.dropped);
        assert n in multiset(w.submitted.Keys);
      } else {
        assert n !in multiset(w.owners) && n !in SetOf(w.owners);
      }
    }
  }

  // ---- Runs ----

  lemma ReceiveKeepsFifo<R, S, T>(w: World<R, S, T>, t: State<R, S, T>, value: T)
    requires WorldInv(w) && Fifo(w) && TookOldest(w.s, t, value)
    ensures Fifo(Deliver(w, value).(s := t))
  {
    hide EachInOnePlace, ValuesMatch, FirstInFirstOut, NoLostWakeup;
    DeliverKeepsOrder(w, t, value);
    DeliverKeepsPlaces(w, t, value);
    DeliverKeepsValues(w, t, value);
  }

  /** The queue does not care about receivers, tasks or wake-up calls. */
  lemma FifoIgnores<R, S, T>(w: World<R, S, T>, w': World<R, S, T>)
    requires Fifo(w)
    requires SameValues(w.s, w'.s) && w'.s.senders == w.s.senders
    requires w'.submitted == w.submitted && w'.owners == w.owners
    requires w'.accepted == w.accepted && w'.withdrawn == w.withdrawn
    requires w'.received == w.received && w'.delivered == w.delivered
    requires w'.returned == w.returned && w'.dropped == w.dropped
    ensures Fifo(w')
  {
    assert Held(w'.s) == Held(w.s);
  }

  lemma PollReceiveKeepsFifo<R, S, T>(w: World<R, S, T>, r: R, waker: Waker)
    requires WorldInv(w) && Fifo(w) && r in w.s.receivers
    ensures Fifo(PollReceiveStep(w, r, waker))
  {
    hide ReceiveOrRegister, WellFormed, NoLostWakeup, Fifo;
    InvIsLinked(w.s);
    var (t, p) := ReceiveOrRegister(w.s, r, waker);
    ReceiveEffect(w.s, r, waker);
    var w' := PollReceiveStep(w, r, waker);
    if p.Ready? && p.value.Some? {
      var v := p.value.value.0;
      ReceiveKeepsFifo(w, t, v);
      FifoIgnores(Deliver(w, v).(s := t), w');
    } else {
      FifoIgnores(w, w');
    }
  }

  lemma TryReceiveKeepsFifo<R, S, T>(w: World<R, S, T>)
    requires WorldInv(w) && Fifo(w)
    ensures Fifo(Step(w, TryReceiveNow))
  {
    hide TryReceive, WellFormed, NoLostWakeup, Fifo;
    InvIsLinked(w.s);
    TryReceiveEffect(w.s);
    var (t, result) := TryReceive(w.s);
    if result.Received? {
      ReceiveKeepsFifo(w, t, result.value);
      FifoIgnores(Deliver(w, result.value).(s := t), Step(w, TryReceiveNow));
    }
  }

  lemma DropReceiverKeepsFifo<R, S, T>(w: World<R, S, T>, r: R)
    requires WorldInv(w) && Fifo(w) && r in w.s.receivers
    ensures Fifo(Step(w, DropReceive(r)))
  {
    hide Fifo, NoLostWakeup, Bounded;
    FifoIgnores(w, Step(w, DropReceive(r)));
  }

  lemma QueuedIsHeld<R, S, T>(w: World<R, S, T>)
    requires WorldInv(w) && EachInOnePlace(w)
    ensures forall n | n in w.s.sendWaiters :: n in w.submitted && n !in w.received && n !in w.owners
  {
    forall n | n in w.s.sendWaiters
      ensures n in w.submitted && n !in w.received && n !in w.owners
    {
      assert n in Held(w.s);
      HeldIsNowhereElse(w, n);
    }
  }

  lemma CloseKeepsFifo<R, S, T>(w: World<R, S, T>)
    requires WorldInv(w) && Fifo(w)
    ensures Fifo(CloseWorld(w))
  {
    hide EachInOnePlace, ValuesMatch, FirstInFirstOut, HistoryOk, Inv;
    QueuedIsHeld(w);
    CloseKeepsOrder(w);
    CloseKeepsPlaces(w);
  }

  lemma StepKeepsFifo<R, S, T>(w: World<R, S, T>, op: Op<R, S, T>)
    requires WorldInv(w) && Fifo(w)
    ensures Fifo(Step(w, op))
  {
    hide EachInOnePlace, ValuesMatch, FirstInFirstOut, HistoryOk, Inv;
    if Enabled(w, op) {
      match op
      case Send(n, value) => NewSenderKeepsFifo(w, n, value);
      case PollSend(n, waker) =>
        PollSendKeepsPlaces(w, n, waker);
        PollSendKeepsValues(w, n, waker);
        PollSendKeepsOrder(w, n, waker);
      case CancelSend(n) => RemoveSenderKeepsFifo(w, op, n);
      case DropSend(n) => RemoveSenderKeepsFifo(w, op, n);
      case TrySendNow(n, value) =>
        TrySendKeepsPlaces(w, n, value);
        TrySendKeepsValues(w, n, value);
        TrySendKeepsOrder(w, n, value);
      case Receive(r) => FifoIgnores(w, Step(w, op));
      case PollReceive(r, waker) => PollReceiveKeepsFifo(w, r, waker);
      case DropReceive(r) => DropReceiverKeepsFifo(w, r);
      case TryReceiveNow => TryReceiveKeepsFifo(w);
      case CloseChannel => CloseKeepsFifo(w);
      case CloneSender => FifoIgnores(w, Step(w, op));
      case DropSender => DropHandleKeepsFifo(w, op);
      case CloneReceiver => FifoIgnores(w, Step(w, op));
      case DropReceiver => DropHandleKeepsFifo(w, op);
      case ClearChannel => ClearKeepsFifo(w);
    }
  }

  lemma RemoveSenderKeepsFifo<R, S, T>(w: World<R, S, T>, op: Op<R, S, T>, n: S)
    requires WorldInv(w) && Fifo(w) && n in w.s.senders
    requires op == CancelSend(n) || op == DropSend(n)
    ensures Fifo(Step(w, op))
  {
    hide EachInOnePlace, ValuesMatch, FirstInFirstOut, HistoryOk, Inv, Step;
    QueuedIsHeld(w);
    RemoveSenderKeepsPlaces(w, op, n);
    RemoveSenderKeepsValues(w, op, n);
    RemoveSenderKeepsOrder(w, op, n);
  }

  lemma ClearKeepsFifo<R, S, T>(w: World<R, S, T>)
    requires WorldInv(w) && Fifo(w) && w.clearing
    ensures Fifo(Step(w, ClearChannel))
  {
    hide EachInOnePlace, ValuesMatch, FirstInFirstOut, HistoryOk, Inv, Step;
    OwnersAreDistinct(w);
    ClearKeepsPlaces(w);
    ClearKeepsOrder(w);
  }

  lemma DropHandleKeepsFifo<R, S, T>(w: World<R, S, T>, op: Op<R, S, T>)
    requires WorldInv(w) && Fifo(w) && Enabled(w, op)
    requires op.DropSender? || op.DropReceiver?
    ensures Fifo(Step(w, op))
  {
    hide Fifo, Inv;
    InvIsLinked(w.s);
    CloseKeepsFifo(w);
    var w' := Step(w, op);
    var closes := if op.DropSender? then w.senderHandles == 1 else w.receiverHandles == 1;
    FifoIgnores(if closes then CloseWorld(w) else w, w');
  }

  /** The value that an operation hands back: to whoever cancels, or whose value the channel refuses. */
  ghost function HandedBack<R, S, T>(s: State<R, S, T>, op: Op<R, S, T>): set<S> {
    match op
    case CancelSend(n) => if n in s.senders && s.senders[n].value.Some? then {n} else {}
    case PollSend(n, _) => if n in s.senders && s.senders[n].state == SendUnregistered && s.isClosed then {n} else {}
    case TrySendNow(n, _) => if s.isClosed || |s.buffer| >= s.capacity then {n} else {}
    case _ => {}
  }

  /** A value is handed back exactly in these cases, and dropped exactly with its unsent future or by clearing. */
  lemma OnlyUnsentValuesComeBack<R, S, T>(w: World<R, S, T>, op: Op<R, S, T>)
    requires WorldInv(w) && Enabled(w, op)
    ensures Step(w, op).returned == w.returned + HandedBack(w.s, op)
    ensures Step(w, op).dropped == w.dropped + (
      if op.ClearChannel? then SetOf(w.owners)
      else if op.DropSend? && w.s.senders[op.n].value.Some? then {op.n}
      else {})
  {
    hide Inv, SendOrRegister, ReceiveOrRegister, RemoveReceiveWaiter, TryReceive, TrySend;
    InvIsLinked(w.s);
    match op
    case PollSend(n, waker) => SendEffect(w.s, n, waker);
    case TrySendNow(n, value) =>
      TrySendEffect(w.s, value);
      BufferIsBounded(w.s);
      var result := TrySend(w.s, value).1;
      assert result.Sent? <==> !w.s.isClosed && |w.s.buffer| < w.s.capacity;
      assert Step(w, op).returned == if result.Sent? then w.returned else w.returned + {n};
    case _ =>
  }

  lemma BufferIsBounded<R, S, T>(s: State<R, S, T>)
    requires Inv(s)
    ensures |s.buffer| <= s.capacity
  {
  }

  /** In every run, values come out in the order in which they went in, unchanged, and each is in exactly one place. */
  lemma {:induction false} RunKeepsFifo<R, S, T>(capacity: nat, ops: seq<Op<R, S, T>>)
    ensures Fifo(Exec(capacity, ops))
  {
    if ops != [] {
      RunKeepsFifo(capacity, DropLast(ops));
      StepKeepsFifo(Exec(capacity, DropLast(ops)), Last(ops));
    }
  }
}
