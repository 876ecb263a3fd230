/** What every operation of the channel keeps. */
module MpmcInvariants {
  import opened Collections
  import opened MpmcModel

  ghost predicate WellFormed<R, S, T>(s: State<R, S, T>) {
    && NoDup(s.receiveWaiters) && NoDup(s.sendWaiters)
    && Linked(s)
    && (forall r | r in s.receivers :: r in s.receiveWaiters <==> s.receivers[r].state == Registered)
    && (forall n | n in s.senders :: n in s.sendWaiters <==> s.senders[n].state == SendRegistered)
    && (forall r | r in s.receivers && s.receivers[r].state == Registered :: s.receivers[r].task.Some?)
    && (forall n | n in s.senders && s.senders[n].state == SendRegistered :: s.senders[n].task.Some?)
    && (forall n | n in s.senders && s.senders[n].state == SendComplete :: s.senders[n].value == None)
  }

  /** Senders queue only at an open channel that is full, and nobody queues at a closed one. */
  ghost predicate Bounded<R, S, T>(s: State<R, S, T>) {
    && |s.buffer| <= s.capacity
    && (s.sendWaiters != [] ==> !s.isClosed && |s.buffer| == s.capacity)
    && (s.isClosed ==> s.receiveWaiters == [])
  }

  ghost function NotifiedReceivers<R, S, T>(s: State<R, S, T>): set<R> {
    set r | r in s.receivers && s.receivers[r].state == Notified
  }

  /** While a receiver queues, there are at least as many notified receive futures as values to be received. */
  ghost predicate NoLostWakeup<R, S, T>(s: State<R, S, T>) {
    s.receiveWaiters != [] ==> |s.buffer| + |s.sendWaiters| <= |NotifiedReceivers(s)|
  }

  ghost predicate Inv<R, S, T>(s: State<R, S, T>) {
    WellFormed(s) && Bounded(s) && NoLostWakeup(s)
  }

  /** One value more is accounted for by one receiver more. */
  lemma ReturnOldestReceiverKeeps<R, S, T>(s: State<R, S, T>)
    requires WellFormed(s) && Bounded(s)
    requires s.receiveWaiters != [] ==> |s.buffer| + |s.sendWaiters| <= |NotifiedReceivers(s)| + 1
    ensures Inv(ReturnOldestReceiver(s).0)
    ensures ReturnOldestReceiver(s).0 == s.(
      receivers := ReturnOldestReceiver(s).0.receivers, receiveWaiters := ReturnOldestReceiver(s).0.receiveWaiters)
    ensures ReturnOldestReceiver(s).0.receivers.Keys == s.receivers.Keys
    ensures forall r | r in s.receivers && s.receivers[r].state == Unregistered ::
      r !in s.receiveWaiters && ReturnOldestReceiver(s).0.receivers[r] == s.receivers[r]
  {
    if s.receiveWaiters != [] {
      InDropLast(s.receiveWaiters);
      var r := Last(s.receiveWaiters);
      assert r in s.receiveWaiters;
      assert NotifiedReceivers(ReturnOldestReceiver(s).0) == NotifiedReceivers(s) + {r};
    }
  }

  lemma CloseKeepsInv<R, S, T>(s: State<R, S, T>)
    requires Inv(s)
    ensures Inv(Close(s).0)
    ensures Close(s).0.receivers.Keys == s.receivers.Keys && Close(s).0.senders.Keys == s.senders.Keys
  {
  }

  lemma TrySendKeepsInv<R, S, T>(s: State<R, S, T>, value: T)
    requires Inv(s)
    ensures Inv(TrySend(s, value).0)
    ensures TrySend(s, value).0.receivers.Keys == s.receivers.Keys && TrySend(s, value).0.senders == s.senders
  {
    if !s.isClosed && |s.buffer| < s.capacity {
      var t := s.(buffer := s.buffer + [value]);
      assert NotifiedReceivers(t) == NotifiedReceivers(s);
      ReturnOldestReceiverKeeps(t);
    }
  }

  lemma SendOrRegisterKeepsInv<R, S, T>(s: State<R, S, T>, n: S, waker: Waker)
    requires Inv(s) && n in s.senders
    requires s.senders[n].state == SendUnregistered ==> s.senders[n].value.Some?
    ensures Inv(SendOrRegister(s, n, waker).0)
    ensures SendOrRegister(s, n, waker).0.receivers.Keys == s.receivers.Keys
    ensures SendOrRegister(s, n, waker).0.senders.Keys == s.senders.Keys
    ensures forall m | m in s.senders && m != n :: SendOrRegister(s, n, waker).0.senders[m] == s.senders[m]
    ensures SendOrRegister(s, n, waker).1.poll != Panicked
    ensures var (t, p) := SendOrRegister(s, n, waker); p.poll.Ready? <==> t.senders[n].state != SendRegistered
    ensures SendOrRegister(s, n, waker).1.poll.Ready? ==> SendOrRegister(s, n, waker).0.senders[n].value == None
    ensures SendOrRegister(s, n, waker).0.capacity == s.capacity && SendOrRegister(s, n, waker).0.isClosed == s.isClosed
  {
    var e := s.senders[n];
    if e.state == SendUnregistered && !s.isClosed {
      assert n !in s.sendWaiters;
      if |s.buffer| == s.capacity {
        var t := SetSender(s, n, e.(task := Some(waker), state := SendRegistered)).(sendWaiters := [n] + s.sendWaiters);
        assert forall m :: m in t.sendWaiters <==> m == n || m in s.sendWaiters;
        assert NotifiedReceivers(t) == NotifiedReceivers(s);
        ReturnOldestReceiverKeeps(t);
      } else {
        var t := SetSender(s, n, e.(value := None)).(buffer := s.buffer + [e.value.value]);
        assert NotifiedReceivers(t) == NotifiedReceivers(s);
        ReturnOldestReceiverKeeps(t);
      }
    } else {
      assert NotifiedReceivers(SendOrRegister(s, n, waker).0) == NotifiedReceivers(s);
    }
  }

  /** Receiving takes one value, whoever receives it. */
  lemma TryReceiveKeeps<R, S, T>(s: State<R, S, T>)
    requires WellFormed(s) && Bounded(s)
    ensures var r := TryReceive(s).0;
      && WellFormed(r) && Bounded(r)
      && r.receivers == s.receivers && r.receiveWaiters == s.receiveWaiters
      && r.senders.Keys == s.senders.Keys && r.capacity == s.capacity && r.isClosed == s.isClosed
      && |r.buffer| + |r.sendWaiters| == |s.buffer| + |s.sendWaiters| - (if TryReceive(s).1.Received? then 1 else 0)
    ensures TryReceive(s).1.Received? <==> |s.buffer| + |s.sendWaiters| > 0
    ensures TryReceive(s).1.ReceiveEmpty? ==> !s.isClosed
  {
    if s.sendWaiters != [] {
      InDropLast(s.sendWaiters);
      assert Last(s.sendWaiters) in s.sendWaiters;
    }
  }

  lemma ReceiveOrRegisterKeepsInv<R, S, T>(s: State<R, S, T>, r: R, waker: Waker)
    requires Inv(s) && r in s.receivers
    ensures Inv(ReceiveOrRegister(s, r, waker).0)
    ensures ReceiveOrRegister(s, r, waker).0.receivers.Keys == s.receivers.Keys
    ensures ReceiveOrRegister(s, r, waker).0.senders.Keys == s.senders.Keys
    ensures ReceiveOrRegister(s, r, waker).1 != Panicked
    ensures var (t, p) := ReceiveOrRegister(s, r, waker); p.Ready? ==> t.receivers[r].state == Unregistered
    ensures ReceiveOrRegister(s, r, waker).0.capacity == s.capacity
    ensures ReceiveOrRegister(s, r, waker).0.isClosed == s.isClosed
  {
    if s.receivers[r].state == Registered {
      assert NotifiedReceivers(ReceiveOrRegister(s, r, waker).0) == NotifiedReceivers(s);
    } else {
      ReceiveNowKeepsInv(s, r, waker);
    }
  }

  /** A receiver that is not queued first gives its notification back, if it has one. */
  lemma UnregisterKeeps<R, S, T>(s: State<R, S, T>, r: R)
    requires Inv(s) && r in s.receivers && s.receivers[r].state != Registered
    ensures r !in s.receiveWaiters
    ensures var t := SetReceiver(s, r, s.receivers[r].(state := Unregistered));
      && WellFormed(t) && Bounded(t)
      && (s.receiveWaiters != [] ==> |s.buffer| + |s.sendWaiters| <= |NotifiedReceivers(t)| + 1)
  {
    var t := SetReceiver(s, r, s.receivers[r].(state := Unregistered));
    assert NotifiedReceivers(t) == NotifiedReceivers(s) - {r};
  }

  lemma ReceiveNowKeepsInv<R, S, T>(s: State<R, S, T>, r: R, waker: Waker)
    requires Inv(s) && Linked(s) && r in s.receivers && s.receivers[r].state != Registered
    ensures Inv(ReceiveOrRegister(s, r, waker).0)
    ensures ReceiveOrRegister(s, r, waker).0.receivers.Keys == s.receivers.Keys
    ensures ReceiveOrRegister(s, r, waker).0.senders.Keys == s.senders.Keys
    ensures ReceiveOrRegister(s, r, waker).1 != Panicked
    ensures var (t, p) := ReceiveOrRegister(s, r, waker); p.Ready? ==> t.receivers[r].state == Unregistered
    ensures ReceiveOrRegister(s, r, waker).0.capacity == s.capacity
    ensures ReceiveOrRegister(s, r, waker).0.isClosed == s.isClosed
  {
    hide TryReceive, WellFormed, Bounded;
    var t := SetReceiver(s, r, s.receivers[r].(state := Unregistered));
    UnregisterKeeps(s, r);
    TryReceiveKeeps(t);
    assert NotifiedReceivers(TryReceive(t).0) == NotifiedReceivers(t);
    if TryReceive(t).1.ReceiveEmpty? {
      EnqueueReceiverKeepsInv(TryReceive(t).0, r, waker);
    }
  }

  /** A receiver queues up only when there is nothing to receive. */
  lemma EnqueueReceiverKeepsInv<R, S, T>(s: State<R, S, T>, r: R, waker: Waker)
    requires WellFormed(s) && Bounded(s) && !s.isClosed
    requires |s.buffer| + |s.sendWaiters| == 0
    requires r in s.receivers && r !in s.receiveWaiters
    ensures Inv(SetReceiver(s, r, RecvEntry(Some(waker), Registered)).(receiveWaiters := [r] + s.receiveWaiters))
  {
    assert forall m :: m in [r] + s.receiveWaiters <==> m == r || m in s.receiveWaiters;
  }

  lemma TryReceiveKeepsInv<R, S, T>(s: State<R, S, T>)
    requires Inv(s)
    ensures Inv(TryReceive(s).0)
  {
    TryReceiveKeeps(s);
  }

  lemma RemoveSendWaiterKeepsInv<R, S, T>(s: State<R, S, T>, n: S)
    requires Inv(s) && n in s.senders
    ensures Inv(RemoveSendWaiter(s, n))
    ensures RemoveSendWaiter(s, n).senders.Keys == s.senders.Keys && n !in RemoveSendWaiter(s, n).sendWaiters
    ensures RemoveSendWaiter(s, n).senders[n].value == s.senders[n].value
  {
    WithoutMembers(s.sendWaiters, n);
    WithoutNoDup(s.sendWaiters, n);
    assert NotifiedReceivers(RemoveSendWaiter(s, n)) == NotifiedReceivers(s);
  }

  lemma RemoveReceiveWaiterKeepsInv<R, S, T>(s: State<R, S, T>, r: R)
    requires Inv(s) && r in s.receivers
    ensures Inv(RemoveReceiveWaiter(s, r).0)
    ensures RemoveReceiveWaiter(s, r).0.receivers.Keys == s.receivers.Keys
    ensures RemoveReceiveWaiter(s, r).0.senders == s.senders
    ensures RemoveReceiveWaiter(s, r).0.receivers[r].state == Unregistered
    ensures r !in RemoveReceiveWaiter(s, r).0.receiveWaiters
  {
    var t := SetReceiver(s, r, s.receivers[r].(state := Unregistered));
    match s.receivers[r].state
    case Registered =>
      WithoutMembers(s.receiveWaiters, r);
      WithoutNoDup(s.receiveWaiters, r);
      assert NotifiedReceivers(RemoveReceiveWaiter(s, r).0) == NotifiedReceivers(s);
    case Notified =>
      assert NotifiedReceivers(t) == NotifiedReceivers(s) - {r};
      ReturnOldestReceiverKeeps(t);
    case Unregistered =>
  }

  lemma ClearKeepsInv<R, S, T>(s: State<R, S, T>)
    requires Inv(s) && s.isClosed
    ensures Inv(Clear(s))
  {
  }

  lemma InvIsLinked<R, S, T>(s: State<R, S, T>)
    requires Inv(s)
    ensures Linked(s)
  {
  }

  lemma SendersQueueOnlyWhenFull<R, S, T>(s: State<R, S, T>)
    requires Inv(s) && (s.isClosed || |s.buffer| < s.capacity)
    ensures s.sendWaiters == []
  {
  }

  /** Where a future stands can be told from its state. */
  lemma StateTellsQueued<R, S, T>(s: State<R, S, T>, n: S)
    requires Inv(s) && n in s.senders
    ensures n in s.sendWaiters <==> s.senders[n].state == SendRegistered
  {
  }

  lemma UnregisteredIsNotQueued<R, S, T>(s: State<R, S, T>, r: R)
    requires Inv(s) && r in s.receivers
    ensures r in s.receiveWaiters <==> s.receivers[r].state == Registered
  {
  }

  // ---- Attaching and detaching futures ----

  lemma NewSenderKeepsInv<R, S, T>(s: State<R, S, T>, n: S, value: T)
    requires Inv(s) && n !in s.senders
    ensures Inv(SetSender(s, n, SendEntry(None, SendUnregistered, Some(value))))
  {
    assert n !in s.sendWaiters;
    assert NotifiedReceivers(SetSender(s, n, SendEntry(None, SendUnregistered, Some(value)))) == NotifiedReceivers(s);
  }

  lemma NewReceiverKeepsInv<R, S, T>(s: State<R, S, T>, r: R)
    requires Inv(s) && r !in s.receivers
    ensures Inv(SetReceiver(s, r, RecvEntry(None, Unregistered)))
  {
    assert r !in s.receiveWaiters;
    assert NotifiedReceivers(SetReceiver(s, r, RecvEntry(None, Unregistered))) == NotifiedReceivers(s);
  }

  ghost function ForgetSender<R, S, T>(s: State<R, S, T>, n: S): State<R, S, T> {
    s.(senders := s.senders - {n})
  }

  ghost function ForgetReceiver<R, S, T>(s: State<R, S, T>, r: R): State<R, S, T> {
    s.(receivers := s.receivers - {r})
  }

  lemma ForgetSenderKeepsInv<R, S, T>(s: State<R, S, T>, n: S)
    requires Inv(s) && n !in s.sendWaiters
    ensures Inv(ForgetSender(s, n))
  {
    assert NotifiedReceivers(ForgetSender(s, n)) == NotifiedReceivers(s);
  }

  lemma ForgetReceiverKeepsInv<R, S, T>(s: State<R, S, T>, r: R)
    requires Inv(s) && r !in s.receiveWaiters && (r in s.receivers ==> s.receivers[r].state == Unregistered)
    ensures Inv(ForgetReceiver(s, r))
  {
    assert NotifiedReceivers(ForgetReceiver(s, r)) == NotifiedReceivers(s);
  }

  // ---- What sending and receiving do to the values in the channel ----

  /** The buffer and the queued senders are as before. */
  ghost predicate SameValues<R, S, T>(s: State<R, S, T>, t: State<R, S, T>) {
    t.buffer == s.buffer && t.sendWaiters == s.sendWaiters && t.capacity == s.capacity && t.isClosed == s.isClosed
  }

  /** `value` was the oldest one, and the oldest queued sender has moved up into the space it left. */
  ghost predicate TookOldest<R, S, T>(s: State<R, S, T>, t: State<R, S, T>, value: T)
    requires Linked(s)
  {
    && t.capacity == s.capacity && t.isClosed == s.isClosed
    && (s.buffer != [] || s.sendWaiters != [])
    && (s.sendWaiters == [] ==>
      t.buffer == s.buffer[1..] && value == s.buffer[0] && t.sendWaiters == [] && t.senders == s.senders)
    && (s.sendWaiters != [] ==>
      var n := Last(s.sendWaiters);
      && [value] + t.buffer == s.buffer + [s.senders[n].value.value]
      && t.sendWaiters == DropLast(s.sendWaiters)
      && t.senders == s.senders[n := SendEntry(None, SendComplete, None)])
  }

  lemma TryReceiveEffect<R, S, T>(s: State<R, S, T>)
    requires Inv(s)
    ensures var (t, result) := TryReceive(s);
      if result.Received? then TookOldest(s, t, result.value)
      else t == s && s.buffer == [] && s.sendWaiters == [] && (result.ReceiveClosed? <==> s.isClosed)
  {
    if s.sendWaiters != [] {
      assert Last(s.sendWaiters) in s.sendWaiters;
    }
  }

  lemma ReceiveEffect<R, S, T>(s: State<R, S, T>, r: R, waker: Waker)
    requires Inv(s) && r in s.receivers
    ensures var (t, p) := ReceiveOrRegister(s, r, waker);
      if p.Ready? && p.value.Some? then TookOldest(s, t, p.value.value.0)
      else SameValues(s, t) && t.senders == s.senders && (p.Ready? ==> s.isClosed && s.buffer == [])
  {
    if s.receivers[r].state != Registered {
      var t := SetReceiver(s, r, s.receivers[r].(state := Unregistered));
      if s.sendWaiters != [] {
        assert Last(s.sendWaiters) in s.sendWaiters;
      }
      assert t.buffer == s.buffer && t.sendWaiters == s.sendWaiters && t.senders == s.senders;
    }
  }

  lemma TrySendEffect<R, S, T>(s: State<R, S, T>, value: T)
    requires Inv(s)
    ensures var (t, result) := TrySend(s, value);
      && t.senders == s.senders && t.sendWaiters == s.sendWaiters
      && t.capacity == s.capacity && t.isClosed == s.isClosed
      && (result.SendClosed? <==> s.isClosed)
      && (result.SendFull? <==> !s.isClosed && |s.buffer| == s.capacity)
      && (if result.Sent? then t.buffer == s.buffer + [value] else t == s && result.value == value)
  {
  }

  lemma SendEffect<R, S, T>(s: State<R, S, T>, n: S, waker: Waker)
    requires Inv(s) && n in s.senders
    requires s.senders[n].state == SendUnregistered ==> s.senders[n].value.Some?
    ensures var (t, p) := SendOrRegister(s, n, waker); var e := s.senders[n];
      && t.capacity == s.capacity && t.isClosed == s.isClosed
      && (p.value.Some? <==> e.state == SendUnregistered && s.isClosed)
      && (e.state != SendUnregistered ==> (p.poll.Ready? <==> e.state == SendComplete))
      && (e.state != SendUnregistered || s.isClosed ==> SameValues(s, t))
      && (e.state == SendUnregistered && !s.isClosed && |s.buffer| == s.capacity ==>
        p.poll.Pending? && t.buffer == s.buffer && t.sendWaiters == [n] + s.sendWaiters)
      && (e.state == SendUnregistered && !s.isClosed && |s.buffer| < s.capacity ==>
        p.poll.Ready? && t.buffer == s.buffer + [e.value.value] && t.sendWaiters == s.sendWaiters)
      && (e.state == SendUnregistered && s.isClosed ==> p.poll.Ready? && p.value == e.value)
      && (p.poll.Pending? ==> t.senders == s.senders[n := SendEntry(Some(waker), SendRegistered, e.value)])
  {
  }
}
