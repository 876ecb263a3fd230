/** Whole runs of a channel, with the way of every single value through it. */
module MpmcRuns {
  import opened Collections
  import opened MpmcModel
  import opened MpmcInvariants

  /**
   * A channel with everything that is attached to it. Each value carries the id under which it was submitted: the id
   * of its send future, or the one given to a send without waiting.
   */
  datatype World<R, S, T> = World(
    s: State<R, S, T>,
    wakes: seq<Waker>,
    senderHandles: nat,
    receiverHandles: nat,
    clearing: bool,           // the last receiver handle is gone, but the buffer has not been cleared yet
    usedReceivers: set<R>,
    submitted: map<S, T>,     // every value ever handed to the channel
    owners: seq<S>,           // the ids of the buffered values
    accepted: seq<S>,         // ids in the order in which their values were accepted
    withdrawn: set<S>,        // accepted, but taken back before anybody received them
    received: seq<S>,         // ids in the order in which their values were received
    delivered: seq<T>,        // the received values themselves
    returned: set<S>,         // handed back to the sender by an error or by cancelling
    dropped: set<S>)          // dropped with a send future or with the channel

  datatype Op<R, S, T> =
    | Send(n: S, value: T)
    | PollSend(n: S, waker: Waker)
    | CancelSend(n: S)
    | DropSend(n: S)
    | TrySendNow(n: S, value: T)
    | Receive(r: R)
    | PollReceive(r: R, waker: Waker)
    | DropReceive(r: R)
    | TryReceiveNow
    | CloseChannel
    | CloneSender
    | DropSender
    | CloneReceiver
    | DropReceiver
    | ClearChannel

  ghost function Start<R, S, T>(capacity: nat): World<R, S, T> {
    World(State(false, capacity, [], [], [], map[], map[]), [], 1, 1, false, {}, map[], [], [], {}, [], [], {}, {})
  }

  /** What the API lets a caller do; in particular a finished future is not polled again. */
  ghost predicate Enabled<R, S, T>(w: World<R, S, T>, op: Op<R, S, T>) {
    match op
    case Send(n, _) => n !in w.submitted
    case PollSend(n, _) => n in w.s.senders
    case CancelSend(n) => n in w.s.senders
    case DropSend(n) => n in w.s.senders
    case TrySendNow(n, _) => n !in w.submitted && w.s.capacity > 0
    case Receive(r) => r !in w.usedReceivers
    case PollReceive(r, _) => r in w.s.receivers
    case DropReceive(r) => r in w.s.receivers
    case TryReceiveNow => true
    case CloseChannel => true
    case CloneSender => w.senderHandles > 0
    case DropSender => w.senderHandles > 0
    case CloneReceiver => w.receiverHandles > 0
    case DropReceiver => w.receiverHandles > 0
    case ClearChannel => w.clearing
  }

  ghost function SetOf<S>(s: seq<S>): set<S> {
    set n | n in s
  }

  /** Closing takes the values of the queued senders out of the queue. */
  ghost function CloseWorld<R, S, T>(w: World<R, S, T>): World<R, S, T>
    requires Linked(w.s)
  {
    w.(s := Close(w.s).0, wakes := w.wakes + CloseCalls(w.s), withdrawn := w.withdrawn + SetOf(w.s.sendWaiters))
  }

  /** The bookkeeping of one received value: the oldest buffered one, or that of the oldest queued sender. */
  ghost function Deliver<R, S, T>(w: World<R, S, T>, value: T): World<R, S, T>
    requires w.owners != [] || w.s.sendWaiters != []
  {
    var next := if w.s.sendWaiters == [] then [] else [Last(w.s.sendWaiters)];
    var line := w.owners + next;
    w.(owners := line[1..], received := w.received + [line[0]], delivered := w.delivered + [value])
  }

  ghost predicate Unfinished<R, S, T>(s: State<R, S, T>) {
    forall n | n in s.senders :: s.senders[n].value.Some? <==> s.senders[n].state != SendComplete
  }

  ghost function Step<R, S, T>(w: World<R, S, T>, op: Op<R, S, T>): World<R, S, T>
    requires Inv(w.s) && Unfinished(w.s) && |w.owners| == |w.s.buffer|
  {
    if !Enabled(w, op) then w else
    match op
    case Send(n, value) =>
      w.(s := SetSender(w.s, n, SendEntry(None, SendUnregistered, Some(value))), submitted := w.submitted[n := value])
    case PollSend(n, waker) => PollSendStep(w, n, waker)
    case CancelSend(n) =>
      var w' := RemoveSenderStep(w, n);
      if w.s.senders[n].value.Some? then w'.(returned := w.returned + {n}) else w'
    case DropSend(n) =>
      var w' := RemoveSenderStep(w, n);
      if w.s.senders[n].value.Some? then w'.(dropped := w.dropped + {n}) else w'
    case TrySendNow(n, value) =>
      var (s, result) := TrySend(w.s, value);
      var w' := w.(s := s, submitted := w.submitted[n := value]);
      if result.Sent?
      then w'.(wakes := w.wakes + Woken(result.task), owners := w.owners + [n], accepted := w.accepted + [n])
      else w'.(returned := w.returned + {n})
    case Receive(r) =>
      w.(s := SetReceiver(w.s, r, RecvEntry(None, Unregistered)), usedReceivers := w.usedReceivers + {r})
    case PollReceive(r, waker) => PollReceiveStep(w, r, waker)
    case DropReceive(r) =>
      var (s, task) := RemoveReceiveWaiter(w.s, r);
      w.(s := ForgetReceiver(s, r), wakes := w.wakes + Woken(task))
    case TryReceiveNow =>
      var (s, result) := TryReceive(w.s);
      if result.Received? then Deliver(w, result.value).(s := s, wakes := w.wakes + Woken(result.task)) else w
    case CloseChannel => CloseWorld(w)
    case CloneSender => w.(senderHandles := w.senderHandles + 1)
    case DropSender =>
      var w' := w.(senderHandles := w.senderHandles - 1);
      if w.senderHandles == 1 then CloseWorld(w') else w'
    case CloneReceiver => w.(receiverHandles := w.receiverHandles + 1)
    case DropReceiver =>
      var w' := w.(receiverHandles := w.receiverHandles - 1);
      if w.receiverHandles == 1 then CloseWorld(w').(clearing := true) else w'
    case ClearChannel =>
      w.(s := Clear(w.s), clearing := false, owners := [],
         withdrawn := w.withdrawn + SetOf(w.owners), dropped := w.dropped + SetOf(w.owners))
  }

  /** A finished send future is detached; its value has been sent, or is handed back because the channel is closed. */
  ghost function PollSendStep<R, S, T>(w: World<R, S, T>, n: S, waker: Waker): World<R, S, T>
    requires Inv(w.s) && Unfinished(w.s) && n in w.s.senders
  {
    var (s, p) := SendOrRegister(w.s, n, waker);
    var woken := w.wakes + Woken(p.task);
    if w.s.senders[n].state == SendUnregistered then
      if p.value.Some? then w.(s := ForgetSender(s, n), wakes := woken, returned := w.returned + {n})
      else if p.poll.Pending? then w.(s := s, wakes := woken, accepted := w.accepted + [n])
      else w.(s := ForgetSender(s, n), wakes := woken, accepted := w.accepted + [n], owners := w.owners + [n])
    else
      w.(s := if p.poll.Ready? then ForgetSender(s, n) else s, wakes := woken)
  }

  ghost function RemoveSenderStep<R, S, T>(w: World<R, S, T>, n: S): World<R, S, T>
    requires n in w.s.senders
  {
    w.(s := ForgetSender(RemoveSendWaiter(w.s, n), n),
       withdrawn := if w.s.senders[n].state == SendRegistered then w.withdrawn + {n} else w.withdrawn)
  }

  ghost function PollReceiveStep<R, S, T>(w: World<R, S, T>, r: R, waker: Waker): World<R, S, T>
    requires Inv(w.s) && r in w.s.receivers && |w.owners| == |w.s.buffer|
  {
    var (s, p) := ReceiveOrRegister(w.s, r, waker);
    match p
    case Ready(Some((value, task))) =>
      PollReceiveHasValue(w.s, r, waker);
      Deliver(w, value).(s := ForgetReceiver(s, r), wakes := w.wakes + Woken(task))
    case Ready(None) => w.(s := ForgetReceiver(s, r))
    case Pending => w.(s := s)
    case Panicked => w
  }

  lemma PollReceiveHasValue<R, S, T>(s: State<R, S, T>, r: R, waker: Waker)
    requires Inv(s) && r in s.receivers
    ensures ReceiveOrRegister(s, r, waker).1.Ready? && ReceiveOrRegister(s, r, waker).1.value.Some? ==>
      s.buffer != [] || s.sendWaiters != []
  {
    if s.receivers[r].state != Registered {
      TryReceiveKeeps(SetReceiver(s, r, s.receivers[r].(state := Unregistered)));
    }
  }

  // ---- Structure ----

  ghost predicate WorldInv<R, S, T>(w: World<R, S, T>) {
    && Inv(w.s)
    && Unfinished(w.s)
    && |w.owners| == |w.s.buffer|
    && w.s.senders.Keys <= w.submitted.Keys
    && w.s.receivers.Keys <= w.usedReceivers
    // The channel closes with its last sender or receiver handle, and is cleared after the last receiver handle.
    && (w.senderHandles == 0 || w.receiverHandles == 0 || w.clearing ==> w.s.isClosed)
    && (w.receiverHandles == 0 && !w.clearing ==> w.s.buffer == [])
  }

  /** The state after a run; operations that the API does not offer at that point are skipped. */
  ghost function Exec<R, S, T>(capacity: nat, ops: seq<Op<R, S, T>>): (w: World<R, S, T>)
    ensures WorldInv(w)
    ensures w.s.capacity == capacity
  {
    if ops == [] then Start(capacity)
    else
      var w := Exec(capacity, DropLast(ops));
      StepKeepsWorldInv(w, Last(ops));
      Step(w, Last(ops))
  }

  lemma ExecStep<R, S, T>(capacity: nat, ops: seq<Op<R, S, T>>, op: Op<R, S, T>)
    ensures Exec(capacity, ops + [op]) == Step(Exec(capacity, ops), op)
  {
    assert DropLast(ops + [op]) == ops;
  }

  lemma StepKeepsWorldInv<R, S, T>(w: World<R, S, T>, op: Op<R, S, T>)
    requires WorldInv(w)
    ensures WorldInv(Step(w, op)) && Step(w, op).s.capacity == w.s.capacity
    ensures w.s.isClosed ==> Step(w, op).s.isClosed
  {
    hide Inv, SendOrRegister, ReceiveOrRegister, RemoveSendWaiter, RemoveReceiveWaiter, TryReceive, TrySend;
    if Enabled(w, op) {
      match op
      case Send(n, value) => NewSenderKeepsInv(w.s, n, value);
      case PollSend(n, waker) => PollSendKeepsWorldInv(w, n, waker);
      case CancelSend(n) => RemoveSenderKeepsWorldInv(w, n);
      case DropSend(n) => RemoveSenderKeepsWorldInv(w, n);
      case TrySendNow(n, value) => TrySendKeepsWorldInv(w, n, value);
      case Receive(r) => NewReceiverKeepsInv(w.s, r);
      case PollReceive(r, waker) => PollReceiveKeepsWorldInv(w, r, waker);
      case DropReceive(r) =>
        DropReceiverKeepsWorldInv(w, r);
      case TryReceiveNow => TryReceiveKeepsWorldInv(w);
      case CloseChannel => CloseKeepsWorldInv(w);
      case CloneSender =>
      case DropSender => CloseKeepsWorldInv(w);
      case CloneReceiver =>
      case DropReceiver => CloseKeepsWorldInv(w);
      case ClearChannel => ClearKeepsInv(w.s);
    }
  }

  lemma PollSendKeepsWorldInv<R, S, T>(w: World<R, S, T>, n: S, waker: Waker)
    requires WorldInv(w) && n in w.s.senders
    ensures WorldInv(PollSendStep(w, n, waker)) && PollSendStep(w, n, waker).s.capacity == w.s.capacity
    ensures PollSendStep(w, n, waker).s.isClosed == w.s.isClosed
  {
    hide SendOrRegister, WellFormed, NoLostWakeup;
    InvIsLinked(w.s);
    var (s, p) := SendOrRegister(w.s, n, waker);
    SendEffect(w.s, n, waker);
    SendOrRegisterKeepsInv(w.s, n, waker);
    if p.poll.Ready? {
      StateTellsQueued(s, n);
      ForgetSenderKeepsInv(s, n);
    }
  }

  lemma RemoveSenderKeepsWorldInv<R, S, T>(w: World<R, S, T>, n: S)
    requires WorldInv(w) && n in w.s.senders
    ensures WorldInv(RemoveSenderStep(w, n)) && RemoveSenderStep(w, n).s.capacity == w.s.capacity
    ensures RemoveSenderStep(w, n).s.isClosed == w.s.isClosed
  {
    RemoveSendWaiterKeepsInv(w.s, n);
    ForgetSenderKeepsInv(RemoveSendWaiter(w.s, n), n);
  }

  lemma TrySendKeepsWorldInv<R, S, T>(w: World<R, S, T>, n: S, value: T)
    requires WorldInv(w) && n !in w.submitted
    ensures WorldInv(Step(w, TrySendNow(n, value))) && Step(w, TrySendNow(n, value)).s.capacity == w.s.capacity
    ensures Step(w, TrySendNow(n, value)).s.isClosed == w.s.isClosed
  {
    TrySendKeepsInv(w.s, value);
  }

  lemma PollReceiveKeepsWorldInv<R, S, T>(w: World<R, S, T>, r: R, waker: Waker)
    requires WorldInv(w) && r in w.s.receivers
    ensures WorldInv(PollReceiveStep(w, r, waker)) && PollReceiveStep(w, r, waker).s.capacity == w.s.capacity
    ensures PollReceiveStep(w, r, waker).s.isClosed == w.s.isClosed
  {
    hide ReceiveOrRegister, WellFormed, NoLostWakeup;
    InvIsLinked(w.s);
    var (s, p) := ReceiveOrRegister(w.s, r, waker);
    ReceiveEffect(w.s, r, waker);
    ReceiveOrRegisterKeepsInv(w.s, r, waker);
    if p.Ready? {
      UnregisteredIsNotQueued(s, r);
      ForgetReceiverKeepsInv(s, r);
    }
  }

  lemma DropReceiverKeepsWorldInv<R, S, T>(w: World<R, S, T>, r: R)
    requires WorldInv(w) && r in w.s.receivers
    ensures WorldInv(Step(w, DropReceive(r))) && Step(w, DropReceive(r)).s.capacity == w.s.capacity
    ensures Step(w, DropReceive(r)).s.isClosed == w.s.isClosed
  {
    RemoveReceiveWaiterKeepsInv(w.s, r);
    ForgetReceiverKeepsInv(RemoveReceiveWaiter(w.s, r).0, r);
  }

  lemma TryReceiveKeepsWorldInv<R, S, T>(w: World<R, S, T>)
    requires WorldInv(w)
    ensures WorldInv(Step(w, TryReceiveNow)) && Step(w, TryReceiveNow).s.capacity == w.s.capacity
    ensures Step(w, TryReceiveNow).s.isClosed == w.s.isClosed
  {
    hide TryReceive, WellFormed, NoLostWakeup;
    TryReceiveKeepsWellFormed(w.s);
    TryReceiveEffect(w.s);
  }

  lemma TryReceiveKeepsWellFormed<R, S, T>(s: State<R, S, T>)
    requires Inv(s)
    ensures Linked(s) && Inv(TryReceive(s).0)
    ensures TryReceive(s).0.receivers.Keys == s.receivers.Keys && TryReceive(s).0.senders.Keys == s.senders.Keys
    ensures Unfinished(s) ==> Unfinished(TryReceive(s).0)
  {
    TryReceiveKeeps(s);
  }

  lemma CloseKeepsWorldInv<R, S, T>(w: World<R, S, T>)
    requires WorldInv(w)
    ensures WorldInv(CloseWorld(w)) && CloseWorld(w).s.capacity == w.s.capacity && CloseWorld(w).s.isClosed
    ensures CloseWorld(w).s.buffer == w.s.buffer
  {
    CloseKeepsInv(w.s);
  }
}
