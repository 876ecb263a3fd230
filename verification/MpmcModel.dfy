/** The multi-producer multi-consumer channel as a state machine on values. */
module MpmcModel {
  import opened Collections

  datatype RecvPollState = Unregistered | Registered | Notified

  datatype RecvEntry = RecvEntry(task: Option<Waker>, state: RecvPollState)

  datatype SendPollState = SendUnregistered | SendRegistered | SendComplete

  datatype SendEntry<T> = SendEntry(task: Option<Waker>, state: SendPollState, value: Option<T>)

  datatype CloseStatus = NewlyClosed | AlreadyClosed

  datatype TryReceiveError = Empty | Closed

  /** What sending without waiting does. The waker belongs to a task that can now receive. */
  datatype SendResult<T> = Sent(task: Option<Waker>) | SendFull(value: T) | SendClosed(value: T)

  /** What receiving without waiting does. The waker belongs to a task whose send is now complete. */
  datatype ReceiveResult<T> = Received(value: T, task: Option<Waker>) | ReceiveEmpty | ReceiveClosed

  /** One poll of a send future: a value is handed back only if the channel is closed. */
  datatype SendPoll<T> = SendPoll(poll: Poll<()>, value: Option<T>, task: Option<Waker>)

  /** The locked state with the wait queue entries of all live send and receive futures, newest waiters first. */
  datatype State<R, S, T> = State(
    isClosed: bool,
    capacity: nat,
    buffer: seq<T>,
    receiveWaiters: seq<R>,
    sendWaiters: seq<S>,
    receivers: map<R, RecvEntry>,
    senders: map<S, SendEntry<T>>)

  ghost predicate ReceiversLinked<R, S, T>(s: State<R, S, T>) {
    forall r | r in s.receiveWaiters :: r in s.receivers
  }

  /** The wait queues hold live futures, and every queued sender still has its value. */
  ghost predicate Linked<R, S, T>(s: State<R, S, T>) {
    && ReceiversLinked(s)
    && (forall n | n in s.sendWaiters :: n in s.senders && s.senders[n].value.Some?)
  }

  ghost function SetReceiver<R, S, T>(s: State<R, S, T>, r: R, e: RecvEntry): State<R, S, T> {
    s.(receivers := s.receivers[r := e])
  }

  ghost function SetSender<R, S, T>(s: State<R, S, T>, n: S, e: SendEntry<T>): State<R, S, T> {
    s.(senders := s.senders[n := e])
  }

  /** Takes the oldest receiver off its queue, notifies it and hands its waker out. */
  ghost function ReturnOldestReceiver<R, S, T>(s: State<R, S, T>): (State<R, S, T>, Option<Waker>)
    requires ReceiversLinked(s)
  {
    if s.receiveWaiters == [] then (s, None)
    else
      var r := Last(s.receiveWaiters);
      (SetReceiver(s, r, RecvEntry(None, Notified)).(receiveWaiters := DropLast(s.receiveWaiters)), s.receivers[r].task)
  }

  ghost function ReceiverCalls<R>(waiters: seq<R>, receivers: map<R, RecvEntry>): seq<Waker>
    requires forall r | r in waiters :: r in receivers
  {
    if waiters == [] then [] else ReceiverCalls(waiters[1..], receivers) + Woken(receivers[waiters[0]].task)
  }

  ghost function SenderCalls<S, T>(waiters: seq<S>, senders: map<S, SendEntry<T>>): seq<Waker>
    requires forall n | n in waiters :: n in senders
  {
    if waiters == [] then [] else SenderCalls(waiters[1..], senders) + Woken(senders[waiters[0]].task)
  }

  /** The wake-up calls of closing: receivers first, then senders, the oldest of each first. */
  ghost function CloseCalls<R, S, T>(s: State<R, S, T>): seq<Waker>
    requires Linked(s)
  {
    if s.isClosed then []
    else ReceiverCalls(s.receiveWaiters, s.receivers) + SenderCalls(s.sendWaiters, s.senders)
  }

  ghost function ReleaseReceivers<R>(waiters: seq<R>, receivers: map<R, RecvEntry>): map<R, RecvEntry> {
    map r | r in receivers :: if r in waiters then RecvEntry(None, Unregistered) else receivers[r]
  }

  ghost function ReleaseSenders<S, T>(waiters: seq<S>, senders: map<S, SendEntry<T>>): map<S, SendEntry<T>> {
    map n | n in senders :: if n in waiters then senders[n].(task := None, state := SendUnregistered) else senders[n]
  }

  /** Closing unregisters everybody; senders keep the values that they have not got rid of. */
  ghost function Close<R, S, T>(s: State<R, S, T>): (State<R, S, T>, CloseStatus) {
    if s.isClosed then (s, AlreadyClosed)
    else
      (State(true, s.capacity, s.buffer, [], [],
        ReleaseReceivers(s.receiveWaiters, s.receivers), ReleaseSenders(s.sendWaiters, s.senders)),
       NewlyClosed)
  }

  ghost function TrySend<R, S, T>(s: State<R, S, T>, value: T): (State<R, S, T>, SendResult<T>)
    requires Linked(s)
  {
    if s.isClosed then (s, SendClosed(value))
    else if |s.buffer| < s.capacity then
      var (s', task) := ReturnOldestReceiver(s.(buffer := s.buffer + [value]));
      (s', Sent(task))
    else (s, SendFull(value))
  }

  ghost function SendOrRegister<R, S, T>(s: State<R, S, T>, n: S, waker: Waker): (State<R, S, T>, SendPoll<T>)
    requires Linked(s) && n in s.senders
    requires s.senders[n].state == SendUnregistered ==> s.senders[n].value.Some?
  {
    var e := s.senders[n];
    match e.state
    case SendUnregistered =>
      if s.isClosed then (SetSender(s, n, e.(value := None)), SendPoll(Ready(()), e.value, None))
      else if |s.buffer| == s.capacity then
        var (s', task) := ReturnOldestReceiver(
          SetSender(s, n, e.(task := Some(waker), state := SendRegistered)).(sendWaiters := [n] + s.sendWaiters));
        (s', SendPoll(Pending, None, task))
      else
        var (s', task) := ReturnOldestReceiver(
          SetSender(s, n, e.(value := None)).(buffer := s.buffer + [e.value.value]));
        (s', SendPoll(Ready(()), None, task))
    case SendRegistered =>
      (SetSender(s, n, e.(task := UpdateWakerRef(e.task, waker))), SendPoll(Pending, None, None))
    case SendComplete =>
      (s, SendPoll(Ready(()), None, None))
  }

  /** Completes the send of the oldest queued sender. */
  ghost function CompleteOldestSender<R, S, T>(s: State<R, S, T>): State<R, S, T>
    requires Linked(s) && s.sendWaiters != []
  {
    SetSender(s, Last(s.sendWaiters), SendEntry(None, SendComplete, None)).(sendWaiters := DropLast(s.sendWaiters))
  }

  ghost function TryCopyValueFromOldestWaiter<R, S, T>(s: State<R, S, T>): (State<R, S, T>, Option<Waker>)
    requires Linked(s)
  {
    if s.sendWaiters == [] then (s, None)
    else
      var e := s.senders[Last(s.sendWaiters)];
      (CompleteOldestSender(s).(buffer := s.buffer + [e.value.value]), e.task)
  }

  ghost function TryReceive<R, S, T>(s: State<R, S, T>): (State<R, S, T>, ReceiveResult<T>)
    requires Linked(s)
  {
    if s.buffer != [] then
      var (s', task) := TryCopyValueFromOldestWaiter(s.(buffer := s.buffer[1..]));
      (s', Received(s.buffer[0], task))
    else if s.sendWaiters != [] then
      var e := s.senders[Last(s.sendWaiters)];
      (CompleteOldestSender(s), Received(e.value.value, e.task))
    else (s, if s.isClosed then ReceiveClosed else ReceiveEmpty)
  }

  /** One poll of a receive future: a value with the waker of a completed sender, or nothing at a closed channel. */
  ghost function ReceiveOrRegister<R, S, T>(s: State<R, S, T>, r: R, waker: Waker):
    (State<R, S, T>, Poll<Option<(T, Option<Waker>)>>)
    requires Linked(s) && r in s.receivers
  {
    var e := s.receivers[r];
    if e.state == Registered then
      (SetReceiver(s, r, e.(task := UpdateWakerRef(e.task, waker))), Pending)
    else
      var (s', result) := TryReceive(SetReceiver(s, r, e.(state := Unregistered)));
      match result
      case Received(value, task) => (s', Ready(Some((value, task))))
      case ReceiveClosed => (s', Ready(None))
      case ReceiveEmpty =>
        (SetReceiver(s', r, RecvEntry(Some(waker), Registered)).(receiveWaiters := [r] + s'.receiveWaiters), Pending)
  }

  ghost function RemoveSendWaiter<R, S, T>(s: State<R, S, T>, n: S): State<R, S, T>
    requires n in s.senders
  {
    if s.senders[n].state == SendRegistered
    then SetSender(s, n, s.senders[n].(state := SendUnregistered)).(sendWaiters := Without(s.sendWaiters, n))
    else s
  }

  ghost function RemoveReceiveWaiter<R, S, T>(s: State<R, S, T>, r: R): (State<R, S, T>, Option<Waker>)
    requires Linked(s) && r in s.receivers
  {
    var e := s.receivers[r].(state := Unregistered);
    match s.receivers[r].state
    case Registered => (SetReceiver(s, r, e).(receiveWaiters := Without(s.receiveWaiters, r)), None)
    case Notified => ReturnOldestReceiver(SetReceiver(s, r, e))
    case Unregistered => (s, None)
  }

  ghost function Clear<R, S, T>(s: State<R, S, T>): State<R, S, T> {
    s.(buffer := [])
  }
}
