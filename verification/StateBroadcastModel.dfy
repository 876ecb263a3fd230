/** The state broadcast channel as a state machine on values, and what every run of it keeps. */
module StateBroadcastModel {
  import opened Collections

  /** State ids are unsigned 64-bit numbers; the channel stops accepting values before its id would overflow. */
  const MAX_STATE_ID: nat := 0xFFFF_FFFF_FFFF_FFFF

  datatype RecvPollState = Unregistered | Registered

  datatype RecvEntry = RecvEntry(task: Option<Waker>, state: RecvPollState, stateId: nat)

  datatype CloseStatus = NewlyClosed | AlreadyClosed

  /** The locked state with the entries of all live receive futures, newest waiters first. */
  datatype State<N, T> = State(
    isClosed: bool,
    stateId: nat,
    value: Option<T>,
    waiters: seq<N>,
    entries: map<N, RecvEntry>)

  ghost predicate Linked<N, T>(s: State<N, T>) {
    forall n | n in s.waiters :: n in s.entries
  }

  ghost function SetEntry<N, T>(s: State<N, T>, n: N, e: RecvEntry): State<N, T> {
    s.(entries := s.entries[n := e])
  }

  /** Waking everybody in the queue, the oldest first. */
  ghost function Calls<N>(waiters: seq<N>, entries: map<N, RecvEntry>): seq<Waker>
    requires forall n | n in waiters :: n in entries
  {
    if waiters == [] then [] else Calls(waiters[1..], entries) + Woken(entries[waiters[0]].task)
  }

  ghost function Released<N>(waiters: seq<N>, entries: map<N, RecvEntry>): map<N, RecvEntry> {
    map n | n in entries :: if n in waiters then entries[n].(task := None, state := Unregistered) else entries[n]
  }

  ghost function WakeWaiters<N, T>(s: State<N, T>): State<N, T> {
    s.(waiters := [], entries := Released(s.waiters, s.entries))
  }

  /** Publishes a value under the next id; a rejected value is handed back. */
  ghost function Send<N, T>(s: State<N, T>, value: T): (State<N, T>, Option<T>) {
    if s.isClosed || s.stateId == MAX_STATE_ID then (s, Some(value))
    else (WakeWaiters(s.(value := Some(value), stateId := s.stateId + 1)), None)
  }

  ghost function Close<N, T>(s: State<N, T>): (State<N, T>, CloseStatus) {
    if s.isClosed then (s, AlreadyClosed) else (WakeWaiters(s.(isClosed := true)), NewlyClosed)
  }

  /** The current value with its id, if it is newer than `stateId`. */
  ghost function TryReceive<N, T>(s: State<N, T>, stateId: nat): Option<(nat, T)> {
    if s.value.Some? && stateId < s.stateId then Some((s.stateId, s.value.value)) else None
  }

  ghost function ReceiveOrRegister<N, T>(s: State<N, T>, n: N, waker: Waker): (State<N, T>, Poll<Option<(nat, T)>>)
    requires n in s.entries
  {
    var e := s.entries[n];
    match e.state
    case Unregistered =>
      var found := TryReceive(s, e.stateId);
      if found.Some? then (s, Ready(found))
      else if s.isClosed then (s, Ready(None))
      else (SetEntry(s, n, e.(task := Some(waker), state := Registered)).(waiters := [n] + s.waiters), Pending)
    case Registered =>
      (SetEntry(s, n, e.(task := UpdateWakerRef(e.task, waker))), Pending)
  }

  ghost function RemoveWaiter<N, T>(s: State<N, T>, n: N): State<N, T>
    requires n in s.entries
  {
    if s.entries[n].state == Registered
    then SetEntry(s, n, s.entries[n].(state := Unregistered)).(waiters := Without(s.waiters, n))
    else s
  }

  // ---- The invariant ----

  ghost predicate WellFormed<N, T>(s: State<N, T>) {
    && NoDup(s.waiters)
    && Linked(s)
    && (forall n | n in s.entries :: n in s.waiters <==> s.entries[n].state == Registered)
    && (forall n | n in s.entries && s.entries[n].state == Registered :: s.entries[n].task.Some?)
  }

  /** Whoever queues, queues at an open channel and knows the current value already: nobody sleeps through a value. */
  ghost predicate NobodyMisses<N, T>(s: State<N, T>) {
    && (s.isClosed ==> s.waiters == [])
    && (forall n | n in s.entries && s.entries[n].state == Registered :: s.stateId <= s.entries[n].stateId)
  }

  ghost predicate Inv<N, T>(s: State<N, T>) {
    && WellFormed(s)
    && NobodyMisses(s)
    && (s.value.Some? <==> s.stateId > 0)
    && s.stateId <= MAX_STATE_ID
  }

  lemma WakeWaitersKeepsInv<N, T>(s: State<N, T>)
    requires Linked(s) && NoDup(s.waiters)
    requires forall n | n in s.entries :: n in s.waiters <==> s.entries[n].state == Registered
    requires s.value.Some? <==> s.stateId > 0
    requires s.stateId <= MAX_STATE_ID
    ensures Inv(WakeWaiters(s))
    ensures WakeWaiters(s).entries.Keys == s.entries.Keys
    ensures forall n | n in s.entries :: WakeWaiters(s).entries[n].stateId == s.entries[n].stateId
  {
  }

  lemma ReceiveOrRegisterKeepsInv<N, T>(s: State<N, T>, n: N, waker: Waker)
    requires Inv(s) && n in s.entries
    ensures Inv(ReceiveOrRegister(s, n, waker).0)
    ensures ReceiveOrRegister(s, n, waker).0.entries.Keys == s.entries.Keys
    ensures ReceiveOrRegister(s, n, waker).1 != Panicked
    ensures ReceiveOrRegister(s, n, waker).1.Ready? ==> ReceiveOrRegister(s, n, waker).0 == s && n !in s.waiters
    ensures forall m | m in s.entries :: ReceiveOrRegister(s, n, waker).0.entries[m].stateId == s.entries[m].stateId
  {
    if s.entries[n].state == Unregistered {
      assert forall m :: m in [n] + s.waiters <==> m == n || m in s.waiters;
    }
  }

  /**
   * What a poll gives, whether the future was queued or not: a value newer than the one that it asks for if there is
   * one, the news that the channel is closed if there is none, and otherwise it waits for the next value.
   */
  lemma PollTells<N, T>(s: State<N, T>, n: N, waker: Waker)
    requires Inv(s) && n in s.entries
    ensures var p := ReceiveOrRegister(s, n, waker).1;
      if s.entries[n].stateId < s.stateId then s.value.Some? && p == Ready(Some((s.stateId, s.value.value)))
      else if s.isClosed then p == Ready(None)
      else p == Pending && n in ReceiveOrRegister(s, n, waker).0.waiters
  {
  }

  lemma RemoveWaiterKeepsInv<N, T>(s: State<N, T>, n: N)
    requires Inv(s) && n in s.entries
    ensures Inv(RemoveWaiter(s, n)) && n !in RemoveWaiter(s, n).waiters
    ensures RemoveWaiter(s, n).entries.Keys == s.entries.Keys
    ensures forall m | m in s.entries :: RemoveWaiter(s, n).entries[m].stateId == s.entries[m].stateId
  {
    WithoutMembers(s.waiters, n);
    WithoutNoDup(s.waiters, n);
  }

  lemma NewFutureKeepsInv<N, T>(s: State<N, T>, n: N, stateId: nat)
    requires Inv(s) && n !in s.entries
    ensures Inv(SetEntry(s, n, RecvEntry(None, Unregistered, stateId)))
  {
    assert n !in s.waiters;
  }

  ghost function Forget<N, T>(s: State<N, T>, n: N): State<N, T> {
    s.(entries := s.entries - {n})
  }

  lemma ForgetKeepsInv<N, T>(s: State<N, T>, n: N)
    requires Inv(s) && n !in s.waiters
    ensures Inv(Forget(s, n))
  {
  }

  lemma {:induction false} CallsAreOldestFirst<N>(waiters: seq<N>, entries: map<N, RecvEntry>)
    requires forall n | n in waiters :: n in entries && entries[n].task.Some?
    ensures |Calls(waiters, entries)| == |waiters|
    ensures forall i | 0 <= i < |waiters| ::
      Calls(waiters, entries)[|waiters| - 1 - i] == entries[waiters[i]].task.value
  {
    if waiters != [] {
      CallsAreOldestFirst(waiters[1..], entries);
    }
  }

  // ---- Runs ----

  /**
   * A channel with everything attached to it. A receiver asks for anything newer than the last state it has seen, or
   * at first for anything newer than an id of its choice.
   */
  datatype World<N, T> = World(
    s: State<N, T>,
    wakes: seq<Waker>,
    accepted: seq<T>,
    seen: map<N, seq<(nat, T)>>)

  datatype Op<N, T> =
    | SendValue(value: T)
    | CloseChannel
    | Receive(n: N, first: nat)
    | PollFuture(n: N, waker: Waker)
    | DropFuture(n: N)
    | TryReceiveNow(n: N, first: nat)

  ghost function Start<N, T>(): World<N, T> {
    World(State(false, 0, None, [], map[]), [], [], map[])
  }

  ghost function SeenBy<N, T>(w: World<N, T>, n: N): seq<(nat, T)> {
    if n in w.seen then w.seen[n] else []
  }

  ghost function NextId<N, T>(w: World<N, T>, n: N, first: nat): nat {
    if SeenBy(w, n) == [] then first else Last(SeenBy(w, n)).0
  }

  ghost function Deliver<N, T>(w: World<N, T>, n: N, state: (nat, T)): World<N, T> {
    w.(seen := w.seen[n := SeenBy(w, n) + [state]])
  }

  /** A receiver waits for one state at a time. */
  ghost predicate Enabled<N, T>(w: World<N, T>, op: Op<N, T>) {
    match op
    case SendValue(_) => true
    case CloseChannel => true
    case Receive(n, _) => n !in w.s.entries
    case PollFuture(n, _) => n in w.s.entries
    case DropFuture(n) => n in w.s.entries
    case TryReceiveNow(n, _) => n !in w.s.entries
  }

  ghost function Step<N, T>(w: World<N, T>, op: Op<N, T>): World<N, T>
    requires Inv(w.s)
  {
    if !Enabled(w, op) then w else
    match op
    case SendValue(value) =>
      var (s, rejected) := Send(w.s, value);
      if rejected.Some? then w
      else w.(s := s, wakes := w.wakes + Calls(w.s.waiters, w.s.entries), accepted := w.accepted + [value])
    case CloseChannel =>
      var (s, status) := Close(w.s);
      w.(s := s, wakes := if status.NewlyClosed? then w.wakes + Calls(w.s.waiters, w.s.entries) else w.wakes)
    case Receive(n, first) =>
      w.(s := SetEntry(w.s, n, RecvEntry(None, Unregistered, NextId(w, n, first))))
    case PollFuture(n, waker) =>
      var (s, p) := ReceiveOrRegister(w.s, n, waker);
      var w' := w.(s := if p.Ready? then Forget(s, n) else s);
      if p.Ready? && p.value.Some? then Deliver(w', n, p.value.value) else w'
    case DropFuture(n) =>
      w.(s := Forget(RemoveWaiter(w.s, n), n))
    case TryReceiveNow(n, first) =>
      var found := TryReceive(w.s, NextId(w, n, first));
      if found.Some? then Deliver(w, n, found.value) else w
  }

  /** Id `k` belongs to the `k`-th accepted value, for ever. */
  ghost predicate Authentic<T>(state: (nat, T), accepted: seq<T>) {
    1 <= state.0 <= |accepted| && state.1 == accepted[state.0 - 1]
  }

  ghost predicate SeesProgress<T>(seen: seq<(nat, T)>, accepted: seq<T>) {
    && (forall i | 0 <= i < |seen| :: Authentic(seen[i], accepted))
    && (forall i, j | 0 <= i < j < |seen| :: seen[i].0 < seen[j].0)
  }

  ghost predicate WorldInv<N, T>(w: World<N, T>) {
    && Inv(w.s)
    && w.s.stateId == |w.accepted|
    && w.s.value == (if w.accepted == [] then None else Some(Last(w.accepted)))
    && (forall n | n in w.seen :: SeesProgress(w.seen[n], w.accepted))
    // A future waits for something newer than what its receiver has seen.
    && (forall n | n in w.s.entries && SeenBy(w, n) != [] :: w.s.entries[n].stateId == Last(SeenBy(w, n)).0)
  }

  /** The state after a run; operations that the API does not offer at that point are skipped. */
  ghost function Exec<N, T>(ops: seq<Op<N, T>>): (w: World<N, T>)
    ensures WorldInv(w)
  {
    if ops == [] then Start()
    else
      var w := Exec(DropLast(ops));
      StepKeepsWorldInv(w, Last(ops));
      Step(w, Last(ops))
  }

  lemma ExecStep<N, T>(ops: seq<Op<N, T>>, op: Op<N, T>)
    ensures Exec(ops + [op]) == Step(Exec(ops), op)
  {
    assert DropLast(ops + [op]) == ops;
  }

  lemma StepKeepsWorldInv<N, T>(w: World<N, T>, op: Op<N, T>)
    requires WorldInv(w)
    ensures WorldInv(Step(w, op))
    ensures w.accepted <= Step(w, op).accepted
    ensures w.s.isClosed ==> Step(w, op).s.isClosed && Step(w, op).accepted == w.accepted
  {
    hide Inv, SeesProgress, ReceiveOrRegister, RemoveWaiter;
    if Enabled(w, op) {
      match op
      case SendValue(value) => SendKeepsWorldInv(w, value);
      case CloseChannel => CloseKeepsWorldInv(w);
      case Receive(n, first) => NewFutureKeepsInv(w.s, n, NextId(w, n, first));
      case PollFuture(n, waker) => PollKeepsWorldInv(w, n, waker);
      case DropFuture(n) => DropKeepsWorldInv(w, n);
      case TryReceiveNow(n, first) => TryReceiveKeepsWorldInv(w, n, first);
    }
  }

  /** Accepting a value leaves the ids of the earlier ones alone. */
  lemma SendKeepsWorldInv<N, T>(w: World<N, T>, value: T)
    requires WorldInv(w)
    ensures WorldInv(Step(w, SendValue(value)))
  {
    if !w.s.isClosed && w.s.stateId < MAX_STATE_ID {
      WakeWaitersKeepsInv(w.s.(value := Some(value), stateId := w.s.stateId + 1));
      forall n | n in w.seen
        ensures SeesProgress(w.seen[n], w.accepted + [value])
      {
      }
    }
  }

  lemma CloseKeepsWorldInv<N, T>(w: World<N, T>)
    requires WorldInv(w)
    ensures WorldInv(Step(w, CloseChannel)) && Step(w, CloseChannel).accepted == w.accepted
  {
    if !w.s.isClosed {
      WakeWaitersKeepsInv(w.s.(isClosed := true));
    }
  }

  /** The next state that a receiver sees is newer than the last one. */
  lemma DeliverKeepsProgress<N, T>(w: World<N, T>, n: N, state: (nat, T))
    requires forall m | m in w.seen :: SeesProgress(w.seen[m], w.accepted)
    requires Authentic(state, w.accepted)
    requires SeenBy(w, n) != [] ==> Last(SeenBy(w, n)).0 < state.0
    ensures forall m | m in Deliver(w, n, state).seen :: SeesProgress(Deliver(w, n, state).seen[m], w.accepted)
  {
    var seen := SeenBy(w, n);
    if seen != [] {
      assert forall i | 0 <= i < |seen| - 1 :: seen[i].0 < Last(seen).0;
    }
    assert SeesProgress(seen + [state], w.accepted);
  }

  lemma PollKeepsWorldInv<N, T>(w: World<N, T>, n: N, waker: Waker)
    requires WorldInv(w) && n in w.s.entries
    ensures WorldInv(Step(w, PollFuture(n, waker))) && Step(w, PollFuture(n, waker)).accepted == w.accepted
    ensures w.s.isClosed ==> Step(w, PollFuture(n, waker)).s.isClosed
  {
    hide WellFormed, ReceiveOrRegister, SeesProgress;
    PollTells(w.s, n, waker);
    ReceiveOrRegisterKeepsInv(w.s, n, waker);
    ReceivingKeepsTheValue(w.s, n, waker);
    var (s, p) := ReceiveOrRegister(w.s, n, waker);
    if p.Ready? {
      ForgetKeepsInv(s, n);
      if p.value.Some? {
        DeliverKeepsProgress(w, n, p.value.value);
        assert Step(w, PollFuture(n, waker)).seen == Deliver(w, n, p.value.value).seen;
      }
    }
  }

  lemma TryReceiveKeepsWorldInv<N, T>(w: World<N, T>, n: N, first: nat)
    requires WorldInv(w) && n !in w.s.entries
    ensures WorldInv(Step(w, TryReceiveNow(n, first)))
  {
    hide WellFormed, NobodyMisses, SeesProgress;
    var found := TryReceive(w.s, NextId(w, n, first));
    if found.Some? {
      DeliverKeepsProgress(w, n, found.value);
    }
  }

  lemma DropKeepsWorldInv<N, T>(w: World<N, T>, n: N)
    requires WorldInv(w) && n in w.s.entries
    ensures WorldInv(Step(w, DropFuture(n))) && Step(w, DropFuture(n)).s.isClosed == w.s.isClosed
  {
    hide WellFormed, NobodyMisses;
    RemoveWaiterKeepsInv(w.s, n);
    ForgetKeepsInv(RemoveWaiter(w.s, n), n);
  }

  lemma ReceivingKeepsTheValue<N, T>(s: State<N, T>, n: N, waker: Waker)
    requires n in s.entries
    ensures var t := ReceiveOrRegister(s, n, waker).0;
      t.stateId == s.stateId && t.value == s.value && t.isClosed == s.isClosed
  {
  }

  /** A future that waits either goes on waiting undisturbed, or may try again and its task is called at that moment. */
  lemma NobodyIsReleasedSilently<N, T>(w: World<N, T>, op: Op<N, T>, n: N)
    requires WorldInv(w) && n in w.s.entries && w.s.entries[n].state == Registered
    requires !(op.PollFuture? && op.n == n) && op != DropFuture(n)
    ensures var w' := Step(w, op);
      && w.wakes <= w'.wakes && n in w'.s.entries
      && (w'.s.entries[n] == w.s.entries[n] ||
        (w'.s.entries[n].state == Unregistered && w.s.entries[n].task.value in w'.wakes[|w.wakes|..]))
  {
    hide Calls;
    CallsAreOldestFirst(w.s.waiters, w.s.entries);
    var i := IndexOf(w.s.waiters, n);
    var calls := Calls(w.s.waiters, w.s.entries);
    assert calls[|w.s.waiters| - 1 - i] == w.s.entries[n].task.value;
    assert (w.wakes + calls)[|w.wakes|..] == calls;
  }

  /** In every run, whatever anybody receives under id `k` is the `k`-th accepted value, and its ids only ever grow. */
  lemma ReceiversSeeProgress<N, T>(ops: seq<Op<N, T>>, n: N)
    ensures SeesProgress(SeenBy(Exec(ops), n), Exec(ops).accepted)
    ensures |Exec(ops).accepted| <= MAX_STATE_ID
  {
    var w := Exec(ops);
    assert SeenBy(w, n) == [] || n in w.seen;
  }
}
