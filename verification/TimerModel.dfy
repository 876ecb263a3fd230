/** The timer as a state machine on values, and what every run of it keeps. Clock readings are inputs. */
module TimerModel {
  import opened Collections

  /** Timestamps are unsigned 64-bit numbers of milliseconds. */
  const MAX_TIMESTAMP: nat := 0xFFFF_FFFF_FFFF_FFFF

  datatype PollState = Unregistered | Registered | Expired

  datatype TimerQueueEntry = TimerQueueEntry(expiry: nat, task: Option<Waker>, state: PollState)

  /** The timers that are in the heap, and the entries of all live timer futures. */
  datatype State<N> = State(waiters: set<N>, entries: map<N, TimerQueueEntry>)

  ghost predicate Linked<N>(s: State<N>) {
    s.waiters <= s.entries.Keys
  }

  ghost function SetEntry<N>(s: State<N>, n: N, e: TimerQueueEntry): State<N> {
    s.(entries := s.entries[n := e])
  }

  /** One poll of a timer future. The clock is read only if the timer has not been registered yet. */
  ghost function TryWait<N>(s: State<N>, n: N, now: nat, waker: Waker): (State<N>, Poll<()>)
    requires n in s.entries
  {
    var e := s.entries[n];
    match e.state
    case Unregistered =>
      if now >= e.expiry then (SetEntry(s, n, e.(state := Expired)), Ready(()))
      else (SetEntry(s, n, e.(task := Some(waker), state := Registered)).(waiters := s.waiters + {n}), Pending)
    case Registered => (SetEntry(s, n, e.(task := UpdateWakerRef(e.task, waker))), Pending)
    case Expired => (s, Ready(()))
  }

  ghost function RemoveWaiter<N>(s: State<N>, n: N): State<N>
    requires n in s.entries
  {
    if s.entries[n].state == Registered
    then SetEntry(s, n, s.entries[n].(state := Unregistered)).(waiters := s.waiters - {n})
    else s
  }

  /** `t` is the time at which the next timer expires. */
  ghost predicate IsNextExpiration<N>(s: State<N>, t: Option<nat>)
    requires Linked(s)
  {
    match t
    case None => s.waiters == {}
    case Some(time) =>
      && (exists n :: n in s.waiters && s.entries[n].expiry == time)
      && (forall n | n in s.waiters :: time <= s.entries[n].expiry)
  }

  /** `order` lists exactly the registered timers that have expired by `now`, each once, and the earliest first. */
  ghost predicate ExpirationOrder<N>(s: State<N>, now: nat, order: seq<N>)
    requires Linked(s)
  {
    && NoDup(order)
    && (forall n | n in order :: n in s.waiters)
    && (forall n | n in s.waiters :: n in order <==> s.entries[n].expiry <= now)
    && (forall i, j | 0 <= i < j < |order| :: s.entries[order[i]].expiry <= s.entries[order[j]].expiry)
  }

  ghost function ExpireOne<N>(s: State<N>, n: N): State<N>
    requires n in s.entries
  {
    SetEntry(s, n, s.entries[n].(task := None, state := Expired)).(waiters := s.waiters - {n})
  }

  /** The timers in `order` expire one after the other. */
  ghost function Expire<N>(s: State<N>, order: seq<N>): (r: State<N>)
    requires forall n | n in order :: n in s.entries
    ensures r.entries.Keys == s.entries.Keys && r.waiters <= s.waiters
  {
    if order == [] then s else ExpireOne(Expire(s, DropLast(order)), Last(order))
  }

  /** The wake-up calls of expiring timers, in their order. */
  ghost function Calls<N>(entries: map<N, TimerQueueEntry>, order: seq<N>): seq<Waker>
    requires forall n | n in order :: n in entries
  {
    if order == [] then [] else Calls(entries, DropLast(order)) + Woken(entries[Last(order)].task)
  }

  /** Exactly the timers in `order` leave the heap, and exactly they are marked. */
  lemma {:induction false} ExpireMeans<N>(s: State<N>, order: seq<N>)
    requires forall n | n in order :: n in s.entries
    ensures forall n :: n in Expire(s, order).waiters <==> n in s.waiters && n !in order
    ensures forall n | n in s.entries && n in order ::
      Expire(s, order).entries[n] == s.entries[n].(task := None, state := Expired)
    ensures forall n | n in s.entries && n !in order :: Expire(s, order).entries[n] == s.entries[n]
  {
    if order != [] {
      ExpireMeans(s, DropLast(order));
      assert forall n :: n in order <==> n in DropLast(order) || n == Last(order);
    }
  }

  /** Timers expire from the earliest on: those in `order` have expired by `now`, and are no later than the others. */
  ghost predicate Expiring<N>(s: State<N>, now: nat, order: seq<N>)
    requires Linked(s)
  {
    && NoDup(order)
    && (forall n | n in order :: n in s.waiters && s.entries[n].expiry <= now)
    && (forall i, j | 0 <= i < j < |order| :: s.entries[order[i]].expiry <= s.entries[order[j]].expiry)
    && (forall n, m | n in order && m in s.waiters && m !in order :: s.entries[n].expiry <= s.entries[m].expiry)
  }

  lemma NothingExpiredYet<N>(s: State<N>, now: nat)
    requires Linked(s)
    ensures Expiring(s, now, []) && Expire(s, []) == s && Calls(s.entries, []) == []
  {
  }

  /** The earliest of the timers that are left expires next. */
  lemma ExpireNext<N>(s: State<N>, now: nat, order: seq<N>, first: N)
    requires Linked(s) && Expiring(s, now, order)
    requires first in Expire(s, order).waiters && s.entries[first].expiry <= now
    requires forall n | n in Expire(s, order).waiters :: s.entries[first].expiry <= s.entries[n].expiry
    ensures first in s.entries && Expire(s, order).entries[first] == s.entries[first]
    ensures Expiring(s, now, order + [first])
    ensures Expire(s, order + [first]) == ExpireOne(Expire(s, order), first)
    ensures Calls(s.entries, order + [first]) == Calls(s.entries, order) + Woken(s.entries[first].task)
  {
    hide Expire, Calls;
    ExpireMeans(s, order);
    ExpireLast(s, order, first);
  }

  lemma ExpireLast<N>(s: State<N>, order: seq<N>, last: N)
    requires last in s.entries && forall n | n in order :: n in s.entries
    ensures Expire(s, order + [last]) == ExpireOne(Expire(s, order), last)
    ensures Calls(s.entries, order + [last]) == Calls(s.entries, order) + Woken(s.entries[last].task)
  {
    assert DropLast(order + [last]) == order;
  }

  /** When the earliest of the timers that are left has not expired, all that have are in `order`. */
  lemma ExpiredAll<N>(s: State<N>, now: nat, order: seq<N>)
    requires Linked(s) && Expiring(s, now, order)
    requires forall n | n in Expire(s, order).waiters :: now < s.entries[n].expiry
    ensures ExpirationOrder(s, now, order)
  {
    ExpireMeans(s, order);
  }

  /** The deadline of a delay: the duration is cut down to 64 bits first, and then the sum is. */
  function DeadlineFromNow(now: nat, duration: nat): (deadline: nat)
    requires now <= MAX_TIMESTAMP
    ensures now + duration <= MAX_TIMESTAMP ==> deadline == now + duration
    ensures now + duration > MAX_TIMESTAMP ==> deadline == MAX_TIMESTAMP
  {
    var durationMs := if duration <= MAX_TIMESTAMP then duration else MAX_TIMESTAMP;
    if now + durationMs <= MAX_TIMESTAMP then now + durationMs else MAX_TIMESTAMP
  }

  // ---- The invariant ----

  /** A timer is in the heap exactly while it is registered, and then its task can be woken. */
  ghost predicate Inv<N>(s: State<N>) {
    && Linked(s)
    && (forall n | n in s.entries :: n in s.waiters <==> s.entries[n].state == Registered)
    && (forall n | n in s.waiters :: s.entries[n].task.Some?)
  }

  lemma TryWaitKeepsInv<N>(s: State<N>, n: N, now: nat, waker: Waker)
    requires Inv(s) && n in s.entries
    ensures Inv(TryWait(s, n, now, waker).0)
    ensures TryWait(s, n, now, waker).0.entries.Keys == s.entries.Keys
    ensures TryWait(s, n, now, waker).1 != Panicked
    ensures TryWait(s, n, now, waker).1.Ready? ==> n !in TryWait(s, n, now, waker).0.waiters
    ensures forall m | m in s.entries :: TryWait(s, n, now, waker).0.entries[m].expiry == s.entries[m].expiry
    ensures forall m | m in s.entries && m != n :: TryWait(s, n, now, waker).0.entries[m] == s.entries[m]
  {
  }

  lemma RemoveWaiterKeepsInv<N>(s: State<N>, n: N)
    requires Inv(s) && n in s.entries
    ensures Inv(RemoveWaiter(s, n)) && n !in RemoveWaiter(s, n).waiters
    ensures RemoveWaiter(s, n).entries.Keys == s.entries.Keys
    ensures forall m | m in s.entries && m != n :: RemoveWaiter(s, n).entries[m] == s.entries[m]
  {
  }

  lemma ExpireKeepsInv<N>(s: State<N>, order: seq<N>)
    requires Inv(s)
    requires forall n | n in order :: n in s.waiters
    ensures Inv(Expire(s, order))
  {
    ExpireMeans(s, order);
  }

  /** After a check, nothing that is left in the heap has expired: the next expiration lies in the future. */
  lemma NextExpirationIsLater<N>(s: State<N>, now: nat, order: seq<N>, t: Option<nat>)
    requires Inv(s) && ExpirationOrder(s, now, order)
    ensures Inv(Expire(s, order))
    ensures IsNextExpiration(Expire(s, order), t) && t.Some? ==> t.value > now
    ensures t.None? ==>
      (IsNextExpiration(Expire(s, order), t) <==> forall n | n in s.waiters :: s.entries[n].expiry <= now)
  {
    ExpireMeans(s, order);
    ExpireKeepsInv(s, order);
  }

  /** Every expiring timer is called exactly once, the earliest deadline first. */
  lemma {:induction false} CallsAreInOrder<N>(s: State<N>, order: seq<N>)
    requires Inv(s)
    requires forall n | n in order :: n in s.waiters
    ensures |Calls(s.entries, order)| == |order|
    ensures forall i | 0 <= i < |order| :: Calls(s.entries, order)[i] == s.entries[order[i]].task.value
  {
    if order != [] {
      CallsAreInOrder(s, DropLast(order));
      assert Last(order) in order;
    }
  }

  lemma NewFutureKeepsInv<N>(s: State<N>, n: N, expiry: nat)
    requires Inv(s) && n !in s.entries
    ensures Inv(SetEntry(s, n, TimerQueueEntry(expiry, None, Unregistered)))
  {
  }

  ghost function Forget<N>(s: State<N>, n: N): State<N> {
    s.(entries := s.entries - {n})
  }

  lemma ForgetKeepsInv<N>(s: State<N>, n: N)
    requires Inv(s) && n !in s.waiters
    ensures Inv(Forget(s, n))
  {
  }

  // ---- Runs ----

  /**
   * A timer with everything attached. Polling a registered or expired future takes place at some time but does not read
   * the clock, so the time of the latest operation can be later than what the timer has seen of it.
   */
  datatype World<N> = World(
    s: State<N>,
    wakes: seq<Waker>,
    now: nat,                 // when the latest operation took place
    seen: nat,                // the latest clock reading
    checked: Option<nat>,     // the clock reading of the latest check
    deadlines: map<N, nat>,
    resolved: map<N, nat>)    // for each resolved future, the latest clock reading by then

  datatype Op<N> =
    | Deadline(n: N, expiry: nat)
    | Delay(n: N, duration: nat, now: nat)
    | PollFuture(n: N, waker: Waker, now: nat)
    | DropFuture(n: N)
    | CheckExpirations(now: nat, order: seq<N>)

  ghost function Start<N>(): World<N> {
    World(State({}, map[]), [], 0, 0, None, map[], map[])
  }

  /** Time does not run backwards. A check may take timers with the same deadline in any order. */
  ghost predicate Enabled<N>(w: World<N>, op: Op<N>)
    requires Linked(w.s)
  {
    match op
    case Deadline(n, expiry) => n !in w.deadlines && expiry <= MAX_TIMESTAMP
    case Delay(n, _, now) => n !in w.deadlines && w.now <= now <= MAX_TIMESTAMP
    case PollFuture(n, _, now) => n in w.s.entries && w.now <= now <= MAX_TIMESTAMP
    case DropFuture(n) => n in w.s.entries
    case CheckExpirations(now, order) => w.now <= now <= MAX_TIMESTAMP && ExpirationOrder(w.s, now, order)
  }

  ghost function Add<N>(w: World<N>, n: N, expiry: nat): World<N> {
    w.(s := SetEntry(w.s, n, TimerQueueEntry(expiry, None, Unregistered)), deadlines := w.deadlines[n := expiry])
  }

  ghost function Step<N>(w: World<N>, op: Op<N>): World<N>
    requires Linked(w.s)
  {
    if !Enabled(w, op) then w else
    match op
    case Deadline(n, expiry) => Add(w, n, expiry)
    case Delay(n, duration, now) => Add(w.(now := now, seen := now), n, DeadlineFromNow(now, duration))
    case PollFuture(n, waker, now) => PollStep(w, n, waker, now)
    case DropFuture(n) => w.(s := Forget(RemoveWaiter(w.s, n), n))
    case CheckExpirations(now, order) =>
      w.(s := Expire(w.s, order), wakes := w.wakes + Calls(w.s.entries, order),
         now := now, seen := now, checked := Some(now))
  }

  ghost function PollStep<N>(w: World<N>, n: N, waker: Waker, now: nat): World<N>
    requires n in w.s.entries
  {
    var (s, result) := TryWait(w.s, n, now, waker);
    var seen := if w.s.entries[n].state == Unregistered then now else w.seen;
    var w' := w.(now := now, seen := seen);
    if result.Ready? then w'.(s := Forget(s, n), resolved := w.resolved[n := seen]) else w'.(s := s)
  }

  ghost predicate WorldInv<N>(w: World<N>) {
    && Inv(w.s)
    && w.seen <= w.now <= MAX_TIMESTAMP
    && (w.checked.Some? ==> w.checked.value <= w.seen)
    && (forall n | n in w.s.entries :: n in w.deadlines && w.s.entries[n].expiry == w.deadlines[n])
    // An expired timer really has expired, and one that was due at the latest check is not waiting any more.
    && (forall n | n in w.s.entries && w.s.entries[n].state == Expired :: w.s.entries[n].expiry <= w.seen)
    && (forall n | n in w.s.waiters && w.checked.Some? :: w.checked.value < w.s.entries[n].expiry)
    // No future resolves before the clock has been seen to reach its deadline.
    && (forall n | n in w.resolved :: n in w.deadlines && w.deadlines[n] <= w.resolved[n] <= w.seen)
  }

  /** The state after a run; operations that the API does not offer at that point are skipped. */
  ghost function Exec<N>(ops: seq<Op<N>>): (w: World<N>)
    ensures WorldInv(w)
  {
    if ops == [] then Start()
    else
      var w := Exec(DropLast(ops));
      StepKeepsWorldInv(w, Last(ops));
      Step(w, Last(ops))
  }

  lemma ExecStep<N>(ops: seq<Op<N>>, op: Op<N>)
    ensures Exec<N>([]) == Start()
    ensures Exec(ops + [op]) == Step(Exec(ops), op)
  {
    assert DropLast(ops + [op]) == ops;
  }

  lemma StepKeepsWorldInv<N>(w: World<N>, op: Op<N>)
    requires WorldInv(w)
    ensures WorldInv(Step(w, op))
    ensures w.now <= Step(w, op).now && w.seen <= Step(w, op).seen
    ensures forall n | n in w.resolved :: n in Step(w, op).resolved
  {
    if Enabled(w, op) {
      match op
      case Deadline(n, expiry) => NewFutureKeepsInv(w.s, n, expiry);
      case Delay(n, duration, now) => NewFutureKeepsInv(w.s, n, DeadlineFromNow(now, duration));
      case PollFuture(n, waker, now) => PollKeepsWorldInv(w, n, waker, now);
      case DropFuture(n) =>
        RemoveWaiterKeepsInv(w.s, n);
        ForgetKeepsInv(RemoveWaiter(w.s, n), n);
      case CheckExpirations(now, order) =>
        ExpireMeans(w.s, order);
        ExpireKeepsInv(w.s, order);
    }
  }

  lemma PollKeepsWorldInv<N>(w: World<N>, n: N, waker: Waker, now: nat)
    requires WorldInv(w) && n in w.s.entries && w.now <= now <= MAX_TIMESTAMP
    ensures WorldInv(PollStep(w, n, waker, now))
  {
    TryWaitKeepsInv(w.s, n, now, waker);
    var (s, result) := TryWait(w.s, n, now, waker);
    if result.Ready? {
      ForgetKeepsInv(s, n);
    }
  }

  /** A timer that waits either goes on waiting undisturbed, or expires and its task is called at that moment. */
  lemma NobodyExpiresSilently<N>(w: World<N>, op: Op<N>, n: N)
    requires WorldInv(w) && n in w.s.entries && w.s.entries[n].state == Registered
    requires !(op.PollFuture? && op.n == n) && op != DropFuture(n)
    ensures var w' := Step(w, op);
      && w.wakes <= w'.wakes && n in w'.s.entries
      && (w'.s.entries[n] == w.s.entries[n] ||
        (w'.s.entries[n].state == Expired && w.s.entries[n].task.value in w'.wakes[|w.wakes|..]))
  {
    hide Calls, Expire;
    if Enabled(w, op) && op.CheckExpirations? {
      ExpireMeans(w.s, op.order);
      CallsAreInOrder(w.s, op.order);
      var calls := Calls(w.s.entries, op.order);
      assert (w.wakes + calls)[|w.wakes|..] == calls;
      if n in op.order {
        var i := IndexOf(op.order, n);
        assert calls[i] == w.s.entries[n].task.value;
      }
    }
  }

  /** A deadline once set stays. */
  lemma {:induction false} DeadlinesStick<N>(ops: seq<Op<N>>, more: seq<Op<N>>, n: N)
    requires n in Exec(ops).deadlines
    ensures n in Exec(ops + more).deadlines && Exec(ops + more).deadlines[n] == Exec(ops).deadlines[n]
  {
    hide WorldInv, Enabled, TryWait, Expire, Calls;
    if more == [] {
      assert ops + more == ops;
    } else {
      DeadlinesStick(ops, DropLast(more), n);
      assert DropLast(ops + more) == ops + DropLast(more);
      StepKeepsDeadlines(Exec(ops + DropLast(more)), Last(more), n);
    }
  }

  lemma StepKeepsDeadlines<N>(w: World<N>, op: Op<N>, n: N)
    requires WorldInv(w) && n in w.deadlines
    ensures n in Step(w, op).deadlines && Step(w, op).deadlines[n] == w.deadlines[n]
  {
  }

  /**
   * A delay takes at least its duration: in every run in which `n` starts a delay when the clock reads `start`, it has
   * resolved only if the clock has been seen at `start + duration` or, should that overflow, at its last timestamp.
   */
  lemma DelayIsNeverEarly<N>(ops: seq<Op<N>>, n: N, duration: nat, start: nat, more: seq<Op<N>>)
    requires Enabled(Exec(ops), Delay(n, duration, start))
    ensures var w := Exec(ops + [Delay(n, duration, start)] + more);
      n in w.resolved ==>
        w.seen >= w.resolved[n] && (w.resolved[n] >= start + duration || w.resolved[n] == MAX_TIMESTAMP)
  {
    var begun := ops + [Delay(n, duration, start)];
    assert DropLast(begun) == ops;
    DeadlinesStick(begun, more, n);
  }
}
