/** Whole runs of a semaphore: any interleaving of acquiring, polling, dropping and releasing by any number of tasks. */
module SemaphoreRuns {
  import opened Collections
  import opened SemaphoreModel
  import opened SemaphoreInvariants

  /**
   * A semaphore with everything that is attached to it. `releasers` lists the permits that each live releaser returns.
   * `arrivals`, `grants` and `cancelled` record history: who asked for permits first, who got them in which order, and
   * who gave up while waiting. Requests for no permits at all are not recorded.
   */
  datatype World<N> = World(
    s: State<N>,
    initial: nat,
    added: nat,
    releasers: seq<nat>,
    disarmed: nat,
    used: set<N>,
    arrivals: seq<N>,
    grants: seq<N>,
    cancelled: set<N>)

  datatype Op<N> =
    | Acquire(n: N, permits: nat)
    | PollFuture(n: N, waker: Waker)
    | DropFuture(n: N)
    | TryAcquireNow(n: N, permits: nat)
    | Disarm(i: nat)
    | DropReleaser(i: nat)
    | ReleaseByHand(permits: nat)

  ghost function Start<N>(isFair: bool, permits: nat): World<N> {
    World(State(isFair, permits, [], map[], []), permits, 0, [], 0, {}, [], [], {})
  }

  /** What the API lets a caller do; in particular a finished future is not polled again. */
  ghost predicate Enabled<N>(w: World<N>, op: Op<N>) {
    match op
    case Acquire(n, _) => n !in w.used
    case PollFuture(n, _) => n in w.s.entries && w.s.entries[n].state != Done
    case DropFuture(n) => n in w.s.entries
    case TryAcquireNow(n, _) => n !in w.used
    case Disarm(i) => i < |w.releasers|
    case DropReleaser(i) => i < |w.releasers|
    case ReleaseByHand(_) => true
  }

  /** Appends `n` to a history unless its request was for nothing. */
  ghost function Record<N>(history: seq<N>, n: N, permits: nat): seq<N> {
    if permits == 0 then history else history + [n]
  }

  ghost function Step<N>(w: World<N>, op: Op<N>): World<N>
    requires Inv(w.s)
  {
    if !Enabled(w, op) then w else
    match op
    case Acquire(n, permits) =>
      w.(s := w.s.(entries := w.s.entries[n := WaitQueueEntry(None, New, permits)]), used := w.used + {n})
    case PollFuture(n, waker) =>
      var e := w.s.entries[n];
      var (s, result) := Polled(w.s, n, waker);
      var w' := w.(s := s, arrivals := if e.state == New then Record(w.arrivals, n, e.requiredPermits) else w.arrivals);
      if result.Ready?
      then w'.(releasers := w.releasers + [e.requiredPermits], grants := Record(w.grants, n, e.requiredPermits))
      else w'
    case DropFuture(n) =>
      w.(s := Dropped(w.s, n),
         cancelled := if w.s.entries[n].state in {Waiting, Notified} then w.cancelled + {n} else w.cancelled)
    case TryAcquireNow(n, permits) =>
      var (s, acquired) := TryAcquireSync(w.s, permits);
      if acquired
      then w.(s := s, used := w.used + {n}, releasers := w.releasers + [permits],
              arrivals := Record(w.arrivals, n, permits), grants := Record(w.grants, n, permits))
      else w
    case Disarm(i) =>
      w.(releasers := w.releasers[i := 0], disarmed := w.disarmed + w.releasers[i])
    case DropReleaser(i) =>
      w.(s := Release(w.s, w.releasers[i]), releasers := w.releasers[..i] + w.releasers[i + 1..])
    case ReleaseByHand(permits) =>
      w.(s := Release(w.s, permits), added := w.added + permits)
  }

  /** Finished futures are detached. */
  ghost predicate NobodyDone<N>(s: State<N>) {
    forall n | n in s.entries :: s.entries[n].state != Done
  }

  ghost predicate WorldInv<N>(w: World<N>) {
    && Inv(w.s)
    && NobodyDone(w.s)
    && w.s.entries.Keys <= w.used
    && w.s.permits + Sum(w.releasers) + w.disarmed == w.initial + w.added
  }

  /** The state after a run; operations that the API does not offer at that point are skipped. */
  ghost function Exec<N>(isFair: bool, permits: nat, ops: seq<Op<N>>): (w: World<N>)
    ensures WorldInv(w)
    ensures w.s.isFair == isFair && w.initial == permits
  {
    if ops == [] then Start(isFair, permits)
    else
      var w := Exec(isFair, permits, DropLast(ops));
      StepKeepsWorldInv(w, Last(ops));
      Step(w, Last(ops))
  }

  lemma ExecStep<N>(isFair: bool, permits: nat, ops: seq<Op<N>>, op: Op<N>)
    ensures Exec(isFair, permits, ops + [op]) == Step(Exec(isFair, permits, ops), op)
  {
    assert DropLast(ops + [op]) == ops;
  }

  lemma ExecPrefix<N>(isFair: bool, permits: nat, ops: seq<Op<N>>, k: nat)
    requires k < |ops|
    ensures Exec(isFair, permits, ops[..k + 1]) == Step(Exec(isFair, permits, ops[..k]), ops[k])
  {
    assert DropLast(ops[..k + 1]) == ops[..k];
  }

  function Sum(s: seq<nat>): nat {
    if s == [] then 0 else Sum(DropLast(s)) + Last(s)
  }

  lemma {:induction false} SumAppend(s: seq<nat>, t: seq<nat>)
    ensures Sum(s + t) == Sum(s) + Sum(t)
  {
    if t == [] {
      assert s + t == s;
    } else {
      assert DropLast(s + t) == s + DropLast(t);
      SumAppend(s, DropLast(t));
    }
  }

  lemma SumAt(s: seq<nat>, i: nat)
    requires i < |s|
    ensures Sum(s[..i] + s[i + 1..]) == Sum(s) - s[i]
    ensures Sum(s[i := 0]) == Sum(s) - s[i]
  {
    assert s == s[..i] + ([s[i]] + s[i + 1..]);
    assert s[i := 0] == s[..i] + ([0] + s[i + 1..]);
    SumAppend(s[..i], [s[i]] + s[i + 1..]);
    SumAppend([s[i]], s[i + 1..]);
    SumAppend(s[..i], [0] + s[i + 1..]);
    SumAppend([0], s[i + 1..]);
    SumAppend(s[..i], s[i + 1..]);
  }

  lemma PolledIsDetached<N>(s: State<N>, n: N, waker: Waker)
    requires Inv(s) && NobodyDone(s) && n in s.entries
    ensures NobodyDone(Polled(s, n, waker).0)
  {
    hide WakeLoop;
    UnlinkLinked(s, n);
  }

  lemma DroppedIsDetached<N>(s: State<N>, n: N)
    requires Inv(s) && NobodyDone(s) && n in s.entries
    ensures NobodyDone(Dropped(s, n))
  {
    hide WakeLoop;
    UnlinkLinked(s, n);
  }

  lemma ReleaseFinishesNobody<N>(s: State<N>, permits: nat)
    requires Inv(s) && NobodyDone(s)
    ensures NobodyDone(Release(s, permits))
  {
    hide WakeLoop;
  }

  /** One step of a run keeps the protocol invariant, loses no permit and invents none. */
  lemma StepKeepsWorldInv<N>(w: World<N>, op: Op<N>)
    requires WorldInv(w)
    ensures WorldInv(Step(w, op))
    ensures Step(w, op).s.isFair == w.s.isFair && Step(w, op).initial == w.initial
  {
    hide Inv, Polled, Dropped, Release;
    if Enabled(w, op) {
      match op
      case Acquire(n, permits) =>
        NewFutureKeepsInv(w.s, n, permits);
      case PollFuture(n, waker) =>
        PolledKeepsInv(w.s, n, waker);
        PolledIsDetached(w.s, n, waker);
        SumAppend(w.releasers, [w.s.entries[n].requiredPermits]);
      case DropFuture(n) =>
        DropKeepsInv(w.s, n);
        DroppedIsDetached(w.s, n);
      case TryAcquireNow(n, permits) =>
        TryAcquireSyncKeepsInv(w.s, permits);
        SumAppend(w.releasers, [permits]);
      case Disarm(i) =>
        SumAt(w.releasers, i);
      case DropReleaser(i) =>
        ReleaseKeepsInv(w.s, w.releasers[i]);
        ReleaseFinishesNobody(w.s, w.releasers[i]);
        SumAt(w.releasers, i);
      case ReleaseByHand(permits) =>
        ReleaseKeepsInv(w.s, permits);
        ReleaseFinishesNobody(w.s, permits);
    }
  }
}
