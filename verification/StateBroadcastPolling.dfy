/** What a state broadcast channel answers, whom it wakes, and in which order. */
module StateBroadcastPolling {
  import opened Collections
  import opened Registrations
  import opened StateBroadcastModel

  // ---- Sending and closing ----

  /** A value is accepted exactly by an open channel that has an id left; then everybody who waits is released. */
  lemma OpenChannelAccepts<N, T>(s: State<N, T>, value: T)
    requires Inv(s)
    ensures var (t, rejected) := Send(s, value);
      if !s.isClosed && s.stateId < MAX_STATE_ID
      then rejected == None && t.value == Some(value) && t.stateId == s.stateId + 1 && ReleasesEverybody(s, t)
      else rejected == Some(value) && t == s
  {
  }

  /** The queue is empty, and whoever was in it may try again for what it has asked for. */
  ghost predicate ReleasesEverybody<N, T>(s: State<N, T>, t: State<N, T>) {
    && t.waiters == [] && t.entries.Keys == s.entries.Keys
    && (forall n | n in s.entries :: t.entries[n].state == Unregistered && t.entries[n].stateId == s.entries[n].stateId)
  }

  /** In every run, the channel is closed exactly if somebody has closed it; only the first call reports that. */
  lemma {:induction false} FirstCloseReports<N, T>(ops: seq<Op<N, T>>)
    ensures Exec(ops).s.isClosed <==> CloseChannel in ops
    ensures Close(Exec(ops).s).1 == NewlyClosed <==> CloseChannel !in ops
    ensures Close(Exec(ops).s).0.isClosed
  {
    hide WorldInv;
    if ops != [] {
      FirstCloseReports(DropLast(ops));
      assert ops == DropLast(ops) + [Last(ops)];
      OnlyClosingCloses(Exec(DropLast(ops)), Last(ops));
    }
  }

  lemma OnlyClosingCloses<N, T>(w: World<N, T>, op: Op<N, T>)
    requires WorldInv(w)
    ensures Step(w, op).s.isClosed <==> w.s.isClosed || op == CloseChannel
  {
  }

  // ---- Whom a waiting future has woken ----

  /** A future that has to wait is queued, once, and remembers the task that has polled it; nothing else changes. */
  lemma PendingPollRemembersTheTask<N, T>(s: State<N, T>, n: N, waker: Waker)
    requires Inv(s) && n in s.entries && ReceiveOrRegister(s, n, waker).1.Pending?
    ensures ReceiveOrRegister(s, n, waker).0 == s.(
      waiters := if n in s.waiters then s.waiters else [n] + s.waiters,
      entries := s.entries[n := RecvEntry(Some(waker), Registered, s.entries[n].stateId)])
  {
  }

  /** The waker of the latest poll of a receiver's future. */
  ghost function LatestWaker<N, T>(ops: seq<Op<N, T>>, n: N): Option<Waker> {
    if ops == [] then None
    else if Last(ops).PollFuture? && Last(ops).n == n then Some(Last(ops).waker)
    else LatestWaker(DropLast(ops), n)
  }

  ghost predicate Waits<N, T>(s: State<N, T>, n: N) {
    n in s.entries && s.entries[n].state == Registered
  }

  /** Nobody else changes which task a waiting future has woken, or makes a future wait. */
  lemma OnlyPollsRegister<N, T>(w: World<N, T>, op: Op<N, T>, n: N)
    requires WorldInv(w) && Waits(Step(w, op).s, n) && !(op.PollFuture? && op.n == n)
    ensures Waits(w.s, n) && Step(w, op).s.entries[n] == w.s.entries[n]
  {
    hide Calls, Without;
  }

  lemma PollRegisters<N, T>(w: World<N, T>, n: N, waker: Waker)
    requires WorldInv(w) && Waits(Step(w, PollFuture(n, waker)).s, n)
    ensures Step(w, PollFuture(n, waker)).s.entries[n].task == Some(waker)
  {
    hide ReceiveOrRegister;
    if n in w.s.entries && ReceiveOrRegister(w.s, n, waker).1.Pending? {
      PendingPollRemembersTheTask(w.s, n, waker);
    } else if n in w.s.entries {
      ReceiveOrRegisterKeepsInv(w.s, n, waker);
    }
  }

  /** In every run, a waiting future remembers the task that has polled it last. */
  lemma {:induction false} WaiterRemembersLatestPoll<N, T>(ops: seq<Op<N, T>>, n: N)
    requires Waits(Exec(ops).s, n)
    ensures Exec(ops).s.entries[n].task == LatestWaker(ops, n)
  {
    hide Step, WorldInv;
    if ops != [] {
      var w, op := Exec(DropLast(ops)), Last(ops);
      if op.PollFuture? && op.n == n {
        PollRegisters(w, n, op.waker);
      } else {
        OnlyPollsRegister(w, op, n);
        WaiterRemembersLatestPoll(DropLast(ops), n);
      }
    }
  }

  /** What a receiver has asked for stays until its future is finished. */
  lemma AskedIdStands<N, T>(w: World<N, T>, op: Op<N, T>, n: N)
    requires WorldInv(w)
    ensures var w' := Step(w, op);
      && (n in w.s.entries && n in w'.s.entries ==> w'.s.entries[n].stateId == w.s.entries[n].stateId)
      && (n !in w.s.entries && n in w'.s.entries ==>
        op.Receive? && op.n == n &&
        w'.s.entries[n].stateId == (if SeenBy(w, n) == [] then op.first else Last(SeenBy(w, n)).0))
  {
    hide Calls, Without;
  }

  /** Receiving without waiting gives the current value exactly if it is newer than what the receiver has seen. */
  lemma TryReceiveGivesNewer<N, T>(w: World<N, T>, n: N, first: nat)
    requires WorldInv(w) && Enabled(w, TryReceiveNow(n, first))
    ensures var asked := if SeenBy(w, n) == [] then first else Last(SeenBy(w, n)).0;
      var w' := Step(w, TryReceiveNow(n, first));
      && w'.s == w.s && w'.wakes == w.wakes
      && (if asked < w.s.stateId
        then w.s.value.Some? && SeenBy(w', n) == SeenBy(w, n) + [(w.s.stateId, w.s.value.value)]
        else SeenBy(w', n) == SeenBy(w, n))
  {
  }

  /** A poll that gives a value finishes the future, and the receiver has seen that value from then on. */
  lemma PollGivesNewer<N, T>(w: World<N, T>, n: N, waker: Waker)
    requires WorldInv(w) && n in w.s.entries
    ensures var w' := Step(w, PollFuture(n, waker));
      if w.s.entries[n].stateId < w.s.stateId
      then
        && w.s.value.Some? && n !in w'.s.entries
        && SeenBy(w', n) == SeenBy(w, n) + [(w.s.stateId, w.s.value.value)]
      else SeenBy(w', n) == SeenBy(w, n) && (n in w'.s.entries <==> !w.s.isClosed)
  {
    hide ReceiveOrRegister;
    PollTells(w.s, n, waker);
    ReceiveOrRegisterKeepsInv(w.s, n, waker);
  }

  // ---- In which order ----

  /** The queue at the start and after each operation of a run. */
  ghost function Queues<N, T>(ops: seq<Op<N, T>>): (q: seq<seq<N>>)
    ensures q != [] && Last(q) == Exec(ops).s.waiters
  {
    (if ops == [] then [] else Queues(DropLast(ops))) + [Exec(ops).s.waiters]
  }

  lemma StepKeepsOrder<N, T>(w: World<N, T>, op: Op<N, T>)
    requires WorldInv(w)
    ensures Follows(w.s.waiters, Step(w, op).s.waiters)
  {
    hide Follows, Calls, Without;
    StayingFollows(w.s.waiters);
    OldestLeavingFollows(w.s.waiters, 0);
    if Enabled(w, op) && op.DropFuture? {
      LeavingFollows(w.s.waiters, op.n);
    } else if Enabled(w, op) && op.PollFuture? && op.n !in w.s.waiters {
      JoiningFollows(w.s.waiters, op.n);
    }
  }

  /** In every run, the queue lists the waiters in the order in which they have joined it, the newest first. */
  lemma {:induction false} QueueIsInOrder<N, T>(ops: seq<Op<N, T>>)
    ensures NewestFirst(Queues(ops))
  {
    hide Step, Follows, WorldInv;
    if ops != [] {
      QueueIsInOrder(DropLast(ops));
      StepKeepsOrder(Exec(DropLast(ops)), Last(ops));
      NewestStaysFirst(Queues(DropLast(ops)), Exec(ops).s.waiters);
    }
  }

  /**
   * In every run, a value that is accepted, or closing, calls everybody in the queue exactly once: the task that has
   * polled each future last, in the order in which the futures have queued up. Nothing else calls anybody.
   */
  lemma EverybodyIsCalledInOrder<N, T>(ops: seq<Op<N, T>>, op: Op<N, T>)
    ensures var w, w', q := Exec(ops), Exec(ops + [op]), Exec(ops).s.waiters;
      if !w.s.isClosed && (op == CloseChannel || (op.SendValue? && w.s.stateId < MAX_STATE_ID))
      then
        && w'.s.waiters == [] && w.wakes <= w'.wakes && |w'.wakes| == |w.wakes| + |q|
        && (forall i | 0 <= i < |q| ::
          LatestWaker(ops, q[i]) == Some(w'.wakes[|w'.wakes| - 1 - i]) &&
          forall j | i < j < |q| :: Since(Queues(ops), q[j]) < Since(Queues(ops), q[i]))
      else w'.wakes == w.wakes
  {
    hide Exec, Calls, Queues, Since, LatestWaker;
    var w := Exec(ops);
    ExecStep(ops, op);
    QueueIsInOrder(ops);
    CallsAreOldestFirst(w.s.waiters, w.s.entries);
    forall i | 0 <= i < |w.s.waiters|
      ensures w.s.waiters[i] in w.s.entries
      ensures w.s.entries[w.s.waiters[i]].task == LatestWaker(ops, w.s.waiters[i])
    {
      assert Waits(w.s, w.s.waiters[i]);
      WaiterRemembersLatestPoll(ops, w.s.waiters[i]);
    }
  }
}
