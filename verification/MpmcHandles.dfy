/** When the channel is closed: by a call, or with its last sender or receiver handle, and never otherwise. */
module MpmcHandles {
  import opened Collections
  import opened MpmcModel
  import opened MpmcInvariants
  import opened MpmcRuns

  /** How many handles of one side there are: one at the start, one more for each clone, one less for each drop. */
  ghost function Handles<R, S, T>(ops: seq<Op<R, S, T>>, clone: Op<R, S, T>, drop: Op<R, S, T>): nat {
    if ops == [] then 1
    else
      var before := Handles(DropLast(ops), clone, drop);
      if before == 0 then 0  // nobody is left who could clone or drop a handle
      else if Last(ops) == clone then before + 1
      else if Last(ops) == drop then before - 1
      else before
  }

  /** The operation at position `k` is a call that closes, or takes the last handle of one side away. */
  ghost predicate Closes<R, S, T>(ops: seq<Op<R, S, T>>, k: nat)
    requires k < |ops|
  {
    || ops[k] == CloseChannel
    || (ops[k] == DropSender && Handles(ops[..k], CloneSender, DropSender) == 1)
    || (ops[k] == DropReceiver && Handles(ops[..k], CloneReceiver, DropReceiver) == 1)
  }

  lemma OtherStepsKeepClosed<R, S, T>(w: World<R, S, T>, op: Op<R, S, T>)
    requires WorldInv(w) && Enabled(w, op) && op !in {CloseChannel, DropSender, DropReceiver}
    ensures Step(w, op).s.isClosed == w.s.isClosed
    ensures Step(w, op).senderHandles == w.senderHandles + (if op == CloneSender then 1 else 0)
    ensures Step(w, op).receiverHandles == w.receiverHandles + (if op == CloneReceiver then 1 else 0)
  {
    hide Inv, SendOrRegister, ReceiveOrRegister, RemoveReceiveWaiter, TryReceive, TrySend;
    InvIsLinked(w.s);
    match op
    case PollSend(n, waker) => PollSendKeepsWorldInv(w, n, waker);
    case TrySendNow(n, value) => TrySendKeepsWorldInv(w, n, value);
    case PollReceive(r, waker) => PollReceiveKeepsWorldInv(w, r, waker);
    case DropReceive(r) => DropReceiverKeepsWorldInv(w, r);
    case TryReceiveNow => TryReceiveKeepsWorldInv(w);
    case _ =>
  }

  /** What a step does to the handles, and when it closes the channel. */
  lemma StepCountsHandles<R, S, T>(w: World<R, S, T>, op: Op<R, S, T>)
    requires WorldInv(w)
    ensures var w' := Step(w, op); var h, k := w.senderHandles, w.receiverHandles;
      && w'.senderHandles ==
        (if h == 0 then 0 else if op == CloneSender then h + 1 else if op == DropSender then h - 1 else h)
      && w'.receiverHandles ==
        (if k == 0 then 0 else if op == CloneReceiver then k + 1 else if op == DropReceiver then k - 1 else k)
      && (w'.s.isClosed <==>
        w.s.isClosed || op == CloseChannel || (op == DropSender && h == 1) || (op == DropReceiver && k == 1))
  {
    hide Inv, CloseCalls;
    InvIsLinked(w.s);
    if Enabled(w, op) && op !in {CloseChannel, DropSender, DropReceiver} {
      hide Step;
      OtherStepsKeepClosed(w, op);
    }
  }

  /** In every run, the channel is closed exactly if some operation has closed it, and the handles are counted right. */
  lemma {:induction false} ClosedOnlyByClosing<R, S, T>(capacity: nat, ops: seq<Op<R, S, T>>)
    ensures Exec(capacity, ops).s.isClosed <==> exists k :: 0 <= k < |ops| && Closes(ops, k)
    ensures Exec(capacity, ops).senderHandles == Handles(ops, CloneSender, DropSender)
    ensures Exec(capacity, ops).receiverHandles == Handles(ops, CloneReceiver, DropReceiver)
  {
    hide Step, WorldInv;
    if ops != [] {
      var last := |ops| - 1;
      ClosedOnlyByClosing(capacity, DropLast(ops));
      StepCountsHandles(Exec(capacity, DropLast(ops)), Last(ops));
      forall k | 0 <= k < last
        ensures Closes(ops, k) <==> Closes(DropLast(ops), k)
      {
        assert ops[..k] == DropLast(ops)[..k];
      }
      assert ops[..last] == DropLast(ops);
      if Exec(capacity, DropLast(ops)).s.isClosed {
        var k :| 0 <= k < last && Closes(DropLast(ops), k);
        assert Closes(ops, k);
      } else if Exec(capacity, ops).s.isClosed {
        assert Closes(ops, last);
      }
    }
  }

  /** In every run, closing reports that it has closed the channel exactly if nothing has closed it before. */
  lemma FirstCloseReports<R, S, T>(capacity: nat, ops: seq<Op<R, S, T>>)
    ensures Close(Exec(capacity, ops).s).1 == NewlyClosed <==> !exists k :: 0 <= k < |ops| && Closes(ops, k)
    ensures Close(Exec(capacity, ops).s).1 == AlreadyClosed <==> exists k :: 0 <= k < |ops| && Closes(ops, k)
  {
    hide Exec;
    ClosedOnlyByClosing(capacity, ops);
  }
}
