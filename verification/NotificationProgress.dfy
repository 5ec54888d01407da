/**
 The locks cannot trap a notification: until something is cancelled or closed, every
 interleaving can be continued so that runTask starts for a pending one, although
 WaitForTaskNotification and Enqueue block while holding a lock.
 */
module NotificationProgress {
  import opened Wrappers
  import opened Notifications
  import opened NotificationSafety
  import opened NotificationDelivery

  predicate Shutting(pc: Pc) {
    pc.QueueClose? || pc.QueueWait? || pc.QueueClosed? || pc.ClientCancel? || pc.ClientMark? || pc.ClientClosed?
  }

  /** Nothing is cancelled and no Close has got its lock. */
  predicate InService(s: State) {
    && s.q.crash.None? && !s.c.cancelled
    && (forall i :: 0 <= i < |s.threads| ==> !Shutting(s.threads[i]))
  }

  /** Steps until a worker is ready for the next task. */
  function ToIdle(w: Worker): nat {
    match w
    case Fresh => 1
    case Idle => 0
    case Exited => 0
    case Busy(job, phase) => if job.Other? || phase.Unlock? then 1 else if phase.Work? then 2 else 3
  }

  function ClientLockWait(s: State): nat {
    match s.c.mx
    case Some(ByThread(i)) => if i < |s.threads| && s.threads[i].WaitCheck? then 2 else 1
    case _ => 0
  }

  function SendWait(pc: Pc, w: Worker): nat {
    if !pc.Enqueue? then 0
    else match pc.stage
      case Locking => 0
      case Testing => 6
      case Sending => 2 + ToIdle(w)
      case Unlocking => 1
  }

  /** How far the pending closure is from the start of runTask along the shortest schedule. */
  function Distance(s: State): nat {
    var w := TheWorker(s);
    if ToStart(w) then
      match w.phase
      case Start => 1
      case Drain => 2
      case Look => 3
      case _ => 4 + ClientLockWait(s)
    else
      var pc := TheWatcher(s);
      if pc.Enqueue? && pc.stage.Locking? then 14 + SendWait(Holder(s), w)
      else 6 + SendWait(pc, w)
  }

  /** The goroutine the pending closure is waiting for. */
  function NextMove(s: State): Action {
    var w, pc := TheWorker(s), TheWatcher(s);
    if ToStart(w) then
      match s.c.mx
      case Some(ByThread(i)) => Run(i, GoOn)
      case _ => RunWorker(0)
    else
      var i := if pc.Enqueue? && pc.stage.Locking? && s.q.mx.Some? then s.q.mx.value
               else if s.c.watcher.Some? then s.c.watcher.value else 0;
      if i < |s.threads| && s.threads[i].Enqueue? && s.threads[i].stage.Sending? then
        if w.Idle? then HandOver(i, 0) else RunWorker(0)
      else Run(i, GoOn)
  }

  predicate PendingIn(s: State) { Pending(TheWatcher(s), TheWorker(s)) }

  predicate Starts(log: seq<Event>, later: seq<Event>) {
    |later| == |log| + 1 && later[..|log|] == log && later[|log|].RunStarted?
  }

  /** `t` has started runTask, or has the closure still pending and closer to it. */
  predicate Nearer(s: State, t: State) {
    || Starts(s.c.log, t.c.log)
    || (t.c.log == s.c.log && InService(t) && PendingIn(t) && Distance(t) < Distance(s))
  }

  predicate Waiting(s: State) { Inv(s) && ClientSide(s) && InService(s) && PendingIn(s) }

  /** The worker has the closure and its next operation is not blocked. */
  lemma {:induction false} WorkerServes(s: State)
    requires Waiting(s) && ToStart(TheWorker(s)) && NextMove(s).RunWorker? && Inv(Do(s, NextMove(s)))
    ensures Nearer(s, Do(s, NextMove(s)))
  {
    hide OrderInv, NotLost, QuietAfterClose, ClosedInv;
    assert s.workers[0] == TheWorker(s);
    if InClosure(s.workers[0]) {
      assert s.c.mx == Some(ByWorker(0));
    }
  }

  /** The closure waits for the client's lock, which a repeated WaitForTaskNotification is about to give back. */
  lemma {:induction false} LockServes(s: State)
    requires Waiting(s) && ToStart(TheWorker(s)) && NextMove(s).Run? && Inv(Do(s, NextMove(s)))
    ensures Nearer(s, Do(s, NextMove(s)))
  {
    hide OrderInv, NotLost, QuietAfterClose, ClosedInv;
    assert s.workers[0] == TheWorker(s);
    var i := s.c.mx.value.i;
    assert HoldsClient(s.threads[i]) && !Spawning(s.threads[i]);
    if s.c.watcher == Some(i) {
      assert !IsWatcher(s.threads[i]);
    }
  }

  /** The sender has the queue's lock, or takes it. */
  lemma {:induction false} SenderServes(s: State)
    requires Waiting(s) && !ToStart(TheWorker(s)) && Inv(Do(s, NextMove(s)))
    requires TheWatcher(s).stage.Locking? ==> s.q.mx.None?
    ensures Nearer(s, Do(s, NextMove(s)))
  {
    hide OrderInv, NotLost, QuietAfterClose, ClosedInv;
  }

  /** The sender waits for another Enqueue, which can go on. */
  lemma {:induction false} HolderServes(s: State)
    requires Waiting(s) && !ToStart(TheWorker(s)) && Inv(Do(s, NextMove(s)))
    requires TheWatcher(s).stage.Locking? && s.q.mx.Some?
    ensures Nearer(s, Do(s, NextMove(s)))
  {
    hide OrderInv, NotLost, QuietAfterClose, ClosedInv;
  }

  lemma {:induction false} Serves(s: State)
    requires Waiting(s) && Inv(Do(s, NextMove(s)))
    ensures Nearer(s, Do(s, NextMove(s)))
  {
    if ToStart(TheWorker(s)) {
      hide Waiting, Nearer, Do;
      if NextMove(s).Run? {
        LockServes(s);
      } else {
        WorkerServes(s);
      }
    } else {
      assert TheWatcher(s).Enqueue?;
      hide Waiting, Nearer, Do;
      if TheWatcher(s).stage.Locking? && s.q.mx.Some? {
        HolderServes(s);
      } else {
        SenderServes(s);
      }
    }
  }

  /** A pending notification can always be served. */
  lemma {:induction false} PendingCanBeServed(acts: seq<Action>) returns (more: seq<Action>)
    requires InService(Reach(acts)) && PendingIn(Reach(acts))
    ensures Reach(acts).c.log < Reach(acts + more).c.log
    ensures Reach(acts + more).c.log[|Reach(acts).c.log|].RunStarted?
    decreases Distance(Reach(acts))
  {
    hide InService, PendingIn, Distance, Inv, ClientSide, Do;
    var s := Reach(acts);
    var move := NextMove(s);
    var next := acts + [move];
    assert next[..|acts|] == acts;
    ReachDelivers(acts);
    DoKeeps(s, move);
    Serves(s);
    if Starts(s.c.log, Reach(next).c.log) {
      more := [move];
    } else {
      var rest := PendingCanBeServed(next);
      more := [move] + rest;
      assert acts + more == next + rest;
    }
  }

  /** So a notification that was received and dealt with can always still get its run. */
  lemma {:induction false} NotificationCanBeServed(acts: seq<Action>, n: nat) returns (more: seq<Action>)
    requires InService(Reach(acts)) && n < |Reach(acts).c.log| && Reach(acts).c.log[n].Received?
    requires forall i :: 0 <= i < |Reach(acts).threads| ==> Reach(acts).threads[i] != Decide(n)
    ensures RunAfter(Reach(acts + more).c.log, n)
  {
    hide Inv, Do, WatcherInv, SlotInv, ClosedInv, QuietAfterClose, Reach;
    ReachDelivers(acts);
    var s := Reach(acts);
    if RunAfter(s.c.log, n) {
      more := [];
      assert acts + more == acts;
    } else {
      assert TheWatcher(s) != Decide(n);
      more := PendingCanBeServed(acts);
    }
  }
}
