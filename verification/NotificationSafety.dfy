/** What every interleaving of the task queue and the notification handling keeps. */
module NotificationSafety {
  import opened Wrappers
  import opened Notifications

  // ---------------------------------------------------------------- the invariant

  predicate HoldsQueue(pc: Pc) {
    (pc.Enqueue? && !pc.stage.Locking?) || pc.QueueClose? || pc.QueueWait? || pc.QueueClosed?
  }

  predicate Spawning(pc: Pc) { pc.WaitSpawn? || (pc.Enqueue? && pc.next.StartWatcher?) }

  predicate HoldsClient(pc: Pc) {
    || pc.WaitCheck? || pc.WaitUnlock? || Spawning(pc)
    || pc.ClientCancel? || pc.ClientMark? || pc.ClientClosed?
  }

  predicate InClosure(w: Worker) { w.Busy? && !w.phase.Lock? && w.job.Notice? }

  /** Each mutex is held by exactly the goroutine whose position says so. */
  predicate QueueLockInv(s: State) {
    && (forall i :: 0 <= i < |s.threads| ==> (HoldsQueue(s.threads[i]) <==> s.q.mx == Some(i)))
    && (s.q.mx.Some? ==> s.q.mx.value < |s.threads|)
  }

  predicate ClientLockInv(s: State) {
    && (forall i :: 0 <= i < |s.threads| ==> (HoldsClient(s.threads[i]) <==> s.c.mx == Some(ByThread(i))))
    && (forall k :: 0 <= k < |s.workers| ==> (InClosure(s.workers[k]) <==> s.c.mx == Some(ByWorker(k))))
    && (s.c.mx.Some? ==>
          if s.c.mx.value.ByThread? then s.c.mx.value.i < |s.threads| else s.c.mx.value.k < |s.workers|)
  }

  predicate WellFormed(pc: Pc) { pc.Enqueue? ==> (pc.job.Notice? <==> pc.next.Receive?) }

  predicate WorkerFormed(w: Worker) { w.Busy? && w.job.Other? ==> w.phase.Work? }

  predicate Formed(s: State) {
    && (forall i :: 0 <= i < |s.threads| ==> WellFormed(s.threads[i]))
    && (forall k :: 0 <= k < |s.workers| ==> WorkerFormed(s.workers[k]))
  }

  /** The goroutine inside the queue's mutex, if there is one. */
  function Holder(s: State): Pc {
    if s.q.mx.Some? && s.q.mx.value < |s.threads| then s.threads[s.q.mx.value] else Gone
  }

  /** The task whose Enqueue has taken the lock and not yet handed it over. */
  function InHand(pc: Pc): seq<Job> {
    if pc.Enqueue? && (pc.stage.Testing? || pc.stage.Sending?) then [pc.job] else []
  }

  function Current(workers: seq<Worker>): seq<Job> {
    if |workers| == 1 && workers[0].Busy? then [workers[0].job] else []
  }

  /** One worker at most, counted by the wait group from its start to its exit. */
  predicate QueueInv(s: State) {
    var h := Holder(s);
    && |s.workers| <= 1 && (s.workers == [] <==> s.q.tc.Unmade?)
    && (s.q.tc.Closed? <==> h.QueueWait? || h.QueueClosed?)
    && (h.Enqueue? && !h.stage.Testing? ==> s.q.tc.Open?)
    && s.q.wg == (if |s.workers| == 1 && (s.workers[0].Idle? || s.workers[0].Busy?) then 1 else 0)
    && (|s.workers| == 1 && s.workers[0].Fresh? ==> h.Enqueue? && h.stage.Sending?)
    && (|s.workers| == 1 && s.workers[0].Exited? ==> s.q.tc.Closed?)
    && (h.QueueClosed? ==> s.workers == [Exited])
  }

  predicate OrderInv(s: State) {
    && s.q.accepted == s.q.begun + InHand(Holder(s))
    && s.q.begun == s.q.finished + Current(s.workers)
    && (if s.workers == [] then s.q.begun == [] else s.q.accepted != [])
    && (s.q.crash.Some? ==> s.q.crash.value.CloseOfNil? && s.q.accepted == [])
  }

  predicate QueueSide(s: State) { QueueLockInv(s) && QueueInv(s) && OrderInv(s) }

  predicate Inv(s: State) {
    QueueSide(s) && ClientLockInv(s) && Formed(s)
  }

  // ---------------------------------------------------------------- it is kept

  predicate SameQueue(s: State, t: State) { t.workers == s.workers && t.q == s.q }

  /** `t` is `s` with goroutine `i` moved and perhaps a new goroutine that holds nothing. */
  predicate Moved(s: State, t: State, i: nat) {
    && i < |s.threads| <= |t.threads|
    && (forall j :: 0 <= j < |s.threads| && j != i ==> t.threads[j] == s.threads[j])
    && (forall j :: |s.threads| <= j < |t.threads| ==> !HoldsQueue(t.threads[j]) && !HoldsClient(t.threads[j]))
  }

  lemma {:induction false} OutsideQueue(s: State, t: State, i: nat)
    requires QueueSide(s) && Moved(s, t, i) && SameQueue(s, t)
    requires !HoldsQueue(s.threads[i]) && !HoldsQueue(t.threads[i])
    ensures QueueSide(t)
  {
    hide HoldsQueue, HoldsClient;
    assert QueueLockInv(t);
    assert Holder(t) == Holder(s);
  }

  lemma {:induction false} OutsideClient(s: State, t: State, i: nat)
    requires ClientLockInv(s) && Moved(s, t, i) && t.c.mx == s.c.mx && |t.workers| >= |s.workers|
    requires forall k :: 0 <= k < |s.workers| ==> t.workers[k] == s.workers[k]
    requires forall k :: |s.workers| <= k < |t.workers| ==> !InClosure(t.workers[k])
    requires HoldsClient(s.threads[i]) == HoldsClient(t.threads[i])
    ensures ClientLockInv(t)
  {
    hide HoldsClient, HoldsQueue, InClosure;
    if s.c.mx == Some(ByThread(i)) {
      assert HoldsClient(s.threads[i]);
    }
  }

  lemma {:induction false} EnqueueKeepsLock(s: State, i: nat)
    requires QueueLockInv(s) && i < |s.threads| && s.threads[i].Enqueue?
    ensures QueueLockInv(StepEnqueue(s, i))
  {
    hide HoldsClient;
  }

  lemma {:induction false} EnqueueKeepsQueue(s: State, i: nat)
    requires QueueLockInv(s) && QueueInv(s) && i < |s.threads| && s.threads[i].Enqueue?
    requires QueueLockInv(StepEnqueue(s, i))
    ensures QueueInv(StepEnqueue(s, i))
  {
  }

  lemma {:induction false} EnqueueKeepsOrder(s: State, i: nat)
    requires QueueSide(s) && i < |s.threads| && s.threads[i].Enqueue? && s.q.crash.None?
    requires QueueLockInv(StepEnqueue(s, i))
    ensures OrderInv(StepEnqueue(s, i))
  {
  }

  lemma {:induction false} QueueCloseKeepsLock(s: State, i: nat)
    requires QueueLockInv(s) && i < |s.threads|
    ensures QueueLockInv(StepQueueClose(s, i))
  {
    hide HoldsClient;
  }

  lemma {:induction false} QueueCloseKeepsQueue(s: State, i: nat)
    requires QueueLockInv(s) && QueueInv(s) && i < |s.threads|
    requires QueueLockInv(StepQueueClose(s, i))
    ensures QueueInv(StepQueueClose(s, i))
  {
  }

  lemma {:induction false} QueueCloseKeepsOrder(s: State, i: nat)
    requires QueueSide(s) && i < |s.threads| && s.q.crash.None?
    requires QueueLockInv(StepQueueClose(s, i))
    ensures OrderInv(StepQueueClose(s, i))
  {
  }

  predicate InQueueCode(pc: Pc) {
    pc.Enqueue? || pc.QueueLock? || pc.QueueClose? || pc.QueueWait? || pc.QueueClosed?
  }

  /** The client's code outside Enqueue leaves the queue alone. */
  lemma {:induction false} WatcherStays(s: State, i: nat, pick: Pick)
    requires i < |s.threads| && !InQueueCode(s.threads[i])
    ensures var t := StepWatcher(s, i, pick); Moved(s, t, i) && SameQueue(s, t) && !HoldsQueue(t.threads[i])
  {
    hide HoldsClient;
  }

  lemma {:induction false} WaitStays(s: State, i: nat)
    requires i < |s.threads| && !InQueueCode(s.threads[i])
    ensures var t := StepWait(s, i); Moved(s, t, i) && SameQueue(s, t) && !HoldsQueue(t.threads[i])
  {
  }

  lemma {:induction false} ClientCloseStays(s: State, i: nat)
    requires i < |s.threads| && !InQueueCode(s.threads[i])
    ensures var t := StepClientClose(s, i); Moved(s, t, i) && SameQueue(s, t) && !HoldsQueue(t.threads[i])
  {
    hide HoldsClient;
  }

  lemma {:induction false} ThreadKeepsQueueSide(s: State, i: nat, pick: Pick)
    requires QueueSide(s) && i < |s.threads| && s.q.crash.None?
    ensures QueueSide(StepThread(s, i, pick))
  {
    if s.threads[i].Enqueue? {
      hide QueueLockInv, QueueInv, OrderInv, StepEnqueue;
      EnqueueKeepsLock(s, i);
      EnqueueKeepsQueue(s, i);
      EnqueueKeepsOrder(s, i);
    } else if InQueueCode(s.threads[i]) {
      hide QueueLockInv, QueueInv, OrderInv, StepQueueClose;
      QueueCloseKeepsLock(s, i);
      QueueCloseKeepsQueue(s, i);
      QueueCloseKeepsOrder(s, i);
    } else {
      hide QueueSide, Moved, SameQueue, StepWait, StepWatcher, StepClientClose;
      WatcherStays(s, i, pick);
      WaitStays(s, i);
      ClientCloseStays(s, i);
      OutsideQueue(s, StepThread(s, i, pick), i);
    }
  }

  // -- the client's lock

  lemma {:induction false} EnqueueStepMoves(s: State, i: nat)
    requires QueueSide(s) && i < |s.threads| && s.threads[i].Enqueue?
    ensures var t := StepEnqueue(s, i);
            && Moved(s, t, i) && t.c.mx == s.c.mx && |t.workers| >= |s.workers|
            && (forall k :: 0 <= k < |s.workers| ==> t.workers[k] == s.workers[k])
            && (forall k :: |s.workers| <= k < |t.workers| ==> !InClosure(t.workers[k]))
            && HoldsClient(s.threads[i]) == HoldsClient(t.threads[i])
  {
    hide QueueSide;
  }

  lemma {:induction false} QueueCloseMoves(s: State, i: nat)
    requires i < |s.threads| && InQueueCode(s.threads[i]) && !s.threads[i].Enqueue?
    ensures var t := StepQueueClose(s, i);
            && Moved(s, t, i) && t.c.mx == s.c.mx && t.workers == s.workers
            && !HoldsClient(s.threads[i]) && !HoldsClient(t.threads[i])
  {
  }

  lemma {:induction false} WatcherMoves(s: State, i: nat, pick: Pick)
    requires i < |s.threads|
    ensures var t := StepWatcher(s, i, pick);
            && Moved(s, t, i) && t.c.mx == s.c.mx && t.workers == s.workers
            && HoldsClient(s.threads[i]) == HoldsClient(t.threads[i])
  {
  }

  lemma {:induction false} WaitKeepsClientLock(s: State, i: nat)
    requires ClientLockInv(s) && i < |s.threads|
    ensures ClientLockInv(StepWait(s, i))
  {
  }

  lemma {:induction false} ClientCloseKeepsClientLock(s: State, i: nat)
    requires ClientLockInv(s) && i < |s.threads|
    ensures ClientLockInv(StepClientClose(s, i))
  {
  }

  lemma {:induction false} ThreadKeepsClientLock(s: State, i: nat, pick: Pick)
    requires QueueSide(s) && ClientLockInv(s) && i < |s.threads|
    ensures ClientLockInv(StepThread(s, i, pick))
  {
    var t := StepThread(s, i, pick);
    if s.threads[i].Enqueue? {
      hide ClientLockInv, Moved, QueueSide, StepEnqueue;
      EnqueueStepMoves(s, i);
      OutsideClient(s, t, i);
    } else if InQueueCode(s.threads[i]) {
      hide ClientLockInv, Moved, QueueSide, StepQueueClose;
      QueueCloseMoves(s, i);
      OutsideClient(s, t, i);
    } else {
      hide ClientLockInv, Moved, QueueSide, StepWait, StepWatcher, StepClientClose;
      WatcherMoves(s, i, pick);
      if t == StepWatcher(s, i, pick) {
        OutsideClient(s, t, i);
      }
      WaitKeepsClientLock(s, i);
      ClientCloseKeepsClientLock(s, i);
    }
  }

  lemma {:induction false} WorkerKeepsQueueSide(s: State, k: nat)
    requires QueueSide(s) && k < |s.workers| && s.q.crash.None?
    ensures QueueSide(StepWorker(s, k))
  {
    hide HoldsQueue;
    assert Holder(StepWorker(s, k)) == Holder(s);
  }

  lemma {:induction false} WorkerKeepsClientLock(s: State, k: nat)
    requires ClientLockInv(s) && Formed(s) && k < |s.workers|
    ensures ClientLockInv(StepWorker(s, k))
  {
    hide HoldsClient;
  }

  lemma {:induction false} MeetKeepsQueueSide(s: State, i: nat, k: nat)
    requires QueueSide(s) && i < |s.threads| && k < |s.workers|
    ensures QueueSide(Meet(s, i, k))
  {
  }

  lemma {:induction false} MeetKeepsClientLock(s: State, i: nat, k: nat)
    requires ClientLockInv(s) && i < |s.threads| && k < |s.workers|
    ensures ClientLockInv(Meet(s, i, k))
  {
  }

  lemma {:induction false} DoKeepsFormed(s: State, act: Action)
    requires Formed(s)
    ensures Formed(Do(s, act))
  {
  }

  lemma {:induction false} DoKeeps(s: State, act: Action)
    requires Inv(s)
    ensures Inv(Do(s, act))
  {
    DoKeepsFormed(s, act);
    hide Formed;
    if s.q.crash.None? {
      match act
      case Begin(call) =>
      case Run(i, pick) =>
        if i < |s.threads| {
          hide StepThread, QueueLockInv, ClientLockInv, QueueInv, OrderInv;
          ThreadKeepsQueueSide(s, i, pick);
          ThreadKeepsClientLock(s, i, pick);
        }
      case RunWorker(k) =>
        if k < |s.workers| {
          hide StepWorker, QueueLockInv, ClientLockInv, QueueInv, OrderInv;
          WorkerKeepsQueueSide(s, k);
          WorkerKeepsClientLock(s, k);
        }
      case HandOver(i, k) =>
        if i < |s.threads| && k < |s.workers| {
          hide Meet, QueueLockInv, ClientLockInv, QueueInv, OrderInv;
          MeetKeepsQueueSide(s, i, k);
          MeetKeepsClientLock(s, i, k);
        }
      case CancelParent =>
    }
  }

  lemma {:induction false} ReachKeeps(acts: seq<Action>)
    ensures Inv(Reach(acts))
  {
    if acts != [] {
      ReachKeeps(acts[..|acts| - 1]);
      hide Inv, Do;
      DoKeeps(Reach(acts[..|acts| - 1]), acts[|acts| - 1]);
    }
  }

  // ---------------------------------------------------------------- the queue

  /**
   One worker runs the tasks one at a time, each once, in the order Enqueue took its lock:
   at most one accepted task is not yet begun and at most one begun task is not finished.
  */
  lemma {:induction false} TasksRunInOrder(acts: seq<Action>)
    ensures var s := Reach(acts);
            && |s.workers| <= 1
            && s.q.begun <= s.q.accepted && |s.q.accepted| <= |s.q.begun| + 1
            && s.q.finished <= s.q.begun && |s.q.begun| <= |s.q.finished| + 1
            && (forall k :: 0 <= k < |s.workers| && s.workers[k].Busy? ==>
                              s.q.begun == s.q.finished + [s.workers[k].job])
  {
    hide Reach;
    ReachKeeps(acts);
  }

  /** No send on a closed channel, no second close, no wait group below zero: only closing an unused queue crashes. */
  lemma {:induction false} OnlyAnUnusedCloseCrashes(acts: seq<Action>, i: nat, pick: Pick)
    ensures var s := Reach(acts);
            && (s.q.crash.Some? ==> s.q.crash.value.CloseOfNil? && s.q.accepted == [])
            && (i < |s.threads| && s.threads[i].QueueClose? && s.q.crash.None? ==>
                  (Do(s, Run(i, pick)).q.crash.Some? <==> s.q.accepted == []))
  {
    hide Reach;
    ReachKeeps(acts);
  }

  /** When Close returns, every task ever accepted has finished. */
  lemma {:induction false} CloseDrains(acts: seq<Action>, i: nat)
    requires i < |Reach(acts).threads| && Reach(acts).threads[i].QueueClosed?
    ensures var s := Reach(acts); s.q.finished == s.q.begun == s.q.accepted
  {
    hide Reach;
    ReachKeeps(acts);
    assert Holder(Reach(acts)).QueueClosed?;
  }

  predicate Closing(s: State, i: nat) {
    i < |s.threads| && (s.threads[i].QueueClose? || s.threads[i].QueueWait? || s.threads[i].QueueClosed?)
  }

  lemma {:induction false} ClosingStays(s: State, act: Action, i: nat)
    requires Inv(s) && Closing(s, i)
    ensures Closing(Do(s, act), i) && Do(s, act).q.accepted == s.q.accepted
  {
    hide HoldsClient, ClientLockInv, OrderInv;
    assert s.q.mx == Some(i);
  }

  /** Once Close has the lock nothing more is ever accepted. */
  lemma {:induction false} CloseShutsTheQueue(acts: seq<Action>, more: seq<Action>, i: nat)
    requires Closing(Reach(acts), i)
    ensures Closing(Reach(acts + more), i) && Reach(acts + more).q.accepted == Reach(acts).q.accepted
    decreases |more|
  {
    if more == [] {
      assert acts + more == acts;
    } else {
      hide Closing, Do;
      var before, last := acts + more[..|more| - 1], more[|more| - 1];
      CloseShutsTheQueue(acts, more[..|more| - 1], i);
      assert acts + more == before + [last];
      assert (before + [last])[..|before|] == before;
      ReachKeeps(before);
      ClosingStays(Reach(before), last, i);
    }
  }
}
