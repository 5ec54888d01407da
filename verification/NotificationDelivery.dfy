/** What the client promises about notifications, over every interleaving. */
module NotificationDelivery {
  import opened Wrappers
  import opened Notifications
  import opened NotificationSafety

  predicate IsWatcher(pc: Pc) { pc.Watch? || pc.Recv? || pc.Decide? || (pc.Enqueue? && pc.next.Receive?) }

  predicate IsNotice(w: Worker) { w.Busy? && w.job.Notice? }

  function TheWatcher(s: State): Pc {
    if s.c.watcher.Some? && s.c.watcher.value < |s.threads| then s.threads[s.c.watcher.value] else Gone
  }

  function TheWorker(s: State): Worker { if |s.workers| == 1 then s.workers[0] else Exited }

  /** Only the watcher handles the stream; notices come after its start, spawning before. */
  predicate WatcherInv(s: State) {
    && (forall i :: 0 <= i < |s.threads| && IsWatcher(s.threads[i]) ==> s.c.watcher == Some(i))
    && (forall i :: 0 <= i < |s.threads| && Spawning(s.threads[i]) ==> s.c.started && s.c.watcher.None?)
    && (IsNotice(TheWorker(s)) ==> s.c.watcher.Some?)
    && (s.c.watcher.Some? ==> s.c.started && s.c.watcher.value < |s.threads|)
  }

  // ---------------------------------------------------------------- the one-slot channel

  /** The goroutine filled the slot and has not handed its closure over yet. */
  predicate Sends(pc: Pc) { pc.Enqueue? && pc.next.Receive? && !pc.stage.Unlocking? }

  predicate Undrained(w: Worker) { IsNotice(w) && (w.phase.Lock? || w.phase.Look? || w.phase.Drain?) }

  /** The slot is full while a closure has not drained it, and until a cancellation only then. */
  predicate SlotInv(pc: Pc, w: Worker, c: Client) {
    && (Sends(pc) ==> c.noti && !Undrained(w))
    && (Undrained(w) ==> c.noti)
    && (c.noti && !c.cancelled ==> Sends(pc) || Undrained(w))
  }

  // ---------------------------------------------------------------- no notification is lost

  /** A closure is on its way to runTask. */
  predicate ToStart(w: Worker) { Undrained(w) || (IsNotice(w) && w.phase.Start?) }

  predicate Pending(pc: Pc, w: Worker) { Sends(pc) || ToStart(w) }

  predicate RunAfter(log: seq<Event>, n: nat) { exists m :: n < m < |log| && log[m].RunStarted? }

  predicate NotLost(pc: Pc, w: Worker, c: Client) {
    forall n :: 0 <= n < |c.log| && c.log[n].Received? && !c.cancelled ==>
      RunAfter(c.log, n) || Pending(pc, w) || pc == Decide(n)
  }

  // ---------------------------------------------------------------- nothing after Close

  predicate ClosedInv(s: State) {
    ClientHasClosed in s.c.log ==>
      && s.c.mx.Some? && s.c.mx.value.ByThread? && s.c.mx.value.i < |s.threads|
      && s.threads[s.c.mx.value.i].ClientClosed?
  }

  predicate QuietAfterClose(log: seq<Event>) {
    forall a, b :: 0 <= a < b < |log| && log[a].ClientHasClosed? ==> !log[b].RunStarted?
  }

  predicate Delivers(pc: Pc, w: Worker, c: Client) {
    SlotInv(pc, w, c) && NotLost(pc, w, c) && QuietAfterClose(c.log)
  }

  predicate Delivery(s: State) { Delivers(TheWatcher(s), TheWorker(s), s.c) }

  predicate ClientSide(s: State) {
    WatcherInv(s) && ClosedInv(s) && Delivery(s)
  }

  // ---------------------------------------------------------------- this is kept

  lemma {:induction false} RunAfterPush(log: seq<Event>, e: Event)
    ensures forall n: nat :: RunAfter(log, n) || (e.RunStarted? && n < |log|) ==> RunAfter(log + [e], n)
  {
    forall n: nat | RunAfter(log, n) || (e.RunStarted? && n < |log|)
      ensures RunAfter(log + [e], n)
    {
      if RunAfter(log, n) {
        var m :| n < m < |log| && log[m].RunStarted?;
        assert (log + [e])[m].RunStarted?;
      } else {
        assert (log + [e])[|log|].RunStarted?;
      }
    }
  }

  lemma {:induction false} EnqueueKeepsWatcher(s: State, i: nat)
    requires QueueSide(s) && Formed(s) && i < |s.threads| && s.threads[i].Enqueue? && WatcherInv(s)
    ensures WatcherInv(StepEnqueue(s, i))
  {
    hide QueueLockInv, OrderInv;
  }

  lemma {:induction false} WaitKeepsWatcher(s: State, i: nat)
    requires ClientLockInv(s) && i < |s.threads| && WatcherInv(s)
    ensures WatcherInv(StepWait(s, i))
  {
  }

  lemma {:induction false} StreamKeepsWatcher(s: State, i: nat, pick: Pick)
    requires i < |s.threads| && WatcherInv(s)
    ensures WatcherInv(StepWatcher(s, i, pick))
  {
  }

  lemma {:induction false} CloseKeepsWatcher(s: State, i: nat)
    requires i < |s.threads| && WatcherInv(s)
    ensures WatcherInv(StepClientClose(s, i))
  {
  }

  lemma {:induction false} MeetKeepsWatcher(s: State, i: nat, k: nat)
    requires i < |s.threads| && k < |s.workers| && WatcherInv(s) && Formed(s)
    ensures WatcherInv(Meet(s, i, k))
  {
  }

  lemma {:induction false} EnqueueDelivers(s: State, i: nat)
    requires QueueSide(s) && Formed(s) && i < |s.threads| && s.threads[i].Enqueue? && WatcherInv(s) && Delivery(s)
    ensures Delivery(StepEnqueue(s, i))
  {
    hide QueueLockInv, OrderInv;
  }

  lemma {:induction false} QueueCloseDelivers(s: State, i: nat)
    requires i < |s.threads| && WatcherInv(s) && Delivery(s) && !IsWatcher(s.threads[i])
    ensures Delivery(StepQueueClose(s, i)) && WatcherInv(StepQueueClose(s, i))
  {
    hide RunAfter;
  }

  lemma {:induction false} WaitDelivers(s: State, i: nat)
    requires ClientLockInv(s) && i < |s.threads| && WatcherInv(s) && Delivery(s)
    ensures Delivery(StepWait(s, i))
  {
  }

  lemma {:induction false} StreamDelivers(s: State, i: nat, pick: Pick)
    requires i < |s.threads| && IsWatcher(s.threads[i]) && WatcherInv(s) && Delivery(s)
    ensures Delivery(StepWatcher(s, i, pick))
  {
    hide RunAfter;
    RunAfterPush(s.c.log, Received);
  }

  lemma {:induction false} CloseDelivers(s: State, i: nat)
    requires i < |s.threads| && WatcherInv(s) && Delivery(s)
    ensures Delivery(StepClientClose(s, i))
  {
    hide RunAfter;
    RunAfterPush(s.c.log, ClientHasClosed);
  }

  lemma {:induction false} TaskDelivers(s: State, k: nat)
    requires QueueSide(s) && Formed(s) && ClientLockInv(s) && ClosedInv(s) && k < |s.workers| && s.workers[k].Busy?
    requires WatcherInv(s) && Delivery(s)
    ensures Delivery(StepTask(s, k)) && WatcherInv(StepTask(s, k))
  {
    hide RunAfter, QueueLockInv, OrderInv;
    var job := s.workers[k].job;
    RunAfterPush(s.c.log, RunStarted(job));
    if s.workers[k].phase.Start? {
      assert s.c.mx == Some(ByWorker(k));
      assert ClientHasClosed !in s.c.log;
    }
  }

  lemma {:induction false} LoopDelivers(s: State, k: nat)
    requires k < |s.workers| && !s.workers[k].Busy? && WatcherInv(s) && Delivery(s)
    ensures Delivery(StepLoop(s, k)) && WatcherInv(StepLoop(s, k))
  {
    hide RunAfter;
  }

  lemma {:induction false} MeetDelivers(s: State, i: nat, k: nat)
    requires i < |s.threads| && k < |s.workers| && WatcherInv(s) && Formed(s) && Delivery(s) && |s.workers| == 1
    ensures Delivery(Meet(s, i, k))
  {
  }

  lemma {:induction false} CancelDelivers(s: State)
    requires WatcherInv(s) && Delivery(s)
    ensures var t := Do(s, CancelParent); Delivery(t) && WatcherInv(t)
  {
    hide RunAfter;
  }

  lemma {:induction false} BeginDelivers(s: State, call: Call)
    requires WatcherInv(s) && Delivery(s)
    ensures var t := Do(s, Begin(call)); Delivery(t) && WatcherInv(t)
  {
    hide RunAfter;
    assert TheWatcher(Do(s, Begin(call))) == TheWatcher(s);
  }

  lemma {:induction false} StepMoves(s: State, i: nat, pick: Pick)
    requires QueueSide(s) && i < |s.threads|
    ensures Moved(s, StepThread(s, i, pick), i)
  {
    hide QueueSide, Moved;
    if s.threads[i].Enqueue? {
      hide StepEnqueue;
      EnqueueStepMoves(s, i);
    } else if InQueueCode(s.threads[i]) {
      hide StepQueueClose;
      QueueCloseMoves(s, i);
    } else {
      hide StepWait, StepWatcher, StepClientClose;
      WatcherMoves(s, i, pick);
      WaitStays(s, i);
      ClientCloseStays(s, i);
    }
  }

  lemma {:induction false} ClosedStays(s: State, i: nat, pick: Pick)
    requires i < |s.threads| && s.threads[i].ClientClosed?
    ensures StepThread(s, i, pick) == s
  {
  }

  /** Only the last step of Client.Close is logged as a close. */
  lemma {:induction false} CloseIsLogged(s: State, i: nat, pick: Pick)
    requires i < |s.threads| && ClientHasClosed !in s.c.log && ClientHasClosed in StepThread(s, i, pick).c.log
    ensures StepThread(s, i, pick).threads[i].ClientClosed?
  {
  }

  lemma {:induction false} DoKeepsClosed(s: State, act: Action)
    requires Inv(s) && ClosedInv(s) && Inv(Do(s, act))
    ensures ClosedInv(Do(s, act))
  {
    hide QueueSide, Formed, StepThread;
    if act.Run? && act.i < |s.threads| && s.q.crash.None? {
      StepMoves(s, act.i, act.pick);
      var t := StepThread(s, act.i, act.pick);
      if ClientHasClosed in s.c.log {
        var j := s.c.mx.value.i;
        ClosedStays(s, j, act.pick);
        assert HoldsClient(t.threads[j]);
      } else if ClientHasClosed in t.c.log {
        CloseIsLogged(s, act.i, act.pick);
        assert HoldsClient(t.threads[act.i]);
      }
    }
  }

  lemma {:induction false} ThreadKeepsClientSide(s: State, i: nat, pick: Pick)
    requires Inv(s) && WatcherInv(s) && Delivery(s) && i < |s.threads|
    ensures WatcherInv(StepThread(s, i, pick)) && Delivery(StepThread(s, i, pick))
  {
    hide WatcherInv, Delivery;
    var pc := s.threads[i];
    if pc.Enqueue? {
      hide StepEnqueue, QueueSide, ClientLockInv, Formed;
      EnqueueKeepsWatcher(s, i);
      EnqueueDelivers(s, i);
    } else if IsWatcher(pc) {
      hide StepWatcher, QueueSide, ClientLockInv, Formed;
      StreamKeepsWatcher(s, i, pick);
      StreamDelivers(s, i, pick);
    } else {
      hide StepWait, StepQueueClose, StepClientClose, QueueSide, ClientLockInv, Formed;
      WaitKeepsWatcher(s, i);
      WaitDelivers(s, i);
      QueueCloseDelivers(s, i);
      CloseKeepsWatcher(s, i);
      CloseDelivers(s, i);
    }
  }

  lemma {:induction false} DoKeepsClientSide(s: State, act: Action)
    requires Inv(s) && ClientSide(s)
    ensures ClientSide(Do(s, act))
  {
    DoKeeps(s, act);
    DoKeepsClosed(s, act);
    if s.q.crash.None? {
      hide WatcherInv, Delivers, ClosedInv;
      match act
      case Begin(call) => BeginDelivers(s, call);
      case Run(i, pick) =>
        if i < |s.threads| {
          hide StepThread;
          ThreadKeepsClientSide(s, i, pick);
        }
      case RunWorker(k) =>
        if k < |s.workers| {
          hide StepTask, StepLoop;
          if s.workers[k].Busy? {
            TaskDelivers(s, k);
          } else {
            LoopDelivers(s, k);
          }
        }
      case HandOver(i, k) =>
        if i < |s.threads| && k < |s.workers| {
          hide Meet;
          assert |s.workers| <= 1;
          MeetKeepsWatcher(s, i, k);
          MeetDelivers(s, i, k);
        }
      case CancelParent => CancelDelivers(s);
    }
  }

  lemma {:induction false} ReachDelivers(acts: seq<Action>)
    ensures Inv(Reach(acts)) && ClientSide(Reach(acts))
  {
    ReachKeeps(acts);
    if acts != [] {
      ReachDelivers(acts[..|acts| - 1]);
      hide Inv, ClientSide, Do;
      DoKeepsClientSide(Reach(acts[..|acts| - 1]), acts[|acts| - 1]);
    }
  }

  // ---------------------------------------------------------------- the client's promises

  /** Calling WaitForTaskNotification again never makes a second watcher. */
  lemma {:induction false} OneWatcher(acts: seq<Action>, i: nat, j: nat)
    requires i < |Reach(acts).threads| && j < |Reach(acts).threads|
    ensures var threads := Reach(acts).threads;
            && (IsWatcher(threads[i]) && IsWatcher(threads[j]) ==> i == j)
            && (IsWatcher(threads[i]) ==> !Spawning(threads[j]))
  {
    hide Reach, Delivers, ClosedInv, Inv;
    ReachDelivers(acts);
  }

  /** Draining the slot never blocks, and beside the closure that drains it no other one waits. */
  lemma {:induction false} DrainNeverBlocks(acts: seq<Action>, k: nat)
    requires k < |Reach(acts).workers| && Undrained(Reach(acts).workers[k])
    ensures var s := Reach(acts);
            && s.c.noti
            && (forall i :: 0 <= i < |s.threads| ==> !Sends(s.threads[i]))
            && (forall j :: 0 <= j < |s.workers| && j != k ==> !Undrained(s.workers[j]))
  {
    hide Reach, NotLost, ClosedInv, QueueLockInv, ClientLockInv, OrderInv, Formed;
    ReachDelivers(acts);
    var s := Reach(acts);
    assert TheWorker(s) == s.workers[k];
    forall i | 0 <= i < |s.threads|
      ensures !Sends(s.threads[i])
    {
      assert Sends(s.threads[i]) ==> IsWatcher(s.threads[i]);
    }
  }

  /** Until a cancellation a full slot means that exactly one closure has yet to drain it. */
  lemma {:induction false} FullSlotIsPending(acts: seq<Action>)
    ensures var s := Reach(acts);
            !s.c.cancelled ==>
              (s.c.noti <==> (exists i :: 0 <= i < |s.threads| && Sends(s.threads[i]))
                             || (exists k :: 0 <= k < |s.workers| && Undrained(s.workers[k])))
  {
    hide Reach, NotLost, ClosedInv, QueueLockInv, ClientLockInv, OrderInv, Formed;
    ReachDelivers(acts);
    var s := Reach(acts);
    forall i | 0 <= i < |s.threads| && Sends(s.threads[i])
      ensures s.c.noti
    {
      assert IsWatcher(s.threads[i]);
    }
    forall k | 0 <= k < |s.workers| && Undrained(s.workers[k])
      ensures s.c.noti
    {
      assert TheWorker(s) == s.workers[k];
    }
  }

  /**
   Until a cancellation, a notification the watcher has dealt with is followed by a start of
   runTask or a closure is on its way there: in the watcher's hands or with the worker.
  */
  lemma {:induction false} NoNotificationIsLost(acts: seq<Action>, n: nat)
    requires n < |Reach(acts).c.log| && Reach(acts).c.log[n].Received? && !Reach(acts).c.cancelled
    requires forall i :: 0 <= i < |Reach(acts).threads| ==> Reach(acts).threads[i] != Decide(n)
    ensures var s := Reach(acts);
            || RunAfter(s.c.log, n)
            || (exists i :: 0 <= i < |s.threads| && Sends(s.threads[i]))
            || (exists k :: 0 <= k < |s.workers| && ToStart(s.workers[k]))
  {
    hide Reach, SlotInv, ClosedInv, Inv, RunAfter;
    ReachDelivers(acts);
  }

  /** Once Client.Close has returned no notification is worked on and runTask never starts again. */
  lemma {:induction false} NothingRunsAfterClose(acts: seq<Action>)
    ensures var s := Reach(acts);
            && QuietAfterClose(s.c.log)
            && (ClientHasClosed in s.c.log ==> forall k :: 0 <= k < |s.workers| ==> !InClosure(s.workers[k]))
  {
    hide Reach, NotLost, SlotInv, QueueSide, Formed;
    ReachDelivers(acts);
  }
}
