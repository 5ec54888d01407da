/**
 What becomes of every call: a task that is to be queued is queued, nothing else is, a
 saved patch task comes before any notification, and a cancellation has its cause and its
 effect.  These hold over every interleaving.
 */
module NotificationPromises {
  import opened Wrappers
  import opened Notifications
  import opened NotificationSafety
  import opened NotificationDelivery

  // ---------------------------------------------------------------- the saved patch task

  /** Goroutine `i` has found the saved task `id` and is to queue it, or it is queued already. */
  predicate ToQueue(s: State, i: nat, id: nat) {
    || Other(id) in s.q.accepted
    || (i < |s.threads| && s.threads[i] == WaitCheck(Some(id)) && !s.c.started)
    || (i < |s.threads| && s.threads[i] == Enqueue(Locking, Other(id), StartWatcher))
  }

  lemma {:induction false} ThreadToQueue(s: State, j: nat, pick: Pick, i: nat, id: nat)
    requires Inv(s) && ToQueue(s, i, id) && j < |s.threads|
    ensures ToQueue(StepThread(s, j, pick), i, id)
  {
    hide QueueSide, Formed;
    if Other(id) !in s.q.accepted && j != i {
      StepMoves(s, j, pick);
      StartedByLockHolder(s, j, pick);
    }
  }

  /** Only the goroutine that looks into the client under its lock starts it. */
  lemma {:induction false} StartedByLockHolder(s: State, j: nat, pick: Pick)
    requires j < |s.threads|
    ensures StepThread(s, j, pick).c.started == (s.c.started || s.threads[j].WaitCheck?)
    ensures forall job :: job in s.q.accepted ==> job in StepThread(s, j, pick).q.accepted
  {
  }

  lemma {:induction false} DoToQueue(s: State, act: Action, i: nat, id: nat)
    requires Inv(s) && ToQueue(s, i, id)
    ensures ToQueue(Do(s, act), i, id)
  {
    if s.q.crash.None? && act.Run? && act.i < |s.threads| {
      hide Inv, ToQueue, StepThread;
      ThreadToQueue(s, act.i, act.pick, i, id);
    } else {
      hide Inv, StepThread;
    }
  }

  lemma {:induction false} ReachPush(acts: seq<Action>, more: seq<Action>)
    requires more != []
    ensures var before, act := acts + more[..|more| - 1], more[|more| - 1];
            acts + more == before + [act] && Reach(acts + more) == Do(Reach(before), act)
  {
    hide Do;
    var before, act := acts + more[..|more| - 1], more[|more| - 1];
    assert acts + more == before + [act];
    assert (before + [act])[..|before|] == before;
  }

  lemma {:induction false} StaysToQueue(acts: seq<Action>, more: seq<Action>, i: nat, id: nat)
    requires ToQueue(Reach(acts), i, id)
    ensures ToQueue(Reach(acts + more), i, id)
    decreases |more|
  {
    if more == [] {
      assert acts + more == acts;
    } else {
      var before := acts + more[..|more| - 1];
      StaysToQueue(acts, more[..|more| - 1], i, id);
      ReachPush(acts, more);
      ReachKeeps(before);
      hide Inv, ToQueue, Do;
      DoToQueue(Reach(before), more[|more| - 1], i, id);
    }
  }

  /**
   A saved patch task that the first WaitForTaskNotification finds is queued before there is any
   watcher, and so before any notification.
  */
  lemma {:induction false} SavedTaskIsQueued(acts: seq<Action>, more: seq<Action>, i: nat, id: nat)
    requires i < |Reach(acts).threads| && Reach(acts).threads[i] == WaitCheck(Some(id)) && !Reach(acts).c.started
    ensures Reach(acts + more).c.watcher.Some? ==> Other(id) in Reach(acts + more).q.accepted
  {
    StaysToQueue(acts, more, i, id);
    ReachDelivers(acts + more);
    hide Reach, Delivery, ClosedInv, Inv;
  }

  // ---------------------------------------------------------------- every call of Enqueue

  /** Goroutine `i` is in, or back from, its call of Enqueue for `job`. */
  predicate Submits(s: State, i: nat, job: Job) {
    && i < |s.threads|
    && var pc := s.threads[i];
       if pc.Gone? then job in s.q.begun
       else && pc.Enqueue? && pc.job == job && pc.next.Quit?
            && (!pc.stage.Locking? ==> job in s.q.accepted)
            && (pc.stage.Unlocking? ==> job in s.q.begun)
  }

  lemma {:induction false} ThreadSubmits(s: State, j: nat, pick: Pick, i: nat, job: Job)
    requires Inv(s) && Submits(s, i, job) && j < |s.threads|
    ensures Submits(StepThread(s, j, pick), i, job)
  {
    hide QueueSide, Formed;
    StartedByLockHolder(s, j, pick);
    if j != i {
      StepMoves(s, j, pick);
      BegunStays(s, j, pick);
    }
  }

  lemma {:induction false} BegunStays(s: State, j: nat, pick: Pick)
    requires j < |s.threads|
    ensures StepThread(s, j, pick).q.begun == s.q.begun
  {
  }

  lemma {:induction false} DoSubmits(s: State, act: Action, i: nat, job: Job)
    requires Inv(s) && Submits(s, i, job)
    ensures Submits(Do(s, act), i, job)
  {
    if s.q.crash.None? && act.Run? && act.i < |s.threads| {
      hide Inv, Submits, StepThread;
      ThreadSubmits(s, act.i, act.pick, i, job);
    } else {
      hide Inv, StepThread;
    }
  }

  lemma {:induction false} StaysSubmitted(acts: seq<Action>, more: seq<Action>, i: nat, job: Job)
    requires Submits(Reach(acts), i, job)
    ensures Submits(Reach(acts + more), i, job)
    decreases |more|
  {
    if more == [] {
      assert acts + more == acts;
    } else {
      var before := acts + more[..|more| - 1];
      StaysSubmitted(acts, more[..|more| - 1], i, job);
      ReachPush(acts, more);
      ReachKeeps(before);
      hide Inv, Submits, Do;
      DoSubmits(Reach(before), more[|more| - 1], i, job);
    }
  }

  /** Enqueue returns only when the worker has its task; from the moment it has the lock the task is accepted. */
  lemma {:induction false} EnqueueHandsOver(acts: seq<Action>, id: nat, more: seq<Action>)
    requires Reach(acts).q.crash.None?
    ensures var i, s := |Reach(acts).threads|, Reach(acts + ([Begin(CallEnqueue(id))] + more));
            && i < |s.threads| && (s.threads[i].Gone? || s.threads[i].Enqueue?)
            && (s.threads[i].Enqueue? && !s.threads[i].stage.Locking? ==> Other(id) in s.q.accepted)
            && (s.threads[i].Gone? ==> Other(id) in s.q.begun)
  {
    var begin := [Begin(CallEnqueue(id))];
    ReachPush(acts, begin);
    assert acts + begin[..0] == acts;
    StaysSubmitted(acts + begin, more, |Reach(acts).threads|, Other(id));
    assert acts + (begin + more) == acts + begin + more;
  }

  // ---------------------------------------------------------------- every call of WaitForTaskNotification

  /** A started client has its watcher, or a goroutine that holds its lock and is about to make it. */
  predicate StartInv(s: State) {
    s.c.started && s.c.watcher.None? ==>
      && s.c.mx.Some? && s.c.mx.value.ByThread? && s.c.mx.value.i < |s.threads|
      && Spawning(s.threads[s.c.mx.value.i])
  }

  /** Goroutine `i` is in, or back from, its call with the saved task `saved`. */
  predicate WaitsFor(s: State, i: nat, saved: Option<nat>) {
    && i < |s.threads|
    && match s.threads[i]
       case WaitLock(x) => x == saved
       case WaitCheck(x) => x == saved
       case Enqueue(_, job, next) => saved.Some? && job == Other(saved.value) && next.StartWatcher?
       case WaitSpawn => true
       case WaitUnlock => s.c.watcher.Some?
       case Gone => s.c.watcher.Some?
       case _ => false
  }

  lemma {:induction false} WatcherStaysSet(s: State, j: nat, pick: Pick)
    requires j < |s.threads|
    ensures s.c.watcher.Some? ==> StepThread(s, j, pick).c.watcher.Some?
    ensures s.threads[j].WaitSpawn? ==> StepThread(s, j, pick).c.watcher.Some?
  {
  }

  lemma {:induction false} ThreadKeepsStart(s: State, j: nat, pick: Pick)
    requires Inv(s) && StartInv(s) && j < |s.threads| && Inv(StepThread(s, j, pick))
    ensures StartInv(StepThread(s, j, pick))
  {
    hide QueueSide, Formed;
    var t := StepThread(s, j, pick);
    StepMoves(s, j, pick);
    StartedByLockHolder(s, j, pick);
    WatcherStaysSet(s, j, pick);
    if s.threads[j].WaitCheck? {
      assert s.c.mx == Some(ByThread(j));
    } else if s.c.started && s.c.watcher.None? {
      var i := s.c.mx.value.i;
      assert HoldsClient(s.threads[i]);
    }
  }

  lemma {:induction false} WorkerKeepsStart(s: State, k: nat)
    requires ClientLockInv(s) && Formed(s) && StartInv(s) && k < |s.workers|
    ensures StartInv(StepWorker(s, k))
  {
    hide HoldsClient;
  }

  lemma {:induction false} OtherKeepsStart(s: State, act: Action)
    requires StartInv(s) && !act.Run? && !act.RunWorker?
    ensures StartInv(Do(s, act))
  {
  }

  lemma {:induction false} DoKeepsStart(s: State, act: Action)
    requires Inv(s) && StartInv(s)
    ensures StartInv(Do(s, act))
  {
    DoKeeps(s, act);
    hide QueueSide, ClientLockInv, Formed, StartInv, StepThread, StepWorker;
    match act
    case Run(i, pick) =>
      if i < |s.threads| && s.q.crash.None? {
        ThreadKeepsStart(s, i, pick);
      }
    case RunWorker(k) =>
      if k < |s.workers| {
        WorkerKeepsStart(s, k);
      }
    case _ => OtherKeepsStart(s, act);
  }

  lemma {:induction false} ReachStart(acts: seq<Action>)
    ensures StartInv(Reach(acts))
  {
    if acts != [] {
      var before := acts[..|acts| - 1];
      ReachStart(before);
      ReachKeeps(before);
      hide Inv, StartInv, Do;
      DoKeepsStart(Reach(before), acts[|acts| - 1]);
    }
  }

  lemma {:induction false} ThreadWaits(s: State, j: nat, pick: Pick, i: nat, saved: Option<nat>)
    requires Inv(s) && StartInv(s) && WaitsFor(s, i, saved) && j < |s.threads|
    ensures WaitsFor(StepThread(s, j, pick), i, saved)
  {
    hide QueueSide, Formed;
    WatcherStaysSet(s, j, pick);
    if j != i {
      hide StepThread;
      StepMoves(s, j, pick);
    }
  }

  lemma {:induction false} DoWaits(s: State, act: Action, i: nat, saved: Option<nat>)
    requires Inv(s) && StartInv(s) && WaitsFor(s, i, saved)
    ensures WaitsFor(Do(s, act), i, saved)
  {
    hide Inv, StartInv, StepThread;
    if s.q.crash.None? && act.Run? && act.i < |s.threads| {
      hide WaitsFor;
      ThreadWaits(s, act.i, act.pick, i, saved);
    } else if s.q.crash.None? && act.RunWorker? && act.k < |s.workers| {
      WorkerKeepsThreads(s, act.k);
      hide StepWorker;
    }
  }

  lemma {:induction false} WorkerKeepsThreads(s: State, k: nat)
    requires k < |s.workers|
    ensures var t := StepWorker(s, k);
            t.threads == s.threads && t.c.watcher == s.c.watcher && t.c.started == s.c.started
            && t.c.cancelled == s.c.cancelled && t.q.accepted == s.q.accepted && t.q.begun == s.q.begun
  {
  }

  lemma {:induction false} StaysWaiting(acts: seq<Action>, more: seq<Action>, i: nat, saved: Option<nat>)
    requires WaitsFor(Reach(acts), i, saved)
    ensures WaitsFor(Reach(acts + more), i, saved)
    decreases |more|
  {
    if more == [] {
      assert acts + more == acts;
    } else {
      var before := acts + more[..|more| - 1];
      StaysWaiting(acts, more[..|more| - 1], i, saved);
      ReachPush(acts, more);
      ReachKeeps(before);
      ReachStart(before);
      hide Inv, StartInv, WaitsFor, Do;
      DoWaits(Reach(before), more[|more| - 1], i, saved);
    }
  }

  /** WaitForTaskNotification returns only when there is a watcher, and looks at the task that was saved. */
  lemma {:induction false} WaitMakesAWatcher(acts: seq<Action>, saved: Option<nat>, more: seq<Action>)
    requires Reach(acts).q.crash.None?
    ensures var i, s := |Reach(acts).threads|, Reach(acts + ([Begin(CallWait(saved))] + more));
            && i < |s.threads|
            && (s.threads[i].Gone? ==> s.c.watcher.Some?)
            && (s.threads[i].WaitCheck? ==> s.threads[i] == WaitCheck(saved))
            && (s.threads[i].Enqueue? ==> saved.Some? && s.threads[i].job == Other(saved.value))
  {
    var begin := [Begin(CallWait(saved))];
    ReachPush(acts, begin);
    assert acts + begin[..0] == acts;
    StaysWaiting(acts + begin, more, |Reach(acts).threads|, saved);
    assert acts + (begin + more) == acts + begin + more;
  }
}
