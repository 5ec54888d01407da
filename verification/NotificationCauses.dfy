/**
 Nothing happens to the queue or the stream without its cause: every task queued was asked
 for, every notice run was received and is run once, every cancellation was made by someone
 and stops the work.  These hold over every interleaving.
 */
module NotificationCauses {
  import opened Wrappers
  import opened Notifications
  import opened NotificationSafety
  import opened NotificationDelivery
  import opened NotificationPromises

  // ---------------------------------------------------------------- cancellation

  predicate PastCancel(pc: Pc) { pc.ClientMark? || pc.ClientClosed? }

  predicate SomePastCancel(s: State) { exists i :: 0 <= i < |s.threads| && PastCancel(s.threads[i]) }

  /** A Close that has got so far has cancelled a started client. */
  predicate ClosesCancel(s: State) {
    forall i :: 0 <= i < |s.threads| && PastCancel(s.threads[i]) && s.c.started ==> s.c.cancelled
  }

  /** The watcher goes only when cancelled, or into the Close of its own client. */
  predicate WatcherStays(s: State) {
    s.c.watcher.Some? ==>
      && s.c.watcher.value < |s.threads|
      && var pc := s.threads[s.c.watcher.value];
         || IsWatcher(pc) || pc.ClientLock? || pc.ClientCancel? || PastCancel(pc) || (pc.Gone? && s.c.cancelled)
  }

  predicate CancelInv(s: State, parent: bool) {
    && (s.c.cancelled ==> parent || SomePastCancel(s))
    && (parent ==> s.c.cancelled)
    && ClosesCancel(s) && WatcherStays(s)
  }

  lemma {:induction false} CancelledBy(s: State, j: nat, pick: Pick)
    requires j < |s.threads|
    ensures StepThread(s, j, pick).c.cancelled == (s.c.cancelled || (s.threads[j].ClientCancel? && s.c.started))
  {
  }

  lemma {:induction false} PastCancelBy(s: State, j: nat, pick: Pick)
    requires j < |s.threads|
    ensures s.threads[j].ClientCancel? || PastCancel(s.threads[j]) <==> PastCancel(StepThread(s, j, pick).threads[j])
  {
  }

  lemma {:induction false} ThreadKeepsCancel(s: State, j: nat, pick: Pick, parent: bool)
    requires Inv(s) && CancelInv(s, parent) && j < |s.threads|
    ensures var t := StepThread(s, j, pick);
            && (t.c.cancelled ==> parent || SomePastCancel(t)) && ClosesCancel(t)
            && (s.c.cancelled ==> t.c.cancelled)
  {
    hide QueueSide, Formed, WatcherStays, StepThread;
    var t := StepThread(s, j, pick);
    StepMoves(s, j, pick);
    StartedByLockHolder(s, j, pick);
    CancelledBy(s, j, pick);
    PastCancelBy(s, j, pick);
    if SomePastCancel(s) {
      var i :| 0 <= i < |s.threads| && PastCancel(s.threads[i]);
      assert PastCancel(t.threads[i]);
    }
    if s.threads[j].ClientCancel? {
      assert PastCancel(t.threads[j]);
    }
    if s.threads[j].WaitCheck? {
      assert s.c.mx == Some(ByThread(j));
    }
  }

  lemma {:induction false} ThreadKeepsWatcher(s: State, j: nat, pick: Pick)
    requires Inv(s) && WatcherInv(s) && WatcherStays(s) && j < |s.threads|
    ensures WatcherStays(StepThread(s, j, pick))
  {
    hide QueueSide, ClientLockInv;
    StepMoves(s, j, pick);
    CancelledBy(s, j, pick);
  }

  lemma {:induction false} DoKeepsCancel(s: State, act: Action, parent: bool)
    requires Inv(s) && WatcherInv(s) && CancelInv(s, parent) && s.q.crash.None?
    ensures CancelInv(Do(s, act), parent || act.CancelParent?)
  {
    hide Inv, WatcherInv, StepThread, StepWorker;
    match act
    case Run(i, pick) =>
      if i < |s.threads| {
        hide SomePastCancel, ClosesCancel, WatcherStays;
        ThreadKeepsCancel(s, i, pick, parent);
        ThreadKeepsWatcher(s, i, pick);
      }
    case RunWorker(k) =>
      if k < |s.workers| {
        WorkerKeepsThreads(s, k);
      }
    case _ => OthersKeepCancel(s, act, parent);
  }

  lemma {:induction false} OthersKeepCancel(s: State, act: Action, parent: bool)
    requires CancelInv(s, parent) && !act.Run? && !act.RunWorker? && s.q.crash.None?
    ensures CancelInv(Do(s, act), parent || act.CancelParent?)
  {
    var t := Do(s, act);
    if SomePastCancel(s) {
      var i :| 0 <= i < |s.threads| && PastCancel(s.threads[i]);
      assert PastCancel(t.threads[i]);
    }
  }

  lemma {:induction false} ReachCancel(acts: seq<Action>)
    requires Reach(acts).q.crash.None?
    ensures CancelInv(Reach(acts), CancelParent in acts)
  {
    if acts != [] {
      var before, act := acts[..|acts| - 1], acts[|acts| - 1];
      assert acts == before + [act];
      ReachCancel(before);
      ReachDelivers(before);
      hide Inv, ClosedInv, Delivery, CancelInv;
      DoKeepsCancel(Reach(before), act, CancelParent in before);
    }
  }

  /**
   Until a crash, the stream is cancelled exactly when its parent was cancelled or a Close has
   come that far with a started client; and its watcher leaves it for no other reason.
  */
  lemma {:induction false} CancellationHasItsCause(acts: seq<Action>)
    requires Reach(acts).q.crash.None?
    ensures var s := Reach(acts);
            && (s.c.cancelled ==> CancelParent in acts || SomePastCancel(s))
            && (CancelParent in acts || (SomePastCancel(s) && s.c.started) ==> s.c.cancelled)
            && (s.c.watcher.Some? && TheWatcher(s).Gone? ==> s.c.cancelled)
  {
    hide Reach;
    ReachCancel(acts);
  }

  // ---------------------------------------------------------------- what a cancellation stops

  predicate Committed(w: Worker) { w.Busy? && (w.phase.Drain? || w.phase.Start?) }

  /** Cancelled, and no closure is past its look at the context. */
  predicate Stopped(s: State) {
    s.c.cancelled && forall k :: 0 <= k < |s.workers| ==> !Committed(s.workers[k])
  }

  predicate SameStarts(log: seq<Event>, later: seq<Event>) {
    log <= later && forall n :: |log| <= n < |later| ==> !later[n].RunStarted?
  }

  lemma {:induction false} ThreadStopped(s: State, j: nat, pick: Pick)
    requires j < |s.threads| && Stopped(s)
    ensures var t := StepThread(s, j, pick); Stopped(t) && SameStarts(s.c.log, t.c.log)
  {
  }

  lemma {:induction false} DoStopped(s: State, act: Action)
    requires Stopped(s)
    ensures var t := Do(s, act); Stopped(t) && SameStarts(s.c.log, t.c.log)
  {
    if act.Run? && act.i < |s.threads| && s.q.crash.None? {
      hide Stopped, SameStarts, StepThread;
      ThreadStopped(s, act.i, act.pick);
    } else {
      hide StepThread;
    }
  }

  /** Once it is cancelled and no closure is past its look at the context, runTask never starts again. */
  lemma {:induction false} CancellationStops(acts: seq<Action>, more: seq<Action>)
    requires Stopped(Reach(acts))
    ensures Stopped(Reach(acts + more)) && SameStarts(Reach(acts).c.log, Reach(acts + more).c.log)
    decreases |more|
  {
    if more == [] {
      assert acts + more == acts;
    } else {
      CancellationStops(acts, more[..|more| - 1]);
      ReachPush(acts, more);
      hide Stopped, Do, Reach;
      DoStopped(Reach(acts + more[..|more| - 1]), more[|more| - 1]);
    }
  }

  // ---------------------------------------------------------------- where the tasks come from

  /** Some call so far asked for the task `id`. */
  predicate AskedFor(acts: seq<Action>, id: nat) {
    Begin(CallEnqueue(id)) in acts || Begin(CallWait(Some(id))) in acts
  }

  predicate Real(acts: seq<Action>, log: seq<Event>, job: Job) {
    match job
    case Other(id) => AskedFor(acts, id)
    case Notice(at) => at < |log| && log[at].Received?
  }

  predicate PcReal(acts: seq<Action>, log: seq<Event>, pc: Pc) {
    match pc
    case Enqueue(_, job, _) => Real(acts, log, job)
    case WaitLock(saved) => saved.Some? ==> AskedFor(acts, saved.value)
    case WaitCheck(saved) => saved.Some? ==> AskedFor(acts, saved.value)
    case Decide(at) => at < |log| && log[at].Received?
    case _ => true
  }

  predicate AllReal(acts: seq<Action>, s: State) {
    && (forall i :: 0 <= i < |s.threads| ==> PcReal(acts, s.c.log, s.threads[i]))
    && (forall n :: 0 <= n < |s.q.accepted| ==> Real(acts, s.c.log, s.q.accepted[n]))
  }

  /** More actions and a longer log make no task less real. */
  lemma {:induction false} RealStays(acts: seq<Action>, more: seq<Action>, log: seq<Event>, later: seq<Event>)
    requires acts <= more && log <= later
    ensures forall job :: Real(acts, log, job) ==> Real(more, later, job)
    ensures forall pc :: PcReal(acts, log, pc) ==> PcReal(more, later, pc)
  {
  }

  /** What one step of a goroutine does to the log, the accepted tasks and the other goroutines. */
  predicate Effects(s: State, t: State, j: nat)
    requires j < |s.threads|
  {
    && (t.c.log == s.c.log || t.c.log == s.c.log + [Received] || t.c.log == s.c.log + [ClientHasClosed])
    && t.q.finished == s.q.finished
    && (t.workers == s.workers || (s.q.tc.Unmade? && t.workers == s.workers + [Fresh]))
    && (t.q.accepted == s.q.accepted
        || (s.threads[j].Enqueue? && s.threads[j].stage.Locking?
            && t.q.accepted == s.q.accepted + [s.threads[j].job]))
    && |s.threads| <= |t.threads|
    && (forall i :: |s.threads| <= i < |t.threads| ==> t.threads[i].Watch?)
  }

  lemma {:induction false} EnqueueEffects(acts: seq<Action>, s: State, j: nat)
    requires j < |s.threads| && s.threads[j].Enqueue? && PcReal(acts, s.c.log, s.threads[j])
    ensures var t := StepEnqueue(s, j); Effects(s, t, j) && PcReal(acts, t.c.log, t.threads[j])
  {
    hide AskedFor;
  }

  lemma {:induction false} QueueCloseEffects(acts: seq<Action>, s: State, j: nat)
    requires j < |s.threads| && PcReal(acts, s.c.log, s.threads[j])
    ensures var t := StepQueueClose(s, j); Effects(s, t, j) && PcReal(acts, t.c.log, t.threads[j])
  {
    hide AskedFor;
  }

  lemma {:induction false} WaitEffects(acts: seq<Action>, s: State, j: nat)
    requires j < |s.threads| && PcReal(acts, s.c.log, s.threads[j])
    ensures var t := StepWait(s, j); Effects(s, t, j) && PcReal(acts, t.c.log, t.threads[j])
  {
    hide AskedFor;
  }

  lemma {:induction false} WatcherEffects(acts: seq<Action>, s: State, j: nat, pick: Pick)
    requires j < |s.threads| && PcReal(acts, s.c.log, s.threads[j])
    ensures var t := StepWatcher(s, j, pick); Effects(s, t, j) && PcReal(acts, t.c.log, t.threads[j])
  {
    hide AskedFor;
  }

  lemma {:induction false} ClientCloseEffects(acts: seq<Action>, s: State, j: nat)
    requires j < |s.threads| && PcReal(acts, s.c.log, s.threads[j])
    ensures var t := StepClientClose(s, j); Effects(s, t, j) && PcReal(acts, t.c.log, t.threads[j])
  {
    hide AskedFor;
  }

  lemma {:induction false} StepEffects(acts: seq<Action>, s: State, j: nat, pick: Pick)
    requires j < |s.threads| && PcReal(acts, s.c.log, s.threads[j])
    ensures var t := StepThread(s, j, pick); j < |t.threads| && Effects(s, t, j) && PcReal(acts, t.c.log, t.threads[j])
  {
    hide PcReal, StepEnqueue, StepQueueClose, StepWait, StepWatcher, StepClientClose;
    if s.threads[j].Enqueue? {
      EnqueueEffects(acts, s, j);
    } else {
      QueueCloseEffects(acts, s, j);
      WaitEffects(acts, s, j);
      WatcherEffects(acts, s, j, pick);
      ClientCloseEffects(acts, s, j);
    }
  }

  lemma {:induction false} ThreadReal(acts: seq<Action>, more: seq<Action>, s: State, j: nat, pick: Pick)
    requires QueueSide(s) && AllReal(acts, s) && j < |s.threads| && acts <= more
    ensures AllReal(more, StepThread(s, j, pick))
  {
    var t := StepThread(s, j, pick);
    StepEffects(acts, s, j, pick);
    StepMoves(s, j, pick);
    RealStays(acts, more, s.c.log, t.c.log);
    RealStays(acts, more, t.c.log, t.c.log);
    hide QueueSide, StepThread, PcReal, Real;
    if s.threads[j].Enqueue? {
      JobReal(acts, s.c.log, s.threads[j]);
    }
    forall i | 0 <= i < |t.threads|
      ensures PcReal(more, t.c.log, t.threads[i])
    {
      if i >= |s.threads| {
        WatchReal(more, t.c.log);
      }
    }
  }

  lemma {:induction false} JobReal(acts: seq<Action>, log: seq<Event>, pc: Pc)
    requires pc.Enqueue? && PcReal(acts, log, pc)
    ensures Real(acts, log, pc.job)
  {
  }

  lemma {:induction false} WatchReal(acts: seq<Action>, log: seq<Event>)
    ensures PcReal(acts, log, Watch)
  {
  }

  lemma {:induction false} WorkerReal(acts: seq<Action>, more: seq<Action>, s: State, k: nat)
    requires AllReal(acts, s) && k < |s.workers| && acts <= more
    ensures AllReal(more, StepWorker(s, k))
  {
    var t := StepWorker(s, k);
    WorkerKeepsThreads(s, k);
    assert s.c.log <= t.c.log;
    RealStays(acts, more, s.c.log, t.c.log);
    hide StepWorker, PcReal, Real;
  }

  lemma {:induction false} BeginReal(acts: seq<Action>, s: State, call: Call)
    requires AllReal(acts, s) && s.q.crash.None?
    ensures AllReal(acts + [Begin(call)], Do(s, Begin(call)))
  {
    var more := acts + [Begin(call)];
    RealStays(acts, more, s.c.log, s.c.log);
    assert PcReal(more, s.c.log, Entry(call));
    hide PcReal, Real;
  }

  lemma {:induction false} MeetReal(acts: seq<Action>, s: State, i: nat, k: nat)
    requires AllReal(acts, s) && i < |s.threads| && k < |s.workers|
    ensures AllReal(acts, Meet(s, i, k))
  {
    hide AskedFor;
  }

  lemma {:induction false} DoReal(acts: seq<Action>, s: State, act: Action)
    requires QueueSide(s) && AllReal(acts, s)
    ensures AllReal(acts + [act], Do(s, act))
  {
    var more := acts + [act];
    RealStays(acts, more, s.c.log, s.c.log);
    hide QueueSide, PcReal, Real, StepThread, StepWorker, Meet;
    if s.q.crash.None? {
      hide AllReal;
      match act
      case Begin(call) => BeginReal(acts, s, call);
      case Run(i, pick) =>
        if i < |s.threads| {
          ThreadReal(acts, more, s, i, pick);
        } else {
          StillReal(acts, more, s);
        }
      case RunWorker(k) =>
        if k < |s.workers| {
          WorkerReal(acts, more, s, k);
        } else {
          StillReal(acts, more, s);
        }
      case HandOver(i, k) =>
        StillReal(acts, more, s);
        if i < |s.threads| && k < |s.workers| {
          MeetReal(more, s, i, k);
        }
      case CancelParent =>
        StillReal(acts, more, s);
        CancelReal(more, s);
    }
  }

  lemma {:induction false} CancelReal(acts: seq<Action>, s: State)
    requires AllReal(acts, s)
    ensures AllReal(acts, s.(c := s.c.(cancelled := true)))
  {
    hide PcReal, Real;
  }

  lemma {:induction false} StillReal(acts: seq<Action>, more: seq<Action>, s: State)
    requires AllReal(acts, s) && acts <= more
    ensures AllReal(more, s)
  {
    RealStays(acts, more, s.c.log, s.c.log);
    hide PcReal, Real;
  }

  /** Nothing is queued that nobody asked for and that no notification stands for. */
  lemma {:induction false} EveryTaskIsReal(acts: seq<Action>)
    ensures AllReal(acts, Reach(acts))
    ensures forall job :: job in Reach(acts).q.accepted ==> Real(acts, Reach(acts).c.log, job)
  {
    if acts != [] {
      var before, act := acts[..|acts| - 1], acts[|acts| - 1];
      EveryTaskIsReal(before);
      ReachKeeps(before);
      assert acts == before + [act];
      hide Inv, AllReal, Do;
      DoReal(before, Reach(before), act);
    }
    RealOf(acts, Reach(acts));
  }

  lemma {:induction false} RealOf(acts: seq<Action>, s: State)
    requires AllReal(acts, s)
    ensures forall job :: job in s.q.accepted ==> Real(acts, s.c.log, job)
  {
    hide Real;
  }

  // ---------------------------------------------------------------- every notice once, in its order

  predicate Below(jobs: seq<Job>, n: nat) { forall a :: 0 <= a < |jobs| && jobs[a].Notice? ==> jobs[a].at < n }

  /** The notices among the jobs are in the order in which they were received, each there once. */
  predicate Ordered(jobs: seq<Job>) {
    forall a, b :: 0 <= a < b < |jobs| && jobs[a].Notice? && jobs[b].Notice? ==> jobs[a].at < jobs[b].at
  }

  /** A notification in the watcher's hands is later than everything accepted. */
  predicate AheadOf(jobs: seq<Job>, pc: Pc) {
    && (pc.Decide? ==> Below(jobs, pc.at))
    && (pc.Enqueue? && pc.stage.Locking? && pc.job.Notice? ==> Below(jobs, pc.job.at))
  }

  predicate NoticeInv(s: State) {
    && Ordered(s.q.accepted)
    && forall i :: 0 <= i < |s.threads| ==> AheadOf(s.q.accepted, s.threads[i])
  }

  lemma {:induction false} RealIsBelow(acts: seq<Action>, s: State)
    requires AllReal(acts, s)
    ensures Below(s.q.accepted, |s.c.log|)
  {
  }

  lemma {:induction false} OwnStepAhead(s: State, j: nat, pick: Pick)
    requires j < |s.threads| && AheadOf(s.q.accepted, s.threads[j]) && Below(s.q.accepted, |s.c.log|)
    ensures StepThread(s, j, pick).q.accepted == s.q.accepted ==>
              AheadOf(s.q.accepted, StepThread(s, j, pick).threads[j])
    ensures StepThread(s, j, pick).q.accepted != s.q.accepted ==>
              AheadOf(StepThread(s, j, pick).q.accepted, StepThread(s, j, pick).threads[j])
  {
    hide Below;
  }

  lemma {:induction false} OrderedPush(jobs: seq<Job>, job: Job)
    requires Ordered(jobs) && (job.Notice? ==> Below(jobs, job.at))
    ensures Ordered(jobs + [job])
  {
  }

  /** Only the watcher has a notification in its hands. */
  lemma {:induction false} OthersAhead(s: State, j: nat, i: nat)
    requires Formed(s) && WatcherInv(s) && NoticeInv(s) && i < |s.threads| && j < |s.threads| && i != j
    requires s.threads[j].Enqueue?
    ensures AheadOf(s.q.accepted + [s.threads[j].job], s.threads[i])
  {
    var jobs := s.q.accepted + [s.threads[j].job];
    assert forall n: nat :: Below(s.q.accepted, n) && s.threads[j].job.Other? ==> Below(jobs, n);
  }

  lemma {:induction false} ThreadNotices(acts: seq<Action>, s: State, j: nat, pick: Pick)
    requires Inv(s) && WatcherInv(s) && AllReal(acts, s) && NoticeInv(s) && j < |s.threads|
    ensures NoticeInv(StepThread(s, j, pick))
  {
    var t := StepThread(s, j, pick);
    RealIsBelow(acts, s);
    StepEffects(acts, s, j, pick);
    StepMoves(s, j, pick);
    OwnStepAhead(s, j, pick);
    if t.q.accepted != s.q.accepted {
      OrderedPush(s.q.accepted, s.threads[j].job);
    }
    forall i | 0 <= i < |t.threads|
      ensures AheadOf(t.q.accepted, t.threads[i])
    {
      if i < |s.threads| && i != j && t.q.accepted != s.q.accepted {
        OthersAhead(s, j, i);
      }
      hide StepThread, Below, QueueSide, WatcherInv, ClientLockInv, AllReal, Ordered;
    }
    hide StepThread, Below, AheadOf, QueueSide, WatcherInv, ClientLockInv, AllReal;
  }

  lemma {:induction false} DoNotices(acts: seq<Action>, s: State, act: Action)
    requires Inv(s) && WatcherInv(s) && AllReal(acts, s) && NoticeInv(s)
    ensures NoticeInv(Do(s, act))
  {
    if s.q.crash.None? && act.Run? && act.i < |s.threads| {
      hide Inv, WatcherInv, AllReal, NoticeInv, StepThread;
      ThreadNotices(acts, s, act.i, act.pick);
    } else if s.q.crash.None? && act.RunWorker? && act.k < |s.workers| {
      WorkerKeepsThreads(s, act.k);
      hide Inv, WatcherInv, AllReal, StepWorker, AheadOf, Ordered;
    } else {
      hide Inv, WatcherInv, AllReal, StepThread, Below, Ordered;
    }
  }

  lemma {:induction false} ReachNotices(acts: seq<Action>)
    ensures NoticeInv(Reach(acts))
  {
    if acts != [] {
      var before := acts[..|acts| - 1];
      ReachNotices(before);
      ReachDelivers(before);
      EveryTaskIsReal(before);
      hide Inv, WatcherInv, ClosedInv, Delivery, AllReal, NoticeInv, Do;
      DoNotices(before, Reach(before), acts[|acts| - 1]);
    }
  }

  /** The starts of runTask are those of notices received before them, each once and in their order. */
  predicate StartsInOrder(log: seq<Event>) {
    && (forall m :: 0 <= m < |log| && log[m].RunStarted? ==>
          log[m].job.Notice? && log[m].job.at < m && log[log[m].job.at].Received?)
    && forall m, n :: 0 <= m < n < |log| && log[m].RunStarted? && log[n].RunStarted? ==>
         log[m].job.Notice? && log[n].job.Notice? && log[m].job.at < log[n].job.at
  }

  /** A notice once started is with the worker, past its start, or finished. */
  predicate StartsAccounted(s: State) {
    forall m :: 0 <= m < |s.c.log| && s.c.log[m].RunStarted? ==>
      || s.c.log[m].job in s.q.finished
      || (var w := TheWorker(s); w.Busy? && w.job == s.c.log[m].job && (w.phase.Work? || w.phase.Unlock?))
  }

  predicate StartInvs(s: State) { StartsInOrder(s.c.log) && StartsAccounted(s) }

  lemma {:induction false} StartComes(acts: seq<Action>, s: State)
    requires Inv(s) && AllReal(acts, s) && NoticeInv(s) && StartInvs(s)
    requires TheWorker(s).Busy? && TheWorker(s).phase.Start?
    ensures StartsInOrder(s.c.log + [RunStarted(TheWorker(s).job)])
  {
    hide QueueLockInv, ClientLockInv, QueueInv;
    var job, log, n := TheWorker(s).job, s.c.log, |s.q.finished|;
    assert s.workers[0] == TheWorker(s);
    assert s.q.begun[n] == job && s.q.accepted[n] == job;
    forall m | 0 <= m < |log| && log[m].RunStarted?
      ensures log[m].job.at < job.at
    {
      var a :| 0 <= a < n && s.q.finished[a] == log[m].job;
      assert s.q.accepted[a] == log[m].job;
    }
  }

  lemma {:induction false} TaskStarts(acts: seq<Action>, s: State, k: nat)
    requires Inv(s) && AllReal(acts, s) && NoticeInv(s) && StartInvs(s) && k < |s.workers| && s.workers[k].Busy?
    ensures StartInvs(StepTask(s, k))
  {
    assert TheWorker(s) == s.workers[k];
    if s.workers[k].phase.Start? {
      StartComes(acts, s);
    }
    hide QueueLockInv, ClientLockInv, OrderInv, AllReal, NoticeInv, StartsInOrder;
  }

  lemma {:induction false} LoopStarts(s: State, k: nat)
    requires Inv(s) && StartInvs(s) && k < |s.workers| && !s.workers[k].Busy?
    ensures StartInvs(StepLoop(s, k))
  {
    hide QueueLockInv, ClientLockInv, OrderInv, StartsInOrder;
  }

  lemma {:induction false} MeetStarts(s: State, i: nat, k: nat)
    requires Inv(s) && StartInvs(s) && i < |s.threads| && k < |s.workers|
    ensures StartInvs(Meet(s, i, k))
  {
    hide QueueLockInv, ClientLockInv, OrderInv, StartsInOrder;
  }

  lemma {:induction false} QuietPush(log: seq<Event>, e: Event)
    requires StartsInOrder(log) && !e.RunStarted?
    ensures StartsInOrder(log + [e])
  {
  }

  lemma {:induction false} AccountedStays(s: State, t: State)
    requires StartsAccounted(s) && t.q.finished == s.q.finished
    requires TheWorker(s).Busy? ==> TheWorker(t) == TheWorker(s)
    requires t.c.log == s.c.log || t.c.log == s.c.log + [Received] || t.c.log == s.c.log + [ClientHasClosed]
    ensures StartsAccounted(t)
  {
    hide TheWorker;
  }

  /** A goroutine logs no start and leaves the worker alone, but for making it. */
  lemma {:induction false} ThreadStarts(acts: seq<Action>, s: State, j: nat, pick: Pick)
    requires Inv(s) && AllReal(acts, s) && StartInvs(s) && j < |s.threads|
    ensures StartInvs(StepThread(s, j, pick))
  {
    hide QueueLockInv, ClientLockInv, OrderInv, Formed, StepThread, StartsInOrder, StartsAccounted, PcReal, Real;
    StepEffects(acts, s, j, pick);
    QuietPush(s.c.log, Received);
    QuietPush(s.c.log, ClientHasClosed);
    AccountedStays(s, StepThread(s, j, pick));
  }

  lemma {:induction false} DoStarts(acts: seq<Action>, s: State, act: Action)
    requires Inv(s) && AllReal(acts, s) && NoticeInv(s) && StartInvs(s)
    ensures StartInvs(Do(s, act))
  {
    hide Inv, AllReal, NoticeInv, StepThread, StepTask, StepLoop, Meet, StartsInOrder;
    if s.q.crash.None? {
      match act
      case Run(i, pick) =>
        if i < |s.threads| {
          ThreadStarts(acts, s, i, pick);
        }
      case RunWorker(k) =>
        if k < |s.workers| {
          if s.workers[k].Busy? {
            TaskStarts(acts, s, k);
          } else {
            LoopStarts(s, k);
          }
        }
      case HandOver(i, k) =>
        if i < |s.threads| && k < |s.workers| {
          MeetStarts(s, i, k);
        }
      case _ =>
    }
  }

  /**
   runTask starts only for a notification that was received before, at most once for each, and
   in the order in which they were received.
  */
  lemma {:induction false} NoticesRunInOrder(acts: seq<Action>)
    ensures StartInvs(Reach(acts)) && StartsInOrder(Reach(acts).c.log)
  {
    if acts != [] {
      var before := acts[..|acts| - 1];
      NoticesRunInOrder(before);
      ReachKeeps(before);
      ReachNotices(before);
      EveryTaskIsReal(before);
      hide Inv, AllReal, NoticeInv, StartsInOrder, StartsAccounted, Do;
      DoStarts(before, Reach(before), acts[|acts| - 1]);
    }
  }
}
