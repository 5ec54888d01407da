/**
 The task queue and the client's notification handling as interleaved steps.  A step is
 one operation on shared state: taking or giving back a mutex, testing or closing the
 queue's channel, handing a task over the unbuffered channel, filling or draining the
 one-slot notification channel, looking at the context.  Any number of goroutines may
 call Enqueue, the two Close operations and WaitForTaskNotification at any time.
 */
module Notifications {
  import opened Wrappers

  /** A queued task: the closure made for the notification at a place in the log, or any other task. */
  datatype Job = Notice(at: nat) | Other(id: nat)

  datatype Channel = Unmade | Open | Closed

  datatype Stage = Locking | Testing | Sending | Unlocking

  /** What a goroutine goes on with after its Enqueue. */
  datatype Next = Quit | StartWatcher | Receive

  /** Where a goroutine is: inside Enqueue, a Close, WaitForTaskNotification or the stream watcher. */
  datatype Pc =
    | Enqueue(stage: Stage, job: Job, next: Next)
    | QueueLock | QueueClose | QueueWait | QueueClosed
    | WaitLock(saved: Option<nat>) | WaitCheck(saved: Option<nat>) | WaitSpawn | WaitUnlock
    | Watch | Recv | Decide(at: nat)
    | ClientLock | ClientCancel | ClientMark | ClientClosed
    | Gone

  /** The closure of a notification: lock, look at the context, drain, run, unlock. */
  datatype Phase = Lock | Look | Drain | Start | Work | Unlock

  datatype Worker = Fresh | Idle | Busy(job: Job, phase: Phase) | Exited

  datatype Owner = ByThread(i: nat) | ByWorker(k: nat)

  datatype Cause = SendOnClosed | CloseOfNil | CloseOfClosed | NegativeWaitGroup

  datatype Event = Received | RunStarted(job: Job) | ClientHasClosed

  datatype Call =
    | CallEnqueue(id: nat)
    | CallQueueClose
    | CallWait(saved: Option<nat>)   // the saved patch task found in the state file, if any
    | CallClientClose

  datatype Pick = GoOn | GiveUp | Again

  datatype Action =
    | Begin(call: Call)
    | Run(i: nat, pick: Pick)
    | RunWorker(k: nat)
    | HandOver(i: nat, k: nat)
    | CancelParent

  /** The package variables of the queue, with a record of what went through it. */
  datatype Queue = Queue(
    tc: Channel,
    mx: Option<nat>,
    wg: int,
    crash: Option<Cause>,
    accepted: seq<Job>,     // in the order Enqueue took the lock
    begun: seq<Job>,
    finished: seq<Job>)

  datatype Client = Client(
    mx: Option<Owner>,
    watcher: Option<nat>,   // the goroutine that was started to watch the stream
    noti: bool,
    started: bool,
    cancelled: bool,
    log: seq<Event>)
  {
    function Log(e: Event): Client { this.(log := log + [e]) }
  }

  datatype State = State(threads: seq<Pc>, workers: seq<Worker>, q: Queue, c: Client) {
    function At(i: nat, pc: Pc): State
      requires i < |threads|
    {
      this.(threads := threads[i := pc])
    }

    function WorkerAt(k: nat, w: Worker): State
      requires k < |workers|
    {
      this.(workers := workers[k := w])
    }

    function Crashed(cause: Cause): State { this.(q := q.(crash := Some(cause))) }
  }

  function Initial(): State {
    State([], [], Queue(Unmade, None, 0, None, [], [], []), Client(None, None, false, false, false, []))
  }

  function Entry(call: Call): Pc {
    match call
    case CallEnqueue(id) => Enqueue(Locking, Other(id), Quit)
    case CallQueueClose => QueueLock
    case CallWait(saved) => WaitLock(saved)
    case CallClientClose => ClientLock
  }

  function After(next: Next): Pc {
    match next
    case Quit => Gone
    case StartWatcher => WaitSpawn
    case Receive => Recv
  }

  /** tasker.Enqueue, except for the hand-over itself. */
  function StepEnqueue(s: State, i: nat): State
    requires i < |s.threads| && s.threads[i].Enqueue?
  {
    var pc := s.threads[i];
    match pc.stage
    case Locking =>
      if s.q.mx.Some? then s
      else s.At(i, pc.(stage := Testing)).(q := s.q.(mx := Some(i), accepted := s.q.accepted + [pc.job]))
    case Testing =>
      var t := s.At(i, pc.(stage := Sending));
      if s.q.tc.Unmade? then t.(q := s.q.(tc := Open), workers := s.workers + [Fresh]) else t
    case Sending => if s.q.tc.Closed? then s.Crashed(SendOnClosed) else s
    case Unlocking => s.At(i, After(pc.next)).(q := s.q.(mx := None))
  }

  /** tasker.Close keeps its lock. */
  function StepQueueClose(s: State, i: nat): State
    requires i < |s.threads|
  {
    match s.threads[i]
    case QueueLock => if s.q.mx.Some? then s else s.At(i, QueueClose).(q := s.q.(mx := Some(i)))
    case QueueClose =>
      if s.q.tc.Unmade? then s.Crashed(CloseOfNil)
      else if s.q.tc.Closed? then s.Crashed(CloseOfClosed)
      else s.At(i, QueueWait).(q := s.q.(tc := Closed))
    case QueueWait => if s.q.wg == 0 then s.At(i, QueueClosed) else s
    case _ => s
  }

  /** WaitForTaskNotification holds the client's lock while it queues a saved patch task. */
  function StepWait(s: State, i: nat): State
    requires i < |s.threads|
  {
    match s.threads[i]
    case WaitLock(saved) =>
      if s.c.mx.Some? then s else s.At(i, WaitCheck(saved)).(c := s.c.(mx := Some(ByThread(i))))
    case WaitCheck(saved) =>
      if s.c.started then s.At(i, WaitUnlock)
      else
        s.At(i, if saved.Some? then Enqueue(Locking, Other(saved.value), StartWatcher) else WaitSpawn)
         .(c := s.c.(started := true))
    case WaitSpawn => s.(threads := s.threads[i := WaitUnlock] + [Watch], c := s.c.(watcher := Some(|s.threads|)))
    case WaitUnlock => s.At(i, Gone).(c := s.c.(mx := None))
    case _ => s
  }

  /** The stream watcher; when several cases of its select are ready, any of them may be taken. */
  function StepWatcher(s: State, i: nat, pick: Pick): State
    requires i < |s.threads|
  {
    match s.threads[i]
    case Watch =>
      if s.c.cancelled then s.At(i, Gone)
      else (match pick case GoOn => s.At(i, Recv) case GiveUp => s.At(i, ClientLock) case Again => s)
    case Recv =>
      (match pick
       case GoOn => s.At(i, Decide(|s.c.log|)).(c := s.c.Log(Received))
       case GiveUp => s.At(i, ClientLock)
       case Again => s.At(i, Watch))
    case Decide(at) =>
      if s.c.cancelled && (pick.GiveUp? || s.c.noti) then s.At(i, Watch)
      else if s.c.noti then s.At(i, Recv)
      else s.At(i, Enqueue(Locking, Notice(at), Receive)).(c := s.c.(noti := true))
    case _ => s
  }

  /** Client.Close keeps its lock. */
  function StepClientClose(s: State, i: nat): State
    requires i < |s.threads|
  {
    match s.threads[i]
    case ClientLock =>
      if s.c.mx.Some? then s else s.At(i, ClientCancel).(c := s.c.(mx := Some(ByThread(i))))
    case ClientCancel => s.At(i, ClientMark).(c := s.c.(cancelled := s.c.cancelled || s.c.started))
    case ClientMark => s.At(i, ClientClosed).(c := s.c.Log(ClientHasClosed))
    case _ => s
  }

  function StepThread(s: State, i: nat, pick: Pick): State
    requires i < |s.threads|
  {
    var pc := s.threads[i];
    if pc.Enqueue? then StepEnqueue(s, i)
    else if pc.QueueLock? || pc.QueueClose? || pc.QueueWait? then StepQueueClose(s, i)
    else if pc.WaitLock? || pc.WaitCheck? || pc.WaitSpawn? || pc.WaitUnlock? then StepWait(s, i)
    else if pc.Watch? || pc.Recv? || pc.Decide? then StepWatcher(s, i, pick)
    else StepClientClose(s, i)
  }

  /** The task function of a worker returns. */
  function Finish(s: State, k: nat): State
    requires k < |s.workers| && s.workers[k].Busy?
  {
    s.WorkerAt(k, Idle).(q := s.q.(finished := s.q.finished + [s.workers[k].job]))
  }

  /** The worker loop around a task: count itself, wait, leave once the channel is closed and empty. */
  function StepLoop(s: State, k: nat): State
    requires k < |s.workers|
  {
    match s.workers[k]
    case Fresh => s.WorkerAt(k, Idle).(q := s.q.(wg := s.q.wg + 1))
    case Idle =>
      if !s.q.tc.Closed? then s
      else if s.q.wg <= 0 then s.Crashed(NegativeWaitGroup)
      else s.WorkerAt(k, Exited).(q := s.q.(wg := s.q.wg - 1))
    case _ => s
  }

  /** One operation of the task a worker is busy with. */
  function StepTask(s: State, k: nat): State
    requires k < |s.workers| && s.workers[k].Busy?
  {
    var job := s.workers[k].job;
    match s.workers[k].phase
    case Lock => if s.c.mx.Some? then s else s.WorkerAt(k, Busy(job, Look)).(c := s.c.(mx := Some(ByWorker(k))))
    case Look => s.WorkerAt(k, Busy(job, if s.c.cancelled then Unlock else Drain))
    case Drain => if s.c.noti then s.WorkerAt(k, Busy(job, Start)).(c := s.c.(noti := false)) else s
    case Start => s.WorkerAt(k, Busy(job, Work)).(c := s.c.Log(RunStarted(job)))
    case Work => if job.Notice? then s.WorkerAt(k, Busy(job, Unlock)) else Finish(s, k)
    case Unlock => Finish(s, k).(c := s.c.(mx := None))
  }

  function StepWorker(s: State, k: nat): State
    requires k < |s.workers|
  {
    if s.workers[k].Busy? then StepTask(s, k) else StepLoop(s, k)
  }

  /** The unbuffered channel: a sender and an idle worker meet. */
  function Meet(s: State, i: nat, k: nat): State
    requires i < |s.threads| && k < |s.workers|
  {
    var pc := s.threads[i];
    if pc.Enqueue? && pc.stage.Sending? && s.workers[k].Idle? && s.q.tc.Open? then
      State(s.threads[i := pc.(stage := Unlocking)],
            s.workers[k := Busy(pc.job, if pc.job.Notice? then Lock else Work)],
            s.q.(begun := s.q.begun + [pc.job]),
            s.c)
    else s
  }

  function Do(s: State, act: Action): State {
    if s.q.crash.Some? then s
    else match act
      case Begin(call) => s.(threads := s.threads + [Entry(call)])
      case Run(i, pick) => if i < |s.threads| then StepThread(s, i, pick) else s
      case RunWorker(k) => if k < |s.workers| then StepWorker(s, k) else s
      case HandOver(i, k) => if i < |s.threads| && k < |s.workers| then Meet(s, i, k) else s
      case CancelParent => s.(c := s.c.(cancelled := true))
  }

  function Reach(acts: seq<Action>): State {
    if acts == [] then Initial() else Do(Reach(acts[..|acts| - 1]), acts[|acts| - 1])
  }
}
