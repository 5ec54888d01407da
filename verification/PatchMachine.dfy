/**
 The life of one accepted patch task, seen as a machine that makes one call to the
 outside world per step: a save of the state file, a report, a reboot query, an update
 run, a reboot.  `Step` says what the agent does with one answer; a process that is
 killed simply gets no further answer.  The imperative class `PatchTask` refines this
 machine call by call.
 */
module PatchMachine {
  import opened Wrappers

  const TOTAL_REBOOT_COUNT_LIMIT := 5

  datatype RebootConfig = Default | Always | Never

  datatype Task = Task(rebootConfig: RebootConfig, dryRun: bool)

  datatype PatchStep = PrePatch | Patching | PostPatch | UnknownStep

  /** The fields of a patch task that the state file keeps. */
  datatype Record = Record(task: Task, step: PatchStep, pre: nat, post: nat) {
    function Total(): nat { pre + post }

    predicate Unused() { Total() < 1 }
  }

  datatype Progress = Started | ApplyingPatches | Rebooting

  datatype FinalState = Failed | Canceled | Succeeded | SucceededRebootRequired

  /** An answer of the outside world; a call reads every answer it does not know as an error. */
  datatype Answer = Ok | Err | Stop | Yes | No | Recent | Panic

  /** What an observer of the task sees over its whole life. */
  datatype Event =
    | RunStarted
    | ProgressSent(progress: Progress)
    | Updated            // runUpdates returned nil
    | PostCheckPassed    // the check after the updates returned without a reboot
    | RebootCalled(pre: bool)
    | Completed(state: FinalState)
    | RunReturned
    | RunKilled
    | RebootedAway

  /** The call a running process is about to make. */
  datatype Pc =
    | SaveFirst
    | SavePatching
    | Report(progress: Progress, pre: bool)
    | SaveReported(progress: Progress, pre: bool)
    | QueryReboot(pre: bool)
    | SaveCount(pre: bool)
    | CallReboot(pre: bool)
    | AwaitReboot
    | RunUpdates
    | SavePostPatch
    | QueryFinal
    | ReportFinal(state: FinalState)
    | ReportPanic
    | SaveEmpty
    | Finished
    | Down

  datatype Machine = Machine(
    pc: Pc,
    mem: Record,
    reported: set<Progress>,
    disk: Option<Record>,
    history: seq<Event>)
  {
    predicate Running() { !pc.Finished? && !pc.Down? && !pc.AwaitReboot? }

    function Log(e: Event): Machine { this.(history := history + [e]) }

    function Goto(pc': Pc): Machine { this.(pc := pc') }

    /** A save that succeeds replaces the record on disk; one that fails leaves it. */
    function Saved(): Machine { this.(disk := Some(mem)) }

    /** The switch at the top of the run loop, up to the next call. */
    function Top(): Machine {
      match mem.step
      case PrePatch => this.(mem := mem.(step := Patching)).Goto(SavePatching)
      case Patching => Goto(Report(ApplyingPatches, false))
      case PostPatch => Goto(QueryFinal)
      case UnknownStep => Goto(ReportFinal(Failed))
    }

    /** The first branch of rebootIfNeeded: ALWAYS forces one post-patch reboot unasked. */
    function EnterReboot(pre: bool): Machine {
      if mem.task.rebootConfig == Always && !pre && mem.post == 0 then Decide(pre) else Goto(QueryReboot(pre))
    }

    /** A reboot is wanted: configuration and dry run may still forbid it. */
    function Decide(pre: bool): Machine {
      if mem.task.rebootConfig == Never || mem.task.dryRun then NoReboot(pre)
      else this.(mem := if pre then mem.(pre := mem.pre + 1) else mem.(post := mem.post + 1)).Goto(SaveCount(pre))
    }

    /** rebootIfNeeded returns nil. */
    function NoReboot(pre: bool): Machine {
      if pre then Top()
      else this.(mem := mem.(step := PostPatch)).Goto(SavePostPatch)
    }

    /** What follows a progress report that went well. */
    function AfterReport(progress: Progress, pre: bool): Machine {
      match progress
      case Started => EnterReboot(true)
      case ApplyingPatches => Goto(RunUpdates)
      case Rebooting => Goto(CallReboot(pre))
    }

    /** What follows a progress report that failed or was told to stop. */
    function AfterReportError(progress: Progress, pre: bool, stop: bool): Machine {
      if progress == Rebooting then Goto(CallReboot(pre))
      else Goto(ReportFinal(if stop then Canceled else Failed))
    }

    /** The state after the call at `pc` is answered with `a`. */
    function Move(a: Answer): Machine {
      match pc
      case SaveFirst => (if a == Ok then Saved() else this).Top()
      case SavePatching => if a == Ok then Saved().Goto(Report(Started, true)) else Goto(ReportFinal(Failed))
      case Report(p, pre) =>
        if Suppressed(a) then AfterReport(p, pre)
        else if a == Ok then this.(reported := reported + {p}).Goto(SaveReported(p, pre))
        else AfterReportError(p, pre, a == Stop)
      case SaveReported(p, pre) =>
        if a == Ok then Saved().AfterReport(p, pre) else AfterReportError(p, pre, false)
      case QueryReboot(pre) =>
        if a == Yes then (if mem.Total() >= TOTAL_REBOOT_COUNT_LIMIT then NoReboot(pre) else Decide(pre))
        else if a == No then NoReboot(pre)
        else Goto(if a == Panic then ReportPanic else ReportFinal(Failed))
      case SaveCount(pre) =>
        if a == Ok then Saved().Goto(Report(Rebooting, pre)) else Goto(ReportFinal(Failed))
      case CallReboot(pre) =>
        Goto(if a == Ok then AwaitReboot else if a == Panic then ReportPanic else ReportFinal(Failed))
      case RunUpdates =>
        if a == Ok then EnterReboot(false) else Goto(if a == Panic then ReportPanic else ReportFinal(Failed))
      case SavePostPatch => if a == Ok then Saved().Top() else Goto(ReportFinal(Failed))
      case QueryFinal =>
        if a == Yes then Goto(ReportFinal(SucceededRebootRequired))
        else if a == No then Goto(ReportFinal(Succeeded))
        else Goto(if a == Panic then ReportPanic else ReportFinal(Failed))
      case ReportFinal(_) => Goto(SaveEmpty)
      case SaveEmpty => (if a == Ok then this.(disk := None) else this).Goto(Finished)
      case ReportPanic => Goto(Finished)
      case AwaitReboot => this
      case Finished => this
      case Down => this
    }

    /** The same state was reported within the last few seconds, so no report is sent. */
    predicate Suppressed(a: Answer) {
      pc.Report? && pc.progress in reported && a == Recent
    }

    /** What that call and its answer add to the history. */
    function Emits(a: Answer): seq<Event> {
      match pc
      case Report(p, _) => if Suppressed(a) then [] else [ProgressSent(p)]
      case CallReboot(pre) => [RebootCalled(pre)]
      case RunUpdates => if a == Ok then [Updated] else []
      case SavePostPatch => [PostCheckPassed]
      case ReportFinal(s) => [Completed(s)]
      case ReportPanic => [Completed(Failed), RunReturned]
      case SaveEmpty => [RunReturned]
      case _ => []
    }

    function Step(a: Answer): Machine {
      Move(a).(history := history + Emits(a))
    }

    /** The process ends: killed in the middle of a run, taken down by its own reboot, or after a run. */
    function End(): Machine {
      if pc.Down? then this
      else if pc.Finished? then Goto(Down)
      else Log(if pc.AwaitReboot? then RebootedAway else RunKilled).Goto(Down)
    }

    /** The state file is loaded and, when it holds a patch task, that task runs again. */
    function Resume(): Machine {
      if (pc.Down? || pc.Finished?) && disk.Some? then
        Reloaded().Top()
      else this
    }

    function Reloaded(): Machine
      requires disk.Some?
    {
      this.(mem := disk.value, reported := {}).Log(RunStarted)
    }
  }

  /** RunApplyPatches: the task is accepted and its first save is under way. */
  function Accept(task: Task): Machine {
    Machine(SaveFirst, Record(task, PrePatch, 0, 0), {}, None, [RunStarted])
  }

  /** The answers of one stretch of execution, first answer first. */
  function Steps(m: Machine, answers: seq<Answer>): Machine {
    if answers == [] then m
    else Steps(m, answers[..|answers| - 1]).Step(answers[|answers| - 1])
  }

  datatype Action = Answered(a: Answer) | EndProcess | ResumeTask

  function Do(m: Machine, act: Action): Machine {
    match act
    case Answered(a) => m.Step(a)
    case EndProcess => m.End()
    case ResumeTask => m.Resume()
  }

  /** Any interleaving of runs, failures, kills, reboots and resumptions. */
  function Life(task: Task, acts: seq<Action>): Machine {
    if acts == [] then Accept(task)
    else Do(Life(task, acts[..|acts| - 1]), acts[|acts| - 1])
  }

  // ---------------------------------------------------------------- counting

  /** How many events of a history satisfy `p`. */
  function Count(h: seq<Event>, p: Event -> bool): nat {
    if h == [] then 0 else Count(h[..|h| - 1], p) + if p(h[|h| - 1]) then 1 else 0
  }

  predicate IsPreReboot(e: Event) { e == RebootCalled(true) }
  predicate IsPostReboot(e: Event) { e == RebootCalled(false) }
  predicate IsStart(e: Event) { e.RunStarted? }
  predicate IsReturn(e: Event) { e.RunReturned? }
  predicate IsKill(e: Event) { e.RunKilled? }
  predicate IsAway(e: Event) { e.RebootedAway? }
  predicate IsEnd(e: Event) { IsReturn(e) || IsKill(e) || IsAway(e) }

  function PreReboots(h: seq<Event>): nat { Count(h, IsPreReboot) }
  function PostReboots(h: seq<Event>): nat { Count(h, IsPostReboot) }
  function Reboots(h: seq<Event>): nat { PreReboots(h) + PostReboots(h) }
  function Starts(h: seq<Event>): nat { Count(h, IsStart) }
  function Returns(h: seq<Event>): nat { Count(h, IsReturn) }
  function Kills(h: seq<Event>): nat { Count(h, IsKill) }
  function Aways(h: seq<Event>): nat { Count(h, IsAway) }

  lemma {:induction false} CountPush(h: seq<Event>, e: Event, p: Event -> bool)
    ensures Count(h + [e], p) == Count(h, p) + if p(e) then 1 else 0
  {
    assert (h + [e])[..|h|] == h;
  }
}
