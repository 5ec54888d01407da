/**
 Everything a patch task asks of the outside world over its life, as a log of calls and
 answers.  `Next` says which call comes next from the log alone: it knows no state of the
 agent.  Every call of every life follows it, and what it comes to is stated call by call
 in `PatchPromises`.
 */
module PatchCalls {
  import opened Wrappers
  import opened PatchMachine
  import opened PatchSafety

  /** A process that starts on the task, a call with its answer, or a process that goes in mid-run. */
  datatype Mark = Began | Made(call: Pc, answer: Answer) | Died

  function Marks(m: Machine, act: Action): seq<Mark> {
    match act
    case Answered(a) => if m.Running() then [Made(m.pc, a)] else []
    case EndProcess => if m.pc.Down? || m.pc.Finished? then [] else [Died]
    case ResumeTask => if (m.pc.Down? || m.pc.Finished?) && m.disk.Some? then [Began] else []
  }

  function Log(task: Task, acts: seq<Action>): seq<Mark> {
    if acts == [] then [Began]
    else
      var front := acts[..|acts| - 1];
      Log(task, front) + Marks(Life(task, front), acts[|acts| - 1])
  }

  /** The calls of one process that gets these answers, from the state `m` on. */
  function Trace(m: Machine, answers: seq<Answer>): seq<Mark> {
    if answers == [] then []
    else
      var front := answers[..|answers| - 1];
      Trace(m, front) + Marks(Steps(m, front), Answered(answers[|answers| - 1]))
  }

  function Answers(answers: seq<Answer>): seq<Action> {
    if answers == [] then [] else Answers(answers[..|answers| - 1]) + [Answered(answers[|answers| - 1])]
  }

  /** The answers that one process gets go on with the life up to it. */
  lemma {:induction false} LifeGoesOn(task: Task, acts: seq<Action>, answers: seq<Answer>)
    ensures Life(task, acts + Answers(answers)) == Steps(Life(task, acts), answers)
    ensures Log(task, acts + Answers(answers)) == Log(task, acts) + Trace(Life(task, acts), answers)
  {
    hide Life, Log, Marks, Machine.Step;
    if answers == [] {
      assert acts + [] == acts && Log(task, acts) + [] == Log(task, acts);
    } else {
      var front, act := answers[..|answers| - 1], Answered(answers[|answers| - 1]);
      LifeGoesOn(task, acts, front);
      assert acts + Answers(answers) == acts + Answers(front) + [act];
      LogPush(task, acts + Answers(front), act);
      hide Answers;
      var log, trace := Log(task, acts), Trace(Life(task, acts), front);
      var marks := Marks(Steps(Life(task, acts), front), act);
      assert log + trace + marks == log + (trace + marks);
    }
  }

  lemma {:induction false} LogPush(task: Task, acts: seq<Action>, act: Action)
    ensures Life(task, acts + [act]) == Do(Life(task, acts), act)
    ensures Log(task, acts + [act]) == Log(task, acts) + Marks(Life(task, acts), act)
  {
    hide Do, Marks;
    assert (acts + [act])[..|acts|] == acts;
  }

  // ---------------------------------------------------------------- read off the log

  /** The step that the last save to go well has put on disk. */
  function Saved(log: seq<Mark>): Option<PatchStep> {
    if log == [] then None else SavedAfter(Saved(log[..|log| - 1]), log[|log| - 1])
  }

  function SavedAfter(saved: Option<PatchStep>, mark: Mark): Option<PatchStep> {
    match mark
    case Made(SaveFirst, Ok) => Some(PrePatch)
    case Made(SavePatching, Ok) => Some(Patching)
    case Made(SaveReported(_, _), Ok) => Some(Patching)
    case Made(SaveCount(_), Ok) => Some(Patching)
    case Made(SavePostPatch, Ok) => Some(PostPatch)
    case Made(SaveEmpty, Ok) => None
    case _ => saved
  }

  /** How many reboots of one kind have been counted on disk. */
  function Counted(log: seq<Mark>, pre: bool): nat {
    if log == [] then 0
    else Counted(log[..|log| - 1], pre) + if log[|log| - 1] == Made(SaveCount(pre), Ok) then 1 else 0
  }

  /** The progress that the process now running has reported. */
  function Sent(log: seq<Mark>): set<Progress> {
    if log == [] then {} else SentAfter(Sent(log[..|log| - 1]), log[|log| - 1])
  }

  function SentAfter(sent: set<Progress>, mark: Mark): set<Progress> {
    match mark
    case Began => {}
    case Made(Report(p, _), Ok) => sent + {p}
    case _ => sent
  }

  // ---------------------------------------------------------------- the call that comes next

  function FirstCall(step: PatchStep): Pc {
    match step
    case PrePatch => SavePatching
    case Patching => Report(ApplyingPatches, false)
    case PostPatch => QueryFinal
    case UnknownStep => ReportFinal(Failed)
  }

  /** A reboot is wanted, and neither the configuration nor a dry run forbids it. */
  function Wanted(task: Task, pre: bool): Pc {
    if RebootForbidden(task) then GoOn(pre) else SaveCount(pre)
  }

  function GoOn(pre: bool): Pc { if pre then Report(ApplyingPatches, false) else SavePostPatch }

  function Reported(p: Progress, pre: bool): Pc {
    match p
    case Started => QueryReboot(true)
    case ApplyingPatches => RunUpdates
    case Rebooting => CallReboot(pre)
  }

  function Broken(a: Answer): Pc { if a == Panic then ReportPanic else ReportFinal(Failed) }

  /** The call is a report of progress that this process has reported before. */
  predicate Again(sent: set<Progress>, call: Pc) { call.Report? && call.progress in sent }

  /**
   What follows an answer.  `again`: the call is a report already made; `spare`: fewer than five
   reboots are counted; `unused`: none of them after patching.
  */
  function After(task: Task, again: bool, spare: bool, unused: bool, call: Pc, a: Answer): Pc {
    match call
    case SaveFirst => SavePatching
    case SavePatching => if a == Ok then Report(Started, true) else ReportFinal(Failed)
    case Report(p, pre) =>
      if a == Recent && again then Reported(p, pre)
      else if a == Ok then SaveReported(p, pre)
      else if p == Rebooting then CallReboot(pre)
      else ReportFinal(if a == Stop then Canceled else Failed)
    case SaveReported(p, pre) => if a == Ok || p == Rebooting then Reported(p, pre) else ReportFinal(Failed)
    case QueryReboot(pre) =>
      if a == No then GoOn(pre)
      else if a != Yes then Broken(a)
      else if spare then Wanted(task, pre)
      else GoOn(pre)
    case SaveCount(pre) => if a == Ok then Report(Rebooting, pre) else ReportFinal(Failed)
    case CallReboot(_) => if a == Ok then AwaitReboot else Broken(a)
    case RunUpdates =>
      if a != Ok then Broken(a)
      else if task.rebootConfig == Always && unused then Wanted(task, false)
      else QueryReboot(false)
    case SavePostPatch => if a == Ok then QueryFinal else ReportFinal(Failed)
    case QueryFinal =>
      if a == Yes then ReportFinal(SucceededRebootRequired)
      else if a == No then ReportFinal(Succeeded)
      else Broken(a)
    case ReportFinal(_) => SaveEmpty
    case SaveEmpty => Finished
    case ReportPanic => Finished
    case _ => Down
  }

  /** The call of a process that has just begun: `first` when it has just accepted the task. */
  function AfterBegan(first: bool, saved: Option<PatchStep>): Pc {
    if first then SaveFirst
    else if saved.Some? then FirstCall(saved.value)
    else Down
  }

  function Next(task: Task, log: seq<Mark>): Pc
    requires log != []
  {
    AfterMark(task, log[..|log| - 1], log[|log| - 1])
  }

  function AfterMark(task: Task, before: seq<Mark>, mark: Mark): Pc {
    match mark
    case Began => AfterBegan(before == [], Saved(before))
    case Made(call, a) => After(task, Again(Sent(before), call), Spare(before), Unused(before), call, a)
    case Died => Down
  }

  predicate Spare(log: seq<Mark>) { Counted(log, true) + Counted(log, false) < TOTAL_REBOOT_COUNT_LIMIT }

  predicate Unused(log: seq<Mark>) { Counted(log, false) == 0 }

  // ---------------------------------------------------------------- every call follows the log

  lemma {:induction false} ReadPush(log: seq<Mark>, mark: Mark)
    ensures Saved(log + [mark]) == SavedAfter(Saved(log), mark)
    ensures Sent(log + [mark]) == SentAfter(Sent(log), mark)
    ensures Counted(log + [mark], true) == Counted(log, true) + if mark == Made(SaveCount(true), Ok) then 1 else 0
    ensures Counted(log + [mark], false) == Counted(log, false) + if mark == Made(SaveCount(false), Ok) then 1 else 0
  {
    assert (log + [mark])[..|log|] == log;
  }

  predicate Counts(r: Record, x: nat, y: nat) { r.pre == x && r.post == y }

  /** Memory at the call that comes next, when `x` and `y` reboots have been counted on disk. */
  predicate MemAgrees(pc: Pc, mem: Record, x: nat, y: nat) {
    match pc
    case SaveFirst => mem.step.PrePatch? && Counts(mem, x, y)
    case SaveCount(pre) => mem.step.Patching? && Counts(mem, if pre then x + 1 else x, if pre then y else y + 1)
    case SavePostPatch => mem.step.PostPatch? && Counts(mem, x, y)
    case QueryFinal => true
    case ReportFinal(_) => true
    case ReportPanic => true
    case SaveEmpty => true
    case _ => mem.step.Patching? && Counts(mem, x, y)
  }

  predicate DiskAgrees(task: Task, disk: Option<Record>, saved: Option<PatchStep>, x: nat, y: nat) {
    && (disk.Some? <==> saved.Some?)
    && (disk.Some? ==>
          disk.value.task == task && disk.value.step == saved.value && !saved.value.UnknownStep?
          && Counts(disk.value, x, y))
  }

  predicate Agrees(task: Task, m: Machine, saved: Option<PatchStep>, sent: set<Progress>, x: nat, y: nat) {
    && m.mem.task == task
    && DiskAgrees(task, m.disk, saved, x, y)
    && (m.Running() ==> m.reported == sent && MemAgrees(m.pc, m.mem, x, y))
  }

  /** `next` is the call that the log calls for; a run that is over may have gone down. */
  predicate FollowsAt(
    task: Task, m: Machine, next: Pc, saved: Option<PatchStep>, sent: set<Progress>, x: nat, y: nat)
  {
    (m.pc == next || (m.pc.Down? && next.Finished?)) && Agrees(task, m, saved, sent, x, y)
  }

  predicate Follows(task: Task, m: Machine, log: seq<Mark>)
    requires log != []
  {
    FollowsAt(task, m, Next(task, log), Saved(log), Sent(log), Counted(log, true), Counted(log, false))
  }

  lemma {:induction false} MoveFollows(
    task: Task, m: Machine, saved: Option<PatchStep>, sent: set<Progress>, x: nat, y: nat, a: Answer)
    requires m.Running() && Agrees(task, m, saved, sent, x, y)
    ensures m.Move(a).pc == After(task, Again(sent, m.pc), x + y < TOTAL_REBOOT_COUNT_LIMIT, y == 0, m.pc, a)
  {
    hide DiskAgrees;
    match m.pc
    case Report(_, _) =>
    case SaveReported(_, _) =>
    case QueryReboot(_) =>
    case RunUpdates =>
    case SaveFirst =>
    case SavePostPatch =>
    case _ =>
  }

  /** Memory and disk as `Agrees` has them in the middle of patching. */
  predicate InStep(task: Task, m: Machine, saved: Option<PatchStep>, sent: set<Progress>, x: nat, y: nat) {
    m.mem.task == task && DiskAgrees(task, m.disk, saved, x, y) && m.reported == sent && Counts(m.mem, x, y)
  }

  lemma {:induction false} NoRebootAgrees(
    task: Task, m: Machine, saved: Option<PatchStep>, sent: set<Progress>, x: nat, y: nat, pre: bool)
    requires InStep(task, m, saved, sent, x, y)
    ensures Agrees(task, m.Top(), saved, sent, x, y)
    ensures m.mem.step.Patching? ==> Agrees(task, m.NoReboot(pre), saved, sent, x, y)
  {
    hide DiskAgrees;
  }

  lemma {:induction false} EnterAgrees(
    task: Task, m: Machine, saved: Option<PatchStep>, sent: set<Progress>, x: nat, y: nat, pre: bool)
    requires InStep(task, m, saved, sent, x, y) && m.mem.step.Patching?
    ensures Agrees(task, m.Decide(pre), saved, sent, x, y)
    ensures Agrees(task, m.EnterReboot(pre), saved, sent, x, y)
  {
    NoRebootAgrees(task, m, saved, sent, x, y, pre);
    hide DiskAgrees, Machine.NoReboot;
  }

  lemma {:induction false} ReportedAgrees(
    task: Task, m: Machine, saved: Option<PatchStep>, sent: set<Progress>, x: nat, y: nat, p: Progress, pre: bool)
    requires InStep(task, m, saved, sent, x, y) && m.mem.step.Patching?
    ensures Agrees(task, m.AfterReport(p, pre), saved, sent, x, y)
    ensures forall stop :: Agrees(task, m.AfterReportError(p, pre, stop), saved, sent, x, y)
  {
    EnterAgrees(task, m, saved, sent, x, y, true);
    hide DiskAgrees, Machine.EnterReboot;
  }

  /** How `Agrees` goes on after the mark `mark`. */
  predicate AgreesAfter(
    task: Task, n: Machine, saved: Option<PatchStep>, sent: set<Progress>, x: nat, y: nat, mark: Mark)
  {
    Agrees(task, n, SavedAfter(saved, mark), SentAfter(sent, mark),
           x + (if mark == Made(SaveCount(true), Ok) then 1 else 0),
           y + (if mark == Made(SaveCount(false), Ok) then 1 else 0))
  }

  lemma {:induction false} ReportAgrees(
    task: Task, m: Machine, saved: Option<PatchStep>, sent: set<Progress>, x: nat, y: nat, a: Answer)
    requires (m.pc.Report? || m.pc.SaveReported?) && Agrees(task, m, saved, sent, x, y)
    ensures AgreesAfter(task, m.Move(a), saved, sent, x, y, Made(m.pc, a))
  {
    hide Machine.AfterReport, Machine.AfterReportError;
    ReportedAgrees(task, m, saved, sent, x, y, m.pc.progress, m.pc.pre);
    if m.pc.SaveReported? {
      ReportedAgrees(task, m.Saved(), Some(Patching), sent, x, y, m.pc.progress, m.pc.pre);
    }
  }

  lemma {:induction false} QueryAgrees(
    task: Task, m: Machine, saved: Option<PatchStep>, sent: set<Progress>, x: nat, y: nat, a: Answer)
    requires (m.pc.QueryReboot? || m.pc.RunUpdates?) && Agrees(task, m, saved, sent, x, y)
    ensures AgreesAfter(task, m.Move(a), saved, sent, x, y, Made(m.pc, a))
  {
    hide Machine.EnterReboot, Machine.Decide, Machine.NoReboot, DiskAgrees;
    var pre := m.pc.QueryReboot? && m.pc.pre;
    EnterAgrees(task, m, saved, sent, x, y, pre);
    NoRebootAgrees(task, m, saved, sent, x, y, pre);
  }

  lemma {:induction false} SaveAgrees(
    task: Task, m: Machine, saved: Option<PatchStep>, sent: set<Progress>, x: nat, y: nat, a: Answer)
    requires (m.pc.SaveFirst? || m.pc.SavePostPatch?) && Agrees(task, m, saved, sent, x, y)
    ensures AgreesAfter(task, m.Move(a), saved, sent, x, y, Made(m.pc, a))
  {
    hide Machine.Top;
    NoRebootAgrees(task, m, saved, sent, x, y, false);
    NoRebootAgrees(task, m.Saved(), Some(m.mem.step), sent, x, y, false);
  }

  lemma {:induction false} CountAgrees(
    task: Task, m: Machine, saved: Option<PatchStep>, sent: set<Progress>, x: nat, y: nat, a: Answer)
    requires (m.pc.SavePatching? || m.pc.SaveCount?) && Agrees(task, m, saved, sent, x, y)
    ensures AgreesAfter(task, m.Move(a), saved, sent, x, y, Made(m.pc, a))
  {
  }

  lemma {:induction false} MoveAgrees(
    task: Task, m: Machine, saved: Option<PatchStep>, sent: set<Progress>, x: nat, y: nat, a: Answer)
    requires m.Running() && Agrees(task, m, saved, sent, x, y)
    ensures AgreesAfter(task, m.Move(a), saved, sent, x, y, Made(m.pc, a))
  {
    hide Machine.Top, Machine.NoReboot, Machine.Decide, Machine.EnterReboot;
    hide Machine.AfterReport, Machine.AfterReportError;
    match m.pc
    case SaveFirst => SaveAgrees(task, m, saved, sent, x, y, a);
    case SavePostPatch => SaveAgrees(task, m, saved, sent, x, y, a);
    case SavePatching => CountAgrees(task, m, saved, sent, x, y, a);
    case SaveCount(_) => CountAgrees(task, m, saved, sent, x, y, a);
    case Report(_, _) => ReportAgrees(task, m, saved, sent, x, y, a);
    case SaveReported(_, _) => ReportAgrees(task, m, saved, sent, x, y, a);
    case QueryReboot(_) => QueryAgrees(task, m, saved, sent, x, y, a);
    case RunUpdates => QueryAgrees(task, m, saved, sent, x, y, a);
    case _ =>
  }

  lemma {:induction false} NextPush(task: Task, log: seq<Mark>, mark: Mark)
    ensures Next(task, log + [mark]) == AfterMark(task, log, mark)
  {
    hide AfterMark;
    assert (log + [mark])[..|log|] == log;
  }

  lemma {:induction false} StepFollows(task: Task, m: Machine, log: seq<Mark>, a: Answer)
    requires log != [] && Follows(task, m, log)
    ensures Follows(task, m.Step(a), log + Marks(m, Answered(a)))
  {
    hide Machine.Move, Machine.Emits, Saved, Sent, Counted, SavedAfter, SentAfter, Next, After, MemAgrees, DiskAgrees;
    if m.Running() {
      var mark := Made(m.pc, a);
      ReadPush(log, mark);
      NextPush(task, log, mark);
      MoveFollows(task, m, Saved(log), Sent(log), Counted(log, true), Counted(log, false), a);
      MoveAgrees(task, m, Saved(log), Sent(log), Counted(log, true), Counted(log, false), a);
    } else {
      assert log + [] == log;
      EndedMoves(m, a);
    }
  }

  lemma {:induction false} EndedMoves(m: Machine, a: Answer)
    requires !m.Running()
    ensures m.Move(a) == m
  {
  }

  lemma {:induction false} EndFollows(task: Task, m: Machine, log: seq<Mark>)
    requires log != [] && Follows(task, m, log)
    ensures Follows(task, m.End(), log + Marks(m, EndProcess))
  {
    hide Saved, Sent, Counted, Next, DiskAgrees;
    ReadPush(log, Died);
    NextPush(task, log, Died);
    assert log + [] == log;
  }

  lemma {:induction false} ResumeFollows(task: Task, m: Machine, log: seq<Mark>)
    requires log != [] && Follows(task, m, log)
    ensures Follows(task, m.Resume(), log + Marks(m, ResumeTask))
  {
    hide Saved, Sent, Counted, Next, AgreesAfter;
    ReadPush(log, Began);
    NextPush(task, log, Began);
    assert log + [] == log;
    if (m.pc.Down? || m.pc.Finished?) && m.disk.Some? {
      NoRebootAgrees(task, m.Reloaded(), Saved(log), {}, Counted(log, true), Counted(log, false), false);
    }
  }

  /** Every call of every life is the one that the log so far calls for, and the log tells what is on disk. */
  lemma {:induction false} LifeFollows(task: Task, acts: seq<Action>)
    ensures Log(task, acts) != [] && Follows(task, Life(task, acts), Log(task, acts))
  {
    hide Follows, Do;
    if acts == [] {
      AcceptedFollows(task);
    } else {
      var front, act := acts[..|acts| - 1], acts[|acts| - 1];
      LifeFollows(task, front);
      DoFollows(task, Life(task, front), Log(task, front), act);
    }
  }

  lemma {:induction false} DoFollows(task: Task, m: Machine, log: seq<Mark>, act: Action)
    requires log != [] && Follows(task, m, log)
    ensures Follows(task, Do(m, act), log + Marks(m, act))
  {
    hide Follows, Marks, Machine.Step, Machine.End, Machine.Resume;
    match act
    case Answered(a) => StepFollows(task, m, log, a);
    case EndProcess => EndFollows(task, m, log);
    case ResumeTask => ResumeFollows(task, m, log);
  }

  lemma {:induction false} AcceptedFollows(task: Task)
    ensures Follows(task, Accept(task), [Began])
  {
    assert [Began][..0] == [];
  }

  // ---------------------------------------------------------------- what the events are

  predicate IsReboot(mark: Mark) { mark.Made? && mark.call.CallReboot? && mark.answer == Ok }

  function Tells(before: seq<Mark>, mark: Mark): seq<Event> {
    match mark
    case Began => [RunStarted]
    case Died => [if before != [] && IsReboot(before[|before| - 1]) then RebootedAway else RunKilled]
    case Made(Report(p, _), a) => if a == Recent && p in Sent(before) then [] else [ProgressSent(p)]
    case Made(CallReboot(pre), _) => [RebootCalled(pre)]
    case Made(RunUpdates, Ok) => [Updated]
    case Made(SavePostPatch, _) => [PostCheckPassed]
    case Made(ReportFinal(s), _) => [Completed(s)]
    case Made(ReportPanic, _) => [Completed(Failed), RunReturned]
    case Made(SaveEmpty, _) => [RunReturned]
    case _ => []
  }

  function Told(log: seq<Mark>): seq<Event> {
    if log == [] then [] else Told(log[..|log| - 1]) + Tells(log[..|log| - 1], log[|log| - 1])
  }

  lemma {:induction false} ToldPush(log: seq<Mark>, mark: Mark)
    ensures Told(log + [mark]) == Told(log) + Tells(log, mark)
  {
    assert (log + [mark])[..|log|] == log;
  }

  lemma {:induction false} DoTells(task: Task, m: Machine, log: seq<Mark>, act: Action)
    requires log != [] && Follows(task, m, log)
    requires m.history == Told(log)
    ensures Do(m, act).history == Told(log + Marks(m, act))
  {
    hide Machine.Move, Machine.Top, Told;
    assert log + [] == log && Told(log) + [] == Told(log);
    match act
    case Answered(a) =>
      ToldPush(log, Made(m.pc, a));
      hide After, Saved, Sent, Counted;
    case EndProcess =>
      AwaitIs(task, log);
      ToldPush(log, Died);
      hide After, Saved, Sent, Counted, Next;
    case ResumeTask =>
      ToldPush(log, Began);
      if m.disk.Some? {
        TopIsQuiet(m.Reloaded());
      }
      hide After, Saved, Sent, Counted;
  }

  lemma {:induction false} TopIsQuiet(m: Machine)
    ensures m.Top().history == m.history
  {
  }

  lemma {:induction false} AwaitIs(task: Task, log: seq<Mark>)
    requires log != []
    ensures Next(task, log).AwaitReboot? <==> IsReboot(log[|log| - 1])
  {
    hide Saved, Sent, Counted;
  }

  /** The history of a life is what its calls and answers tell an observer, no more and no less. */
  lemma {:induction false} HistoryIsTold(task: Task, acts: seq<Action>)
    ensures Life(task, acts).history == Told(Log(task, acts))
  {
    hide Follows, Do;
    if acts == [] {
      ToldPush([], Began);
      assert [] + [Began] == [Began] && [] + [RunStarted] == [RunStarted];
    } else {
      var front, act := acts[..|acts| - 1], acts[|acts| - 1];
      LifeFollows(task, front);
      HistoryIsTold(task, front);
      DoTells(task, Life(task, front), Log(task, front), act);
    }
  }
}
