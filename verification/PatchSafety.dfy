/** What every life of a patch task keeps: the reboot bound. */
module PatchSafety {
  import opened Wrappers
  import opened PatchMachine

  // ---------------------------------------------------------------- the reboot bound

  predicate Bounded(r: Record) {
    r.pre <= 1 && r.Total() <= TOTAL_REBOOT_COUNT_LIMIT && (r.step.PrePatch? ==> r.Unused())
  }

  /** Every reboot call made has been counted in `r`. */
  predicate Covers(r: Record, x: nat, y: nat) { x <= r.pre && y <= r.post }

  /** `r` has counted one reboot that has not been called yet. */
  predicate Owes(r: Record, x: nat, y: nat, pre: bool) { if pre then x < r.pre else y < r.post }

  predicate RebootForbidden(t: Task) { t.rebootConfig.Never? || t.dryRun }

  predicate TowardsReboot(pc: Pc) {
    match pc
    case SaveCount(_) => true
    case CallReboot(_) => true
    case AwaitReboot => true
    case Report(p, _) => p == Rebooting
    case SaveReported(p, _) => p == Rebooting
    case _ => false
  }

  /** What holds of memory and disk when the process is about to make the call `m.pc`. */
  predicate AtCall(m: Machine, x: nat, y: nat) {
    match m.pc
    case SaveFirst => m.mem.step.PrePatch? && m.mem.Unused()
    case SavePatching => m.mem.step.Patching? && m.mem.Unused()
    case Report(p, pre) => AtReport(m, x, y, p, pre)
    case SaveReported(p, pre) => AtReport(m, x, y, p, pre)
    case QueryReboot(pre) => m.mem.step.Patching? && (pre ==> m.mem.Unused())
    case SaveCount(pre) => m.mem.step.Patching? && Owes(m.mem, x, y, pre)
    case CallReboot(pre) => m.disk == Some(m.mem) && Owes(m.mem, x, y, pre)
    case RunUpdates => m.mem.step.Patching?
    case SavePostPatch => m.mem.step.PostPatch?
    case _ => true
  }

  predicate AtReport(m: Machine, x: nat, y: nat, p: Progress, pre: bool) {
    && m.mem.step.Patching?
    && (p.Started? ==> m.mem.Unused())
    && (p.Rebooting? ==> m.disk == Some(m.mem) && Owes(m.mem, x, y, pre))
  }

  /** Memory is within bounds and accounts for every reboot call. */
  predicate MemOk(m: Machine, x: nat, y: nat) { Bounded(m.mem) && Covers(m.mem, x, y) }

  /** Disk and history are within bounds. */
  predicate DiskOk(m: Machine, x: nat, y: nat) {
    && x <= 1
    && x + y <= TOTAL_REBOOT_COUNT_LIMIT
    && (m.disk.Some? ==> m.disk.value.task == m.mem.task && Bounded(m.disk.value) && Covers(m.disk.value, x, y))
    && (RebootForbidden(m.mem.task) ==> x + y == 0)
  }

  predicate InvAt(m: Machine, x: nat, y: nat) {
    && DiskOk(m, x, y)
    && (m.Running() ==> MemOk(m, x, y) && AtCall(m, x, y))
    && (RebootForbidden(m.mem.task) ==> !TowardsReboot(m.pc))
  }

  predicate RebootInv(m: Machine) { InvAt(m, PreReboots(m.history), PostReboots(m.history)) }

  lemma {:induction false} TopKeeps(m: Machine, x: nat, y: nat)
    requires DiskOk(m, x, y) && MemOk(m, x, y)
    ensures InvAt(m.Top(), x, y) && m.Top().history == m.history
  {
  }

  lemma {:induction false} NoRebootKeeps(m: Machine, x: nat, y: nat, pre: bool)
    requires DiskOk(m, x, y) && MemOk(m, x, y) && m.mem.step.Patching?
    ensures InvAt(m.NoReboot(pre), x, y)
  {
  }

  lemma {:induction false} DecideKeeps(m: Machine, x: nat, y: nat, pre: bool)
    requires DiskOk(m, x, y) && MemOk(m, x, y) && m.mem.step.Patching?
    requires m.mem.Total() < TOTAL_REBOOT_COUNT_LIMIT && (pre ==> m.mem.Unused())
    ensures InvAt(m.Decide(pre), x, y)
  {
    NoRebootKeeps(m, x, y, pre);
  }

  lemma {:induction false} EnterRebootKeeps(m: Machine, x: nat, y: nat, pre: bool)
    requires DiskOk(m, x, y) && MemOk(m, x, y) && m.mem.step.Patching?
    requires pre ==> m.mem.Unused()
    ensures InvAt(m.EnterReboot(pre), x, y)
  {
    if m.mem.task.rebootConfig == Always && !pre && m.mem.post == 0 {
      DecideKeeps(m, x, y, pre);
    }
  }

  lemma {:induction false} AfterReportKeeps(m: Machine, x: nat, y: nat, p: Progress, pre: bool)
    requires DiskOk(m, x, y) && MemOk(m, x, y) && AtReport(m, x, y, p, pre)
    requires RebootForbidden(m.mem.task) ==> !p.Rebooting?
    ensures InvAt(m.AfterReport(p, pre), x, y)
    ensures forall stop :: InvAt(m.AfterReportError(p, pre, stop), x, y)
  {
    if p.Started? {
      EnterRebootKeeps(m, x, y, true);
    }
  }

  lemma {:induction false} RebootCallKeeps(m: Machine, x: nat, y: nat, a: Answer)
    requires InvAt(m, x, y) && m.pc.CallReboot?
    ensures InvAt(m.Move(a), x + if m.pc.pre then 1 else 0, y + if m.pc.pre then 0 else 1)
  {
  }

  lemma {:induction false} ReportKeeps(m: Machine, x: nat, y: nat, a: Answer)
    requires InvAt(m, x, y) && (m.pc.Report? || m.pc.SaveReported?)
    ensures InvAt(m.Move(a), x, y)
  {
    hide Machine.AfterReport, Machine.AfterReportError, Record.Unused, Bounded, Covers, Owes;
    AfterReportKeeps(m, x, y, m.pc.progress, m.pc.pre);
    AfterReportKeeps(m.Saved(), x, y, m.pc.progress, m.pc.pre);
  }

  lemma {:induction false} QueryKeeps(m: Machine, x: nat, y: nat, a: Answer)
    requires InvAt(m, x, y) && (m.pc.QueryReboot? || m.pc.RunUpdates?)
    ensures InvAt(m.Move(a), x, y)
  {
    hide Machine.NoReboot, Machine.Decide, Machine.EnterReboot, Record.Unused, Bounded, Covers, Owes;
    if m.pc.RunUpdates? {
      EnterRebootKeeps(m, x, y, false);
    } else {
      NoRebootKeeps(m, x, y, m.pc.pre);
      if m.mem.Total() < TOTAL_REBOOT_COUNT_LIMIT {
        DecideKeeps(m, x, y, m.pc.pre);
      }
    }
  }

  lemma {:induction false} MoveKeeps(m: Machine, x: nat, y: nat, a: Answer)
    requires InvAt(m, x, y) && !m.pc.CallReboot?
    ensures InvAt(m.Move(a), x, y)
  {
    hide Machine.Top, Record.Unused, Bounded, Covers, Owes;
    match m.pc
    case SaveFirst => TopKeeps(if a == Ok then m.Saved() else m, x, y);
    case SavePostPatch => TopKeeps(m.Saved(), x, y);
    case Report(_, _) => ReportKeeps(m, x, y, a);
    case SaveReported(_, _) => ReportKeeps(m, x, y, a);
    case QueryReboot(_) => QueryKeeps(m, x, y, a);
    case RunUpdates => QueryKeeps(m, x, y, a);
    case _ =>
  }

  lemma {:induction false} EmitsCalls(m: Machine, a: Answer)
    ensures PreReboots(m.history + m.Emits(a)) == PreReboots(m.history) + if m.pc == CallReboot(true) then 1 else 0
    ensures PostReboots(m.history + m.Emits(a)) == PostReboots(m.history) + if m.pc == CallReboot(false) then 1 else 0
  {
    hide Machine.Move;
    var es := m.Emits(a);
    if |es| == 1 {
      CallsPush(m.history, es[0]);
    } else if |es| == 2 {
      CallsPush(m.history, es[0]);
      CallsPush(m.history + [es[0]], es[1]);
      assert m.history + es == m.history + [es[0]] + [es[1]];
    } else {
      assert m.history + es == m.history;
    }
  }

  lemma {:induction false} CallsPush(h: seq<Event>, e: Event)
    ensures PreReboots(h + [e]) == PreReboots(h) + if e == RebootCalled(true) then 1 else 0
    ensures PostReboots(h + [e]) == PostReboots(h) + if e == RebootCalled(false) then 1 else 0
  {
    CountPush(h, e, IsPreReboot);
    CountPush(h, e, IsPostReboot);
  }

  lemma {:induction false} StepKeeps(m: Machine, a: Answer)
    requires RebootInv(m)
    ensures RebootInv(m.Step(a))
  {
    hide Machine.Move, Machine.Emits, Record.Unused, Bounded, Covers, Owes;
    var x, y := PreReboots(m.history), PostReboots(m.history);
    EmitsCalls(m, a);
    if m.pc.CallReboot? {
      RebootCallKeeps(m, x, y, a);
    } else {
      MoveKeeps(m, x, y, a);
    }
  }

  lemma {:induction false} EndKeeps(m: Machine)
    requires RebootInv(m)
    ensures RebootInv(m.End())
  {
    hide Record.Unused, Bounded, Covers, Owes;
    CallsPush(m.history, RebootedAway);
    CallsPush(m.history, RunKilled);
  }

  lemma {:induction false} ResumeKeeps(m: Machine)
    requires RebootInv(m)
    ensures RebootInv(m.Resume())
  {
    hide Machine.Top, Record.Unused, Bounded, Covers, Owes, AtCall;
    CallsPush(m.history, RunStarted);
    if m.disk.Some? {
      TopKeeps(m.Reloaded(), PreReboots(m.history), PostReboots(m.history));
    }
  }

  lemma {:induction false} DoKeeps(m: Machine, act: Action)
    requires RebootInv(m)
    ensures RebootInv(Do(m, act))
  {
    hide Machine.Step, Machine.End, Machine.Resume, RebootInv;
    match act
    case Answered(a) => StepKeeps(m, a);
    case EndProcess => EndKeeps(m);
    case ResumeTask => ResumeKeeps(m);
  }

  lemma {:induction false} LifeKeeps(task: Task, acts: seq<Action>)
    ensures RebootInv(Life(task, acts))
  {
    hide Do;
    if acts == [] {
      assert Count([RunStarted], IsPreReboot) == 0 && Count([RunStarted], IsPostReboot) == 0;
    } else {
      LifeKeeps(task, acts[..|acts| - 1]);
      DoKeeps(Life(task, acts[..|acts| - 1]), acts[|acts| - 1]);
    }
  }

  // ---------------------------------------------------------------- what a reader may rely on

  /**
   However often the task is killed, resumed or denied a save, rebootSystem is called at
   most five times, at most once before patching, and never when reboots are forbidden.
   */
  lemma {:induction false} RebootsBounded(task: Task, acts: seq<Action>)
    ensures var h := Life(task, acts).history;
            && Reboots(h) <= TOTAL_REBOOT_COUNT_LIMIT
            && PreReboots(h) <= 1
            && (task.rebootConfig.Never? || task.dryRun ==> Reboots(h) == 0)
  {
    LifeKeeps(task, acts);
    TaskIsKept(task, acts);
  }

  /** A process that is about to reboot the machine has already counted that reboot on disk. */
  lemma {:induction false} RebootIsCountedFirst(task: Task, acts: seq<Action>)
    requires Life(task, acts).pc.CallReboot?
    ensures var m := Life(task, acts);
            && m.disk == Some(m.mem)
            && (if m.pc.pre then PreReboots(m.history) < m.disk.value.pre
                else PostReboots(m.history) < m.disk.value.post)
            && Reboots(m.history) < m.disk.value.Total() <= TOTAL_REBOOT_COUNT_LIMIT
  {
    hide Life, PreReboots, PostReboots;
    LifeKeeps(task, acts);
  }

  lemma {:induction false} StepKeepsTask(m: Machine, a: Answer)
    ensures m.Step(a).mem.task == m.mem.task
  {
    hide Machine.Emits;
  }

  lemma {:induction false} TaskIsKept(task: Task, acts: seq<Action>)
    ensures Life(task, acts).mem.task == task
  {
    hide Machine.Step, RebootInv;
    if acts != [] {
      var before := acts[..|acts| - 1];
      TaskIsKept(task, before);
      LifeKeeps(task, before);
      match acts[|acts| - 1]
      case Answered(a) => StepKeepsTask(Life(task, before), a);
      case EndProcess =>
      case ResumeTask => ResumeKeepsTask(Life(task, before));
    }
  }

  lemma {:induction false} ResumeKeepsTask(m: Machine)
    requires RebootInv(m)
    ensures m.Resume().mem.task == m.mem.task
  {
    hide AtCall, MemOk, Covers;
  }
}
