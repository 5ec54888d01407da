/** What a patch task reports over its life: honest success, one completion report a run, and few runs. */
module PatchReports {
  import opened PatchMachine
  import opened PatchSafety

  // ---------------------------------------------------------------- honest success

  /** Updates went through and the check right after them let the task go on. */
  predicate Patched(h: seq<Event>) {
    exists i :: 0 <= i < |h| - 1 && h[i] == Updated && h[i + 1] == PostCheckPassed
  }

  predicate IsSuccess(s: FinalState) { s.Succeeded? || s.SucceededRebootRequired? }

  predicate JustUpdated(h: seq<Event>) { h != [] && h[|h| - 1] == Updated }

  /** `ok`: the history is patched; `recent`: its last event is a successful update. */
  predicate EarnedAt(m: Machine, ok: bool, recent: bool) {
    && (m.disk.Some? && m.disk.value.step.PostPatch? ==> ok)
    && (m.pc.QueryFinal? ==> ok)
    && (m.pc.ReportFinal? && IsSuccess(m.pc.state) ==> ok)
    && (m.pc == QueryReboot(false) || m.pc.SavePostPatch? ==> recent)
    && (m.Running() && m.mem.step.PostPatch? ==> ok || m.pc.SavePostPatch?)
  }

  predicate EarnedInv(m: Machine) {
    && EarnedAt(m, Patched(m.history), JustUpdated(m.history))
    && forall i :: 0 <= i < |m.history| && m.history[i].Completed? && IsSuccess(m.history[i].state) ==>
                     Patched(m.history[..i])
  }

  lemma {:induction false} MoveEarned(m: Machine, ok: bool, recent: bool, a: Answer)
    requires EarnedAt(m, ok, recent)
    ensures EarnedAt(m.Move(a), ok || m.pc.SavePostPatch?,
                     (recent && m.pc.QueryReboot?) || (m.pc.RunUpdates? && a == Ok))
  {
  }

  lemma {:induction false} PatchedGrows(h: seq<Event>, es: seq<Event>)
    requires Patched(h)
    ensures Patched(h + es)
  {
    var i :| 0 <= i < |h| - 1 && h[i] == Updated && h[i + 1] == PostCheckPassed;
    assert (h + es)[i] == Updated && (h + es)[i + 1] == PostCheckPassed;
  }

  /** Every event added keeps earlier successes earned; a new one must be earned now. */
  lemma {:induction false} SuccessesStay(h: seq<Event>, e: Event)
    requires forall i :: 0 <= i < |h| && h[i].Completed? && IsSuccess(h[i].state) ==> Patched(h[..i])
    requires e.Completed? && IsSuccess(e.state) ==> Patched(h)
    ensures var g := h + [e]; forall i :: 0 <= i < |g| && g[i].Completed? && IsSuccess(g[i].state) ==> Patched(g[..i])
  {
    var g := h + [e];
    forall i | 0 <= i < |g| && g[i].Completed? && IsSuccess(g[i].state)
      ensures Patched(g[..i])
    {
      assert g[..i] == h[..i];
      assert h[..|h|] == h;
    }
  }

  lemma {:induction false} EmitsEarned(m: Machine, a: Answer)
    requires EarnedInv(m)
    ensures var g := m.history + m.Emits(a);
            forall i :: 0 <= i < |g| && g[i].Completed? && IsSuccess(g[i].state) ==> Patched(g[..i])
  {
    hide Machine.Move, Patched;
    var es := m.Emits(a);
    if |es| == 1 {
      SuccessesStay(m.history, es[0]);
    } else if |es| == 2 {
      SuccessesStay(m.history, es[0]);
      SuccessesStay(m.history + [es[0]], es[1]);
      assert m.history + es == m.history + [es[0]] + [es[1]];
    } else {
      assert m.history + es == m.history;
    }
  }

  lemma {:induction false} StepEarned(m: Machine, a: Answer)
    requires EarnedInv(m)
    ensures EarnedInv(m.Step(a))
  {
    MoveEarned(m, Patched(m.history), JustUpdated(m.history), a);
    EmitsEarned(m, a);
    hide Machine.Move, Machine.AfterReport;
    var h := m.history + m.Emits(a);
    if Patched(m.history) {
      PatchedGrows(m.history, m.Emits(a));
    } else if m.pc.SavePostPatch? {
      assert h[|h| - 2] == Updated && h[|h| - 2 + 1] == PostCheckPassed;
    }
  }

  lemma {:induction false} QuietPush(m: Machine, e: Event)
    requires EarnedInv(m) && !e.Completed?
    ensures Patched(m.history) ==> Patched(m.history + [e])
    ensures var g := m.history + [e];
            forall i :: 0 <= i < |g| && g[i].Completed? && IsSuccess(g[i].state) ==> Patched(g[..i])
  {
    SuccessesStay(m.history, e);
    if Patched(m.history) {
      PatchedGrows(m.history, [e]);
    }
  }

  lemma {:induction false} DoEarned(m: Machine, act: Action)
    requires EarnedInv(m)
    ensures EarnedInv(Do(m, act))
  {
    match act
    case Answered(a) =>
      hide Machine.Step;
      StepEarned(m, a);
    case EndProcess =>
      QuietPush(m, RebootedAway);
      QuietPush(m, RunKilled);
      hide Patched;
    case ResumeTask =>
      QuietPush(m, RunStarted);
      hide Patched;
  }

  /**
   A run may report success only when, somewhere in the life of the task before that
   report, the updates went through and the check that followed did not reboot.
   */
  lemma {:induction false} SuccessIsEarned(task: Task, acts: seq<Action>)
    ensures EarnedInv(Life(task, acts))
    ensures var h := Life(task, acts).history;
            forall i :: 0 <= i < |h| && h[i].Completed? && IsSuccess(h[i].state) ==> Patched(h[..i])
  {
    hide Do, Patched;
    if acts != [] {
      SuccessIsEarned(task, acts[..|acts| - 1]);
      DoEarned(Life(task, acts[..|acts| - 1]), acts[|acts| - 1]);
    }
  }

  // ---------------------------------------------------------------- one completion report a run

  /** `f` may come right after `e`. */
  predicate Follows(e: Event, f: Event) {
    && (e.Completed? ==> f.RunReturned? || f.RunKilled?)
    && (f.RunReturned? ==> e.Completed?)
    && (IsEnd(e) <==> f.RunStarted?)
  }

  predicate Orderly(h: seq<Event>) {
    && h != [] && h[0].RunStarted?
    && forall i :: 0 <= i < |h| - 1 ==> Follows(h[i], h[i + 1])
  }

  predicate OrderInv(m: Machine) {
    && Orderly(m.history)
    && var last := m.history[|m.history| - 1];
       && (last.Completed? <==> m.pc.SaveEmpty?)
       && (IsEnd(last) <==> m.pc.Finished? || m.pc.Down?)
  }

  lemma {:induction false} StepOrderly(m: Machine, a: Answer)
    requires OrderInv(m)
    ensures OrderInv(m.Step(a))
  {
    MovePc(m, a);
    hide Machine.Move;
  }

  /** Where one answer can lead, as far as the order of reports is concerned. */
  lemma {:induction false} MovePc(m: Machine, a: Answer)
    ensures m.Move(a).pc.SaveEmpty? <==> m.pc.ReportFinal?
    ensures m.Move(a).pc.Finished? <==> m.pc.SaveEmpty? || m.pc.ReportPanic? || m.pc.Finished?
    ensures m.Move(a).pc.Down? <==> m.pc.Down?
    ensures m.Move(a).pc.AwaitReboot? <==> (m.pc.CallReboot? && a == Ok) || m.pc.AwaitReboot?
  {
  }

  lemma {:induction false} LifeOrderly(task: Task, acts: seq<Action>)
    ensures OrderInv(Life(task, acts))
  {
    hide Machine.Step;
    if acts != [] {
      LifeOrderly(task, acts[..|acts| - 1]);
      match acts[|acts| - 1]
      case Answered(a) => StepOrderly(Life(task, acts[..|acts| - 1]), a);
      case _ =>
    }
  }

  /**
   A run that returns makes exactly one completion report, as its very last act, so no
   progress report comes after it.
   */
  lemma {:induction false} OneReportPerRun(task: Task, acts: seq<Action>, s: nat, e: nat)
    requires var h := Life(task, acts).history;
             s < e < |h| && h[s].RunStarted? && h[e].RunReturned?
             && forall k :: s < k < e ==> !h[k].RunStarted?
    ensures var h := Life(task, acts).history;
            && s < e - 1
            && forall k :: s < k < e ==> (h[k].Completed? <==> k == e - 1)
  {
    hide Life;
    LifeOrderly(task, acts);
    var h := Life(task, acts).history;
    assert Follows(h[e - 1], h[e]);
    forall k | s < k < e - 1
      ensures !h[k].Completed?
    {
      assert Follows(h[k], h[k + 1]) && Follows(h[k + 1], h[k + 2]);
    }
  }

  // ---------------------------------------------------------------- few runs, each of few calls

  predicate RunsInv(m: Machine) {
    var h := m.history;
    && Starts(h) == Returns(h) + Kills(h) + Aways(h) + (if m.pc.Finished? || m.pc.Down? then 0 else 1)
    && Aways(h) + (if m.pc.AwaitReboot? then 1 else 0) <= Reboots(h)
  }

  /** How one event changes the counts that `RunsInv` relates. */
  lemma {:induction false} TallyPush(h: seq<Event>, e: Event)
    ensures Starts(h + [e]) == Starts(h) + if IsStart(e) then 1 else 0
    ensures Returns(h + [e]) + Kills(h + [e]) + Aways(h + [e]) ==
            Returns(h) + Kills(h) + Aways(h) + if IsEnd(e) then 1 else 0
    ensures Aways(h + [e]) == Aways(h) + if IsAway(e) then 1 else 0
    ensures Reboots(h + [e]) == Reboots(h) + if e.RebootCalled? then 1 else 0
  {
    CountPush(h, e, IsStart);
    CountPush(h, e, IsReturn);
    CountPush(h, e, IsKill);
    CountPush(h, e, IsAway);
    CallsPush(h, e);
  }

  lemma {:induction false} StepRuns(m: Machine, a: Answer)
    requires RunsInv(m)
    ensures RunsInv(m.Step(a))
  {
    MovePc(m, a);
    hide Machine.Move, Starts, Returns, Kills, Aways, Reboots;
    var es := m.Emits(a);
    if |es| == 1 {
      TallyPush(m.history, es[0]);
    } else if |es| == 2 {
      TallyPush(m.history, es[0]);
      TallyPush(m.history + [es[0]], es[1]);
      assert m.history + es == m.history + [es[0]] + [es[1]];
    } else {
      assert m.history + es == m.history;
    }
  }

  lemma {:induction false} DoRuns(m: Machine, act: Action)
    requires RunsInv(m)
    ensures RunsInv(Do(m, act))
  {
    hide Machine.Step, Starts, Returns, Kills, Aways, Reboots;
    match act
    case Answered(a) => StepRuns(m, a);
    case EndProcess =>
      TallyPush(m.history, RebootedAway);
      TallyPush(m.history, RunKilled);
    case ResumeTask =>
      TallyPush(m.history, RunStarted);
  }

  lemma {:induction false} LifeRuns(task: Task, acts: seq<Action>)
    ensures RunsInv(Life(task, acts))
  {
    hide Do;
    if acts == [] {
      TallyPush([], RunStarted);
      assert [] + [RunStarted] == [RunStarted];
    } else {
      LifeRuns(task, acts[..|acts| - 1]);
      DoRuns(Life(task, acts[..|acts| - 1]), acts[|acts| - 1]);
    }
  }

  /**
   Only returns and kills account for runs, save for five that rebooted away and one under
   way; so a task that is never killed has returned by the end of its sixth run.
   */
  lemma {:induction false} RunsAreFew(task: Task, acts: seq<Action>)
    ensures var m := Life(task, acts);
            && Starts(m.history) <= Returns(m.history) + Kills(m.history) + TOTAL_REBOOT_COUNT_LIMIT
                                    + (if m.pc.Finished? || m.pc.Down? then 0 else 1)
            && (Kills(m.history) == 0 && Returns(m.history) == 0 ==> Starts(m.history) <= TOTAL_REBOOT_COUNT_LIMIT + 1)
  {
    hide Life, Starts, Returns, Kills, Aways, Reboots;
    LifeRuns(task, acts);
    RebootsBounded(task, acts);
  }

  /** An upper bound on the calls a running process can still make. */
  function CallsLeft(pc: Pc): (n: nat)
    ensures n <= 20
    ensures n == 0 <==> pc.AwaitReboot? || pc.Finished? || pc.Down?
  {
    match pc
    case SaveFirst => 20
    case SavePatching => 19
    case Report(p, pre) => CallsFromReport(p, pre)
    case SaveReported(p, pre) => CallsFromReport(p, pre) - 1
    case QueryReboot(pre) => if pre then 16 else 8
    case SaveCount(pre) => if pre then 15 else 7
    case CallReboot(pre) => if pre then 12 else 4
    case RunUpdates => 9
    case SavePostPatch => 4
    case QueryFinal => 3
    case ReportFinal(_) => 2
    case ReportPanic => 2
    case SaveEmpty => 1
    case AwaitReboot => 0
    case Finished => 0
    case Down => 0
  }

  function CallsFromReport(p: Progress, pre: bool): (n: nat)
    ensures 6 <= n <= 18
  {
    match p
    case Started => 18
    case Rebooting => if pre then 14 else 6
    case ApplyingPatches => 11
  }

  lemma {:induction false} CallsAfterDecide(m: Machine, pre: bool)
    requires m.mem.step.Patching?
    ensures CallsLeft(m.NoReboot(pre).pc) <= if pre then 11 else 4
    ensures CallsLeft(m.Decide(pre).pc) <= if pre then 15 else 7
    ensures CallsLeft(m.EnterReboot(pre).pc) <= if pre then 16 else 8
  {
  }

  lemma {:induction false} CallsAfterReport(m: Machine, p: Progress, pre: bool, stop: bool)
    requires m.mem.step.Patching?
    ensures CallsLeft(m.AfterReport(p, pre).pc) < CallsFromReport(p, pre) - 1
    ensures CallsLeft(m.AfterReportError(p, pre, stop).pc) < CallsFromReport(p, pre) - 1
  {
    CallsAfterDecide(m, true);
    hide Machine.EnterReboot;
  }

  lemma {:induction false} CallsRunOut(m: Machine, a: Answer)
    requires RebootInv(m) && m.Running()
    ensures CallsLeft(m.Move(a).pc) < CallsLeft(m.pc)
  {
    hide DiskOk, MemOk, Machine.AfterReport, Machine.AfterReportError;
    hide Machine.EnterReboot, Machine.Decide, Machine.NoReboot;
    match m.pc
    case Report(p, pre) => CallsAfterReport(m, p, pre, a == Stop);
    case SaveReported(p, pre) =>
      CallsAfterReport(m, p, pre, false);
      CallsAfterReport(m.Saved(), p, pre, false);
    case QueryReboot(pre) => CallsAfterDecide(m, pre);
    case RunUpdates => CallsAfterDecide(m, false);
    case _ =>
  }

  /** Whatever it is answered, a process that is not killed ends its run within twenty calls. */
  lemma {:induction false} EveryRunEnds(m: Machine, answers: seq<Answer>)
    requires RebootInv(m) && |answers| >= 20
    ensures !Steps(m, answers).Running()
  {
    CallsDwindle(m, answers);
  }

  lemma {:induction false} CallsDwindle(m: Machine, answers: seq<Answer>)
    requires RebootInv(m)
    ensures RebootInv(Steps(m, answers))
    ensures Steps(m, answers).Running() ==> CallsLeft(Steps(m, answers).pc) + |answers| <= CallsLeft(m.pc)
  {
    hide Machine.Move, Machine.Emits, RebootInv, CallsLeft;
    if answers != [] {
      var front, a := answers[..|answers| - 1], answers[|answers| - 1];
      CallsDwindle(m, front);
      var n := Steps(m, front);
      StepKeeps(n, a);
      if n.Running() {
        CallsRunOut(n, a);
      } else {
        MovePc(n, a);
        EndedStays(n, a);
      }
    }
  }

  lemma {:induction false} EndedStays(m: Machine, a: Answer)
    requires !m.Running()
    ensures m.Step(a) == m
  {
  }
}
