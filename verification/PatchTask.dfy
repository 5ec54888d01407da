/**
 The patch task as the agent runs it: an object whose fields are updated in place and
 whose methods talk to the outside world.  Every method is tied to `PatchMachine`, so
 what is proved about the machine holds of these methods for every list of answers.
 */
module PatchTaskRun {
  import opened Wrappers
  import opened PatchMachine
  import opened PatchReports
  import opened PatchCalls
  import opened PatchPromises

  datatype Reply = Nil | Error | ServerCancel | Panicked | GoingDown | Killed

  datatype Outcome = Returned | GoneForReboot | ProcessKilled

  class PatchTask {
    const Task: Task
    var PatchStep: PatchStep
    var PrePatchRebootCount: nat
    var PostPatchRebootCount: nat
    var lastProgressState: set<Progress>

    // The outside world: the state file, and the answers this process will get before it dies.
    var stateFile: Option<Record>
    const world: seq<Answer>
    var asked: nat

    // What this process has asked of the outside world, and what it was answered.
    var calls: seq<Mark>

    ghost const first: Machine
    ghost var m: Machine

    ghost predicate Traced()
      reads this
    {
      && asked <= |world| && m == Steps(first, world[..asked])
      && calls == [Began] + Trace(first, world[..asked])
    }

    function Saveable(): Record
      reads this
    {
      Record(Task, PatchStep, PrePatchRebootCount, PostPatchRebootCount)
    }

    /** The machine state that these fields stand for; where the process is in its code is left open. */
    ghost function Now(): Machine
      reads this
    {
      Machine(Down, Saveable(), lastProgressState, stateFile, m.history)
    }

    /** The process is about to make the call `pc`, and machine and fields agree. */
    ghost predicate At(pc: Pc)
      reads this
    {
      Traced() && m == Now().Goto(pc)
    }

    constructor Accepted(task: Task, world: seq<Answer>)
      ensures PatchStep == PrePatch && this.world == world && first == Accept(task) && At(SaveFirst)
    {
      Task, this.world := task, world;
      PatchStep, PrePatchRebootCount, PostPatchRebootCount, lastProgressState := PrePatch, 0, 0, {};
      stateFile, asked, calls := None, 0, [Began];
      first, m := Accept(task), Accept(task);
    }

    constructor Loaded(ghost before: Machine, saved: Record, world: seq<Answer>)
      requires before.pc.Down? || before.pc.Finished?
      requires before.disk == Some(saved)
      ensures this.world == world && first == before.Resume() && Traced() && m == Now().Top()
    {
      Task, this.world := saved.task, world;
      PatchStep, PrePatchRebootCount, PostPatchRebootCount := saved.step, saved.pre, saved.post;
      lastProgressState, stateFile, asked, calls := {}, Some(saved), 0, [Began];
      first, m := before.Resume(), before.Resume();
    }

    /** One call to the outside world; `None` when the process dies instead. */
    method Ask(call: Pc) returns (a: Option<Answer>)
      requires Traced() && m.pc == call && m.Running()
      modifies this`asked, this`calls, this`m
      ensures Traced()
      ensures a.None? ==> asked == |world| && m == old(m) && calls == old(calls)
      ensures a.Some? ==> asked == old(asked) + 1 && m == old(m).Step(a.value)
      ensures a.Some? ==> calls == old(calls) + [Made(call, a.value)]
    {
      hide Machine.Step;
      if asked == |world| {
        return None;
      }
      a := Some(world[asked]);
      TracePush(first, world, asked);
      m := m.Step(a.value);
      calls := calls + [Made(call, a.value)];
      asked := asked + 1;
    }

    /** saveState: on success the file holds the current fields, otherwise it is as before. */
    method SaveState(call: Pc) returns (r: Reply, ghost a: Answer)
      requires At(call) && m.Running()
      modifies this`asked, this`calls, this`m, this`stateFile
      ensures Traced()
      ensures r == Killed ==> At(call) && asked == |world| && stateFile == old(stateFile)
      ensures r != Killed ==>
                && asked == old(asked) + 1 && m == old(m).Step(a)
                && (r == Nil <==> a == Ok) && (r == Error <==> a != Ok)
      ensures stateFile == if r == Nil then Some(Saveable()) else old(stateFile)
    {
      hide Machine.Step;
      var answer := Ask(call);
      match answer
      case None => r := Killed; a := Ok;
      case Some(v) =>
        a := v;
        if v == Ok {
          stateFile := Some(Saveable());
          r := Nil;
        } else {
          r := Error;
        }
    }

    /** setStep. */
    method SetStep(step: PatchStep, call: Pc) returns (r: Reply, ghost a: Answer)
      requires Traced() && m == Now().(mem := Saveable().(step := step)).Goto(call) && m.Running()
      modifies this`asked, this`calls, this`m, this`stateFile, this`PatchStep
      ensures Traced() && PatchStep == step
      ensures r == Killed ==> At(call) && asked == |world| && stateFile == old(stateFile)
      ensures r != Killed ==>
                && asked == old(asked) + 1 && m == old(m).Step(a)
                && (r == Nil <==> a == Ok) && (r == Error <==> a != Ok)
      ensures stateFile == if r == Nil then Some(Saveable()) else old(stateFile)
    {
      PatchStep := step;
      r, a := SaveState(call);
    }

    /** reportContinuingState: reports at most once in a short while, then saves. */
    method ReportContinuingState(progress: Progress, pre: bool) returns (r: Reply)
      requires At(Report(progress, pre))
      modifies this`asked, this`calls, this`m, this`stateFile, this`lastProgressState
      ensures Traced()
      ensures r == Nil || r == Error || r == ServerCancel || r == Killed
      ensures r == Nil ==> m == Now().AfterReport(progress, pre)
      ensures r == Error ==> m == Now().AfterReportError(progress, pre, false)
      ensures r == ServerCancel ==> m == Now().AfterReportError(progress, pre, true)
      ensures r == Killed ==> asked == |world| && m == Now().Goto(m.pc) && m.Running()
      ensures r != Killed ==> asked > old(asked)
    {
      hide Machine.AfterReport, Machine.AfterReportError, Trace, Steps;
      ghost var before := m;
      var answer := Ask(Report(progress, pre));
      if answer.None? {
        return Killed;
      }
      AfterReportIsBlind(before, m.history, progress, pre);
      if progress in lastProgressState && answer.value == Recent {
        // Reported a moment ago: nothing is sent.
        return Nil;
      }
      if answer.value == Stop {
        return ServerCancel;
      }
      if answer.value != Ok {
        return Error;
      }
      lastProgressState := lastProgressState + {progress};
      ghost var a;
      before := m;
      r, a := SaveState(SaveReported(progress, pre));
      AfterReportIsBlind(before.Saved(), m.history, progress, pre);
      AfterReportIsBlind(before, m.history, progress, pre);
    }

    /** rebootIfNeeded: returns `Nil` exactly when the task goes on without a reboot. */
    method RebootIfNeeded(prePatch: bool) returns (r: Reply)
      requires Traced() && m == Now().EnterReboot(prePatch)
      modifies this`asked, this`calls, this`m, this`stateFile, this`lastProgressState
      modifies this`PrePatchRebootCount, this`PostPatchRebootCount
      ensures Traced() && asked >= old(asked) && r != ServerCancel
      ensures r == Nil ==> m == Now().NoReboot(prePatch)
      ensures r == Error ==> m == Now().Goto(ReportFinal(Failed))
      ensures r == Panicked ==> m == Now().Goto(ReportPanic)
      ensures r == GoingDown ==> m == Now().Goto(AwaitReboot)
      ensures r == Killed ==> asked == |world| && m == Now().Goto(m.pc) && m.Running()
    {
      hide Trace, Steps;
      var reboot;
      if Task.rebootConfig == Always && !prePatch && PostPatchRebootCount == 0 {
        reboot := true;
      } else {
        var answer := Ask(QueryReboot(prePatch));
        if answer.None? {
          return Killed;
        }
        if answer.value != Yes && answer.value != No {
          return if answer.value == Panic then Panicked else Error;
        }
        reboot := answer.value == Yes;
        if reboot && PrePatchRebootCount + PostPatchRebootCount >= TOTAL_REBOOT_COUNT_LIMIT {
          // Not rebooting to prevent a possible boot loop.
          return Nil;
        }
      }
      if !reboot || Task.rebootConfig == Never || Task.dryRun {
        return Nil;
      }
      if prePatch {
        PrePatchRebootCount := PrePatchRebootCount + 1;
      } else {
        PostPatchRebootCount := PostPatchRebootCount + 1;
      }
      r := CountedReboot(prePatch);
    }

    /** The rest of rebootIfNeeded, once the reboot has been counted in memory. */
    method CountedReboot(prePatch: bool) returns (r: Reply)
      requires At(SaveCount(prePatch))
      modifies this`asked, this`calls, this`m, this`stateFile, this`lastProgressState
      ensures Traced() && asked >= old(asked)
      ensures r == Error || r == Panicked || r == GoingDown || r == Killed
      ensures r == Error ==> m == Now().Goto(ReportFinal(Failed))
      ensures r == Panicked ==> m == Now().Goto(ReportPanic)
      ensures r == GoingDown ==> m == Now().Goto(AwaitReboot)
      ensures r == Killed ==> asked == |world| && m == Now().Goto(m.pc) && m.Running()
    {
      hide Machine.EnterReboot, Machine.Top, Machine.NoReboot, Trace, Steps;
      ghost var a;
      r, a := SaveState(SaveCount(prePatch));
      if r != Nil {
        return;
      }
      r := ReportContinuingState(Rebooting, prePatch);
      if r == Killed {
        return;
      }
      // A REBOOTING report that failed is only worth a warning.
      r := RebootSystem(prePatch);
    }

    /** rebootSystem, which the process does not survive when it works. */
    method RebootSystem(prePatch: bool) returns (r: Reply)
      requires At(CallReboot(prePatch))
      modifies this`asked, this`calls, this`m
      ensures Traced() && asked >= old(asked)
      ensures r == Error || r == Panicked || r == GoingDown || r == Killed
      ensures r == Error ==> At(ReportFinal(Failed))
      ensures r == Panicked ==> At(ReportPanic)
      ensures r == GoingDown ==> At(AwaitReboot)
      ensures r == Killed ==> asked == |world| && At(CallReboot(prePatch))
    {
      hide Trace, Steps;
      var answer := Ask(CallReboot(prePatch));
      if answer.None? {
        return Killed;
      }
      r := if answer.value == Ok then GoingDown else if answer.value == Panic then Panicked else Error;
    }

    /** How a process is left: the outcome tells where the machine stands. */
    ghost predicate Left(o: Outcome)
      reads this
    {
      && Traced() && stateFile == m.disk
      && match o
         case Returned => m.pc.Finished?
         case GoneForReboot => m.pc.AwaitReboot?
         case ProcessKilled => asked == |world| && m.Running()
    }

    /** reportCompletedState followed by the deferred complete: the state file is emptied. */
    method Complete(state: FinalState) returns (o: Outcome)
      requires At(ReportFinal(state))
      modifies this`asked, this`calls, this`m, this`stateFile
      ensures Left(o) && o != GoneForReboot
    {
      hide Trace, Steps;
      var reported := Ask(ReportFinal(state));
      if reported.None? {
        return ProcessKilled;
      }
      var saved := Ask(SaveEmpty);
      if saved.None? {
        return ProcessKilled;
      }
      if saved.value == Ok {
        stateFile := None;
      }
      o := Returned;
    }

    /** What becomes of a run whose step did not return nil. */
    method Abort(r: Reply) returns (o: Outcome)
      requires Traced() && r != Nil
      requires r == Error ==> At(ReportFinal(Failed))
      requires r == ServerCancel ==> At(ReportFinal(Canceled))
      requires r == Panicked ==> At(ReportPanic)
      requires r == GoingDown ==> At(AwaitReboot)
      requires r == Killed ==> At(m.pc) && asked == |world| && m.Running()
      modifies this`asked, this`calls, this`m, this`stateFile
      ensures Left(o)
    {
      match r
      case Error => o := Complete(Failed);
      case ServerCancel => o := Complete(Canceled);
      case Panicked =>
        // The recovered panic is reported; the state file is left alone.
        var reported := Ask(ReportPanic);
        o := if reported.None? then ProcessKilled else Returned;
      case GoingDown => o := GoneForReboot;
      case Killed => o := ProcessKilled;
    }

    /** One turn of the loop in step PrePatch. */
    method RunPrePatch() returns (r: Reply)
      requires PatchStep == PrePatch && Traced() && m == Now().Top()
      modifies this
      ensures Traced() && asked >= old(asked) && (r != Killed ==> asked > old(asked))
      ensures r == Nil ==> m == Now().Top()
      ensures r == Error ==> At(ReportFinal(Failed))
      ensures r == ServerCancel ==> At(ReportFinal(Canceled))
      ensures r == Panicked ==> At(ReportPanic)
      ensures r == GoingDown ==> At(AwaitReboot)
      ensures r == Killed ==> At(m.pc) && asked == |world| && m.Running()
    {
      ghost var a;
      r, a := SetStep(Patching, SavePatching);
      if r != Nil {
        return;
      }
      r := ReportContinuingState(Started, true);
      if r != Nil {
        return;
      }
      r := RebootIfNeeded(true);
    }

    /** One turn of the loop in step Patching. */
    method RunPatching() returns (r: Reply)
      requires PatchStep == Patching && Traced() && m == Now().Top()
      modifies this
      ensures Traced() && asked >= old(asked) && (r != Killed ==> asked > old(asked))
      ensures r == Nil ==> m == Now().Top()
      ensures r == Error ==> At(ReportFinal(Failed))
      ensures r == ServerCancel ==> At(ReportFinal(Canceled))
      ensures r == Panicked ==> At(ReportPanic)
      ensures r == GoingDown ==> At(AwaitReboot)
      ensures r == Killed ==> At(m.pc) && asked == |world| && m.Running()
    {
      r := ReportContinuingState(ApplyingPatches, false);
      if r != Nil {
        return;
      }
      r := Update();
      if r != Nil {
        return;
      }
      hide Machine.EnterReboot, Machine.NoReboot, Machine.Top;
      r := RebootIfNeeded(false);
      if r != Nil {
        return;
      }
      r := FinishPatching();
    }

    /** What follows updates that did not end in a reboot. */
    method FinishPatching() returns (r: Reply)
      requires Traced() && m == Now().NoReboot(false)
      modifies this`asked, this`calls, this`m, this`stateFile, this`PatchStep
      ensures Traced() && asked >= old(asked)
      ensures r == Nil || r == Error || r == Killed
      ensures r == Nil ==> m == Now().Top()
      ensures r == Error ==> At(ReportFinal(Failed))
      ensures r == Killed ==> At(m.pc) && asked == |world| && m.Running()
    {
      ghost var a;
      r, a := SetStep(PostPatch, SavePostPatch);
    }

    /** runUpdates, whose work is the outside world's. */
    method Update() returns (r: Reply)
      requires At(RunUpdates)
      modifies this`asked, this`calls, this`m
      ensures Traced() && asked >= old(asked)
      ensures r == Nil || r == Error || r == Panicked || r == Killed
      ensures r == Nil ==> m == Now().EnterReboot(false)
      ensures r == Error ==> At(ReportFinal(Failed))
      ensures r == Panicked ==> At(ReportPanic)
      ensures r == Killed ==> At(RunUpdates) && asked == |world|
    {
      var updates := Ask(RunUpdates);
      if updates.None? {
        return Killed;
      }
      r := if updates.value == Ok then Nil else if updates.value == Panic then Panicked else Error;
    }

    /** The last turn of the loop. */
    method RunPostPatch() returns (o: Outcome)
      requires PatchStep == PostPatch && Traced() && m == Now().Top()
      modifies this
      ensures Left(o)
    {
      hide Trace, Steps;
      var required := Ask(QueryFinal);
      if required.None? {
        return ProcessKilled;
      }
      match required.value
      case Yes => o := Complete(SucceededRebootRequired);
      case No => o := Complete(Succeeded);
      case Panic => o := Abort(Panicked);
      case _ => o := Complete(Failed);
    }

    /** run. */
    method Run() returns (o: Outcome)
      requires Traced() && m == Now().Top()
      modifies this
      ensures Left(o)
    {
      hide Machine.Top, Machine.Move, Machine.Emits;
      while true
        invariant Traced() && m == Now().Top()
        decreases |world| - asked
      {
        var r;
        match PatchStep {
          case UnknownStep =>
            UnknownStepFails(Now());
            o := Complete(Failed);
            return;
          case PrePatch =>
            r := RunPrePatch();
          case Patching =>
            r := RunPatching();
          case PostPatch =>
            o := RunPostPatch();
            return;
        }
        if r != Nil {
          o := Abort(r);
          return;
        }
      }
    }
  }

  lemma {:induction false} TracePush(first: Machine, world: seq<Answer>, asked: nat)
    requires asked < |world|
    ensures Steps(first, world[..asked + 1]) == Steps(first, world[..asked]).Step(world[asked])
    ensures Trace(first, world[..asked + 1]) ==
            Trace(first, world[..asked]) + Marks(Steps(first, world[..asked]), Answered(world[asked]))
  {
    hide Machine.Step, Marks;
    assert world[..asked + 1][..asked] == world[..asked];
  }

  /** What follows a report depends neither on the call it came from nor on the history. */
  lemma {:induction false} AfterReportIsBlind(m: Machine, h: seq<Event>, progress: Progress, pre: bool)
    ensures m.(pc := Down, history := h).AfterReport(progress, pre) == m.AfterReport(progress, pre).(history := h)
    ensures forall stop ::
              m.(pc := Down, history := h).AfterReportError(progress, pre, stop)
              == m.AfterReportError(progress, pre, stop).(history := h)
  {
  }

  lemma {:induction false} UnknownStepFails(m: Machine)
    requires m.mem.step.UnknownStep?
    ensures m.Top() == m.Goto(ReportFinal(Failed))
  {
  }

  /**
   A task is accepted and run by one process that gets the answers `world`: what it leaves on
   disk is what the machine says, and its calls keep every promise.
  */
  method RunApplyPatches(task: Task, world: seq<Answer>)
    returns (o: Outcome, stateFile: Option<Record>, calls: seq<Mark>)
    ensures var end := Steps(Accept(task), world);
            && stateFile == end.disk
            && (o == Returned <==> end.pc.Finished?)
            && (o == GoneForReboot <==> end.pc.AwaitReboot?)
    ensures calls == [Began] + Trace(Accept(task), world)
    ensures Kept(task, calls) && Leaves(task, calls, o == Returned, o == GoneForReboot, stateFile)
  {
    hide Kept, Leaves;
    var r := new PatchTask.Accepted(task, world);
    ghost var a;
    var saved;
    saved, a := r.SetStep(PrePatch, SaveFirst);
    if saved == Killed {
      o := ProcessKilled;
    } else {
      // An error of the first save is ignored.
      o := r.Run();
    }
    stateFile, calls := r.stateFile, r.calls;
    LeftForGood(r.first, world, r.asked);
    assert Life(task, []) == r.first && Log(task, []) == [Began];
    ProcessLeaves(task, [], world);
  }

  /** A saved task is loaded and run again by one process that gets the answers `world`. */
  method RunLoadedPatch(ghost before: Machine, saved: Record, world: seq<Answer>)
    returns (o: Outcome, stateFile: Option<Record>, calls: seq<Mark>)
    requires before.pc.Down? || before.pc.Finished?
    requires before.disk == Some(saved)
    ensures var end := Steps(before.Resume(), world);
            && stateFile == end.disk
            && (o == Returned <==> end.pc.Finished?)
            && (o == GoneForReboot <==> end.pc.AwaitReboot?)
    ensures calls == [Began] + Trace(before.Resume(), world)
    ensures forall task, acts :: before == Life(task, acts) ==>
                                   var log := Log(task, acts) + calls;
                                   Kept(task, log)
                                   && Leaves(task, log, o == Returned, o == GoneForReboot, stateFile)
  {
    hide Machine.Resume, Machine.Top, Kept, Leaves;
    var r := new PatchTask.Loaded(before, saved, world);
    o := r.Run();
    stateFile, calls := r.stateFile, r.calls;
    LeftForGood(r.first, world, r.asked);
    forall task, acts | before == Life(task, acts)
      ensures var log := Log(task, acts) + calls;
              Kept(task, log) && Leaves(task, log, o == Returned, o == GoneForReboot, stateFile)
    {
      ResumedLeaves(task, acts, world);
    }
  }

  /** Answers that nobody waits for change nothing. */
  lemma {:induction false} LeftForGood(start: Machine, world: seq<Answer>, asked: nat)
    requires asked <= |world|
    requires asked == |world| || !Steps(start, world[..asked]).Running()
    ensures Steps(start, world) == Steps(start, world[..asked])
    ensures Trace(start, world) == Trace(start, world[..asked])
    decreases |world|
  {
    if asked == |world| {
      assert world[..asked] == world;
    } else {
      var front := world[..|world| - 1];
      assert front[..asked] == world[..asked];
      LeftForGood(start, front, asked);
      EndedStays(Steps(start, front), world[|world| - 1]);
    }
  }
}
