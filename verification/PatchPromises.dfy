/**
 What a patch task does, said from its calls and their answers alone: which answer every
 final report stands for, what becomes of every failure, when a reboot is made, and in
 which order the work is done.  All of it holds of every call of every life.
 */
module PatchPromises {
  import opened Wrappers
  import opened PatchMachine
  import opened PatchCalls

  // ---------------------------------------------------------------- every mark has its place

  predicate Ended(pc: Pc) { pc.Finished? || pc.Down? }

  /** The mark `mark` may come after `log`. */
  predicate Fits(task: Task, log: seq<Mark>, mark: Mark)
    requires log != []
  {
    match mark
    case Made(call, _) => call == Next(task, log) && !Ended(call) && !call.AwaitReboot?
    case Died => !Ended(Next(task, log))
    case Began => Saved(log).Some? && !Saved(log).value.UnknownStep?
  }

  /** A log that starts on the task and in which every mark fits. */
  predicate Lawful(task: Task, log: seq<Mark>) {
    && log != [] && log[0].Began?
    && forall i :: 0 < i < |log| ==> Fits(task, log[..i], log[i])
  }

  lemma {:induction false} LawfulPush(task: Task, log: seq<Mark>, mark: Mark)
    requires Lawful(task, log) && Fits(task, log, mark)
    ensures Lawful(task, log + [mark])
  {
    hide Fits;
    var more := log + [mark];
    forall i | 0 < i < |more|
      ensures Fits(task, more[..i], more[i])
    {
      if i < |log| {
        assert more[..i] == log[..i];
      } else {
        assert more[..i] == log;
      }
    }
  }

  lemma {:induction false} MarksFit(task: Task, m: Machine, log: seq<Mark>, act: Action)
    requires log != [] && Follows(task, m, log)
    ensures forall mark :: mark in Marks(m, act) ==> Fits(task, log, mark)
    ensures |Marks(m, act)| <= 1
  {
    hide Next, Saved, Sent, Counted, MemAgrees;
  }

  lemma {:induction false} LogIsLawful(task: Task, acts: seq<Action>)
    ensures Lawful(task, Log(task, acts))
  {
    if acts != [] {
      var front, act := acts[..|acts| - 1], acts[|acts| - 1];
      LogIsLawful(task, front);
      LifeFollows(task, front);
      var log, marks := Log(task, front), Marks(Life(task, front), act);
      MarksFit(task, Life(task, front), log, act);
      hide Follows, Lawful, Fits, Marks;
      if marks == [] {
        assert log + marks == log;
      } else {
        LawfulPush(task, log, marks[0]);
        assert marks == [marks[0]];
      }
    }
  }

  // ---------------------------------------------------------------- where a call is made

  /** The same progress was reported since the process began. */
  predicate Repeated(log: seq<Mark>, k: nat, p: Progress)
    requires k <= |log|
  {
    exists j :: 0 <= j < k && Sends(log[j], p) && forall l :: j < l < k ==> !log[l].Began?
  }

  predicate Sends(mark: Mark, p: Progress) {
    mark.Made? && mark.call.Report? && mark.call.progress == p && mark.answer == Ok
  }

  /**
   What came before a call: the mark `last` right before it, whether that was a report already
   made by this process, whether fewer than five reboots had been counted and none of them after
   patching, whether it is the very first call, and the step that is on disk.
   */
  datatype Place =
    Place(last: Mark, again: bool, spare: bool, unused: bool, first: bool, saved: Option<PatchStep>)
  {
    predicate Answered(a: Answer) { last.Made? && last.answer == a }

    /** The report of `p` went well: it was sent and saved, or had been sent a moment ago. */
    predicate Done(p: Progress) {
      || (last.Made? && last.call.Report? && last.call.progress == p && last.answer == Recent && again)
      || (last.Made? && last.call.SaveReported? && last.call.progress == p && last.answer == Ok)
    }

    /** The call before went wrong in a way that ends the run. */
    predicate Fatal() {
      && last.Made?
      && var a := last.answer;
         match last.call
         case SavePatching => a != Ok
         case SaveCount(_) => a != Ok
         case SavePostPatch => a != Ok
         case SaveReported(p, _) => a != Ok && p != Rebooting
         case Report(p, _) => a != Ok && a != Stop && p != Rebooting && !(a == Recent && again)
         case QueryReboot(_) => a != Yes && a != No && a != Panic
         case QueryFinal => a != Yes && a != No && a != Panic
         case CallReboot(_) => a != Ok && a != Panic
         case RunUpdates => a != Ok && a != Panic
         case _ => false
    }

    predicate Panicked() {
      && Answered(Panic)
      && (last.call.QueryReboot? || last.call.QueryFinal? || last.call.CallReboot? || last.call.RunUpdates?)
    }

    /** ALWAYS forces a reboot after the updates, unasked, while none after patching is counted. */
    predicate Forced(task: Task) { Answered(Ok) && last.call.RunUpdates? && task.rebootConfig == Always && unused }

    /** The system asks for a reboot, and there are some to spare. */
    predicate Asked(pre: bool) { Answered(Yes) && last.call.QueryReboot? && last.call.pre == pre && spare }

    /** The reboot query lets the task go on: none is required, or none may be made. */
    predicate LetsGo(task: Task, pre: bool) {
      && last.Made? && last.call.QueryReboot? && last.call.pre == pre
      && (last.answer == No || (last.answer == Yes && (task.dryRun || task.rebootConfig == Never || !spare)))
    }

    /** A process takes the task up again at the step that is on disk. */
    predicate Resumes(step: PatchStep) { !first && last.Began? && saved == Some(step) }

    /** The reboot is announced, whether or not the report came through. */
    predicate Announced() {
      && last.Made?
      && ((last.call.SaveReported? && last.call.progress == Rebooting)
          || (last.call.Report? && last.call.progress == Rebooting && last.answer != Ok))
    }
  }

  /** The place of the call at `i`. */
  function PlaceOf(log: seq<Mark>, i: nat): Place
    requires 0 < i <= |log|
  {
    var last, before := log[i - 1], log[..i - 1];
    Place(
      last,
      last.Made? && last.call.Report? && Repeated(log, i - 1, last.call.progress),
      Counted(before, true) + Counted(before, false) < 5,
      Counted(before, false) == 0,
      i == 1,
      Saved(before))
  }

  // ---------------------------------------------------------------- the promises

  /** A run that completes says the truth: the final report is what its last answer calls for. */
  predicate CompletesTruly(p: Place, call: Pc) {
    && (call == ReportFinal(Succeeded) <==> p.Answered(No) && p.last.call.QueryFinal?)
    && (call == ReportFinal(SucceededRebootRequired) <==> p.Answered(Yes) && p.last.call.QueryFinal?)
    && (call == ReportFinal(Canceled) <==>
          p.Answered(Stop) && p.last.call.Report? && p.last.call.progress != Rebooting)
    && (call.SaveEmpty? <==> p.last.Made? && p.last.call.ReportFinal?)
  }

  /** Failure is reported exactly after a fatal answer, and so no fatal answer is passed over. */
  predicate FailsRightly(p: Place, call: Pc) {
    && (call == ReportFinal(Failed) <==> p.Fatal())
    && (call.ReportPanic? <==> p.Panicked())
  }

  /**
   A reboot is counted exactly when it is forced or asked for and not forbidden; it is made once
   it is counted and announced, and nothing is done after it.
   */
  predicate RebootsRightly(task: Task, p: Place, call: Pc) {
    && (call == SaveCount(true) <==> !task.dryRun && task.rebootConfig != Never && p.Asked(true))
    && (call == SaveCount(false) <==>
          !task.dryRun && task.rebootConfig != Never && (p.Asked(false) || p.Forced(task)))
    && (call.Report? && call.progress == Rebooting <==> p.Answered(Ok) && p.last.call.SaveCount?)
    && (call.CallReboot? <==> p.Announced())
    && (p.Announced() || (p.Answered(Ok) && p.last.call.SaveCount?) ==> call.pre == p.last.call.pre)
    && !IsReboot(p.last)
  }

  /** The task is saved and announced, and then the first query is made; every report sent is saved. */
  predicate StartsInOrder(p: Place, call: Pc) {
    && (call.SaveFirst? <==> p.first)
    && (call.SavePatching? <==> (p.last.Made? && p.last.call.SaveFirst?) || p.Resumes(PrePatch))
    && (call.Report? && call.progress == Started <==> p.Answered(Ok) && p.last.call.SavePatching?)
    && (call.QueryReboot? && call.pre <==> p.Done(Started))
    && (call.SaveReported? <==> p.Answered(Ok) && p.last.call.Report?)
    && (call.SaveReported? ==> call.progress == p.last.call.progress && call.pre == p.last.call.pre)
  }

  /** The updates and what follows them, each part after the part before it went well. */
  predicate PatchesInOrder(task: Task, p: Place, call: Pc) {
    && (call.Report? && call.progress == ApplyingPatches <==> p.LetsGo(task, true) || p.Resumes(Patching))
    && (call.RunUpdates? <==> p.Done(ApplyingPatches))
    && (call.QueryReboot? && !call.pre <==> p.Answered(Ok) && p.last.call.RunUpdates? && !p.Forced(task))
    && (call.SavePostPatch? <==> p.LetsGo(task, false) || (p.Forced(task) && task.dryRun))
    && (call.QueryFinal? <==> (p.Answered(Ok) && p.last.call.SavePostPatch?) || p.Resumes(PostPatch))
  }

  predicate Keeps(task: Task, p: Place, call: Pc) {
    && CompletesTruly(p, call) && FailsRightly(p, call) && RebootsRightly(task, p, call)
    && StartsInOrder(p, call) && PatchesInOrder(task, p, call)
  }

  /** Every call of the log keeps every promise. */
  predicate Kept(task: Task, log: seq<Mark>) {
    forall i :: 0 < i < |log| && log[i].Made? ==> Keeps(task, PlaceOf(log, i), log[i].call)
  }

  // ---------------------------------------------------------------- and they are kept

  lemma {:induction false} SentIsRepeated(log: seq<Mark>, k: nat, p: Progress)
    requires k <= |log|
    ensures p in Sent(log[..k]) <==> Repeated(log, k, p)
  {
    if k > 0 {
      SentIsRepeated(log, k - 1, p);
      assert log[..k][..k - 1] == log[..k - 1];
      if Repeated(log, k - 1, p) && !log[k - 1].Began? {
        var j :| 0 <= j < k - 1 && Sends(log[j], p) && forall l :: j < l < k - 1 ==> !log[l].Began?;
        assert Sends(log[j], p) && forall l :: j < l < k ==> !log[l].Began?;
      }
      if Repeated(log, k, p) && !Sends(log[k - 1], p) {
        var j :| 0 <= j < k && Sends(log[j], p) && forall l :: j < l < k ==> !log[l].Began?;
        assert Sends(log[j], p) && forall l :: j < l < k - 1 ==> !log[l].Began?;
      }
    }
  }

  /** The call that follows from the place. */
  predicate Follow(task: Task, p: Place, call: Pc) {
    && !Ended(call) && !call.AwaitReboot?
    && match p.last
       case Made(c, a) => !p.first && call == After(task, p.again, p.spare, p.unused, c, a)
       case Began =>
         if p.first then call.SaveFirst?
         else p.saved.Some? && !p.saved.value.UnknownStep? && call == FirstCall(p.saved.value)
       case Died => false
  }

  lemma {:induction false} CallAt(task: Task, log: seq<Mark>, i: nat)
    requires Lawful(task, log) && 0 < i < |log| && log[i].Made?
    ensures Follow(task, PlaceOf(log, i), log[i].call)
  {
    assert log[..i][..i - 1] == log[..i - 1];
    assert Fits(task, log[..i], log[i]);
    if log[i - 1].Began? && i > 1 {
      assert Fits(task, log[..i - 1], log[i - 1]);
    }
    if log[i - 1].Made? && log[i - 1].call.Report? {
      SentIsRepeated(log, i - 1, log[i - 1].call.progress);
    }
    hide After, Saved, Sent, Counted, Repeated;
  }

  lemma {:induction false} CompletionsAre(task: Task, p: Place, call: Pc)
    requires Follow(task, p, call)
    ensures CompletesTruly(p, call)
  {
  }

  lemma {:induction false} FailuresAre(task: Task, p: Place, call: Pc)
    requires Follow(task, p, call)
    ensures FailsRightly(p, call)
  {
  }

  lemma {:induction false} RebootsAre(task: Task, p: Place, call: Pc)
    requires Follow(task, p, call)
    ensures RebootsRightly(task, p, call)
  {
  }

  lemma {:induction false} StartIs(task: Task, p: Place, call: Pc)
    requires Follow(task, p, call)
    ensures StartsInOrder(p, call)
  {
  }

  lemma {:induction false} PatchingIs(task: Task, p: Place, call: Pc)
    requires Follow(task, p, call)
    ensures PatchesInOrder(task, p, call)
  {
  }

  lemma {:induction false} LawfulKeeps(task: Task, log: seq<Mark>)
    requires Lawful(task, log)
    ensures Kept(task, log)
  {
    hide Lawful, Follow, CompletesTruly, FailsRightly, RebootsRightly, StartsInOrder, PatchesInOrder, PlaceOf;
    forall i | 0 < i < |log| && log[i].Made?
      ensures Keeps(task, PlaceOf(log, i), log[i].call)
    {
      var p, call := PlaceOf(log, i), log[i].call;
      CallAt(task, log, i);
      CompletionsAre(task, p, call);
      FailuresAre(task, p, call);
      RebootsAre(task, p, call);
      StartIs(task, p, call);
      PatchingIs(task, p, call);
    }
  }

  /** Every promise is kept at every call of every life. */
  lemma {:induction false} PromisesAreKept(task: Task, acts: seq<Action>)
    ensures Kept(task, Log(task, acts))
  {
    LogIsLawful(task, acts);
    LawfulKeeps(task, Log(task, acts));
  }

  // ---------------------------------------------------------------- the events

  /** The mark that an event of the history comes from. */
  lemma {:induction false} ToldAt(log: seq<Mark>, e: nat) returns (k: nat)
    requires e < |Told(log)|
    ensures k < |log| && |Told(log[..k])| <= e < |Told(log[..k])| + |Tells(log[..k], log[k])|
    ensures Told(log)[e] == Tells(log[..k], log[k])[e - |Told(log[..k])|]
  {
    hide Tells;
    var n := |log| - 1;
    if e < |Told(log[..n])| {
      k := ToldAt(log[..n], e);
      assert log[..n][..k] == log[..k];
    } else {
      k := n;
    }
  }

  /** The answers right before the completion report at `k` call for this final state. */
  predicate StandsFor(log: seq<Mark>, k: nat, state: FinalState) {
    && 0 < k < |log| && log[k].Made?
    && match state
       case Succeeded => log[k - 1] == Made(QueryFinal, No)
       case SucceededRebootRequired => log[k - 1] == Made(QueryFinal, Yes)
       case Canceled => log[k - 1].Made? && log[k - 1].call.Report? && log[k - 1].answer == Stop
       case Failed => PlaceOf(log, k).Fatal() || PlaceOf(log, k).Panicked()
  }

  lemma {:induction false} FinalStandsFor(log: seq<Mark>, k: nat, state: FinalState)
    requires 0 < k < |log| && log[k].Made?
    requires CompletesTruly(PlaceOf(log, k), log[k].call) && FailsRightly(PlaceOf(log, k), log[k].call)
    requires log[k].call == ReportFinal(state) || (log[k].call.ReportPanic? && state == Failed)
    ensures StandsFor(log, k, state)
  {
    hide Place.Fatal, Place.Panicked, Repeated, Saved, Counted;
  }

  /**
   Every completion report of a life stands for the answers right before it: SUCCEEDED for a
   final query told that no reboot is required, SUCCEEDED_REBOOT_REQUIRED for one told that it
   is, CANCELED for a progress report told to stop, FAILED for a fatal answer.
  */
  lemma {:induction false} CompletionsStandForAnswers(task: Task, acts: seq<Action>, e: nat) returns (k: nat)
    requires e < |Life(task, acts).history| && Life(task, acts).history[e].Completed?
    ensures StandsFor(Log(task, acts), k, Life(task, acts).history[e].state)
    ensures |Told(Log(task, acts)[..k])| == e
  {
    HistoryIsTold(task, acts);
    LogIsLawful(task, acts);
    hide Life, Log, Lawful, StandsFor, Told;
    k := CompletedAt(task, Log(task, acts), e);
  }

  lemma {:induction false} CompletedAt(task: Task, log: seq<Mark>, e: nat) returns (k: nat)
    requires Lawful(task, log) && e < |Told(log)| && Told(log)[e].Completed?
    ensures StandsFor(log, k, Told(log)[e].state) && |Told(log[..k])| == e
  {
    k := ToldAt(log, e);
    CompletedIs(log[..k], log[k], e - |Told(log[..k])|);
    assert log[0].Began?;
    hide Told, Tells, Lawful;
    CallAt(task, log, k);
    CompletionsAre(task, PlaceOf(log, k), log[k].call);
    FailuresAre(task, PlaceOf(log, k), log[k].call);
    hide Follow, PlaceOf, StandsFor, CompletesTruly, FailsRightly;
    FinalStandsFor(log, k, Told(log)[e].state);
  }

  lemma {:induction false} CompletedIs(before: seq<Mark>, mark: Mark, j: nat)
    requires j < |Tells(before, mark)| && Tells(before, mark)[j].Completed?
    ensures j == 0 && mark.Made?
    ensures var state := Tells(before, mark)[j].state;
            mark.call == ReportFinal(state) || (mark.call.ReportPanic? && state == Failed)
  {
  }

  // ---------------------------------------------------------------- one process

  predicate Returns(mark: Mark) { mark.Made? && (mark.call.SaveEmpty? || mark.call.ReportPanic?) }

  /** How a process leaves the task when the log of the task has become `log`. */
  predicate Leaves(task: Task, log: seq<Mark>, returned: bool, gone: bool, disk: Option<Record>)
    requires log != []
  {
    && (returned <==> Returns(log[|log| - 1]))
    && (gone <==> IsReboot(log[|log| - 1]))
    && (disk.Some? <==> Saved(log).Some?)
    && (disk.Some? ==>
          && disk.value.task == task && disk.value.step == Saved(log).value
          && disk.value.pre == Counted(log, true) && disk.value.post == Counted(log, false))
  }

  /** A process whose answers run out, once the task is accepted or taken up again. */
  lemma {:induction false} ProcessLeaves(task: Task, acts: seq<Action>, world: seq<Answer>)
    requires !Steps(Life(task, acts), world).pc.Down?
    ensures var log, end := Log(task, acts) + Trace(Life(task, acts), world), Steps(Life(task, acts), world);
            log != [] && Kept(task, log) && Leaves(task, log, end.pc.Finished?, end.pc.AwaitReboot?, end.disk)
  {
    var all := acts + Answers(world);
    LifeGoesOn(task, acts, world);
    PromisesAreKept(task, all);
    LifeFollows(task, all);
    hide Life, Log, Kept, Steps, Trace;
    EndShows(task, Life(task, all), Log(task, all));
  }

  lemma {:induction false} ResumedLeaves(task: Task, acts: seq<Action>, world: seq<Answer>)
    requires Life(task, acts).pc.Down? || Life(task, acts).pc.Finished?
    requires Life(task, acts).disk.Some? && !Steps(Life(task, acts).Resume(), world).pc.Down?
    ensures var m := Life(task, acts).Resume();
            var log, end := Log(task, acts) + ([Began] + Trace(m, world)), Steps(m, world);
            log != [] && Kept(task, log) && Leaves(task, log, end.pc.Finished?, end.pc.AwaitReboot?, end.disk)
  {
    hide Life, Log, Kept, Leaves, Machine.Resume, Trace, Steps;
    LogPush(task, acts, ResumeTask);
    ProcessLeaves(task, acts + [ResumeTask], world);
    var m := Life(task, acts).Resume();
    assert Log(task, acts) + [Began] + Trace(m, world) == Log(task, acts) + ([Began] + Trace(m, world));
  }

  lemma {:induction false} EndShows(task: Task, m: Machine, log: seq<Mark>)
    requires log != [] && Follows(task, m, log) && !m.pc.Down?
    ensures Leaves(task, log, m.pc.Finished?, m.pc.AwaitReboot?, m.disk)
  {
    hide Saved, Sent, Counted;
  }
}
