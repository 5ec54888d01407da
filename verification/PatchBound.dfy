/** The reboot bound is exact: some life of an ordinary task reboots five times, once before patching. */
module PatchBound {
  import opened PatchMachine
  import opened PatchSafety

  const ORDINARY := Task(Default, false)

  /** The machine is down after `x` + `y` reboots and may be resumed to patch on. */
  predicate Waiting(m: Machine, x: nat, y: nat) {
    && m.pc.Down?
    && m.disk.Some? && m.disk.value.task == ORDINARY && m.disk.value.step.Patching?
    && m.disk.value.pre == x && m.disk.value.post == y
    && PreReboots(m.history) == x && PostReboots(m.history) == y
  }

  lemma {:induction false} LifePush(acts: seq<Action>, act: Action)
    ensures Life(ORDINARY, acts + [act]) == Do(Life(ORDINARY, acts), act)
  {
    assert (acts + [act])[..|acts|] == acts;
  }

  /** The life `acts` goes on with one more answer. */
  lemma {:induction false} OneAnswer(acts: seq<Action>, a: Answer) returns (more: seq<Action>)
    ensures var m, n := Life(ORDINARY, acts), Life(ORDINARY, more);
            && n == m.Step(a)
            && PreReboots(n.history) == PreReboots(m.history) + (if m.pc == CallReboot(true) then 1 else 0)
            && PostReboots(n.history) == PostReboots(m.history) + (if m.pc == CallReboot(false) then 1 else 0)
  {
    hide Life;
    more := acts + [Answered(a)];
    LifePush(acts, Answered(a));
    EmitsCalls(Life(ORDINARY, acts), a);
  }

  /** From the reboot query to the next process start: counted, saved, called, gone. */
  lemma {:induction false} QueryToDown(acts: seq<Action>) returns (more: seq<Action>)
    requires Life(ORDINARY, acts).pc.QueryReboot? && Life(ORDINARY, acts).mem.task == ORDINARY
    requires Life(ORDINARY, acts).mem.Total() < TOTAL_REBOOT_COUNT_LIMIT && Life(ORDINARY, acts).mem.step.Patching?
    requires var m := Life(ORDINARY, acts); PreReboots(m.history) == m.mem.pre && PostReboots(m.history) == m.mem.post
    ensures var m, pre := Life(ORDINARY, acts), Life(ORDINARY, acts).pc.pre;
            Waiting(Life(ORDINARY, more), m.mem.pre + (if pre then 1 else 0), m.mem.post + (if pre then 0 else 1))
  {
    hide Life, PreReboots, PostReboots;
    var pre := Life(ORDINARY, acts).pc.pre;
    more := OneAnswer(acts, Yes);
    assert Life(ORDINARY, more).pc == SaveCount(pre);
    more := OneAnswer(more, Ok);
    assert Life(ORDINARY, more).pc == Report(Rebooting, pre);
    more := OneAnswer(more, Err);
    assert Life(ORDINARY, more).pc == CallReboot(pre);
    more := OneAnswer(more, Ok);
    LifePush(more, EndProcess);
    CallsPush(Life(ORDINARY, more).history, RebootedAway);
    more := more + [EndProcess];
  }

  /** The process has just accepted the task. */
  predicate Begun(m: Machine) {
    && m.pc.SaveFirst? && m.mem.task == ORDINARY && m.mem.step.PrePatch? && m.mem.Unused() && m.reported == {}
    && PreReboots(m.history) == 0 && PostReboots(m.history) == 0
  }

  lemma {:induction false} AcceptedIsBegun()
    ensures Begun(Life(ORDINARY, []))
  {
    assert Count([RunStarted], IsPreReboot) == 0 && Count([RunStarted], IsPostReboot) == 0;
  }

  /** Nothing is counted yet and the task is on its way to the first reboot query. */
  predicate Uncounted(m: Machine) {
    && m.mem.task == ORDINARY && m.mem.step.Patching? && m.mem.Unused() && m.reported == {}
    && PreReboots(m.history) == 0 && PostReboots(m.history) == 0
  }

  lemma {:induction false} FirstSave(acts: seq<Action>) returns (more: seq<Action>)
    requires Begun(Life(ORDINARY, acts))
    ensures Uncounted(Life(ORDINARY, more)) && Life(ORDINARY, more).pc.SavePatching?
  {
    hide Life, PreReboots, PostReboots;
    more := OneAnswer(acts, Ok);
  }

  lemma {:induction false} FirstQuery(acts: seq<Action>) returns (more: seq<Action>)
    requires Uncounted(Life(ORDINARY, acts)) && Life(ORDINARY, acts).pc.SavePatching?
    ensures Life(ORDINARY, more).pc == QueryReboot(true) && Life(ORDINARY, more).mem == Life(ORDINARY, acts).mem
    ensures PreReboots(Life(ORDINARY, more).history) == 0 && PostReboots(Life(ORDINARY, more).history) == 0
  {
    hide Life, PreReboots, PostReboots, Record.Unused;
    more := OneAnswer(acts, Ok);
    assert Life(ORDINARY, more).pc == Report(Started, true);
    more := OneAnswer(more, Ok);
    assert Life(ORDINARY, more).pc == SaveReported(Started, true);
    more := OneAnswer(more, Ok);
  }

  lemma {:induction false} FirstReboot() returns (acts: seq<Action>)
    ensures Waiting(Life(ORDINARY, acts), 1, 0)
  {
    hide Life, Accept, PreReboots, PostReboots, Begun, Waiting;
    AcceptedIsBegun();
    acts := FirstSave([]);
    acts := FirstQuery(acts);
    acts := QueryToDown(acts);
  }

  /** A task waiting with reboots to spare can be made to reboot once more. */
  lemma {:induction false} OneMoreReboot(acts: seq<Action>, x: nat, y: nat) returns (more: seq<Action>)
    requires Waiting(Life(ORDINARY, acts), x, y) && x + y < TOTAL_REBOOT_COUNT_LIMIT
    ensures Waiting(Life(ORDINARY, more), x, y + 1)
  {
    hide Life, PreReboots, PostReboots;
    LifePush(acts, ResumeTask);
    CallsPush(Life(ORDINARY, acts).history, RunStarted);
    more := acts + [ResumeTask];
    assert Life(ORDINARY, more).pc == Report(ApplyingPatches, false);
    more := OneAnswer(more, Ok);
    assert Life(ORDINARY, more).pc == SaveReported(ApplyingPatches, false);
    more := OneAnswer(more, Ok);
    assert Life(ORDINARY, more).pc == RunUpdates;
    more := OneAnswer(more, Ok);
    more := QueryToDown(more);
  }

  lemma {:induction false} BoundIsReached() returns (acts: seq<Action>)
    ensures Reboots(Life(ORDINARY, acts).history) == TOTAL_REBOOT_COUNT_LIMIT
    ensures PreReboots(Life(ORDINARY, acts).history) == 1
  {
    hide Life, PreReboots, PostReboots;
    acts := FirstReboot();
    acts := OneMoreReboot(acts, 1, 0);
    acts := OneMoreReboot(acts, 1, 1);
    acts := OneMoreReboot(acts, 1, 2);
    acts := OneMoreReboot(acts, 1, 3);
  }
}
