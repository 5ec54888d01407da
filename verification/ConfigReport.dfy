/**
 What a run of OS policies reports, said without the bookkeeping of the agent: a first
 pass visits the resources in order, and the final report is read off the visits and the
 world the pass ended in.  Validating, checking and enforcing are arbitrary functions of
 the world; only enforcing changes it.
 */
module ConfigReport {

  datatype Verdict = InDesiredState | NotInDesiredState | CheckFailed

  datatype Env<!R, !W> = Env(
    validate: (R, W) -> bool,
    check: (R, W) -> Verdict,
    enforce: (R, W) -> (W, bool))

  datatype Mode = Validation | Enforcement

  datatype Resource<+R> = Resource(id: string, spec: R)

  datatype Policy<+R> = Policy(id: string, mode: Mode, resources: seq<Resource<R>>)

  datatype StepType = ValidationStep | CheckStep | EnforcementStep | PostCheckStep

  datatype ConfigStep = ConfigStep(kind: StepType, succeeded: bool)

  datatype ComplianceState = Unknown | Compliant | NonCompliant

  datatype Compliance = Compliance(id: string, steps: seq<ConfigStep>, state: ComplianceState)

  /** What the first pass did with a resource. */
  datatype Visit = Unreached | BadValidate | BadCheck | Checked(compliant: bool) | Enforced(ok: bool)

  predicate Bad(v: Visit) { v.BadValidate? || v.BadCheck? }

  /** The resource passed validation and its first check. */
  predicate Sound(v: Visit) { v.Checked? || v.Enforced? }

  /** The policy is given up after this visit. */
  predicate Stops(v: Visit) { Bad(v) || v == Enforced(false) }

  function StateOf(v: Verdict): ComplianceState {
    match v
    case InDesiredState => Compliant
    case NotInDesiredState => NonCompliant
    case CheckFailed => Unknown
  }

  function VisitOne<R, W>(env: Env<R, W>, mode: Mode, r: R, w: W): (Visit, W) {
    if !env.validate(r, w) then (BadValidate, w)
    else
      match env.check(r, w)
      case CheckFailed => (BadCheck, w)
      case InDesiredState => (Checked(true), w)
      case NotInDesiredState =>
        if mode.Validation? then (Checked(false), w)
        else var (w', ok) := env.enforce(r, w); (Enforced(ok), w')
  }

  function Nothing(n: nat): seq<Visit> { seq(n, _ => Unreached) }

  datatype Pass<+V, +W> = Pass(visits: seq<V>, world: W)

  function VisitPolicy<R, W>(env: Env<R, W>, mode: Mode, rs: seq<Resource<R>>, w: W): (p: Pass<Visit, W>)
    ensures |p.visits| == |rs|
  {
    if rs == [] then Pass([], w)
    else
      var (v, w') := VisitOne(env, mode, rs[0].spec, w);
      if Stops(v) then Pass([v] + Nothing(|rs| - 1), w')
      else var rest := VisitPolicy(env, mode, rs[1..], w'); Pass([v] + rest.visits, rest.world)
  }

  function VisitAll<R, W>(env: Env<R, W>, ps: seq<Policy<R>>, w: W): (p: Pass<seq<Visit>, W>)
    ensures |p.visits| == |ps|
    ensures forall i :: 0 <= i < |ps| ==> |p.visits[i]| == |ps[i].resources|
  {
    if ps == [] then Pass([], w)
    else
      var first := VisitPolicy(env, ps[0].mode, ps[0].resources, w);
      var rest := VisitAll(env, ps[1..], first.world);
      Pass([first.visits] + rest.visits, rest.world)
  }

  /** Something is enforced at position (i, j) or after it. */
  ghost predicate Dirty(visits: seq<seq<Visit>>, i: int, j: int) {
    exists i', j' ::
      0 <= i' < |visits| && 0 <= j' < |visits[i']| && (i' > i || (i' == i && j' >= j)) && visits[i'][j'].Enforced?
  }

  function PassedSteps(): seq<ConfigStep> { [ConfigStep(ValidationStep, true), ConfigStep(CheckStep, true)] }

  /** The compliance entry right after the first pass. */
  function FirstReport(id: string, v: Visit): Compliance {
    match v
    case Unreached => Compliance(id, [], Unknown)
    case BadValidate => Compliance(id, [ConfigStep(ValidationStep, false)], Unknown)
    case BadCheck => Compliance(id, [ConfigStep(ValidationStep, true), ConfigStep(CheckStep, false)], Unknown)
    case Checked(c) =>
      Compliance(id, PassedSteps(), if c then Compliant else NonCompliant)
    case Enforced(ok) =>
      Compliance(id, PassedSteps() + [ConfigStep(EnforcementStep, ok)], Unknown)
  }

  function PostChecked(c: Compliance, v: Verdict): Compliance {
    Compliance(c.id, c.steps + [ConfigStep(PostCheckStep, !v.CheckFailed?)], StateOf(v))
  }

  /** The final compliance entry of the resource at (i, j): a sound resource is checked again when dirty. */
  ghost function FinalReport<R, W>(
    env: Env<R, W>, r: Resource<R>, visits: seq<seq<Visit>>, i: int, j: int, w: W): Compliance
    requires 0 <= i < |visits| && 0 <= j < |visits[i]|
  {
    var c := FirstReport(r.id, visits[i][j]);
    if Sound(visits[i][j]) && Dirty(visits, i, j) then PostChecked(c, env.check(r.spec, w)) else c
  }

  // ---------------------------------------------------------------- freshness

  predicate Quiet(visits: seq<Visit>) {
    forall j :: 0 <= j < |visits| ==> !visits[j].Enforced?
  }

  predicate AllQuiet(visits: seq<seq<Visit>>) {
    forall i :: 0 <= i < |visits| ==> Quiet(visits[i])
  }

  lemma {:induction false} QuietTail(v: Visit, rest: seq<Visit>)
    requires Quiet([v] + rest)
    ensures !v.Enforced? && Quiet(rest)
  {
    assert ([v] + rest)[0] == v;
    forall j | 0 <= j < |rest| ensures !rest[j].Enforced? {
      assert ([v] + rest)[j + 1] == rest[j];
    }
  }

  lemma {:induction false} AllQuietTail(first: seq<Visit>, rest: seq<seq<Visit>>)
    requires AllQuiet([first] + rest)
    ensures Quiet(first) && AllQuiet(rest)
  {
    assert ([first] + rest)[0] == first;
    forall i | 0 <= i < |rest| ensures Quiet(rest[i]) {
      assert ([first] + rest)[i + 1] == rest[i];
    }
  }

  lemma {:induction false} QuietPolicy<R, W>(env: Env<R, W>, mode: Mode, rs: seq<Resource<R>>, w: W)
    requires Quiet(VisitPolicy(env, mode, rs, w).visits)
    ensures VisitPolicy(env, mode, rs, w).world == w
  {
    if rs != [] {
      var (v, w') := VisitOne(env, mode, rs[0].spec, w);
      if Stops(v) {
        QuietTail(v, Nothing(|rs| - 1));
      } else {
        QuietTail(v, VisitPolicy(env, mode, rs[1..], w').visits);
        QuietPolicy(env, mode, rs[1..], w');
      }
    }
  }

  lemma {:induction false} QuietAll<R, W>(env: Env<R, W>, ps: seq<Policy<R>>, w: W)
    requires AllQuiet(VisitAll(env, ps, w).visits)
    ensures VisitAll(env, ps, w).world == w
  {
    if ps != [] {
      var first := VisitPolicy(env, ps[0].mode, ps[0].resources, w);
      AllQuietTail(first.visits, VisitAll(env, ps[1..], first.world).visits);
      QuietPolicy(env, ps[0].mode, ps[0].resources, w);
      QuietAll(env, ps[1..], first.world);
    }
  }

  /** A check that no enforcement of its policy follows still holds in the world the policy ends in. */
  lemma {:induction false} CleanInPolicy<R, W>(env: Env<R, W>, mode: Mode, rs: seq<Resource<R>>, w: W, j: nat)
    requires j < |rs| && VisitPolicy(env, mode, rs, w).visits[j].Checked?
    requires Quiet(VisitPolicy(env, mode, rs, w).visits[j..])
    ensures var p := VisitPolicy(env, mode, rs, w);
            env.check(rs[j].spec, p.world) == if p.visits[j].compliant then InDesiredState else NotInDesiredState
  {
    var p := VisitPolicy(env, mode, rs, w);
    var (v, w') := VisitOne(env, mode, rs[0].spec, w);
    if j == 0 {
      assert p.visits[0..] == p.visits;
      QuietPolicy(env, mode, rs, w);
    } else {
      assert !Stops(v);
      assert p.visits[j..] == VisitPolicy(env, mode, rs[1..], w').visits[j - 1..];
      CleanInPolicy(env, mode, rs[1..], w', j - 1);
    }
  }

  /** Nothing is enforced at position (i, j) or after it: the rest of row i and all later rows are quiet. */
  lemma {:induction false} NotDirty(visits: seq<seq<Visit>>, i: nat, j: nat)
    requires i < |visits| && j < |visits[i]| && !Dirty(visits, i, j)
    ensures Quiet(visits[i][j..]) && AllQuiet(visits[i + 1..])
  {
    forall l | 0 <= l < |visits[i][j..]| ensures !visits[i][j..][l].Enforced? {
      assert visits[i][j..][l] == visits[i][j + l];
    }
    var later := visits[i + 1..];
    forall k | 0 <= k < |later| ensures Quiet(later[k]) {
      assert later[k] == visits[i + 1 + k];
    }
  }

  lemma {:induction false} CleanInAll<R, W>(env: Env<R, W>, ps: seq<Policy<R>>, w: W, i: nat, j: nat)
    requires i < |ps| && j < |ps[i].resources| && VisitAll(env, ps, w).visits[i][j].Checked?
    requires Quiet(VisitAll(env, ps, w).visits[i][j..]) && AllQuiet(VisitAll(env, ps, w).visits[i + 1..])
    ensures var p := VisitAll(env, ps, w);
            env.check(ps[i].resources[j].spec, p.world) ==
            if p.visits[i][j].compliant then InDesiredState else NotInDesiredState
  {
    var p := VisitAll(env, ps, w);
    var first := VisitPolicy(env, ps[0].mode, ps[0].resources, w);
    var rest := VisitAll(env, ps[1..], first.world);
    if i == 0 {
      CleanInPolicy(env, ps[0].mode, ps[0].resources, w, j);
      assert p.visits[1..] == rest.visits;
      QuietAll(env, ps[1..], first.world);
    } else {
      assert p.visits[i] == rest.visits[i - 1];
      assert p.visits[i + 1..] == rest.visits[i..];
      CleanInAll(env, ps[1..], first.world, i - 1, j);
    }
  }

  /**
   Freshness: every resource that passed validation and its first check is reported as a
   check made in the final world would judge it, although only the dirty ones are checked
   again.
   */
  lemma {:induction false} ReportsAreFresh<R, W>(env: Env<R, W>, ps: seq<Policy<R>>, w: W, i: nat, j: nat)
    requires i < |ps| && j < |ps[i].resources|
    requires Sound(VisitAll(env, ps, w).visits[i][j])
    ensures var p := VisitAll(env, ps, w);
            FinalReport(env, ps[i].resources[j], p.visits, i, j, p.world).state
            == StateOf(env.check(ps[i].resources[j].spec, p.world))
  {
    var p := VisitAll(env, ps, w);
    if !Dirty(p.visits, i, j) {
      NotDirty(p.visits, i, j);
      CleanInAll(env, ps, w, i, j);
    }
  }

  // ---------------------------------------------------------------- the shape of a report

  predicate StoppedBefore(visits: seq<Visit>, j: nat)
    requires j <= |visits|
  {
    exists k :: 0 <= k < j && Stops(visits[k])
  }

  /** A resource is left out exactly when an earlier one of its policy stopped the policy. */
  lemma {:induction false} VisitsOfPolicy<R, W>(env: Env<R, W>, mode: Mode, rs: seq<Resource<R>>, w: W, j: nat)
    requires j < |rs|
    ensures var visits := VisitPolicy(env, mode, rs, w).visits;
            && (visits[j].Unreached? <==> StoppedBefore(visits, j))
            && (mode.Validation? ==> !visits[j].Enforced?)
            && (mode.Enforcement? ==> visits[j] != Checked(false))
  {
    var visits := VisitPolicy(env, mode, rs, w).visits;
    var (v, w') := VisitOne(env, mode, rs[0].spec, w);
    assert visits[0] == v;
    if j > 0 {
      if Stops(v) {
        assert visits[j] == Nothing(|rs| - 1)[j - 1];
      } else {
        var rest := VisitPolicy(env, mode, rs[1..], w').visits;
        VisitsOfPolicy(env, mode, rs[1..], w', j - 1);
        assert visits == [v] + rest;
        StoppedLater(v, rest, j - 1);
      }
    }
  }

  lemma {:induction false} StoppedLater(v: Visit, rest: seq<Visit>, j: nat)
    requires !Stops(v) && j <= |rest|
    ensures StoppedBefore([v] + rest, j + 1) <==> StoppedBefore(rest, j)
  {
    var all := [v] + rest;
    if StoppedBefore(all, j + 1) {
      var k :| 0 <= k < j + 1 && Stops(all[k]);
      assert rest[k - 1] == all[k];
    }
    if StoppedBefore(rest, j) {
      var k :| 0 <= k < j && Stops(rest[k]);
      assert all[k + 1] == rest[k];
    }
  }

  lemma {:induction false} VisitsOfAll<R, W>(env: Env<R, W>, ps: seq<Policy<R>>, w: W, i: nat, j: nat)
    requires i < |ps| && j < |ps[i].resources|
    ensures var visits := VisitAll(env, ps, w).visits[i];
            && (visits[j].Unreached? <==> StoppedBefore(visits, j))
            && (ps[i].mode.Validation? ==> !visits[j].Enforced?)
            && (ps[i].mode.Enforcement? ==> visits[j] != Checked(false))
  {
    hide VisitPolicy, StoppedBefore;
    var first := VisitPolicy(env, ps[0].mode, ps[0].resources, w);
    if i == 0 {
      VisitsOfPolicy(env, ps[0].mode, ps[0].resources, w, j);
    } else {
      VisitsOfAll(env, ps[1..], first.world, i - 1, j);
    }
  }

  function Kinds(steps: seq<ConfigStep>): seq<StepType> { seq(|steps|, k requires 0 <= k < |steps| => steps[k].kind) }

  predicate AllSucceeded(steps: seq<ConfigStep>) { forall k :: 0 <= k < |steps| ==> steps[k].succeeded }

  /** The only step lists a resource can end with. */
  predicate WellShaped(steps: seq<ConfigStep>) {
    || steps == []
    || steps == [ConfigStep(ValidationStep, false)]
    || steps == [ConfigStep(ValidationStep, true), ConfigStep(CheckStep, false)]
    || (AllSucceeded(steps) && Kinds(steps) == [ValidationStep, CheckStep])
    || (Kinds(steps) == [ValidationStep, CheckStep, PostCheckStep] && AllSucceeded(steps[..2]))
    || (Kinds(steps) == [ValidationStep, CheckStep, EnforcementStep, PostCheckStep] && AllSucceeded(steps[..2]))
  }

  predicate Failed(c: Compliance) {
    exists k :: 0 <= k < |c.steps| && !c.steps[k].succeeded && !c.steps[k].kind.PostCheckStep?
  }

  lemma {:induction false} ShapeOfReport<R, W>(
    env: Env<R, W>, r: Resource<R>, visits: seq<seq<Visit>>, i: nat, j: nat, w: W)
    requires i < |visits| && j < |visits[i]|
    ensures var c := FinalReport(env, r, visits, i, j, w);
            && c.id == r.id && WellShaped(c.steps)
            && (c.steps == [] <==> visits[i][j].Unreached?)
            && (Failed(c) <==> Stops(visits[i][j]))
            && ((exists k :: 0 <= k < |c.steps| && c.steps[k].kind.EnforcementStep?) <==> visits[i][j].Enforced?)
  {
    var v := visits[i][j];
    var c := FinalReport(env, r, visits, i, j, w);
    match v
    case Unreached =>
    case BadValidate => assert !c.steps[0].succeeded;
    case BadCheck => assert !c.steps[1].succeeded;
    case Checked(_) =>
    case Enforced(ok) =>
      assert Dirty(visits, i, j);
      assert c.steps[2] == ConfigStep(EnforcementStep, ok);
  }

  /** Both validation and first check of this entry went well. */
  predicate PassedChecks(c: Compliance) {
    |c.steps| >= 2 && c.steps[0].succeeded && c.steps[1].succeeded
  }

  predicate HasPostCheck(c: Compliance) { c.steps != [] && c.steps[|c.steps| - 1].kind.PostCheckStep? }

  /**
   A report a reader can rely on in world `w`: right shape, a post-check step that says whether
   the check in `w` works, and a state that is true of `w` or says unknown.
  */
  predicate Honest<R, W>(env: Env<R, W>, r: Resource<R>, c: Compliance, w: W) {
    && c.id == r.id && WellShaped(c.steps)
    && (HasPostCheck(c) ==> (c.steps[|c.steps| - 1].succeeded <==> !env.check(r.spec, w).CheckFailed?))
    && c.state == if PassedChecks(c) then StateOf(env.check(r.spec, w)) else Unknown
  }

  lemma {:induction false} ReportsAreHonest<R, W>(env: Env<R, W>, ps: seq<Policy<R>>, w: W, i: nat, j: nat)
    requires i < |ps| && j < |ps[i].resources|
    ensures var p := VisitAll(env, ps, w);
            Honest(env, ps[i].resources[j], FinalReport(env, ps[i].resources[j], p.visits, i, j, p.world), p.world)
  {
    var p := VisitAll(env, ps, w);
    ShapeOfReport(env, ps[i].resources[j], p.visits, i, j, p.world);
    if Sound(p.visits[i][j]) {
      ReportsAreFresh(env, ps, w, i, j);
    }
  }
}
