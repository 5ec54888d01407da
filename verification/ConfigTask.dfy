/**
 The config task as the agent runs it: maps of policies and resources, result entries
 appended to in place, and marks that ask for a later check.  `Run` is tied to the
 bookkeeping-free account in `ConfigReport`.
 */
module ConfigTaskRun {
  import opened ConfigReport
  import opened ConfigAccount

  /** The agent's object for one resource. */
  datatype Entry<+R> = Entry(spec: R, inDesiredState: bool, needsPostCheck: bool, validateOrCheckError: bool)

  type Policies<+R> = map<string, map<string, Entry<R>>>

  datatype PolicyResult = PolicyResult(id: string, compliances: seq<Compliance>)

  /** Policy ids are distinct, and so are the resource ids within a policy. */
  predicate DistinctIds<R>(task: seq<Policy<R>>) {
    && (forall i, k :: 0 <= i < k < |task| ==> task[i].id != task[k].id)
    && (forall i :: 0 <= i < |task| ==> DistinctResources(task[i].resources))
  }

  predicate DistinctResources<R>(rs: seq<Resource<R>>) {
    forall j, k :: 0 <= j < k < |rs| ==> rs[j].id != rs[k].id
  }

  class ConfigTask<R, W> {
    const task: seq<Policy<R>>
    const env: Env<R, W>
    var world: W
    var policies: Policies<R>
    var results: seq<PolicyResult>
    ghost var visits: seq<seq<Visit>>

    constructor (task: seq<Policy<R>>, env: Env<R, W>, world: W)
      ensures this.task == task && this.env == env && this.world == world
      ensures policies == map[] && results == []
    {
      this.task, this.env, this.world := task, env, world;
      policies, results, visits := map[], [], [];
    }

    predicate Position(i: int, j: int) {
      0 <= i < |task| && 0 <= j < |task[i].resources|
    }

    predicate Shaped()
      reads this`results
    {
      && |results| == |task|
      && forall i :: 0 <= i < |task| ==>
           results[i].id == task[i].id && |results[i].compliances| == |task[i].resources|
    }

    ghost predicate VisitsShaped()
      reads this`visits
    {
      |visits| == |task| && forall i :: 0 <= i < |task| ==> |visits[i]| == |task[i].resources|
    }

    predicate Has(i: int, j: int)
      requires Position(i, j)
      reads this`policies
    {
      task[i].id in policies && task[i].resources[j].id in policies[task[i].id]
    }

    function At(i: int, j: int): Entry<R>
      requires Position(i, j) && Has(i, j)
      reads this`policies
    {
      policies[task[i].id][task[i].resources[j].id]
    }

    /** What the maps hold about the resource at (i, j), given its visit. */
    ghost predicate EntryOk(i: int, j: int)
      requires Position(i, j) && VisitsShaped()
      reads this`policies, this`visits
    {
      && (Has(i, j) <==> !visits[i][j].Unreached?)
      && (Has(i, j) ==>
            && At(i, j).spec == task[i].resources[j].spec
            && At(i, j).validateOrCheckError == Bad(visits[i][j])
            && (At(i, j).needsPostCheck <==> Sound(visits[i][j]) && Dirty(visits, i, j)))
    }

    ghost predicate Entries()
      reads this`policies, this`visits
    {
      VisitsShaped() && forall i, j :: Position(i, j) ==> EntryOk(i, j)
    }

    /** After the first pass over the positions visited so far. */
    ghost predicate FirstPass()
      reads this`policies, this`visits, this`results
    {
      && Shaped() && Entries()
      && forall i, j :: Position(i, j) ==>
           results[i].compliances[j] == FirstReport(task[i].resources[j].id, visits[i][j])
    }

    method GenerateBaseResults()
      modifies this`results, this`visits
      ensures Shaped() && VisitsShaped()
      ensures forall i, j :: Position(i, j) ==>
                results[i].compliances[j] == Compliance(task[i].resources[j].id, [], Unknown)
      ensures visits == seq(|task|, i requires 0 <= i < |task| => Nothing(|task[i].resources|))
    {
      results := [];
      for i := 0 to |task|
        invariant |results| == i
        invariant forall k :: 0 <= k < i ==>
                    results[k].id == task[k].id && |results[k].compliances| == |task[k].resources|
        invariant forall k, j :: 0 <= k < i && 0 <= j < |task[k].resources| ==>
                    results[k].compliances[j] == Compliance(task[k].resources[j].id, [], Unknown)
      {
        var rs := task[i].resources;
        var compliances := [];
        for j := 0 to |rs|
          invariant |compliances| == j
          invariant forall l :: 0 <= l < j ==> compliances[l] == Compliance(rs[l].id, [], Unknown)
        {
          compliances := compliances + [Compliance(rs[j].id, [], Unknown)];
        }
        results := results + [PolicyResult(task[i].id, compliances)];
      }
      visits := seq(|task|, i requires 0 <= i < |task| => Nothing(|task[i].resources|));
    }

    /** Appends a step to the entry of (i, j) and sets its state. */
    method AppendStep(i: nat, j: nat, step: ConfigStep, state: ComplianceState)
      requires Position(i, j) && Shaped()
      modifies this`results
      ensures Shaped() && results == Put(old(results), i, j, step, state)
      ensures old(Elsewhere(i, j, false)) ==> Elsewhere(i, j, false)
    {
      results := Put(results, i, j, step, state);
    }

    /** Stores the object of resource (i, j); no other resource shares its place. */
    method SetEntry(i: nat, j: nat, e: Entry<R>)
      requires Position(i, j) && DistinctIds(task) && task[i].id in policies
      modifies this`policies
      ensures policies.Keys == old(policies).Keys
      ensures Has(i, j) && At(i, j) == e
      ensures forall k, l :: Position(k, l) && (k != i || l != j) ==>
                Has(k, l) == old(Has(k, l)) && (Has(k, l) ==> At(k, l) == old(At(k, l)))
      ensures old(Elsewhere(i, j, false)) ==> Elsewhere(i, j, false)
    {
      policies := policies[task[i].id := policies[task[i].id][task[i].resources[j].id := e]];
    }

    /** validateConfigResource. */
    method Validate(i: nat, j: nat) returns (hasError: bool)
      requires Position(i, j) && Shaped() && Has(i, j)
      modifies this`results
      ensures hasError <==> !env.validate(At(i, j).spec, world)
      ensures Shaped() && results == Put(old(results), i, j, ConfigStep(ValidationStep, !hasError), Unknown)
      ensures old(Elsewhere(i, j, false)) ==> Elsewhere(i, j, false)
    {
      hasError := !env.validate(At(i, j).spec, world);
      AppendStep(i, j, ConfigStep(ValidationStep, !hasError), Unknown);
    }

    /** checkConfigResourceState. */
    method CheckState(i: nat, j: nat) returns (hasError: bool)
      requires Position(i, j) && Shaped() && Has(i, j) && DistinctIds(task)
      modifies this`results, this`policies
      ensures var v := env.check(old(At(i, j)).spec, world);
              && (hasError <==> v.CheckFailed?)
              && Shaped() && results == Put(old(results), i, j, ConfigStep(CheckStep, !hasError), StateOf(v))
              && Has(i, j) && At(i, j) == old(At(i, j)).(inDesiredState := v.InDesiredState?)
      ensures policies.Keys == old(policies).Keys
      ensures old(Elsewhere(i, j, false)) ==> Elsewhere(i, j, false)
    {
      var v := env.check(At(i, j).spec, world);
      SetEntry(i, j, At(i, j).(inDesiredState := v.InDesiredState?));
      hasError := v.CheckFailed?;
      AppendStep(i, j, ConfigStep(CheckStep, !hasError), StateOf(v));
    }

    /** enforceConfigResourceState: acts only on a resource that is not in its desired state. */
    method EnforceState(i: nat, j: nat) returns (actionTaken: bool, hasError: bool)
      requires Position(i, j) && Shaped() && Has(i, j)
      modifies this`results, this`world
      ensures actionTaken <==> !At(i, j).inDesiredState
      ensures !actionTaken ==> !hasError && results == old(results) && world == old(world)
      ensures actionTaken ==> (world, !hasError) == env.enforce(At(i, j).spec, old(world))
      ensures actionTaken ==>
                Shaped() && results == Put(old(results), i, j, ConfigStep(EnforcementStep, !hasError), Unknown)
      ensures old(Elsewhere(i, j, false)) ==> Elsewhere(i, j, false)
    {
      if At(i, j).inDesiredState {
        return false, false;
      }
      var (w, ok) := env.enforce(At(i, j).spec, world);
      world := w;
      AppendStep(i, j, ConfigStep(EnforcementStep, ok), Unknown);
      return true, !ok;
    }

    /** markPostCheckRequired: every resource whose validation and first check went well is marked. */
    method MarkPostCheckRequired()
      requires DistinctIds(task)
      modifies this`policies
      ensures policies.Keys == old(policies).Keys
      ensures forall k, l :: Position(k, l) ==>
                Has(k, l) == old(Has(k, l)) && (Has(k, l) ==> At(k, l) == Marked(old(At(k, l))))
    {
      for i := 0 to |task|
        invariant policies.Keys == old(policies).Keys
        invariant forall k, l :: Position(k, l) ==>
                    && Has(k, l) == old(Has(k, l))
                    && (Has(k, l) ==> At(k, l) == if k < i then Marked(old(At(k, l))) else old(At(k, l)))
      {
        if task[i].id in policies {
          for j := 0 to |task[i].resources|
            invariant policies.Keys == old(policies).Keys
            invariant forall k, l :: Position(k, l) ==>
                        Has(k, l) == old(Has(k, l))
                        && (Has(k, l) ==>
                              At(k, l) == if k < i || (k == i && l < j) then Marked(old(At(k, l))) else old(At(k, l)))
          {
            if Has(i, j) && !At(i, j).validateOrCheckError {
              SetEntry(i, j, At(i, j).(needsPostCheck := true));
            }
          }
        }
      }
    }

    /** Nothing at (i, j) or after it has been visited. */
    ghost predicate Frontier(i: int, j: int)
      requires VisitsShaped()
      reads this`visits
    {
      forall k, l :: Position(k, l) && (k > i || (k == i && l >= j)) ==> visits[k][l].Unreached?
    }

    /** Maps and results agree with the visits everywhere but at (i, j); `marked` adds a mark to all of them. */
    ghost predicate Elsewhere(i: int, j: int, marked: bool)
      reads this`policies, this`visits, this`results
    {
      && Shaped() && VisitsShaped()
      && forall k, l :: Position(k, l) && (k != i || l != j) ==> Agrees(k, l, marked)
    }

    ghost predicate Agrees(k: int, l: int, marked: bool)
      requires Position(k, l) && Shaped() && VisitsShaped()
      reads this`policies, this`visits, this`results
    {
      && (Has(k, l) <==> !visits[k][l].Unreached?)
      && (Has(k, l) ==>
            && At(k, l).spec == task[k].resources[l].spec
            && At(k, l).validateOrCheckError == Bad(visits[k][l])
            && (At(k, l).needsPostCheck <==> Sound(visits[k][l]) && (marked || Dirty(visits, k, l))))
      && results[k].compliances[l] == FirstReport(task[k].resources[l].id, visits[k][l])
    }

    /** What maps and results hold at (i, j) once its visit turned out to be `v`. */
    ghost predicate Shows(i: int, j: int, v: Visit)
      requires Position(i, j) && Shaped()
      reads this`policies, this`results
    {
      && Has(i, j) && At(i, j).spec == task[i].resources[j].spec
      && At(i, j).validateOrCheckError == Bad(v)
      && (At(i, j).needsPostCheck <==> v.Enforced?)
      && results[i].compliances[j] == FirstReport(task[i].resources[j].id, v)
    }

    /** The visit of (i, j) up to and including its first check. */
    method Examine(i: nat, j: nat) returns (hasError: bool)
      requires Position(i, j) && DistinctIds(task) && FirstPass() && Frontier(i, j) && task[i].id in policies
      modifies this`results, this`policies
      ensures policies.Keys == old(policies).Keys && Elsewhere(i, j, false)
      ensures var r := task[i].resources[j].spec;
              var verdict := env.check(r, world);
              && (hasError <==> !env.validate(r, world) || verdict.CheckFailed?)
              && Shows(i, j, if !env.validate(r, world) then BadValidate
                             else if hasError then BadCheck
                             else Checked(verdict.InDesiredState?))
              && (!hasError ==> At(i, j).inDesiredState == verdict.InDesiredState?)
    {
      SetEntry(i, j, Entry(task[i].resources[j].spec, false, false, false));
      hasError := Validate(i, j);
      if !hasError {
        hasError := CheckState(i, j);
      }
      if hasError {
        SetEntry(i, j, At(i, j).(validateOrCheckError := true));
      }
    }

    /** Enforcement of (i, j) and, when it acted, the marks it leaves on everything visited so far. */
    method Enforce(i: nat, j: nat) returns (hasError: bool)
      requires Position(i, j) && DistinctIds(task) && Elsewhere(i, j, false)
      requires Has(i, j) && Shows(i, j, Checked(At(i, j).inDesiredState))
      modifies this`results, this`policies, this`world
      ensures policies.Keys == old(policies).Keys
      ensures if old(At(i, j)).inDesiredState
              then !hasError && world == old(world) && Elsewhere(i, j, false) && Shows(i, j, Checked(true))
              else (world, !hasError) == env.enforce(task[i].resources[j].spec, old(world))
                   && Elsewhere(i, j, true) && Shows(i, j, Enforced(!hasError))
    {
      var actionTaken;
      actionTaken, hasError := EnforceState(i, j);
      if actionTaken {
        // A failed enforcement may have changed the world too.
        MarkPostCheckRequired();
      }
    }

    /** The body of the loop over a policy's resources. */
    method VisitResource(i: nat, j: nat) returns (stop: bool)
      requires Position(i, j) && DistinctIds(task) && FirstPass() && Frontier(i, j) && task[i].id in policies
      modifies this`results, this`policies, this`world, this`visits
      ensures FirstPass() && Frontier(i, j + 1) && policies.Keys == old(policies).Keys
      ensures var (v, w) := VisitOne(env, task[i].mode, task[i].resources[j].spec, old(world));
              && visits == old(visits)[i := old(visits)[i][j := v]]
              && world == w && stop == Stops(v)
    {
      ghost var (v, w) := VisitOne(env, task[i].mode, task[i].resources[j].spec, world);
      stop := Examine(i, j);
      // A validating policy leaves everything as it is.
      if !stop && !task[i].mode.Validation? {
        stop := Enforce(i, j);
      }
      Record(i, j, v);
    }

    /** The visit of (i, j) is over: maps and results agree with it. */
    ghost method Record(i: nat, j: nat, v: Visit)
      requires Position(i, j) && !v.Unreached? && Elsewhere(i, j, v.Enforced?) && Frontier(i, j) && Shows(i, j, v)
      modifies this`visits
      ensures FirstPass() && Frontier(i, j + 1)
      ensures visits == old(visits)[i := old(visits)[i][j := v]]
    {
      visits := visits[i := visits[i][j := v]];
      forall k, l | Position(k, l)
        ensures EntryOk(k, l)
      {
        DirtyAfter(old(visits), i, j, v, k, l);
      }
    }

    /** Exactly the first `i` policies have an entry. */
    ghost predicate Opened(i: int)
      reads this`policies
    {
      forall k :: 0 <= k < |task| ==> (task[k].id in policies <==> k < i)
    }

    /** A policy not yet visited gets its empty map of resources. */
    method OpenPolicy(i: nat)
      requires i < |task| && DistinctIds(task) && FirstPass() && Frontier(i, 0) && Opened(i)
      modifies this`policies
      ensures FirstPass() && Opened(i + 1)
    {
      policies := policies[task[i].id := map[]];
      assert forall k, l :: Position(k, l) ==> old(EntryOk(k, l));
    }

    /** One turn of the loop over a policy's resources, counted off from the visits `p` the policy is to end with. */
    method VisitNext(ghost p: Pass<Visit, W>, i: nat, j: nat) returns (stop: bool)
      requires Position(i, j) && DistinctIds(task) && FirstPass() && Frontier(i, j) && Opened(i + 1)
      requires Remaining(p, env, task[i].mode, task[i].resources, visits[i], j, world, false)
      modifies this`results, this`policies, this`world, this`visits
      ensures FirstPass() && Frontier(i, j + 1) && Opened(i + 1)
      ensures visits == old(visits)[i := visits[i]]
      ensures Remaining(p, env, task[i].mode, task[i].resources, visits[i], j + 1, world, stop)
    {
      hide ConfigTask.EntryOk, Remaining, VisitOne, DistinctIds;
      RemainingStep(p, env, task[i].mode, task[i].resources, visits[i], j, world);
      stop := VisitResource(i, j);
    }

    /** One turn of the loop over the policies. */
    method RunPolicy(i: nat)
      requires i < |task| && DistinctIds(task) && FirstPass() && Frontier(i, 0) && Opened(i)
      modifies this`results, this`policies, this`world, this`visits
      ensures FirstPass() && Frontier(i + 1, 0) && Opened(i + 1)
      ensures var p := VisitPolicy(env, task[i].mode, task[i].resources, old(world));
              visits == old(visits)[i := p.visits] && world == p.world
    {
      hide ConfigTask.EntryOk, ConfigTask.Opened, Remaining, VisitPolicy, DistinctIds;
      var rs := task[i].resources;
      ghost var p := VisitPolicy(env, task[i].mode, rs, world);
      ghost var rows := visits;
      OpenPolicy(i);
      RemainingStart(env, task[i].mode, rs, visits[i], world);
      var stop := false;
      var j := 0;
      while j < |rs| && !stop
        invariant j <= |rs| && FirstPass() && Frontier(i, j) && Opened(i + 1)
        invariant visits == rows[i := visits[i]]
        invariant Remaining(p, env, task[i].mode, rs, visits[i], j, world, stop)
      {
        stop := VisitNext(p, i, j);
        j := j + 1;
      }
      RemainingEnd(p, env, task[i].mode, rs, visits[i], j, world, stop);
    }

    /** postCheckConfigResourceState, for a resource that may have no object. */
    method PostCheck(i: nat, j: nat)
      requires Position(i, j) && Shaped() && VisitsShaped() && EntryOk(i, j)
      requires results[i].compliances[j] == FirstReport(task[i].resources[j].id, visits[i][j])
      modifies this`results
      ensures Shaped() && results[i].compliances[j] == FinalReport(env, task[i].resources[j], visits, i, j, world)
      ensures forall k, l :: Position(k, l) && (k != i || l != j) ==>
                results[k].compliances[l] == old(results)[k].compliances[l]
    {
      if Has(i, j) && At(i, j).needsPostCheck {
        var v := env.check(At(i, j).spec, world);
        AppendStep(i, j, ConfigStep(PostCheckStep, !v.CheckFailed?), StateOf(v));
      }
    }

    /** postCheckState: the marked resources are checked once more. */
    method PostCheckState()
      requires FirstPass()
      modifies this`results
      ensures Shaped()
      ensures forall i, j :: Position(i, j) ==>
                results[i].compliances[j] == FinalReport(env, task[i].resources[j], visits, i, j, world)
    {
      hide FinalReport, ConfigTask.EntryOk, FirstReport;
      for i := 0 to |task|
        invariant Shaped() && Entries()
        invariant forall k, l :: Position(k, l) ==>
                    results[k].compliances[l] ==
                      if k < i then FinalReport(env, task[k].resources[l], visits, k, l, world)
                      else FirstReport(task[k].resources[l].id, visits[k][l])
      {
        for j := 0 to |task[i].resources|
          invariant Shaped() && Entries()
          invariant forall k, l :: Position(k, l) ==>
                      results[k].compliances[l] ==
                        if k < i || (k == i && l < j) then FinalReport(env, task[k].resources[l], visits, k, l, world)
                        else FirstReport(task[k].resources[l].id, visits[k][l])
        {
          PostCheck(i, j);
        }
      }
    }

    /**
     cleanup: cleans every resource that has an object.  It reads the entry of every policy
     that has resources, and dies when there is none.
     */
    method Cleanup() returns (cleaned: seq<(nat, nat)>, panicked: bool)
      ensures panicked <==> exists i :: 0 <= i < |task| && task[i].id !in policies && task[i].resources != []
      ensures !panicked ==> forall i: nat, j: nat :: (i, j) in cleaned <==> Position(i, j) && Has(i, j)
      ensures forall a, b :: 0 <= a < b < |cleaned| ==> cleaned[a] != cleaned[b]
    {
      cleaned := [];
      for i := 0 to |task|
        invariant forall k :: 0 <= k < i ==> task[k].id in policies || task[k].resources == []
        invariant forall k: nat, l: nat :: (k, l) in cleaned <==> Position(k, l) && k < i && Has(k, l)
        invariant forall a, b :: 0 <= a < b < |cleaned| ==> cleaned[a] != cleaned[b]
      {
        for j := 0 to |task[i].resources|
          invariant j > 0 ==> task[i].id in policies
          invariant forall k: nat, l: nat ::
                      (k, l) in cleaned <==> Position(k, l) && (k < i || (k == i && l < j)) && Has(k, l)
          invariant forall a, b :: 0 <= a < b < |cleaned| ==> cleaned[a] != cleaned[b]
        {
          if task[i].id !in policies {
            return cleaned, true;
          }
          if Has(i, j) {
            cleaned := cleaned + [(i, j)];
          }
        }
      }
      panicked := false;
    }

    /** The policy loop: afterwards maps and results agree with the visits of the whole task. */
    method RunPolicies()
      requires DistinctIds(task) && FirstPass() && Frontier(0, 0) && Opened(0)
      modifies this`results, this`policies, this`world, this`visits
      ensures FirstPass() && VisitAll(env, task, old(world)) == Pass(visits, world)
      ensures Opened(|task|)
    {
      hide ConfigTask.EntryOk, ConfigTask.Opened, DistinctIds, RemainingPolicies, VisitAll, VisitPolicy, FirstReport;
      ghost var p := VisitAll(env, task, world);
      RemainingPoliciesStart(env, task, visits, world);
      for i := 0 to |task|
        invariant FirstPass() && Frontier(i, 0) && Opened(i)
        invariant RemainingPolicies(p, env, task, visits, i, world)
      {
        RemainingPoliciesStep(p, env, task, visits, i, world);
        RunPolicy(i);
      }
      RemainingPoliciesEnd(p, env, task, visits, world);
    }

    /** The run once both progress reports went out: all policies, the marked checks, the cleanup. */
    method ApplyPolicies() returns (cleaned: seq<(nat, nat)>, panicked: bool)
      requires DistinctIds(task) && FirstPass() && Frontier(0, 0) && Opened(0)
      modifies this`results, this`policies, this`world, this`visits
      ensures var p := VisitAll(env, task, old(world));
              && world == p.world && Shaped()
              && (forall i, j :: Position(i, j) ==>
                    results[i].compliances[j] == FinalReport(env, task[i].resources[j], p.visits, i, j, p.world))
              && !panicked
              && (forall i: nat, j: nat :: (i, j) in cleaned <==> Position(i, j) && !p.visits[i][j].Unreached?)
    {
      hide FinalReport, FirstReport, VisitAll, DistinctIds;
      RunPolicies();
      PostCheckState();
      cleaned, panicked := Cleanup();
      assert forall i, j :: Position(i, j) ==> EntryOk(i, j);
    }

    /**
     run, up to the completion report: `started` and `applying` answer the two progress
     reports.  `cleaned` and `panicked` tell how the deferred cleanup went.
     */
    method Run(started: Reply, applying: Reply) returns (reported: TaskState, cleaned: seq<(nat, nat)>, panicked: bool)
      requires DistinctIds(task) && policies == map[] && results == []
      modifies this
      ensures started != Ok ==> reported == StateOnError(started) && results == [] && !panicked
      ensures started == Ok && task == [] ==> reported == Succeeded && results == [] && !panicked
      ensures started != Ok || task == [] || applying != Ok ==> world == old(world)
      ensures started == Ok && task != [] && applying != Ok ==>
                && reported == StateOnError(applying)
                && Shaped() && (forall i, j :: Position(i, j) ==> results[i].compliances[j].steps == [])
                && (panicked <==> exists i :: 0 <= i < |task| && task[i].resources != [])
      ensures started == Ok && task != [] && applying == Ok ==>
                var p := VisitAll(env, task, old(world));
                && reported == Succeeded && world == p.world && Shaped()
                && (forall i, j :: Position(i, j) ==>
                      results[i].compliances[j] == FinalReport(env, task[i].resources[j], p.visits, i, j, p.world))
                && !panicked
                && (forall i: nat, j: nat :: (i, j) in cleaned <==> Position(i, j) && !p.visits[i][j].Unreached?)
    {
      cleaned, panicked := [], false;
      if started != Ok {
        return StateOnError(started), [], false;
      }
      if task == [] {
        return Succeeded, [], false;
      }
      GenerateBaseResults();
      if applying != Ok {
        reported := StateOnError(applying);
        cleaned, panicked := Cleanup();
        return;
      }
      assert FirstPass();
      hide ConfigTask.EntryOk, FinalReport, VisitAll, DistinctIds;
      reported := Succeeded;
      cleaned, panicked := ApplyPolicies();
    }
  }

  datatype Reply = Ok | Error | Stop

  datatype TaskState = Succeeded | TaskFailed | Cancelled

  /** handleErrorState. */
  function StateOnError(r: Reply): TaskState { if r.Stop? then Cancelled else TaskFailed }

  function Marked<R>(e: Entry<R>): Entry<R> {
    if e.validateOrCheckError then e else e.(needsPostCheck := true)
  }

  /** The results with a step appended at (i, j) and the state there replaced. */
  function Put(
    results: seq<PolicyResult>, i: nat, j: nat, step: ConfigStep, state: ComplianceState): (after: seq<PolicyResult>)
    requires i < |results| && j < |results[i].compliances|
  {
    var c := results[i].compliances[j];
    results[i := results[i].(compliances := results[i].compliances[j := Compliance(c.id, c.steps + [step], state)])]
  }

  /** One more visit makes everything visited before it dirty when it enforces, and nothing otherwise. */
  lemma {:induction false} DirtyAfter(visits: seq<seq<Visit>>, i: nat, j: nat, v: Visit, k: nat, l: nat)
    requires i < |visits| && j < |visits[i]| && k < |visits| && l < |visits[k]|
    requires forall a, b ::
               0 <= a < |visits| && 0 <= b < |visits[a]| && (a > i || (a == i && b >= j)) ==> visits[a][b].Unreached?
    ensures var after: seq<seq<Visit>> := visits[i := visits[i][j := v]];
            !after[k][l].Unreached? ==> (Dirty(after, k, l) <==> v.Enforced? || Dirty(visits, k, l))
  {
    var after: seq<seq<Visit>> := visits[i := visits[i][j := v]];
    if Dirty(visits, k, l) {
      var a, b :| 0 <= a < |visits| && 0 <= b < |visits[a]| && (a > k || (a == k && b >= l)) && visits[a][b].Enforced?;
      assert after[a][b].Enforced?;
    }
    if v.Enforced? && !after[k][l].Unreached? {
      assert after[i][j].Enforced?;
    }
    if Dirty(after, k, l) && !v.Enforced? {
      var a, b :| 0 <= a < |after| && 0 <= b < |after[a]| && (a > k || (a == k && b >= l)) && after[a][b].Enforced?;
      assert visits[a][b].Enforced?;
    }
  }

  /** The visits `p` of a policy are those of `row` up to `j`, and from there on what is still to be done. */
  ghost predicate Remaining<R, W>(
    p: Pass<Visit, W>, env: Env<R, W>, mode: Mode, rs: seq<Resource<R>>, row: seq<Visit>, j: nat, w: W, stop: bool)
    requires j <= |rs| == |row|
  {
    if stop then p == Pass(row, w)
    else
      var rest := VisitPolicy(env, mode, rs[j..], w);
      p == Pass(row[..j] + rest.visits, rest.world)
  }

  lemma {:induction false} RemainingStart<R, W>(env: Env<R, W>, mode: Mode, rs: seq<Resource<R>>, row: seq<Visit>, w: W)
    requires |rs| == |row|
    ensures Remaining(VisitPolicy(env, mode, rs, w), env, mode, rs, row, 0, w, false)
  {
    assert rs[0..] == rs;
  }

  lemma {:induction false} RemainingStep<R, W>(
    p: Pass<Visit, W>, env: Env<R, W>, mode: Mode, rs: seq<Resource<R>>, row: seq<Visit>, j: nat, w: W)
    requires j < |rs| == |row| && Remaining(p, env, mode, rs, row, j, w, false)
    requires forall l :: j <= l < |row| ==> row[l].Unreached?
    ensures var (v, w') := VisitOne(env, mode, rs[j].spec, w);
            Remaining(p, env, mode, rs, row[j := v], j + 1, w', Stops(v))
  {
    var (v, w') := VisitOne(env, mode, rs[j].spec, w);
    var after := row[j := v];
    assert rs[j..][1..] == rs[j + 1..];
    assert after[..j + 1] == row[..j] + [v];
    if Stops(v) {
      assert after == row[..j] + [v] + Nothing(|rs| - j - 1);
    }
  }

  lemma {:induction false} RemainingEnd<R, W>(
    p: Pass<Visit, W>, env: Env<R, W>, mode: Mode, rs: seq<Resource<R>>, row: seq<Visit>, j: nat, w: W, stop: bool)
    requires j <= |rs| == |row| && Remaining(p, env, mode, rs, row, j, w, stop)
    requires j == |rs| || stop
    ensures p == Pass(row, w)
  {
  }

  ghost predicate RemainingPolicies<R, W>(
    p: Pass<seq<Visit>, W>, env: Env<R, W>, ps: seq<Policy<R>>, rows: seq<seq<Visit>>, i: nat, w: W)
    requires i <= |ps| == |rows|
  {
    var rest := VisitAll(env, ps[i..], w);
    p == Pass(rows[..i] + rest.visits, rest.world)
  }

  lemma {:induction false} RemainingPoliciesStart<R, W>(env: Env<R, W>, ps: seq<Policy<R>>, rows: seq<seq<Visit>>, w: W)
    requires |ps| == |rows|
    ensures RemainingPolicies(VisitAll(env, ps, w), env, ps, rows, 0, w)
  {
    assert ps[0..] == ps;
  }

  lemma {:induction false} RemainingPoliciesStep<R, W>(
    p: Pass<seq<Visit>, W>, env: Env<R, W>, ps: seq<Policy<R>>, rows: seq<seq<Visit>>, i: nat, w: W)
    requires i < |ps| == |rows| && RemainingPolicies(p, env, ps, rows, i, w)
    ensures var first := VisitPolicy(env, ps[i].mode, ps[i].resources, w);
            RemainingPolicies(p, env, ps, rows[i := first.visits], i + 1, first.world)
  {
    hide VisitPolicy;
    var first := VisitPolicy(env, ps[i].mode, ps[i].resources, w);
    var rest := ps[i..];
    assert rest[0] == ps[i] && rest[1..] == ps[i + 1..];
    assert rows[i := first.visits][..i + 1] == rows[..i] + [first.visits];
  }

  lemma {:induction false} RemainingPoliciesEnd<R, W>(
    p: Pass<seq<Visit>, W>, env: Env<R, W>, ps: seq<Policy<R>>, rows: seq<seq<Visit>>, w: W)
    requires |ps| == |rows| && RemainingPolicies(p, env, ps, rows, |ps|, w)
    ensures p == Pass(rows, w)
  {
    assert rows[..|ps|] == rows;
  }

  function Rows(results: seq<PolicyResult>): seq<seq<Compliance>> {
    seq(|results|, i requires 0 <= i < |results| => results[i].compliances)
  }

  /**
   RunApplyConfig on a fresh task: what is reported is honest about the world the run leaves
   behind, and a full account of the worlds it went through.
  */
  method RunApplyConfig<R, W>(task: seq<Policy<R>>, env: Env<R, W>, world: W, started: Reply, applying: Reply)
    returns (reported: TaskState, results: seq<PolicyResult>, after: W, panicked: bool)
    requires DistinctIds(task)
    ensures panicked <==> started == Ok && applying != Ok && exists i :: 0 <= i < |task| && task[i].resources != []
    ensures reported == Cancelled <==> started == Stop || (started == Ok && task != [] && applying == Stop)
    ensures reported == TaskFailed <==> started == Error || (started == Ok && task != [] && applying == Error)
    ensures reported != Succeeded ==> after == world && Untouched(results)
    ensures reported == Succeeded ==>
              && |results| == |task|
              && (forall i :: 0 <= i < |task| ==>
                    && results[i].id == task[i].id && |results[i].compliances| == |task[i].resources|
                    && forall j :: 0 <= j < |task[i].resources| ==>
                         Honest(env, task[i].resources[j], results[i].compliances[j], after))
              && Account(env, task, Rows(results), world, AllWorlds(env, task, world), after)
  {
    var c := new ConfigTask(task, env, world);
    var cleaned;
    reported, cleaned, panicked := c.Run(started, applying);
    results, after := c.results, c.world;
    if reported == Succeeded {
      forall i, j | 0 <= i < |task| && 0 <= j < |task[i].resources|
        ensures Honest(env, task[i].resources[j], results[i].compliances[j], after)
      {
        assert c.Position(i, j);
        ReportsAreHonest(env, task, world, i, j);
      }
      assert Final(env, task, Rows(results), VisitAll(env, task, world).visits, after);
      ReportsAccount(env, task, Rows(results), world);
    }
  }

  /** No entry has a step. */
  predicate Untouched(results: seq<PolicyResult>) {
    forall i, j :: 0 <= i < |results| && 0 <= j < |results[i].compliances| ==> results[i].compliances[j].steps == []
  }
}
