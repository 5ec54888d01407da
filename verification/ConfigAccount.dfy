/**
 A full account of what a run of OS policies did, read off the compliance entries it reports
 and the worlds in which it came to each resource.  Nothing here speaks of visits, marks or
 maps: only of validating, checking and enforcing.
 */
module ConfigAccount {
  import opened ConfigReport

  /** An earlier resource of the policy failed, so this one is left out. */
  predicate GivenUp(row: seq<Compliance>, j: nat)
    requires j <= |row|
  {
    exists k :: 0 <= k < j && Failed(row[k])
  }

  predicate Acted(c: Compliance) { |c.steps| > 2 && c.steps[2].kind.EnforcementStep? }

  /** Something was enforced at (i, j) or after it. */
  ghost predicate ActedSince(rows: seq<seq<Compliance>>, i: int, j: int) {
    exists i', j' ::
      0 <= i' < |rows| && 0 <= j' < |rows[i']| && (i' > i || (i' == i && j' >= j)) && Acted(rows[i'][j'])
  }

  /** The steps of a resource that was come to in `w` and left in `w'`, before any check at the end. */
  ghost predicate FirstSteps<R, W>(env: Env<R, W>, mode: Mode, r: R, steps: seq<ConfigStep>, w: W, w': W) {
    if !env.validate(r, w) then
      steps == [ConfigStep(ValidationStep, false)] && w' == w
    else if env.check(r, w).CheckFailed? then
      steps == [ConfigStep(ValidationStep, true), ConfigStep(CheckStep, false)] && w' == w
    else if mode.Enforcement? && env.check(r, w).NotInDesiredState? then
      && |steps| == 3 && (w', steps[2].succeeded) == env.enforce(r, w)
      && steps == [ConfigStep(ValidationStep, true), ConfigStep(CheckStep, true),
                   ConfigStep(EnforcementStep, steps[2].succeeded)]
    else
      steps == [ConfigStep(ValidationStep, true), ConfigStep(CheckStep, true)] && w' == w
  }

  predicate Passes<R, W>(env: Env<R, W>, r: R, w: W) { env.validate(r, w) && !env.check(r, w).CheckFailed? }

  /** The entry of a resource that was come to: `again` says that it is to be checked again in `after`. */
  ghost predicate Visited<R, W>(
    env: Env<R, W>, mode: Mode, r: R, c: Compliance, w: W, w': W, after: W, again: bool)
  {
    if again && Passes(env, r, w) then
      var n := |c.steps| - 1;
      && n >= 0
      && FirstSteps(env, mode, r, c.steps[..n], w, w')
      && c.steps[n] == ConfigStep(PostCheckStep, !env.check(r, after).CheckFailed?)
    else
      FirstSteps(env, mode, r, c.steps, w, w')
  }

  /** The entry at (i, j) of a run that came to it in `w` and left it in `w'`. */
  ghost predicate Accounted<R, W>(
    env: Env<R, W>, p: Policy<R>, rows: seq<seq<Compliance>>, i: nat, j: nat, w: W, w': W, after: W)
    requires i < |rows| && j < |rows[i]| == |p.resources|
  {
    var c := rows[i][j];
    && c.id == p.resources[j].id
    && if GivenUp(rows[i], j) then c.steps == [] && w' == w
       else Visited(env, p.mode, p.resources[j].spec, c, w, w', after, ActedSince(rows, i, j))
  }

  /** `ws[i][j]` is the world in which the run comes to the resource at (i, j). */
  ghost predicate Chained<R, W>(ps: seq<Policy<R>>, w: W, ws: seq<seq<W>>, after: W) {
    && |ws| == |ps|
    && (forall i :: 0 <= i < |ps| ==> |ws[i]| == |ps[i].resources| + 1)
    && (if ps == [] then after == w else ws[0][0] == w && ws[|ps| - 1][|ws[|ps| - 1]| - 1] == after)
    && (forall i :: 0 < i < |ps| ==> ws[i][0] == ws[i - 1][|ws[i - 1]| - 1])
  }

  predicate RowsFit<R>(ps: seq<Policy<R>>, rows: seq<seq<Compliance>>) {
    |rows| == |ps| && forall i :: 0 <= i < |ps| ==> |rows[i]| == |ps[i].resources|
  }

  ghost predicate Account<R, W>(
    env: Env<R, W>, ps: seq<Policy<R>>, rows: seq<seq<Compliance>>, w: W, ws: seq<seq<W>>, after: W)
  {
    && RowsFit(ps, rows) && Chained(ps, w, ws, after)
    && forall i, j {:trigger rows[i][j]} :: 0 <= i < |ps| && 0 <= j < |ps[i].resources| ==>
         Accounted(env, ps[i], rows, i, j, ws[i][j], ws[i][j + 1], after)
  }

  // ---------------------------------------------------------------- the worlds of the first pass

  function Same<W>(n: nat, w: W): seq<W> { seq(n, _ => w) }

  function PolicyWorlds<R, W>(env: Env<R, W>, mode: Mode, rs: seq<Resource<R>>, w: W): (ws: seq<W>)
    ensures |ws| == |rs| + 1 && ws[0] == w
  {
    if rs == [] then [w]
    else
      var (v, w') := VisitOne(env, mode, rs[0].spec, w);
      [w] + if Stops(v) then Same(|rs|, w') else PolicyWorlds(env, mode, rs[1..], w')
  }

  function AllWorlds<R, W>(env: Env<R, W>, ps: seq<Policy<R>>, w: W): (ws: seq<seq<W>>)
    ensures |ws| == |ps|
  {
    if ps == [] then []
    else
      [PolicyWorlds(env, ps[0].mode, ps[0].resources, w)]
      + AllWorlds(env, ps[1..], VisitPolicy(env, ps[0].mode, ps[0].resources, w).world)
  }

  /** One visit leads from each world to the next, until the policy is given up. */
  lemma {:induction false} WorldsOfPolicy<R, W>(env: Env<R, W>, mode: Mode, rs: seq<Resource<R>>, w: W, j: nat)
    requires j < |rs|
    ensures var visits, ws := VisitPolicy(env, mode, rs, w).visits, PolicyWorlds(env, mode, rs, w);
            if StoppedBefore(visits, j) then visits[j].Unreached? && ws[j + 1] == ws[j]
            else (visits[j], ws[j + 1]) == VisitOne(env, mode, rs[j].spec, ws[j])
  {
    var visits, ws := VisitPolicy(env, mode, rs, w).visits, PolicyWorlds(env, mode, rs, w);
    var (v, w') := VisitOne(env, mode, rs[0].spec, w);
    VisitsOfPolicy(env, mode, rs, w, j);
    if j > 0 {
      if Stops(v) {
        assert Stops(visits[0]);
        assert ws[j] == Same(|rs|, w')[j - 1] && ws[j + 1] == Same(|rs|, w')[j];
      } else {
        var rest := VisitPolicy(env, mode, rs[1..], w').visits;
        WorldsOfPolicy(env, mode, rs[1..], w', j - 1);
        assert visits == [v] + rest;
        StoppedLater(v, rest, j - 1);
      }
    } else if Stops(v) {
      assert ws[1] == Same(|rs|, w')[0];
    }
  }

  lemma {:induction false} LastWorld<R, W>(env: Env<R, W>, mode: Mode, rs: seq<Resource<R>>, w: W)
    ensures PolicyWorlds(env, mode, rs, w)[|rs|] == VisitPolicy(env, mode, rs, w).world
  {
    if rs != [] {
      var (v, w') := VisitOne(env, mode, rs[0].spec, w);
      if Stops(v) {
        assert PolicyWorlds(env, mode, rs, w)[|rs|] == Same(|rs|, w')[|rs| - 1];
      } else {
        LastWorld(env, mode, rs[1..], w');
      }
    }
  }

  lemma {:induction false} WorldsChain<R, W>(env: Env<R, W>, ps: seq<Policy<R>>, w: W)
    ensures Chained(ps, w, AllWorlds(env, ps, w), VisitAll(env, ps, w).world)
  {
    if ps != [] {
      var first := VisitPolicy(env, ps[0].mode, ps[0].resources, w);
      WorldsChain(env, ps[1..], first.world);
      LastWorld(env, ps[0].mode, ps[0].resources, w);
      hide VisitPolicy, PolicyWorlds;
    }
  }

  lemma {:induction false} WorldsOfAll<R, W>(env: Env<R, W>, ps: seq<Policy<R>>, w: W, i: nat, j: nat)
    requires i < |ps| && j < |ps[i].resources|
    ensures |AllWorlds(env, ps, w)[i]| == |ps[i].resources| + 1
    ensures var visits, ws := VisitAll(env, ps, w).visits[i], AllWorlds(env, ps, w)[i];
            if StoppedBefore(visits, j) then visits[j].Unreached? && ws[j + 1] == ws[j]
            else (visits[j], ws[j + 1]) == VisitOne(env, ps[i].mode, ps[i].resources[j].spec, ws[j])
  {
    hide VisitPolicy, PolicyWorlds, StoppedBefore, VisitOne;
    if i == 0 {
      WorldsOfPolicy(env, ps[0].mode, ps[0].resources, w, j);
    } else {
      WorldsOfAll(env, ps[1..], VisitPolicy(env, ps[0].mode, ps[0].resources, w).world, i - 1, j);
    }
  }

  // ---------------------------------------------------------------- from visits to the account

  /** Rows of final reports. */
  ghost predicate Final<R, W>(
    env: Env<R, W>, ps: seq<Policy<R>>, rows: seq<seq<Compliance>>, visits: seq<seq<Visit>>, w: W)
  {
    && RowsFit(ps, rows) && |visits| == |ps|
    && (forall i :: 0 <= i < |ps| ==> |visits[i]| == |ps[i].resources|)
    && forall i, j :: 0 <= i < |ps| && 0 <= j < |ps[i].resources| ==>
         rows[i][j] == FinalReport(env, ps[i].resources[j], visits, i, j, w)
  }

  /** One entry tells how its visit went. */
  lemma {:induction false} EntryTells<R, W>(
    env: Env<R, W>, ps: seq<Policy<R>>, rows: seq<seq<Compliance>>, visits: seq<seq<Visit>>, w: W, i: nat, j: nat)
    requires Final(env, ps, rows, visits, w) && i < |ps| && j < |ps[i].resources|
    ensures rows[i][j].id == ps[i].resources[j].id
    ensures Failed(rows[i][j]) <==> Stops(visits[i][j])
    ensures Acted(rows[i][j]) <==> visits[i][j].Enforced?
    ensures visits[i][j].Unreached? ==> rows[i][j].steps == []
  {
    ShapeOfReport(env, ps[i].resources[j], visits, i, j, w);
    hide Failed, Dirty;
  }

  lemma {:induction false} GivenUpIs<R, W>(
    env: Env<R, W>, ps: seq<Policy<R>>, rows: seq<seq<Compliance>>, visits: seq<seq<Visit>>, w: W, i: nat, j: nat)
    requires Final(env, ps, rows, visits, w) && i < |ps| && j <= |ps[i].resources|
    ensures GivenUp(rows[i], j) <==> StoppedBefore(visits[i], j)
  {
    forall k | 0 <= k < j
      ensures Failed(rows[i][k]) <==> Stops(visits[i][k])
    {
      EntryTells(env, ps, rows, visits, w, i, k);
    }
    hide Failed, Stops, FinalReport;
  }

  lemma {:induction false} ActedSinceIs<R, W>(
    env: Env<R, W>, ps: seq<Policy<R>>, rows: seq<seq<Compliance>>, visits: seq<seq<Visit>>, w: W, i: nat, j: nat)
    requires Final(env, ps, rows, visits, w)
    ensures ActedSince(rows, i, j) <==> Dirty(visits, i, j)
  {
    forall k, l | 0 <= k < |ps| && 0 <= l < |ps[k].resources|
      ensures Acted(rows[k][l]) <==> visits[k][l].Enforced?
    {
      EntryTells(env, ps, rows, visits, w, k, l);
    }
    hide Acted, FinalReport;
  }

  lemma {:induction false} VisitTells<R, W>(
    env: Env<R, W>, mode: Mode, r: Resource<R>, v: Visit, w: W, w': W, after: W, again: bool)
    requires (v, w') == VisitOne(env, mode, r.spec, w)
    ensures var c := FirstReport(r.id, v);
            Visited(env, mode, r.spec,
                    if Sound(v) && again then PostChecked(c, env.check(r.spec, after)) else c, w, w', after, again)
  {
    var c := FirstReport(r.id, v);
    var d := PostChecked(c, env.check(r.spec, after));
    assert d.steps[..|d.steps| - 1] == c.steps;
  }

  /** What a run reports is a full account of it. */
  lemma {:induction false} ReportsAccount<R, W>(env: Env<R, W>, ps: seq<Policy<R>>, rows: seq<seq<Compliance>>, w: W)
    requires Final(env, ps, rows, VisitAll(env, ps, w).visits, VisitAll(env, ps, w).world)
    ensures Account(env, ps, rows, w, AllWorlds(env, ps, w), VisitAll(env, ps, w).world)
  {
    var p, ws := VisitAll(env, ps, w), AllWorlds(env, ps, w);
    WorldsChain(env, ps, w);
    hide VisitAll, AllWorlds, Accounted;
    forall i, j | 0 <= i < |ps| && 0 <= j < |ps[i].resources|
      ensures Accounted(env, ps[i], rows, i, j, ws[i][j], ws[i][j + 1], p.world)
    {
      EntryAccounts(env, ps, rows, w, i, j);
    }
  }

  lemma {:induction false} EntryAccounts<R, W>(
    env: Env<R, W>, ps: seq<Policy<R>>, rows: seq<seq<Compliance>>, w: W, i: nat, j: nat)
    requires Final(env, ps, rows, VisitAll(env, ps, w).visits, VisitAll(env, ps, w).world)
    requires i < |ps| && j < |ps[i].resources|
    ensures |AllWorlds(env, ps, w)[i]| == |ps[i].resources| + 1
    ensures var ws := AllWorlds(env, ps, w)[i];
            Accounted(env, ps[i], rows, i, j, ws[j], ws[j + 1], VisitAll(env, ps, w).world)
  {
    var p := VisitAll(env, ps, w);
    WorldsOfAll(env, ps, w, i, j);
    EntryTells(env, ps, rows, p.visits, p.world, i, j);
    GivenUpIs(env, ps, rows, p.visits, p.world, i, j);
    ActedSinceIs(env, ps, rows, p.visits, p.world, i, j);
    var ws, r := AllWorlds(env, ps, w)[i], ps[i].resources[j];
    hide VisitAll, AllWorlds, VisitOne, Visited, GivenUp, ActedSince, Dirty, StoppedBefore, Failed, Acted;
    hide FirstReport, PostChecked;
    if !StoppedBefore(p.visits[i], j) {
      VisitTells(env, ps[i].mode, r, p.visits[i][j], ws[j], ws[j + 1], p.world, Dirty(p.visits, i, j));
    }
  }
}
