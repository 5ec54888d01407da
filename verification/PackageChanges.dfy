/**
 Guest-policy package changes with apt.  A machine is the set of installed names and the set
 of names with a newer version.  A command that works has its named effect; one that fails
 may have it for some of its names.
 */
module PackageChanges {
  import opened Wrappers

  datatype Changes = Changes(toInstall: seq<string>, toUpgrade: seq<string>, toRemove: seq<string>)

  function Missing(names: seq<string>, have: set<string>): seq<string> {
    if names == [] then []
    else Missing(names[..|names| - 1], have) + if names[|names| - 1] in have then [] else [names[|names| - 1]]
  }

  function Present(names: seq<string>, have: set<string>): seq<string> {
    if names == [] then []
    else Present(names[..|names| - 1], have) + if names[|names| - 1] in have then [names[|names| - 1]] else []
  }

  function NecessaryChanges(
    installed: set<string>, upgradable: set<string>,
    install: seq<string>, remove: seq<string>, update: seq<string>): Changes
  {
    Changes(
      Missing(install, installed) + Missing(update, installed + upgradable),
      Present(update, upgradable),
      Present(remove, installed))
  }

  function Set(names: seq<string>): set<string> { set x | x in names }

  lemma {:induction false} SetPush(names: seq<string>, x: string)
    ensures Set(names + [x]) == Set(names) + {x}
  {
    assert forall y :: y in names + [x] <==> y in names || y == x;
  }

  lemma {:induction false} SetPlus(a: seq<string>, b: seq<string>)
    ensures Set(a + b) == Set(a) + Set(b)
  {
    assert forall y :: y in a + b <==> y in a || y in b;
  }

  lemma {:induction false} FiltersAre(names: seq<string>, have: set<string>)
    ensures Set(Missing(names, have)) == Set(names) - have
    ensures Set(Present(names, have)) == Set(names) * have
  {
    if names != [] {
      var front, last := names[..|names| - 1], names[|names| - 1];
      FiltersAre(front, have);
      assert names == front + [last];
      SetPush(front, last);
      SetPush(Missing(front, have), last);
      SetPush(Present(front, have), last);
      assert Missing(front, have) + [] == Missing(front, have) && Present(front, have) + [] == Present(front, have);
    }
  }

  lemma {:induction false} ChangesAre(
    installed: set<string>, upgradable: set<string>, install: seq<string>, remove: seq<string>, update: seq<string>)
    ensures var c := NecessaryChanges(installed, upgradable, install, remove, update);
            && Set(c.toInstall) == (Set(install) - installed) + (Set(update) - installed - upgradable)
            && Set(c.toUpgrade) == Set(update) * upgradable
            && Set(c.toRemove) == Set(remove) * installed
  {
    FiltersAre(install, installed);
    FiltersAre(update, installed + upgradable);
    FiltersAre(update, upgradable);
    FiltersAre(remove, installed);
    SetPlus(Missing(install, installed), Missing(update, installed + upgradable));
  }

  lemma {:induction false} SetIsEmpty(names: seq<string>)
    ensures Set(names) == {} <==> names == []
  {
    assert names != [] ==> names[0] in Set(names);
  }

  /** Doing all the changes reaches the wanted state, also when the lists were too empty to ask for the names. */
  lemma {:induction false} ChangesReach(
    was: set<string>, newer: set<string>, have: set<string>, updates: set<string>,
    install: seq<string>, remove: seq<string>, update: seq<string>)
    requires install != [] || update != [] || remove != [] ==> have == was
    requires update != [] ==> updates == newer
    ensures var c := NecessaryChanges(have, updates, install, remove, update);
            && c == NecessaryChanges(was, newer, install, remove, update)
            && Set(c.toInstall) + Set(c.toUpgrade) <= Set(install) + Set(update) && Set(c.toRemove) <= Set(remove)
            && was + Set(c.toInstall) + Set(c.toUpgrade) - Set(c.toRemove) ==
               Reached(was, Set(install) + Set(update), Set(remove))
            && Set(c.toUpgrade) == Set(update) * newer
  {
    ChangesAre(have, updates, install, remove, update);
    SetIsEmpty(install);
    SetIsEmpty(update);
    SetIsEmpty(remove);
  }

  lemma {:induction false} FilterStep(names: seq<string>, i: nat, have: set<string>)
    requires i < |names|
    ensures Missing(names[..i + 1], have) == Missing(names[..i], have) + if names[i] in have then [] else [names[i]]
    ensures Present(names[..i + 1], have) == Present(names[..i], have) + if names[i] in have then [names[i]] else []
  {
    assert names[..i + 1][..i] == names[..i];
  }

  lemma {:induction false} MissingPush(names: seq<string>, x: string, have: set<string>)
    ensures Missing(names + [x], have) == if x in have then Missing(names, have) else Missing(names, have) + [x]
  {
    assert (names + [x])[..|names|] == names;
  }

  lemma {:induction false} PresentPush(names: seq<string>, x: string, have: set<string>)
    ensures Present(names + [x], have) == if x in have then Present(names, have) + [x] else Present(names, have)
  {
    assert (names + [x])[..|names|] == names;
  }

  /** Names are judged one by one and stay where they are: nothing is moved, doubled or lost. */
  lemma {:induction false} MissingConcat(a: seq<string>, b: seq<string>, have: set<string>)
    ensures Missing(a + b, have) == Missing(a, have) + Missing(b, have)
  {
    if b == [] {
      assert a + b == a;
    } else {
      var front, x := b[..|b| - 1], b[|b| - 1];
      MissingConcat(a, front, have);
      MissingPush(a + front, x, have);
      MissingPush(front, x, have);
      assert a + b == a + front + [x] && b == front + [x];
      hide Missing;
    }
  }

  lemma {:induction false} PresentConcat(a: seq<string>, b: seq<string>, have: set<string>)
    ensures Present(a + b, have) == Present(a, have) + Present(b, have)
  {
    if b == [] {
      assert a + b == a;
    } else {
      var front, x := b[..|b| - 1], b[|b| - 1];
      PresentConcat(a, front, have);
      PresentPush(a + front, x, have);
      PresentPush(front, x, have);
      assert a + b == a + front + [x] && b == front + [x];
      hide Present;
    }
  }

  /** getNecessaryChanges. */
  method GetNecessaryChanges(
    installedPkgs: seq<string>, upgradablePkgs: seq<string>,
    installPkgs: seq<string>, removePkgs: seq<string>, updatePkgs: seq<string>) returns (c: Changes)
    ensures c == NecessaryChanges(Set(installedPkgs), Set(upgradablePkgs), installPkgs, removePkgs, updatePkgs)
  {
    var installed, upgradable := Set(installedPkgs), Set(upgradablePkgs);
    var toInstall, toRemove, toUpgrade := [], [], [];
    for i := 0 to |installPkgs|
      invariant toInstall == Missing(installPkgs[..i], installed)
    {
      FilterStep(installPkgs, i, installed);
      if installPkgs[i] !in installed {
        toInstall := toInstall + [installPkgs[i]];
      }
    }
    assert installPkgs[..|installPkgs|] == installPkgs;
    for i := 0 to |removePkgs|
      invariant toRemove == Present(removePkgs[..i], installed)
    {
      FilterStep(removePkgs, i, installed);
      if removePkgs[i] in installed {
        toRemove := toRemove + [removePkgs[i]];
      }
    }
    assert removePkgs[..|removePkgs|] == removePkgs;
    for i := 0 to |updatePkgs|
      invariant toUpgrade == Present(updatePkgs[..i], upgradable)
      invariant toInstall == Missing(installPkgs, installed) + Missing(updatePkgs[..i], installed + upgradable)
    {
      FilterStep(updatePkgs, i, upgradable);
      FilterStep(updatePkgs, i, installed + upgradable);
      if updatePkgs[i] in upgradable {
        toUpgrade := toUpgrade + [updatePkgs[i]];
        continue;
      }
      if updatePkgs[i] !in installed {
        toInstall := toInstall + [updatePkgs[i]];
      }
    }
    assert updatePkgs[..|updatePkgs|] == updatePkgs;
    c := Changes(toInstall, toUpgrade, toRemove);
  }

  // ---------------------------------------------------------------- apt

  /** A failed command still has its effect for the names in `partial`. */
  datatype Reply = Reply(works: bool, partial: set<string>)

  class Apt {
    var installed: set<string>
    var upgradable: set<string>
    var calls: nat
    const replies: nat -> Reply

    constructor (installed: set<string>, upgradable: set<string>, replies: nat -> Reply)
      ensures this.installed == installed && this.upgradable == upgradable && this.replies == replies
    {
      this.installed, this.upgradable, this.replies, calls := installed, upgradable, replies, 0;
    }

    method Install(names: seq<string>) returns (ok: bool)
      modifies this
      ensures ok == replies(old(calls)).works && calls == old(calls) + 1
      ensures ok ==> installed == old(installed) + Set(names) && upgradable == old(upgradable) - Set(names)
      ensures old(installed) <= installed <= old(installed) + Set(names)
      ensures old(upgradable) - Set(names) <= upgradable <= old(upgradable)
    {
      var r := replies(calls);
      calls := calls + 1;
      ok := r.works;
      var done := if ok then Set(names) else Set(names) * r.partial;
      installed, upgradable := installed + done, upgradable - done;
    }

    method Remove(names: seq<string>) returns (ok: bool)
      modifies this
      ensures ok == replies(old(calls)).works && calls == old(calls) + 1
      ensures ok ==> installed == old(installed) - Set(names)
      ensures old(installed) - Set(names) <= installed <= old(installed)
      ensures upgradable <= old(upgradable)
    {
      var r := replies(calls);
      calls := calls + 1;
      ok := r.works;
      var done := if ok then Set(names) else Set(names) * r.partial;
      installed, upgradable := installed - done, upgradable - done;
    }

    /** The next `n` commands all work. */
    predicate AllWork(from: nat, n: nat) { forall k :: from <= k < from + n ==> replies(k).works }

    /** One by one, going on after failures. */
    method InstallEach(names: seq<string>) returns (errs: nat)
      modifies this
      ensures (errs == 0 <==> AllWork(old(calls), |names|)) && calls == old(calls) + |names|
      ensures old(installed) <= installed <= old(installed) + Set(names)
      ensures old(upgradable) - Set(names) <= upgradable <= old(upgradable)
      ensures errs == 0 ==> Set(names) <= installed
    {
      errs := 0;
      for i := 0 to |names|
        invariant calls == old(calls) + i && (errs == 0 <==> AllWork(old(calls), i))
        invariant old(installed) <= installed <= old(installed) + Set(names)
        invariant old(upgradable) - Set(names) <= upgradable <= old(upgradable)
        invariant errs == 0 ==> Set(names[..i]) <= installed
      {
        assert names[..i + 1] == names[..i] + [names[i]];
        SetPush(names[..i], names[i]);
        assert Set([names[i]]) == {names[i]};
        var ok := Install([names[i]]);
        if !ok {
          errs := errs + 1;
        }
      }
      assert names[..|names|] == names;
    }

    method RemoveEach(names: seq<string>) returns (errs: nat)
      modifies this
      ensures (errs == 0 <==> AllWork(old(calls), |names|)) && calls == old(calls) + |names|
      ensures old(installed) - Set(names) <= installed <= old(installed)
      ensures upgradable <= old(upgradable)
      ensures errs == 0 ==> Set(names) !! installed
    {
      errs := 0;
      for i := 0 to |names|
        invariant calls == old(calls) + i && (errs == 0 <==> AllWork(old(calls), i))
        invariant old(installed) - Set(names) <= installed <= old(installed)
        invariant upgradable <= old(upgradable)
        invariant errs == 0 ==> Set(names[..i]) !! installed
      {
        assert names[..i + 1] == names[..i] + [names[i]];
        SetPush(names[..i], names[i]);
        assert Set([names[i]]) == {names[i]};
        var ok := Remove([names[i]]);
        if !ok {
          errs := errs + 1;
        }
      }
      assert names[..|names|] == names;
    }

    /** All at once, and one by one if that fails. */
    method InstallAll(names: seq<string>) returns (ok: bool)
      modifies this
      ensures ok <==> replies(old(calls)).works || AllWork(old(calls) + 1, |names|)
      ensures calls == old(calls) + if replies(old(calls)).works then 1 else 1 + |names|
      ensures ok ==> installed == old(installed) + Set(names)
      ensures old(installed) <= installed <= old(installed) + Set(names)
      ensures old(upgradable) - Set(names) <= upgradable <= old(upgradable)
    {
      ok := Install(names);
      if !ok {
        var errs := InstallEach(names);
        ok := errs == 0;
      }
    }

    method RemoveAll(names: seq<string>) returns (ok: bool)
      modifies this
      ensures ok <==> replies(old(calls)).works || AllWork(old(calls) + 1, |names|)
      ensures calls == old(calls) + if replies(old(calls)).works then 1 else 1 + |names|
      ensures ok ==> installed == old(installed) - Set(names)
      ensures old(installed) - Set(names) <= installed <= old(installed)
      ensures upgradable <= old(upgradable)
    {
      ok := Remove(names);
      if !ok {
        var errs := RemoveEach(names);
        ok := errs == 0;
      }
    }

    /**
     The commands that these changes take, from the next one on: to install, all at once or
     one by one; to upgrade, all at once only; to remove, all at once or one by one.
     */
    predicate Works(c: Changes, next: nat) {
      var i, u, r := |c.toInstall|, |c.toUpgrade|, |c.toRemove|;
      var next' := next + if i == 0 then 0 else if replies(next).works then 1 else 1 + i;
      var next'' := next' + if u == 0 then 0 else 1;
      && (i == 0 || replies(next).works || AllWork(next + 1, i))
      && (u == 0 || replies(next').works)
      && (r == 0 || replies(next'').works || AllWork(next'' + 1, r))
    }

    /**
     aptChanges.  The queries list the names in some order, or fail.  When it returns no
     error the machine has exactly the wanted names added, and the unwanted ones removed that
     were there at the start.
     */
    method AptChanges(
      install: seq<string>, remove: seq<string>, update: seq<string>,
      listed: Option<seq<string>>, newer: Option<seq<string>>) returns (ok: bool)
      requires listed.Some? ==> Set(listed.value) == installed
      requires newer.Some? ==> Set(newer.value) == upgradable
      modifies this
      ensures ok ==> installed == Reached(old(installed), Set(install) + Set(update), Set(remove))
      ensures ok ==> upgradable !! Set(update)
      ensures old(installed) - Set(remove) <= installed <= old(installed) + Set(install) + Set(update)
      ensures ok <==>
                && (install != [] || update != [] || remove != [] ==> listed.Some?)
                && (update != [] ==> newer.Some?)
                && Works(NecessaryChanges(old(installed), old(upgradable), install, remove, update), old(calls))
    {
      var have: seq<string>, updates: seq<string> := [], [];
      if |install| > 0 || |update| > 0 || |remove| > 0 {
        if listed.None? {
          return false;
        }
        have := listed.value;
      }
      if |update| > 0 {
        if newer.None? {
          return false;
        }
        updates := newer.value;
      }
      var c := GetNecessaryChanges(have, updates, install, remove, update);
      ChangesReach(installed, upgradable, Set(have), Set(updates), install, remove, update);
      hide NecessaryChanges, Set, Reached, Apt.Works;
      ok := Apply(c);
    }

    /** The three kinds of change, each tried whatever became of those before. */
    method Apply(c: Changes) returns (ok: bool)
      modifies this
      ensures ok <==> Works(c, old(calls))
      ensures ok ==> installed == old(installed) + Set(c.toInstall) + Set(c.toUpgrade) - Set(c.toRemove)
      ensures ok ==> upgradable <= old(upgradable) - Set(c.toUpgrade)
      ensures old(installed) - Set(c.toRemove) <= installed <= old(installed) + Set(c.toInstall) + Set(c.toUpgrade)
    {
      SetIsEmpty(c.toInstall);
      SetIsEmpty(c.toUpgrade);
      SetIsEmpty(c.toRemove);
      hide Set, Apt.AllWork;
      var errs := 0;
      if c.toInstall != [] {
        // A failing apt-get update is only logged.
        var done := InstallAll(c.toInstall);
        if !done {
          errs := errs + 1;
        }
      }
      if c.toUpgrade != [] {
        var done := Install(c.toUpgrade);
        if !done {
          errs := errs + 1;
        }
      }
      if c.toRemove != [] {
        var done := RemoveAll(c.toRemove);
        if !done {
          errs := errs + 1;
        }
      }
      ok := errs == 0;
    }
  }

  /** The wanted names are added; the unwanted ones that were there are taken away. */
  function Reached(was: set<string>, wanted: set<string>, unwanted: set<string>): set<string> {
    (was + wanted) - (unwanted * was)
  }

  /** The machine is as wanted and nothing is left to do. */
  predicate Converged(
    installed: set<string>, upgradable: set<string>, install: seq<string>, remove: seq<string>, update: seq<string>)
  {
    && Set(install) + Set(update) <= installed
    && Set(remove) !! installed
    && NecessaryChanges(installed, upgradable, install, remove, update) == Changes([], [], [])
  }

  /** Where a run without errors ends is as wanted exactly when no name is both wanted and unwanted. */
  lemma {:induction false} ConvergesIffDisjoint(
    was: set<string>, upgradable: set<string>, install: seq<string>, remove: seq<string>, update: seq<string>)
    requires upgradable !! Set(update)
    ensures Converged(Reached(was, Set(install) + Set(update), Set(remove)), upgradable, install, remove, update)
            <==> Set(install) + Set(update) !! Set(remove)
  {
    var wanted, unwanted := Set(install) + Set(update), Set(remove);
    var now := Reached(was, wanted, unwanted);
    if wanted !! unwanted {
      ChangesAre(now, upgradable, install, remove, update);
      var c := NecessaryChanges(now, upgradable, install, remove, update);
      SetIsEmpty(c.toInstall);
      SetIsEmpty(c.toUpgrade);
      SetIsEmpty(c.toRemove);
    } else {
      var x :| x in wanted && x in unwanted;
      assert x in was ==> x !in now;
      assert x !in was ==> x in now;
    }
  }
}
