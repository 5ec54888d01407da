/** The recipe database and the decision to install, update or skip a recipe. */
module Recipes {
  import opened RecipeVersion

  datatype Entry = Entry(name: string, version: Version, installTime: int, success: bool)

  type Database = map<string, Entry>

  /** The file holds a list of entries; it may be missing or unreadable. */
  datatype File = Missing | Unreadable | Entries(list: seq<Entry>)

  /** The map a list stands for: of entries with one name the last one counts. */
  function FromList(list: seq<Entry>): Database {
    if list == [] then map[]
    else
      var last := list[|list| - 1];
      FromList(list[..|list| - 1])[last.name := last]
  }

  /** Each entry is filed under its own name. */
  predicate Filed(db: Database) { forall name :: name in db ==> db[name].name == name }

  function Contents(f: File): Database {
    match f
    case Entries(list) => FromList(list)
    case _ => map[]
  }

  lemma {:induction false} FromListIsFiled(list: seq<Entry>)
    ensures Filed(FromList(list))
  {
    if list != [] {
      FromListIsFiled(list[..|list| - 1]);
    }
  }

  lemma {:induction false} FromListPush(list: seq<Entry>, e: Entry)
    ensures FromList(list + [e]) == FromList(list)[e.name := e]
  {
    assert (list + [e])[..|list|] == list;
  }

  // ---------------------------------------------------------------- a recipe

  /** The copy of a recipe that InstallRecipe compares with the wanted version. */
  class Recipe {
    var version: Version

    constructor (version: Version)
      ensures this.version == version
    {
      this.version := version;
    }

    /** compare pads both versions, its own in place. */
    method Compare(wanted: string) returns (newer: bool)
      modifies this
      ensures newer <==> wanted != "" && Convert(wanted).Some? && Less(old(version), Convert(wanted).value)
      ensures forall i: nat :: At(version, i) == At(old(version), i)
    {
      if wanted == "" {
        return false;
      }
      var converted := ConvertVersion(wanted);
      if converted.None? {
        return false;
      }
      var c := converted.value;
      ghost var v0, c0 := version, c;
      if |version| > |c| {
        c := PadTo(c, |version|);
      } else {
        version := PadTo(version, |c|);
      }
      var i := 0;
      while i < |version|
        invariant i <= |version| == |c|
        invariant forall k: nat :: k < i ==> At(v0, k) == At(c0, k)
      {
        assert At(version, i) == At(v0, i) && At(c, i) == At(c0, i);
        if version[i] != c[i] {
          assert LessAt(v0, c0, i) || LessAt(c0, v0, i);
          Trichotomy(v0, c0);
          return c[i] > version[i];
        }
        i := i + 1;
      }
      forall k: nat
        ensures At(v0, k) == At(c0, k)
      {
        assert At(version, k) == At(v0, k) && At(c, k) == At(c0, k);
      }
      return false;
    }
  }

  method PadTo(v: Version, n: nat) returns (w: Version)
    requires |v| <= n
    ensures |w| == n && forall i: nat :: At(w, i) == At(v, i)
  {
    w := v;
    for k := 0 to n - |v|
      invariant |w| == |v| + k && forall i: nat :: At(w, i) == At(v, i)
    {
      w := w + [0];
    }
  }

  // ---------------------------------------------------------------- the database

  /** One run's view of the database: the map it read, and the file. */
  class RecipeDB {
    var db: Database
    var file: File

    constructor (file: File)
      ensures this.file == file && db == map[]
    {
      this.file, db := file, map[];
    }

    /** newRecipeDB. */
    method Load() returns (ok: bool)
      modifies this
      ensures file == old(file) && (ok <==> !file.Unreadable?)
      ensures ok ==> db == Contents(file) && Filed(db)
    {
      db := map[];
      if file.Missing? {
        return true;
      }
      if file.Unreadable? {
        return false;
      }
      for i := 0 to |file.list|
        invariant file == old(file) && file.Entries? && db == FromList(file.list[..i])
      {
        assert file.list[..i + 1] == file.list[..i] + [file.list[i]];
        FromListPush(file.list[..i], file.list[i]);
        db := db[file.list[i].name := file.list[i]];
      }
      assert file.list[..|file.list|] == file.list;
      FromListIsFiled(file.list);
      ok := true;
    }

    /** addRecipe: the map is listed in any order and the list replaces the file, if it can be written. */
    method AddRecipe(name: string, version: string, success: bool, now: int, written: bool) returns (ok: bool)
      requires Filed(db) && file != Unreadable && Contents(file) == db
      modifies this
      ensures ok <==> Convert(version).Some? && written
      ensures file != Unreadable
      ensures Contents(file) ==
              if ok then old(db)[name := Entry(name, Convert(version).value, now, success)] else old(db)
    {
      var versionNum := ConvertVersion(version);
      if versionNum.None? {
        return false;
      }
      db := db[name := Entry(name, versionNum.value, now, success)];
      var recipelist := List(db);
      if !written {
        return false;
      }
      file := Entries(recipelist);
      ok := true;
    }
  }

  /** The entries filed under all but these names. */
  function Without(db: Database, names: set<string>): Database { map name | name in db && name !in names :: db[name] }

  lemma {:induction false} OneMoreListed(list: seq<Entry>, db: Database, names: set<string>, name: string)
    requires Filed(db) && name in names && names <= db.Keys && FromList(list) == Without(db, names)
    ensures FromList(list + [db[name]]) == Without(db, names - {name})
  {
    FromListPush(list, db[name]);
    hide FromList;
  }

  /** The entries of a map, one after the other in no particular order. */
  method List(db: Database) returns (list: seq<Entry>)
    requires Filed(db)
    ensures FromList(list) == db
  {
    list := [];
    var names := db.Keys;
    assert FromList([]) == Without(db, names);
    hide FromList, Without, Filed;
    while names != {}
      invariant names <= db.Keys
      invariant FromList(list) == Without(db, names)
      decreases |names|
    {
      var name :| name in names;
      OneMoreListed(list, db, names, name);
      list := list + [db[name]];
      names := names - {name};
    }
    AllListed(db);
  }

  lemma {:induction false} AllListed(db: Database)
    ensures Without(db, {}) == db
  {
  }

  // ---------------------------------------------------------------- installing

  datatype Desired = Installed | Updated | OtherState

  /** A step's directory cannot be made; the step fails; or it works. */
  datatype StepResult = NoDirectory | StepFails | StepWorks

  datatype Request = Request(name: string, version: string, desired: Desired)

  /** What the outside world answers during one call. */
  datatype Answers = Answers(
    prepared: bool,                    // base directory and artifacts
    install: seq<StepResult>,
    update: seq<StepResult>,
    now: int,
    written: bool)

  datatype Run = AllRan | Stopped | Recorded

  /** How far the steps get: all of them, a step without directory, or a failed step that is recorded. */
  function RunOf(steps: seq<StepResult>): Run {
    if steps == [] then AllRan
    else
      match steps[0]
      case NoDirectory => Stopped
      case StepFails => Recorded
      case StepWorks => RunOf(steps[1..])
  }

  predicate Upgrades(e: Entry, r: Request) {
    r.desired.Updated? && r.version != "" && Convert(r.version).Some? && LessThan(e.version, Convert(r.version).value)
  }

  /** An executable form of Less on versions that have at most four components. */
  predicate LessThan(v: Version, w: Version) {
    exists i :: 0 <= i < |w| && At(v, i) < At(w, i) && forall k :: 0 <= k < i ==> At(v, k) == At(w, k)
  }

  lemma {:induction false} LessThanIsLess(v: Version, w: Version)
    ensures LessThan(v, w) <==> Less(v, w)
  {
    if LessThan(v, w) {
      var i :| 0 <= i < |w| && At(v, i) < At(w, i) && forall k :: 0 <= k < i ==> At(v, k) == At(w, k);
      assert LessAt(v, w, i);
    }
    if Less(v, w) {
      var i: nat :| LessAt(v, w, i);
      assert i < |w|;
    }
  }

  /** What one call leaves in the database. */
  function AfterInstall(db: Database, r: Request, a: Answers): Database {
    if r.name in db && !Upgrades(db[r.name], r) then db
    else if !a.prepared then db
    else
      var run := RunOf(if r.name in db then a.update else a.install);
      if run.Stopped? || Convert(r.version).None? || !a.written then db
      else db[r.name := Entry(r.name, Convert(r.version).value, a.now, run.AllRan?)]
  }

  /** The call reports success: there was nothing to do, or every step worked and was recorded. */
  predicate Succeeds(db: Database, r: Request, a: Answers) {
    if r.name in db && !Upgrades(db[r.name], r) then true
    else
      && a.prepared && RunOf(if r.name in db then a.update else a.install).AllRan?
      && Convert(r.version).Some? && a.written
  }

  /**
   What a call promises, said of the steps one by one.  A recipe is worked on when it is not
   recorded, or when an update to a newer version is asked for; a known recipe takes the
   update steps.  It is recorded when all steps before the first that does not work have
   worked and that one failed, or all have, and only then; the call succeeds when there was
   nothing to do or everything worked and was recorded.
   */
  ghost predicate Installs(db: Database, r: Request, a: Answers, after: Database, ok: bool) {
    var v := Convert(r.version);
    var known := r.name in db;
    var wanted := !known || (r.desired == Updated && r.version != "" && v.Some? && Less(db[r.name].version, v.value));
    var steps := if known then a.update else a.install;
    var recorded := wanted && a.prepared && (AllWork(steps) || FailsFirst(steps)) && v.Some? && a.written;
    && after == (if recorded then db[r.name := Entry(r.name, v.value, a.now, AllWork(steps))] else db)
    && (ok <==> !wanted || (recorded && AllWork(steps)))
  }

  ghost predicate AllWork(steps: seq<StepResult>) { forall i :: 0 <= i < |steps| ==> steps[i] == StepWorks }

  /** Some step fails, and all before it work. */
  ghost predicate FailsFirst(steps: seq<StepResult>) {
    exists i :: 0 <= i < |steps| && steps[i] == StepFails && forall k :: 0 <= k < i ==> steps[k] == StepWorks
  }

  lemma {:induction false} RunMeans(steps: seq<StepResult>)
    ensures RunOf(steps).AllRan? <==> AllWork(steps)
    ensures RunOf(steps).Recorded? <==> FailsFirst(steps)
  {
    if steps != [] {
      var rest := steps[1..];
      RunMeans(rest);
      assert forall i :: 0 < i < |steps| ==> steps[i] == rest[i - 1];
      if i :| 0 <= i < |rest| && rest[i] == StepFails && forall k :: 0 <= k < i ==> rest[k] == StepWorks {
        assert steps[i + 1] == StepFails;
        assert steps[0] == StepWorks ==> forall k :: 0 <= k < i + 1 ==> steps[k] == StepWorks;
      }
      if i :| 0 <= i < |steps| && steps[i] == StepFails && forall k :: 0 <= k < i ==> steps[k] == StepWorks {
        if i > 0 {
          assert rest[i - 1] == StepFails && steps[0] == StepWorks;
          assert forall k :: 0 <= k < i - 1 ==> rest[k] == steps[k + 1];
        }
      }
    }
  }

  lemma {:induction false} InstallMeans(db: Database, r: Request, a: Answers)
    ensures Installs(db, r, a, AfterInstall(db, r, a), Succeeds(db, r, a))
  {
    hide RunOf, AllWork, FailsFirst, Less, LessThan, Convert;
    RunMeans(a.install);
    RunMeans(a.update);
    if r.name in db && Convert(r.version).Some? {
      LessThanIsLess(db[r.name].version, Convert(r.version).value);
    }
  }

  /** InstallRecipe. */
  method InstallRecipe(store: RecipeDB, r: Request, a: Answers) returns (ok: bool)
    modifies store
    ensures old(store.file).Unreadable? ==> store.file.Unreadable?
    ensures !old(store.file).Unreadable? ==>
              !store.file.Unreadable? && Contents(store.file) == AfterInstall(Contents(old(store.file)), r, a)
    ensures ok <==> !old(store.file).Unreadable? && Succeeds(Contents(old(store.file)), r, a)
    ensures !old(store.file).Unreadable? ==>
              Installs(Contents(old(store.file)), r, a, Contents(store.file), ok)
  {
    InstallMeans(Contents(store.file), r, a);
    hide Installs;
    var loaded := store.Load();
    if !loaded {
      return false;
    }
    var steps := a.install;
    if r.name in store.db {
      var installed := new Recipe(store.db[r.name].version);
      LessThanIsLess(store.db[r.name].version, if Convert(r.version).Some? then Convert(r.version).value else []);
      var newer := installed.Compare(r.version);
      if newer && r.desired.Updated? {
        steps := a.update;
      } else {
        return true;
      }
    }
    if !a.prepared {
      return false;
    }
    for i := 0 to |steps|
      invariant store.file == old(store.file) && store.db == Contents(store.file) && Filed(store.db)
      invariant RunOf(steps) == RunOf(steps[i..])
    {
      assert steps[i..][1..] == steps[i + 1..];
      if steps[i].NoDirectory? {
        return false;
      }
      if steps[i].StepFails? {
        var _ := store.AddRecipe(r.name, r.version, false, a.now, a.written);
        return false;
      }
    }
    ok := store.AddRecipe(r.name, r.version, true, a.now, a.written);
  }

  // ---------------------------------------------------------------- over many calls

  function AfterCalls(db: Database, calls: seq<(Request, Answers)>): Database {
    if calls == [] then db
    else
      var last := calls[|calls| - 1];
      AfterInstall(AfterCalls(db, calls[..|calls| - 1]), last.0, last.1)
  }

  /**
   Whatever is asked for, fails or cannot be written: a recorded recipe stays recorded, and its
   entry is either untouched or has a strictly greater version.
   */
  lemma {:induction false} VersionsOnlyGrow(db: Database, calls: seq<(Request, Answers)>, name: string)
    requires name in db
    ensures var after := AfterCalls(db, calls);
            name in after && (after[name] == db[name] || Less(db[name].version, after[name].version))
  {
    if calls != [] {
      var front := calls[..|calls| - 1];
      var (r, a) := calls[|calls| - 1];
      VersionsOnlyGrow(db, front, name);
      var before, after := AfterCalls(db, front), AfterCalls(db, calls);
      if after[name] != before[name] {
        LessThanIsLess(before[name].version, Convert(r.version).value);
        if before[name] != db[name] {
          LessIsTransitive(db[name].version, before[name].version, after[name].version);
        }
      }
    }
  }

  /** The database does not make InstallRecipe skip the request. */
  predicate WorksOn(db: Database, r: Request) { r.name !in db || Upgrades(db[r.name], r) }

  /** The failure of a step was written to the database. */
  predicate FailureIsRecorded(db: Database, r: Request, a: Answers) {
    && WorksOn(db, r) && a.prepared && RunOf(if r.name in db then a.update else a.install).Recorded?
    && Convert(r.version).Some? && a.written
  }

  /**
   The same request is worked on again exactly when the call neither succeeded nor recorded
   the failure of a step: a recorded failure is final for its version.
   */
  lemma {:induction false} RetriedUnlessRecorded(db: Database, r: Request, a: Answers)
    ensures WorksOn(AfterInstall(db, r, a), r) <==> !Succeeds(db, r, a) && !FailureIsRecorded(db, r, a)
  {
    if WorksOn(db, r) && AfterInstall(db, r, a) != db {
      var v := Convert(r.version).value;
      assert !LessThan(v, v);
    }
  }

  /** What is not worked on again stays as it is for ever, whatever is answered. */
  lemma {:induction false} SkippedIsUntouched(db: Database, r: Request, again: seq<Answers>)
    requires !WorksOn(db, r)
    ensures AfterCalls(db, seq(|again|, k requires 0 <= k < |again| => (r, again[k]))) == db
  {
    if again != [] {
      var front := again[..|again| - 1];
      var calls := seq(|again|, k requires 0 <= k < |again| => (r, again[k]));
      assert calls[..|calls| - 1] == seq(|front|, k requires 0 <= k < |front| => (r, front[k]));
      SkippedIsUntouched(db, r, front);
    }
  }
}
