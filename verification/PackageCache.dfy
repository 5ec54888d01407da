/**
 The installed-package caches behind package resources: one cache per package manager, some
 of them over the same package database.  The world is the set of installed names in each
 database; a check may refill the cache of its manager, an enforcement empties it.
 */
module PackageCache {
  import opened Wrappers

  datatype Manager = Apt | Deb | GooGet | Msi | Yum | Zypper | Rpm

  datatype Database = Dpkg | RpmDb | GooDb | MsiDb

  datatype Desired = Installed | Removed | Unset

  datatype Answer = InDesiredState | NotInDesiredState | Error

  datatype Cache = Cache(names: Option<set<string>>, refreshed: int)

  /** A cache younger than this is not refilled. */
  const MAX_AGE := 180

  function DatabaseOf(m: Manager): Database {
    match m
    case Apt => Dpkg
    case Deb => Dpkg
    case GooGet => GooDb
    case Msi => MsiDb
    case Yum => RpmDb
    case Zypper => RpmDb
    case Rpm => RpmDb
  }

  /** Managers that install a package file ask for nothing but its presence. */
  function DesiredOf(m: Manager, d: Desired): Desired { if m.Deb? || m.Msi? || m.Rpm? then Installed else d }

  function NeedsFile(m: Manager): bool { m.Deb? || m.Msi? || m.Rpm? }

  function CacheOf(caches: map<Manager, Cache>, m: Manager): Cache {
    if m in caches then caches[m] else Cache(None, 0)
  }

  predicate Young(c: Cache, now: int) { c.names.Some? && c.refreshed > now - MAX_AGE }

  /** What a query of the truth would answer. */
  function Truth(d: Desired, present: bool): Answer {
    match d
    case Installed => if present then InDesiredState else NotInDesiredState
    case Removed => if present then NotInDesiredState else InDesiredState
    case Unset => Error
  }

  /** The cache after populating it, when the database answers `query`. */
  function Populated(c: Cache, now: int, query: Option<set<string>>): Option<Cache> {
    if Young(c, now) then Some(c)
    else if query.None? then None
    else Some(Cache(query, now))
  }

  // ---------------------------------------------------------------- the imperative code

  class InstalledCaches {
    var caches: map<Manager, Cache>

    constructor ()
      ensures caches == map[]
    {
      caches := map[];
    }

    /** populateInstalledCache: the list is copied name by name into a new map. */
    method PopulateInstalledCache(m: Manager, now: int, query: Option<seq<string>>) returns (ok: bool)
      modifies this
      ensures var was := CacheOf(old(caches), m);
              if m.Msi? || (was.names.Some? && was.refreshed > now - 180) then ok && caches == old(caches)
              else if query.None? then !ok && caches == old(caches)
              else ok && caches == old(caches)[m := Cache(Some(set x | x in query.value), now)]
    {
      if m.Msi? {
        return true;
      }
      var cache := CacheOf(caches, m);
      if cache.names.Some? && cache.refreshed > now - MAX_AGE {
        return true;
      }
      if query.None? {
        return false;
      }
      var names: set<string> := {};
      for i := 0 to |query.value|
        invariant names == set x | x in query.value[..i]
      {
        assert query.value[..i + 1] == query.value[..i] + [query.value[i]];
        names := names + {query.value[i]};
      }
      assert query.value[..|query.value|] == query.value;
      caches := caches[m := Cache(Some(names), now)];
      ok := true;
    }
  }

  /** A package resource; `localPath` remembers a downloaded file. */
  class PackageResource {
    const manager: Manager
    const name: string
    const desired: Desired
    var localPath: Option<string>

    constructor (manager: Manager, name: string, desired: Desired)
      ensures this.manager == manager && this.name == name && this.desired == desired && localPath == None
    {
      this.manager, this.name, this.desired, localPath := manager, name, desired, None;
    }

    /**
     checkState; an MSI package is looked up each time.  The answer is an error exactly when
     no state is asked for or there is nothing to look at, and otherwise compares the state
     with the young cache or with the query.
     */
    method CheckState(inst: InstalledCaches, now: int, query: Option<seq<string>>) returns (r: Answer)
      modifies inst
      ensures r == Checked(CacheOf(old(inst.caches), manager), manager, name, desired, now,
                           if query.None? then None else Some(set x | x in query.value))
      ensures forall o :: CacheOf(inst.caches, o) ==
                          if o == manager then AfterCheck(CacheOf(old(inst.caches), o), o, now,
                                                          if query.None? then None else Some(set x | x in query.value))
                          else CacheOf(old(inst.caches), o)
      ensures var c := CacheOf(old(inst.caches), manager);
              var file := manager.Deb? || manager.Msi? || manager.Rpm?;
              var cached := !manager.Msi? && c.names.Some? && c.refreshed > now - 180;
              && (r == Error <==> (!file && desired.Unset?) || (!cached && query.None?))
              && (r != Error ==>
                    (r == InDesiredState <==>
                       ((file || desired.Installed?) <==>
                          if cached then name in c.names.value else name in query.value)))
    {
      var ok := inst.PopulateInstalledCache(manager, now, query);
      if !ok {
        return Error;
      }
      var present: bool;
      if manager.Msi? {
        if query.None? {
          return Error;
        }
        present := name in query.value;
      } else {
        present := name in CacheOf(inst.caches, manager).names.value;
      }
      match DesiredOf(manager, desired) {
        case Installed => r := if present then InDesiredState else NotInDesiredState;
        case Removed => r := if present then NotInDesiredState else InDesiredState;
        case Unset => r := Error;
      }
    }

    /**
     enforceState up to its command: fetch the file unless it is there, find an installer,
     and only then empty the cache.  The caller runs the command after `Go`.  For a desired
     state that is not set there is no command, and calling it panics.
     */
    method EnforceState(inst: InstalledCaches, download: Option<string>, installer: bool) returns (r: Enforcement)
      modifies this, inst
      ensures r == if !Ready(manager, old(localPath), download, installer) then NotReady
                   else if DesiredOf(manager, desired).Unset? then Panic
                   else Go
      ensures forall o :: CacheOf(inst.caches, o) ==
                          if r != NotReady && o == manager then Emptied(o, CacheOf(old(inst.caches), o))
                          else CacheOf(old(inst.caches), o)
      ensures localPath == if NeedsFile(manager) && old(localPath).None? then download else old(localPath)
      ensures var file := manager.Deb? || manager.Msi? || manager.Rpm?;
              && (r == NotReady <==>
                    file && ((old(localPath).None? && download.None?) || (manager.Rpm? && !installer)))
              && (r == Panic <==> !file && desired.Unset?)
              && (r == NotReady ==> inst.caches == old(inst.caches))
              && (r != NotReady && !manager.Msi? ==> CacheOf(inst.caches, manager).names.None?)
    {
      var command := true;
      if NeedsFile(manager) {
        if localPath.None? {
          if download.None? {
            return NotReady;
          }
          localPath := download;
        }
        if manager.Rpm? && !installer {
          return NotReady;
        }
      } else {
        command := desired.Installed? || desired.Removed?;
      }
      if !manager.Msi? {
        inst.caches := inst.caches[manager := CacheOf(inst.caches, manager).(names := None)];
      }
      r := if command then Go else Panic;
    }
  }

  datatype Enforcement = NotReady | Panic | Go

  /** The file is there or can be fetched, and an RPM that pulls its dependencies has yum or zypper. */
  predicate Ready(m: Manager, local: Option<string>, download: Option<string>, installer: bool) {
    NeedsFile(m) ==> (local.Some? || download.Some?) && (m.Rpm? ==> installer)
  }

  function Emptied(m: Manager, c: Cache): Cache { if m.Msi? then c else c.(names := None) }

  function AfterCheck(c: Cache, m: Manager, now: int, query: Option<set<string>>): Cache {
    if m.Msi? || Populated(c, now, query).None? then c else Populated(c, now, query).value
  }

  function Checked(c: Cache, m: Manager, name: string, d: Desired, now: int, query: Option<set<string>>): Answer {
    if m.Msi? then (if query.None? then Error else Truth(Installed, name in query.value))
    else
      match Populated(c, now, query)
      case None => Error
      case Some(c') => Truth(DesiredOf(m, d), name in c'.names.value)
  }

  // ---------------------------------------------------------------- whole runs

  type World = map<Database, set<string>>

  function In(w: World, db: Database): set<string> { if db in w then w[db] else {} }

  datatype Op =
    | Check(m: Manager, name: string, desired: Desired, queryWorks: bool)
    | Enforce(m: Manager, ready: bool, after: set<string>)   // the command, working or not, leaves `after`
    | Outside(db: Database, after: set<string>)              // somebody else changes it
    | Pass(seconds: nat)

  datatype Moment = Moment(time: int, world: World)

  datatype Agent = Agent(now: int, world: World, caches: map<Manager, Cache>, past: seq<Moment>)

  function Query(a: Agent, m: Manager, works: bool): Option<set<string>> {
    if works then Some(In(a.world, DatabaseOf(m))) else None
  }

  function Step(a: Agent, op: Op): Agent {
    match op
    case Check(m, _, _, works) =>
      a.(caches := a.caches[m := AfterCheck(CacheOf(a.caches, m), m, a.now, Query(a, m, works))])
    case Enforce(m, ready, after) =>
      if !ready then a
      else a.(caches := a.caches[m := Emptied(m, CacheOf(a.caches, m))], world := a.world[DatabaseOf(m) := after])
    case Outside(db, after) => a.(world := a.world[db := after])
    case Pass(seconds) => a.(now := a.now + seconds)
  }

  function Remember(a: Agent): Agent { a.(past := a.past + [Moment(a.now, a.world)]) }

  function Run(now: int, world: World, ops: seq<Op>): Agent {
    if ops == [] then Remember(Agent(now, world, map[], []))
    else Remember(Step(Run(now, world, ops[..|ops| - 1]), ops[|ops| - 1]))
  }

  /** What a check would answer now. */
  function Says(a: Agent, m: Manager, name: string, d: Desired, works: bool): Answer {
    Checked(CacheOf(a.caches, m), m, name, d, a.now, Query(a, m, works))
  }

  predicate SnapshotOf(a: Agent, m: Manager, c: Cache, i: nat) {
    i < |a.past| && a.past[i].time == c.refreshed && c.names == Some(In(a.past[i].world, DatabaseOf(m)))
  }

  /** Every cache holds the database as it was when the cache was filled. */
  ghost predicate Snapshots(a: Agent) {
    && a.past != [] && a.past[|a.past| - 1] == Moment(a.now, a.world)
    && (forall m: Manager :: CacheOf(a.caches, m).names.Some? ==> exists i :: SnapshotOf(a, m, CacheOf(a.caches, m), i))
  }

  lemma {:induction false} StepKeepsSnapshots(a: Agent, op: Op)
    requires Snapshots(a)
    ensures Snapshots(Remember(Step(a, op)))
  {
    var b := Remember(Step(a, op));
    forall m: Manager | CacheOf(b.caches, m).names.Some?
      ensures exists i :: SnapshotOf(b, m, CacheOf(b.caches, m), i)
    {
      if CacheOf(b.caches, m) == CacheOf(a.caches, m) {
        var i :| SnapshotOf(a, m, CacheOf(a.caches, m), i);
        assert SnapshotOf(b, m, CacheOf(b.caches, m), i);
      } else {
        assert SnapshotOf(b, m, CacheOf(b.caches, m), |b.past| - 1);
      }
    }
  }

  lemma {:induction false} RunKeepsSnapshots(now: int, world: World, ops: seq<Op>)
    ensures Snapshots(Run(now, world, ops))
  {
    if ops != [] {
      RunKeepsSnapshots(now, world, ops[..|ops| - 1]);
      hide Snapshots, Step;
      StepKeepsSnapshots(Run(now, world, ops[..|ops| - 1]), ops[|ops| - 1]);
    }
  }

  /** The moment whose database a check made now would look at: when the cache was filled, or now. */
  ghost predicate LooksAt(a: Agent, m: Manager, i: nat) {
    if m.Msi? || !Young(CacheOf(a.caches, m), a.now) then i == |a.past| - 1
    else SnapshotOf(a, m, CacheOf(a.caches, m), i)
  }

  /**
   Whatever else changes the machine, an answer that is not an error is what a query of the
   database would have said at some moment less than three minutes ago.
   */
  lemma {:induction false} AnswersAreRecent(
    now: int, world: World, ops: seq<Op>, m: Manager, name: string, d: Desired, works: bool) returns (i: nat)
    requires Says(Run(now, world, ops), m, name, d, works) != Error
    ensures var a := Run(now, world, ops);
            && LooksAt(a, m, i) && i < |a.past| && a.past[i].time > a.now - 180
            && (Says(a, m, name, d, works) == InDesiredState <==>
                  ((m.Deb? || m.Msi? || m.Rpm? || d.Installed?) <==> name in In(a.past[i].world, DatabaseOf(m))))
  {
    hide Run;
    RunKeepsSnapshots(now, world, ops);
    var a := Run(now, world, ops);
    if m.Msi? || !Young(CacheOf(a.caches, m), a.now) {
      i := |a.past| - 1;
    } else {
      i :| SnapshotOf(a, m, CacheOf(a.caches, m), i);
    }
  }

  /** A check fails exactly without a state to ask for, or when it needs the database and cannot query it. */
  lemma {:induction false} ErrorsAre(
    now: int, world: World, ops: seq<Op>, m: Manager, name: string, d: Desired, works: bool)
    ensures var a := Run(now, world, ops);
            var c := CacheOf(a.caches, m);
            Says(a, m, name, d, works) == Error <==>
              || (!(m.Deb? || m.Msi? || m.Rpm?) && d.Unset?)
              || (!works && (m.Msi? || c.names.None? || c.refreshed <= a.now - 180))
  {
    hide Run;
  }

  /** apt and dpkg share a database, and so do yum, zypper and rpm; no others do. */
  lemma {:induction false} SharedDatabases(m: Manager, o: Manager)
    ensures DatabaseOf(m) == DatabaseOf(o) <==>
            m == o || {m, o} <= {Apt, Deb} || {m, o} <= {Yum, Zypper, Rpm}
  {
    assert m in {m, o} && o in {m, o};
  }

  /**
   After any operations, by any managers and by others: an answer is true now exactly when
   the name is now as present as it was at the moment the check looks at.
   */
  lemma {:induction false} AnswerIsTrueIff(
    now: int, world: World, ops: seq<Op>, m: Manager, name: string, d: Desired, works: bool, i: nat)
    requires Says(Run(now, world, ops), m, name, d, works) != Error && LooksAt(Run(now, world, ops), m, i)
    ensures var a := Run(now, world, ops);
            && i < |a.past|
            && ((Says(a, m, name, d, works) == InDesiredState <==>
                   ((m.Deb? || m.Msi? || m.Rpm? || d.Installed?) <==> name in In(a.world, DatabaseOf(m))))
                <==> (name in In(a.past[i].world, DatabaseOf(m)) <==> name in In(a.world, DatabaseOf(m))))
  {
    hide Run;
    RunKeepsSnapshots(now, world, ops);
  }

  /** The operation leaves the database of `m` alone, or is an enforcement by `m` itself. */
  predicate OnlyThrough(op: Op, m: Manager) {
    match op
    case Enforce(o, _, _) => DatabaseOf(o) == DatabaseOf(m) ==> o == m
    case Outside(db, _) => db != DatabaseOf(m)
    case _ => true
  }

  lemma {:induction false} RunIsExact(now: int, world: World, ops: seq<Op>, m: Manager)
    requires forall k :: 0 <= k < |ops| ==> OnlyThrough(ops[k], m)
    ensures var a := Run(now, world, ops);
            var c := CacheOf(a.caches, m);
            c.names.Some? && !m.Msi? ==> c.names.value == In(a.world, DatabaseOf(m))
  {
    if ops != [] {
      var before := ops[..|ops| - 1];
      RunIsExact(now, world, before, m);
      assert OnlyThrough(ops[|ops| - 1], m);
    }
  }

  /** A database changed through one manager only is always answered for as a direct query would. */
  lemma {:induction false} AnswersAreExact(
    now: int, world: World, ops: seq<Op>, m: Manager, name: string, d: Desired, works: bool)
    requires forall k :: 0 <= k < |ops| ==> OnlyThrough(ops[k], m)
    requires Says(Run(now, world, ops), m, name, d, works) != Error
    ensures var a := Run(now, world, ops);
            Says(a, m, name, d, works) == InDesiredState <==>
              ((m.Deb? || m.Msi? || m.Rpm? || d.Installed?) <==> name in In(a.world, DatabaseOf(m)))
  {
    hide Run;
    RunIsExact(now, world, ops, m);
  }

  /**
   An instance: a second manager over the same database, such as dpkg beside apt, leaves the
   cache just filled alone, so the answer is right exactly for names that did not change,
   until the cache ages.
   */
  lemma {:induction false} OtherManagerMisleads(
    now: int, world: World, m: Manager, o: Manager, name: string, d: Desired, after: set<string>, wait: nat)
    requires o != m && DatabaseOf(o) == DatabaseOf(m) && DesiredOf(m, d) != Unset
    ensures var a := Run(now, world, [Check(m, name, d, true), Enforce(o, true, after), Pass(wait)]);
            (Says(a, m, name, d, true) == InDesiredState <==>
               ((m.Deb? || m.Msi? || m.Rpm? || d.Installed?) <==> name in In(a.world, DatabaseOf(m))))
            <==> wait >= 180 || (name in after <==> name in In(world, DatabaseOf(m)))
  {
    var ops := [Check(m, name, d, true), Enforce(o, true, after), Pass(wait)];
    assert ops[..2] == [Check(m, name, d, true), Enforce(o, true, after)];
    assert ops[..2][..1] == [Check(m, name, d, true)];
    assert ops[..2][..1][..0] == [];
    var first := Run(now, world, []);
    var second := Run(now, world, ops[..2][..1]);
    assert CacheOf(second.caches, m) == Cache(Some(In(world, DatabaseOf(m))), now);
    var third := Run(now, world, ops[..2]);
    assert CacheOf(third.caches, m) == CacheOf(second.caches, m);
  }
}
