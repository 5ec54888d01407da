/** Which patches and packages a zypper patch run hands to the installer. */
module ZypperPatch {
  import opened Wrappers
  import opened ZypperInfo
  import opened ZypperRoundTrip
  import opened ZypperFaults

  datatype Options = Options(exclusive: seq<string>, withUpdate: bool, dryRun: bool)

  /** Patches and packages are their names. */
  datatype Choice = Choice(patches: seq<string>, pkgs: seq<string>)

  datatype Outcome = Failed | Panicked | NothingToDo | DryRun(would: Choice) | Install(chosen: Choice)

  /** The names that satisfy `p`, in order. */
  function Keep(names: seq<string>, p: string -> bool): seq<string> {
    if names == [] then []
    else Keep(names[..|names| - 1], p) + if p(names[|names| - 1]) then [names[|names| - 1]] else []
  }

  lemma {:induction false} KeepTakes(names: seq<string>, p: string -> bool, x: string)
    ensures x in Keep(names, p) <==> x in names && p(x)
  {
    if names != [] {
      KeepTakes(names[..|names| - 1], p, x);
    }
  }

  lemma {:induction false} KeepPush(names: seq<string>, x: string, p: string -> bool)
    ensures Keep(names + [x], p) == if p(x) then Keep(names, p) + [x] else Keep(names, p)
  {
    assert (names + [x])[..|names|] == names;
  }

  /** Names are judged one by one and stay where they are: nothing is moved, doubled or lost. */
  lemma {:induction false} KeepConcat(a: seq<string>, b: seq<string>, p: string -> bool)
    ensures Keep(a + b, p) == Keep(a, p) + Keep(b, p)
  {
    if b == [] {
      assert a + b == a;
    } else {
      var front, x := b[..|b| - 1], b[|b| - 1];
      KeepConcat(a, front, p);
      KeepPush(a + front, x, p);
      KeepPush(front, x, p);
      assert a + b == a + front + [x] && b == front + [x];
    }
  }

  function Among(names: seq<string>): string -> bool { x => x in names }

  function Not(p: string -> bool): string -> bool { x => !p(x) }

  function Outside(info: Info): string -> bool { x => x !in info }

  function Unbrought(blobs: seq<Blob>): string -> bool { x => !Brings(blobs, x) }

  /** Some patch's blob has a line for the package. */
  predicate Brings(blobs: seq<Blob>, name: string) {
    exists k, j :: 0 <= k < |blobs| && 0 <= j < |blobs[k].pkgs| && blobs[k].pkgs[j].name == name
  }

  /** The selection, with the map from packages to patches that was parsed. */
  function Selection(
    patches: seq<string>, o: Options, excluded: string -> bool, updates: seq<string>, info: Info): Choice
  {
    if o.exclusive != [] then Choice(Keep(patches, Among(o.exclusive)), [])
    else Choice(Keep(patches, Not(excluded)), if o.withUpdate then Keep(updates, Outside(info)) else [])
  }

  lemma {:induction false} KeepStep(names: seq<string>, i: nat, p: string -> bool)
    requires i < |names|
    ensures Keep(names[..i + 1], p) == Keep(names[..i], p) + if p(names[i]) then [names[i]] else []
  {
    assert names[..i + 1][..i] == names[..i];
  }

  method KeepLoop(names: seq<string>, p: string -> bool) returns (kept: seq<string>)
    ensures kept == Keep(names, p)
  {
    kept := [];
    for i := 0 to |names|
      invariant kept == Keep(names[..i], p)
    {
      KeepStep(names, i, p);
      if p(names[i]) {
        kept := kept + [names[i]];
      }
    }
    assert names[..|names|] == names;
  }

  /** runFilter. */
  method RunFilter(
    patches: seq<string>, exclusive: seq<string>, excluded: string -> bool,
    updates: seq<string>, info: Info, withUpdate: bool) returns (fPatches: seq<string>, fPkgs: seq<string>)
    ensures Choice(fPatches, fPkgs) ==
            Selection(patches, Options(exclusive, withUpdate, false), excluded, updates, info)
  {
    fPatches, fPkgs := [], [];
    if |exclusive| > 0 {
      fPatches := KeepLoop(patches, Among(exclusive));
      return;
    }
    if withUpdate {
      fPkgs := KeepLoop(updates, Outside(info));
    }
    fPatches := KeepLoop(patches, Not(excluded));
  }

  // ---------------------------------------------------------------- the run

  /** What a run does, given the answers of its three queries; None is a failed query. */
  function Plan(
    o: Options, excluded: string -> bool,
    patches: Option<seq<string>>, updates: Option<seq<string>>, infoText: Option<string>): Outcome
  {
    if patches.None? || (o.withUpdate && updates.None?) then Failed
    else if !o.withUpdate then Choose(o, Selection(patches.value, o, excluded, [], map[]))
    else if patches.value == [] then Choose(o, Selection([], o, excluded, updates.value, map[]))
    else if infoText.None? then Failed
    else Decide(o, excluded, patches.value, updates.value, Result(ScanFrom(Lines(infoText.value), 0)))
  }

  /** The rest of the run once the patch information is parsed; a nil map is looked up like an empty one. */
  function Decide(
    o: Options, excluded: string -> bool,
    patches: seq<string>, updates: seq<string>, parsed: ZypperInfo.Outcome): Outcome
  {
    match parsed
    case Error => Failed
    case Panic => Panicked
    case NilMap => Choose(o, Selection(patches, o, excluded, updates, map[]))
    case Parsed(info) => Choose(o, Selection(patches, o, excluded, updates, info))
  }

  function Choose(o: Options, c: Choice): Outcome {
    if c.patches == [] && c.pkgs == [] then NothingToDo else if o.dryRun then DryRun(c) else Install(c)
  }

  /** ZypperPackagesInPatch: without patches nothing is asked. */
  method PackagesInPatch(patches: seq<string>, infoText: Option<string>) returns (r: ZypperInfo.Outcome)
    requires infoText.Some? ==> |Lines(infoText.value)| <= MAX_INT
    ensures r == if patches == [] then Parsed(map[])
                 else if infoText.None? then Error
                 else Result(ScanFrom(Lines(infoText.value), 0))
  {
    if |patches| == 0 {
      return Parsed(map[]);
    }
    if infoText.None? {
      return Error;
    }
    r := ParseZypperPatchInfo(infoText.value);
  }

  /** The text parses into a map that has the package. */
  predicate Listing(text: string, pkg: string) {
    var parsed := Result(ScanFrom(Lines(text), 0));
    parsed.Parsed? && pkg in parsed.info
  }

  /** What the run would install. */
  function Chosen(r: Outcome): Choice {
    match r
    case DryRun(c) => c
    case Install(c) => c
    case _ => Choice([], [])
  }

  /** Membership in the selection, whatever the map. */
  lemma {:induction false} SelectionTakes(
    patches: seq<string>, o: Options, excluded: string -> bool, updates: seq<string>, info: Info, x: string)
    ensures var c := Selection(patches, o, excluded, updates, info);
            && (x in c.patches <==> x in patches && if o.exclusive != [] then x in o.exclusive else !excluded(x))
            && (x in c.pkgs <==> o.exclusive == [] && o.withUpdate && x in updates && x !in info)
  {
    hide Keep;
    KeepTakes(patches, Among(o.exclusive), x);
    KeepTakes(patches, Not(excluded), x);
    KeepTakes(updates, Outside(info), x);
  }

  lemma {:induction false} ChooseKeeps(o: Options, c: Choice)
    ensures var r := Choose(o, c);
            && Chosen(r) == c && !r.Failed? && !r.Panicked?
            && (r.NothingToDo? <==> c.patches == [] && c.pkgs == [])
  {
  }

  lemma {:induction false} PlanSelects(
    o: Options, excluded: string -> bool,
    patches: Option<seq<string>>, updates: Option<seq<string>>, infoText: Option<string>)
    ensures var r := Plan(o, excluded, patches, updates, infoText);
            !r.Failed? && !r.Panicked? ==>
              && (r.NothingToDo? <==> Chosen(r).patches == [] && Chosen(r).pkgs == [])
              && (forall x :: x in Chosen(r).patches <==>
                    x in patches.value && if o.exclusive != [] then x in o.exclusive else !excluded(x))
              && (forall x :: x in Chosen(r).pkgs <==>
                    && o.exclusive == [] && o.withUpdate && x in updates.value
                    && !(patches.value != [] && Listing(infoText.value, x)))
  {
    var r := Plan(o, excluded, patches, updates, infoText);
    hide Choose, Chosen, Selection, Lines, ScanFrom, Result;
    if !r.Failed? && !r.Panicked? {
      var parsed := if o.withUpdate && patches.value != [] then Result(ScanFrom(Lines(infoText.value), 0)) else NilMap;
      var info := if parsed.Parsed? then parsed.info else map[];
      var ups := if o.withUpdate then updates.value else [];
      ChooseKeeps(o, Selection(patches.value, o, excluded, ups, info));
      forall x
        ensures var c := Selection(patches.value, o, excluded, ups, info);
                && (x in c.patches <==>
                      x in patches.value && if o.exclusive != [] then x in o.exclusive else !excluded(x))
                && (x in c.pkgs <==> o.exclusive == [] && o.withUpdate && x in ups && x !in info)
      {
        SelectionTakes(patches.value, o, excluded, ups, info, x);
      }
    }
  }

  /** RunZypperPatch, up to the call of zypper install. */
  method RunZypperPatch(
    o: Options, excluded: string -> bool,
    patches: Option<seq<string>>, updates: Option<seq<string>>, infoText: Option<string>) returns (r: Outcome)
    requires infoText.Some? ==> |Lines(infoText.value)| <= MAX_INT
    ensures r == Plan(o, excluded, patches, updates, infoText)
    ensures var asked := o.withUpdate && patches.Some? && updates.Some? && patches.value != [];
            && (r.Failed? <==>
                  || patches.None? || (o.withUpdate && updates.None?)
                  || (asked && (infoText.None? || Result(ScanFrom(Lines(infoText.value), 0)).Error?)))
            && (r.Panicked? <==> asked && infoText.Some? && Result(ScanFrom(Lines(infoText.value), 0)).Panic?)
    ensures r.Install? ==> !o.dryRun
    ensures r.DryRun? ==> o.dryRun
    ensures !r.Failed? && !r.Panicked? ==>
              && (r.NothingToDo? <==> Chosen(r).patches == [] && Chosen(r).pkgs == [])
              && (forall x :: x in Chosen(r).patches <==>
                    x in patches.value && if o.exclusive != [] then x in o.exclusive else !excluded(x))
              && (forall x :: x in Chosen(r).pkgs <==>
                    && o.exclusive == [] && o.withUpdate && x in updates.value
                    && !(patches.value != [] && Listing(infoText.value, x)))
  {
    hide Lines, ScanFrom, Keep, Result;
    PlanSelects(o, excluded, patches, updates, infoText);
    if patches.None? {
      return Failed;
    }
    var pkgUpdates: seq<string> := [];
    var info: Info := map[];
    if o.withUpdate {
      if updates.None? {
        return Failed;
      }
      pkgUpdates := updates.value;
      var parsed := PackagesInPatch(patches.value, infoText);
      match parsed {
        case Error => return Failed;
        case Panic => return Panicked;
        case NilMap =>      // a nil map is looked up like an empty one
        case Parsed(found) => info := found;
      }
    }
    var fPatches, fPkgs := RunFilter(patches.value, o.exclusive, excluded, pkgUpdates, info, o.withUpdate);
    if |fPatches| == 0 && |fPkgs| == 0 {
      return NothingToDo;
    }
    if o.dryRun {
      return DryRun(Choice(fPatches, fPkgs));
    }
    r := Install(Choice(fPatches, fPkgs));
  }

  // ---------------------------------------------------------------- what is selected

  lemma {:induction false} TimesCounts(pkgs: seq<Package>, name: string)
    ensures Times(pkgs, name) > 0 <==> exists j :: 0 <= j < |pkgs| && pkgs[j].name == name
  {
    if pkgs != [] {
      TimesCounts(pkgs[1..], name);
      forall j | 0 <= j < |pkgs| && pkgs[j].name == name
        ensures Times(pkgs, name) > 0
      {
        if j > 0 {
          assert pkgs[1..][j - 1].name == name;
        }
      }
      if Times(pkgs[1..], name) > 0 {
        var j :| 0 <= j < |pkgs[1..]| && pkgs[1..][j].name == name;
        assert pkgs[j + 1].name == name;
      }
    }
  }

  lemma {:induction false} ListedIsBrought(blobs: seq<Blob>, name: string)
    ensures Listed(blobs, name) != [] <==> Brings(blobs, name)
  {
    if blobs != [] {
      TimesCounts(blobs[0].pkgs, name);
      ListedIsBrought(blobs[1..], name);
      if Brings(blobs[1..], name) {
        var k, j :| 0 <= k < |blobs[1..]| && 0 <= j < |blobs[1..][k].pkgs| && blobs[1..][k].pkgs[j].name == name;
        assert blobs[k + 1].pkgs[j].name == name;
      }
      if Brings(blobs, name) && Times(blobs[0].pkgs, name) == 0 {
        var k, j :| 0 <= k < |blobs| && 0 <= j < |blobs[k].pkgs| && blobs[k].pkgs[j].name == name;
        assert blobs[1..][k - 1].pkgs[j].name == name;
      }
    }
  }

  lemma {:induction false} KeepSame(names: seq<string>, p: string -> bool, q: string -> bool)
    requires forall x :: p(x) == q(x)
    ensures Keep(names, p) == Keep(names, q)
  {
    if names != [] {
      KeepSame(names[..|names| - 1], p, q);
    }
  }

  /** The map read from the printed blobs is the one the selection needs. */
  lemma {:induction false} ReadsBrought(r: ZypperInfo.Outcome, blobs: seq<Blob>, updates: seq<string>)
    requires Reads(r, blobs)
    ensures if NoPackages(blobs) then r == Error
            else r.Parsed? && Keep(updates, Outside(r.info)) == Keep(updates, Unbrought(blobs))
  {
    hide NoPackages, Listed, Keep;
    if r.Parsed? {
      forall name
        ensures Outside(r.info)(name) == Unbrought(blobs)(name)
      {
        ListedIsBrought(blobs, name);
      }
      KeepSame(updates, Outside(r.info), Unbrought(blobs));
    }
  }

  /** The map cannot be read: no blob lists a package, or a last name line is unreadable. */
  predicate Unreadable(blobs: seq<Blob>, tail: seq<string>) {
    if Find(tail, NameLine) == |tail| then NoPackages(blobs) else !LosesList(tail)
  }

  lemma {:induction false} ReadableOutcome(text: string, blobs: seq<Blob>, tail: seq<string>, updates: seq<string>)
    requires forall k :: 0 <= k < |blobs| ==> WellFormedBlob(blobs[k])
    requires Unfinished(tail) && PrintedAs(text, Document(blobs, tail))
    ensures var r := Result(ScanFrom(Lines(text), 0));
            if LosesList(tail) then r == NilMap && !Unreadable(blobs, tail)
            else if Unreadable(blobs, tail) then r == Error
            else r.Parsed? && Keep(updates, Outside(r.info)) == Keep(updates, Unbrought(blobs))
  {
    PrintedLines(text, Document(blobs, tail));
    LosingNames(tail);
    hide WellFormedBlob, NameLine, Document, Lines, ScanFrom, Result, NoPackages, Keep, Reads;
    hide Unbrought, Outside, LosesList, Unfinished, Find;
    LastListForgets(blobs, tail);
    var r := Result(ScanFrom(Lines(text), 0));
    if Find(tail, NameLine) == |tail| {
      ReadsBrought(r, blobs, updates);
    }
  }

  lemma {:induction false} DecisionOf(
    o: Options, excluded: string -> bool, patches: seq<string>, updates: seq<string>, parsed: ZypperInfo.Outcome)
    requires o.withUpdate && o.exclusive == []
    ensures var r := Decide(o, excluded, patches, updates, parsed);
            && (r.Failed? <==> parsed.Error?) && (r.Panicked? <==> parsed.Panic?)
            && (parsed.NilMap? ==> Chosen(r) == Choice(Keep(patches, Not(excluded)), Keep(updates, Outside(map[]))))
            && (parsed.Parsed? ==>
                  Chosen(r) == Choice(Keep(patches, Not(excluded)), Keep(updates, Outside(parsed.info))))
  {
    hide Keep, Outside, Not;
  }

  /** What is selected, as sequences. */
  lemma {:induction false} SelectionOf(
    o: Options, excluded: string -> bool, patches: seq<string>, updates: seq<string>,
    text: string, blobs: seq<Blob>, tail: seq<string>)
    requires o.withUpdate && o.exclusive == [] && patches != []
    requires forall k :: 0 <= k < |blobs| ==> WellFormedBlob(blobs[k])
    requires Unfinished(tail) && PrintedAs(text, Document(blobs, tail))
    ensures var r := Plan(o, excluded, Some(patches), Some(updates), Some(text));
            && (r.Failed? <==> Unreadable(blobs, tail)) && !r.Panicked?
            && (!r.Failed? ==>
                  Chosen(r) == Choice(Keep(patches, Not(excluded)),
                                      Keep(updates, if LosesList(tail) then Outside(map[]) else Unbrought(blobs))))
  {
    hide Decide, Chosen, Keep, Unbrought, Outside, Not, LosesList, Unreadable;
    hide WellFormedBlob, Document, PrintedAs, Lines, ScanFrom, Result, Unfinished;
    ReadableOutcome(text, blobs, tail, updates);
    DecisionOf(o, excluded, patches, updates, Result(ScanFrom(Lines(text), 0)));
  }

  /**
   Without exclusive patches and with updates on, when zypper prints well-formed blobs and
   then anything that is not a whole blob: the non-excluded patches are selected, and an
   update is selected exactly when no blob, of an excluded patch or not, brings its package,
   or when a last name has lost its list.  The run fails exactly when nothing can be read.
   */
  lemma {:induction false} SelectionIsExact(
    o: Options, excluded: string -> bool, patches: seq<string>, updates: seq<string>,
    text: string, blobs: seq<Blob>, tail: seq<string>)
    requires o.withUpdate && o.exclusive == [] && patches != []
    requires forall k :: 0 <= k < |blobs| ==> WellFormedBlob(blobs[k])
    requires Unfinished(tail) && PrintedAs(text, Document(blobs, tail))
    ensures var r := Plan(o, excluded, Some(patches), Some(updates), Some(text));
            && (r.Failed? <==> Unreadable(blobs, tail)) && !r.Panicked?
            && (!r.Failed? ==>
                  && Chosen(r).patches == Keep(patches, Not(excluded))
                  && (forall x :: x in Chosen(r).patches <==> x in patches && !excluded(x))
                  && (forall x :: x in Chosen(r).pkgs <==> x in updates && (LosesList(tail) || !Brings(blobs, x))))
  {
    SelectionOf(o, excluded, patches, updates, text, blobs, tail);
    hide WellFormedBlob, NameLine, Document, PrintedAs, Plan, Brings, Keep, LosesList, Unfinished, Unreadable;
    forall x
      ensures x in Keep(patches, Not(excluded)) <==> x in patches && !excluded(x)
      ensures x in Keep(updates, Unbrought(blobs)) <==> x in updates && !Brings(blobs, x)
      ensures x in Keep(updates, Outside(map[])) <==> x in updates
    {
      KeepTakes(patches, Not(excluded), x);
      KeepTakes(updates, Unbrought(blobs), x);
      KeepTakes(updates, Outside(map[]), x);
    }
  }

  /** A package that a listed patch brings is selected exactly when a last name has lost its list. */
  lemma {:induction false} BroughtIsSelectedIff(
    o: Options, excluded: string -> bool, patches: seq<string>, updates: seq<string>,
    text: string, blobs: seq<Blob>, tail: seq<string>, x: string)
    requires o.withUpdate && o.exclusive == [] && patches != []
    requires forall k :: 0 <= k < |blobs| ==> WellFormedBlob(blobs[k])
    requires Unfinished(tail) && PrintedAs(text, Document(blobs, tail))
    requires x in updates && Brings(blobs, x)
    ensures x in Chosen(Plan(o, excluded, Some(patches), Some(updates), Some(text))).pkgs <==> LosesList(tail)
  {
    LosingNames(tail);
    SelectionIsExact(o, excluded, patches, updates, text, blobs, tail);
  }

  /** A list lost before another blob changes the patch names in the map, but not the selection. */
  lemma {:induction false} MisfiledSelectsTheSame(front: seq<Blob>, lost: Blob, b: Blob, back: seq<Blob>, name: string)
    ensures Brings(front + ([Merged(lost, b)] + back), name) <==> Brings(front + ([b] + back), name)
  {
    hide Brings;
    MisfiledIff(front, lost, b, back, name);
    ListedIsBrought(front + ([Merged(lost, b)] + back), name);
    ListedIsBrought(front + ([b] + back), name);
  }
}
