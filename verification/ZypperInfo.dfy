/** Reading the output of `zypper info -t patch` into a map from packages to the patches that bring them. */
module ZypperInfo {
  import opened Wrappers
  import opened Text

  const MAX_INT := 0x7fff_ffff_ffff_ffff

  /** What a Go int holds after an addition. */
  function Wrap(x: int): int { (x + 0x8000_0000_0000_0000) % 0x1_0000_0000_0000_0000 - 0x8000_0000_0000_0000 }

  // ---------------------------------------------------------------- the three patterns

  /** White space as the patterns see it. */
  predicate IsSpace(c: char) { c == ' ' || c == '\t' || c == '\n' || c == '\r' || c == '\U{000C}' }

  /** The first place from `i` on where `p` no longer holds. */
  function Skip(l: string, i: nat, p: char -> bool): (j: nat)
    requires i <= |l|
    ensures i <= j <= |l|
    ensures forall k :: i <= k < j ==> p(l[k])
    ensures j < |l| ==> !p(l[j])
    decreases |l| - i
  {
    if i < |l| && p(l[i]) then Skip(l, i + 1, p) else i
  }

  predicate NameAt(l: string, i: nat) {
    && HasAt(l, i, "Name")
    && var colon := Skip(l, i + 4, IsSpace);
       colon < |l| && l[colon] == ':'
  }

  /** Name\s*: occurs in the line. */
  predicate NameLine(l: string) { exists i :: 0 <= i < |l| && NameAt(l, i) }

  predicate ConflictsAt(l: string, i: nat) {
    && HasAt(l, i, "Conflicts")
    && var colon := Skip(l, i + 9, IsSpace);
    && colon < |l| && l[colon] == ':'
    && var open := Skip(l, colon + 1, IsSpace);
    && open < |l| && l[open] == '['
    && var close := Skip(l, open + 1, IsDigit);
       close < |l| && l[close] == ']'
  }

  /** Conflicts\s*:\s*\[\d*\] occurs in the line. */
  predicate ConflictsLine(l: string) { exists i :: 0 <= i < |l| && ConflictsAt(l, i) }

  /** The digits of every match of \[[0-9]+\], left to right. */
  function Brackets(l: string, i: nat): (found: seq<string>)
    requires i <= |l|
    ensures forall k :: 0 <= k < |found| ==> found[k] != "" && All(found[k], IsDigit)
    decreases |l| - i
  {
    if i == |l| then []
    else if l[i] != '[' then Brackets(l, i + 1)
    else
      var close := Skip(l, i + 1, IsDigit);
      if i + 1 < close < |l| && l[close] == ']' then [l[i + 1..close]] + Brackets(l, close + 1)
      else Brackets(l, i + 1)
  }

  // ---------------------------------------------------------------- what the scan finds

  datatype Entry = Entry(pkg: string, patch: string)

  /** The entries read; or no conflict line after a name; or a bad line; or an index out of range. */
  datatype Scan = Found(entries: seq<Entry>) | NoConflicts | Bad | OutOfRange

  function Prepend(es: seq<Entry>, s: Scan): Scan {
    if s.Found? then Found(es + s.entries) else s
  }

  /** The package a line of the conflict list names. */
  function PackageName(l: string): Option<string> {
    var parts := Split(l, '<');
    if |parts| != 2 then None
    else if Contains(parts[0], "srcpackage:") then
      var name := Trim(parts[0][Index(parts[0], ':') + 1..], IsBlank);
      if name == "" then None else Some(name)
    else
      var dot := LastIndex(parts[0], '.');
      Some(Trim(if dot == -1 then parts[0] else parts[0][..dot], IsBlank))
  }

  function Find(lines: seq<string>, p: string -> bool): (i: nat)
    ensures i <= |lines|
    ensures i < |lines| ==> p(lines[i])
  {
    if lines == [] || p(lines[0]) then 0 else 1 + Find(lines[1..], p)
  }

  /** The next `n` lines, each of which must name a package. */
  function ReadPackages(lines: seq<string>, n: nat, patch: string): Scan
    decreases n
  {
    if n == 0 then Found([])
    else if lines == [] then OutOfRange
    else match PackageName(lines[0])
      case None => Bad
      case Some(pkg) => Prepend([Entry(pkg, patch)], ReadPackages(lines[1..], n - 1, patch))
  }

  lemma {:induction false} ReadBounds(lines: seq<string>, n: nat, patch: string)
    requires ReadPackages(lines, n, patch).Found?
    ensures n <= |lines|
    decreases n
  {
    if n > 0 {
      ReadBounds(lines[1..], n - 1, patch);
    }
  }

  /** The scan of the lines from position `at` of the whole output on. */
  function ScanFrom(lines: seq<string>, at: nat): Scan
    decreases |lines|
  {
    var a := Find(lines, NameLine);
    if a == |lines| then Found([]) else
    var parts := Split(lines[a], ':');
    if |parts| != 2 then Bad else
    ScanBody(lines[a + 1..], at + a + 1, Trim(parts[1], IsBlank))
  }

  /** The rest of one patch's blob, and what follows it. */
  function ScanBody(lines: seq<string>, at: nat, patch: string): Scan
    decreases |lines|
  {
    var b := Find(lines, ConflictsLine);
    if b == |lines| then NoConflicts else
    var found := Brackets(lines[b], 0);
    if |found| != 1 || Value(found[0]) > MAX_INT then Bad else
    var n := Value(found[0]);
    if at + b + 1 + n > MAX_INT then OutOfRange else   // the sum wraps to a negative index
    var s := ReadPackages(lines[b + 1..], n, patch);
    if !s.Found? then s else
    ReadBounds(lines[b + 1..], n, patch);
    Prepend(s.entries, ScanFrom(lines[b + 1 + n..], at + b + 1 + n))
  }

  // ---------------------------------------------------------------- the map

  type Info = map<string, seq<string>>

  datatype Outcome = Parsed(info: Info) | NilMap | Error | Panic

  /** The patches of one package, in the order of the entries. */
  function PatchesOf(es: seq<Entry>, pkg: string): seq<string> {
    if es == [] then []
    else
      var last := es[|es| - 1];
      PatchesOf(es[..|es| - 1], pkg) + if last.pkg == pkg then [last.patch] else []
  }

  function Names(es: seq<Entry>): set<string> { set e | e in es :: e.pkg }

  function InfoOf(es: seq<Entry>): Info { map pkg | pkg in Names(es) :: PatchesOf(es, pkg) }

  function Result(s: Scan): Outcome {
    match s
    case Found(es) => if es == [] then Error else Parsed(InfoOf(es))
    case NoConflicts => NilMap
    case Bad => Error
    case OutOfRange => Panic
  }

  /** The output is trimmed and cut at line ends. */
  function Lines(out: string): seq<string> { Split(Trim(out, WhiteSpace), '\n') }

  // ---------------------------------------------------------------- the imperative code

  lemma {:induction false} NotNamed(es: seq<Entry>, pkg: string)
    requires pkg !in Names(es)
    ensures PatchesOf(es, pkg) == []
  {
    if es != [] {
      assert es[|es| - 1] in es;
      assert forall e :: e in es[..|es| - 1] ==> e in es;
      NotNamed(es[..|es| - 1], pkg);
    }
  }

  /** The map is empty exactly when nothing was entered. */
  lemma {:induction false} ResultFound(es: seq<Entry>)
    ensures Result(Found(es)) == if InfoOf(es) == map[] then Error else Parsed(InfoOf(es))
  {
    if es != [] {
      assert es[0].pkg in InfoOf(es);
    }
  }

  lemma {:induction false} PushNames(es: seq<Entry>, e: Entry)
    ensures Names(es + [e]) == Names(es) + {e.pkg}
  {
    assert forall x :: x in es + [e] <==> x in es || x == e;
    assert e in es + [e];
  }

  lemma {:induction false} PushPatches(es: seq<Entry>, e: Entry, pkg: string)
    ensures PatchesOf(es + [e], pkg) == PatchesOf(es, pkg) + if pkg == e.pkg then [e.patch] else []
  {
    assert (es + [e])[..|es|] == es;
  }

  lemma {:induction false} InfoAt(es: seq<Entry>, pkg: string)
    ensures pkg in InfoOf(es) <==> pkg in Names(es)
    ensures PatchesOf(es, pkg) == if pkg in InfoOf(es) then InfoOf(es)[pkg] else []
  {
    if pkg !in Names(es) {
      NotNamed(es, pkg);
    }
  }

  /** Appending a patch to a package's list, as the loop does, is what one more entry means. */
  lemma {:induction false} PushEntry(es: seq<Entry>, e: Entry)
    ensures InfoOf(es + [e]) ==
            InfoOf(es)[e.pkg := (if e.pkg in InfoOf(es) then InfoOf(es)[e.pkg] else []) + [e.patch]]
  {
    PushNames(es, e);
    hide Names, PatchesOf, InfoOf;
    forall pkg
      ensures pkg in InfoOf(es + [e]) <==> pkg in InfoOf(es) || pkg == e.pkg
      ensures pkg in InfoOf(es + [e]) ==>
                var was := if pkg in InfoOf(es) then InfoOf(es)[pkg] else [];
                InfoOf(es + [e])[pkg] == if pkg == e.pkg then was + [e.patch] else was
    {
      InfoAt(es, pkg);
      InfoAt(es + [e], pkg);
      PushPatches(es, e, pkg);
    }
  }

  lemma {:induction false} FindStep(lines: seq<string>, i: nat, p: string -> bool)
    requires i < |lines| && !p(lines[i])
    ensures Find(lines[i..], p) == 1 + Find(lines[i + 1..], p)
  {
    assert lines[i..][1..] == lines[i + 1..];
  }

  lemma {:induction false} ReadStep(lines: seq<string>, ctr: nat, n: nat, patch: string)
    requires ctr < |lines| && n > 0
    ensures ReadPackages(lines[ctr..], n, patch) ==
            match PackageName(lines[ctr])
            case None => Bad
            case Some(pkg) => Prepend([Entry(pkg, patch)], ReadPackages(lines[ctr + 1..], n - 1, patch))
  {
    assert lines[ctr..][1..] == lines[ctr + 1..];
  }

  /** The next line from `start` on that `p` picks out, or the end. */
  method FindLine(lines: seq<string>, start: nat, p: string -> bool) returns (i: nat)
    requires start <= |lines|
    ensures i == start + Find(lines[start..], p)
    ensures forall k :: start <= k < i ==> !p(lines[k])
  {
    i := start;
    while i < |lines|
      invariant start <= i <= |lines|
      invariant i + Find(lines[i..], p) == start + Find(lines[start..], p)
      invariant forall k :: start <= k < i ==> !p(lines[k])
    {
      if p(lines[i]) {
        return;
      }
      FindStep(lines, i, p);
      i := i + 1;
    }
  }

  lemma {:induction false} PrependMore(es: seq<Entry>, more: seq<Entry>, s: Scan)
    ensures Prepend(es, Prepend(more, s)) == Prepend(es + more, s)
  {
    if s.Found? {
      assert es + (more + s.entries) == es + more + s.entries;
    }
  }

  /** The loop over the declared package lines, which stops on a bad line and panics past the last one. */
  method ReadLoop(lines: seq<string>, start: nat, end: nat, patch: string, info: Info, ghost es: seq<Entry>)
    returns (bad: bool, panic: bool, info': Info, ghost more: seq<Entry>)
    requires start <= |lines| && start <= end && info == InfoOf(es)
    ensures var s := ReadPackages(lines[start..], end - start, patch);
            if bad then s.Bad? else if panic then s.OutOfRange? else s == Found(more) && info' == InfoOf(es + more)
  {
    hide InfoOf, PackageName, Prepend;
    var ctr := start;
    bad, panic, info', more := false, false, info, [];
    ghost var all := ReadPackages(lines[start..], end - start, patch);
    assert es + [] == es;
    assert Prepend([], all) == all by { PrependNone(all); }
    while ctr < end
      invariant start <= ctr <= end && ctr <= |lines|
      invariant info' == InfoOf(es + more) && !bad && !panic
      invariant Prepend(more, ReadPackages(lines[ctr..], end - ctr, patch)) == all
    {
      PrependFails(more, ReadPackages(lines[ctr..], end - ctr, patch));
      if ctr >= |lines| {
        panic := true;
        return;
      }
      ReadStep(lines, ctr, end - ctr, patch);
      var name := PackageName(lines[ctr]);
      if name.None? {
        bad := true;
        return;
      }
      ghost var e := Entry(name.value, patch);
      PrependMore(more, [e], ReadPackages(lines[ctr + 1..], end - ctr - 1, patch));
      PushEntry(es + more, e);
      assert es + more + [e] == es + (more + [e]);
      var patches := if name.value in info' then info'[name.value] else [];
      info' := info'[name.value := patches + [patch]];
      more := more + [e];
      ctr := ctr + 1;
    }
    PrependFound(more);
  }

  lemma {:induction false} PrependNone(s: Scan)
    ensures Prepend([], s) == s
  {
    assert s.Found? ==> [] + s.entries == s.entries;
  }

  lemma {:induction false} PrependFails(es: seq<Entry>, s: Scan)
    ensures !s.Found? ==> Prepend(es, s) == s
  {
  }

  lemma {:induction false} PrependFound(es: seq<Entry>)
    ensures Prepend(es, Found([])) == Found(es)
  {
    assert es + [] == es;
  }

  lemma {:induction false} WrapIs(x: int)
    requires 0 <= x <= 2 * MAX_INT + 1
    ensures if x <= MAX_INT then Wrap(x) == x else Wrap(x) < 0
  {
  }

  /** The scan from a line of the output on, in terms of the loop's indices. */
  lemma {:induction false} ScanStep(lines: seq<string>, i: nat, a: nat)
    requires i <= |lines| && a == i + Find(lines[i..], NameLine)
    ensures ScanFrom(lines[i..], i) ==
            if a == |lines| then Found([])
            else if |Split(lines[a], ':')| != 2 then Bad
            else ScanBody(lines[a + 1..], a + 1, Trim(Split(lines[a], ':')[1], IsBlank))
  {
    hide NameLine, ScanBody, Trim, Split;
    if a < |lines| {
      assert lines[i..][a - i + 1..] == lines[a + 1..];
    }
  }

  lemma {:induction false} BodyStep(lines: seq<string>, i: nat, b: nat, patch: string)
    requires i <= |lines| && b == i + Find(lines[i..], ConflictsLine)
    ensures ScanBody(lines[i..], i, patch) ==
            if b == |lines| then NoConflicts
            else if |Brackets(lines[b], 0)| != 1 || Value(Brackets(lines[b], 0)[0]) > MAX_INT then Bad
            else
              var n := Value(Brackets(lines[b], 0)[0]);
              var s := ReadPackages(lines[b + 1..], n, patch);
              if b + 1 + n > MAX_INT then OutOfRange
              else if !s.Found? then s
              else (ReadBounds(lines[b + 1..], n, patch); Prepend(s.entries, ScanFrom(lines[b + 1 + n..], b + 1 + n)))
  {
    hide ConflictsLine, Brackets, Value, ReadPackages, ScanFrom, Prepend;
    if b < |lines| {
      assert lines[i..][b - i + 1..] == lines[b + 1..];
      if |Brackets(lines[b], 0)| == 1 {
        var n := Value(Brackets(lines[b], 0)[0]);
        if ReadPackages(lines[b + 1..], n, patch).Found? {
          ReadBounds(lines[b + 1..], n, patch);
          assert lines[i..][b - i + 1 + n..] == lines[b + 1 + n..];
        }
      }
    }
  }

  /** One blob after its name line: find the conflict count, read that many package lines, go on behind them. */
  method ReadBlob(lines: seq<string>, start: nat, patchName: string, info: Info, ghost es: seq<Entry>)
    returns (failed: Option<Outcome>, i: nat, info': Info, ghost more: seq<Entry>)
    requires start <= |lines| <= MAX_INT && info == InfoOf(es)
    ensures var s := ScanBody(lines[start..], start, patchName);
            if failed.Some? then !s.Found? && failed.value == Result(s)
            else
              && start < i <= |lines| && info' == InfoOf(es + more)
              && s == Prepend(more, ScanFrom(lines[i..], i))
  {
    hide ConflictsLine, ReadPackages, Brackets, Find, InfoOf, Value, Prepend, ScanFrom, ScanBody, Wrap;
    failed, i, info', more := None, start, info, [];
    var b := FindLine(lines, start, ConflictsLine);
    BodyStep(lines, start, b, patchName);
    if b >= |lines| {
      // The conflicting packages were not found, which the code takes for impossible.
      failed := Some(NilMap);
      return;
    }
    var matches := Brackets(lines[b], 0);
    if |matches| != 1 {
      failed := Some(Error);
      return;
    }
    var conflictLines := Value(matches[0]);
    if conflictLines > MAX_INT {
      failed := Some(Error);
      return;
    }
    var ctrEnd := Wrap(b + 1 + conflictLines);
    WrapIs(b + 1 + conflictLines);
    if ctrEnd < 0 {
      // The loop over the package lines is skipped and the next line index is negative.
      failed := Some(Panic);
      return;
    }
    ghost var s := ReadPackages(lines[b + 1..], conflictLines, patchName);
    var bad, panic;
    bad, panic, info', more := ReadLoop(lines, b + 1, ctrEnd, patchName, info, es);
    if panic || bad {
      failed := Some(if bad then Error else Panic);
      return;
    }
    ReadBounds(lines[b + 1..], conflictLines, patchName);
    i := ctrEnd;
  }

  /** The entries before line `i` are read and in the map; the scan from there yields the rest. */
  ghost predicate Progress(lines: seq<string>, i: nat, info: Info, es: seq<Entry>) {
    i <= |lines| && info == InfoOf(es) && Prepend(es, ScanFrom(lines[i..], i)) == ScanFrom(lines, 0)
  }

  lemma {:induction false} ProgressStart(lines: seq<string>)
    ensures Progress(lines, 0, map[], []) && InfoOf([]) == map[]
  {
    hide ScanFrom, Prepend;
    assert lines[0..] == lines;
    PrependNone(ScanFrom(lines, 0));
  }

  lemma {:induction false} ProgressMore(
    lines: seq<string>, i: nat, i': nat, info: Info, info': Info, es: seq<Entry>, more: seq<Entry>)
    requires Progress(lines, i, info, es) && i' <= |lines| && info' == InfoOf(es + more)
    requires ScanFrom(lines[i..], i) == Prepend(more, ScanFrom(lines[i'..], i'))
    ensures Progress(lines, i', info', es + more)
  {
    hide ScanFrom, Prepend, InfoOf;
    PrependMore(es, more, ScanFrom(lines[i'..], i'));
  }

  lemma {:induction false} ProgressEnd(lines: seq<string>, i: nat, info: Info, es: seq<Entry>)
    requires Progress(lines, i, info, es)
    ensures ScanFrom(lines[i..], i) == Found([]) ==> ScanFrom(lines, 0) == Found(es) && info == InfoOf(es)
    ensures !ScanFrom(lines[i..], i).Found? ==> ScanFrom(lines, 0) == ScanFrom(lines[i..], i)
  {
    hide ScanFrom, Prepend, InfoOf;
    PrependFound(es);
    PrependFails(es, ScanFrom(lines[i..], i));
  }

  /** The loop over the blobs. */
  method ReadBlobs(lines: seq<string>) returns (failed: Option<Outcome>, info: Info, ghost es: seq<Entry>)
    requires |lines| <= MAX_INT
    ensures var s := ScanFrom(lines, 0);
            if failed.Some? then !s.Found? && failed.value == Result(s) else s == Found(es) && info == InfoOf(es)
  {
    hide NameLine, Split, Find, Trim, InfoOf, Prepend, ScanFrom, ScanBody, Progress;
    failed, info, es := None, map[], [];
    var i := 0;
    ProgressStart(lines);
    while true
      invariant 0 <= i <= |lines| && Progress(lines, i, info, es) && info == InfoOf(es) && failed.None?
      decreases |lines| - i
    {
      ProgressEnd(lines, i, info, es);
      var a := FindLine(lines, i, NameLine);
      ScanStep(lines, i, a);
      if a >= |lines| {
        break;
      }
      var parts := Split(lines[a], ':');
      if |parts| != 2 {
        failed := Some(Error);
        return;
      }
      var i', info';
      ghost var more;
      failed, i', info', more := ReadBlob(lines, a + 1, Trim(parts[1], IsBlank), info, es);
      if failed.Some? {
        return;
      }
      ProgressMore(lines, i, i', info, info', es, more);
      i, info, es := i', info', es + more;
    }
  }

  /** parseZypperPatchInfo. */
  method ParseZypperPatchInfo(out: string) returns (r: Outcome)
    requires |Lines(out)| <= MAX_INT
    ensures r == Result(ScanFrom(Lines(out), 0))
  {
    hide Lines, ScanFrom, InfoOf;
    var failed, info;
    ghost var es;
    failed, info, es := ReadBlobs(Lines(out));
    if failed.Some? {
      return failed.value;
    }
    ResultFound(es);
    r := if |info| == 0 then Error else Parsed(info);
  }
}
