/** What the parser makes of output whose conflict counts are wrong or whose conflict lists are missing. */
module ZypperFaults {
  import opened Text
  import opened ZypperInfo
  import opened ZypperRoundTrip

  // ---------------------------------------------------------------- a wrong count

  predicate AllNamed(lines: seq<string>) { forall k :: 0 <= k < |lines| ==> PackageName(lines[k]).Some? }

  /** Reading runs off the end exactly when too few lines are left and all of them are package lines. */
  lemma {:induction false} ReadRunsOff(lines: seq<string>, n: nat, patch: string)
    ensures ReadPackages(lines, n, patch).OutOfRange? <==> n > |lines| && AllNamed(lines)
    decreases n
  {
    hide PackageName;
    if n > 0 && lines != [] {
      ReadRunsOff(lines[1..], n - 1, patch);
      assert AllNamed(lines) <==> PackageName(lines[0]).Some? && AllNamed(lines[1..]) by {
        assert forall k :: 0 < k < |lines| ==> lines[k] == lines[1..][k - 1];
      }
    }
  }

  lemma {:induction false} FreeSuffix(lines: seq<string>, n: nat, p: string -> bool)
    requires Free(lines, p) && n <= |lines|
    ensures Free(lines[n..], p)
  {
  }

  lemma {:induction false} FreeConcat(a: seq<string>, b: seq<string>, p: string -> bool)
    requires Free(a, p) && Free(b, p)
    ensures Free(a + b, p)
  {
  }

  lemma {:induction false} ScanFree(lines: seq<string>, at: nat)
    requires Free(lines, NameLine)
    ensures ScanFrom(lines, at) == Found([])
  {
    hide NameLine;
    FindNothing(lines, NameLine);
    ScanNothing(lines, at);
  }

  /** What becomes of one blob with any count and no further name behind it. */
  lemma {:induction false} ScanMiscounted(b: Blob, declared: nat, tail: seq<string>, at: nat)
    requires WellFormedBlob(b) && Free(tail, NameLine)
    requires declared < |b.pkgs| ==> Free(PackageLines(b.pkgs[declared..]), NameLine)
    ensures var s := ScanFrom(BlobLines(b, declared) + tail, at);
            && (declared > MAX_INT ==> s == Bad)
            && (s.OutOfRange? <==>
                  && declared <= MAX_INT
                  && (FirstPackage(b, at) + declared > MAX_INT || (declared > |b.pkgs| + |tail| && AllNamed(tail))))
            && (declared <= |b.pkgs| && FirstPackage(b, at) + declared <= MAX_INT ==>
                  s == Found(EntriesOf(b.pkgs[..declared], b.patch)))
            && !s.NoConflicts?
  {
    hide NameLine, WellFormedBlob, ReadPackages, PackageLines, EntriesOf, AllNamed, BlobLines, ScanFrom;
    var body := PackageLines(b.pkgs) + tail;
    var next := FirstPackage(b, at) + declared;
    ScanToPackages(b, declared, tail, at);
    ReadOf(b, declared, tail);
    if declared <= |b.pkgs| {
      DropLines(b.pkgs, declared);
      assert body[declared..] == PackageLines(b.pkgs)[declared..] + tail;
      if declared == |b.pkgs| {
        assert PackageLines(b.pkgs[declared..]) == [] by { NoLines(b.pkgs[declared..]); }
      }
      FreeConcat(PackageLines(b.pkgs[declared..]), tail, NameLine);
      ScanFree(body[declared..], next);
      PrependFound(EntriesOf(b.pkgs[..declared], b.patch));
    } else if ReadPackages(body, declared, b.patch).Found? {
      ReadBounds(body, declared, b.patch);
      assert body[declared..] == tail[declared - |b.pkgs|..];
      FreeSuffix(tail, declared - |b.pkgs|, NameLine);
      ScanFree(body[declared..], next);
    }
  }

  lemma {:induction false} NoLines(pkgs: seq<Package>)
    requires pkgs == []
    ensures PackageLines(pkgs) == []
  {
  }

  lemma {:induction false} ReadOf(b: Blob, declared: nat, tail: seq<string>)
    requires WellFormedBlob(b)
    ensures var s := ReadPackages(PackageLines(b.pkgs) + tail, declared, b.patch);
            && (s.OutOfRange? <==> declared > |b.pkgs| + |tail| && AllNamed(tail))
            && (declared <= |b.pkgs| ==> s == Found(EntriesOf(b.pkgs[..declared], b.patch)))
            && !s.NoConflicts?
  {
    hide WellFormedPackage, PackageLines, EntriesOf, AllNamed;
    ReadPrinted(b.pkgs, tail, declared, b.patch);
    ReadIsPlain(PackageLines(b.pkgs) + tail, declared, b.patch);
    if declared > |b.pkgs| {
      ReadRunsOff(tail, declared - |b.pkgs|, b.patch);
    }
  }

  lemma {:induction false} ReadIsPlain(lines: seq<string>, n: nat, patch: string)
    ensures !ReadPackages(lines, n, patch).NoConflicts?
    decreases n
  {
    hide PackageName;
    if n > 0 && lines != [] {
      ReadIsPlain(lines[1..], n - 1, patch);
    }
  }

  /**
   Any blobs with true counts, one last blob that declares any number of lines, and any lines
   without a further name: the parser panics exactly when the number is an int but larger
   than the list, and either no int can hold the end of the list or every line behind it
   passes for a package line and still they are too few.
  */
  lemma {:induction false} CountDecides(blobs: seq<Blob>, b: Blob, declared: nat, tail: seq<string>)
    requires WellFormedBlob(b) && forall k :: 0 <= k < |blobs| ==> WellFormedBlob(blobs[k])
    requires Free(tail, NameLine) && (declared < |b.pkgs| ==> Free(PackageLines(b.pkgs[declared..]), NameLine))
    requires |Document(blobs, BlobLines(b, declared) + tail)| <= MAX_INT
    ensures var doc := Document(blobs, BlobLines(b, declared) + tail);
            var r := Result(ScanFrom(doc, 0));
            && (r == Panic <==>
                  && |b.pkgs| < declared <= MAX_INT
                  && (|doc| - |b.pkgs| - |tail| + declared > MAX_INT
                      || (declared > |b.pkgs| + |tail| && AllNamed(tail))))
            && (tail == [] ==> (r == Panic <==> |b.pkgs| < declared <= MAX_INT))
            && (declared > MAX_INT ==> r == Error)
            && (declared <= |b.pkgs| ==>
                  r == Result(Found(Entries(blobs) + EntriesOf(b.pkgs[..declared], b.patch))))
  {
    hide WellFormedBlob, NameLine, ScanFrom, Document, Entries, EntriesOf, PackageLines, InfoOf;
    var last := BlobLines(b, declared) + tail;
    var doc := Document(blobs, last);
    ScanBlobs(blobs, last, 0);
    ScanMiscounted(b, declared, tail, |doc| - |last|);
    PrependFails(Entries(blobs), ScanFrom(last, |doc| - |last|));
  }

  // ---------------------------------------------------------------- a missing list at the end

  /** No whole blob follows: behind the first name, if there is one, there is no conflict list. */
  predicate Unfinished(tail: seq<string>) {
    var a := Find(tail, NameLine);
    a == |tail| || Free(tail[a + 1..], ConflictsLine)
  }

  /** The name the tail starts a blob with is readable and its list is missing. */
  predicate LosesList(tail: seq<string>) {
    var a := Find(tail, NameLine);
    a < |tail| && Occurrences(tail[a], ':') == 1 && Free(tail[a + 1..], ConflictsLine)
  }

  lemma {:induction false} ScanUnfinished(tail: seq<string>, at: nat)
    requires Unfinished(tail)
    ensures ScanFrom(tail, at) ==
            if LosesList(tail) then NoConflicts else if Find(tail, NameLine) == |tail| then Found([]) else Bad
  {
    hide NameLine, ConflictsLine, Split, Trim;
    var a := Find(tail, NameLine);
    if a < |tail| {
      SplitCounts(tail[a], ':');
      FindNothing(tail[a + 1..], ConflictsLine);
    }
  }

  /**
   After any well-formed blobs the result is a nil map, and what was read is forgotten,
   exactly when a last name has lost its list.
   */
  lemma {:induction false} LastListForgets(blobs: seq<Blob>, tail: seq<string>)
    requires Unfinished(tail) && forall k :: 0 <= k < |blobs| ==> WellFormedBlob(blobs[k])
    requires |Document(blobs, tail)| <= MAX_INT
    ensures var r := Result(ScanFrom(Document(blobs, tail), 0));
            && (r == NilMap <==> LosesList(tail))
            && (Find(tail, NameLine) == |tail| ==> Reads(r, blobs))
            && (Find(tail, NameLine) < |tail| && !LosesList(tail) ==> r == Error)
  {
    hide WellFormedBlob, ScanFrom, Document, Entries, LosesList, Unfinished, NameLine, Reads, InfoOf;
    var at := |Document(blobs, tail)| - |tail|;
    ScanBlobs(blobs, tail, 0);
    ScanUnfinished(tail, at);
    PrependFails(Entries(blobs), ScanFrom(tail, at));
    PrependFound(Entries(blobs));
    EntriesRead(blobs);
    LosingNames(tail);
  }

  lemma {:induction false} LosingNames(tail: seq<string>)
    ensures LosesList(tail) ==> Find(tail, NameLine) < |tail|
  {
  }

  // ---------------------------------------------------------------- a missing list before another blob

  /** A name, and what follows it up to where its conflict list should be. */
  function Headless(b: Blob): seq<string> { b.before + ([NameText(b.patch)] + b.between) }

  /** The blob the parser sees when `lost` has no list and `b` follows: the name of the one, the list of the other. */
  function Merged(lost: Blob, b: Blob): Blob {
    Blob(lost.before, lost.patch, lost.between + b.before + [NameText(b.patch)] + b.between, b.pkgs)
  }

  lemma {:induction false} FirstOf(l: string, i: nat, sub: string)
    requires HasAt(l, i, sub) && sub != ""
    ensures i < |l| && l[i] == sub[0]
  {
    assert l[i..i + |sub|][0] == l[i];
  }

  lemma {:induction false} NotAt(patch: string, i: nat)
    requires ':' !in patch
    ensures !ConflictsAt(NameText(patch), i)
  {
    var l, head := NameText(patch), "Name        : ";
    assert 'C' !in head;
    assert forall k :: 0 <= k < |l| ==> l[k] == if k < 14 then head[k] else patch[k - 14];
    if HasAt(l, i, "Conflicts") {
      FirstOf(l, i, "Conflicts");
    }
  }

  /** A name line is never taken for a conflict line. */
  lemma {:induction false} NameIsNoList(patch: string)
    requires ':' !in patch
    ensures !ConflictsLine(NameText(patch))
  {
    forall i: nat
      ensures !ConflictsAt(NameText(patch), i)
    {
      NotAt(patch, i);
    }
  }

  lemma {:induction false} MergedIsWellFormed(lost: Blob, b: Blob)
    requires WellFormedBlob(lost) && WellFormedBlob(b) && Free(b.before, ConflictsLine)
    ensures WellFormedBlob(Merged(lost, b))
  {
    hide NameLine, ConflictsLine, NameText, WellFormedPackage;
    NameIsNoList(b.patch);
    FreeConcat(lost.between, b.before, ConflictsLine);
    FreeConcat(lost.between + b.before, [NameText(b.patch)], ConflictsLine);
    FreeConcat(lost.between + b.before + [NameText(b.patch)], b.between, ConflictsLine);
  }

  lemma {:induction false} MergedLines(lost: Blob, b: Blob, n: nat)
    ensures Headless(lost) + BlobLines(b, n) == BlobLines(Merged(lost, b), n)
  {
    hide NameText, ConflictsText, PackageLines;
    var rest := [ConflictsText(n)] + PackageLines(b.pkgs);
    assert BlobLines(b, n) == b.before + [NameText(b.patch)] + b.between + rest;
    assert BlobLines(Merged(lost, b), n) ==
           lost.before + [NameText(lost.patch)] + (lost.between + b.before + [NameText(b.patch)] + b.between) + rest;
  }

  lemma {:induction false} DocumentConcat(a: seq<Blob>, b: seq<Blob>, footer: seq<string>)
    ensures Document(a + b, footer) == Document(a, Document(b, footer))
  {
    hide BlobLines;
    if a == [] {
      assert a + b == b;
    } else {
      assert (a + b)[1..] == a[1..] + b;
      DocumentConcat(a[1..], b, footer);
    }
  }

  /** The output with the list of `lost` missing between some blobs and a next one. */
  function WithoutList(front: seq<Blob>, lost: Blob, b: Blob, back: seq<Blob>, footer: seq<string>): seq<string> {
    Document(front, Headless(lost) + Document([b] + back, footer))
  }

  lemma {:induction false} WithoutListIsMerged(
    front: seq<Blob>, lost: Blob, b: Blob, back: seq<Blob>, footer: seq<string>)
    ensures WithoutList(front, lost, b, back, footer) == Document(front + ([Merged(lost, b)] + back), footer)
  {
    hide BlobLines, Headless;
    var n, rest := |b.pkgs|, Document(back, footer);
    MergedLines(lost, b, n);
    assert ([b] + back)[1..] == back && ([Merged(lost, b)] + back)[1..] == back;
    assert Headless(lost) + (BlobLines(b, n) + rest) == Headless(lost) + BlobLines(b, n) + rest;
    DocumentConcat(front, [Merged(lost, b)] + back, footer);
  }

  /**
   A name whose conflict list is missing while another blob follows is not noticed: the text
   is read as if the next blob's packages belonged to the patch that lost its list.
   */
  lemma {:induction false} LostListMisfiles(
    text: string, front: seq<Blob>, lost: Blob, b: Blob, back: seq<Blob>, footer: seq<string>)
    requires WellFormedBlob(lost) && WellFormedBlob(b) && Free(b.before, ConflictsLine)
    requires forall k :: 0 <= k < |front| ==> WellFormedBlob(front[k])
    requires forall k :: 0 <= k < |back| ==> WellFormedBlob(back[k])
    requires Free(footer, NameLine) && PrintedAs(text, WithoutList(front, lost, b, back, footer))
    ensures Reads(Result(ScanFrom(Lines(text), 0)), front + ([Merged(lost, b)] + back))
  {
    hide WellFormedBlob, NameLine, ConflictsLine, Document, Lines, ScanFrom, Reads, Result;
    hide PrintedAs, Merged, WithoutList;
    MergedIsWellFormed(lost, b);
    WithoutListIsMerged(front, lost, b, back, footer);
    RoundTrip(text, front + ([Merged(lost, b)] + back), footer);
  }

  lemma {:induction false} ListedConcat(a: seq<Blob>, b: seq<Blob>, name: string)
    ensures Listed(a + b, name) == Listed(a, name) + Listed(b, name)
  {
    if a == [] {
      assert a + b == b;
    } else {
      assert (a + b)[1..] == a[1..] + b;
      ListedConcat(a[1..], b, name);
    }
  }

  lemma {:induction false} RepeatIs(s: string, n: nat)
    ensures |Repeat(s, n)| == n && forall k :: 0 <= k < n ==> Repeat(s, n)[k] == s
  {
    if n > 0 {
      RepeatIs(s, n - 1);
    }
  }

  /**
   What is read of a package then is what its blobs say exactly when the misread blob does
   not list it, or the two patches are one; the package is in the map either way.
  */
  lemma {:induction false} MisfiledIff(front: seq<Blob>, lost: Blob, b: Blob, back: seq<Blob>, name: string)
    ensures var read, said := Listed(front + ([Merged(lost, b)] + back), name), Listed(front + ([b] + back), name);
            && |read| == |said|
            && (read == said <==> lost.patch == b.patch || Times(b.pkgs, name) == 0)
  {
    var n := Times(b.pkgs, name);
    ListedConcat(front, [Merged(lost, b)] + back, name);
    ListedConcat(front, [b] + back, name);
    ListedConcat([Merged(lost, b)], back, name);
    ListedConcat([b], back, name);
    assert Listed([b], name) == Repeat(b.patch, n) && Listed([Merged(lost, b)], name) == Repeat(lost.patch, n);
    RepeatIs(b.patch, n);
    RepeatIs(lost.patch, n);
    var f := |Listed(front, name)|;
    var read, said := Listed(front + ([Merged(lost, b)] + back), name), Listed(front + ([b] + back), name);
    assert n > 0 ==> read[f] == lost.patch && said[f] == b.patch;
  }
}
