/** What zypper prints about patches, and what the parser makes of it. */
module ZypperRoundTrip {
  import opened Wrappers
  import opened Text
  import opened ZypperInfo

  // ---------------------------------------------------------------- printing

  /** A line of a conflict list. */
  datatype Package =
    | Arch(name: string, arch: string, version: string)
    | NoArch(name: string, version: string)
    | Source(name: string, version: string)

  /** A patch's blob: free lines, its name, free lines, the conflict count, the conflict list. */
  datatype Blob = Blob(before: seq<string>, patch: string, between: seq<string>, pkgs: seq<Package>)

  const INDENT := "    "
  const SRC := "srcpackage:"

  function LeftPart(p: Package): string {
    match p
    case Arch(name, arch, _) => INDENT + name + "." + arch + " "
    case NoArch(name, _) => INDENT + name + " "
    case Source(name, _) => INDENT + SRC + name + " "
  }

  function PackageLine(p: Package): string { LeftPart(p) + "<" + " " + p.version }

  function NameText(patch: string): string { "Name        : " + patch }

  function ConflictsText(n: nat): string { "Conflicts   : [" + Print(n) + "]" }

  function PackageLines(pkgs: seq<Package>): (r: seq<string>)
    ensures |r| == |pkgs|
  {
    if pkgs == [] then [] else [PackageLine(pkgs[0])] + PackageLines(pkgs[1..])
  }

  function BlobLines(b: Blob, declared: nat): seq<string> {
    b.before + ([NameText(b.patch)] + (b.between + ([ConflictsText(declared)] + PackageLines(b.pkgs))))
  }

  function Document(blobs: seq<Blob>, footer: seq<string>): seq<string> {
    if blobs == [] then footer else BlobLines(blobs[0], |blobs[0].pkgs|) + Document(blobs[1..], footer)
  }

  // ---------------------------------------------------------------- what is well formed

  predicate PlainName(name: string) { '<' !in name && Tight(name, IsBlank) }

  predicate WellFormedPackage(p: Package) {
    && PlainName(p.name) && '<' !in p.version
    && (p.Arch? ==> '<' !in p.arch && '.' !in p.arch && !Contains(LeftPart(p), SRC))
    && (p.NoArch? ==> '.' !in p.name && !Contains(LeftPart(p), SRC))
    && (p.Source? ==> p.name != "")
  }

  predicate Free(lines: seq<string>, p: string -> bool) { forall k :: 0 <= k < |lines| ==> !p(lines[k]) }

  predicate WellFormedBlob(b: Blob) {
    && Free(b.before, NameLine) && Free(b.between, ConflictsLine)
    && Tight(b.patch, IsBlank) && ':' !in b.patch
    && (forall k :: 0 <= k < |b.pkgs| ==> WellFormedPackage(b.pkgs[k]))
  }

  // ---------------------------------------------------------------- single lines

  lemma {:induction false} SkipTo(l: string, i: nat, j: nat, p: char -> bool)
    requires i <= j <= |l| && (forall k :: i <= k < j ==> p(l[k])) && (j < |l| ==> !p(l[j]))
    ensures Skip(l, i, p) == j
  {
    var s := Skip(l, i, p);
    assert s < |l| && j < |l| ==> p(l[s]) == p(l[j]);
  }

  lemma {:induction false} NameTextIsName(patch: string)
    requires ':' !in patch && Tight(patch, IsBlank)
    ensures var l := NameText(patch);
            NameLine(l) && Split(l, ':') == ["Name        ", " " + patch] && Trim(" " + patch, IsBlank) == patch
  {
    var l := NameText(patch);
    assert l[0..4] == "Name";
    SkipTo(l, 4, 12, IsSpace);
    assert NameAt(l, 0);
    assert l == "Name        " + [':'] + (" " + patch);
    SplitOnce("Name        ", " " + patch, ':');
    assert " " + patch + "" == " " + patch;
    TrimPadded(" ", patch, "", IsBlank);
  }

  lemma {:induction false} BracketsSkip(l: string, i: nat, j: nat)
    requires i <= j <= |l| && forall k :: i <= k < j ==> l[k] != '['
    ensures Brackets(l, i) == Brackets(l, j)
    decreases j - i
  {
    if i < j {
      BracketsSkip(l, i + 1, j);
    }
  }

  lemma {:induction false} ConflictsTextCounts(n: nat)
    ensures ConflictsLine(ConflictsText(n)) && Brackets(ConflictsText(n), 0) == [Print(n)] && Value(Print(n)) == n
  {
    var head := "Conflicts   : [";
    var l := ConflictsText(n);
    var close := |head| + |Print(n)|;
    assert l[0..9] == "Conflicts";
    SkipTo(l, 9, 12, IsSpace);
    SkipTo(l, 13, 14, IsSpace);
    assert forall k :: |head| <= k < close ==> l[k] == Print(n)[k - |head|];
    SkipTo(l, |head|, close, IsDigit);
    assert ConflictsAt(l, 0);
    BracketsSkip(l, 0, 14);
    assert l[|head|..close] == Print(n);
    assert Brackets(l, close + 1) == [];
    ValueOfPrint(n);
  }

  lemma {:induction false} SplitLine(p: Package)
    requires '<' !in p.version && '<' !in LeftPart(p)
    ensures Split(PackageLine(p), '<') == [LeftPart(p), " " + p.version]
  {
    assert PackageLine(p) == LeftPart(p) + ['<'] + (" " + p.version);
    SplitOnce(LeftPart(p), " " + p.version, '<');
  }

  lemma {:induction false} ArchIsCut(name: string, arch: string)
    requires Tight(name, IsBlank) && '.' !in arch
    ensures var l := INDENT + name + "." + arch + " ";
            var dot := LastIndex(l, '.');
            dot >= 0 && Trim(l[..dot], IsBlank) == name
  {
    hide Trim, Tight;
    var l := INDENT + name + "." + arch + " ";
    var dot := |INDENT| + |name|;
    assert l[dot + 1..] == arch + " ";
    LastIndexIs(l, dot, '.');
    assert l[..dot] == INDENT + name + "";
    TrimPadded(INDENT, name, "", IsBlank);
  }

  lemma {:induction false} ArchLine(p: Package)
    requires WellFormedPackage(p) && p.Arch?
    ensures PackageName(PackageLine(p)) == Some(p.name)
  {
    hide Contains, Trim, Split, Tight;
    SplitLine(p);
    ArchIsCut(p.name, p.arch);
  }

  /** A dot in the name is taken for the start of an architecture. */
  lemma {:induction false} DottedNameIsCut(name: string)
    requires '.' in name
    ensures var l := INDENT + name + " ";
            '.' in l && |Trim(l[..LastIndex(l, '.')], IsBlank)| < |name|
  {
    var l := INDENT + name + " ";
    assert l[4..4 + |name|] == name;
    assert '.' in l;
    var dot := LastIndex(l, '.');
    assert l[..dot] == INDENT + name[..dot - 4];
    TrimLeftPadded(INDENT, name[..dot - 4], IsBlank);
  }

  /** Without an architecture the name comes out whole exactly when it holds no dot. */
  lemma {:induction false} NoArchLine(p: Package)
    requires p.NoArch? && PlainName(p.name) && '<' !in p.version && !Contains(LeftPart(p), SRC)
    ensures PackageName(PackageLine(p)) == Some(p.name) <==> '.' !in p.name
  {
    hide Contains, Split, Trim;
    SplitLine(p);
    if '.' in p.name {
      DottedNameIsCut(p.name);
    } else {
      TrimPadded(INDENT, p.name, " ", IsBlank);
    }
  }

  lemma {:induction false} SourceIsCut(name: string)
    requires Tight(name, IsBlank)
    ensures var l := INDENT + SRC + name + " ";
            Contains(l, SRC) && Trim(l[Index(l, ':') + 1..], IsBlank) == name
  {
    hide Trim, Tight;
    var l := INDENT + SRC + name + " ";
    assert HasAt(l, 4, SRC);
    assert l[..14] == INDENT + "srcpackage";
    FirstIndexIs(l, 14, ':');
    assert l[15..] == "" + name + " ";
    TrimPadded("", name, " ", IsBlank);
  }

  lemma {:induction false} SourceLine(p: Package)
    requires WellFormedPackage(p) && p.Source?
    ensures PackageName(PackageLine(p)) == Some(p.name)
  {
    hide Contains, Trim, Split, Tight;
    SplitLine(p);
    SourceIsCut(p.name);
  }

  /** A well-formed line names its package. */
  lemma {:induction false} LineNamesPackage(p: Package)
    requires WellFormedPackage(p)
    ensures PackageName(PackageLine(p)) == Some(p.name)
  {
    hide PackageName, PackageLine;
    match p
    case Arch(_, _, _) => ArchLine(p);
    case NoArch(_, _) => NoArchLine(p);
    case Source(_, _) => SourceLine(p);
  }

  /** The part of a line before its first `<`. */
  function Left(l: string): string { if '<' in l then l[..Index(l, '<')] else l }

  /**
   A line of a conflict list is rejected exactly when it does not hold one `<`, or marks a
   source package and leaves nothing after the first colon.
   */
  lemma {:induction false} LineIsRejected(l: string)
    ensures PackageName(l) == None <==>
            || Occurrences(l, '<') != 1
            || (Contains(Left(l), SRC) && All(Left(l)[Index(Left(l), ':') + 1..], IsBlank))
  {
    hide Contains, Trim, Split, Occurrences;
    SplitCounts(l, '<');
    TrimIsEmpty(Left(l)[Index(Left(l), ':') + 1..], IsBlank);
  }

  /** A source package without a version is such a line. */
  lemma {:induction false} BareSourceIsRejected(name: string)
    requires '<' !in name
    ensures PackageName(SRC + name) == None
  {
    hide Occurrences;
    NoOccurrences(SRC + name, '<');
    LineIsRejected(SRC + name);
  }

  // ---------------------------------------------------------------- whole documents

  function EntriesOf(pkgs: seq<Package>, patch: string): seq<Entry> {
    if pkgs == [] then [] else [Entry(pkgs[0].name, patch)] + EntriesOf(pkgs[1..], patch)
  }

  /** What a document says: every package of every blob, with the blob's patch. */
  function Entries(blobs: seq<Blob>): seq<Entry> {
    if blobs == [] then [] else EntriesOf(blobs[0].pkgs, blobs[0].patch) + Entries(blobs[1..])
  }

  lemma {:induction false} FindSkips(before: seq<string>, l: string, tail: seq<string>, p: string -> bool)
    requires Free(before, p) && p(l)
    ensures var lines := before + ([l] + tail);
            Find(lines, p) == |before| && lines[|before|] == l && lines[|before| + 1..] == tail
  {
    var lines := before + ([l] + tail);
    if before == [] {
      assert lines == [l] + tail;
    } else {
      assert lines[1..] == before[1..] + ([l] + tail);
      FindSkips(before[1..], l, tail, p);
    }
  }

  lemma {:induction false} FindNothing(lines: seq<string>, p: string -> bool)
    requires Free(lines, p)
    ensures Find(lines, p) == |lines|
  {
    if lines != [] {
      FindNothing(lines[1..], p);
    }
  }

  /** The declared number of lines is read, first the well-formed ones and then those behind them. */
  lemma {:induction false} ReadPrinted(pkgs: seq<Package>, tail: seq<string>, n: nat, patch: string)
    requires forall k :: 0 <= k < |pkgs| ==> WellFormedPackage(pkgs[k])
    ensures ReadPackages(PackageLines(pkgs) + tail, n, patch) ==
            if n <= |pkgs| then Found(EntriesOf(pkgs[..n], patch))
            else Prepend(EntriesOf(pkgs, patch), ReadPackages(tail, n - |pkgs|, patch))
    decreases n
  {
    hide WellFormedPackage, PackageName, PackageLine, Prepend;
    var lines := PackageLines(pkgs) + tail;
    if pkgs == [] {
      assert lines == tail;
      PrependNone(ReadPackages(tail, n, patch));
    } else if n > 0 {
      LineNamesPackage(pkgs[0]);
      assert lines[0] == PackageLine(pkgs[0]);
      assert lines[1..] == PackageLines(pkgs[1..]) + tail;
      ReadPrinted(pkgs[1..], tail, n - 1, patch);
      var e := Entry(pkgs[0].name, patch);
      if n <= |pkgs| {
        assert pkgs[..n][1..] == pkgs[1..][..n - 1];
        PrependTo(e, EntriesOf(pkgs[..n][1..], patch));
      } else {
        PrependMore([e], EntriesOf(pkgs[1..], patch), ReadPackages(tail, n - |pkgs|, patch));
      }
    }
  }

  lemma {:induction false} PrependTo(e: Entry, es: seq<Entry>)
    ensures Prepend([e], Found(es)) == Found([e] + es)
  {
  }

  lemma {:induction false} DropLines(pkgs: seq<Package>, n: nat)
    requires n <= |pkgs|
    ensures PackageLines(pkgs)[n..] == PackageLines(pkgs[n..])
  {
    hide PackageLine;
    if n > 0 {
      DropLines(pkgs[1..], n - 1);
      assert PackageLines(pkgs)[n..] == PackageLines(pkgs)[1..][n - 1..];
      assert pkgs[n..] == pkgs[1..][n - 1..];
    }
  }

  lemma {:induction false} ScanHead(b: Blob, middle: seq<string>, at: nat)
    requires WellFormedBlob(b)
    ensures ScanFrom(b.before + ([NameText(b.patch)] + middle), at) == ScanBody(middle, at + |b.before| + 1, b.patch)
  {
    hide NameLine, ConflictsLine, NameText, Split, WellFormedPackage, Trim, Find, ScanBody;
    NameTextIsName(b.patch);
    FindSkips(b.before, NameText(b.patch), middle, NameLine);
  }

  /** The lines behind the conflict count are read as far as it says; it may be too large for an int. */
  lemma {:induction false} ScanTail(b: Blob, declared: nat, body: seq<string>, at: nat)
    requires WellFormedBlob(b)
    ensures ScanBody(b.between + ([ConflictsText(declared)] + body), at, b.patch) ==
            var s := ReadPackages(body, declared, b.patch);
            if declared > MAX_INT then Bad
            else if at + |b.between| + 1 + declared > MAX_INT then OutOfRange
            else if !s.Found? then s
            else (ReadBounds(body, declared, b.patch);
                  Prepend(s.entries, ScanFrom(body[declared..], at + |b.between| + 1 + declared)))
  {
    hide NameLine, ConflictsLine, ConflictsText, Brackets, Value, WellFormedPackage, ReadPackages, Find, ScanFrom;
    var lines := b.between + ([ConflictsText(declared)] + body);
    ConflictsTextCounts(declared);
    FindSkips(b.between, ConflictsText(declared), body, ConflictsLine);
    if ReadPackages(body, declared, b.patch).Found? {
      ReadBounds(body, declared, b.patch);
      assert lines[|b.between| + 1 + declared..] == body[declared..];
    }
  }

  /** The place of a blob's first package line. */
  function FirstPackage(b: Blob, at: nat): nat { at + |b.before| + |b.between| + 2 }

  lemma {:induction false} ScanToPackages(b: Blob, declared: nat, tail: seq<string>, at: nat)
    requires WellFormedBlob(b)
    ensures var body := PackageLines(b.pkgs) + tail;
            var s := ReadPackages(body, declared, b.patch);
            ScanFrom(BlobLines(b, declared) + tail, at) ==
            if declared > MAX_INT then Bad
            else if FirstPackage(b, at) + declared > MAX_INT then OutOfRange
            else if !s.Found? then s
            else (ReadBounds(body, declared, b.patch);
                  Prepend(s.entries, ScanFrom(body[declared..], FirstPackage(b, at) + declared)))
  {
    hide NameText, ConflictsText, ReadPackages, ScanFrom, ScanBody, Prepend, PackageLines, Free, WellFormedPackage;
    var body := PackageLines(b.pkgs) + tail;
    var middle := b.between + ([ConflictsText(declared)] + body);
    assert BlobLines(b, declared) + tail == b.before + ([NameText(b.patch)] + middle);
    ScanHead(b, middle, at);
    ScanTail(b, declared, body, at + |b.before| + 1);
  }

  /** A blob whose count is not too large adds its first packages; the scan goes on behind them. */
  lemma {:induction false} ScanBlob(b: Blob, declared: nat, tail: seq<string>, at: nat)
    requires WellFormedBlob(b) && declared <= |b.pkgs| && FirstPackage(b, at) + declared <= MAX_INT
    ensures ScanFrom(BlobLines(b, declared) + tail, at) ==
            Prepend(EntriesOf(b.pkgs[..declared], b.patch),
                    ScanFrom(PackageLines(b.pkgs[declared..]) + tail, FirstPackage(b, at) + declared))
  {
    hide BlobLines, ReadPackages, EntriesOf, ScanFrom, Prepend, PackageLines, Free, WellFormedPackage;
    var body := PackageLines(b.pkgs) + tail;
    ScanToPackages(b, declared, tail, at);
    ReadPrinted(b.pkgs, tail, declared, b.patch);
    DropLines(b.pkgs, declared);
    assert body[declared..] == PackageLines(b.pkgs)[declared..] + tail;
  }

  /** The scan of blobs with true counts finds exactly their entries, in order, whatever follows. */
  lemma {:induction false} ScanBlobs(blobs: seq<Blob>, rest: seq<string>, at: nat)
    requires forall k :: 0 <= k < |blobs| ==> WellFormedBlob(blobs[k])
    requires at + |Document(blobs, rest)| <= MAX_INT
    ensures |rest| <= |Document(blobs, rest)|
    ensures ScanFrom(Document(blobs, rest), at) ==
            Prepend(Entries(blobs), ScanFrom(rest, at + |Document(blobs, rest)| - |rest|))
  {
    hide WellFormedBlob, ScanFrom, EntriesOf, Prepend;
    if blobs == [] {
      PrependNone(ScanFrom(rest, at));
    } else {
      var b := blobs[0];
      var more := Document(blobs[1..], rest);
      ScanBlob(b, |b.pkgs|, more, at);
      assert PackageLines(b.pkgs[|b.pkgs|..]) + more == more;
      assert b.pkgs[..|b.pkgs|] == b.pkgs;
      ScanBlobs(blobs[1..], rest, at + |BlobLines(b, |b.pkgs|)|);
      var end := at + |Document(blobs, rest)| - |rest|;
      PrependMore(EntriesOf(b.pkgs, b.patch), Entries(blobs[1..]), ScanFrom(rest, end));
    }
  }

  lemma {:induction false} ScanDocument(blobs: seq<Blob>, footer: seq<string>)
    requires forall k :: 0 <= k < |blobs| ==> WellFormedBlob(blobs[k])
    requires Free(footer, NameLine) && |Document(blobs, footer)| <= MAX_INT
    ensures ScanFrom(Document(blobs, footer), 0) == Found(Entries(blobs))
  {
    hide WellFormedBlob, NameLine, ScanFrom, Prepend, Document, Entries;
    ScanBlobs(blobs, footer, 0);
    FindNothing(footer, NameLine);
    ScanNothing(footer, |Document(blobs, footer)| - |footer|);
    PrependFound(Entries(blobs));
  }

  lemma {:induction false} ScanNothing(lines: seq<string>, at: nat)
    requires Find(lines, NameLine) == |lines|
    ensures ScanFrom(lines, at) == Found([])
  {
  }

  // ---------------------------------------------------------------- the results

  /** How often a package is listed. */
  function Times(pkgs: seq<Package>, name: string): nat {
    if pkgs == [] then 0 else (if pkgs[0].name == name then 1 else 0) + Times(pkgs[1..], name)
  }

  function Repeat(s: string, n: nat): seq<string> { if n == 0 then [] else [s] + Repeat(s, n - 1) }

  /** The patches that list a package, in blob order, each as often as it lists it. */
  function Listed(blobs: seq<Blob>, name: string): seq<string> {
    if blobs == [] then [] else Repeat(blobs[0].patch, Times(blobs[0].pkgs, name)) + Listed(blobs[1..], name)
  }

  lemma {:induction false} PatchesOfConcat(a: seq<Entry>, b: seq<Entry>, name: string)
    ensures PatchesOf(a + b, name) == PatchesOf(a, name) + PatchesOf(b, name)
  {
    if b == [] {
      assert a + b == a;
    } else {
      assert (a + b)[..|a + b| - 1] == a + b[..|b| - 1];
      PatchesOfConcat(a, b[..|b| - 1], name);
    }
  }

  lemma {:induction false} PatchesOfBlob(pkgs: seq<Package>, patch: string, name: string)
    ensures PatchesOf(EntriesOf(pkgs, patch), name) == Repeat(patch, Times(pkgs, name))
  {
    if pkgs != [] {
      var e := Entry(pkgs[0].name, patch);
      PatchesOfConcat([e], EntriesOf(pkgs[1..], patch), name);
      assert [e][..0] == [];
      PatchesOfBlob(pkgs[1..], patch, name);
    }
  }

  lemma {:induction false} EntriesSay(blobs: seq<Blob>, name: string)
    ensures PatchesOf(Entries(blobs), name) == Listed(blobs, name)
  {
    if blobs != [] {
      PatchesOfConcat(EntriesOf(blobs[0].pkgs, blobs[0].patch), Entries(blobs[1..]), name);
      PatchesOfBlob(blobs[0].pkgs, blobs[0].patch, name);
      EntriesSay(blobs[1..], name);
    }
  }

  lemma {:induction false} NamedIsListed(es: seq<Entry>, name: string)
    ensures name in Names(es) <==> PatchesOf(es, name) != []
  {
    if es != [] {
      hide Names;
      NamedIsListed(es[..|es| - 1], name);
      PushNames(es[..|es| - 1], es[|es| - 1]);
      assert es == es[..|es| - 1] + [es[|es| - 1]];
    }
  }

  predicate NoPackages(blobs: seq<Blob>) { forall k :: 0 <= k < |blobs| ==> blobs[k].pkgs == [] }

  /** What the parser returns for the printed text of some blobs. */
  ghost predicate Reads(r: Outcome, blobs: seq<Blob>) {
    if NoPackages(blobs) then r == Error
    else
      && r.Parsed?
      && (forall name :: name in r.info <==> Listed(blobs, name) != [])
      && (forall name :: name in r.info ==> r.info[name] == Listed(blobs, name))
  }

  lemma {:induction false} NoEntries(blobs: seq<Blob>)
    ensures Entries(blobs) == [] <==> NoPackages(blobs)
  {
    if blobs != [] {
      NoEntries(blobs[1..]);
      assert NoPackages(blobs) <==> blobs[0].pkgs == [] && NoPackages(blobs[1..]);
    }
  }

  lemma {:induction false} EntriesRead(blobs: seq<Blob>)
    ensures Reads(Result(Found(Entries(blobs))), blobs)
  {
    var es := Entries(blobs);
    NoEntries(blobs);
    hide NoPackages, Entries, Names;
    forall name
      ensures PatchesOf(es, name) == Listed(blobs, name) && (name in Names(es) <==> Listed(blobs, name) != [])
    {
      EntriesSay(blobs, name);
      NamedIsListed(es, name);
    }
  }

  /** The text is the lines, one after the other, with any white space around them. */
  ghost predicate PrintedAs(text: string, lines: seq<string>) {
    && 0 < |lines| <= MAX_INT && (forall k :: 0 <= k < |lines| ==> '\n' !in lines[k])
    && Tight(Join(lines, '\n'), WhiteSpace)
    && exists pad, pad' :: All(pad, WhiteSpace) && All(pad', WhiteSpace) && text == pad + Join(lines, '\n') + pad'
  }

  lemma {:induction false} PrintedLines(text: string, lines: seq<string>)
    requires PrintedAs(text, lines)
    ensures Lines(text) == lines
  {
    var pad, pad' :| All(pad, WhiteSpace) && All(pad', WhiteSpace) && text == pad + Join(lines, '\n') + pad';
    TrimPadded(pad, Join(lines, '\n'), pad', WhiteSpace);
    SplitJoin(lines, '\n');
  }

  /**
   Printing well-formed blobs and parsing the text gives back, for each package, the patches
   that list it, in order and as often as they do; without any package line it is an error.
   */
  lemma {:induction false} RoundTrip(text: string, blobs: seq<Blob>, footer: seq<string>)
    requires forall k :: 0 <= k < |blobs| ==> WellFormedBlob(blobs[k])
    requires Free(footer, NameLine) && PrintedAs(text, Document(blobs, footer))
    ensures Reads(Result(ScanFrom(Lines(text), 0)), blobs)
  {
    PrintedLines(text, Document(blobs, footer));
    hide WellFormedBlob, NameLine, Document, Lines, ScanFrom, Join, Reads, Result, Tight;
    ScanDocument(blobs, footer);
    EntriesRead(blobs);
  }
}
