/** The bytes hashed for the stable fingerprint of an inventory. */
module Fingerprint {
  import opened Text

  /** A Windows update, with whatever else it carries, or any other package in its text form. */
  datatype Package = WindowsUpdate(title: string, updateId: string, revision: int, rest: string) | Other(text: string)

  function PrintInt(n: int): string { if n < 0 then "-" + Print(-n) else Print(n) }

  /** fingerprintForPackage. */
  function ForPackage(p: Package): string {
    match p
    case WindowsUpdate(title, id, rev, _) => title + "-" + id + "-" + PrintInt(rev)
    case Other(text) => text
  }

  function ForPackages(ps: seq<Package>): seq<string> {
    if ps == [] then [] else ForPackages(ps[..|ps| - 1]) + [ForPackage(ps[|ps| - 1])]
  }

  // ---------------------------------------------------------------- sorting

  predicate AtMost(a: string, b: string) {
    if a == "" then true
    else if b == "" then false
    else if a[0] != b[0] then a[0] < b[0]
    else AtMost(a[1..], b[1..])
  }

  lemma {:induction false} AtMostIsTotal(a: string, b: string)
    ensures AtMost(a, b) || AtMost(b, a)
    ensures AtMost(a, b) && AtMost(b, a) ==> a == b
  {
    if a != "" && b != "" && a[0] == b[0] {
      AtMostIsTotal(a[1..], b[1..]);
      assert a == [a[0]] + a[1..] && b == [b[0]] + b[1..];
    }
  }

  lemma {:induction false} AtMostIsTransitive(a: string, b: string, c: string)
    requires AtMost(a, b) && AtMost(b, c)
    ensures AtMost(a, c)
  {
    if a != "" && a[0] == b[0] == c[0] {
      AtMostIsTransitive(a[1..], b[1..], c[1..]);
    }
  }

  predicate Begins(a: string, b: string) { |a| <= |b| && forall k :: 0 <= k < |a| ==> a[k] == b[k] }

  predicate LowerFirstAt(a: string, b: string, i: nat) {
    i < |a| && i < |b| && a[i] < b[i] && forall k :: 0 <= k < i ==> a[k] == b[k]
  }

  /** The first character in which two texts differ decides, and a beginning comes first. */
  lemma {:induction false} AtMostMeans(a: string, b: string)
    ensures AtMost(a, b) <==> Begins(a, b) || exists i: nat :: LowerFirstAt(a, b, i)
  {
    if a != "" && b != "" {
      if a[0] == b[0] {
        AtMostMeans(a[1..], b[1..]);
        BeginsTail(a, b);
        if i: nat :| LowerFirstAt(a[1..], b[1..], i) {
          LowerTail(a, b, i + 1);
        }
        if i: nat :| LowerFirstAt(a, b, i) {
          LowerTail(a, b, i);
        }
      } else if a[0] < b[0] {
        assert LowerFirstAt(a, b, 0);
      }
    }
  }

  lemma {:induction false} BeginsTail(a: string, b: string)
    requires a != "" && b != "" && a[0] == b[0]
    ensures Begins(a, b) <==> Begins(a[1..], b[1..])
  {
    if Begins(a[1..], b[1..]) {
      assert forall k :: 0 < k < |a| ==> a[k] == a[1..][k - 1] && b[k] == b[1..][k - 1];
    }
  }

  lemma {:induction false} LowerTail(a: string, b: string, i: nat)
    requires a != "" && b != "" && a[0] == b[0]
    ensures LowerFirstAt(a, b, i) <==> i > 0 && LowerFirstAt(a[1..], b[1..], i - 1)
  {
    if i > 0 && LowerFirstAt(a[1..], b[1..], i - 1) {
      assert forall k :: 0 < k < i ==> a[k] == a[1..][k - 1] && b[k] == b[1..][k - 1];
    }
  }

  predicate Sorted(s: seq<string>) { forall i, j :: 0 <= i < j < |s| ==> AtMost(s[i], s[j]) }

  function Insert(x: string, s: seq<string>): (r: seq<string>)
    requires Sorted(s)
    ensures Sorted(r) && multiset(r) == multiset(s) + multiset{x}
  {
    if s == [] then [x]
    else if AtMost(x, s[0]) then
      InsertFirst(x, s);
      [x] + s
    else
      AtMostIsTotal(x, s[0]);
      assert s == [s[0]] + s[1..];
      var rest := Insert(x, s[1..]);
      InsertLater(s[0], x, s[1..], rest);
      [s[0]] + rest
  }

  lemma {:induction false} InsertFirst(x: string, s: seq<string>)
    requires Sorted(s) && s != [] && AtMost(x, s[0])
    ensures Sorted([x] + s)
  {
    forall j | 0 < j < |s|
      ensures AtMost(x, s[j])
    {
      AtMostIsTransitive(x, s[0], s[j]);
    }
  }

  lemma {:induction false} InsertLater(h: string, x: string, s: seq<string>, r: seq<string>)
    requires Sorted([h] + s) && Sorted(r) && multiset(r) == multiset(s) + multiset{x} && AtMost(h, x)
    ensures Sorted([h] + r)
  {
    forall j | 0 <= j < |r|
      ensures AtMost(h, r[j])
    {
      assert r[j] in multiset(r);
      if r[j] != x {
        assert r[j] in multiset(s);
        var k :| 0 <= k < |s| && s[k] == r[j];
        assert ([h] + s)[0] == h && ([h] + s)[k + 1] == s[k];
      }
    }
  }

  /** sort.Strings: the only thing used of it is that it returns the sorted rearrangement. */
  function Sort(s: seq<string>): (r: seq<string>)
    ensures Sorted(r) && multiset(r) == multiset(s)
  {
    if s == [] then []
    else
      assert s == s[..|s| - 1] + [s[|s| - 1]];
      Insert(s[|s| - 1], Sort(s[..|s| - 1]))
  }

  lemma {:induction false} FirstIsLeast(a: seq<string>, b: seq<string>)
    requires Sorted(b) && a != [] && b != [] && multiset(a) == multiset(b)
    ensures AtMost(b[0], a[0])
  {
    hide AtMost;
    AtMostIsTotal(b[0], b[0]);
    assert a[0] in multiset(b);
    var i :| 0 <= i < |b| && b[i] == a[0];
  }

  lemma {:induction false} WithoutFirst(s: seq<string>)
    requires s != []
    ensures multiset(s[1..]) == multiset(s) - multiset{s[0]}
    ensures Sorted(s) ==> Sorted(s[1..])
  {
    hide AtMost;
    assert s == [s[0]] + s[1..];
  }

  lemma {:induction false} EmptyAlike(a: seq<string>, b: seq<string>)
    requires multiset(a) == multiset(b)
    ensures a == [] <==> b == []
  {
    assert |multiset(a)| == |a| && |multiset(b)| == |b|;
  }

  /** There is only one sorted rearrangement. */
  lemma {:induction false} SortedIsUnique(a: seq<string>, b: seq<string>)
    requires Sorted(a) && Sorted(b) && multiset(a) == multiset(b)
    ensures a == b
  {
    EmptyAlike(a, b);
    if a != [] {
      hide AtMost, Sorted;
      FirstIsLeast(a, b);
      FirstIsLeast(b, a);
      AtMostIsTotal(a[0], b[0]);
      WithoutFirst(a);
      WithoutFirst(b);
      SortedIsUnique(a[1..], b[1..]);
      assert a == [a[0]] + a[1..] && b == [b[0]] + b[1..];
    }
  }

  // ---------------------------------------------------------------- what is hashed

  function Concat(entries: seq<string>): string {
    if entries == [] then "" else Concat(entries[..|entries| - 1]) + entries[|entries| - 1]
  }

  lemma {:induction false} ConcatPush(entries: seq<string>, x: string)
    ensures Concat(entries + [x]) == Concat(entries) + x
  {
    assert (entries + [x])[..|entries|] == entries;
  }

  lemma {:induction false} ConcatOne(x: string)
    ensures Concat([]) == "" && Concat([x]) == x
  {
    assert [x][..0] == [];
  }

  /** Texts are written one after the other with nothing between them. */
  lemma {:induction false} ConcatPlus(a: seq<string>, b: seq<string>)
    ensures Concat(a + b) == Concat(a) + Concat(b)
  {
    ConcatOne("");
    hide Concat;
    if b == [] {
      assert a + b == a && Concat(a) + "" == Concat(a);
    } else {
      var front, x := b[..|b| - 1], b[|b| - 1];
      ConcatPlus(a, front);
      ConcatPush(a + front, x);
      ConcatPush(front, x);
      assert a + b == a + front + [x] && b == front + [x];
      assert Concat(a) + Concat(front) + x == Concat(a) + (Concat(front) + x);
    }
  }

  lemma {:induction false} Steps(ps: seq<Package>, entries: seq<string>, i: nat)
    ensures i < |ps| ==> ForPackages(ps[..i + 1]) == ForPackages(ps[..i]) + [ForPackage(ps[i])]
    ensures i < |entries| ==> Concat(entries[..i + 1]) == Concat(entries[..i]) + entries[i]
  {
    assert i < |ps| ==> ps[..i + 1][..i] == ps[..i];
    assert i < |entries| ==> entries[..i + 1][..i] == entries[..i];
  }

  /** What computeStableFingerprint writes to the hash. */
  method HashedBytes(osInfo: string, installed: seq<Package>, available: seq<Package>) returns (hashed: string)
    ensures hashed == osInfo + Concat(Sort(ForPackages(installed) + ForPackages(available)))
  {
    hide ForPackage, Sort, Concat, ForPackages;
    hashed := osInfo;
    var entries: seq<string> := [];
    NothingYet(installed, available);
    for i := 0 to |installed|
      invariant hashed == osInfo && entries == ForPackages(installed[..i])
    {
      Steps(installed, [], i);
      entries := entries + [ForPackage(installed[i])];
    }
    assert installed[..|installed|] == installed;
    for i := 0 to |available|
      invariant hashed == osInfo && entries == ForPackages(installed) + ForPackages(available[..i])
    {
      Steps(available, [], i);
      entries := entries + [ForPackage(available[i])];
    }
    assert available[..|available|] == available;
    entries := Sort(entries);
    NothingWritten(entries);
    for i := 0 to |entries|
      invariant hashed == osInfo + Concat(entries[..i])
    {
      Steps([], entries, i);
      hashed := hashed + entries[i];
    }
    assert entries[..|entries|] == entries;
  }

  lemma {:induction false} NothingYet(a: seq<Package>, b: seq<Package>)
    ensures ForPackages(a[..0]) == [] && ForPackages(b[..0]) == []
  {
  }

  lemma {:induction false} NothingWritten(entries: seq<string>)
    ensures Concat(entries[..0]) == ""
  {
  }

  /** An abbreviation for the result of HashedBytes. */
  function Hashed(osInfo: string, installed: seq<Package>, available: seq<Package>): string {
    osInfo + Concat(Sort(ForPackages(installed) + ForPackages(available)))
  }

  lemma {:induction false} TakeOut(ps: seq<Package>, k: nat)
    requires k < |ps|
    ensures ps == ps[..k] + [ps[k]] + ps[k + 1..]
    ensures multiset(ps[..k] + ps[k + 1..]) == multiset(ps) - multiset{ps[k]}
  {
    var front, x, back := ps[..k], ps[k], ps[k + 1..];
    assert ps == front + [x] + back;
    assert multiset(front + [x] + back) == multiset(front) + multiset{x} + multiset(back);
  }

  lemma {:induction false} RearrangedTexts(ps: seq<Package>, qs: seq<Package>)
    requires multiset(ps) == multiset(qs)
    ensures multiset(ForPackages(ps)) == multiset(ForPackages(qs))
    decreases |ps|
  {
    if ps == [] {
      assert |multiset(qs)| == |qs|;
    } else {
      var last := ps[|ps| - 1];
      assert last in multiset(qs);
      var k :| 0 <= k < |qs| && qs[k] == last;
      TakeOut(qs, k);
      assert ps == ps[..|ps| - 1] + [last];
      hide ForPackage;
      RearrangedTexts(ps[..|ps| - 1], qs[..k] + qs[k + 1..]);
      TextsOfThree(qs[..k], last, qs[k + 1..]);
    }
  }

  lemma {:induction false} TextsOfConcat(a: seq<Package>, b: seq<Package>)
    ensures ForPackages(a + b) == ForPackages(a) + ForPackages(b)
  {
    if b == [] {
      assert a + b == a;
    } else {
      assert (a + b)[..|a + b| - 1] == a + b[..|b| - 1];
      TextsOfConcat(a, b[..|b| - 1]);
    }
  }

  lemma {:induction false} TextsOfThree(a: seq<Package>, x: Package, b: seq<Package>)
    ensures multiset(ForPackages(a + [x] + b)) == multiset(ForPackages(a + b)) + multiset{ForPackage(x)}
  {
    TextsOfConcat(a + [x], b);
    TextsOfConcat(a, [x]);
    TextsOfConcat(a, b);
    assert [x][..0] == [];
    assert ForPackages([x]) == [ForPackage(x)];
  }

  /**
   The hashed bytes do not depend on the order in which packages are reported, nor on which
   of the two lists a package is in: only on the operating system and how often each text occurs.
   */
  lemma {:induction false} OrderDoesNotMatter(
    osInfo: string,
    installed: seq<Package>, available: seq<Package>, installed': seq<Package>, available': seq<Package>)
    requires multiset(installed + available) == multiset(installed' + available')
    ensures Hashed(osInfo, installed, available) == Hashed(osInfo, installed', available')
  {
    RearrangedTexts(installed + available, installed' + available');
    TextsOfConcat(installed, available);
    TextsOfConcat(installed', available');
    SortedIsUnique(Sort(ForPackages(installed + available)), Sort(ForPackages(installed' + available')));
  }

  /** Of a Windows update only title, update id and revision matter. */
  predicate SameUpdate(p: Package, q: Package) {
    p == q
    || (p.WindowsUpdate? && q.WindowsUpdate?
        && p.title == q.title && p.updateId == q.updateId && p.revision == q.revision)
  }

  lemma {:induction false} OnlyIdentityMatters(
    osInfo: string,
    installed: seq<Package>, available: seq<Package>, installed': seq<Package>, available': seq<Package>)
    requires |installed| == |installed'| && forall i :: 0 <= i < |installed| ==> SameUpdate(installed[i], installed'[i])
    requires |available| == |available'| && forall i :: 0 <= i < |available| ==> SameUpdate(available[i], available'[i])
    ensures Hashed(osInfo, installed, available) == Hashed(osInfo, installed', available')
  {
    SameTexts(installed, installed');
    SameTexts(available, available');
  }

  lemma {:induction false} SameTexts(ps: seq<Package>, qs: seq<Package>)
    requires |ps| == |qs| && forall i :: 0 <= i < |ps| ==> SameUpdate(ps[i], qs[i])
    ensures ForPackages(ps) == ForPackages(qs)
  {
    if ps != [] {
      SameTexts(ps[..|ps| - 1], qs[..|qs| - 1]);
    }
  }

  /** No text is empty or the beginning of another one, so a written text can be told from the next. */
  predicate Separable(texts: seq<string>) {
    && (forall k :: 0 <= k < |texts| ==> texts[k] != "")
    && (forall k, l :: 0 <= k < |texts| && 0 <= l < |texts| && texts[k] <= texts[l] ==> texts[k] == texts[l])
  }

  lemma {:induction false} ConcatFront(entries: seq<string>)
    requires entries != []
    ensures Concat(entries) == entries[0] + Concat(entries[1..])
  {
    if |entries| == 1 {
      assert Concat(entries[..0]) == "" && Concat(entries[1..]) == "";
    } else {
      ConcatFront(entries[..|entries| - 1]);
      assert entries[..|entries| - 1][1..] == entries[1..][..|entries| - 2];
    }
  }

  lemma {:induction false} PrefixesCompare(x: string, y: string, all: string)
    requires x <= all && y <= all
    ensures x <= y || y <= x
  {
    assert x == all[..|x|] && y == all[..|y|];
  }

  /** Texts `a` and `b` together are separable. */
  lemma {:induction false} SeparableSplit(a: seq<string>, b: seq<string>)
    requires Separable(a + b) && Concat(a) == Concat(b)
    ensures a == b
  {
    if a != [] {
      ConcatFront(a);
      assert (a + b)[0] == a[0] && a[0] != "";
    }
    if b != [] {
      ConcatFront(b);
      assert (a + b)[|a|] == b[0] && b[0] != "";
    }
    if a != [] && b != [] {
      var all := Concat(a);
      PrefixesCompare(a[0], b[0], all);
      assert Concat(a[1..]) == all[|a[0]|..] == Concat(b[1..]);
      SeparableTail(a, b);
      SeparableSplit(a[1..], b[1..]);
      assert a == [a[0]] + a[1..] && b == [b[0]] + b[1..];
    }
  }

  lemma {:induction false} SeparableTail(a: seq<string>, b: seq<string>)
    requires Separable(a + b) && a != [] && b != []
    ensures Separable(a[1..] + b[1..])
  {
    SeparableAmong(a + b, a[1..] + b[1..]);
  }

  lemma {:induction false} SeparableAmong(all: seq<string>, some: seq<string>)
    requires Separable(all) && forall x :: x in some ==> x in all
    ensures Separable(some)
  {
    forall k | 0 <= k < |some|
      ensures some[k] in all
    {
    }
  }

  /** The texts of a whole inventory. */
  function Texts(installed: seq<Package>, available: seq<Package>): seq<string> {
    ForPackages(installed) + ForPackages(available)
  }

  /**
   As long as the texts are separable the hash input is a faithful account of an inventory:
   two are hashed from the same bytes exactly when every text occurs as often in the one as in the other.
   */
  lemma {:induction false} SeparableInventoriesDiffer(
    osInfo: string,
    installed: seq<Package>, available: seq<Package>, installed': seq<Package>, available': seq<Package>)
    requires Separable(Texts(installed, available) + Texts(installed', available'))
    ensures Hashed(osInfo, installed, available) == Hashed(osInfo, installed', available')
            <==> multiset(Texts(installed, available)) == multiset(Texts(installed', available'))
  {
    var s, s' := Texts(installed, available), Texts(installed', available');
    hide ForPackages, Separable, Sorted, Sort, Concat;
    if multiset(s) == multiset(s') {
      SortedIsUnique(Sort(s), Sort(s'));
    }
    if Hashed(osInfo, installed, available) == Hashed(osInfo, installed', available') {
      assert Concat(Sort(s)) == (osInfo + Concat(Sort(s)))[|osInfo|..] == Concat(Sort(s'));
      SameMembers(Sort(s), s);
      SameMembers(Sort(s'), s');
      SeparableAmong(s + s', Sort(s) + Sort(s'));
      SeparableSplit(Sort(s), Sort(s'));
    }
  }

  lemma {:induction false} SameMembers(a: seq<string>, b: seq<string>)
    requires multiset(a) == multiset(b)
    ensures forall x :: x in a ==> x in b
  {
    forall x | x in a
      ensures x in b
    {
      assert x in multiset(b);
    }
  }

  lemma {:induction false} OneText(osInfo: string, p: Package)
    ensures Hashed(osInfo, [p], []) == osInfo + ForPackage(p)
  {
    hide ForPackage;
    assert [p][..0] == [];
    assert Texts([p], []) == [ForPackage(p)];
    assert Sorted([ForPackage(p)]);
    SortedIsUnique(Sort([ForPackage(p)]), [ForPackage(p)]);
    assert [ForPackage(p)][..0] == [];
    assert Concat([ForPackage(p)]) == "" + ForPackage(p);
  }

  /** Inventories of one package are hashed from the same bytes exactly when the packages' texts agree. */
  lemma {:induction false} SinglesHashAlike(osInfo: string, p: Package, q: Package)
    ensures Hashed(osInfo, [p], []) == Hashed(osInfo, [q], []) <==> ForPackage(p) == ForPackage(q)
  {
    hide ForPackage, Hashed;
    OneText(osInfo, p);
    OneText(osInfo, q);
    assert ForPackage(p) == (osInfo + ForPackage(p))[|osInfo|..];
    assert ForPackage(q) == (osInfo + ForPackage(q))[|osInfo|..];
  }

  lemma {:induction false} DashesMove(u: string, v: string, w: string, rev: string)
    ensures (u + "-" + v) + "-" + w + "-" + rev == u + "-" + (v + "-" + w) + "-" + rev
  {
  }

  /**
   Title, update id and revision are joined with dashes, which titles and ids hold too: any
   two updates between which a part with its dash moves differ in both, and are hashed alike.
   */
  lemma {:induction false} DifferentInventoriesHashAlike(osInfo: string, u: string, v: string, w: string, rev: int)
    ensures var p := WindowsUpdate(u + "-" + v, w, rev, "");
            var q := WindowsUpdate(u, v + "-" + w, rev, "");
            p.title != q.title && p.updateId != q.updateId && Hashed(osInfo, [p], []) == Hashed(osInfo, [q], [])
  {
    hide Hashed, PrintInt;
    var p, q := WindowsUpdate(u + "-" + v, w, rev, ""), WindowsUpdate(u, v + "-" + w, rev, "");
    DashesMove(u, v, w, PrintInt(rev));
    SinglesHashAlike(osInfo, p, q);
    assert |p.title| > |q.title| && |q.updateId| > |p.updateId|;
  }

  // ---------------------------------------------------------------- what a text tells

  lemma {:induction false} PrintIntSign(n: int)
    ensures PrintInt(n) != "" && (PrintInt(n)[0] == '-' <==> n < 0)
  {
    assert n >= 0 ==> IsDigit(Print(n)[0]);
  }

  lemma {:induction false} PrintIntTells(a: int, b: int)
    requires PrintInt(a) == PrintInt(b)
    ensures a == b
  {
    PrintIntSign(a);
    PrintIntSign(b);
    if a < 0 {
      assert PrintInt(a)[1..] == Print(-a) && PrintInt(b)[1..] == Print(-b);
      ValueOfPrint(-a);
      ValueOfPrint(-b);
    } else {
      ValueOfPrint(a);
      ValueOfPrint(b);
    }
  }

  lemma {:induction false} SameEnds(a: string, x: string, y: string, b: string)
    requires a + x + b == a + y + b
    ensures x == y
  {
    assert x == (a + x + b)[|a|..|a + x + b| - |b|];
    assert y == (a + y + b)[|a|..|a + y + b| - |b|];
  }

  /** A change in any one of title, update id and revision changes the hashed bytes; a text is hashed as it is. */
  lemma {:induction false} EachFieldMatters(osInfo: string, p: Package, q: Package)
    requires Hashed(osInfo, [p], []) == Hashed(osInfo, [q], [])
    ensures p.Other? && q.Other? ==> p == q
    ensures p.WindowsUpdate? && q.WindowsUpdate? && p.updateId == q.updateId && p.revision == q.revision ==>
              p.title == q.title
    ensures p.WindowsUpdate? && q.WindowsUpdate? && p.title == q.title && p.revision == q.revision ==>
              p.updateId == q.updateId
    ensures p.WindowsUpdate? && q.WindowsUpdate? && p.title == q.title && p.updateId == q.updateId ==>
              p.revision == q.revision
  {
    hide Hashed, PrintInt;
    SinglesHashAlike(osInfo, p, q);
    if p.WindowsUpdate? && q.WindowsUpdate? {
      var r, s := PrintInt(p.revision), PrintInt(q.revision);
      if p.updateId == q.updateId && p.revision == q.revision {
        var end := "-" + p.updateId + "-" + r;
        assert ForPackage(p) == "" + p.title + end && ForPackage(q) == "" + q.title + end;
        SameEnds("", p.title, q.title, end);
      }
      if p.title == q.title && p.revision == q.revision {
        var start, end := p.title + "-", "-" + r;
        assert ForPackage(p) == start + p.updateId + end && ForPackage(q) == start + q.updateId + end;
        SameEnds(start, p.updateId, q.updateId, end);
      }
      if p.title == q.title && p.updateId == q.updateId {
        var start := p.title + "-" + p.updateId + "-";
        assert ForPackage(p) == start + r + "" && ForPackage(q) == start + s + "";
        SameEnds(start, r, s, "");
        PrintIntTells(p.revision, q.revision);
      }
    }
  }
}
