/** Recipe versions: up to four numbers, compared as if padded with zeros. */
module RecipeVersion {
  import opened Wrappers
  import opened Text

  type Version = seq<nat>

  const MAX_INT := 0x7fff_ffff_ffff_ffff

  const MAX_PARTS := 4

  // ---------------------------------------------------------------- reading and printing

  /** strconv.ParseInt in base 10: an optional sign and digits, in the range of an int. */
  function ParseInt(s: string): Option<int> {
    var signed := s != "" && (s[0] == '-' || s[0] == '+');
    var digits := if signed then s[1..] else s;
    if digits == "" || !All(digits, IsDigit) then None
    else
      var n: int := Value(digits);
      var v := if signed && s[0] == '-' then -n else n;
      if -MAX_INT - 1 <= v <= MAX_INT then Some(v) else None
  }

  function Component(s: string): Option<nat> {
    match ParseInt(s)
    case Some(v) => if v < 0 then None else Some(v)
    case None => None
  }

  /** Every part must be a component. */
  function Components(parts: seq<string>): Option<Version> {
    if parts == [] then Some([])
    else
      match (Components(parts[..|parts| - 1]), Component(parts[|parts| - 1]))
      case (Some(v), Some(c)) => Some(v + [c])
      case _ => None
  }

  function Convert(version: string): Option<Version> {
    if version == "" then Some([0])
    else if |Split(version, '.')| > MAX_PARTS then None
    else Components(Split(version, '.'))
  }

  lemma {:induction false} ComponentsStep(parts: seq<string>, i: nat)
    requires i < |parts|
    ensures Components(parts[..i + 1]) ==
            match (Components(parts[..i]), Component(parts[i]))
            case (Some(v), Some(c)) => Some(v + [c])
            case _ => None
  {
    assert parts[..i + 1][..i] == parts[..i];
  }

  lemma {:induction false} NoComponents(parts: seq<string>, i: nat)
    requires i <= |parts| && Components(parts[..i]).None?
    ensures Components(parts).None?
    decreases |parts| - i
  {
    if i == |parts| {
      assert parts[..i] == parts;
    } else {
      ComponentsStep(parts, i);
      NoComponents(parts, i + 1);
    }
  }

  /** convertVersion. */
  method ConvertVersion(version: string) returns (r: Option<Version>)
    ensures r == Convert(version)
  {
    if version == "" {
      return Some([0]);
    }
    hide Components, Component, Split;
    var ret: Version := [];
    var elements := Split(version, '.');
    assert Components(elements[..0]) == Some([]) by { ComponentsOfNone(elements); }
    for idx := 0 to |elements|
      invariant idx <= MAX_PARTS && Components(elements[..idx]) == Some(ret)
    {
      if idx > 3 {
        return None;
      }
      ComponentsStep(elements, idx);
      var val := Component(elements[idx]);
      if val.None? {
        NoComponents(elements, idx + 1);
        return None;
      }
      ret := ret + [val.value];
    }
    assert elements[..|elements|] == elements;
    r := Some(ret);
  }

  lemma {:induction false} ComponentsOfNone(parts: seq<string>)
    ensures Components(parts[..0]) == Some([])
  {
  }

  function Parts(v: Version): seq<string> {
    if v == [] then [] else Parts(v[..|v| - 1]) + [Print(v[|v| - 1])]
  }

  function Printed(v: Version): string { Join(Parts(v), '.') }

  lemma {:induction false} JoinPush(parts: seq<string>, last: string, c: char)
    requires parts != []
    ensures Join(parts + [last], c) == Join(parts, c) + [c] + last
  {
    if |parts| == 1 {
      assert (parts + [last])[1..] == [last];
    } else {
      assert (parts + [last])[1..] == parts[1..] + [last];
      JoinPush(parts[1..], last, c);
    }
  }

  lemma {:induction false} PartsStep(v: Version, i: nat)
    requires i < |v|
    ensures Parts(v[..i + 1]) == Parts(v[..i]) + [Print(v[i])]
  {
    assert v[..i + 1][..i] == v[..i];
  }

  /** recipeVersion.String, for the versions that exist: they have a first component. */
  method ToString(v: Version) returns (res: string)
    requires v != []
    ensures res == Printed(v)
  {
    res := Print(v[0]);
    PartsStep(v, 0);
    assert Parts(v[..0]) == [];
    for i := 1 to |v|
      invariant Parts(v[..i]) != [] && res == Join(Parts(v[..i]), '.')
    {
      PartsStep(v, i);
      JoinPush(Parts(v[..i]), Print(v[i]), '.');
      res := res + "." + Print(v[i]);
    }
    assert v[..|v|] == v;
  }

  lemma {:induction false} ComponentOfPrint(n: nat)
    requires n <= MAX_INT
    ensures Component(Print(n)) == Some(n) && '.' !in Print(n)
  {
    ValueOfPrint(n);
    assert IsDigit(Print(n)[0]);
  }

  lemma {:induction false} PartsAre(v: Version)
    ensures |Parts(v)| == |v| && forall i :: 0 <= i < |v| ==> Parts(v)[i] == Print(v[i])
  {
    hide Print;
    if v != [] {
      PartsAre(v[..|v| - 1]);
    }
  }

  lemma {:induction false} ComponentsPush(parts: seq<string>, part: string, v: Version, c: nat)
    requires Components(parts) == Some(v) && Component(part) == Some(c)
    ensures Components(parts + [part]) == Some(v + [c])
  {
    hide Component;
    assert (parts + [part])[..|parts|] == parts;
  }

  lemma {:induction false} ComponentsOfParts(v: Version)
    requires forall i :: 0 <= i < |v| ==> v[i] <= MAX_INT
    ensures Components(Parts(v)) == Some(v)
  {
    hide Component, Print;
    if v != [] {
      var front, last := v[..|v| - 1], v[|v| - 1];
      ComponentsOfParts(front);
      ComponentOfPrint(last);
      assert v == front + [last];
      ComponentsPush(Parts(front), Print(last), front, last);
      hide Components;
    }
  }

  lemma {:induction false} JoinStarts(parts: seq<string>, c: char)
    requires parts != [] && parts[0] != ""
    ensures Join(parts, c) != ""
  {
  }

  /** Reading undoes printing on one to four components that fit an int. */
  lemma {:induction false} ConvertUndoesString(v: Version)
    requires 1 <= |v| <= MAX_PARTS && forall i :: 0 <= i < |v| ==> v[i] <= MAX_INT
    ensures Convert(Printed(v)) == Some(v)
  {
    PartsAre(v);
    ComponentsOfParts(v);
    forall i | 0 <= i < |v|
      ensures '.' !in Parts(v)[i]
    {
      ComponentOfPrint(v[i]);
    }
    hide Print, Parts, Components, Split, Join;
    SplitJoin(Parts(v), '.');
    assert Parts(v)[0] == Print(v[0]);
    JoinStarts(Parts(v), '.');
  }

  /** A part of a version: digits, perhaps behind a sign, that stand for a number of no more than an int. */
  predicate Readable(part: string, n: nat) {
    var digits := if part != "" && part[0] in ['+', '-'] then part[1..] else part;
    && digits != "" && All(digits, IsDigit) && Value(digits) == n <= MAX_INT
    && (part[0] == '-' ==> n == 0)
  }

  lemma {:induction false} ComponentMeans(part: string, n: nat)
    ensures Component(part) == Some(n) <==> Readable(part, n)
  {
    hide All, Value;
  }

  lemma {:induction false} ComponentsMean(parts: seq<string>, v: Version)
    ensures Components(parts) == Some(v) <==>
            |v| == |parts| && forall i :: 0 <= i < |v| ==> Component(parts[i]) == Some(v[i])
  {
    hide Component;
    if parts != [] {
      var n := |parts| - 1;
      if v != [] {
        ComponentsMean(parts[..n], v[..|v| - 1]);
        assert v == v[..|v| - 1] + [v[|v| - 1]];
      }
      if Components(parts[..n]).Some? {
        ComponentsMean(parts[..n], Components(parts[..n]).value);
      }
    }
  }

  /** What the text of a version has to be for it to be read as `v`. */
  lemma {:induction false} ConvertMeans(version: string, v: Version)
    ensures Convert(version) == Some(v) <==>
            if version == "" then v == [0]
            else
              && |v| == |Split(version, '.')| <= 4
              && forall i :: 0 <= i < |v| ==> Readable(Split(version, '.')[i], v[i])
  {
    hide Component, Components, Split, Readable;
    if version != "" {
      var parts := Split(version, '.');
      ComponentsMean(parts, v);
      forall i | 0 <= i < |v| && i < |parts|
        ensures Component(parts[i]) == Some(v[i]) <==> Readable(parts[i], v[i])
      {
        ComponentMeans(parts[i], v[i]);
      }
    }
  }

  /** What is read has one to four components that fit an int. */
  lemma {:induction false} ConvertedFits(version: string)
    requires Convert(version).Some?
    ensures var v := Convert(version).value;
            1 <= |v| <= MAX_PARTS && forall i :: 0 <= i < |v| ==> v[i] <= MAX_INT
  {
    if version != "" {
      ComponentsFit(Split(version, '.'));
    }
  }

  lemma {:induction false} ComponentsFit(parts: seq<string>)
    requires Components(parts).Some?
    ensures |Components(parts).value| == |parts|
    ensures forall i :: 0 <= i < |parts| ==> Components(parts).value[i] <= MAX_INT
  {
    if parts != [] {
      ComponentsFit(parts[..|parts| - 1]);
    }
  }

  // ---------------------------------------------------------------- the order

  /** A version goes on with zeros for ever. */
  function At(v: Version, i: nat): nat { if i < |v| then v[i] else 0 }

  ghost predicate LessAt(v: Version, w: Version, i: nat) {
    At(v, i) < At(w, i) && forall k: nat :: k < i ==> At(v, k) == At(w, k)
  }

  ghost predicate Less(v: Version, w: Version) { exists i: nat :: LessAt(v, w, i) }

  function Strip(v: Version): Version { if v != [] && v[|v| - 1] == 0 then Strip(v[..|v| - 1]) else v }

  lemma {:induction false} StripKeeps(v: Version)
    ensures |Strip(v)| <= |v| && (Strip(v) == [] || Strip(v)[|Strip(v)| - 1] != 0)
    ensures forall i: nat :: At(Strip(v), i) == At(v, i)
  {
    if v != [] && v[|v| - 1] == 0 {
      StripKeeps(v[..|v| - 1]);
      assert forall i: nat :: At(v[..|v| - 1], i) == At(v, i);
    }
  }

  /** The two versions agree on every position: they are equal up to trailing zeros. */
  predicate Same(v: Version, w: Version) { Strip(v) == Strip(w) }

  lemma {:induction false} SameIsAgreement(v: Version, w: Version)
    ensures Same(v, w) <==> forall i: nat :: At(v, i) == At(w, i)
  {
    StripKeeps(v);
    StripKeeps(w);
    var a, b := Strip(v), Strip(w);
    if forall i: nat :: At(v, i) == At(w, i) {
      forall i: nat
        ensures At(a, i) == At(b, i)
      {
        assert At(v, i) == At(w, i);
      }
      assert a != [] ==> At(b, |a| - 1) == a[|a| - 1];
      assert b != [] ==> At(a, |b| - 1) == b[|b| - 1];
      assert |a| == |b|;
      assert forall i :: 0 <= i < |a| ==> At(a, i) == a[i] && At(b, i) == b[i];
      assert a == b;
    }
    if a == b {
      forall i: nat
        ensures At(v, i) == At(w, i)
      {
        assert At(a, i) == At(b, i);
      }
    }
  }

  lemma {:induction false} FirstDifference(v: Version, w: Version, i: nat)
    requires At(v, i) != At(w, i)
    ensures Less(v, w) || Less(w, v)
  {
    if j: nat :| j < i && At(v, j) != At(w, j) {
      FirstDifference(v, w, j);
    } else {
      assert LessAt(v, w, i) || LessAt(w, v, i);
    }
  }

  /** Two versions are ordered one way or the other, or equal up to trailing zeros, and never two of these. */
  lemma {:induction false} Trichotomy(v: Version, w: Version)
    ensures Less(v, w) || Less(w, v) <==> !Same(v, w)
    ensures !(Less(v, w) && Less(w, v))
  {
    SameIsAgreement(v, w);
    if !Same(v, w) {
      var i: nat :| At(v, i) != At(w, i);
      FirstDifference(v, w, i);
    }
    if Less(v, w) {
      var i: nat :| LessAt(v, w, i);
      assert At(v, i) != At(w, i);
    }
    if Less(w, v) {
      var j: nat :| LessAt(w, v, j);
      assert At(v, j) != At(w, j);
    }
  }

  lemma {:induction false} LessIsTransitive(u: Version, v: Version, w: Version)
    requires Less(u, v) && Less(v, w)
    ensures Less(u, w)
  {
    var i: nat :| LessAt(u, v, i);
    var j: nat :| LessAt(v, w, j);
    assert LessAt(u, w, if i < j then i else j);
  }

  /** Equality up to trailing zeros does not matter to the order, so it is a strict weak order. */
  lemma {:induction false} SameIsCongruent(u: Version, v: Version, w: Version)
    requires Same(u, v)
    ensures Less(u, w) <==> Less(v, w)
    ensures Less(w, u) <==> Less(w, v)
  {
    SameIsAgreement(u, v);
    assert forall i: nat :: LessAt(u, w, i) <==> LessAt(v, w, i);
    assert forall i: nat :: LessAt(w, u, i) <==> LessAt(w, v, i);
  }
}
