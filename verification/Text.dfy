/** The few string operations of Go's standard library that the parsers rest on. */
module Text {
  function Index(s: string, c: char): (i: int)
    ensures -1 <= i < |s|
    ensures i == -1 <==> c !in s
    ensures i >= 0 ==> s[i] == c && forall k :: 0 <= k < i ==> s[k] != c
  {
    if s == "" then -1
    else if s[0] == c then 0
    else
      var j := Index(s[1..], c);
      assert forall k :: 0 < k < |s| ==> s[k] == s[1..][k - 1];
      if j == -1 then -1 else j + 1
  }

  function LastIndex(s: string, c: char): (i: int)
    ensures -1 <= i < |s|
    ensures i == -1 <==> c !in s
    ensures i >= 0 ==> s[i] == c && forall k :: i < k < |s| ==> s[k] != c
  {
    if s == "" then -1
    else if s[|s| - 1] == c then |s| - 1
    else
      var j := LastIndex(s[..|s| - 1], c);
      assert forall k :: 0 <= k < |s| - 1 ==> s[k] == s[..|s| - 1][k];
      j
  }

  predicate HasAt(s: string, i: int, sub: string) { 0 <= i <= |s| - |sub| && s[i..i + |sub|] == sub }

  predicate Contains(s: string, sub: string) { exists i :: 0 <= i <= |s| && HasAt(s, i, sub) }

  // ---------------------------------------------------------------- Split and Join

  function Split(s: string, c: char): (parts: seq<string>)
    ensures |parts| >= 1
    ensures forall k :: 0 <= k < |parts| ==> c !in parts[k]
    decreases |s|
  {
    var i := Index(s, c);
    if i == -1 then [s] else [s[..i]] + Split(s[i + 1..], c)
  }

  function Join(parts: seq<string>, c: char): string {
    if parts == [] then "" else if |parts| == 1 then parts[0] else parts[0] + [c] + Join(parts[1..], c)
  }

  lemma {:induction false} FirstIndexIs(s: string, i: nat, c: char)
    requires i < |s| && s[i] == c && c !in s[..i]
    ensures Index(s, c) == i
  {
    assert forall k :: 0 <= k < i ==> s[k] == s[..i][k];
  }

  lemma {:induction false} LastIndexIs(s: string, i: nat, c: char)
    requires i < |s| && s[i] == c && c !in s[i + 1..]
    ensures LastIndex(s, c) == i
  {
    assert forall k :: i < k < |s| ==> s[k] == s[i + 1..][k - i - 1];
  }

  lemma {:induction false} SplitOnce(a: string, b: string, c: char)
    requires c !in a
    ensures Split(a + [c] + b, c) == [a] + Split(b, c)
  {
    var s := a + [c] + b;
    assert s[..|a|] == a && s[|a| + 1..] == b;
    FirstIndexIs(s, |a|, c);
  }

  /** Splitting undoes joining when no part holds the separator. */
  lemma {:induction false} SplitJoin(parts: seq<string>, c: char)
    requires parts != [] && forall k :: 0 <= k < |parts| ==> c !in parts[k]
    ensures Split(Join(parts, c), c) == parts
  {
    if |parts| > 1 {
      SplitJoin(parts[1..], c);
      SplitOnce(parts[0], Join(parts[1..], c), c);
    }
  }

  // ---------------------------------------------------------------- Trim

  function TrimLeft(s: string, cut: char -> bool): (r: string)
    ensures r == "" || !cut(r[0])
    ensures |r| <= |s|
  {
    if s != "" && cut(s[0]) then TrimLeft(s[1..], cut) else s
  }

  function TrimRight(s: string, cut: char -> bool): (r: string)
    ensures r == "" || !cut(r[|r| - 1])
    ensures r <= s
  {
    if s != "" && cut(s[|s| - 1]) then TrimRight(s[..|s| - 1], cut) else s
  }

  function Trim(s: string, cut: char -> bool): (r: string)
    ensures r == "" || (!cut(r[0]) && !cut(r[|r| - 1]))
    ensures |r| <= |s|
  {
    var l := TrimLeft(s, cut);
    TrimRight(l, cut)
  }

  /** Unicode white space, which TrimSpace removes. */
  predicate WhiteSpace(c: char) {
    || '\U{0009}' <= c <= '\U{000D}' || c == ' ' || c == '\U{0085}' || c == '\U{00A0}' || c == '\U{1680}'
    || '\U{2000}' <= c <= '\U{200A}' || c == '\U{2028}' || c == '\U{2029}' || c == '\U{202F}'
    || c == '\U{205F}' || c == '\U{3000}'
  }

  predicate IsBlank(c: char) { c == ' ' }

  predicate Tight(s: string, cut: char -> bool) { s == "" || (!cut(s[0]) && !cut(s[|s| - 1])) }

  predicate All(s: string, p: char -> bool) { forall k :: 0 <= k < |s| ==> p(s[k]) }

  lemma {:induction false} TrimLeftPadded(a: string, s: string, cut: char -> bool)
    requires All(a, cut)
    ensures TrimLeft(a + s, cut) == TrimLeft(s, cut)
  {
    if a == "" {
      assert a + s == s;
    } else {
      assert (a + s)[1..] == a[1..] + s;
      TrimLeftPadded(a[1..], s, cut);
    }
  }

  lemma {:induction false} TrimRightPadded(s: string, b: string, cut: char -> bool)
    requires All(b, cut)
    ensures TrimRight(s + b, cut) == TrimRight(s, cut)
  {
    if b == "" {
      assert s + b == s;
    } else {
      assert (s + b)[..|s + b| - 1] == s + b[..|b| - 1];
      TrimRightPadded(s, b[..|b| - 1], cut);
    }
  }

  /** Trimming takes exactly the padding around a tight text. */
  lemma {:induction false} TrimPadded(a: string, s: string, b: string, cut: char -> bool)
    requires All(a, cut) && All(b, cut) && Tight(s, cut)
    ensures Trim(a + s + b, cut) == s
  {
    assert a + s + b == a + (s + b);
    TrimLeftPadded(a, s + b, cut);
    if s == "" {
      assert s + b == b + "";
      TrimLeftPadded(b, "", cut);
    } else {
      TrimRightPadded(s, b, cut);
    }
  }

  lemma {:induction false} TrimLeftKeeps(s: string, cut: char -> bool)
    ensures All(s, cut) <==> All(TrimLeft(s, cut), cut)
  {
    if s != "" && cut(s[0]) {
      TrimLeftKeeps(s[1..], cut);
      assert forall k :: 0 < k < |s| ==> s[k] == s[1..][k - 1];
    }
  }

  /** Trimming leaves nothing exactly of a text that is all padding. */
  lemma {:induction false} TrimIsEmpty(s: string, cut: char -> bool)
    ensures Trim(s, cut) == "" <==> All(s, cut)
  {
    var l := TrimLeft(s, cut);
    TrimLeftKeeps(s, cut);
    if l != "" {
      TrimRightNotEmpty(l, cut);
    }
  }

  lemma {:induction false} TrimRightNotEmpty(s: string, cut: char -> bool)
    requires s != "" && !cut(s[0])
    ensures TrimRight(s, cut) != "" && !All(s, cut)
  {
    if cut(s[|s| - 1]) {
      TrimRightNotEmpty(s[..|s| - 1], cut);
    }
  }

  // ---------------------------------------------------------------- counting separators

  function Occurrences(s: string, c: char): nat {
    if s == "" then 0 else (if s[0] == c then 1 else 0) + Occurrences(s[1..], c)
  }

  lemma {:induction false} OccurrencesBefore(s: string, i: nat, c: char)
    requires i < |s| && s[i] == c && forall k :: 0 <= k < i ==> s[k] != c
    ensures Occurrences(s, c) == 1 + Occurrences(s[i + 1..], c)
  {
    if i > 0 {
      OccurrencesBefore(s[1..], i - 1, c);
      assert s[1..][i..] == s[i + 1..];
    }
  }

  lemma {:induction false} NoOccurrences(s: string, c: char)
    requires c !in s
    ensures Occurrences(s, c) == 0
  {
    if s != "" {
      NoOccurrences(s[1..], c);
    }
  }

  /** A text is split at every occurrence of the separator. */
  lemma {:induction false} SplitCounts(s: string, c: char)
    ensures |Split(s, c)| == Occurrences(s, c) + 1
    ensures Split(s, c)[0] == if c in s then s[..Index(s, c)] else s
    decreases |s|
  {
    var i := Index(s, c);
    if i == -1 {
      NoOccurrences(s, c);
    } else {
      OccurrencesBefore(s, i, c);
      SplitCounts(s[i + 1..], c);
    }
  }

  // ---------------------------------------------------------------- decimal numbers

  predicate IsDigit(c: char) { '0' <= c <= '9' }

  function DigitValue(c: char): nat
    requires IsDigit(c)
  {
    c as int - '0' as int
  }

  function DigitChar(d: nat): (c: char)
    requires d < 10
    ensures IsDigit(c) && DigitValue(c) == d
  {
    '0' + d as char
  }

  /** The number a run of digits stands for. */
  function Value(s: string): nat
    requires All(s, IsDigit)
  {
    if s == "" then 0 else 10 * Value(s[..|s| - 1]) + DigitValue(s[|s| - 1])
  }

  /** How a non-negative number is printed. */
  function Print(n: nat): (s: string)
    ensures s != "" && All(s, IsDigit)
    ensures s[0] == '0' ==> n == 0 && s == "0"
  {
    if n < 10 then [DigitChar(n)] else Print(n / 10) + [DigitChar(n % 10)]
  }

  lemma {:induction false} ValueOfPrint(n: nat)
    ensures Value(Print(n)) == n
  {
    var s := Print(n);
    if n < 10 {
      assert s[..|s| - 1] == "";
    } else {
      ValueOfPrint(n / 10);
      assert s[..|s| - 1] == Print(n / 10);
    }
  }
}
