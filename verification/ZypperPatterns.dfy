/** What the three patterns of the zypper parser mean, in terms of how a line can be cut up. */
module ZypperPatterns {
  import opened Text
  import opened ZypperInfo

  predicate White(c: char) { c in [' ', '\t', '\n', '\r', '\U{000C}'] }

  /** All characters from `i` up to `j` are white space, or digits. */
  predicate Spaces(l: string, i: nat, j: nat)
    requires j <= |l|
  {
    forall k :: i <= k < j ==> White(l[k])
  }

  predicate Digits(l: string, i: nat, j: nat)
    requires j <= |l|
  {
    forall k :: i <= k < j ==> '0' <= l[k] <= '9'
  }

  lemma {:induction false} SkipSpaces(l: string, i: nat, j: nat)
    requires i <= |l| && j <= |l|
    ensures j < |l| && i <= j && Spaces(l, i, j) && !White(l[j]) ==> Skip(l, i, IsSpace) == j
    ensures Spaces(l, i, Skip(l, i, IsSpace))
  {
    var s := Skip(l, i, IsSpace);
    assert forall k :: 0 <= k < |l| ==> IsSpace(l[k]) == White(l[k]);
  }

  lemma {:induction false} SkipDigits(l: string, i: nat, j: nat)
    requires i <= |l| && j <= |l|
    ensures j < |l| && i <= j && Digits(l, i, j) && !('0' <= l[j] <= '9') ==> Skip(l, i, IsDigit) == j
    ensures Digits(l, i, Skip(l, i, IsDigit))
  {
    var s := Skip(l, i, IsDigit);
    assert forall k :: 0 <= k < |l| ==> IsDigit(l[k]) == ('0' <= l[k] <= '9');
  }

  // ---------------------------------------------------------------- Name\s*:

  /** The word starts at `i`, the colon is at `colon`, and only white space is between. */
  predicate NameSpan(l: string, i: nat, colon: nat) {
    i + 4 <= colon < |l| && HasAt(l, i, "Name") && Spaces(l, i + 4, colon) && l[colon] == ':'
  }

  lemma {:induction false} NameLineMeans(l: string)
    ensures NameLine(l) <==> exists i: nat, colon: nat :: NameSpan(l, i, colon)
  {
    hide Spaces;
    if NameLine(l) {
      var i :| 0 <= i < |l| && NameAt(l, i);
      SkipSpaces(l, i + 4, i + 4);
      assert NameSpan(l, i, Skip(l, i + 4, IsSpace));
    }
    if i: nat, colon: nat :| NameSpan(l, i, colon) {
      SkipSpaces(l, i + 4, colon);
      assert NameAt(l, i);
    }
  }

  // ---------------------------------------------------------------- Conflicts\s*:\s*\[\d*\]

  predicate ConflictsSpan(l: string, i: nat, colon: nat, open: nat, close: nat) {
    && i + 9 <= colon < open < close < |l|
    && HasAt(l, i, "Conflicts") && Spaces(l, i + 9, colon) && l[colon] == ':'
    && Spaces(l, colon + 1, open) && l[open] == '[' && Digits(l, open + 1, close) && l[close] == ']'
  }

  lemma {:induction false} ConflictsAtSpan(l: string, i: nat) returns (colon: nat, open: nat, close: nat)
    requires ConflictsAt(l, i)
    ensures ConflictsSpan(l, i, colon, open, close)
  {
    hide Spaces, Digits, HasAt, Skip;
    assert i + 9 <= |l| by { HasAtFits(l, i, "Conflicts"); }
    colon := Skip(l, i + 9, IsSpace);
    open := Skip(l, colon + 1, IsSpace);
    close := Skip(l, open + 1, IsDigit);
    SkipSpaces(l, i + 9, colon);
    SkipSpaces(l, colon + 1, open);
    SkipDigits(l, open + 1, close);
  }

  lemma {:induction false} HasAtFits(l: string, i: nat, sub: string)
    requires HasAt(l, i, sub)
    ensures i + |sub| <= |l|
  {
  }

  lemma {:induction false} SpanConflictsAt(l: string, i: nat, colon: nat, open: nat, close: nat)
    requires ConflictsSpan(l, i, colon, open, close)
    ensures ConflictsAt(l, i)
  {
    hide Spaces, Digits, HasAt, Skip;
    SkipSpaces(l, i + 9, colon);
    SkipSpaces(l, colon + 1, open);
    SkipDigits(l, open + 1, close);
  }

  lemma {:induction false} ConflictsLineMeans(l: string)
    ensures ConflictsLine(l) <==>
            exists i: nat, colon: nat, open: nat, close: nat :: ConflictsSpan(l, i, colon, open, close)
  {
    hide ConflictsAt;
    if ConflictsLine(l) {
      var i :| 0 <= i < |l| && ConflictsAt(l, i);
      var colon, open, close := ConflictsAtSpan(l, i);
    }
    if i: nat, colon: nat, open: nat, close: nat :| ConflictsSpan(l, i, colon, open, close) {
      SpanConflictsAt(l, i, colon, open, close);
      assert i < |l|;
    }
  }

  // ---------------------------------------------------------------- \[[0-9]+\]

  /** A bracketed number starts at `i` and ends at `j`. */
  predicate NumberAt(l: string, i: nat, j: nat) {
    i + 1 < j < |l| && l[i] == '[' && Digits(l, i + 1, j) && l[j] == ']'
  }

  /** A match is the only one that starts within it. */
  lemma {:induction false} NumberAlone(l: string, i: nat, j: nat, k: nat, m: nat)
    requires NumberAt(l, i, j) && NumberAt(l, k, m) && i <= k <= j
    ensures k == i && m == j
  {
    SkipDigits(l, i + 1, j);
    if k == i {
      SkipDigits(l, i + 1, m);
    }
  }

  /** The first match from `i` on: its bounds, or nothing. */
  lemma {:induction false} FirstNumber(l: string, i: nat) returns (k: nat, j: nat)
    requires i <= |l|
    ensures if Brackets(l, i) == [] then forall k': nat, j': nat :: i <= k' ==> !NumberAt(l, k', j')
            else
              && i <= k && NumberAt(l, k, j) && Brackets(l, i) == [l[k + 1..j]] + Brackets(l, j + 1)
              && forall k': nat, j': nat :: i <= k' < k ==> !NumberAt(l, k', j')
    decreases |l| - i
  {
    hide Digits;
    k, j := 0, 0;
    if i < |l| {
      j := Skip(l, i + 1, IsDigit);
      SkipDigits(l, i + 1, j);
      if NumberAt(l, i, j) {
        k := i;
      } else {
        NoNumber(l, i);
        k, j := FirstNumber(l, i + 1);
      }
    }
  }

  lemma {:induction false} NoNumber(l: string, i: nat)
    requires i < |l| && !NumberAt(l, i, Skip(l, i + 1, IsDigit))
    ensures forall j: nat :: !NumberAt(l, i, j)
    ensures Brackets(l, i) == Brackets(l, i + 1)
  {
    SkipDigits(l, i + 1, i + 1);
    forall j: nat
      ensures !NumberAt(l, i, j)
    {
      if j < |l| {
        SkipDigits(l, i + 1, j);
      }
    }
  }

  /** One number is found exactly when the pattern matches at one place only, and then it is the one there. */
  lemma {:induction false} OneNumber(l: string)
    ensures |Brackets(l, 0)| == 1 <==>
            exists i: nat, j: nat :: NumberAt(l, i, j) && forall k: nat, m: nat :: NumberAt(l, k, m) ==> k == i
    ensures forall i: nat, j: nat :: |Brackets(l, 0)| == 1 && NumberAt(l, i, j) ==> Brackets(l, 0) == [l[i + 1..j]]
  {
    var i, j := FirstNumber(l, 0);
    if Brackets(l, 0) != [] {
      var i', j' := FirstNumber(l, j + 1);
      hide NumberAt, Brackets;
      assert NumberAt(l, i, j);
      forall k: nat, m: nat | NumberAt(l, k, m)
        ensures k <= j ==> k == i && m == j
      {
        if i <= k <= j {
          NumberAlone(l, i, j, k, m);
        }
      }
    }
  }
}
