/**
 Retrying with growing random sleeps.  Times are whole seconds.  The called function is the
 sequence of its replies, and every random draw reduces an arbitrary number of its own, so
 results for all replies and all draws cover every run.
 */
module Retry {

  const LONGEST_SLEEP := 300

  datatype Code = Aborted | DeadlineExceeded | Internal | ResourceExhausted | Unavailable | OtherCode

  datatype Reply = Success | PlainError | StatusError(code: Code)

  type Replies = nat -> Reply

  type Draws = nat -> nat

  datatype Result = Done | GaveUp | NotRetried

  function RetrySleep(base: nat, extra: nat, draw: nat): (s: nat)
    requires base > 0
    ensures 1 <= s <= LONGEST_SLEEP
  {
    ProductIsPositive(base + extra, base);
    var d := (base + extra) * base + draw % (base + extra);
    if d <= LONGEST_SLEEP then d else LONGEST_SLEEP
  }

  lemma {:induction false} ProductIsPositive(n: nat, m: nat)
    requires n > 0 && m > 0
    ensures n * m >= 1
  {
  }

  /** The sleep lies between two neighbouring products unless the longest sleep cuts it. */
  lemma {:induction false} SleepRange(base: nat, extra: nat, draw: nat)
    requires base > 0
    ensures var s := RetrySleep(base, extra, draw);
            (base + extra) * base <= s < (base + extra) * (base + 1) || s == LONGEST_SLEEP < (base + extra) * (base + 1)
  {
    assert (base + extra) * (base + 1) == (base + extra) * base + (base + extra);
  }

  predicate IsRetriable(r: Reply) { r.StatusError? && !r.code.OtherCode? }

  function Extra(r: Reply): nat { if r == StatusError(ResourceExhausted) then 10 else 1 }

  // ---------------------------------------------------------------- the two loops' common shape

  /** How a failed attempt is treated: retried after a sleep of this many seconds, or not at all. */
  datatype Policy = Any | Api

  predicate Retries(p: Policy, r: Reply) { if p.Any? then r != Success else IsRetriable(r) }

  function SleepAfter(p: Policy, replies: Replies, draws: Draws, i: nat): nat
    requires i > 0
  {
    RetrySleep(i, if p.Any? then 0 else Extra(replies(i)), draws(i))
  }

  /** The sum of the first `n` sleeps, were they all slept. */
  function Total(p: Policy, replies: Replies, draws: Draws, n: nat): nat {
    if n == 0 then 0 else Total(p, replies, draws, n - 1) + SleepAfter(p, replies, draws, n)
  }

  /** The attempt ends the loop: it is not to be retried, or its sleep would not fit. */
  predicate Last(p: Policy, replies: Replies, draws: Draws, max: nat, n: nat) {
    n > 0 && (!Retries(p, replies(n)) || Total(p, replies, draws, n) > max)
  }

  /** Attempt `n` is the first to end the loop. */
  predicate Stops(p: Policy, replies: Replies, draws: Draws, max: nat, n: nat) {
    Last(p, replies, draws, max, n) && forall k :: 0 < k < n ==> !Last(p, replies, draws, max, k)
  }

  /** A sleep after attempt `i` with `extra`: in the range of the draws, or cut at five minutes. */
  predicate SleepFits(i: nat, extra: nat, s: nat) {
    || ((i + extra) * i <= s < (i + extra) * (i + 1) && s <= 300)
    || s == 300 < (i + extra) * (i + 1)
  }

  lemma {:induction false} SmallRemainder(d: nat, n: nat)
    requires d < n
    ensures d % n == d
  {
  }

  lemma {:induction false} NextProduct(n: nat, i: nat)
    ensures n * (i + 1) == n * i + n
  {
  }

  /** No smaller range would do: some draw gives each of these sleeps. */
  lemma {:induction false} EverySleepHappens(i: nat, extra: nat, s: nat) returns (draw: nat)
    requires i > 0 && SleepFits(i, extra, s)
    ensures RetrySleep(i, extra, draw) == s
  {
    NextProduct(i + extra, i);
    var n, q := i + extra, (i + extra) * i;
    draw := if q <= s < q + n then s - q else n - 1;
    SmallRemainder(draw, n);
  }

  /** After this attempt some sleep that fits it does not fit the time left. */
  ghost predicate NoRoom(i: nat, extra: nat, slept: nat, max: nat) {
    exists s: nat :: SleepFits(i, extra, s) && slept + s > max
  }

  /** Each sleep fits its attempt and its reply. */
  predicate SleepsFit(p: Policy, replies: Replies, sleeps: seq<nat>) {
    forall k :: 0 <= k < |sleeps| ==>
      var extra := if p.Any? then 0 else if replies(k + 1) == StatusError(ResourceExhausted) then 10 else 1;
      SleepFits(k + 1, extra, sleeps[k])
  }

  function Sum(s: seq<nat>): nat { if s == [] then 0 else Sum(s[..|s| - 1]) + s[|s| - 1] }

  lemma {:induction false} SleepAfterFits(p: Policy, replies: Replies, draws: Draws, i: nat)
    requires i > 0
    ensures SleepFits(i, if p.Any? then 0 else if replies(i) == StatusError(ResourceExhausted) then 10 else 1,
                      SleepAfter(p, replies, draws, i))
  {
    hide RetrySleep;
    SleepRange(i, if p.Any? then 0 else Extra(replies(i)), draws(i));
  }

  lemma {:induction false} NoSleeps(p: Policy, replies: Replies)
    ensures Sum([]) == 0 && SleepsFit(p, replies, [])
  {
  }

  /** One more attempt was retried. */
  lemma {:induction false} PushSleep(p: Policy, replies: Replies, draws: Draws, sleeps: seq<nat>)
    requires SleepsFit(p, replies, sleeps)
    ensures var s := SleepAfter(p, replies, draws, |sleeps| + 1);
            Sum(sleeps + [s]) == Sum(sleeps) + s && SleepsFit(p, replies, sleeps + [s])
  {
    hide SleepFits, SleepAfter;
    var s := SleepAfter(p, replies, draws, |sleeps| + 1);
    SleepAfterFits(p, replies, draws, |sleeps| + 1);
    assert (sleeps + [s])[..|sleeps|] == sleeps;
  }

  /** The codes that are worth another call. */
  predicate Transient(r: Reply) {
    r.StatusError? && r.code in {Aborted, DeadlineExceeded, Internal, ResourceExhausted, Unavailable}
  }

  /** RetryFunc retries every error. */
  method RetryFunc(max: nat, replies: Replies, draws: Draws) returns (r: Result, calls: nat, sleeps: seq<nat>)
    ensures Stops(Any, replies, draws, max, calls)
    ensures Sum(sleeps) == Total(Any, replies, draws, calls - 1) <= max
    ensures |sleeps| == calls - 1 && SleepsFit(Any, replies, sleeps)
    ensures forall k :: 0 < k < calls ==> replies(k) != Success
    ensures r == if replies(calls) == Success then Done else GaveUp
    ensures r == GaveUp ==> NoRoom(calls, 0, Sum(sleeps), max)
  {
    hide RetrySleep, SleepFits, SleepsFit, Sum;
    var tot := 0;
    var i := 1;
    sleeps := [];
    NoSleeps(Any, replies);
    while true
      invariant i > 0 && tot == Sum(sleeps) == Total(Any, replies, draws, i - 1) <= max
      invariant |sleeps| == i - 1 && SleepsFit(Any, replies, sleeps)
      invariant forall k :: 0 < k < i ==> !Last(Any, replies, draws, max, k)
      invariant forall k :: 0 < k < i ==> replies(k) != Success
      decreases max - tot
    {
      if replies(i) == Success {
        return Done, i, sleeps;
      }
      var ns := RetrySleep(i, 0, draws(i));
      SleepAfterFits(Any, replies, draws, i);
      tot := tot + ns;
      if tot > max {
        return GaveUp, i, sleeps;
      }
      PushSleep(Any, replies, draws, sleeps);
      sleeps := sleeps + [ns];
      i := i + 1;
    }
  }

  /** RetryAPICall retries a few status codes, and waits longer for an exhausted resource. */
  method RetryAPICall(max: nat, replies: Replies, draws: Draws) returns (r: Result, calls: nat, sleeps: seq<nat>)
    ensures Stops(Api, replies, draws, max, calls)
    ensures Sum(sleeps) == Total(Api, replies, draws, calls - 1) <= max
    ensures |sleeps| == calls - 1 && SleepsFit(Api, replies, sleeps)
    ensures forall k :: 0 < k < calls ==> Transient(replies(k))
    ensures r == if replies(calls) == Success then Done else if Transient(replies(calls)) then GaveUp else NotRetried
    ensures r == GaveUp ==>
              NoRoom(calls, if replies(calls) == StatusError(ResourceExhausted) then 10 else 1, Sum(sleeps), max)
  {
    hide RetrySleep, SleepFits, SleepsFit, Sum;
    var tot := 0;
    var i := 1;
    sleeps := [];
    NoSleeps(Api, replies);
    while true
      invariant i > 0 && tot == Sum(sleeps) == Total(Api, replies, draws, i - 1) <= max
      invariant |sleeps| == i - 1 && SleepsFit(Api, replies, sleeps)
      invariant forall k :: 0 < k < i ==> !Last(Api, replies, draws, max, k)
      invariant forall k :: 0 < k < i ==> Transient(replies(k))
      decreases max - tot
    {
      var extra := 1;
      var err := replies(i);
      if err.Success? {
        return Done, i, sleeps;
      }
      if err.PlainError? {
        return NotRetried, i, sleeps;
      }
      if !IsRetriable(err) {
        return NotRetried, i, sleeps;
      }
      if err.code.ResourceExhausted? {
        extra := 10;
      }
      var ns := RetrySleep(i, extra, draws(i));
      SleepAfterFits(Api, replies, draws, i);
      tot := tot + ns;
      if tot > max {
        return GaveUp, i, sleeps;
      }
      PushSleep(Api, replies, draws, sleeps);
      sleeps := sleeps + [ns];
      i := i + 1;
    }
  }

  // ---------------------------------------------------------------- how many calls

  /** 1 + 4 + 9 + ... , and 2 + 6 + 12 + ... */
  function Least(p: Policy, n: nat): nat {
    if p.Any? then n * (n + 1) * (2 * n + 1) / 6 else n * (n + 1) * (n + 2) / 3
  }

  /** The largest sums the draws allow: i*i + i - 1, or i*i + 11*i + 9 when the resource is always exhausted. */
  function Most(p: Policy, n: nat): int {
    if n == 0 then 0 else Most(p, n - 1) + if p.Any? then n * n + n - 1 else n * n + 11 * n + 9
  }

  lemma {:induction false} LeastStep(p: Policy, n: nat)
    requires n > 0
    ensures Least(p, n) == Least(p, n - 1) + if p.Any? then n * n else n * (n + 1)
  {
    var m := n - 1;
    if p.Any? {
      assert n * (n + 1) * (2 * n + 1) == m * (m + 1) * (2 * m + 1) + 6 * (n * n);
    } else {
      assert n * (n + 1) * (n + 2) == m * (m + 1) * (m + 2) + 3 * (n * (n + 1));
    }
  }

  lemma {:induction false} SleepBounds(p: Policy, replies: Replies, draws: Draws, n: nat)
    requires 0 < n <= 12
    ensures var s := SleepAfter(p, replies, draws, n);
            if p.Any? then n * n <= s <= n * n + n - 1 else n * (n + 1) <= s <= n * n + 11 * n + 9
  {
    SleepRange(n, if p.Any? then 0 else Extra(replies(n)), draws(n));
    assert n * (n + 10) <= 12 * 22 && (n + 10) * (n + 1) == n * n + 11 * n + 10;
  }

  /** For every reply and draw the first sleeps add up to at least, and at most, fixed sums. */
  lemma {:induction false} TotalBounds(p: Policy, replies: Replies, draws: Draws, n: nat)
    requires n <= 12
    ensures Least(p, n) <= Total(p, replies, draws, n) <= Most(p, n)
  {
    if n > 0 {
      TotalBounds(p, replies, draws, n - 1);
      SleepBounds(p, replies, draws, n);
      LeastStep(p, n);
    }
  }

  lemma {:induction false} TotalGrows(p: Policy, replies: Replies, draws: Draws, n: nat, m: nat)
    requires n <= m
    ensures Total(p, replies, draws, n) <= Total(p, replies, draws, m)
    decreases m - n
  {
    if n < m {
      TotalGrows(p, replies, draws, n, m - 1);
    }
  }

  /** Where the least sum passes the limit the loop has ended, whatever is replied and drawn. */
  lemma {:induction false} CallsAtMost(p: Policy, replies: Replies, draws: Draws, max: nat, n: nat, b: nat)
    requires Stops(p, replies, draws, max, n) && 0 < b <= 12 && Least(p, b) > max
    ensures n <= b
  {
    TotalBounds(p, replies, draws, b);
    assert Last(p, replies, draws, max, b);
  }

  /** While even the greatest sum fits, a call that keeps failing is made again. */
  lemma {:induction false} CallsAtLeast(p: Policy, replies: Replies, draws: Draws, max: nat, n: nat, b: nat)
    requires Stops(p, replies, draws, max, n) && b <= 12 && Most(p, b) <= max
    requires forall i :: 0 < i ==> Retries(p, replies(i))
    ensures n > b
  {
    TotalBounds(p, replies, draws, b);
    if n <= b {
      TotalGrows(p, replies, draws, n, b);
      assert false;
    }
  }

  /** The limits the agent uses: 600 s for API calls, 180 s and 60 s for package updates. */
  lemma {:induction false} CallCounts(replies: Replies, draws: Draws, n: nat)
    ensures Stops(Api, replies, draws, 600, n) ==> n <= 12
    ensures Stops(Any, replies, draws, 180, n) ==> n <= 8
    ensures Stops(Any, replies, draws, 60, n) ==> n <= 6
  {
    if Stops(Api, replies, draws, 600, n) {
      CallsAtMost(Api, replies, draws, 600, n, 12);
    }
    if Stops(Any, replies, draws, 180, n) {
      CallsAtMost(Any, replies, draws, 180, n, 8);
    }
    if Stops(Any, replies, draws, 60, n) {
      CallsAtMost(Any, replies, draws, 60, n, 6);
    }
  }

  lemma {:induction false} MostIs()
    ensures Most(Any, 4) == 36 && Most(Any, 7) == 161 && Most(Api, 7) == 511
  {
    assert Most(Any, 3) == 17;
    assert Most(Any, 5) == 65;
    assert Most(Any, 6) == 106;
    assert Most(Api, 2) == 56;
    assert Most(Api, 4) == 176;
    assert Most(Api, 6) == 376;
  }

  /** A call that never stops failing is made 8 times in 180 s, 5 or 6 times in 60 s, 8 to 12 times in 600 s. */
  lemma {:induction false} FailingCallCounts(replies: Replies, draws: Draws, n: nat)
    ensures Stops(Any, replies, draws, 180, n) && (forall i :: 0 < i ==> Retries(Any, replies(i))) ==> n == 8
    ensures Stops(Any, replies, draws, 60, n) && (forall i :: 0 < i ==> Retries(Any, replies(i))) ==> 5 <= n <= 6
    ensures Stops(Api, replies, draws, 600, n) && (forall i :: 0 < i ==> Retries(Api, replies(i))) ==> 8 <= n <= 12
  {
    MostIs();
    CallCounts(replies, draws, n);
    if Stops(Any, replies, draws, 180, n) && forall i :: 0 < i ==> Retries(Any, replies(i)) {
      CallsAtLeast(Any, replies, draws, 180, n, 7);
    }
    if Stops(Any, replies, draws, 60, n) && forall i :: 0 < i ==> Retries(Any, replies(i)) {
      CallsAtLeast(Any, replies, draws, 60, n, 4);
    }
    if Stops(Api, replies, draws, 600, n) && forall i :: 0 < i ==> Retries(Api, replies(i)) {
      CallsAtLeast(Api, replies, draws, 600, n, 7);
    }
  }

  function ServiceDown(i: nat): Reply { StatusError(Unavailable) }

  function LowestDraw(i: nat): nat { 0 }

  lemma {:induction false} LowestSleep(n: nat)
    requires 0 < n <= 12
    ensures SleepAfter(Api, ServiceDown, LowestDraw, n) == n * (n + 1)
  {
    assert n * (n + 1) <= 12 * (n + 1);
  }

  lemma {:induction false} LowestTotal(n: nat)
    requires n <= 12
    ensures Total(Api, ServiceDown, LowestDraw, n) == Least(Api, n)
  {
    hide SleepAfter;
    if n > 0 {
      LowestTotal(n - 1);
      LeastStep(Api, n);
      LowestSleep(n);
    }
  }

  /** The bound of twelve API calls is reached: an unavailable service and the lowest draws. */
  lemma {:induction false} TwelveCallsHappen()
    ensures Stops(Api, ServiceDown, LowestDraw, 600, 12)
  {
    LowestTotal(12);
    LowestTotal(11);
    forall k | 0 < k < 12
      ensures !Last(Api, ServiceDown, LowestDraw, 600, k)
    {
      TotalGrows(Api, ServiceDown, LowestDraw, k, 11);
    }
  }
}
