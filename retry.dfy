/** The numeric rules of the generation client's retries: the token cap of
    the empty-reply retry, the wait suggested by a rate-limit message, and
    the back-off taken before the second pass. */
module Retry {
  import opened PyStr
  import opened State

  /** The cap of the retry after an empty reply:
      min(max_output_tokens + 64, 256), and still no cap when none was set. */
  function RetryCap(cap: Option<int>): (r: Option<int>)
    ensures r.Some? <==> cap.Some?
    ensures cap.Some? ==> r.value <= 256
    ensures cap.Some? && cap.value <= 192 ==> r.value == cap.value + 64
    ensures cap.Some? && cap.value >= 192 ==> r.value == 256
  {
    match cap
    case None => None
    case Some(m) => Some(if m + 64 < 256 then m + 64 else 256)
  }

  // ---------------------------------------------------------------------
  // The wait a rate-limit message asks for:
  // re.search(r"retry in\s*([0-9]+(?:\.[0-9]+)?)s", msg, re.IGNORECASE)

  predicate IsDigit(c: char) {
    '0' <= c <= '9'
  }

  /** Length of the run of digits starting at `i`. */
  function DigitRun(s: string, i: nat): (n: nat)
    requires i <= |s|
    ensures i + n <= |s|
    ensures forall k :: i <= k < i + n ==> IsDigit(s[k])
    ensures i + n < |s| ==> !IsDigit(s[i + n])
    decreases |s| - i
  {
    if i < |s| && IsDigit(s[i]) then 1 + DigitRun(s, i + 1) else 0
  }

  /** Index just past the run of whitespace starting at `i` (the `\s*`). */
  function SkipSpaces(s: string, i: nat): (j: nat)
    requires i <= |s|
    ensures i <= j <= |s|
    ensures forall k :: i <= k < j ==> IsSpace(s[k])
    ensures j < |s| ==> !IsSpace(s[j])
    decreases |s| - i
  {
    if i < |s| && IsSpace(s[i]) then SkipSpaces(s, i + 1) else i
  }

  /** The value of a string of decimal digits. */
  function DigitsValue(d: string): nat {
    if d == [] then 0
    else 10 * DigitsValue(d[..|d| - 1]) + (d[|d| - 1] as int - '0' as int) % 10
  }

  function Pow10(n: nat): (p: nat)
    ensures p >= 1
  {
    if n == 0 then 1 else 10 * Pow10(n - 1)
  }

  /** float() of "D" or "D.F". */
  function DecimalValue(whole: string, frac: string): real {
    DigitsValue(whole) as real + DigitsValue(frac) as real / Pow10(|frac|) as real
  }

  predicate IsS(c: char) {
    c == 's' || c == 'S'
  }

  /** The pattern's opening words, in any letter case. */
  predicate RetryIn(t: string) {
    Lower(t) == "retry in"
  }

  /** The number the pattern captures when a match starts at `i`, if one
      does. The digit runs are greedy, and giving back digits can never
      produce a match, so the first run that is followed by the unit is
      the match. */
  function MatchAt(s: string, i: nat): Option<real>
    requires i <= |s|
  {
    if i + 8 <= |s| && RetryIn(s[i..i + 8]) then
      var j := SkipSpaces(s, i + 8);
      var d := DigitRun(s, j);
      var k := j + d;
      if d == 0 then None
      else if k + 1 < |s| && s[k] == '.' && DigitRun(s, k + 1) > 0
              && k + 1 + DigitRun(s, k + 1) < |s| && IsS(s[k + 1 + DigitRun(s, k + 1)]) then
        Some(DecimalValue(s[j..k], s[k + 1..k + 1 + DigitRun(s, k + 1)]))
      else if k < |s| && IsS(s[k]) then
        Some(DecimalValue(s[j..k], ""))
      else None
    else None
  }

  /** The leftmost match at or after `i`. */
  function SearchFrom(s: string, i: nat): Option<real>
    requires i <= |s|
    decreases |s| - i
  {
    if MatchAt(s, i).Some? then MatchAt(s, i)
    else if i == |s| then None
    else SearchFrom(s, i + 1)
  }

  /** The wait recorded for a rate-limited model: the suggested seconds,
      or 8 when the message suggests none. */
  function RateLimitWait(msg: string): real {
    match SearchFrom(msg, 0)
    case Some(v) => v
    case None => 8.0
  }

  lemma {:induction false} DigitsValueOfNatString(n: nat)
    ensures DigitsValue(NatString(n)) == n
  {
    if n >= 10 {
      var s := NatString(n);
      assert s[..|s| - 1] == NatString(n / 10);
      DigitsValueOfNatString(n / 10);
    }
  }

  /** A message saying "retry in <n>s", in any letter case and with any
      spacing, yields a wait of exactly n seconds. */
  lemma RateLimitWaitRoundTrip(w: string, sp: string, n: nat, unit: char, rest: string)
    requires |w| == 8 && RetryIn(w)
    requires forall k :: 0 <= k < |sp| ==> IsSpace(sp[k])
    requires IsS(unit)
    ensures RateLimitWait(w + sp + NatString(n) + [unit] + rest) == n as real
  {
    DigitsValueOfNatString(n);
    WaitOfDigits(w, sp, NatString(n), unit, rest);
  }

  lemma WaitOfDigits(w: string, sp: string, d: string, unit: char, rest: string)
    requires |w| == 8 && RetryIn(w)
    requires forall k :: 0 <= k < |sp| ==> IsSpace(sp[k])
    requires |d| > 0 && forall k :: 0 <= k < |d| ==> IsDigit(d[k])
    requires IsS(unit)
    ensures RateLimitWait(w + sp + d + [unit] + rest) == DigitsValue(d) as real
  {
    MessageLayout(w, sp, d, unit, rest);
    WaitAtStart(w + sp + d + [unit] + rest, |w + sp|, d);
  }

  /** `s` opens with the pattern: the words at the start, then spaces up to
      `j`, then exactly the digits `d`, then the unit. */
  predicate OpensWithMatch(s: string, j: nat, d: string) {
    8 <= |s| && RetryIn(s[0..8])
    && SkipSpaces(s, 8) == j && |d| > 0 && DigitRun(s, j) == |d|
    && j + |d| < |s| && IsS(s[j + |d|]) && s[j..j + |d|] == d
  }

  lemma MessageLayout(w: string, sp: string, d: string, unit: char, rest: string)
    requires |w| == 8 && RetryIn(w)
    requires forall k :: 0 <= k < |sp| ==> IsSpace(sp[k])
    requires |d| > 0 && forall k :: 0 <= k < |d| ==> IsDigit(d[k])
    requires IsS(unit)
    ensures OpensWithMatch(w + sp + d + [unit] + rest, |w + sp|, d)
  {
    SpacesLayout(w, sp, d, unit, rest);
    DigitsLayout(w + sp, d, unit, rest);
  }

  /** A match at the very start of the message decides the wait. */
  lemma WaitAtStart(s: string, j: nat, d: string)
    requires OpensWithMatch(s, j, d)
    ensures RateLimitWait(s) == DigitsValue(d) as real
  {
    WholeMatch(s, 0, j, |d|);
  }

  lemma SpacesLayout(w: string, sp: string, d: string, unit: char, rest: string)
    requires |w| == 8 && |d| > 0 && IsDigit(d[0])
    requires forall k :: 0 <= k < |sp| ==> IsSpace(sp[k])
    ensures (w + sp + d + [unit] + rest)[0..8] == w
    ensures SkipSpaces(w + sp + d + [unit] + rest, 8) == |w + sp|
  {
    var s := w + sp + d + [unit] + rest;
    assert s[0..8] == w;
    forall k | 8 <= k < 8 + |sp|
      ensures IsSpace(s[k])
    {
      assert s[k] == sp[k - 8];
    }
    assert s[8 + |sp|] == d[0];
    SkipSpacesStops(s, 8, |sp|);
  }

  lemma DigitsLayout(a: string, d: string, unit: char, rest: string)
    requires forall k :: 0 <= k < |d| ==> IsDigit(d[k])
    requires IsS(unit)
    ensures DigitRun(a + d + [unit] + rest, |a|) == |d|
    ensures (a + d + [unit] + rest)[|a| + |d|] == unit
    ensures (a + d + [unit] + rest)[|a|..|a| + |d|] == d
  {
    var s := a + d + [unit] + rest;
    forall k | |a| <= k < |a| + |d|
      ensures IsDigit(s[k])
    {
      assert s[k] == d[k - |a|];
    }
    assert s[|a| + |d|] == unit;
    DigitRunStops(s, |a|, |d|);
    assert s[|a|..|a| + |d|] == d;
  }

  /** A match with no fractional part: digits followed by the unit. */
  lemma WholeMatch(s: string, i: nat, j: nat, m: nat)
    requires i + 8 <= |s| && RetryIn(s[i..i + 8])
    requires SkipSpaces(s, i + 8) == j && m > 0 && DigitRun(s, j) == m
    requires j + m < |s| && IsS(s[j + m])
    ensures MatchAt(s, i) == Some(DigitsValue(s[j..j + m]) as real)
  {
    assert DigitsValue("") == 0 && Pow10(0) == 1;
  }

  lemma {:induction false} SkipSpacesStops(s: string, i: nat, m: nat)
    requires i + m < |s|
    requires forall k :: i <= k < i + m ==> IsSpace(s[k])
    requires !IsSpace(s[i + m])
    ensures SkipSpaces(s, i) == i + m
    decreases m
  {
    if m > 0 {
      SkipSpacesStops(s, i + 1, m - 1);
    }
  }

  lemma {:induction false} DigitRunStops(s: string, i: nat, m: nat)
    requires i + m < |s|
    requires forall k :: i <= k < i + m ==> IsDigit(s[k])
    requires !IsDigit(s[i + m])
    ensures DigitRun(s, i) == m
    decreases m
  {
    if m > 0 {
      DigitRunStops(s, i + 1, m - 1);
    }
  }

  /** A message without any digit suggests nothing, so the wait is 8. */
  lemma NoDigitsDefaultWait(msg: string)
    requires forall k :: 0 <= k < |msg| ==> !IsDigit(msg[k])
    ensures RateLimitWait(msg) == 8.0
  {
    NoMatchFrom(msg, 0);
  }

  lemma {:induction false} NoMatchFrom(msg: string, i: nat)
    requires i <= |msg|
    requires forall k :: 0 <= k < |msg| ==> !IsDigit(msg[k])
    ensures SearchFrom(msg, i) == None
    decreases |msg| - i
  {
    if i + 8 <= |msg| {
      var j := SkipSpaces(msg, i + 8);
      assert DigitRun(msg, j) == 0;
    }
    assert MatchAt(msg, i) == None;
    if i < |msg| {
      NoMatchFrom(msg, i + 1);
    }
  }

  /** Suggested waits are never negative. */
  lemma RateLimitWaitNonNegative(msg: string)
    ensures RateLimitWait(msg) >= 0.0
  {
    SearchNonNegative(msg, 0);
  }

  lemma {:induction false} SearchNonNegative(msg: string, i: nat)
    requires i <= |msg|
    ensures SearchFrom(msg, i).Some? ==> SearchFrom(msg, i).value >= 0.0
    decreases |msg| - i
  {
    if MatchAt(msg, i).None? && i < |msg| {
      SearchNonNegative(msg, i + 1);
    }
  }

  // ---------------------------------------------------------------------
  // The back-off before the second pass

  /** The smallest recorded wait. */
  function Min(waits: seq<real>): (m: real)
    requires |waits| > 0
    ensures m in waits
    ensures forall k :: 0 <= k < |waits| ==> m <= waits[k]
  {
    if |waits| == 1 then waits[0]
    else
      var r := Min(waits[1..]);
      assert forall k :: 1 <= k < |waits| ==> waits[k] == waits[1..][k - 1];
      if waits[0] <= r then waits[0] else r
  }

  /** min(max(min(rate_waits), 3.0), 20.0): the pause before the jitter.
      It lies in [3, 20], equals the shortest suggested wait when that is in
      range, and is never longer than any suggested wait of at least three
      seconds. */
  function Backoff(waits: seq<real>): (b: real)
    requires |waits| > 0
    ensures 3.0 <= b <= 20.0
    ensures 3.0 <= Min(waits) <= 20.0 ==> b == Min(waits)
    ensures forall k :: 0 <= k < |waits| && waits[k] >= 3.0 ==> b <= waits[k]
  {
    var m := Min(waits);
    if m < 3.0 then 3.0 else if m > 20.0 then 20.0 else m
  }
}
