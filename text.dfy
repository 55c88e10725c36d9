/** The handful of Python `str` operations the debate and classification
    pipelines rely on: strip(), lower(), startswith(), split(), splitlines(),
    join(), the `in` substring test and f-string formatting of an int. */
module PyStr {

  /** Python's str.isspace() for a single character (the Unicode White_Space
      characters plus the four ASCII separators U+001C..U+001F). */
  predicate IsSpace(c: char) {
    c == ' ' || c == '\t' || c == '\n' || c == '\r' || c == '\U{000B}' || c == '\U{000C}'
    || ('\U{001C}' <= c <= '\U{001F}') || c == '\U{0085}' || c == '\U{00A0}' || c == '\U{1680}'
    || ('\U{2000}' <= c <= '\U{200A}') || c == '\U{2028}' || c == '\U{2029}' || c == '\U{202F}'
    || c == '\U{205F}' || c == '\U{3000}'
  }

  /** Leading whitespace removed (the left half of str.strip()). */
  function TrimLeft(s: string): (r: string)
    ensures |r| <= |s|
  {
    if s != [] && IsSpace(s[0]) then TrimLeft(s[1..]) else s
  }

  /** What TrimLeft removes is a run of whitespace, and what it keeps is the
      rest of the text, starting with a non-space. */
  lemma {:induction false} TrimLeftFacts(s: string)
    ensures TrimLeft(s) == s[|s| - |TrimLeft(s)|..]
    ensures TrimLeft(s) != [] ==> !IsSpace(TrimLeft(s)[0])
    ensures forall i :: 0 <= i < |s| - |TrimLeft(s)| ==> IsSpace(s[i])
  {
    if s != [] && IsSpace(s[0]) {
      TrimLeftFacts(s[1..]);
      assert forall i :: 1 <= i < |s| - |TrimLeft(s)| ==> s[i] == s[1..][i - 1];
    }
  }

  /** Trailing whitespace removed (the right half of str.strip()). */
  function TrimRight(s: string): (r: string)
    ensures |r| <= |s|
  {
    if s != [] && IsSpace(s[|s| - 1]) then TrimRight(s[..|s| - 1]) else s
  }

  /** What TrimRight removes is a run of whitespace, and what it keeps is the
      front of the text, ending with a non-space. */
  lemma {:induction false} TrimRightFacts(s: string)
    ensures TrimRight(s) == s[..|TrimRight(s)|]
    ensures TrimRight(s) != [] ==> !IsSpace(TrimRight(s)[|TrimRight(s)| - 1])
    ensures forall i :: |TrimRight(s)| <= i < |s| ==> IsSpace(s[i])
  {
    if s != [] && IsSpace(s[|s| - 1]) {
      TrimRightFacts(s[..|s| - 1]);
    }
  }

  /** str.strip() with no argument. */
  function Strip(s: string): string {
    TrimRight(TrimLeft(s))
  }

  /** str.lower() restricted to ASCII letters. */
  function LowerChar(c: char): char {
    if 'A' <= c <= 'Z' then (c as int + 32) as char else c
  }

  function Lower(s: string): (r: string)
    ensures |r| == |s|
  {
    if s == [] then [] else [LowerChar(s[0])] + Lower(s[1..])
  }

  /** lower() works character by character. */
  lemma {:induction false} LowerChars(s: string)
    ensures forall i :: 0 <= i < |s| ==> Lower(s)[i] == LowerChar(s[i])
  {
    if s != [] {
      LowerChars(s[1..]);
    }
  }

  /** str.startswith(prefix). */
  predicate StartsWith(s: string, prefix: string) {
    |prefix| <= |s| && s[..|prefix|] == prefix
  }

  /** `m` occurs in `s` starting at index `i`. */
  predicate OccursAt(s: string, m: string, i: int) {
    0 <= i && i + |m| <= |s| && s[i..i + |m|] == m
  }

  /** Python's `m in s` for two strings. */
  predicate Contains(s: string, m: string) {
    exists i | 0 <= i <= |s| - |m| :: OccursAt(s, m, i)
  }

  /** str.split(sep) with an explicit one-character separator: the pieces
      between separators, empty ones included. */
  function Split(s: string, sep: char): (r: seq<string>)
    ensures |r| >= 1
    ensures forall k :: 0 <= k < |r| ==> sep !in r[k]
    ensures Join([sep], r) == s
  {
    if sep !in s then [s]
    else
      var i := FirstIndex(s, sep);
      var rest := Split(s[i + 1..], sep);
      assert ([s[..i]] + rest)[1..] == rest;
      assert s == s[..i] + [sep] + s[i + 1..];
      [s[..i]] + rest
  }

  /** Index of the first occurrence of `c` in `s`. */
  function FirstIndex(s: string, c: char): (i: nat)
    requires c in s
    ensures i < |s| && s[i] == c && c !in s[..i]
  {
    if s[0] == c then 0 else 1 + FirstIndex(s[1..], c)
  }

  /** The characters str.splitlines() breaks at. */
  predicate IsLineBreak(c: char) {
    c == '\n' || c == '\r' || c == '\U{000B}' || c == '\U{000C}' || c == '\U{001C}'
    || c == '\U{001D}' || c == '\U{001E}' || c == '\U{0085}' || c == '\U{2028}' || c == '\U{2029}'
  }

  /** Index of the first line break in `s`, or |s| when there is none. */
  function LineEnd(s: string): (i: nat)
    ensures i <= |s|
    ensures forall k :: 0 <= k < i ==> !IsLineBreak(s[k])
    ensures i < |s| ==> IsLineBreak(s[i])
  {
    if s == [] || IsLineBreak(s[0]) then 0 else 1 + LineEnd(s[1..])
  }

  /** str.splitlines(): lines without their terminators; "\r\n" is one
      terminator and a terminator at the very end opens no empty line. */
  function SplitLines(s: string): (r: seq<string>)
    ensures forall k :: 0 <= k < |r| ==> OneLine(r[k])
    decreases |s|
  {
    if s == [] then []
    else
      var i := LineEnd(s);
      if i == |s| then [s]
      else [s[..i]] + SplitLines(s[TerminatorEnd(s, i)..])
  }

  /** Where the terminator starting at `s[i]` ends: "\r\n" is one
      terminator. */
  function TerminatorEnd(s: string, i: nat): (j: nat)
    requires i < |s|
    ensures i < j <= |s|
  {
    if s[i] == '\r' && i + 1 < |s| && s[i + 1] == '\n' then i + 2 else i + 1
  }

  /** sep.join(parts). */
  function Join(sep: string, parts: seq<string>): string {
    if parts == [] then ""
    else if |parts| == 1 then parts[0]
    else parts[0] + sep + Join(sep, parts[1..])
  }

  /** str.split(c, 1)[1]: everything after the first `c`. */
  function AfterFirst(s: string, c: char): (r: string)
    requires c in s
    ensures exists i :: 0 <= i < |s| && s[i] == c && c !in s[..i] && r == s[i + 1..]
  {
    s[FirstIndex(s, c) + 1..]
  }

  function DigitChar(d: nat): (c: char)
    requires d < 10
    ensures '0' <= c <= '9'
  {
    (48 + d) as char
  }

  /** The decimal digits of a natural number, most significant first. */
  function NatString(n: nat): (r: string)
    ensures |r| >= 1
    ensures forall k :: 0 <= k < |r| ==> '0' <= r[k] <= '9'
    ensures (|r| == 1) == (n < 10)
  {
    if n < 10 then [DigitChar(n)] else NatString(n / 10) + [DigitChar(n % 10)]
  }

  /** f"{n}" for a Python int. */
  function DecimalString(n: int): string {
    if n < 0 then "-" + NatString(-n) else NatString(n)
  }

  // ---------------------------------------------------------------------
  // Facts about the operations above

  /** Different numbers print differently. */
  lemma {:induction false} NatStringInjective(a: nat, b: nat)
    requires NatString(a) == NatString(b)
    ensures a == b
  {
    if a >= 10 && b >= 10 {
      var sa, sb := NatString(a), NatString(b);
      assert sa[..|sa| - 1] == NatString(a / 10);
      assert sb[..|sb| - 1] == NatString(b / 10);
      NatStringInjective(a / 10, b / 10);
      assert DigitChar(a % 10) == sa[|sa| - 1] == sb[|sb| - 1] == DigitChar(b % 10);
    }
  }

  lemma {:induction false} LowerIdempotent(s: string)
    ensures Lower(Lower(s)) == Lower(s)
  {
    LowerChars(s);
    LowerChars(Lower(s));
    assert forall i :: 0 <= i < |s| ==> LowerChar(LowerChar(s[i])) == LowerChar(s[i]);
  }

  lemma LowerOfDigits(s: string)
    requires forall k :: 0 <= k < |s| ==> '0' <= s[k] <= '9'
    ensures Lower(s) == s
  {
  }

  lemma LowerConcat(a: string, b: string)
    ensures Lower(a + b) == Lower(a) + Lower(b)
  {
    LowerChars(a + b);
    LowerChars(a);
    LowerChars(b);
    assert forall i :: |a| <= i < |a| + |b| ==> (a + b)[i] == b[i - |a|];
  }

  /** Lower-casing neither creates nor removes whitespace. */
  lemma LowerKeepsSpace(c: char)
    ensures IsSpace(LowerChar(c)) == IsSpace(c)
  {
  }

  lemma {:induction false} TrimLeftLower(s: string)
    ensures TrimLeft(Lower(s)) == Lower(TrimLeft(s))
    decreases |s|
  {
    if s != [] {
      LowerKeepsSpace(s[0]);
      assert Lower(s)[1..] == Lower(s[1..]);
      if IsSpace(s[0]) {
        TrimLeftLower(s[1..]);
      }
    }
  }

  lemma {:induction false} TrimRightLower(s: string)
    ensures TrimRight(Lower(s)) == Lower(TrimRight(s))
    decreases |s|
  {
    if s != [] {
      LowerKeepsSpace(s[|s| - 1]);
      LowerChars(s);
      LowerChars(s[..|s| - 1]);
      assert Lower(s)[..|s| - 1] == Lower(s[..|s| - 1]);
      if IsSpace(s[|s| - 1]) {
        TrimRightLower(s[..|s| - 1]);
      }
    }
  }

  /** strip() and lower() commute. */
  lemma StripLower(s: string)
    ensures Strip(Lower(s)) == Lower(Strip(s))
  {
    TrimLeftLower(s);
    TrimRightLower(TrimLeft(s));
  }

  /** A string with no whitespace at either end is its own strip(). */
  lemma StripNoOp(s: string)
    requires s != [] ==> !IsSpace(s[0]) && !IsSpace(s[|s| - 1])
    ensures Strip(s) == s
  {
    assert TrimLeft(s) == s;
  }

  lemma {:induction false} StripIdempotent(s: string)
    ensures Strip(Strip(s)) == Strip(s)
  {
    var r := Strip(s);
    var l := TrimLeft(s);
    TrimLeftFacts(s);
    TrimRightFacts(l);
    if r != [] {
      assert r == l[..|r|];
      assert !IsSpace(r[0]);
    }
    StripNoOp(r);
  }

  // ---------------------------------------------------------------------
  // Substring facts used to show which branch of a prompt dispatcher fires

  /** A text lacking some character of `m` cannot contain `m`. */
  lemma NotContainsByMissingChar(s: string, m: string, j: nat)
    requires j < |m| && m[j] !in s
    ensures !Contains(s, m)
  {
    forall i | 0 <= i <= |s| - |m|
      ensures !OccursAt(s, m, i)
    {
      assert s[i..i + |m|][j] == s[i + j];
    }
  }

  /** If the first character of `m` is not in `a`, an occurrence of `m` in
      `a + b` lies wholly inside `b`. */
  lemma NotContainsAfterHead(a: string, b: string, m: string)
    requires |m| > 0 && m[0] !in a && !Contains(b, m)
    ensures !Contains(a + b, m)
  {
    var s := a + b;
    forall i | 0 <= i <= |s| - |m|
      ensures !OccursAt(s, m, i)
    {
      if i < |a| {
        assert s[i..i + |m|][0] == a[i];
      } else {
        assert s[i..i + |m|] == b[i - |a|..i - |a| + |m|];
        assert !OccursAt(b, m, i - |a|);
      }
    }
  }

  /** Two texts joined by a character that `m` lacks contain `m` only if one
      of them does. */
  lemma NotContainsAcrossSeparator(a: string, sep: string, b: string, m: string)
    requires |sep| == 1 && sep[0] !in m
    requires !Contains(a, m) && !Contains(b, m)
    ensures !Contains(a + sep + b, m)
  {
    var s := a + sep + b;
    forall i | 0 <= i <= |s| - |m|
      ensures !OccursAt(s, m, i)
    {
      if i + |m| <= |a| {
        assert s[i..i + |m|] == a[i..i + |m|];
        assert !OccursAt(a, m, i);
      } else if i > |a| {
        assert s[i..i + |m|] == b[i - |a| - 1..i - |a| - 1 + |m|];
        assert !OccursAt(b, m, i - |a| - 1);
      } else {
        assert s[i..i + |m|][|a| - i] == sep[0];
      }
    }
  }

  /** A text built around `m` contains it. */
  lemma ContainsInside(a: string, m: string, b: string)
    ensures Contains(a + m + b, m)
  {
    assert OccursAt(a + m + b, m, |a|);
  }

  /** A text that opens with `m` contains it. */
  lemma ContainsAtStart(m: string, b: string)
    ensures Contains(m + b, m)
  {
    assert (m + b)[0..|m|] == m;
    assert OccursAt(m + b, m, 0);
  }

  // ---------------------------------------------------------------------
  // Facts about splitlines() and strip() on text assembled line by line

  /** A text with no line break in it. */
  predicate OneLine(s: string) {
    forall k :: 0 <= k < |s| ==> !IsLineBreak(s[k])
  }

  lemma {:induction false} LineEndAfter(a: string, rest: string)
    requires OneLine(a)
    ensures LineEnd(a + rest) == |a| + LineEnd(rest)
  {
    if a != [] {
      assert (a + rest)[1..] == a[1..] + rest;
      LineEndAfter(a[1..], rest);
    } else {
      assert a + rest == rest;
    }
  }

  /** A terminator str.splitlines() cuts at: "\r\n", or one line-break
      character. */
  predicate IsTerminator(t: string) {
    t == "\r\n" || (|t| == 1 && IsLineBreak(t[0]))
  }

  /** Each line followed by its terminator, all concatenated. */
  function Rejoin(lines: seq<string>, terms: seq<string>): string
    requires |lines| == |terms|
  {
    if lines == [] then "" else lines[0] + terms[0] + Rejoin(lines[1..], terms[1..])
  }

  /** splitlines() of a line, a terminator and more text: that line, then
      the lines of the rest. "\r\n" is cut as one terminator, so a lone
      "\r" counts only when no "\n" follows it. */
  lemma SplitLinesAt(a: string, t: string, b: string)
    requires OneLine(a) && IsTerminator(t)
    requires t == "\r" ==> !StartsWith(b, "\n")
    ensures SplitLines(a + t + b) == [a] + SplitLines(b)
  {
    var s := a + t + b;
    var n := |a| + |t|;
    assert LineEnd(s) == |a| by {
      LineEndAfter(a, t + b);
      assert s == a + (t + b);
    }
    assert s[..|a|] == a && s[n..] == b;
    assert TerminatorEnd(s, |a|) == n by {
      assert s[|a|] == t[0];
      if t == "\r\n" {
        assert s[|a| + 1] == '\n';
      } else if t[0] == '\r' && |a| + 1 < |s| {
        assert s[|a| + 1] == b[0];
      }
    }
  }

  /** A terminator at the very end opens no empty line. */
  lemma SplitLinesTrailing(a: string, t: string)
    requires OneLine(a) && IsTerminator(t)
    ensures SplitLines(a + t) == [a]
  {
    SplitLinesAt(a, t, "");
    assert a + t + "" == a + t;
  }

  /** `s` is the pieces `lines`, each followed by the terminator it was
      cut at in `terms`; only the last piece may have none, and a lone
      "\r" is never followed by a "\n", which would have been cut with it. */
  ghost predicate CutBy(s: string, lines: seq<string>, terms: seq<string>) {
    && |terms| == |lines|
    && Rejoin(lines, terms) == s
    && (forall j :: 0 <= j < |terms| ==> IsTerminator(terms[j]) || (j == |terms| - 1 && terms[j] == ""))
    && (forall j :: 0 <= j < |terms| && terms[j] == "\r" ==> !StartsWith(Rejoin(lines[j + 1..], terms[j + 1..]), "\n"))
  }

  lemma CutByCons(a: string, t: string, b: string, lines: seq<string>, terms: seq<string>)
    requires IsTerminator(t) && CutBy(b, lines, terms)
    requires t == "\r" ==> !StartsWith(b, "\n")
    ensures CutBy(a + t + b, [a] + lines, [t] + terms)
  {
    var L, T := [a] + lines, [t] + terms;
    assert L[1..] == lines && T[1..] == terms;
    forall j | 0 <= j < |T| && T[j] == "\r"
      ensures !StartsWith(Rejoin(L[j + 1..], T[j + 1..]), "\n")
    {
      if j > 0 {
        assert L[j + 1..] == lines[j..] && T[j + 1..] == terms[j..] && T[j] == terms[j - 1];
      }
    }
  }

  /** The text cut at a line break is a terminator, and a lone "\r" is
      cut only where no "\n" follows. */
  lemma TerminatorCut(s: string, i: nat)
    requires i < |s| && IsLineBreak(s[i])
    ensures IsTerminator(s[i..TerminatorEnd(s, i)])
    ensures s[i..TerminatorEnd(s, i)] == "\r" ==> !StartsWith(s[TerminatorEnd(s, i)..], "\n")
  {
    var j := TerminatorEnd(s, i);
    if j == i + 1 && s[i] == '\r' && j < |s| {
      assert s[j..][0] == s[i + 1];
    }
  }

  lemma ThreeParts(s: string, i: nat, j: nat)
    requires i <= j <= |s|
    ensures s == s[..i] + s[i..j] + s[j..]
  {
    assert s[..j] == s[..i] + s[i..j];
  }

  /** Rejoining the pieces of splitlines() with the terminators they were
      cut at gives back the text. */
  lemma {:induction false} SplitLinesRejoin(s: string)
    ensures exists terms :: CutBy(s, SplitLines(s), terms)
    decreases |s|
  {
    var lines := SplitLines(s);
    if s == [] {
      assert CutBy(s, lines, []);
    } else {
      var i := LineEnd(s);
      if i == |s| {
        assert lines == [s];
        assert Rejoin(lines, [""]) == s + "" + "";
        assert CutBy(s, lines, [""]);
      } else {
        var next := TerminatorEnd(s, i);
        var rest := SplitLines(s[next..]);
        assert lines == [s[..i]] + rest;
        SplitLinesRejoin(s[next..]);
        var terms :| CutBy(s[next..], rest, terms);
        var t := s[i..next];
        TerminatorCut(s, i);
        ThreeParts(s, i, next);
        CutByCons(s[..i], t, s[next..], rest, terms);
      }
    }
  }

  /** splitlines() of a single non-empty line. */
  lemma SplitLinesSingle(a: string)
    requires OneLine(a) && a != []
    ensures SplitLines(a) == [a]
  {
    LineEndAfter(a, "");
    assert a + "" == a;
  }

  /** splitlines() of three lines joined by newlines. */
  lemma SplitThreeLines(a: string, b: string, c: string)
    requires OneLine(a) && OneLine(b) && OneLine(c) && c != []
    ensures SplitLines(a + "\n" + b + "\n" + c) == [a, b, c]
  {
    assert a + "\n" + b + "\n" + c == a + "\n" + (b + "\n" + c);
    SplitLinesAt(a, "\n", b + "\n" + c);
    SplitLinesAt(b, "\n", c);
    SplitLinesSingle(c);
  }

  lemma OneLineConcat(a: string, b: string)
    requires OneLine(a) && OneLine(b)
    ensures OneLine(a + b)
  {
    assert forall k :: |a| <= k < |a + b| ==> (a + b)[k] == b[k - |a|];
  }

  /** A blank before a stripped text is removed by strip(). */
  lemma StripAfterBlank(s: string)
    requires s != [] ==> !IsSpace(s[0]) && !IsSpace(s[|s| - 1])
    ensures Strip(" " + s) == s
  {
    assert (" " + s)[1..] == s;
    assert TrimLeft(" " + s) == TrimLeft(s);
    StripNoOp(s);
  }
}
