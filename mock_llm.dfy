/** The offline stand-in for the text generator: a call counter and a
    dispatch on marker phrases in the prompt. */
module MockLlm {
  import opened PyStr
  import opened Validators

  // The phrases the mock looks for, in the order it looks for them.
  const JudgeMarker := "Output format (strict):"
  const SummaryMarker := "Summarize the debate transcript"
  const ExtractMarker := "Extract the opponent's most recent"

  // Its canned replies. Long literals are written as short pieces so that
  // the verifier can inspect them character by character.
  const JudgeSummaryLine := "Summary: " + "A balanced " + "debate " + "occurred."
  const JudgeWinnerLine := "Winner: " + "Scientist"
  const JudgeReasonLine := "Reason: " + "More concrete " + "risk-based " + "points."
  const JudgeReply := JudgeSummaryLine + "\n" + JudgeWinnerLine + "\n" + JudgeReasonLine
  const SummaryReply := "Summary " + "of debate " + "so far: " + "key points " + "listed "
    + "succinctly."
  const ExtractReply := "- Opponent " + "noted " + "concerns " + "or freedoms.\n-" + " Address "
    + "trade-offs."

  const ArgumentHead := "Argument #"
  const ArgumentTail := ": A new, " + "non-repetitive" + " point " + "relevant " + "to the "
    + "topic."

  /** The reply to every other prompt: an argument numbered by the counter. */
  function ArgumentReply(n: int): string {
    ArgumentHead + DecimalString(n) + ArgumentTail
  }

  /** What `generate` returns when the counter reads `n`. */
  function MockReply(n: int, prompt: string): string {
    if Contains(prompt, JudgeMarker) then JudgeReply
    else if Contains(prompt, SummaryMarker) then SummaryReply
    else if Contains(prompt, ExtractMarker) then ExtractReply
    else ArgumentReply(n)
  }

  /** A text in which none of the three marker phrases occurs. */
  predicate Unmarked(s: string) {
    !Contains(s, JudgeMarker) && !Contains(s, SummaryMarker) && !Contains(s, ExtractMarker)
  }

  class MockLLM {
    /** The value the next call draws from the counter. */
    var counter: nat

    constructor ()
      ensures counter == 1
    {
      counter := 1;
    }

    /** One generation: draw a number, then dispatch on the prompt. */
    method Generate(prompt: string) returns (r: string)
      modifies this
      ensures counter == old(counter) + 1
      ensures r == MockReply(old(counter), prompt)
    {
      var n := counter;
      counter := counter + 1;
      if Contains(prompt, JudgeMarker) {
        return JudgeReply;
      }
      if Contains(prompt, SummaryMarker) {
        return SummaryReply;
      }
      if Contains(prompt, ExtractMarker) {
        return ExtractReply;
      }
      return ArgumentReply(n);
    }
  }

  // ---------------------------------------------------------------------
  // What the mock's replies look like

  /** A prompt carrying none of the markers gets the numbered argument. */
  lemma UnmarkedPromptGetsArgument(n: int, prompt: string)
    requires Unmarked(prompt)
    ensures MockReply(n, prompt) == ArgumentReply(n)
  {
  }

  /** The judge marker wins over the other two. */
  lemma JudgeMarkerFirst(n: int, prompt: string)
    requires Contains(prompt, JudgeMarker)
    ensures MockReply(n, prompt) == JudgeReply
  {
  }

  lemma ArgumentReplyShape(n: nat)
    ensures ArgumentReply(n) == ArgumentHead + NatString(n) + ArgumentTail
    ensures |ArgumentHead| == 10
    ensures ArgumentReply(n)[0] == 'A'
    ensures ArgumentReply(n)[|ArgumentReply(n)| - 1] == '.'
  {
    var s := ArgumentReply(n);
    assert s[|s| - 1] == ArgumentTail[|ArgumentTail| - 1];
  }

  /** Numbered arguments are long enough to pass the coherence length test. */
  lemma ArgumentReplyLongEnough(n: nat)
    ensures Strip(ArgumentReply(n)) == ArgumentReply(n)
    ensures |Strip(ArgumentReply(n))| >= MinCoherentLength
  {
    ArgumentReplyShape(n);
    StripNoOp(ArgumentReply(n));
  }

  /** The normalized form of a numbered argument: only the head and tail
      letters change case; the digits stay as they are. */
  lemma NormalizedArgumentReply(n: nat)
    ensures Normalize(ArgumentReply(n)) == Lower(ArgumentHead) + NatString(n) + Lower(ArgumentTail)
  {
    ArgumentReplyLongEnough(n);
    ArgumentReplyShape(n);
    calc {
      Normalize(ArgumentReply(n));
      Lower(ArgumentReply(n));
      Lower(ArgumentHead + NatString(n) + ArgumentTail);
      { LowerAroundDigits(ArgumentHead, NatString(n), ArgumentTail); }
      Lower(ArgumentHead) + NatString(n) + Lower(ArgumentTail);
    }
  }

  lemma LowerAroundDigits(h: string, d: string, t: string)
    requires forall k :: 0 <= k < |d| ==> '0' <= d[k] <= '9'
    ensures Lower(h + d + t) == Lower(h) + d + Lower(t)
  {
    LowerConcat(h + d, t);
    LowerConcat(h, d);
    LowerOfDigits(d);
  }

  /** Numbered arguments drawn at different counter values differ even after
      normalization, so the repetition check never rejects one of them
      against an earlier one. */
  lemma ArgumentRepliesDistinct(a: nat, b: nat)
    requires a != b
    ensures Normalize(ArgumentReply(a)) != Normalize(ArgumentReply(b))
  {
    NormalizedArgumentReply(a);
    NormalizedArgumentReply(b);
    var h, t := Lower(ArgumentHead), Lower(ArgumentTail);
    var da, db := NatString(a), NatString(b);
    if h + da + t == h + db + t {
      assert |da| == |db|;
      assert da == (h + da + t)[|h|..|h| + |da|];
      assert db == (h + db + t)[|h|..|h| + |db|];
      NatStringInjective(a, b);
    }
  }

  // One character of each marker that a canned text lacks; each fact is
  // kept in a lemma of its own because the verifier checks a literal
  // character by character.
  lemma JudgeReplyLacksO()
    ensures JudgeMarker[0] !in JudgeReply
  {
    assert JudgeMarker[0] !in "Summary: ";
    assert JudgeMarker[0] !in "A balanced ";
    assert JudgeMarker[0] !in "debate ";
    assert JudgeMarker[0] !in "occurred.";
    assert JudgeMarker[0] !in "\n";
    assert JudgeMarker[0] !in "Winner: ";
    assert JudgeMarker[0] !in "Scientist";
    assert JudgeMarker[0] !in "\n";
    assert JudgeMarker[0] !in "Reason: ";
    assert JudgeMarker[0] !in "More concrete ";
    assert JudgeMarker[0] !in "risk-based ";
    assert JudgeMarker[0] !in "points.";
  }
  lemma JudgeReplyLacksZ()
    ensures SummaryMarker[7] !in JudgeReply
  {
    assert SummaryMarker[7] !in "Summary: ";
    assert SummaryMarker[7] !in "A balanced ";
    assert SummaryMarker[7] !in "debate ";
    assert SummaryMarker[7] !in "occurred.";
    assert SummaryMarker[7] !in "\n";
    assert SummaryMarker[7] !in "Winner: ";
    assert SummaryMarker[7] !in "Scientist";
    assert SummaryMarker[7] !in "\n";
    assert SummaryMarker[7] !in "Reason: ";
    assert SummaryMarker[7] !in "More concrete ";
    assert SummaryMarker[7] !in "risk-based ";
    assert SummaryMarker[7] !in "points.";
  }
  lemma JudgeReplyLacksQuote()
    ensures ExtractMarker[20] !in JudgeReply
  {
    assert ExtractMarker[20] !in "Summary: ";
    assert ExtractMarker[20] !in "A balanced ";
    assert ExtractMarker[20] !in "debate ";
    assert ExtractMarker[20] !in "occurred.";
    assert ExtractMarker[20] !in "\n";
    assert ExtractMarker[20] !in "Winner: ";
    assert ExtractMarker[20] !in "Scientist";
    assert ExtractMarker[20] !in "\n";
    assert ExtractMarker[20] !in "Reason: ";
    assert ExtractMarker[20] !in "More concrete ";
    assert ExtractMarker[20] !in "risk-based ";
    assert ExtractMarker[20] !in "points.";
  }
  lemma SummaryReplyLacksO()
    ensures JudgeMarker[0] !in SummaryReply
  {
    assert JudgeMarker[0] !in "Summary ";
    assert JudgeMarker[0] !in "of debate ";
    assert JudgeMarker[0] !in "so far: ";
    assert JudgeMarker[0] !in "key points ";
    assert JudgeMarker[0] !in "listed ";
    assert JudgeMarker[0] !in "succinctly.";
  }
  lemma SummaryReplyLacksZ()
    ensures SummaryMarker[7] !in SummaryReply
  {
    assert SummaryMarker[7] !in "Summary ";
    assert SummaryMarker[7] !in "of debate ";
    assert SummaryMarker[7] !in "so far: ";
    assert SummaryMarker[7] !in "key points ";
    assert SummaryMarker[7] !in "listed ";
    assert SummaryMarker[7] !in "succinctly.";
  }
  lemma SummaryReplyLacksQuote()
    ensures ExtractMarker[20] !in SummaryReply
  {
    assert ExtractMarker[20] !in "Summary ";
    assert ExtractMarker[20] !in "of debate ";
    assert ExtractMarker[20] !in "so far: ";
    assert ExtractMarker[20] !in "key points ";
    assert ExtractMarker[20] !in "listed ";
    assert ExtractMarker[20] !in "succinctly.";
  }
  lemma ExtractReplyLacksParen()
    ensures JudgeMarker[14] !in ExtractReply
  {
    assert JudgeMarker[14] !in "- Opponent ";
    assert JudgeMarker[14] !in "noted ";
    assert JudgeMarker[14] !in "concerns ";
    assert JudgeMarker[14] !in "or freedoms.\n-";
    assert JudgeMarker[14] !in " Address ";
    assert JudgeMarker[14] !in "trade-offs.";
  }
  lemma ExtractReplyLacksZ()
    ensures SummaryMarker[7] !in ExtractReply
  {
    assert SummaryMarker[7] !in "- Opponent ";
    assert SummaryMarker[7] !in "noted ";
    assert SummaryMarker[7] !in "concerns ";
    assert SummaryMarker[7] !in "or freedoms.\n-";
    assert SummaryMarker[7] !in " Address ";
    assert SummaryMarker[7] !in "trade-offs.";
  }
  lemma ExtractReplyLacksQuote()
    ensures ExtractMarker[20] !in ExtractReply
  {
    assert ExtractMarker[20] !in "- Opponent ";
    assert ExtractMarker[20] !in "noted ";
    assert ExtractMarker[20] !in "concerns ";
    assert ExtractMarker[20] !in "or freedoms.\n-";
    assert ExtractMarker[20] !in " Address ";
    assert ExtractMarker[20] !in "trade-offs.";
  }
  lemma ArgumentHeadLacksO()
    ensures JudgeMarker[0] !in ArgumentHead
  {
    assert JudgeMarker[0] !in "Argument #";
  }
  lemma ArgumentHeadLacksZ()
    ensures SummaryMarker[7] !in ArgumentHead
  {
    assert SummaryMarker[7] !in "Argument #";
  }
  lemma ArgumentHeadLacksQuote()
    ensures ExtractMarker[20] !in ArgumentHead
  {
    assert ExtractMarker[20] !in "Argument #";
  }
  lemma ArgumentTailLacksO()
    ensures JudgeMarker[0] !in ArgumentTail
  {
    assert JudgeMarker[0] !in ": A new, ";
    assert JudgeMarker[0] !in "non-repetitive";
    assert JudgeMarker[0] !in " point ";
    assert JudgeMarker[0] !in "relevant ";
    assert JudgeMarker[0] !in "to the ";
    assert JudgeMarker[0] !in "topic.";
  }
  lemma ArgumentTailLacksZ()
    ensures SummaryMarker[7] !in ArgumentTail
  {
    assert SummaryMarker[7] !in ": A new, ";
    assert SummaryMarker[7] !in "non-repetitive";
    assert SummaryMarker[7] !in " point ";
    assert SummaryMarker[7] !in "relevant ";
    assert SummaryMarker[7] !in "to the ";
    assert SummaryMarker[7] !in "topic.";
  }
  lemma ArgumentTailLacksQuote()
    ensures ExtractMarker[20] !in ArgumentTail
  {
    assert ExtractMarker[20] !in ": A new, ";
    assert ExtractMarker[20] !in "non-repetitive";
    assert ExtractMarker[20] !in " point ";
    assert ExtractMarker[20] !in "relevant ";
    assert ExtractMarker[20] !in "to the ";
    assert ExtractMarker[20] !in "topic.";
  }

  /** A text made of digits only, wrapped in the argument's head and tail,
      lacks a character of each marker. */
  lemma ArgumentReplyUnmarked(n: nat)
    ensures Unmarked(ArgumentReply(n))
  {
    ArgumentReplyShape(n);
    var s := ArgumentReply(n);
    var d := NatString(n);
    assert forall k :: 0 <= k < |d| ==> '0' <= d[k] <= '9';
    ArgumentHeadLacksO();
    ArgumentTailLacksO();
    assert JudgeMarker[0] !in d;
    NotContainsByMissingChar(s, JudgeMarker, 0);
    ArgumentHeadLacksZ();
    ArgumentTailLacksZ();
    assert SummaryMarker[7] !in d;
    NotContainsByMissingChar(s, SummaryMarker, 7);
    ArgumentHeadLacksQuote();
    ArgumentTailLacksQuote();
    assert ExtractMarker[20] !in d;
    NotContainsByMissingChar(s, ExtractMarker, 20);
  }

  /** None of the mock's replies carries a marker phrase, so feeding a reply
      back into a later prompt cannot change which branch that prompt takes. */
  lemma MockReplyUnmarked(n: nat, prompt: string)
    ensures Unmarked(MockReply(n, prompt))
  {
    var r := MockReply(n, prompt);
    if r == JudgeReply {
      JudgeReplyLacksO();
      NotContainsByMissingChar(r, JudgeMarker, 0);
      JudgeReplyLacksZ();
      NotContainsByMissingChar(r, SummaryMarker, 7);
      JudgeReplyLacksQuote();
      NotContainsByMissingChar(r, ExtractMarker, 20);
    } else if r == SummaryReply {
      SummaryReplyLacksO();
      NotContainsByMissingChar(r, JudgeMarker, 0);
      SummaryReplyLacksZ();
      NotContainsByMissingChar(r, SummaryMarker, 7);
      SummaryReplyLacksQuote();
      NotContainsByMissingChar(r, ExtractMarker, 20);
    } else if r == ExtractReply {
      ExtractReplyLacksParen();
      NotContainsByMissingChar(r, JudgeMarker, 14);
      ExtractReplyLacksZ();
      NotContainsByMissingChar(r, SummaryMarker, 7);
      ExtractReplyLacksQuote();
      NotContainsByMissingChar(r, ExtractMarker, 20);
    } else {
      ArgumentReplyUnmarked(n);
    }
  }

  // ---------------------------------------------------------------------
  // Building unmarked texts out of unmarked pieces

  /** The characters that show a text cannot hold any marker: one from each
      of the three phrases. */
  predicate LacksMarkerChars(s: string) {
    JudgeMarker[0] !in s && SummaryMarker[7] !in s && ExtractMarker[20] !in s
  }

  lemma UnmarkedByChars(s: string)
    requires LacksMarkerChars(s)
    ensures Unmarked(s)
  {
    NotContainsByMissingChar(s, JudgeMarker, 0);
    NotContainsByMissingChar(s, SummaryMarker, 7);
    NotContainsByMissingChar(s, ExtractMarker, 20);
  }

  /** Two unmarked texts on separate lines make an unmarked text: no marker
      spans a line break. */
  lemma UnmarkedLines(a: string, b: string)
    requires Unmarked(a) && Unmarked(b)
    ensures Unmarked(a + "\n" + b)
  {
    NotContainsAcrossSeparator(a, "\n", b, JudgeMarker);
    NotContainsAcrossSeparator(a, "\n", b, SummaryMarker);
    NotContainsAcrossSeparator(a, "\n", b, ExtractMarker);
  }

  /** A head lacking the first letter of every marker, followed by an
      unmarked text, is unmarked. */
  lemma UnmarkedAfterHead(a: string, b: string)
    requires JudgeMarker[0] !in a && SummaryMarker[0] !in a && ExtractMarker[0] !in a
    requires Unmarked(b)
    ensures Unmarked(a + b)
  {
    NotContainsAfterHead(a, b, JudgeMarker);
    NotContainsAfterHead(a, b, SummaryMarker);
    NotContainsAfterHead(a, b, ExtractMarker);
  }
}
