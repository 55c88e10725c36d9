/** judge_node: one request for a verdict in the strict three-line format,
    a line-by-line parse of the answer, and a parity fallback when the
    answer names no valid winner. */
module Judge {
  import opened PyStr
  import opened State
  import opened MockLlm
  import opened Prompts
  import opened Client
  import opened Nodes
  import opened Memory

  /** What the parse has read so far: summary, winner and reason. */
  datatype Judgment = Judgment(summary: string, winner: Option<Speaker>, reason: string)

  /** The parse's starting point: summary, winner, reason = "", None, "". */
  const NoJudgment := Judgment("", None, "")

  /** line.lower().startswith(tag). */
  predicate Tagged(line: string, tag: string) {
    StartsWith(Lower(line), tag)
  }

  /** A line whose lower-cased form starts with a tag ending in ':' has a
      colon at the same place. */
  lemma TaggedHasColon(line: string, tag: string)
    requires |tag| > 0 && tag[|tag| - 1] == ':' && Tagged(line, tag)
    ensures ':' in line
  {
    LowerChars(line);
    var k := |tag| - 1;
    assert Lower(line)[..|tag|][k] == Lower(line)[k];
    assert line[k] == ':';
  }

  /** line.split(":", 1)[1].strip(). */
  function FieldValue(line: string): string
    requires ':' in line
  {
    Strip(AfterFirst(line, ':'))
  }

  const SummaryTag := "summary:"
  const WinnerTag := "winner:"
  const ReasonTag := "reason:"

  /** The winner a line names, if it is a winner line whose value is
      exactly a speaker's name. A summary line is never a winner line, as
      the tags differ in their first letter. */
  function NamedWinner(line: string): Option<Speaker> {
    if !Tagged(line, SummaryTag) && Tagged(line, WinnerTag) then
      TaggedHasColon(line, WinnerTag);
      SpeakerNamed(FieldValue(line))
    else None
  }

  /** The summary a line gives, if it is a summary line. */
  function GivenSummary(line: string): Option<string> {
    if Tagged(line, SummaryTag) then
      TaggedHasColon(line, SummaryTag);
      Some(FieldValue(line))
    else None
  }

  /** The reason a line gives, if it is a reason line (and neither a
      summary nor a winner line). */
  function GivenReason(line: string): Option<string> {
    if !Tagged(line, SummaryTag) && !Tagged(line, WinnerTag) && Tagged(line, ReasonTag) then
      TaggedHasColon(line, ReasonTag);
      Some(FieldValue(line))
    else None
  }

  /** One step of the parse: the first matching tag, in the order summary,
      winner, reason, sets its field; an unnamed winner sets nothing. */
  function ParseLine(j: Judgment, line: string): Judgment {
    if Tagged(line, SummaryTag) then
      TaggedHasColon(line, SummaryTag);
      j.(summary := FieldValue(line))
    else if Tagged(line, WinnerTag) then
      TaggedHasColon(line, WinnerTag);
      var w := FieldValue(line);
      if w == "Scientist" then j.(winner := Some(Scientist))
      else if w == "Philosopher" then j.(winner := Some(Philosopher))
      else j
    else if Tagged(line, ReasonTag) then
      TaggedHasColon(line, ReasonTag);
      j.(reason := FieldValue(line))
    else j
  }

  /** The parse of the lines in order. */
  function ParseLines(lines: seq<string>): Judgment {
    if lines == [] then NoJudgment
    else ParseLine(ParseLines(lines[..|lines| - 1]), lines[|lines| - 1])
  }

  /** The parse of a reply: its lines, as str.splitlines() gives them. */
  function Parse(reply: string): Judgment {
    ParseLines(SplitLines(reply))
  }

  /** The winner recorded: the named one, or by parity of the transcript
      length, the Scientist on odd lengths. */
  function Decide(j: Judgment, transcriptLength: int): Speaker {
    if j.winner.Some? then j.winner.value
    else if transcriptLength % 2 == 1 then Scientist
    else Philosopher
  }

  /** The state judge_node leaves when the generator answers `reply`. */
  function Judged(d: Debate, reply: string): Debate {
    var j := Parse(reply);
    d.(finalSummary := Some(j.summary),
       finalWinner := Some(Decide(j, |d.transcript|)),
       finalReason := Some(j.reason))
  }

  const JudgeTokens := 128

  /** The judge's request over debate `d`. */
  function JudgeAsk(d: Debate): Ask {
    Ask(JudgePrompt(d.topic, d.memorySummary, TranscriptText(d.transcript)), 0.2, Some(JudgeTokens))
  }

  // ---------------------------------------------------------------------
  // What the parse promises

  /** One parse step, read field by field: each field is set exactly by the
      line kinds above. */
  lemma ParseLineFields(j: Judgment, line: string)
    ensures ParseLine(j, line).summary == (if GivenSummary(line).Some? then GivenSummary(line).value else j.summary)
    ensures ParseLine(j, line).winner == (if NamedWinner(line).Some? then NamedWinner(line) else j.winner)
    ensures ParseLine(j, line).reason == (if GivenReason(line).Some? then GivenReason(line).value else j.reason)
  {
  }

  /** No winner is read exactly when no line names a valid winner. */
  lemma {:induction false} NoWinnerNamed(lines: seq<string>)
    ensures ParseLines(lines).winner.None? <==> forall k :: 0 <= k < |lines| ==> NamedWinner(lines[k]).None?
  {
    if lines != [] {
      var p, last := lines[..|lines| - 1], lines[|lines| - 1];
      NoWinnerNamed(p);
      ParseLineFields(ParseLines(p), last);
      assert ParseLines(lines).winner.None? <==> ParseLines(p).winner.None? && NamedWinner(last).None?;
      assert lines == p + [last];
    }
  }

  /** Otherwise the winner is the one named by the last line that names a
      valid winner. */
  lemma {:induction false} LastWinnerNamed(lines: seq<string>, k: nat)
    requires k < |lines| && NamedWinner(lines[k]).Some?
    requires forall i :: k < i < |lines| ==> NamedWinner(lines[i]).None?
    ensures ParseLines(lines).winner == NamedWinner(lines[k])
  {
    var p := lines[..|lines| - 1];
    ParseLineFields(ParseLines(p), lines[|lines| - 1]);
    if k < |lines| - 1 {
      LastWinnerNamed(p, k);
    }
  }

  /** Without a summary line the summary stays empty. */
  lemma {:induction false} NoSummaryGiven(lines: seq<string>)
    requires forall k :: 0 <= k < |lines| ==> GivenSummary(lines[k]).None?
    ensures ParseLines(lines).summary == ""
  {
    if lines != [] {
      var p := lines[..|lines| - 1];
      NoSummaryGiven(p);
      ParseLineFields(ParseLines(p), lines[|lines| - 1]);
    }
  }

  /** Otherwise the summary is the value of the last summary line. */
  lemma {:induction false} LastSummaryGiven(lines: seq<string>, k: nat)
    requires k < |lines| && GivenSummary(lines[k]).Some?
    requires forall i :: k < i < |lines| ==> GivenSummary(lines[i]).None?
    ensures ParseLines(lines).summary == GivenSummary(lines[k]).value
  {
    var p := lines[..|lines| - 1];
    ParseLineFields(ParseLines(p), lines[|lines| - 1]);
    if k < |lines| - 1 {
      LastSummaryGiven(p, k);
    }
  }

  /** Without a reason line the reason stays empty. */
  lemma {:induction false} NoReasonGiven(lines: seq<string>)
    requires forall k :: 0 <= k < |lines| ==> GivenReason(lines[k]).None?
    ensures ParseLines(lines).reason == ""
  {
    if lines != [] {
      var p := lines[..|lines| - 1];
      NoReasonGiven(p);
      ParseLineFields(ParseLines(p), lines[|lines| - 1]);
    }
  }

  /** Otherwise the reason is the value of the last reason line. */
  lemma {:induction false} LastReasonGiven(lines: seq<string>, k: nat)
    requires k < |lines| && GivenReason(lines[k]).Some?
    requires forall i :: k < i < |lines| ==> GivenReason(lines[i]).None?
    ensures ParseLines(lines).reason == GivenReason(lines[k]).value
  {
    var p := lines[..|lines| - 1];
    ParseLineFields(ParseLines(p), lines[|lines| - 1]);
    if k < |lines| - 1 {
      LastReasonGiven(p, k);
    }
  }

  /** Whatever the reply, judge_node records a winner: the named one, or
      else the Scientist exactly when the transcript length is odd. The
      summary and reason are recorded too, and nothing else changes. */
  lemma JudgedRecordsWinner(d: Debate, reply: string)
    ensures Judged(d, reply).finalWinner.Some?
    ensures Parse(reply).winner.Some? ==> Judged(d, reply).finalWinner == Parse(reply).winner
    ensures Parse(reply).winner.None? ==>
              (Judged(d, reply).finalWinner == Some(Scientist) <==> |d.transcript| % 2 == 1)
    ensures Judged(d, reply).finalSummary == Some(Parse(reply).summary)
    ensures Judged(d, reply).finalReason == Some(Parse(reply).reason)
    ensures Judged(d, reply) == d.(finalSummary := Judged(d, reply).finalSummary,
                                   finalWinner := Judged(d, reply).finalWinner,
                                   finalReason := Judged(d, reply).finalReason)
  {
  }

  // ---------------------------------------------------------------------
  // Round trip: a verdict written in the strict format is read back

  /** A field value the format can carry: one line, no surrounding blanks. */
  predicate FieldText(s: string) {
    OneLine(s) && (s != [] ==> !IsSpace(s[0]) && !IsSpace(s[|s| - 1]))
  }

  /** The verdict in the format the judge prompt asks for. */
  function FormatVerdict(summary: string, winner: Speaker, reason: string): string {
    ("Summary: " + summary) + "\n" + ("Winner: " + SpeakerName(winner)) + "\n" + ("Reason: " + reason)
  }

  /** A line made of a field name, a colon, a blank and a value is tagged
      with the lower-cased name and colon, and its field value is the
      value. */
  lemma LabelLine(head: string, tag: string, v: string)
    requires |tag| > 0 && |head| == |tag| + 1
    requires head[|tag| - 1] == ':' && head[|tag|] == ' ' && ':' !in head[..|tag| - 1]
    requires forall k :: 0 <= k < |tag| ==> LowerChar(head[k]) == tag[k]
    requires FieldText(v)
    ensures Tagged(head + v, tag)
    ensures ':' in head + v && FieldValue(head + v) == v
  {
    var line := head + v;
    LowerChars(line);
    assert Lower(line)[..|tag|] == tag;
    assert line[..|tag| - 1] == head[..|tag| - 1];
    FirstColonAt(line, |tag| - 1);
    assert line[|tag|..] == " " + v;
    StripAfterBlank(v);
  }

  lemma {:induction false} FirstColonAt(s: string, k: nat)
    requires k < |s| && s[k] == ':' && ':' !in s[..k]
    ensures FirstIndex(s, ':') == k
  {
    if k > 0 {
      assert s[0] == s[..k][0];
      assert s[1..][..k - 1] == s[..k][1..];
      FirstColonAt(s[1..], k - 1);
    }
  }

  /** A line that starts with `first` is not tagged with a tag that starts
      with another lower-case letter. */
  lemma NotTagged(line: string, tag: string)
    requires |line| > 0 && |tag| > 0 && 'a' <= tag[0] <= 'z'
    requires LowerChar(line[0]) != tag[0]
    ensures !Tagged(line, tag)
  {
    LowerChars(line);
  }

  lemma SummaryLineParses(v: string)
    requires FieldText(v)
    ensures GivenSummary("Summary: " + v) == Some(v)
  {
    LabelLine("Summary: ", SummaryTag, v);
  }

  lemma WinnerLineParses(w: Speaker)
    ensures NamedWinner("Winner: " + SpeakerName(w)) == Some(w)
    ensures GivenSummary("Winner: " + SpeakerName(w)).None?
  {
    LabelLine("Winner: ", WinnerTag, SpeakerName(w));
    NotTagged("Winner: " + SpeakerName(w), SummaryTag);
  }

  lemma ReasonLineParses(v: string)
    requires FieldText(v)
    ensures GivenReason("Reason: " + v) == Some(v)
    ensures GivenSummary("Reason: " + v).None? && NamedWinner("Reason: " + v).None?
  {
    LabelLine("Reason: ", ReasonTag, v);
    NotTagged("Reason: " + v, SummaryTag);
    NotTagged("Reason: " + v, WinnerTag);
  }

  /** Writing a verdict in the strict format and parsing it gives it back. */
  lemma FormatThenParse(summary: string, winner: Speaker, reason: string)
    requires FieldText(summary) && FieldText(reason)
    ensures Parse(FormatVerdict(summary, winner, reason)) == Judgment(summary, Some(winner), reason)
  {
    FormatLines(summary, winner, reason);
    ParseVerdictLines(summary, winner, reason);
  }

  /** The strict format's three lines, as splitlines() reads them. */
  lemma FormatLines(summary: string, winner: Speaker, reason: string)
    requires FieldText(summary) && FieldText(reason)
    ensures SplitLines(FormatVerdict(summary, winner, reason))
              == ["Summary: " + summary, "Winner: " + SpeakerName(winner), "Reason: " + reason]
  {
    LabelsOneLine(winner);
    OneLineConcat("Summary: ", summary);
    OneLineConcat("Winner: ", SpeakerName(winner));
    OneLineConcat("Reason: ", reason);
    SplitThreeLines("Summary: " + summary, "Winner: " + SpeakerName(winner), "Reason: " + reason);
  }

  lemma LabelsOneLine(winner: Speaker)
    ensures OneLine("Summary: ") && OneLine("Winner: ") && OneLine("Reason: ")
    ensures OneLine(SpeakerName(winner))
  {
  }

  /** The parse of the three lines reads each field once. */
  lemma ParseVerdictLines(summary: string, winner: Speaker, reason: string)
    requires FieldText(summary) && FieldText(reason)
    ensures ParseLines(["Summary: " + summary, "Winner: " + SpeakerName(winner), "Reason: " + reason])
              == Judgment(summary, Some(winner), reason)
  {
    var l1 := "Summary: " + summary;
    var l2 := "Winner: " + SpeakerName(winner);
    var l3 := "Reason: " + reason;
    var lines := [l1, l2, l3];
    SummaryLineParses(summary);
    WinnerLineParses(winner);
    ReasonLineParses(reason);
    assert lines[..2][..1] == [l1] && lines[..2] == [l1, l2] && lines[..1][..0] == [];
    ParseLineFields(NoJudgment, l1);
    ParseLineFields(ParseLines([l1]), l2);
    ParseLineFields(ParseLines([l1, l2]), l3);
  }

  /** The offline generator's verdict names the Scientist, so every debate
      judged offline is won by the Scientist. */
  lemma OfflineVerdict(d: Debate, n: int)
    ensures MockReply(n, JudgeAsk(d).prompt) == JudgeReply
    ensures Parse(JudgeReply).winner == Some(Scientist)
    ensures Judged(d, JudgeReply).finalWinner == Some(Scientist)
  {
    JudgePromptGetsVerdict(d.topic, d.memorySummary, TranscriptText(d.transcript), n);
    JudgeReplyParses();
  }

  /** Offline, judge_node's one request is answered with the canned
      verdict, which names the Scientist. */
  lemma OfflineJudgeCall(d: Debate, x: Exchange, before: int, after: int)
    requires AskOf(x) == JudgeAsk(d) && MockRun([x], before, after)
    ensures x.result == Ok(JudgeReply)
    ensures Judged(d, x.result.value).finalWinner == Some(Scientist)
  {
    assert [x][0] == x && before + 0 == before;
    OfflineVerdict(d, before);
  }

  /** The mock's canned verdict, parsed. */
  lemma JudgeReplyParses()
    ensures Parse(JudgeReply) == Judgment(CannedSummary, Some(Scientist), CannedReason)
  {
    CannedVerdict();
    CannedSummaryText();
    CannedReasonText();
    FormatThenParse(CannedSummary, Scientist, CannedReason);
  }

  const CannedSummary := "A balanced " + "debate " + "occurred."
  const CannedReason := "More concrete " + "risk-based " + "points."

  /** The mock's canned verdict is in the strict format. */
  lemma CannedVerdict()
    ensures JudgeReply == FormatVerdict(CannedSummary, Scientist, CannedReason)
  {
    assert JudgeSummaryLine == "Summary: " + CannedSummary;
    assert JudgeWinnerLine == "Winner: " + SpeakerName(Scientist);
    assert JudgeReasonLine == "Reason: " + CannedReason;
  }

  lemma CannedSummaryText()
    ensures FieldText(CannedSummary)
  {
    OneLineConcat("A balanced ", "debate ");
    OneLineConcat("A balanced " + "debate ", "occurred.");
  }

  lemma CannedReasonText()
    ensures FieldText(CannedReason)
  {
    OneLineConcat("More concrete ", "risk-based ");
    OneLineConcat("More concrete " + "risk-based ", "points.");
  }

  // ---------------------------------------------------------------------
  // judge_node

  /** The parse loop over the reply's lines, with the summary, winner and
      reason as locals. */
  method ParseVerdict(reply: string) returns (summary: string, winner: Option<Speaker>, reason: string)
    ensures Judgment(summary, winner, reason) == Parse(reply)
  {
    var lines := SplitLines(reply);
    summary, winner, reason := "", None, "";
    for i := 0 to |lines|
      invariant Judgment(summary, winner, reason) == ParseLines(lines[..i])
    {
      var line := lines[i];
      assert lines[..i + 1][..i] == lines[..i];
      if StartsWith(Lower(line), SummaryTag) {
        TaggedHasColon(line, SummaryTag);
        summary := Strip(AfterFirst(line, ':'));
      } else if StartsWith(Lower(line), WinnerTag) {
        TaggedHasColon(line, WinnerTag);
        var w := Strip(AfterFirst(line, ':'));
        if w == "Scientist" {
          winner := Some(Scientist);
        } else if w == "Philosopher" {
          winner := Some(Philosopher);
        }
      } else if StartsWith(Lower(line), ReasonTag) {
        TaggedHasColon(line, ReasonTag);
        reason := Strip(AfterFirst(line, ':'));
      }
    }
    assert lines[..|lines|] == lines;
  }

  /** judge_node: one request; on an answer, the parsed summary and reason
      and the decided winner are recorded; an exception from the client
      leaves the state as it was. */
  method JudgeNode(state: DebateState, client: GeminiClient) returns (raised: Option<Exc>, ghost x: Exchange)
    modifies state, client, client.mock
    ensures client.exchanges == old(client.exchanges) + [x]
    ensures AskOf(x) == JudgeAsk(old(state.Snapshot()))
    ensures raised == (if x.result.Err? then Some(x.result.error) else None)
    ensures state.Snapshot() == (if x.result.Ok? then Judged(old(state.Snapshot()), x.result.value)
                                 else old(state.Snapshot()))
    ensures client.useMock ==> MockRun([x], old(client.mock.counter), client.mock.counter)
  {
    var ask := JudgeAsk(state.Snapshot());
    var r := NodeCall(client, ask.prompt, ask.temperature, ask.maxTokens);
    x := Exchange(ask.prompt, ask.temperature, ask.maxTokens, r);
    if r.Err? {
      return Some(r.error), x;
    }
    var summary, winner, reason := ParseVerdict(r.value);
    if winner.None? {
      winner := Some(if |state.transcript| % 2 == 1 then Scientist else Philosopher);
    }
    state.finalSummary := Some(summary);
    state.finalWinner := winner;
    state.finalReason := Some(reason);
    raised := None;
  }
}
