/** memory_node: the refresh that runs after every agent turn. It asks the
    generator for a global summary of the transcript, then, for each
    speaker in turn, for the points its opponent made most recently, and
    overwrites the stored memories with the answers. */
module Memory {
  import opened PyStr
  import opened State
  import opened MockLlm
  import opened Client
  import opened Nodes

  /** "[Round {turn}] {speaker}: {text}". */
  function RoundLine(u: Utterance): string {
    "[Round " + DecimalString(u.turn) + "] " + SpeakerName(u.speaker) + ": " + u.text
  }

  function RoundLines(t: seq<Utterance>): seq<string> {
    seq(|t|, i requires 0 <= i < |t| => RoundLine(t[i]))
  }

  /** The transcript as the memory and judge prompts quote it: one line per
      utterance. */
  function TranscriptText(t: seq<Utterance>): string {
    Join("\n", RoundLines(t))
  }

  /** The utterances of speaker `s`, in transcript order. */
  function UtterancesOf(t: seq<Utterance>, s: Speaker): seq<Utterance> {
    if t == [] then []
    else if t[|t| - 1].speaker == s then UtterancesOf(t[..|t| - 1], s) + [t[|t| - 1]]
    else UtterancesOf(t[..|t| - 1], s)
  }

  /** xs[-2:]: the last two elements, or all of them when there are fewer. */
  function LastTwo<T>(xs: seq<T>): seq<T> {
    if |xs| <= 2 then xs else xs[|xs| - 2..]
  }

  /** What speaker `s`'s routed prompt quotes: its opponent's latest
      utterances. */
  function RecentOpponent(t: seq<Utterance>, s: Speaker): seq<Utterance> {
    LastTwo(UtterancesOf(t, Opponent(s)))
  }

  /** "{speaker}: {text}" for each quoted utterance, one per line. */
  function SnippetLines(us: seq<Utterance>): seq<string> {
    seq(|us|, i requires 0 <= i < |us| => SpeakerName(us[i].speaker) + ": " + us[i].text)
  }

  function Snippets(us: seq<Utterance>): string {
    Join("\n", SnippetLines(us))
  }

  /** The summary request opens with the phrase the mock generator answers
      with its fixed summary; the rest of its instruction follows. */
  const SummaryInstructionRest := " in 4–6 " + "concise sentences, " + "focusing only " + "on new points " + "per round.\n"

  function SummaryPrompt(transcriptText: string): string {
    SummaryMarker + SummaryPromptRest(transcriptText)
  }

  function SummaryPromptRest(transcriptText: string): string {
    SummaryInstructionRest + "Transcript:\n" + transcriptText
  }

  const RoutedInstruction := "Extract " + "opponent's " + "last 1–2 " + "distinct points " + "as max 4 " + "bullets." + " Keep bullets " + "<= 12 words " + "each; avoid " + "repetition.\n"

  /** The request for the points speaker `s` should answer. */
  function RoutedPrompt(s: Speaker, transcriptText: string, snippets: string): string {
    RoutedInstruction + "Opponent: " + SpeakerName(Opponent(s)) + "\n"
    + "Transcript:\n" + transcriptText + "\n"
    + "Recent opponent snippets:\n" + snippets
  }

  const SummaryTokens := 160
  const RoutedTokens := 96

  /** The order in which the routed memories are refreshed. */
  const MemoryOrder := [Scientist, Philosopher]

  /** The routed prompt for speaker `s` over transcript `t`. */
  function RoutedPromptFor(t: seq<Utterance>, s: Speaker): string {
    RoutedPrompt(s, TranscriptText(t), Snippets(RecentOpponent(t, s)))
  }

  /** The routed prompts, one per speaker in MemoryOrder. */
  function RoutedPrompts(t: seq<Utterance>): (prompts: seq<string>)
    ensures |prompts| == 2
  {
    [RoutedPromptFor(t, MemoryOrder[0]), RoutedPromptFor(t, MemoryOrder[1])]
  }

  /** The routed requests for the given prompts. */
  function RoutedAsks(prompts: seq<string>): (asks: seq<Ask>)
    requires |prompts| == 2
    ensures |asks| == 2
  {
    [Ask(prompts[0], 0.2, Some(RoutedTokens)), Ask(prompts[1], 0.2, Some(RoutedTokens))]
  }

  /** The requests memory_node makes over transcript `t`, in order. */
  function MemoryAsks(t: seq<Utterance>): (asks: seq<Ask>)
    ensures |asks| == 3
  {
    [Ask(SummaryPrompt(TranscriptText(t)), 0.4, Some(SummaryTokens))] + RoutedAsks(RoutedPrompts(t))
  }

  /** The texts of the leading successful results, up to the first failure. */
  function OkPrefix(E: seq<Exchange>): (r: seq<string>)
    ensures |r| <= |E|
  {
    if E == [] || E[0].result.Err? then [] else [E[0].result.value] + OkPrefix(E[1..])
  }

  /** The memory map after the i-th routed answer has been stored under the
      i-th speaker of MemoryOrder, for each answer given. */
  function WriteMemories(m: map<Speaker, string>, texts: seq<string>): map<Speaker, string>
    requires |texts| <= |MemoryOrder|
  {
    if texts == [] then m
    else WriteMemories(m, texts[..|texts| - 1])[MemoryOrder[|texts| - 1] := texts[|texts| - 1]]
  }

  /** The state memory_node leaves after the calls `E`: nothing changes when
      the summary request fails; otherwise the summary is stored, and so is
      each routed answer obtained before the first failure. */
  function MemoryAfter(d: Debate, E: seq<Exchange>): Debate
    requires |E| <= 3
  {
    if E == [] || E[0].result.Err? then d
    else d.(memorySummary := E[0].result.value,
            agentMemory := WriteMemories(d.agentMemory, OkPrefix(E[1..])))
  }

  // ---------------------------------------------------------------------
  // What the refresh promises

  /** The refresh touches the two memory fields and nothing else: the
      transcript, counters, used arguments, errors and verdict are kept. */
  lemma MemoryAfterKeeps(d: Debate, E: seq<Exchange>)
    requires |E| <= 3
    ensures var e := MemoryAfter(d, E);
      e == d.(memorySummary := e.memorySummary, agentMemory := e.agentMemory)
    ensures Consistent(d) ==> Consistent(MemoryAfter(d, E))
  {
  }

  /** A refresh whose three requests all succeed overwrites the summary and
      both speakers' memories with the answers, whatever they held before. */
  lemma FullRefresh(d: Debate, E: seq<Exchange>)
    requires |E| == 3 && forall i :: 0 <= i < 3 ==> E[i].result.Ok?
    ensures MemoryAfter(d, E).memorySummary == E[0].result.value
    ensures MemoryAfter(d, E).agentMemory
              == d.agentMemory[Scientist := E[1].result.value][Philosopher := E[2].result.value]
    ensures MemoryAfter(d, E).agentMemory.Keys == d.agentMemory.Keys + {Scientist, Philosopher}
  {
    var E' := E[1..];
    assert OkPrefix(E'[1..][1..]) == [];
    assert OkPrefix(E') == [E[1].result.value, E[2].result.value];
    var texts := [E[1].result.value, E[2].result.value];
    assert texts[..1] == [E[1].result.value] && texts[..1][..0] == [];
    WriteMemoriesSnoc(d.agentMemory, [], E[1].result.value);
    WriteMemoriesSnoc(d.agentMemory, [E[1].result.value], E[2].result.value);
  }

  /** A failed summary request changes nothing. */
  lemma FailedSummaryKeeps(d: Debate, E: seq<Exchange>)
    requires 1 <= |E| <= 3 && E[0].result.Err?
    ensures MemoryAfter(d, E) == d
  {
  }

  /** The utterances of `s` are exactly the transcript's entries by `s`. */
  lemma {:induction false} UtterancesOfSpeaker(t: seq<Utterance>, s: Speaker)
    ensures forall k :: 0 <= k < |UtterancesOf(t, s)| ==> UtterancesOf(t, s)[k].speaker == s
    ensures forall u :: u in UtterancesOf(t, s) <==> u in t && u.speaker == s
  {
    if t != [] {
      var p := t[..|t| - 1];
      UtterancesOfSpeaker(p, s);
      assert t == p + [t[|t| - 1]];
    }
  }

  /** The last utterance of `s` is its transcript entry with no later entry
      by `s`. */
  lemma {:induction false} UtterancesOfLast(t: seq<Utterance>, s: Speaker)
    requires exists i :: 0 <= i < |t| && t[i].speaker == s
    ensures |UtterancesOf(t, s)| > 0 && UtterancesOf(t, s)[|UtterancesOf(t, s)| - 1] == t[LastBy(t, s)]
  {
    if t[|t| - 1].speaker != s {
      var p := t[..|t| - 1];
      var i :| 0 <= i < |t| && t[i].speaker == s;
      assert p[i] == t[i];
      UtterancesOfLast(p, s);
    }
  }

  /** Index of the last entry by `s`, which must exist. */
  function LastBy(t: seq<Utterance>, s: Speaker): (i: nat)
    requires exists i :: 0 <= i < |t| && t[i].speaker == s
    ensures i < |t| && t[i].speaker == s
    ensures forall j :: i < j < |t| ==> t[j].speaker != s
  {
    if t[|t| - 1].speaker == s then |t| - 1
    else
      var i :| 0 <= i < |t| && t[i].speaker == s;
      assert t[..|t| - 1][i] == t[i];
      LastBy(t[..|t| - 1], s)
  }

  /** Each speaker's routed prompt quotes at most two utterances, all by its
      opponent: the opponent's latest ones, ending with its very last. */
  lemma RecentOpponentFacts(t: seq<Utterance>, s: Speaker)
    ensures |RecentOpponent(t, s)| <= 2
    ensures forall k :: 0 <= k < |RecentOpponent(t, s)| ==> RecentOpponent(t, s)[k].speaker == Opponent(s)
    ensures var all := UtterancesOf(t, Opponent(s));
      && all[|all| - |RecentOpponent(t, s)|..] == RecentOpponent(t, s)
      && |RecentOpponent(t, s)| == (if |all| < 2 then |all| else 2)
  {
    UtterancesOfSpeaker(t, Opponent(s));
    LastTwoSuffix(UtterancesOf(t, Opponent(s)));
  }

  /** Once the opponent has spoken, the quoted utterances end with its very
      last one. */
  lemma RecentOpponentEndsWithLast(t: seq<Utterance>, s: Speaker)
    requires exists i :: 0 <= i < |t| && t[i].speaker == Opponent(s)
    ensures |RecentOpponent(t, s)| > 0
    ensures RecentOpponent(t, s)[|RecentOpponent(t, s)| - 1] == t[LastBy(t, Opponent(s))]
  {
    UtterancesOfLast(t, Opponent(s));
    LastTwoKeepsLast(UtterancesOf(t, Opponent(s)));
  }

  lemma LastTwoKeepsLast<T>(xs: seq<T>)
    requires xs != []
    ensures LastTwo(xs) != [] && LastTwo(xs)[|LastTwo(xs)| - 1] == xs[|xs| - 1]
  {
  }

  lemma LastTwoSuffix<T>(xs: seq<T>)
    ensures |LastTwo(xs)| == (if |xs| < 2 then |xs| else 2)
    ensures xs[|xs| - |LastTwo(xs)|..] == LastTwo(xs)
    ensures forall k :: 0 <= k < |LastTwo(xs)| ==> LastTwo(xs)[k] == xs[|xs| - |LastTwo(xs)| + k]
  {
  }

  /** Offline, the summary request is answered with the mock's fixed
      summary, unless the transcript itself quotes the judge's format
      heading. */
  lemma SummaryPromptGetsSummary(n: int, transcriptText: string)
    requires !Contains(SummaryPrompt(transcriptText), JudgeMarker)
    ensures MockReply(n, SummaryPrompt(transcriptText)) == SummaryReply
  {
    ContainsAtStart(SummaryMarker, SummaryPromptRest(transcriptText));
  }

  // ---------------------------------------------------------------------
  // memory_node

  /** OkPrefix grows by one answer while every result so far succeeded. */
  lemma {:induction false} OkPrefixSnoc(E: seq<Exchange>, x: Exchange)
    requires forall i :: 0 <= i < |E| ==> E[i].result.Ok?
    ensures |OkPrefix(E)| == |E|
    ensures OkPrefix(E + [x]) == OkPrefix(E) + (if x.result.Ok? then [x.result.value] else [])
  {
    if E != [] {
      assert (E + [x])[1..] == E[1..] + [x];
      OkPrefixSnoc(E[1..], x);
    } else if x.result.Ok? {
      assert [x][1..] == [];
    }
  }

  /** One routed call recorded: the requests still follow RoutedAsks. */
  lemma RoutedStep(asks: seq<Ask>, R: seq<Exchange>, x: Exchange)
    requires |R| < |asks| && Made(R, asks[..|R|])
    requires AskOf(x) == asks[|R|]
    ensures Made(R + [x], asks[..|R| + 1])
  {
    MadeAppend(R, asks[..|R|], [x], [asks[|R|]]);
    assert asks[..|R|] + [asks[|R|]] == asks[..|R| + 1];
  }

  /** Storing one more answer writes it under the next speaker in
      MemoryOrder. */
  lemma WriteMemoriesSnoc(m: map<Speaker, string>, texts: seq<string>, v: string)
    requires |texts| < |MemoryOrder|
    ensures WriteMemories(m, texts + [v]) == WriteMemories(m, texts)[MemoryOrder[|texts|] := v]
  {
    assert (texts + [v])[..|texts|] == texts;
  }

  /** The routed half of memory_node: for each speaker in MemoryOrder, one
      request and its answer stored as that speaker's memory. `R` is the
      calls made; the loop stops at the first failure and raises it. */
  method RefreshRouted(state: DebateState, client: GeminiClient, prompts: seq<string>)
    returns (raised: Option<Exc>, ghost R: seq<Exchange>)
    requires |prompts| == |MemoryOrder|
    modifies state`agentMemory, client, client.mock
    ensures client.exchanges == old(client.exchanges) + R
    ensures 1 <= |R| <= 2 && Made(R, RoutedAsks(prompts)[..|R|])
    ensures forall i :: 0 <= i < |R| - 1 ==> R[i].result.Ok?
    ensures |R| < 2 ==> R[|R| - 1].result.Err?
    ensures raised == (if R[|R| - 1].result.Err? then Some(R[|R| - 1].result.error) else None)
    ensures state.agentMemory == WriteMemories(old(state.agentMemory), OkPrefix(R))
    ensures client.useMock ==> MockRun(R, old(client.mock.counter), client.mock.counter)
  {
    ghost var m0 := state.agentMemory;
    ghost var E0 := client.exchanges;
    ghost var c0 := client.mock.counter;
    R := [];
    raised := None;
    var k := 0;
    while k < |MemoryOrder| && raised.None?
      invariant k == |R| <= 2
      invariant client.exchanges == E0 + R
      invariant Made(R, RoutedAsks(prompts)[..k])
      invariant forall i :: 0 <= i < |R| - 1 ==> R[i].result.Ok?
      invariant raised == (if R != [] && R[|R| - 1].result.Err? then Some(R[|R| - 1].result.error) else None)
      invariant state.agentMemory == WriteMemories(m0, OkPrefix(R))
      invariant client.useMock ==> MockRun(R, c0, client.mock.counter)
    {
      var speaker := MemoryOrder[k];
      ghost var c1 := client.mock.counter;
      var routed := NodeCall(client, prompts[k], 0.2, Some(RoutedTokens));
      ghost var x := Exchange(prompts[k], 0.2, Some(RoutedTokens), routed);
      AppendAssoc(E0, R, [x]);
      RoutedStep(RoutedAsks(prompts), R, x);
      OkPrefixSnoc(R, x);
      if client.useMock {
        MockRunAppend(R, [x], c0, c1, client.mock.counter);
      }
      if routed.Ok? {
        WriteMemoriesSnoc(m0, OkPrefix(R), routed.value);
        state.agentMemory := state.agentMemory[speaker := routed.value];
      } else {
        raised := Some(routed.error);
      }
      R := R + [x];
      k := k + 1;
    }
  }

  /** The summary call followed by the routed calls makes memory_node's
      requests. */
  lemma MemoryComposes(t: seq<Utterance>, x0: Exchange, R: seq<Exchange>)
    requires AskOf(x0) == MemoryAsks(t)[0]
    requires 1 <= |R| <= 2 && Made(R, RoutedAsks(RoutedPrompts(t))[..|R|])
    ensures Made([x0] + R, MemoryAsks(t)[..|R| + 1])
  {
    var routed := RoutedAsks(RoutedPrompts(t));
    MadeAppend([x0], [MemoryAsks(t)[0]], R, routed[..|R|]);
    assert [MemoryAsks(t)[0]] + routed[..|R|] == MemoryAsks(t)[..|R| + 1];
  }

  /** ... and leaves the state of a successful summary followed by the
      routed writes. */
  lemma MemoryAfterSummary(d0: Debate, x0: Exchange, R: seq<Exchange>)
    requires x0.result.Ok? && |R| <= 2
    ensures MemoryAfter(d0, [x0] + R)
              == d0.(memorySummary := x0.result.value, agentMemory := WriteMemories(d0.agentMemory, OkPrefix(R)))
  {
    assert ([x0] + R)[0] == x0 && ([x0] + R)[1..] == R;
  }

  /** memory_node: summarize the transcript, then refresh each speaker's
      memory from the opponent's latest points. An exception from any
      request ends the node there and is raised. `E` is the calls made. */
  method MemoryNode(state: DebateState, client: GeminiClient) returns (raised: Option<Exc>, ghost E: seq<Exchange>)
    modifies state`memorySummary, state`agentMemory, client, client.mock
    ensures client.exchanges == old(client.exchanges) + E
    ensures 1 <= |E| <= 3 && Made(E, MemoryAsks(old(state.transcript))[..|E|])
    ensures forall i :: 0 <= i < |E| - 1 ==> E[i].result.Ok?
    ensures |E| < 3 ==> E[|E| - 1].result.Err?
    ensures raised == (if E[|E| - 1].result.Err? then Some(E[|E| - 1].result.error) else None)
    ensures state.Snapshot() == MemoryAfter(old(state.Snapshot()), E)
    ensures client.useMock ==> MockRun(E, old(client.mock.counter), client.mock.counter)
  {
    ghost var d0 := state.Snapshot();
    ghost var c0 := client.mock.counter;
    var t := state.transcript;
    var summary := NodeCall(client, SummaryPrompt(TranscriptText(t)), 0.4, Some(SummaryTokens));
    var x0 := Exchange(SummaryPrompt(TranscriptText(t)), 0.4, Some(SummaryTokens), summary);
    if summary.Err? {
      E := [x0];
      return Some(summary.error), E;
    }
    state.memorySummary := summary.value;
    ghost var E0 := client.exchanges;
    ghost var c1 := client.mock.counter;
    ghost var R;
    raised, R := RefreshRouted(state, client, RoutedPrompts(t));
    AppendAssoc(old(client.exchanges), [x0], R);
    if client.useMock {
      MockRunAppend([x0], R, c0, c1, client.mock.counter);
    }
    E := [x0] + R;
    MemoryComposes(t, x0, R);
    MemoryAfterSummary(d0, x0, R);
  }
}
