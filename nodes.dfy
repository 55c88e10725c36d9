/** The three debate nodes that do work: an agent turn (generate, validate,
    retry, append, advance), the memory refresh and the judge. Each reads
    and updates the shared state in place and asks the generation client
    for text; an exception raised by the client or by the node itself is
    returned as `Some(error)`. */
module Nodes {
  import opened PyStr
  import opened State
  import opened Validators
  import opened MockLlm
  import opened Prompts
  import opened Client

  /** get_persona: the Scientist persona for "Scientist", the Philosopher
      persona for any other name. */
  function GetPersona(name: string): (p: Persona)
    ensures p == ScientistPersona || p == PhilosopherPersona
    ensures p.name == "Scientist" <==> name == "Scientist"
    ensures SpeakerNamed(name).Some? ==> p.name == name
  {
    if name == "Scientist" then ScientistPersona else PhilosopherPersona
  }

  /** One request as the nodes phrase it. */
  datatype Ask = Ask(prompt: string, temperature: real, maxTokens: Option<int>)

  function AskOf(x: Exchange): Ask {
    Ask(x.prompt, x.temperature, x.maxTokens)
  }

  /** The requests `E` records are exactly `asks`, in order. */
  ghost predicate Made(E: seq<Exchange>, asks: seq<Ask>) {
    |E| == |asks| && forall i :: 0 <= i < |E| ==> AskOf(E[i]) == asks[i]
  }

  // ---------------------------------------------------------------------
  // agent_node

  const AgentTokens := 64
  const AvoidRepeatSuffix := "\nAvoid " + "repeating " + "previous " + "arguments " + "explicitly."
  const CoherenceSuffix := "\nEnsure " + "coherence " + "and substantive " + "content."
  const RepeatedAfterRetry := "Repeated " + "argument " + "after retry"

  /** The memory a speaker's prompt carries: its own entry, or the global
      summary when it has none. */
  function MemoryOf(d: Debate, s: Speaker): string {
    if s in d.agentMemory then d.agentMemory[s] else d.memorySummary
  }

  /** The prompt of the turn about to be taken. */
  function TurnPrompt(d: Debate): string {
    var s := SpeakerAt(d.turnIndex);
    AgentPrompt(GetPersona(SpeakerName(s)), d.topic, d.turnIndex + 1, MemoryOf(d, s))
  }

  /** How a turn ends: with the text the speaker says, or an exception. */
  datatype TurnEnd = Spoke(text: string) | Raised(error: Exc)

  /** A turn's requests, the error notes it records and how it ends. */
  datatype TurnPlan = TurnPlan(asks: seq<Ask>, notes: seq<string>, end: TurnEnd)

  /** The result of the i-th call, when the turn got that far. */
  function ResultAt(E: seq<Exchange>, i: nat): Result<string> {
    if i < |E| then E[i].result else Err(RuntimeError(NoTextMessage))
  }

  /** An agent turn as a function of the results r0, r1, r2 its client
      calls return in order: the original request, a lower-temperature
      retry when the text repeats a used argument (fatal if it repeats
      again), then a coherence retry whose text is taken as it is. A result
      past the turn's last call is never looked at. */
  function AgentPlan(base: string, used: set<string>, prev: string,
                     r0: Result<string>, r1: Result<string>, r2: Result<string>): (plan: TurnPlan)
    ensures 1 <= |plan.asks| <= 3
    ensures |plan.notes| == |plan.asks| - 1
    ensures plan.asks[0] == Ask(base, 0.7, Some(AgentTokens))
  {
    var first := Ask(base, 0.7, Some(AgentTokens));
    match r0
    case Err(e) => TurnPlan([first], [], Raised(e))
    case Ok(t0) =>
      if Normalize(t0) in used then RetryPlan(base, used, prev, r1, r2)
      else CoherencePlan(base, [first], [], prev, t0, r1)
  }

  /** The turn after its first text repeated a used argument: the retry, and
      the coherence stage if the retry's text is new. */
  function RetryPlan(base: string, used: set<string>, prev: string, r1: Result<string>,
                     r2: Result<string>): TurnPlan
  {
    var asks := [Ask(base, 0.7, Some(AgentTokens)), Ask(base + AvoidRepeatSuffix, 0.2, Some(AgentTokens))];
    match r1
    case Err(e) => TurnPlan(asks, [RepetitionMessage], Raised(e))
    case Ok(t1) =>
      if Normalize(t1) in used then TurnPlan(asks, [RepetitionMessage], Raised(RuntimeError(RepeatedAfterRetry)))
      else CoherencePlan(base, asks, [RepetitionMessage], prev, t1, r2)
  }

  /** The coherence stage of a turn whose text passed the repetition check. */
  function CoherencePlan(base: string, asks: seq<Ask>, notes: seq<string>, prev: string, text: string,
                         next: Result<string>): TurnPlan
  {
    var v := ValidateCoherence(prev, text);
    if v.ok then TurnPlan(asks, notes, Spoke(text))
    else
      var fix := Ask(base + CoherenceSuffix, 0.6, Some(AgentTokens));
      match next
      case Err(e) => TurnPlan(asks + [fix], notes + [v.message], Raised(e))
      case Ok(t) => TurnPlan(asks + [fix], notes + [v.message], Spoke(t))
  }

  /** What the retry stage asks and records: the original request, the
      lower-temperature retry and possibly the coherence retry; the
      repetition note first; a spoken text from the last call, and the
      error of a failed last call. */
  lemma RetryPlanShape(base: string, used: set<string>, prev: string, r1: Result<string>, r2: Result<string>)
    ensures var plan := RetryPlan(base, used, prev, r1, r2);
      && 2 <= |plan.asks| <= 3
      && plan.asks[0] == Ask(base, 0.7, Some(AgentTokens))
      && plan.asks[1] == Ask(base + AvoidRepeatSuffix, 0.2, Some(AgentTokens))
      && |plan.notes| == |plan.asks| - 1 && plan.notes[0] == RepetitionMessage
      && (|plan.asks| == 3 ==> r1.Ok?)
      && (plan.end.Spoke? ==> (if |plan.asks| == 2 then r1 else r2) == Ok(plan.end.text))
      && (plan.end.Raised? && |plan.asks| == 2 && r1.Err? ==> plan.end.error == r1.error)
      && (plan.end.Raised? && |plan.asks| == 3 && r2.Err? ==> plan.end.error == r2.error)
  {
    if r1.Ok? && Normalize(r1.value) !in used {
      CoherencePlanShape(base, [Ask(base, 0.7, Some(AgentTokens)), Ask(base + AvoidRepeatSuffix, 0.2, Some(AgentTokens))],
                         [RepetitionMessage], prev, r1.value, r2);
    }
  }

  /** The coherence stage keeps the requests before it, adds the coherence
      retry exactly when the text fails the check, and then speaks the
      retry's text unchecked. */
  lemma CoherencePlanShape(base: string, asks: seq<Ask>, notes: seq<string>, prev: string, text: string,
                           next: Result<string>)
    ensures var plan := CoherencePlan(base, asks, notes, prev, text, next);
      && (|plan.asks| == |asks| || |plan.asks| == |asks| + 1)
      && (forall i :: 0 <= i < |asks| ==> plan.asks[i] == asks[i])
      && (|plan.asks| == |asks| + 1 <==> !ValidateCoherence(prev, text).ok)
      && (|plan.asks| == |asks| ==> plan == TurnPlan(asks, notes, Spoke(text)))
      && (|plan.asks| == |asks| + 1 ==>
            && plan.asks[|asks|] == Ask(base + CoherenceSuffix, 0.6, Some(AgentTokens))
            && plan.notes == notes + [ValidateCoherence(prev, text).message]
            && plan.end == (if next.Ok? then Spoke(next.value) else Raised(next.error)))
  {
  }

  /** A turn goes on past a call only when that call returned text; it
      speaks the text of its last call, and a failed last call's error is
      the one the turn raises. */
  lemma PlanFollowsResults(base: string, used: set<string>, prev: string,
                           r0: Result<string>, r1: Result<string>, r2: Result<string>)
    ensures var plan := AgentPlan(base, used, prev, r0, r1, r2);
      && (|plan.asks| >= 2 ==> r0.Ok?)
      && (|plan.asks| == 3 ==> r1.Ok?)
      && (plan.end.Spoke? ==> [r0, r1, r2][|plan.asks| - 1] == Ok(plan.end.text))
      && ([r0, r1, r2][|plan.asks| - 1].Err? ==>
            plan.end == Raised([r0, r1, r2][|plan.asks| - 1].error))
  {
  }

  /** The first text is kept, with a single call and no note, exactly when it
      passes both checks. */
  lemma FirstReplyKept(base: string, used: set<string>, prev: string,
                       r0: Result<string>, r1: Result<string>, r2: Result<string>)
    ensures var plan := AgentPlan(base, used, prev, r0, r1, r2);
      (|plan.asks| == 1 && plan.end.Spoke?) <==>
      (r0.Ok? && Normalize(r0.value) !in used && ValidateCoherence(prev, r0.value).ok)
  {
  }

  /** A retry that repeats a used argument again ends the turn with
      "Repeated argument after retry", after two calls and one note. */
  lemma RepeatedTwiceRaises(base: string, used: set<string>, prev: string,
                            t0: string, t1: string, r2: Result<string>)
    requires Normalize(t0) in used && Normalize(t1) in used
    ensures AgentPlan(base, used, prev, Ok(t0), Ok(t1), r2) ==
      TurnPlan([Ask(base, 0.7, Some(AgentTokens)), Ask(base + AvoidRepeatSuffix, 0.2, Some(AgentTokens))],
               [RepetitionMessage], Raised(RuntimeError(RepeatedAfterRetry)))
  {
  }

  /** A spoken text passed both checks, unless it came from the coherence
      retry, which is not checked again. */
  lemma SpokenTextChecked(base: string, used: set<string>, prev: string,
                          r0: Result<string>, r1: Result<string>, r2: Result<string>)
    ensures var plan := AgentPlan(base, used, prev, r0, r1, r2);
      plan.end.Spoke? ==>
        (Normalize(plan.end.text) !in used && ValidateCoherence(prev, plan.end.text).ok)
        || plan.asks[|plan.asks| - 1] == Ask(base + CoherenceSuffix, 0.6, Some(AgentTokens))
  {
  }

  /** Whatever the coherence retry returns is spoken, even a used argument
      or a text that fails the coherence check. */
  lemma CoherenceRetryUnchecked(base: string, used: set<string>, prev: string, t0: string, t: string,
                                r2: Result<string>)
    requires Normalize(t0) !in used && !ValidateCoherence(prev, t0).ok
    ensures AgentPlan(base, used, prev, Ok(t0), Ok(t), r2).end == Spoke(t)
  {
  }

  /** The plan of the turn `E` records, taken from the state before it. */
  function PlanOf(base: string, used: set<string>, prev: string, E: seq<Exchange>): TurnPlan {
    AgentPlan(base, used, prev, ResultAt(E, 0), ResultAt(E, 1), ResultAt(E, 2))
  }

  /** A coherence stage after earlier requests is the stage on its own,
      appended to them. */
  lemma CoherencePlanAppends(base: string, asks: seq<Ask>, notes: seq<string>, prev: string,
                             text: string, next: Result<string>)
    ensures var q := CoherencePlan(base, [], [], prev, text, next);
      CoherencePlan(base, asks, notes, prev, text, next) == TurnPlan(asks + q.asks, notes + q.notes, q.end)
  {
  }

  // ---------------------------------------------------------------------
  // What a turn does to the state

  /** Error notes recorded, nothing else changed. */
  function Noted(d: Debate, notes: seq<string>): (e: Debate) {
    d.(errors := d.errors + notes)
  }

  /** The end of a successful turn: the utterance is appended under the
      speaker whose turn it was, its normalized form is remembered, and the
      turn and round counters advance, handing the floor to the opponent. */
  function Spoken(d: Debate, text: string): (e: Debate) {
    d.(transcript := d.transcript + [Utterance(d.turnIndex + 1, SpeakerAt(d.turnIndex), text)],
       usedArguments := d.usedArguments + {Normalize(text)},
       turnIndex := d.turnIndex + 1,
       roundNumber := d.roundNumber + 1,
       currentSpeaker := SpeakerAt(d.turnIndex + 1))
  }

  /** The state a turn (or its tail from some stage on) leaves: the notes
      recorded, then the utterance spoken, or nothing more on an exception. */
  function Ended(d: Debate, notes: seq<string>, end: TurnEnd): Debate {
    match end
    case Spoke(text) => Spoken(Noted(d, notes), text)
    case Raised(_) => Noted(d, notes)
  }

  /** Notes recorded before a stage come first in the turn's notes. */
  lemma NotedThenEnded(d: Debate, first: seq<string>, notes: seq<string>, end: TurnEnd)
    ensures Ended(Noted(d, first), notes, end) == Ended(d, first + notes, end)
  {
    assert d.errors + first + notes == d.errors + (first + notes);
  }

  /** The bookkeeping every debate state keeps: one utterance per turn
      taken, numbered from 1 and alternating from the Scientist; the round
      counter one ahead of the turn count; the current speaker the one whose
      turn it is; and every spoken text remembered in normalized form. */
  ghost predicate Consistent(d: Debate) {
    && d.turnIndex == |d.transcript|
    && d.roundNumber == d.turnIndex + 1
    && d.currentSpeaker == SpeakerAt(d.turnIndex)
    && (forall i :: 0 <= i < |d.transcript| ==>
          d.transcript[i].turn == i + 1 && d.transcript[i].speaker == SpeakerAt(i))
    && (forall i :: 0 <= i < |d.transcript| ==> Normalize(d.transcript[i].text) in d.usedArguments)
  }

  /** A fresh debate state keeps the bookkeeping. */
  lemma FreshConsistent(topic: string)
    ensures Consistent(Debate(topic, 0, 1, Scientist, [], "", map[Scientist := "", Philosopher := ""],
                              {}, [], None, None, None))
  {
  }

  /** Every way a turn can end keeps the bookkeeping. */
  lemma EndedConsistent(d: Debate, notes: seq<string>, end: TurnEnd)
    requires Consistent(d)
    ensures Consistent(Ended(d, notes, end))
    ensures |Ended(d, notes, end).transcript| == |d.transcript| + (if end.Spoke? then 1 else 0)
  {
    var e := Ended(d, notes, end);
    if end.Spoke? {
      forall i | 0 <= i < |e.transcript|
        ensures e.transcript[i].turn == i + 1 && e.transcript[i].speaker == SpeakerAt(i)
        ensures Normalize(e.transcript[i].text) in e.usedArguments
      {
        if i < |d.transcript| {
          assert e.transcript[i] == d.transcript[i];
        }
      }
    }
  }

  /** Speak as a state update. */
  method Speak(state: DebateState, text: string)
    modifies state
    ensures state.Snapshot() == Spoken(old(state.Snapshot()), text)
  {
    var speaker := state.NextSpeaker();
    state.transcript := state.transcript + [Utterance(state.turnIndex + 1, speaker, text)];
    state.usedArguments := state.usedArguments + {Normalize(text)};
    state.turnIndex := state.turnIndex + 1;
    state.roundNumber := state.roundNumber + 1;
    state.currentSpeaker := state.NextSpeaker();
  }

  function Raising(end: TurnEnd): Option<Exc> {
    if end.Raised? then Some(end.error) else None
  }

  /** A node's call to gemini_text, with the model left to the client: the
      exchange is recorded and, offline, answered by the mock. The nodes
      rely on nothing else about the client. */
  method NodeCall(client: GeminiClient, prompt: string, temperature: real, maxTokens: Option<int>)
    returns (r: Result<string>)
    modifies client, client.mock
    ensures client.exchanges == old(client.exchanges) + [Exchange(prompt, temperature, maxTokens, r)]
    ensures client.useMock ==> MockRun([Exchange(prompt, temperature, maxTokens, r)],
                                       old(client.mock.counter), client.mock.counter)
  {
    r := client.GeminiText(prompt, None, temperature, maxTokens);
    if client.useMock {
      MockRunOne(Exchange(prompt, temperature, maxTokens, r), old(client.mock.counter));
    }
  }

  /** The coherence stage of agent_node and the append that ends the turn:
      a text that fails the coherence check is replaced by the text of one
      more request, which is not checked again. `F` is the stage's calls. */
  method CoherenceStage(state: DebateState, client: GeminiClient, prompt: string, text: string)
    returns (raised: Option<Exc>, ghost F: seq<Exchange>)
    modifies state, client, client.mock
    ensures client.exchanges == old(client.exchanges) + F
    ensures var q := CoherencePlan(prompt, [], [], old(state.PrevText()), text, ResultAt(F, 0));
      && Made(F, q.asks)
      && state.Snapshot() == Ended(old(state.Snapshot()), q.notes, q.end)
      && raised == Raising(q.end)
    ensures client.useMock ==> MockRun(F, old(client.mock.counter), client.mock.counter)
  {
    ghost var prev := state.PrevText();
    var coherence := ValidateCoherence(state.PrevText(), text);
    if coherence.ok {
      F := [];
      assert CoherencePlan(prompt, [], [], prev, text, ResultAt(F, 0)) == TurnPlan([], [], Spoke(text));
      Speak(state, text);
      return None, F;
    }
    state.errors := state.errors + [coherence.message];
    var r := NodeCall(client, prompt + CoherenceSuffix, 0.6, Some(AgentTokens));
    F := [Exchange(prompt + CoherenceSuffix, 0.6, Some(AgentTokens), r)];
    ghost var fix := Ask(prompt + CoherenceSuffix, 0.6, Some(AgentTokens));
    if r.Err? {
      assert CoherencePlan(prompt, [], [], prev, text, ResultAt(F, 0))
             == TurnPlan([fix], [coherence.message], Raised(r.error));
      return Some(r.error), F;
    }
    assert CoherencePlan(prompt, [], [], prev, text, ResultAt(F, 0))
           == TurnPlan([fix], [coherence.message], Spoke(r.value));
    Speak(state, r.value);
    raised := None;
  }

  lemma AppendAssoc(a: seq<Exchange>, b: seq<Exchange>, c: seq<Exchange>)
    ensures (a + b) + c == a + (b + c)
  {
  }

  /** The repetition retry of agent_node, after the first text repeated a
      used argument: a note, one more request at a lower temperature, a
      fatal error if its text repeats too, else the coherence stage. */
  method RetryStage(state: DebateState, client: GeminiClient, prompt: string)
    returns (raised: Option<Exc>, ghost F: seq<Exchange>)
    modifies state, client, client.mock
    ensures client.exchanges == old(client.exchanges) + F
    ensures var q := RetryPlan(prompt, old(state.usedArguments), old(state.PrevText()),
                               ResultAt(F, 0), ResultAt(F, 1));
      && Made(F, q.asks[1..])
      && state.Snapshot() == Ended(old(state.Snapshot()), q.notes, q.end)
      && raised == Raising(q.end)
    ensures client.useMock ==> MockRun(F, old(client.mock.counter), client.mock.counter)
  {
    ghost var d0 := state.Snapshot();
    ghost var used := state.usedArguments;
    ghost var prev := state.PrevText();
    ghost var E0 := client.exchanges;
    ghost var c0 := client.mock.counter;
    ghost var asks := [Ask(prompt, 0.7, Some(AgentTokens)), Ask(prompt + AvoidRepeatSuffix, 0.2, Some(AgentTokens))];
    state.errors := state.errors + [RepetitionMessage];
    var r := NodeCall(client, prompt + AvoidRepeatSuffix, 0.2, Some(AgentTokens));
    ghost var x1 := Exchange(prompt + AvoidRepeatSuffix, 0.2, Some(AgentTokens), r);
    F := [x1];
    if r.Err? {
      assert RetryPlan(prompt, used, prev, r, ResultAt(F, 1)) == TurnPlan(asks, [RepetitionMessage], Raised(r.error));
      return Some(r.error), F;
    }
    var again := ValidateRepetition(state, r.value);
    if !again.ok {
      assert RetryPlan(prompt, used, prev, r, ResultAt(F, 1))
             == TurnPlan(asks, [RepetitionMessage], Raised(RuntimeError(RepeatedAfterRetry)));
      return Some(RuntimeError(RepeatedAfterRetry)), F;
    }
    ghost var c1 := client.mock.counter;
    assert state.Snapshot() == Noted(d0, [RepetitionMessage]);
    ghost var G;
    raised, G := CoherenceStage(state, client, prompt, r.value);
    F := [x1] + G;
    AppendAssoc(E0, [x1], G);
    RetryStageComposes(prompt, used, prev, d0, x1, G, state.Snapshot(), raised);
    if client.useMock {
      MockRunAppend([x1], G, c0, c1, client.mock.counter);
    }
  }

  /** The retry stage is its first call followed by the coherence stage on
      that call's text. */
  lemma RetryStageComposes(prompt: string, used: set<string>, prev: string, d0: Debate, x1: Exchange,
                           G: seq<Exchange>, d2: Debate, raised: Option<Exc>)
    requires x1.prompt == prompt + AvoidRepeatSuffix && x1.temperature == 0.2 && x1.maxTokens == Some(AgentTokens)
    requires x1.result.Ok? && Normalize(x1.result.value) !in used
    requires var q := CoherencePlan(prompt, [], [], prev, x1.result.value, ResultAt(G, 0));
      && Made(G, q.asks)
      && d2 == Ended(Noted(d0, [RepetitionMessage]), q.notes, q.end)
      && raised == Raising(q.end)
    ensures var q := RetryPlan(prompt, used, prev, ResultAt([x1] + G, 0), ResultAt([x1] + G, 1));
      && Made([x1] + G, q.asks[1..])
      && d2 == Ended(d0, q.notes, q.end)
      && raised == Raising(q.end)
  {
    var asks := [Ask(prompt, 0.7, Some(AgentTokens)), Ask(prompt + AvoidRepeatSuffix, 0.2, Some(AgentTokens))];
    var q := CoherencePlan(prompt, [], [], prev, x1.result.value, ResultAt(G, 0));
    RetryThenCoherence(prompt, used, prev, x1, G);
    NotedThenEnded(d0, [RepetitionMessage], q.notes, q.end);
    MadeAppend([x1], [asks[1]], G, q.asks);
    assert (asks + q.asks)[1..] == [asks[1]] + q.asks;
  }

  /** The turn after a first text that is not a used argument: the first
      request, then the coherence stage on that text. */
  lemma PlanAfterFreshText(base: string, used: set<string>, prev: string, x0: Exchange, F: seq<Exchange>)
    requires x0.result.Ok? && Normalize(x0.result.value) !in used
    ensures var q := CoherencePlan(base, [], [], prev, x0.result.value, ResultAt(F, 0));
      PlanOf(base, used, prev, [x0] + F) == TurnPlan([Ask(base, 0.7, Some(AgentTokens))] + q.asks, q.notes, q.end)
  {
    assert ResultAt([x0] + F, 0) == x0.result;
    assert ResultAt([x0] + F, 1) == ResultAt(F, 0);
    CoherencePlanAppends(base, [Ask(base, 0.7, Some(AgentTokens))], [], prev, x0.result.value, ResultAt(F, 0));
  }

  /** The retry after a fresh retry text: both requests and the note, then
      the coherence stage on the retry's text. */
  lemma RetryThenCoherence(base: string, used: set<string>, prev: string, x1: Exchange, G: seq<Exchange>)
    requires x1.result.Ok? && Normalize(x1.result.value) !in used
    ensures var q := CoherencePlan(base, [], [], prev, x1.result.value, ResultAt(G, 0));
      RetryPlan(base, used, prev, ResultAt([x1] + G, 0), ResultAt([x1] + G, 1))
      == TurnPlan([Ask(base, 0.7, Some(AgentTokens)), Ask(base + AvoidRepeatSuffix, 0.2, Some(AgentTokens))] + q.asks,
                  [RepetitionMessage] + q.notes, q.end)
  {
    assert ResultAt([x1] + G, 0) == x1.result;
    assert ResultAt([x1] + G, 1) == ResultAt(G, 0);
    CoherencePlanAppends(base, [Ask(base, 0.7, Some(AgentTokens)), Ask(base + AvoidRepeatSuffix, 0.2, Some(AgentTokens))],
                         [RepetitionMessage], prev, x1.result.value, ResultAt(G, 0));
  }

  /** The turn after a first text that repeats a used argument: the retry. */
  lemma PlanAfterRepeatedText(base: string, used: set<string>, prev: string, x0: Exchange, F: seq<Exchange>)
    requires x0.result.Ok? && Normalize(x0.result.value) in used
    ensures PlanOf(base, used, prev, [x0] + F) == RetryPlan(base, used, prev, ResultAt(F, 0), ResultAt(F, 1))
  {
    assert ResultAt([x0] + F, 0) == x0.result;
    assert ResultAt([x0] + F, 1) == ResultAt(F, 0);
    assert ResultAt([x0] + F, 2) == ResultAt(F, 1);
  }

  lemma MadeAppend(E: seq<Exchange>, asks: seq<Ask>, F: seq<Exchange>, more: seq<Ask>)
    requires Made(E, asks) && Made(F, more)
    ensures Made(E + F, asks + more)
  {
    forall i | 0 <= i < |E + F|
      ensures AskOf((E + F)[i]) == (asks + more)[i]
    {
      if i >= |E| {
        assert (E + F)[i] == F[i - |E|];
      }
    }
  }

  /** The turn agent_node takes once its prompt is built. `E` is the turn's
      calls. */
  method AgentTurn(state: DebateState, client: GeminiClient, prompt: string)
    returns (raised: Option<Exc>, ghost E: seq<Exchange>)
    modifies state, client, client.mock
    ensures client.exchanges == old(client.exchanges) + E
    ensures var plan := PlanOf(prompt, old(state.usedArguments), old(state.PrevText()), E);
      && Made(E, plan.asks)
      && state.Snapshot() == Ended(old(state.Snapshot()), plan.notes, plan.end)
      && raised == Raising(plan.end)
    ensures client.useMock ==> MockRun(E, old(client.mock.counter), client.mock.counter)
  {
    ghost var d0 := state.Snapshot();
    ghost var E0 := client.exchanges;
    ghost var c0 := client.mock.counter;
    ghost var used := state.usedArguments;
    ghost var prev := state.PrevText();
    ghost var first := Ask(prompt, 0.7, Some(AgentTokens));
    var r := NodeCall(client, prompt, 0.7, Some(AgentTokens));
    ghost var x0 := Exchange(prompt, 0.7, Some(AgentTokens), r);
    E := [x0];
    if r.Err? {
      assert PlanOf(prompt, used, prev, E) == TurnPlan([first], [], Raised(r.error));
      return Some(r.error), E;
    }
    ghost var c1 := client.mock.counter;
    ghost var F;
    var repetition := ValidateRepetition(state, r.value);
    if repetition.ok {
      raised, F := CoherenceStage(state, client, prompt, r.value);
      FreshTurnComposes(prompt, used, prev, d0, x0, F, state.Snapshot(), raised);
    } else {
      raised, F := RetryStage(state, client, prompt);
      RepeatedTurnComposes(prompt, used, prev, d0, x0, F, state.Snapshot(), raised);
    }
    E := [x0] + F;
    AppendAssoc(E0, [x0], F);
    if client.useMock {
      MockRunAppend([x0], F, c0, c1, client.mock.counter);
    }
  }

  /** A turn whose first text is new: the first call, then the coherence
      stage on its text. */
  lemma FreshTurnComposes(prompt: string, used: set<string>, prev: string, d0: Debate, x0: Exchange,
                          F: seq<Exchange>, d2: Debate, raised: Option<Exc>)
    requires x0.prompt == prompt && x0.temperature == 0.7 && x0.maxTokens == Some(AgentTokens)
    requires x0.result.Ok? && Normalize(x0.result.value) !in used
    requires var q := CoherencePlan(prompt, [], [], prev, x0.result.value, ResultAt(F, 0));
      && Made(F, q.asks)
      && d2 == Ended(d0, q.notes, q.end)
      && raised == Raising(q.end)
    ensures var plan := PlanOf(prompt, used, prev, [x0] + F);
      && Made([x0] + F, plan.asks)
      && d2 == Ended(d0, plan.notes, plan.end)
      && raised == Raising(plan.end)
  {
    var q := CoherencePlan(prompt, [], [], prev, x0.result.value, ResultAt(F, 0));
    PlanAfterFreshText(prompt, used, prev, x0, F);
    MadeAppend([x0], [Ask(prompt, 0.7, Some(AgentTokens))], F, q.asks);
  }

  /** A turn whose first text repeats a used argument: the first call, then
      the retry stage. */
  lemma RepeatedTurnComposes(prompt: string, used: set<string>, prev: string, d0: Debate, x0: Exchange,
                             F: seq<Exchange>, d2: Debate, raised: Option<Exc>)
    requires x0.prompt == prompt && x0.temperature == 0.7 && x0.maxTokens == Some(AgentTokens)
    requires x0.result.Ok? && Normalize(x0.result.value) in used
    requires var q := RetryPlan(prompt, used, prev, ResultAt(F, 0), ResultAt(F, 1));
      && Made(F, q.asks[1..])
      && d2 == Ended(d0, q.notes, q.end)
      && raised == Raising(q.end)
    ensures var plan := PlanOf(prompt, used, prev, [x0] + F);
      && Made([x0] + F, plan.asks)
      && d2 == Ended(d0, plan.notes, plan.end)
      && raised == Raising(plan.end)
  {
    var q := RetryPlan(prompt, used, prev, ResultAt(F, 0), ResultAt(F, 1));
    PlanAfterRepeatedText(prompt, used, prev, x0, F);
    RetryPlanShape(prompt, used, prev, ResultAt(F, 0), ResultAt(F, 1));
    assert q.asks == [Ask(prompt, 0.7, Some(AgentTokens))] + q.asks[1..];
    MadeAppend([x0], [Ask(prompt, 0.7, Some(AgentTokens))], F, q.asks[1..]);
  }

  /** agent_node: the speaker is the state's next speaker, so the turn check
      passes; the prompt carries the speaker's persona, the topic, the turn
      number and the speaker's memory. */
  method AgentNode(state: DebateState, client: GeminiClient) returns (raised: Option<Exc>, ghost E: seq<Exchange>)
    modifies state, client, client.mock
    ensures client.exchanges == old(client.exchanges) + E
    ensures var d := old(state.Snapshot());
      var plan := PlanOf(TurnPrompt(d), d.usedArguments, LastText(d.transcript), E);
      && Made(E, plan.asks)
      && state.Snapshot() == Ended(old(state.Snapshot()), plan.notes, plan.end)
      && raised == Raising(plan.end)
    ensures client.useMock ==> MockRun(E, old(client.mock.counter), client.mock.counter)
  {
    var speaker := state.NextSpeaker();
    var check := ValidateTurn(state, SpeakerName(speaker));
    assert check.ok;
    var prompt := AgentPrompt(GetPersona(SpeakerName(speaker)), state.topic, state.turnIndex + 1,
                              MemoryOf(state.Snapshot(), speaker));
    raised, E := AgentTurn(state, client, prompt);
  }
}
