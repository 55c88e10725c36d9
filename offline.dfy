/** A debate run offline, against the counter-driven mock generator: every
    agent turn is answered with a fresh numbered argument, which passes both
    checks at the first attempt, so no turn raises and every turn takes one
    request. */
module Offline {
  import opened PyStr
  import opened State
  import opened Validators
  import opened MockLlm
  import opened Prompts
  import opened Client
  import opened Nodes
  import opened Memory

  /** The normalized numbered arguments the mock can have given before its
      counter reached `n`. */
  ghost function ArgumentsBefore(n: nat): set<string> {
    set m | 0 <= m < n :: Normalize(ArgumentReply(m))
  }

  /** The state from which an offline turn is certain to succeed: the
      bookkeeping holds, neither the topic nor any memory quotes a marker
      phrase, and every used argument is a numbered argument drawn before
      the counter's current value. */
  ghost predicate OfflineReady(d: Debate, counter: nat) {
    && Consistent(d)
    && PromptPartsUnmarked(d)
    && d.usedArguments <= ArgumentsBefore(counter)
  }

  /** The parts of the state an agent prompt quotes carry no marker. */
  predicate PromptPartsUnmarked(d: Debate) {
    && Unmarked(d.topic) && Unmarked(d.memorySummary)
    && (forall s :: s in d.agentMemory ==> Unmarked(d.agentMemory[s]))
  }

  /** A fresh debate over an unmarked topic is ready. */
  lemma FreshReady(topic: string, counter: nat)
    requires Unmarked(topic)
    ensures OfflineReady(Debate(topic, 0, 1, Scientist, [], "", map[Scientist := "", Philosopher := ""],
                                {}, [], None, None, None), counter)
  {
    FreshConsistent(topic);
    EmptyUnmarked();
  }

  lemma EmptyUnmarked()
    ensures Unmarked("")
  {
    assert !OccursAt("", JudgeMarker, 0);
    assert !OccursAt("", SummaryMarker, 0);
    assert !OccursAt("", ExtractMarker, 0);
  }

  /** The argument drawn at the counter's current value is not yet used. */
  lemma ArgumentIsNew(used: set<string>, c: nat)
    requires used <= ArgumentsBefore(c)
    ensures Normalize(ArgumentReply(c)) !in used
  {
    if Normalize(ArgumentReply(c)) in used {
      var m :| 0 <= m < c && Normalize(ArgumentReply(m)) == Normalize(ArgumentReply(c));
      ArgumentRepliesDistinct(m, c);
    }
  }

  /** A fresh argument also differs from the previous utterance, whose
      normalized form is used, or which is empty before the first turn. */
  lemma ArgumentIsCoherent(d: Debate, prev: string, c: nat)
    requires Consistent(d) && d.usedArguments <= ArgumentsBefore(c)
    requires prev == LastText(d.transcript)
    ensures ValidateCoherence(prev, ArgumentReply(c)).ok
  {
    ArgumentIsNew(d.usedArguments, c);
    ArgumentReplyLongEnough(c);
    if d.transcript == [] {
      LowerChars(Strip(ArgumentReply(c)));
      assert |Normalize(ArgumentReply(c))| >= MinCoherentLength;
      assert Normalize(prev) == [];
    } else {
      assert Normalize(prev) in d.usedArguments;
    }
  }

  /** The agent's prompt in a ready state is unmarked, so it is answered
      with the numbered argument. */
  lemma TurnPromptGetsArgument(d: Debate, n: int)
    requires PromptPartsUnmarked(d)
    ensures MockReply(n, TurnPrompt(d)) == ArgumentReply(n)
  {
    var s := SpeakerAt(d.turnIndex);
    AgentPromptGetsArgument(GetPersona(SpeakerName(s)), d.topic, d.turnIndex + 1, MemoryOf(d, s), n);
  }

  /** Offline, from a ready state, agent_node makes a single request and
      speaks the numbered argument drawn at the counter, recording no
      note, whenever its prompt is answered with that argument. */
  lemma OfflineTurn(d: Debate, base: string, E: seq<Exchange>, c: nat, c2: int)
    requires OfflineReady(d, c)
    requires MockReply(c, base) == ArgumentReply(c)
    requires Made(E, PlanOf(base, d.usedArguments, LastText(d.transcript), E).asks)
    requires MockRun(E, c, c2)
    ensures PlanOf(base, d.usedArguments, LastText(d.transcript), E).notes == []
    ensures PlanOf(base, d.usedArguments, LastText(d.transcript), E).end == Spoke(ArgumentReply(c))
    ensures c2 == c + 1
  {
    var prev := LastText(d.transcript);
    var plan := PlanOf(base, d.usedArguments, prev, E);
    assert AskOf(E[0]) == plan.asks[0];
    assert E[0].result == Ok(MockReply(c + 0, E[0].prompt));
    ArgumentIsNew(d.usedArguments, c);
    ArgumentIsCoherent(d, prev, c);
    FirstReplyKept(base, d.usedArguments, prev, ResultAt(E, 0), ResultAt(E, 1), ResultAt(E, 2));
  }

  /** ... so the turn raises nothing and leaves the state ready for the
      next draw. */
  lemma OfflineTurnReady(d: Debate, base: string, E: seq<Exchange>, c: nat, c2: int)
    requires OfflineReady(d, c)
    requires MockReply(c, base) == ArgumentReply(c)
    requires Made(E, PlanOf(base, d.usedArguments, LastText(d.transcript), E).asks)
    requires MockRun(E, c, c2)
    ensures var plan := PlanOf(base, d.usedArguments, LastText(d.transcript), E);
      Raising(plan.end).None? && c2 >= 0 && OfflineReady(Ended(d, plan.notes, plan.end), c2)
  {
    OfflineTurn(d, base, E, c, c2);
    SpokenArgumentReady(d, c);
  }

  /** The turn's outcome keeps the state ready for the next draw. */
  lemma SpokenArgumentReady(d: Debate, c: nat)
    requires OfflineReady(d, c)
    ensures OfflineReady(Ended(d, [], Spoke(ArgumentReply(c))), c + 1)
  {
    EndedConsistent(d, [], Spoke(ArgumentReply(c)));
    assert ArgumentsBefore(c) <= ArgumentsBefore(c + 1);
    assert Normalize(ArgumentReply(c)) in ArgumentsBefore(c + 1);
  }

  /** Memories written from the mock's replies stay unmarked, and a later
      counter only widens the arguments drawn. */
  lemma ReadyAfterReplies(d: Debate, e: Debate, c: nat, c2: nat)
    requires OfflineReady(d, c) && c <= c2
    requires e == d.(memorySummary := e.memorySummary, agentMemory := e.agentMemory)
    requires Unmarked(e.memorySummary)
    requires forall s :: s in e.agentMemory ==> Unmarked(e.agentMemory[s])
    ensures OfflineReady(e, c2)
  {
    assert ArgumentsBefore(c) <= ArgumentsBefore(c2);
  }

  /** A verdict recorded on a ready state, with the counter moved on, leaves
      it ready. */
  lemma ReadyAfterVerdict(d: Debate, e: Debate, c: nat, c2: nat)
    requires OfflineReady(d, c) && c <= c2
    requires e == d.(finalSummary := e.finalSummary, finalWinner := e.finalWinner, finalReason := e.finalReason)
    ensures OfflineReady(e, c2)
  {
    assert ArgumentsBefore(c) <= ArgumentsBefore(c2);
  }

  /** Every offline answer is text, and none quotes a marker phrase. */
  lemma MockTextsUnmarked(E: seq<Exchange>, c: nat)
    requires MockAnswers(E, c)
    ensures forall i :: 0 <= i < |E| ==> E[i].result.Ok? && Unmarked(E[i].result.value)
  {
    forall i | 0 <= i < |E|
      ensures E[i].result.Ok? && Unmarked(E[i].result.value)
    {
      MockReplyUnmarked(c + i, E[i].prompt);
    }
  }

  /** The leading texts are the values of the leading results. */
  lemma {:induction false} OkPrefixValues(E: seq<Exchange>)
    ensures forall i :: 0 <= i < |OkPrefix(E)| ==> E[i].result.Ok? && OkPrefix(E)[i] == E[i].result.value
  {
    if E != [] && E[0].result.Ok? {
      OkPrefixValues(E[1..]);
    }
  }

  /** Writing unmarked texts into memories that are unmarked keeps them so. */
  lemma {:induction false} WriteMemoriesUnmarked(m: map<Speaker, string>, texts: seq<string>)
    requires |texts| <= |MemoryOrder|
    requires forall s :: s in m ==> Unmarked(m[s])
    requires forall i :: 0 <= i < |texts| ==> Unmarked(texts[i])
    ensures forall s :: s in WriteMemories(m, texts) ==> Unmarked(WriteMemories(m, texts)[s])
  {
    if texts != [] {
      WriteMemoriesUnmarked(m, texts[..|texts| - 1]);
    }
  }

  /** Offline, memory_node's requests all return text, and the memories it
      writes keep the state ready. */
  lemma OfflineMemory(d: Debate, E: seq<Exchange>, c: nat, c2: int)
    requires OfflineReady(d, c) && |E| <= 3 && MockRun(E, c, c2)
    ensures forall i :: 0 <= i < |E| ==> E[i].result.Ok?
    ensures c2 >= c && OfflineReady(MemoryAfter(d, E), c2)
  {
    MockTextsUnmarked(E, c);
    MemoryAfterKeeps(d, E);
    if E != [] && E[0].result.Ok? {
      OkPrefixValues(E[1..]);
      WriteMemoriesUnmarked(d.agentMemory, OkPrefix(E[1..]));
    }
    ReadyAfterReplies(d, MemoryAfter(d, E), c, c2);
  }
}
