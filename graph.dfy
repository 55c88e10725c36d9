/** The debate graph: user_input, then agent and memory in turn until the
    transcript is long enough, then judge. The graph library's compile and
    invoke step is replaced by an explicit executor over the same nodes and
    edges. */
module Graph {
  import opened State
  import opened Client
  import opened Nodes
  import opened Memory
  import opened Judge
  import opened Offline

  /** The graph's nodes; End is the terminal marker. */
  datatype Step = UserInput | Agent | Memory | Judge | End

  /** The transcript length at which the debate goes to the judge. */
  const JudgeAt := 8

  /** route: after memory, on to the judge once the transcript holds
      JudgeAt utterances, otherwise back to the agent. */
  function Route(transcriptLength: int): (next: Step)
    ensures next == Agent || next == Judge
    ensures next == Judge <==> transcriptLength >= JudgeAt
  {
    if transcriptLength >= JudgeAt then Judge else Agent
  }

  /** The edges: where the run goes after `node`, given the transcript
      length at that moment. */
  function Successor(node: Step, transcriptLength: int): Step {
    match node
    case UserInput => Agent
    case Agent => Memory
    case Memory => Route(transcriptLength)
    case Judge => End
    case End => End
  }

  /** The fixed edges and the one fork: entry is followed by agent, agent
      by memory, memory by exactly one of agent and judge, and judge ends
      the run. */
  lemma Edges(n: int)
    ensures Successor(UserInput, n) == Agent && Successor(Agent, n) == Memory
    ensures Successor(Memory, n) in {Agent, Judge}
    ensures Successor(Judge, n) == End
  {
  }

  // ---------------------------------------------------------------------
  // The schedule a run follows

  /** The number of agent turns a run takes from a transcript of length
      `l0`: up to JudgeAt, and at least one, since the entry leads to the
      agent unconditionally. */
  function Turns(l0: int): (k: nat)
    ensures k >= 1
  {
    if l0 < JudgeAt then JudgeAt - l0 else 1
  }

  /** The p-th node a run starting from a transcript of length `l0`
      visits when no node raises. */
  function NodeAt(l0: int, p: nat): Step {
    if p == 0 then UserInput
    else if p <= 2 * Turns(l0) then (if p % 2 == 1 then Agent else Memory)
    else if p == 2 * Turns(l0) + 1 then Judge
    else End
  }

  /** The agent turns taken among the first p nodes. */
  function AgentsAmong(l0: int, p: nat): nat {
    if p / 2 < Turns(l0) then p / 2 else Turns(l0)
  }

  /** The nodes of a complete run. */
  function Schedule(l0: int): (s: seq<Step>)
    ensures |s| == 2 * Turns(l0) + 2
  {
    seq(2 * Turns(l0) + 2, p requires 0 <= p => NodeAt(l0, p))
  }

  /** The schedule walks the graph: each node is the successor of the one
      before it, given the transcript length once that one has run (each
      agent turn adds one utterance, the other nodes none), and the run ends
      after the last. */
  lemma ScheduleFollowsEdges(l0: int, p: nat)
    requires p < |Schedule(l0)|
    ensures NodeAt(l0, p + 1) == Successor(NodeAt(l0, p), l0 + AgentsAmong(l0, p + 1))
  {
  }

  /** Each agent node in the schedule counts one turn; no other node does. */
  lemma AgentsAmongStep(l0: int, p: nat)
    requires p < |Schedule(l0)|
    ensures AgentsAmong(l0, p + 1) == AgentsAmong(l0, p) + (if NodeAt(l0, p) == Agent then 1 else 0)
  {
  }

  /** A complete run: entry first, then agent and memory alternating for
      Turns(l0) rounds, then the judge, which appears nowhere else. */
  lemma ScheduleShape(l0: int)
    ensures Schedule(l0)[0] == UserInput
    ensures Schedule(l0)[|Schedule(l0)| - 1] == Judge
    ensures forall p :: 1 <= p < |Schedule(l0)| - 1 ==>
              Schedule(l0)[p] == (if p % 2 == 1 then Agent else Memory)
    ensures forall p :: 0 <= p < |Schedule(l0)| - 1 ==> Schedule(l0)[p] != Judge
    ensures AgentsAmong(l0, |Schedule(l0)|) == Turns(l0)
  {
  }

  /** From a fresh state the agent runs exactly JudgeAt times, and the
      judge sees a transcript of exactly JudgeAt utterances. */
  lemma FreshRunTakesEightTurns()
    ensures Turns(0) == JudgeAt == 8
    ensures |Schedule(0)| == 18
    ensures 0 + AgentsAmong(0, |Schedule(0)|) == JudgeAt
  {
  }

  /** Once the bookkeeping holds, is_finished and the route agree: the
      round counter has passed MaxRounds exactly when the route goes to the
      judge. */
  lemma FinishedIffJudged(d: Debate)
    requires Consistent(d)
    ensures d.roundNumber > MaxRounds <==> Route(|d.transcript|) == Judge
  {
  }

  // ---------------------------------------------------------------------
  // The executor

  /** Run the debate graph on `state`. An exception from a node ends the
      run and is raised; `trace` is the nodes run, the failing one last. */
  method RunDebate(state: DebateState, client: GeminiClient) returns (raised: Option<Exc>, ghost trace: seq<Step>)
    modifies state, client, client.mock
    ensures trace <= Schedule(old(|state.transcript|)) && trace != []
    ensures raised.None? ==> trace == Schedule(old(|state.transcript|))
    ensures raised.None? ==> |state.transcript| == old(|state.transcript|) + Turns(old(|state.transcript|))
    ensures raised.None? ==> state.finalWinner.Some? && state.finalSummary.Some? && state.finalReason.Some?
    ensures raised.Some? ==> trace[|trace| - 1] in {Agent, Memory, Judge}
    ensures Consistent(old(state.Snapshot())) ==> Consistent(state.Snapshot())
    ensures client.useMock && raised.None? ==> state.finalWinner == Some(Scientist)
    ensures client.useMock && OfflineReady(old(state.Snapshot()), old(client.mock.counter)) ==> raised.None?
  {
    ghost var l0 := |state.transcript|;
    ghost var consistent := Consistent(state.Snapshot());
    ghost var ready := client.useMock && OfflineReady(state.Snapshot(), client.mock.counter);
    ghost var p: nat := 0;
    var node := UserInput;
    raised := None;
    while node != End
      invariant p <= |Schedule(l0)| && node == NodeAt(l0, p)
      invariant |state.transcript| == l0 + AgentsAmong(l0, p)
      invariant consistent ==> Consistent(state.Snapshot())
      invariant node == End ==> state.finalWinner.Some? && state.finalSummary.Some? && state.finalReason.Some?
      invariant node == End && client.useMock ==> state.finalWinner == Some(Scientist)
      invariant ready ==> OfflineReady(state.Snapshot(), client.mock.counter)
      decreases |Schedule(l0)| - p
    {
      ScheduleFollowsEdges(l0, p);
      AgentsAmongStep(l0, p);
      if node != UserInput {
        var r := RunNode(node, state, client);
        if r.Some? {
          return r, Schedule(l0)[..p + 1];
        }
      }
      node := Successor(node, |state.transcript|);
      p := p + 1;
    }
    trace := Schedule(l0)[..p];
  }

  /** One node of the graph other than the entry, as the executor sees it:
      only an agent turn that raises nothing lengthens the transcript, the
      bookkeeping is kept, and a judge that raises nothing records the
      verdict in full. */
  method RunNode(node: Step, state: DebateState, client: GeminiClient) returns (raised: Option<Exc>)
    requires node in {Agent, Memory, Judge}
    modifies state, client, client.mock
    ensures raised.None? ==> |state.transcript| == old(|state.transcript|) + (if node == Agent then 1 else 0)
    ensures Consistent(old(state.Snapshot())) ==> Consistent(state.Snapshot())
    ensures node == Judge && raised.None? ==>
              state.finalWinner.Some? && state.finalSummary.Some? && state.finalReason.Some?
    ensures node == Judge && raised.None? && client.useMock ==> state.finalWinner == Some(Scientist)
    ensures client.useMock && OfflineReady(old(state.Snapshot()), old(client.mock.counter)) ==>
              raised.None? && OfflineReady(state.Snapshot(), client.mock.counter)
  {
    match node {
      case Agent => raised := RunAgent(state, client);
      case Memory => raised := RunMemory(state, client);
      case Judge => raised := RunJudge(state, client);
    }
  }

  /** agent_node as the executor sees it: a turn that raises nothing adds
      exactly one utterance, and the bookkeeping is kept either way. */
  method RunAgent(state: DebateState, client: GeminiClient) returns (raised: Option<Exc>)
    modifies state, client, client.mock
    ensures raised.None? ==> |state.transcript| == old(|state.transcript|) + 1
    ensures Consistent(old(state.Snapshot())) ==> Consistent(state.Snapshot())
    ensures client.useMock && OfflineReady(old(state.Snapshot()), old(client.mock.counter)) ==>
              raised.None? && OfflineReady(state.Snapshot(), client.mock.counter)
  {
    ghost var d := state.Snapshot();
    ghost var c := client.mock.counter;
    ghost var E;
    raised, E := AgentNode(state, client);
    ghost var plan := PlanOf(TurnPrompt(d), d.usedArguments, LastText(d.transcript), E);
    if Consistent(d) {
      EndedConsistent(d, plan.notes, plan.end);
    }
    if client.useMock && OfflineReady(d, c) {
      TurnPromptGetsArgument(d, c);
      OfflineTurnReady(d, TurnPrompt(d), E, c, client.mock.counter);
    }
  }

  /** memory_node as the executor sees it: the transcript, and with it the
      bookkeeping, is left alone. */
  method RunMemory(state: DebateState, client: GeminiClient) returns (raised: Option<Exc>)
    modifies state, client, client.mock
    ensures state.transcript == old(state.transcript)
    ensures Consistent(old(state.Snapshot())) ==> Consistent(state.Snapshot())
    ensures client.useMock && OfflineReady(old(state.Snapshot()), old(client.mock.counter)) ==>
              raised.None? && OfflineReady(state.Snapshot(), client.mock.counter)
  {
    ghost var d := state.Snapshot();
    ghost var c := client.mock.counter;
    ghost var E;
    raised, E := MemoryNode(state, client);
    MemoryAfterKeeps(d, E);
    if client.useMock && OfflineReady(d, c) {
      OfflineMemory(d, E, c, client.mock.counter);
    }
  }

  /** judge_node as the executor sees it: when it raises nothing, the
      verdict is recorded in full, offline with the Scientist as winner;
      the transcript and the bookkeeping are left alone. */
  method RunJudge(state: DebateState, client: GeminiClient) returns (raised: Option<Exc>)
    modifies state, client, client.mock
    ensures state.transcript == old(state.transcript)
    ensures Consistent(old(state.Snapshot())) ==> Consistent(state.Snapshot())
    ensures raised.None? ==> state.finalWinner.Some? && state.finalSummary.Some? && state.finalReason.Some?
    ensures raised.None? && client.useMock ==> state.finalWinner == Some(Scientist)
    ensures client.useMock && OfflineReady(old(state.Snapshot()), old(client.mock.counter)) ==>
              raised.None? && OfflineReady(state.Snapshot(), client.mock.counter)
  {
    ghost var d := state.Snapshot();
    ghost var c := client.mock.counter;
    ghost var x;
    raised, x := JudgeNode(state, client);
    if client.useMock {
      OfflineJudgeCall(d, x, c, client.mock.counter);
    }
    if raised.None? {
      JudgedRecordsWinner(d, x.result.value);
      if client.useMock && OfflineReady(d, c) {
        ReadyAfterVerdict(d, state.Snapshot(), c, client.mock.counter);
      }
    }
  }
}
