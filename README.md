# AIdebate core in Dafny

This project models two small systems from the AIdebate repository.

The first is the **debate engine**: a Scientist and a Philosopher take turns over a
shared `DebateState`. The agent node asks a text generator for an argument, checks it
against repetition and coherence validators, and re-asks once for each failed check.
The memory node asks for a running summary and for one relevance-routed memory per
speaker. After JudgeAt (8) utterances the judge node asks for a verdict, parses
`Summary:` / `Winner:` / `Reason:` lines, and falls back to transcript parity when no
valid winner is named. The generator is `gemini_text`. It either answers from the
counter-driven `MockLLM` or walks a rotated, de-duplicated list of candidate models
for up to two passes. Not-found errors skip a model, rate limits record a suggested
wait, an empty reply is re-asked once with a larger token cap, and one clamped back-off
separates the passes. The remote service is a parameter: a function from the request
number and the request to an outcome.

The second is the **self-healing classification pipeline**: inference, then a
confidence check against the threshold 0.60, then either the end or a fallback that
corrects the label from the user's yes/no answer. A separate review node marks a
record for human review.

The modules, file by file:

- `text.dfy` (`PyStr`): the parts of Python's `str` the core uses. This covers `strip`,
  `lower`, `splitlines`, `split`, `in` and `f"{n}"`.
- `state.dfy` (`State`): the debate state as a class whose fields the nodes update.
- `validators.dfy` (`Validators`): the three validators.
- `mock_llm.dfy` (`MockLlm`): the mock generator.
- `prompts.dfy` (`Prompts`): the prompt builders.
- `candidates.dfy` (`Candidates`): the candidate model list.
- `retry.dfy` (`Retry`): the rate-limit wait parser and the back-off.
- `client.dfy` (`Client`): `gemini_text` as a class over the module's globals.
- `nodes.dfy` (`Nodes`): the agent node and the bookkeeping invariant.
- `memory.dfy` (`Memory`): the memory node.
- `judge.dfy` (`Judge`): the judge node.
- `graph.dfy` (`Graph`): the graph's edges and an executor that runs them.
- `offline.dfy` (`Offline`): what a run against the mock generator is certain to do.
- `atg_nodes.dfy` (`AtgNodes`): the pipeline's record and its nodes.
- `atg_flow.dfy` (`AtgFlow`): the pipeline's graph and executor.

Each node that updates its state in place is a method. Its `ensures` ties the new state
to a function of the old one, such as `Ended`, `MemoryAfter`, `Judged`, `Checked`,
`Clarified` or `Rejected`, and the lemmas state what the source promises about those
functions. Each call to the generator is logged as an exchange: the prompt, the
sampling settings and the result. The node contracts say which requests a node makes
and what it does with each result.

The executor `Graph.RunDebate` proves the following:

- the nodes run follow the schedule user_input, agent and memory in turn, then judge;
- a run that raises nothing adds `Turns(l0)` utterances to a transcript of length
  `l0`, which is the number missing up to 8, or one when there are already 8 or
  more, since the entry edge leads to the agent unconditionally; it also records
  the verdict;
- the bookkeeping invariant `Consistent` is preserved;
- with the mock generator and a topic that quotes no mock marker phrase, no node raises
  and the Scientist wins.

## Model

| member | source | states |
|---|---|---|
| PyStr.Strip | src/validators.py:15 | `str.strip()` over Python's whitespace set; with `TrimLeftFacts`/`TrimRightFacts`, only whitespace is removed, at both ends, and the ends of the result are not whitespace |
| PyStr.TrimLeftFacts | src/validators.py:15 | leading whitespace removed, the result is a suffix that does not start with whitespace |
| PyStr.TrimRightFacts | src/validators.py:15 | trailing whitespace removed, the result is a prefix that does not end with whitespace |
| PyStr.StripIdempotent | src/validators.py:25 | stripping twice is stripping once |
| PyStr.StripLower | src/validators.py:25 | `strip().lower()` equals `lower().strip()` |
| PyStr.LowerIdempotent | src/validators.py:15 | lowering twice is lowering once |
| PyStr.LowerChars | src/nodes.py:122 | `lower()` maps every character through the ASCII lower-case map and keeps the length |
| PyStr.SplitLines | src/nodes.py:121 | `splitlines()`: no piece contains a line break |
| PyStr.SplitLinesAt | src/nodes.py:121 | a line followed by any terminator, "\r\n" counted as one, splits off as the first piece |
| PyStr.SplitLinesTrailing | src/nodes.py:121 | a terminator at the very end opens no empty line |
| PyStr.SplitLinesRejoin | src/nodes.py:121 | rejoining the pieces with the terminators they were cut at gives back the text; only the last piece may lack one, and a lone "\r" is never followed by "\n" |
| PyStr.SplitThreeLines | src/nodes.py:121 | three one-line texts joined by newlines split back into exactly those three |
| PyStr.Split | src/llm.py:93 | `str.split(",")`: at least one piece, no piece contains the separator, and joining the pieces with the separator gives back the text |
| PyStr.AfterFirst | src/nodes.py:123 | `split(":", 1)[1]` is the text after the first colon |
| PyStr.NatString | src/mock_llm.py:19 | `f"{n}"` for a natural number: decimal digits only, one digit exactly below 10 |
| PyStr.NatStringInjective | src/mock_llm.py:19 | distinct numbers render differently |
| State.SpeakerNamed | src/nodes.py:126-127 | the speaker a string names exactly, if it names one |
| State.SpeakerAlternates | src/state.py:37-38 | the speaker by turn index alternates and has period 2 |
| State.DebateState.constructor | src/state.py:16-31 | the state's defaults: turn 0, round 1, Scientist first, empty transcript and memories, no verdict |
| State.DebateState.NextSpeaker | src/state.py:37-38 | Scientist exactly on even turn indexes, Philosopher exactly on odd ones |
| Validators.ValidateTurn | src/validators.py:7-11 | ok exactly when the speaker is the expected next speaker; a message exactly when not ok |
| Validators.ValidateRepetition | src/validators.py:14-18 | ok exactly when the normalized text is not among the used arguments |
| Validators.RepetitionIgnoresNormalization | src/validators.py:14-18 | the check gives the same verdict on a text and on its normalized form |
| Validators.NormalizeIdempotent | src/validators.py:15 | `strip().lower()` applied twice is applied once |
| Validators.ValidateCoherence | src/validators.py:21-27 | ok exactly when the stripped text has at least 10 characters and differs from the previous one after normalization; empty, short and identical texts are each rejected |
| Validators.FirstUtteranceNeedsOnlyLength | src/nodes.py:52-53 | against the empty previous text only the length test applies |
| MockLlm.MockLLM.constructor | src/mock_llm.py:7-8 | the counter starts at 1 |
| MockLlm.MockLLM.Generate | src/mock_llm.py:10-19 | each call takes the next counter value and answers by marker: judge first, then summary, then extract, otherwise the numbered argument |
| MockLlm.UnmarkedPromptGetsArgument | src/mock_llm.py:12-19 | a prompt with no marker phrase gets `Argument #n: ...` |
| MockLlm.JudgeMarkerFirst | src/mock_llm.py:12-14 | the judge marker wins over the others |
| MockLlm.ArgumentReplyLongEnough | src/mock_llm.py:19 | a numbered argument has no surrounding whitespace and passes the length test |
| MockLlm.NormalizedArgumentReply | src/mock_llm.py:19 | normalizing a numbered argument lowers only its fixed text; the digits stay |
| MockLlm.ArgumentRepliesDistinct | src/mock_llm.py:19 | arguments drawn at different counter values differ even after normalization |
| MockLlm.MockReplyUnmarked | src/mock_llm.py:12-19 | no mock reply quotes a marker phrase |
| Prompts.AgentPromptGetsArgument | src/llm.py:198-207 | an agent prompt over an unmarked topic and memory has no marker, so the mock answers it with the numbered argument |
| Prompts.JudgePromptGetsVerdict | src/llm.py:210-218 | the judge prompt contains `Output format (strict):`, so the mock answers it with the canned verdict |
| Candidates.Preferred | src/llm.py:129 | the explicit model if given and non-empty, otherwise `GEMINI_MODEL` if non-empty, otherwise none |
| Candidates.NonEmptyStripped | src/llm.py:93 | the stripped comma-separated pieces, with empty ones dropped |
| Candidates.NonEmptyStrippedElements | src/llm.py:93 | an item is kept exactly when it is a non-empty stripped piece |
| Candidates.FallbackItems | src/llm.py:91-105 | the six default models when the variable is unset or blank; never an empty name |
| Candidates.Without | src/llm.py:108 | the items other than the preferred model |
| Candidates.IndexOf | src/llm.py:110-115 | the first position of an element, or the length when it is absent |
| Candidates.DedupSameElements | src/llm.py:109-116 | de-duplication keeps exactly the same elements |
| Candidates.DedupNoDuplicates | src/llm.py:109-116 | the result has no duplicates |
| Candidates.DedupFirstOccurrenceOrder | src/llm.py:109-116 | the result keeps the order of first occurrences |
| Candidates.CandidateListProperties | src/llm.py:106-116 | the preferred model comes first; no duplicates; the elements are the items plus the preferred model |
| Candidates.BuildCandidates | src/llm.py:106-116 | the loop with a seen-set computes the specified candidate list |
| Candidates.RotateIsPermutation | src/llm.py:133-135 | the round-robin rotation is a permutation starting at `idx % len` |
| Candidates.NextRotation | src/llm.py:136 | the next rotation index is `(idx + 1) % len` and is below len |
| Retry.RetryCap | src/llm.py:155-156 | `min(cap + 64, 256)`, and no cap stays no cap |
| Retry.DigitRun | src/llm.py:169 | the maximal run of digits at a position |
| Retry.SkipSpaces | src/llm.py:169 | the maximal run of `\s` characters at a position |
| Retry.DigitsValueOfNatString | src/llm.py:171 | reading the digits of `f"{n}"` gives back n |
| Retry.RateLimitWaitRoundTrip | src/llm.py:169-172 | a message opening with `retry in`, spaces, `f"{n}"` and `s` yields the wait n |
| Retry.WaitOfDigits | src/llm.py:169-172 | a message opening with `retry in`, spaces, digits and `s` (any case) yields the value of those digits |
| Retry.NoDigitsDefaultWait | src/llm.py:173-174 | a message without digits yields the default wait 8.0 |
| Retry.RateLimitWaitNonNegative | src/llm.py:169-174 | every parsed wait is non-negative |
| Retry.Min | src/llm.py:186 | `min(rate_waits)` is one of the waits and no greater than any |
| Retry.Backoff | src/llm.py:186 | the back-off is clamped to [3, 20]; a minimum inside that range is used as is |
| Client.ModelAttempt | src/llm.py:144-161 | one or two requests to a model; a reply is never empty; the second request is made exactly when the first answered empty |
| Client.Handle | src/llm.py:162-183 | not-found skips, a rate limit waits, a "no text" runtime error skips, any other error stops the pass |
| Client.PassFrom | src/llm.py:143-183 | a pass makes at most two requests per model, only extends the recorded waits, and ends with a reply or an error when any model is left |
| Client.GenerationBounds | src/llm.py:142-195 | at most two passes (4 requests per model), at most one back-off, within [3, 20]; a reply is never empty |
| Client.NoCandidatesError | src/llm.py:193-195 | with no candidates it raises "No Gemini model candidates available" and makes no request |
| Client.PassAttempts | src/llm.py:143-183 | a pass tries the candidates in order, each attempt starting at the request where the one before ended and every one but the last skipped; the pass ends with the reply or the error of its last attempt |
| Client.PassWaits | src/llm.py:165-175 | a pass records a wait exactly when one of its attempts was rate-limited |
| Client.CallAttempts | src/llm.py:142-194 | a second pass runs exactly when the first gave no reply and met a rate limit; the call returns or raises what its very last attempt gave, and that attempt ends at the call's last request |
| Client.SinglePassWithoutRateLimits | src/llm.py:184-192 | when the service never rate-limits there is no back-off and only one pass |
| Client.GeminiClient.constructor | src/llm.py:14-15 | the mock instance starts at 1 and the rotation index at 0 |
| Client.GeminiClient.Send | src/llm.py:149 | the request is logged and answered by the service for its request number |
| Client.GeminiClient.TryModel | src/llm.py:144-161 | the method computes ModelAttempt |
| Client.GeminiClient.RunPass | src/llm.py:143-183 | the loop over candidates computes PassFrom |
| Client.GeminiClient.RunPasses | src/llm.py:140-195 | the two-pass loop computes Generation and records its pause |
| Client.GeminiClient.GeminiText | src/llm.py:119-195 | with the mock flag the reply is the mock's and nothing else moves; otherwise the reply, requests and pause are Generation's over the rotated candidate list, and the index advances |
| Nodes.GetPersona | src/nodes.py:17-18 | Scientist's persona exactly for "Scientist", the Philosopher's for every other name |
| Nodes.AgentPlan | src/nodes.py:35-61 | an agent turn makes 1 to 3 requests, the first at temperature 0.7 with 64 tokens, and records one error note per re-ask |
| Nodes.RetryPlanShape | src/nodes.py:38-50 | a repeated first reply leads to a re-ask at 0.2 with the avoid-repetition suffix and to the repetition note |
| Nodes.CoherencePlanShape | src/nodes.py:52-61 | a re-ask at 0.6 with the coherence suffix happens exactly when the coherence check fails, and its reply is spoken unchecked |
| Nodes.PlanFollowsResults | src/nodes.py:35-61 | a later request is made only after an earlier one returned text; the spoken text is the last reply; a failed request's error is raised |
| Nodes.FirstReplyKept | src/nodes.py:35-63 | a turn makes one request and speaks exactly when the first reply is new and coherent |
| Nodes.RepeatedTwiceRaises | src/nodes.py:48-50 | two repeated replies raise "Repeated argument after retry" after two requests |
| Nodes.SpokenTextChecked | src/nodes.py:38-63 | the spoken text passed both checks unless it came from the coherence re-ask |
| Nodes.CoherenceRetryUnchecked | src/nodes.py:52-63 | the coherence re-ask's reply is spoken without any further check |
| Nodes.FreshConsistent | src/state.py:16-31 | a fresh state satisfies the bookkeeping invariant |
| Nodes.EndedConsistent | src/nodes.py:63-72 | a turn keeps the invariant (turn and round counters, alternating speakers, used arguments) and adds one utterance exactly when it speaks |
| Nodes.NotedThenEnded | src/nodes.py:38-56 | error notes accumulate in order |
| Nodes.Speak | src/nodes.py:63-72 | append the utterance, add the normalized text to the used arguments, advance turn, round and speaker |
| Nodes.NodeCall | src/nodes.py:35 | each generator call is logged; offline it is answered by the mock at the next counter value |
| Nodes.CoherenceStage | src/nodes.py:52-61 | the coherence stage makes its plan's requests and ends the turn as the plan says |
| Nodes.RetryStage | src/nodes.py:38-61 | the repetition re-ask and the following stage make their plan's requests and end the turn as the plan says |
| Nodes.AgentTurn | src/nodes.py:35-73 | the turn's requests are those of AgentPlan over the replies received, and the new state is Ended of the old one |
| Nodes.AgentNode | src/nodes.py:21-73 | agent_node with the speaker, persona and memory read from the state: the turn of AgentTurn on the prompt built for that turn |
| Memory.MemoryAsks | src/nodes.py:79-103 | memory_node's three requests: the summary at 0.4 with 160 tokens, then Scientist's and the Philosopher's routed prompts at 0.2 with 96 tokens |
| Memory.RoutedPrompts | src/nodes.py:92-102 | one routed prompt per speaker, in the order Scientist, Philosopher |
| Memory.OkPrefix | src/nodes.py:103-104 | the replies written before the first failed request |
| Memory.MemoryAfterKeeps | src/nodes.py:76-110 | only the summary and the per-speaker memories change, so the bookkeeping invariant is kept |
| Memory.FullRefresh | src/nodes.py:85-104 | when all three requests return text, the summary and both memories are those replies |
| Memory.FailedSummaryKeeps | src/nodes.py:85-86 | a failed summary request leaves the state unchanged |
| Memory.UtterancesOfSpeaker | src/nodes.py:94 | the list comprehension keeps exactly the utterances of the given speaker |
| Memory.RecentOpponentFacts | src/nodes.py:94 | the routed snippets are the opponent's last at most two utterances, in order |
| Memory.RecentOpponentEndsWithLast | src/nodes.py:94 | once the opponent has spoken, the snippets end with the opponent's latest utterance |
| Memory.SummaryPromptGetsSummary | src/nodes.py:81-84 | the summary prompt carries the summary marker, so the mock answers it with the canned summary |
| Memory.RefreshRouted | src/nodes.py:92-104 | the loop makes the routed requests in order and writes each reply before the next request |
| Memory.MemoryNode | src/nodes.py:76-110 | memory_node: 1 to 3 requests; it stops at the first failure and raises it; the new state is MemoryAfter of the old one |
| Judge.ParseLineFields | src/nodes.py:121-129 | a line sets the summary, the winner or the reason by case-insensitive tag, in that precedence |
| Judge.NoWinnerNamed | src/nodes.py:124-127 | no winner is read exactly when no line names "Scientist" or "Philosopher" |
| Judge.LastWinnerNamed | src/nodes.py:124-127 | otherwise the winner is the one named by the last line that names a valid winner |
| Judge.NoSummaryGiven | src/nodes.py:120-123 | without a summary line the summary is empty |
| Judge.LastSummaryGiven | src/nodes.py:122-123 | the last summary line wins |
| Judge.NoReasonGiven | src/nodes.py:120-129 | without a reason line the reason is empty |
| Judge.LastReasonGiven | src/nodes.py:128-129 | the last reason line wins |
| Judge.JudgedRecordsWinner | src/nodes.py:131-137 | a winner is always recorded: the parsed one, or Scientist exactly when the transcript length is odd; only the three verdict fields change |
| Judge.FormatThenParse | src/llm.py:216-217 | a reply in the requested format parses back to its summary, winner and reason |
| Judge.OfflineVerdict | src/nodes.py:116-133 | against the mock the judge receives the canned verdict, which names the Scientist |
| Judge.OfflineJudgeCall | src/nodes.py:116-136 | an offline judge call returns the canned verdict and records the Scientist as winner |
| Judge.ParseVerdict | src/nodes.py:120-129 | the parsing loop computes Parse |
| Judge.JudgeNode | src/nodes.py:113-142 | judge_node makes one request at 0.2 with 128 tokens; on text the verdict is Judged, and on failure the state is unchanged and the error is raised |
| Offline.FreshReady | src/state.py:16-31 | a fresh debate over a topic without marker phrases is ready for an offline run |
| Offline.ArgumentIsNew | src/mock_llm.py:11-19 | the argument drawn at the current counter has not been used |
| Offline.ArgumentIsCoherent | src/nodes.py:52-53 | a fresh numbered argument also passes the coherence check against the previous utterance |
| Offline.TurnPromptGetsArgument | src/nodes.py:30-35 | in a ready state the agent prompt is answered with the numbered argument |
| Offline.OfflineTurn | src/nodes.py:35-63 | offline, agent_node makes one request, speaks the numbered argument and records no note |
| Offline.OfflineTurnReady | src/nodes.py:21-73 | offline, a turn raises nothing and leaves the state ready for the next draw |
| Offline.OfflineMemory | src/nodes.py:76-110 | offline, every memory request returns text and the state stays ready |
| Offline.MockTextsUnmarked | src/mock_llm.py:10-19 | every offline reply is text and quotes no marker phrase |
| Graph.Route | src/graph.py:25-27 | to the judge exactly when the transcript holds at least 8 utterances, otherwise back to the agent |
| Graph.Edges | src/graph.py:30-33 | user_input leads to agent, agent to memory, memory to agent or judge, judge to the end |
| Graph.ScheduleFollowsEdges | src/graph.py:23-33 | each scheduled node is the successor of the one before, given the transcript length at that point |
| Graph.ScheduleShape | src/graph.py:43-45 | user_input, then agent and memory alternating, then the judge once, last |
| Graph.FreshRunTakesEightTurns | src/graph.py:27 | from a fresh state the agent runs exactly 8 times and the judge sees 8 utterances |
| Graph.FinishedIffJudged | src/state.py:40-41 | under the invariant, `is_finished` holds exactly when the route goes to the judge |
| Graph.RunDebate | src/graph.py:38-45 | the nodes run follow the schedule and a failing node ends the run; a clean run adds `Turns(l0)` utterances (those missing up to 8, or one from 8 or more) and records the verdict; the invariant is kept; offline from a ready state nothing raises and the Scientist wins |
| Graph.RunNode | src/graph.py:17-20 | one node step: only an agent turn lengthens the transcript, and a clean judge step records the verdict |
| Graph.RunAgent | src/nodes.py:21-73 | a clean turn adds one utterance and the invariant is kept; offline from a ready state nothing raises |
| Graph.RunMemory | src/nodes.py:76-110 | the transcript is untouched; offline from a ready state nothing raises |
| Graph.RunJudge | src/nodes.py:113-142 | a clean judge step records all three verdict fields, with the Scientist offline |
| AtgNodes.CheckRoutesByThreshold | src/atg/nodes/confidence.py:10-18 | the route is "accept" exactly when the confidence is at least 0.60, and "fallback" exactly when below |
| AtgNodes.MissingConfidenceFallsBack | src/atg/nodes/confidence.py:11-18 | a missing confidence reads as 0.0 and goes to the fallback |
| AtgNodes.CheckAppendsOneEvent | src/atg/nodes/confidence.py:21 | exactly one event is appended, after the earlier ones, and it records the decision |
| AtgNodes.CheckWritesRouteAndEvents | src/atg/nodes/confidence.py:20-21 | only the route and the events are written |
| AtgNodes.CheckTwice | src/atg/nodes/confidence.py:8-22 | checking twice keeps the route and logs the decision twice |
| AtgNodes.AnswerLabel | src/atg/nodes/fallback.py:22-29 | the user's answer names one of the two labels, "negative" exactly for yes |
| AtgNodes.ClarifiedFollowsAnswer | src/atg/nodes/fallback.py:21-32 | afterwards the prediction is the label the user named |
| AtgNodes.ClarifiedCorrectedIff | src/atg/nodes/fallback.py:22-32 | corrected exactly when the earlier prediction differed from that label; source "user_clarification" then and None otherwise |
| AtgNodes.MissingPredictionCorrected | src/atg/nodes/fallback.py:21-29 | a missing prediction reads as "unknown" and is always corrected |
| AtgNodes.ClarifiedKeepsTheRest | src/atg/nodes/fallback.py:34-37 | one event is appended; text, confidence, route and review flag are untouched |
| AtgNodes.ClarifiedSettles | src/atg/nodes/fallback.py:21-32 | a second clarification with the same answer corrects nothing |
| AtgNodes.RejectHoldsForReview | src/atg/nodes/reject.py:13-18 | needs_review is set, one event is appended, and nothing else changes |
| AtgNodes.RejectTwice | src/atg/nodes/reject.py:14-17 | holding twice keeps the flag and appends two events |
| AtgNodes.Record.constructor | src/atg/cli.py:40 | a record holding only the input text |
| AtgNodes.Record.Infer | src/atg/nodes/inference.py:53-63 | the in-place update is Inferred: the classifier's label and confidence are stored and one event is logged |
| AtgNodes.Record.CheckConfidence | src/atg/nodes/confidence.py:9-22 | the in-place update is Checked |
| AtgNodes.Record.Clarify | src/atg/nodes/fallback.py:15-37 | the in-place update is Clarified, with the user's answer given |
| AtgNodes.Record.Reject | src/atg/nodes/reject.py:13-18 | the in-place update is Rejected |
| AtgFlow.RouteOf | src/atg/graph/flow.py:30-31 | the record's route, "accept" when absent |
| AtgFlow.FlowGraph.AddNode | src/atg/graph/flow.py:21-23 | the node is added to the graph |
| AtgFlow.FlowGraph.AddEdge | src/atg/graph/flow.py:26-27 | the fixed edge is added |
| AtgFlow.FlowGraph.AddBranch | src/atg/graph/flow.py:33-37 | the conditional edge is added with its branch map |
| AtgFlow.BuildGraph | src/atg/graph/flow.py:17-46 | the graph holds inference, confidence_check and fallback, with exactly the topology's edges |
| AtgFlow.TopologyEdges | src/atg/graph/flow.py:26-40 | entry to inference, inference to the check, "accept" to the end, "fallback" to the fallback, fallback to the end; any other route has no branch |
| AtgFlow.EdgesDescend | src/atg/graph/flow.py:26-40 | every edge leads closer to the end, so no node runs twice |
| AtgFlow.StepsShape | src/atg/graph/flow.py:20-40 | inference then the check always run; the fallback runs exactly when the confidence is below 0.60; at most 3 steps, all distinct |
| AtgFlow.OutcomePrediction | src/atg/graph/flow.py:33-40 | a confident prediction is kept and not marked corrected; otherwise the prediction is the user's label |
| AtgFlow.OutcomeEvents | src/atg/graph/flow.py:20-40 | one event per node run, in order |
| AtgFlow.Run | src/atg/graph/flow.py:17-46 | following the built graph runs exactly Steps and leaves the record as Outcome |

## Left out

- Logging, `rich` printing and the log and artifact directories: output only.
- `configure_gemini`: it passes the API key to the external library. That library's calls are the abstract service.
- `_resp_to_text` (src/llm.py:59-86): the service outcome is already the extracted, stripped text.
- The `google.generativeai` calls and exception classes: a service function from the request number and request to text, not-found, rate-limit or other error.
- `time.sleep` and `random.uniform` jitter: the clamped back-off is recorded as a pause; the jitter added to it is not.
- Client.GeminiClient.GeminiText: the recorded pause excludes the up to 1.5 s random jitter.
- The environment variables `USE_MOCK_LLM`, `GEMINI_MODEL` and `GEMINI_FALLBACK_MODELS`: these are fields fixed when the client is built.
- PyStr.Lower: lower-cases only ASCII letters; Python's full Unicode case mapping is not modelled.
- Retry.RateLimitWait: the wait is the exact decimal value of the captured digits, not its float rounding; the pattern's case-insensitive match is ASCII only, so the non-ASCII letters Python's IGNORECASE also folds to 's' or 'i' (such as 'ſ' or 'ı') are not matched.
- LangGraph's `compile`/`invoke` (src/graph.py:38-45, src/atg/graph/flow.py:43-46) is replaced by explicit executors. The coercion of a dict result back to a `DebateState` (src/graph.py:47-58) is not modelled.
- user_input_node only logs, so the executor passes straight on to the agent.
- Graph.RunDebate: `trace` is a ghost record of the nodes run.
- agent_node's turn check (src/nodes.py:23-28) validates the speaker it has just computed, so it never fails. The model asserts that instead of modelling a branch that cannot run.
- memory_node's routed prompt does not contain the mock's extract phrase "Extract the opponent's most recent". Offline, the mock answers it with a numbered argument rather than the bullet text. The model follows the code.
- The inference node's model loading, tokenizer, softmax and logits: the classifier's label and confidence are parameters.
- AtgNodes.Record.Infer: the logits the inference node also stores are not modelled.
- The two-decimal rendering of confidences in the pipeline's event texts: each event records the values it reports.
- `Confirm.ask` in the fallback node: the user's answer is a parameter.
- The pipeline's checkpointing `MemorySaver`, `draw_graph_png` and `GraphRenderError`: rendering and file I/O.
- The pipeline's CLI, the debate's `main.py` and the diagram module: argument parsing and display.
