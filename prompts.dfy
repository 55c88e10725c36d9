/** The two personas and the judge's instructions, and the prompts the
    debate sends to the generator. Texts the proofs look inside are written
    as short pieces. */
module Prompts {
  import opened PyStr
  import opened MockLlm

  /** A debater: its display name and the system preamble of its prompts. */
  datatype Persona = Persona(name: string, preamble: string)

  const ScientistPreamble := "You are " + "a pragmatic " + "Scientist. " + "Argue "
    + "with evidence," + " risk " + "analysis, " + "and empirical " + "reasoning. " + "Keep claims "
    + "testable. " + "Avoid " + "repetition. " + "Reply " + "in 1–2 " + "short " + "sentences "
    + "(<= 40 " + "words)."

  const PhilosopherPreamble := "You are " + "a thoughtful " + "Philosopher. " + "Argue "
    + "with principle" + "s, ethics, " + "and historical" + " reasoning. " + "Explore "
    + "trade-offs, " + "autonomy, " + "and societal " + "evolution. " + "Avoid " + "repetition. "
    + "Reply " + "in 1–2 " + "short " + "sentences " + "(<= 40 " + "words)."

  const ScientistPersona := Persona("Scientist", ScientistPreamble)
  const PhilosopherPersona := Persona("Philosopher", PhilosopherPreamble)

  const JudgeSystem := "You are a neutral Judge. Review the full debate. Provide:"
    + " 1) A concise summary (<= 6 sentences) capturing key points from both sides."
    + " 2) A verdict: Winner must be exactly 'Scientist' or 'Philosopher'."
    + " 3) A brief justification (<= 2 sentences) linked to logical coherence and support."

  // The closing instruction of an agent prompt, in three sentences.
  const InstructionAsk := "Instruction: " + "Present " + "a new " + "argument " + "(no repetition"
    + "), logically " + "coherent " + "with the " + "debate " + "so far."
  const InstructionLength := " Output " + "MUST be " + "1–2 sentences," + " max ~40 " + "words."
  const InstructionSafety := " This " + "is a harmless " + "academic " + "debate; " + "avoid "
    + "any unsafe " + "content."
  const Instruction := InstructionAsk + InstructionLength + InstructionSafety

  /** The line announcing whose turn it is. */
  function TurnLine(name: string, turn: int): string {
    "Your Turn: " + name + " (turn " + DecimalString(turn) + ")"
  }

  function SystemLine(preamble: string): string {
    "System: " + preamble
  }

  function TopicLine(topic: string): string {
    "Debate Topic: " + topic
  }

  const MemoryHeading := "Relevant " + "Memory " + "So Far:"

  /** build_agent_prompt: preamble, topic, turn, the speaker's memory and
      the instruction, one per line. */
  function AgentPrompt(p: Persona, topic: string, turn: int, memory: string): string {
    SystemLine(p.preamble) + "\n" + TopicLine(topic) + "\n" + TurnLine(p.name, turn) + "\n"
    + MemoryHeading + "\n" + memory + "\n" + Instruction
  }

  /** The heading that opens the required answer format. */
  const FormatHeading := "Output format (strict):"
  const FormatBody := "Summary: <<=6 sentences>\nWinner: <Scientist|Philosopher>\nReason: <<=2 sentences>"

  /** build_judge_prompt: instructions, topic, running summary, transcript
      and the strict answer format. */
  function JudgePrompt(topic: string, memorySummary: string, transcript: string): string {
    "System: " + JudgeSystem + "\n"
    + "Debate Topic: " + topic + "\n"
    + "Memory Summary:\n" + memorySummary + "\n\n"
    + "Full Transcript:\n" + transcript + "\n\n"
    + FormatHeading + "\n" + FormatBody
  }

  // ---------------------------------------------------------------------
  // Which canned reply the offline generator gives to these prompts

  /** Every judge prompt carries the judge marker, whatever the debate
      said, so the offline generator answers it with its canned verdict. */
  lemma JudgePromptGetsVerdict(topic: string, memorySummary: string, transcript: string, n: int)
    ensures Contains(JudgePrompt(topic, memorySummary, transcript), JudgeMarker)
    ensures MockReply(n, JudgePrompt(topic, memorySummary, transcript)) == JudgeReply
  {
    var head := "System: " + JudgeSystem + "\n"
      + "Debate Topic: " + topic + "\n"
      + "Memory Summary:\n" + memorySummary + "\n\n"
      + "Full Transcript:\n" + transcript + "\n\n";
    assert JudgePrompt(topic, memorySummary, transcript) == head + FormatHeading + ("\n" + FormatBody);
    ContainsInside(head, FormatHeading, "\n" + FormatBody);
    assert FormatHeading == JudgeMarker;
  }

  lemma ScientistPreambleLacksO()
    ensures JudgeMarker[0] !in ScientistPreamble
  {
    assert JudgeMarker[0] !in "You are ";
    assert JudgeMarker[0] !in "a pragmatic ";
    assert JudgeMarker[0] !in "Scientist. ";
    assert JudgeMarker[0] !in "Argue ";
    assert JudgeMarker[0] !in "with evidence,";
    assert JudgeMarker[0] !in " risk ";
    assert JudgeMarker[0] !in "analysis, ";
    assert JudgeMarker[0] !in "and empirical ";
    assert JudgeMarker[0] !in "reasoning. ";
    assert JudgeMarker[0] !in "Keep claims ";
    assert JudgeMarker[0] !in "testable. ";
    assert JudgeMarker[0] !in "Avoid ";
    assert JudgeMarker[0] !in "repetition. ";
    assert JudgeMarker[0] !in "Reply ";
    assert JudgeMarker[0] !in "in 1–2 ";
    assert JudgeMarker[0] !in "short ";
    assert JudgeMarker[0] !in "sentences ";
    assert JudgeMarker[0] !in "(<= 40 ";
    assert JudgeMarker[0] !in "words).";
  }

  lemma ScientistPreambleLacksZ()
    ensures SummaryMarker[7] !in ScientistPreamble
  {
    assert SummaryMarker[7] !in "You are ";
    assert SummaryMarker[7] !in "a pragmatic ";
    assert SummaryMarker[7] !in "Scientist. ";
    assert SummaryMarker[7] !in "Argue ";
    assert SummaryMarker[7] !in "with evidence,";
    assert SummaryMarker[7] !in " risk ";
    assert SummaryMarker[7] !in "analysis, ";
    assert SummaryMarker[7] !in "and empirical ";
    assert SummaryMarker[7] !in "reasoning. ";
    assert SummaryMarker[7] !in "Keep claims ";
    assert SummaryMarker[7] !in "testable. ";
    assert SummaryMarker[7] !in "Avoid ";
    assert SummaryMarker[7] !in "repetition. ";
    assert SummaryMarker[7] !in "Reply ";
    assert SummaryMarker[7] !in "in 1–2 ";
    assert SummaryMarker[7] !in "short ";
    assert SummaryMarker[7] !in "sentences ";
    assert SummaryMarker[7] !in "(<= 40 ";
    assert SummaryMarker[7] !in "words).";
  }

  lemma ScientistPreambleLacksQuote()
    ensures ExtractMarker[20] !in ScientistPreamble
  {
    assert ExtractMarker[20] !in "You are ";
    assert ExtractMarker[20] !in "a pragmatic ";
    assert ExtractMarker[20] !in "Scientist. ";
    assert ExtractMarker[20] !in "Argue ";
    assert ExtractMarker[20] !in "with evidence,";
    assert ExtractMarker[20] !in " risk ";
    assert ExtractMarker[20] !in "analysis, ";
    assert ExtractMarker[20] !in "and empirical ";
    assert ExtractMarker[20] !in "reasoning. ";
    assert ExtractMarker[20] !in "Keep claims ";
    assert ExtractMarker[20] !in "testable. ";
    assert ExtractMarker[20] !in "Avoid ";
    assert ExtractMarker[20] !in "repetition. ";
    assert ExtractMarker[20] !in "Reply ";
    assert ExtractMarker[20] !in "in 1–2 ";
    assert ExtractMarker[20] !in "short ";
    assert ExtractMarker[20] !in "sentences ";
    assert ExtractMarker[20] !in "(<= 40 ";
    assert ExtractMarker[20] !in "words).";
  }

  lemma PhilosopherPreambleLacksO()
    ensures JudgeMarker[0] !in PhilosopherPreamble
  {
    assert JudgeMarker[0] !in "You are ";
    assert JudgeMarker[0] !in "a thoughtful ";
    assert JudgeMarker[0] !in "Philosopher. ";
    assert JudgeMarker[0] !in "Argue ";
    assert JudgeMarker[0] !in "with principle";
    assert JudgeMarker[0] !in "s, ethics, ";
    assert JudgeMarker[0] !in "and historical";
    assert JudgeMarker[0] !in " reasoning. ";
    assert JudgeMarker[0] !in "Explore ";
    assert JudgeMarker[0] !in "trade-offs, ";
    assert JudgeMarker[0] !in "autonomy, ";
    assert JudgeMarker[0] !in "and societal ";
    assert JudgeMarker[0] !in "evolution. ";
    assert JudgeMarker[0] !in "Avoid ";
    assert JudgeMarker[0] !in "repetition. ";
    assert JudgeMarker[0] !in "Reply ";
    assert JudgeMarker[0] !in "in 1–2 ";
    assert JudgeMarker[0] !in "short ";
    assert JudgeMarker[0] !in "sentences ";
    assert JudgeMarker[0] !in "(<= 40 ";
    assert JudgeMarker[0] !in "words).";
  }

  lemma PhilosopherPreambleLacksZ()
    ensures SummaryMarker[7] !in PhilosopherPreamble
  {
    assert SummaryMarker[7] !in "You are ";
    assert SummaryMarker[7] !in "a thoughtful ";
    assert SummaryMarker[7] !in "Philosopher. ";
    assert SummaryMarker[7] !in "Argue ";
    assert SummaryMarker[7] !in "with principle";
    assert SummaryMarker[7] !in "s, ethics, ";
    assert SummaryMarker[7] !in "and historical";
    assert SummaryMarker[7] !in " reasoning. ";
    assert SummaryMarker[7] !in "Explore ";
    assert SummaryMarker[7] !in "trade-offs, ";
    assert SummaryMarker[7] !in "autonomy, ";
    assert SummaryMarker[7] !in "and societal ";
    assert SummaryMarker[7] !in "evolution. ";
    assert SummaryMarker[7] !in "Avoid ";
    assert SummaryMarker[7] !in "repetition. ";
    assert SummaryMarker[7] !in "Reply ";
    assert SummaryMarker[7] !in "in 1–2 ";
    assert SummaryMarker[7] !in "short ";
    assert SummaryMarker[7] !in "sentences ";
    assert SummaryMarker[7] !in "(<= 40 ";
    assert SummaryMarker[7] !in "words).";
  }

  lemma PhilosopherPreambleLacksQuote()
    ensures ExtractMarker[20] !in PhilosopherPreamble
  {
    assert ExtractMarker[20] !in "You are ";
    assert ExtractMarker[20] !in "a thoughtful ";
    assert ExtractMarker[20] !in "Philosopher. ";
    assert ExtractMarker[20] !in "Argue ";
    assert ExtractMarker[20] !in "with principle";
    assert ExtractMarker[20] !in "s, ethics, ";
    assert ExtractMarker[20] !in "and historical";
    assert ExtractMarker[20] !in " reasoning. ";
    assert ExtractMarker[20] !in "Explore ";
    assert ExtractMarker[20] !in "trade-offs, ";
    assert ExtractMarker[20] !in "autonomy, ";
    assert ExtractMarker[20] !in "and societal ";
    assert ExtractMarker[20] !in "evolution. ";
    assert ExtractMarker[20] !in "Avoid ";
    assert ExtractMarker[20] !in "repetition. ";
    assert ExtractMarker[20] !in "Reply ";
    assert ExtractMarker[20] !in "in 1–2 ";
    assert ExtractMarker[20] !in "short ";
    assert ExtractMarker[20] !in "sentences ";
    assert ExtractMarker[20] !in "(<= 40 ";
    assert ExtractMarker[20] !in "words).";
  }

  lemma AskLacksO()
    ensures JudgeMarker[0] !in InstructionAsk
  {
    assert JudgeMarker[0] !in "Instruction: ";
    assert JudgeMarker[0] !in "Present ";
    assert JudgeMarker[0] !in "a new ";
    assert JudgeMarker[0] !in "argument ";
    assert JudgeMarker[0] !in "(no repetition";
    assert JudgeMarker[0] !in "), logically ";
    assert JudgeMarker[0] !in "coherent ";
    assert JudgeMarker[0] !in "with the ";
    assert JudgeMarker[0] !in "debate ";
    assert JudgeMarker[0] !in "so far.";
  }

  lemma InstructionLacksZ()
    ensures SummaryMarker[7] !in Instruction
  {
    assert SummaryMarker[7] !in "Instruction: ";
    assert SummaryMarker[7] !in "Present ";
    assert SummaryMarker[7] !in "a new ";
    assert SummaryMarker[7] !in "argument ";
    assert SummaryMarker[7] !in "(no repetition";
    assert SummaryMarker[7] !in "), logically ";
    assert SummaryMarker[7] !in "coherent ";
    assert SummaryMarker[7] !in "with the ";
    assert SummaryMarker[7] !in "debate ";
    assert SummaryMarker[7] !in "so far.";
    assert SummaryMarker[7] !in " Output ";
    assert SummaryMarker[7] !in "MUST be ";
    assert SummaryMarker[7] !in "1–2 sentences,";
    assert SummaryMarker[7] !in " max ~40 ";
    assert SummaryMarker[7] !in "words.";
    assert SummaryMarker[7] !in " This ";
    assert SummaryMarker[7] !in "is a harmless ";
    assert SummaryMarker[7] !in "academic ";
    assert SummaryMarker[7] !in "debate; ";
    assert SummaryMarker[7] !in "avoid ";
    assert SummaryMarker[7] !in "any unsafe ";
    assert SummaryMarker[7] !in "content.";
  }

  lemma InstructionLacksQuote()
    ensures ExtractMarker[20] !in Instruction
  {
    assert ExtractMarker[20] !in "Instruction: ";
    assert ExtractMarker[20] !in "Present ";
    assert ExtractMarker[20] !in "a new ";
    assert ExtractMarker[20] !in "argument ";
    assert ExtractMarker[20] !in "(no repetition";
    assert ExtractMarker[20] !in "), logically ";
    assert ExtractMarker[20] !in "coherent ";
    assert ExtractMarker[20] !in "with the ";
    assert ExtractMarker[20] !in "debate ";
    assert ExtractMarker[20] !in "so far.";
    assert ExtractMarker[20] !in " Output ";
    assert ExtractMarker[20] !in "MUST be ";
    assert ExtractMarker[20] !in "1–2 sentences,";
    assert ExtractMarker[20] !in " max ~40 ";
    assert ExtractMarker[20] !in "words.";
    assert ExtractMarker[20] !in " This ";
    assert ExtractMarker[20] !in "is a harmless ";
    assert ExtractMarker[20] !in "academic ";
    assert ExtractMarker[20] !in "debate; ";
    assert ExtractMarker[20] !in "avoid ";
    assert ExtractMarker[20] !in "any unsafe ";
    assert ExtractMarker[20] !in "content.";
  }

  lemma InstructionTailLacksParen()
    ensures JudgeMarker[14] !in InstructionLength + InstructionSafety
  {
    assert JudgeMarker[14] !in " Output ";
    assert JudgeMarker[14] !in "MUST be ";
    assert JudgeMarker[14] !in "1–2 sentences,";
    assert JudgeMarker[14] !in " max ~40 ";
    assert JudgeMarker[14] !in "words.";
    assert JudgeMarker[14] !in " This ";
    assert JudgeMarker[14] !in "is a harmless ";
    assert JudgeMarker[14] !in "academic ";
    assert JudgeMarker[14] !in "debate; ";
    assert JudgeMarker[14] !in "avoid ";
    assert JudgeMarker[14] !in "any unsafe ";
    assert JudgeMarker[14] !in "content.";
  }

  /** The closing instruction mentions "Output" but not the judge's
      heading, and none of the other phrases. */
  lemma InstructionUnmarked()
    ensures Unmarked(Instruction)
  {
    AskLacksO();
    InstructionTailLacksParen();
    NotContainsByMissingChar(InstructionLength + InstructionSafety, JudgeMarker, 14);
    NotContainsAfterHead(InstructionAsk, InstructionLength + InstructionSafety, JudgeMarker);
    InstructionLacksZ();
    NotContainsByMissingChar(Instruction, SummaryMarker, 7);
    InstructionLacksQuote();
    NotContainsByMissingChar(Instruction, ExtractMarker, 20);
  }

  lemma SystemLineUnmarked(p: Persona)
    requires p == ScientistPersona || p == PhilosopherPersona
    ensures Unmarked(SystemLine(p.preamble))
  {
    if p == ScientistPersona {
      ScientistLineUnmarked();
    } else {
      PhilosopherLineUnmarked();
    }
  }

  lemma ScientistLineUnmarked()
    ensures Unmarked(SystemLine(ScientistPreamble))
  {
    ScientistPreambleLacksO();
    ScientistPreambleLacksZ();
    ScientistPreambleLacksQuote();
    UnmarkedByChars(SystemLine(ScientistPreamble));
  }

  lemma PhilosopherLineUnmarked()
    ensures Unmarked(SystemLine(PhilosopherPreamble))
  {
    PhilosopherPreambleLacksO();
    PhilosopherPreambleLacksZ();
    PhilosopherPreambleLacksQuote();
    UnmarkedByChars(SystemLine(PhilosopherPreamble));
  }

  /** The turn line is made of fixed words, a persona name and a number. */
  lemma TurnLineLacks(c: char, name: string, turn: int)
    requires c !in "Your Turn: " && c !in " (turn " && c !in ")" && c !in name
    requires c != '-' && !('0' <= c <= '9')
    ensures c !in TurnLine(name, turn)
  {
    var d := DecimalString(turn);
    assert forall k :: 0 <= k < |d| ==> d[k] == '-' || '0' <= d[k] <= '9';
  }

  lemma TurnLineLacksO(p: Persona, turn: int)
    requires p == ScientistPersona || p == PhilosopherPersona
    ensures JudgeMarker[0] !in TurnLine(p.name, turn)
  {
    TurnLineLacks(JudgeMarker[0], p.name, turn);
  }

  lemma TurnLineLacksZ(p: Persona, turn: int)
    requires p == ScientistPersona || p == PhilosopherPersona
    ensures SummaryMarker[7] !in TurnLine(p.name, turn)
  {
    TurnLineLacks(SummaryMarker[7], p.name, turn);
  }

  lemma TurnLineLacksQuote(p: Persona, turn: int)
    requires p == ScientistPersona || p == PhilosopherPersona
    ensures ExtractMarker[20] !in TurnLine(p.name, turn)
  {
    TurnLineLacks(ExtractMarker[20], p.name, turn);
  }

  lemma TurnLineUnmarked(p: Persona, turn: int)
    requires p == ScientistPersona || p == PhilosopherPersona
    ensures Unmarked(TurnLine(p.name, turn))
  {
    TurnLineLacksO(p, turn);
    TurnLineLacksZ(p, turn);
    TurnLineLacksQuote(p, turn);
    UnmarkedByChars(TurnLine(p.name, turn));
  }

  lemma MemoryHeadingUnmarked()
    ensures Unmarked(MemoryHeading)
  {
    UnmarkedByChars(MemoryHeading);
  }

  lemma HeadLinesUnmarked(p: Persona, topic: string, turn: int)
    requires p == ScientistPersona || p == PhilosopherPersona
    requires Unmarked(topic)
    ensures Unmarked(SystemLine(p.preamble) + "\n" + TopicLine(topic) + "\n" + TurnLine(p.name, turn))
  {
    var l1 := SystemLine(p.preamble);
    var l2 := TopicLine(topic);
    SystemLineUnmarked(p);
    UnmarkedAfterHead("Debate Topic: ", topic);
    TurnLineUnmarked(p, turn);
    UnmarkedLines(l1, l2);
    UnmarkedLines(l1 + "\n" + l2, TurnLine(p.name, turn));
  }

  /** An agent prompt for an unmarked topic and memory carries none of the
      offline generator's markers, so it is answered with a numbered
      argument. */
  lemma AgentPromptGetsArgument(p: Persona, topic: string, turn: int, memory: string, n: int)
    requires p == ScientistPersona || p == PhilosopherPersona
    requires Unmarked(topic) && Unmarked(memory)
    ensures Unmarked(AgentPrompt(p, topic, turn, memory))
    ensures MockReply(n, AgentPrompt(p, topic, turn, memory)) == ArgumentReply(n)
  {
    var h := SystemLine(p.preamble) + "\n" + TopicLine(topic) + "\n" + TurnLine(p.name, turn);
    HeadLinesUnmarked(p, topic, turn);
    MemoryHeadingUnmarked();
    InstructionUnmarked();
    UnmarkedLines(h, MemoryHeading);
    UnmarkedLines(h + "\n" + MemoryHeading, memory);
    UnmarkedLines(h + "\n" + MemoryHeading + "\n" + memory, Instruction);
    UnmarkedPromptGetsArgument(n, AgentPrompt(p, topic, turn, memory));
  }
}
