/** The debate's shared state record and its two derived views: whose turn it
    is and whether the round bound has been passed. */
module State {
  import opened PyStr

  datatype Option<T> = None | Some(value: T)

  /** The `Speaker` literal type: the two debate participants. */
  datatype Speaker = Scientist | Philosopher

  /** The text the source uses for a speaker ("Scientist" / "Philosopher"). */
  function SpeakerName(s: Speaker): string {
    match s
    case Scientist => "Scientist"
    case Philosopher => "Philosopher"
  }

  function Opponent(s: Speaker): Speaker {
    match s
    case Scientist => Philosopher
    case Philosopher => Scientist
  }

  /** The speaker a string names, if it names one exactly. */
  function SpeakerNamed(w: string): (r: Option<Speaker>)
    ensures r.Some? ==> SpeakerName(r.value) == w
    ensures (forall s: Speaker :: SpeakerName(s) != w) ==> r == None
  {
    if w == "Scientist" then Some(Scientist)
    else if w == "Philosopher" then Some(Philosopher)
    else None
  }

  /** One transcript entry. */
  datatype Utterance = Utterance(turn: int, speaker: Speaker, text: string)

  /** The speaker whose turn it is when `turnIndex` turns have been taken:
      Scientist on even counts, Philosopher on odd ones. */
  function SpeakerAt(turnIndex: int): Speaker {
    if turnIndex % 2 == 0 then Scientist else Philosopher
  }

  /** Taking one more turn always hands the floor to the other speaker. */
  lemma SpeakerAlternates(turnIndex: int)
    ensures SpeakerAt(turnIndex + 1) == Opponent(SpeakerAt(turnIndex))
    ensures SpeakerAt(turnIndex + 2) == SpeakerAt(turnIndex)
  {
  }

  /** The number of rounds a debate runs. */
  const MaxRounds := 8

  /** The contents of a debate state at one moment, as a value. */
  datatype Debate = Debate(
    topic: string,
    turnIndex: int,
    roundNumber: int,
    currentSpeaker: Speaker,
    transcript: seq<Utterance>,
    memorySummary: string,
    agentMemory: map<Speaker, string>,
    usedArguments: set<string>,
    errors: seq<string>,
    finalSummary: Option<string>,
    finalWinner: Option<Speaker>,
    finalReason: Option<string>)

  /** The text of the latest utterance of `t`, or "" when there is none. */
  function LastText(t: seq<Utterance>): string {
    if t == [] then "" else t[|t| - 1].text
  }

  /** The mutable record every debate node reads and updates in place. The
      log path and output directories are not modelled. */
  class DebateState {
    var topic: string
    var turnIndex: int
    var roundNumber: int
    var currentSpeaker: Speaker
    var transcript: seq<Utterance>
    var memorySummary: string
    var agentMemory: map<Speaker, string>
    var usedArguments: set<string>
    var errors: seq<string>
    var finalSummary: Option<string>
    var finalWinner: Option<Speaker>
    var finalReason: Option<string>

    /** A fresh state for `topic`: every other field at its default. */
    constructor (topic: string)
      ensures this.topic == topic
      ensures turnIndex == 0 && roundNumber == 1 && currentSpeaker == Scientist
      ensures transcript == [] && memorySummary == ""
      ensures agentMemory == map[Scientist := "", Philosopher := ""]
      ensures usedArguments == {} && errors == []
      ensures finalSummary == None && finalWinner == None && finalReason == None
    {
      this.topic := topic;
      turnIndex := 0;
      roundNumber := 1;
      currentSpeaker := Scientist;
      transcript := [];
      memorySummary := "";
      agentMemory := map[Scientist := "", Philosopher := ""];
      usedArguments := {};
      errors := [];
      finalSummary := None;
      finalWinner := None;
      finalReason := None;
    }

    /** The state's contents as a value. */
    function Snapshot(): Debate
      reads this
    {
      Debate(topic, turnIndex, roundNumber, currentSpeaker, transcript, memorySummary, agentMemory,
             usedArguments, errors, finalSummary, finalWinner, finalReason)
    }

    /** Whose turn it is. */
    function NextSpeaker(): (s: Speaker)
      reads this
      ensures s == Scientist <==> turnIndex % 2 == 0
      ensures s == Philosopher <==> turnIndex % 2 != 0
    {
      SpeakerAt(turnIndex)
    }

    /** Whether the round counter has passed the bound. */
    predicate IsFinished()
      reads this
    {
      roundNumber > MaxRounds
    }

    /** The text of the latest utterance, or "" before the first one. */
    function PrevText(): string
      reads this
    {
      LastText(transcript)
    }
  }
}
