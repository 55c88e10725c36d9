/** The three checks an agent turn runs on generated text. Each returns a
    verdict and a diagnostic message and changes nothing. */
module Validators {
  import opened PyStr
  import opened State

  /** A validator's answer: pass/fail and a message ("" on a pass). */
  datatype Verdict = Verdict(ok: bool, message: string)

  /** The form in which arguments are compared and remembered:
      text.strip().lower(). */
  function Normalize(text: string): string {
    Lower(Strip(text))
  }

  /** Normalizing twice is normalizing once. */
  lemma NormalizeIdempotent(text: string)
    ensures Normalize(Normalize(text)) == Normalize(text)
  {
    StripLower(Strip(text));
    StripIdempotent(text);
    LowerIdempotent(Strip(text));
  }

  /** The turn check: `speaker` must be the state's next speaker. */
  function ValidateTurn(state: DebateState, speaker: string): (v: Verdict)
    reads state
    ensures v.ok <==> speaker == SpeakerName(state.NextSpeaker())
    ensures v.ok ==> v.message == ""
    ensures !v.ok ==> v.message != ""
  {
    var expected := SpeakerName(state.NextSpeaker());
    if speaker != expected then
      Verdict(false, "Turn violation: expected " + expected + ", got " + speaker)
    else
      Verdict(true, "")
  }

  const RepetitionMessage := "Repetition " + "detected: " + "argument " + "already " + "used."

  /** The repetition check: the normalized text must not be a used argument. */
  function ValidateRepetition(state: DebateState, text: string): (v: Verdict)
    reads state
    ensures v.ok <==> Normalize(text) !in state.usedArguments
    ensures v.ok ==> v.message == ""
  {
    if Normalize(text) in state.usedArguments then
      Verdict(false, RepetitionMessage)
    else
      Verdict(true, "")
  }

  /** Checking a text or its normalized form gives the same verdict. */
  lemma RepetitionIgnoresNormalization(state: DebateState, text: string)
    ensures ValidateRepetition(state, Normalize(text)) == ValidateRepetition(state, text)
  {
    NormalizeIdempotent(text);
  }

  /** The length below which a stripped reply counts as too short. */
  const MinCoherentLength := 10

  /** The coherence check: the stripped text needs at least ten characters
      and must differ, ignoring case and surrounding space, from the
      previous utterance. */
  function ValidateCoherence(prevText: string, newText: string): (v: Verdict)
    ensures (newText == "" || |Strip(newText)| < MinCoherentLength) ==> !v.ok
    ensures Normalize(newText) == Normalize(prevText) ==> !v.ok
    ensures v.ok <==> |Strip(newText)| >= MinCoherentLength && Normalize(newText) != Normalize(prevText)
    ensures v.ok ==> v.message == ""
    ensures !v.ok ==> v.message != ""
  {
    if newText == [] || |Strip(newText)| < MinCoherentLength then
      Verdict(false, "Incoherent: " + "response " + "too short " + "or empty.")
    else if Lower(Strip(newText)) == Lower(Strip(prevText)) then
      Verdict(false, "Incoherent: " + "identical " + "to previous " + "utterance.")
    else
      Verdict(true, "")
  }

  /** Before the first utterance only the length matters. */
  lemma FirstUtteranceNeedsOnlyLength(newText: string)
    ensures ValidateCoherence("", newText).ok <==> |Strip(newText)| >= MinCoherentLength
  {
    if |Strip(newText)| >= MinCoherentLength {
      assert Normalize(newText) != [];
    }
  }
}
