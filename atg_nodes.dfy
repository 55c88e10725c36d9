/** The self-healing classification pipeline's shared record and the nodes
    that update it: the confidence check, the human-clarification fallback
    and the review hold. The classifier itself is an input: the label and
    confidence it produced. */
module AtgNodes {
  datatype Option<T> = None | Some(value: T)

  /** The confidence at or above which a prediction is accepted. */
  const ConfidenceThreshold: real := 0.6

  /** The classifier's labels, by class index. */
  const Labels: seq<string> := ["negative", "positive"]

  /** The source of a correction made from the user's answer. */
  const UserClarification := "user_clarification"

  /** A log line on the record's event list. The lines' wording is kept as
      the data it reports; the two-decimal rendering of a confidence is not
      modelled. */
  datatype Event =
    | Predicted(predicted: string, confidence: real)
    | ConfidenceChecked(confidence: real, threshold: real, accepted: bool)
    | ClarificationHandled
    | ReviewRequested

  /** The record the nodes pass along, one field per key; None is an absent
      key. An absent "events" key reads as the empty list, so the events are
      a plain sequence. `correctionSource` holds Some(None) once the key is
      set to Python's None. */
  datatype Entry = Entry(
    text: Option<string>,
    prediction: Option<string>,
    confidence: Option<real>,
    route: Option<string>,
    events: seq<Event>,
    corrected: Option<bool>,
    correctionSource: Option<Option<string>>,
    needsReview: Option<bool>)

  /** An input record: only the text is present. */
  function Fresh(text: string): Entry {
    Entry(Some(text), None, None, None, [], None, None, None)
  }

  // ---------------------------------------------------------------------
  // Reading keys with their defaults

  /** state.get("confidence", 0.0) */
  function ConfidenceOf(e: Entry): real {
    if e.confidence.Some? then e.confidence.value else 0.0
  }

  /** state.get("prediction", "unknown") */
  function PredictionOf(e: Entry): string {
    if e.prediction.Some? then e.prediction.value else "unknown"
  }

  // ---------------------------------------------------------------------
  // The inference node (classifier as input)

  /** The inference node's update, with the classifier's answer given: it
      writes the prediction and the confidence and logs one event. The
      logits it also stores are not modelled. */
  function Inferred(e: Entry, predicted: string, conf: real): Entry {
    e.(prediction := Some(predicted), confidence := Some(conf), events := e.events + [Predicted(predicted, conf)])
  }

  // ---------------------------------------------------------------------
  // ConfidenceCheckNode

  /** The route chosen for a confidence. */
  function RouteFor(conf: real): string {
    if conf >= ConfidenceThreshold then "accept" else "fallback"
  }

  /** ConfidenceCheckNode's update. */
  function Checked(e: Entry): Entry {
    var conf := ConfidenceOf(e);
    e.(route := Some(RouteFor(conf)),
       events := e.events + [ConfidenceChecked(conf, ConfidenceThreshold, conf >= ConfidenceThreshold)])
  }

  /** The record is accepted exactly when its confidence reaches the
      threshold; otherwise the route is the fallback. */
  lemma CheckRoutesByThreshold(e: Entry)
    ensures Checked(e).route == Some("accept") <==> ConfidenceOf(e) >= ConfidenceThreshold
    ensures Checked(e).route == Some("fallback") <==> ConfidenceOf(e) < ConfidenceThreshold
  {
  }

  /** A record without a confidence reads as 0.0 and goes to the fallback. */
  lemma MissingConfidenceFallsBack(e: Entry)
    requires e.confidence.None?
    ensures Checked(e).route == Some("fallback")
    ensures Checked(e).events[|e.events|] == ConfidenceChecked(0.0, ConfidenceThreshold, false)
  {
  }

  /** Exactly one event is added, after the earlier ones, and it records the
      decision the route reflects. */
  lemma CheckAppendsOneEvent(e: Entry)
    ensures |Checked(e).events| == |e.events| + 1
    ensures Checked(e).events[..|e.events|] == e.events
    ensures var ev := Checked(e).events[|e.events|];
      ev.ConfidenceChecked? && ev.confidence == ConfidenceOf(e) && (ev.accepted <==> Checked(e).route == Some("accept"))
  {
  }

  /** Only the route and the events are written. */
  lemma CheckWritesRouteAndEvents(e: Entry)
    ensures Checked(e).(route := e.route, events := e.events) == e
    ensures Checked(e).route.Some?
  {
  }

  /** Checking twice decides the same route and logs the decision twice. */
  lemma CheckTwice(e: Entry)
    ensures Checked(Checked(e)).route == Checked(e).route
    ensures Checked(Checked(e)).events == e.events + [Checked(e).events[|e.events|], Checked(e).events[|e.events|]]
  {
  }

  // ---------------------------------------------------------------------
  // FallbackNode

  /** The label the user's answer to "was this a negative review?" stands
      for. */
  function AnswerLabel(isNegative: bool): (answer: string)
    ensures answer in Labels
    ensures isNegative <==> answer == Labels[0]
  {
    if isNegative then "negative" else "positive"
  }

  /** FallbackNode's update, with the user's yes/no answer given. */
  function Clarified(e: Entry, isNegative: bool): Entry {
    var pred := PredictionOf(e);
    var e1 :=
      if isNegative && pred != "negative" then
        e.(prediction := Some("negative"), corrected := Some(true), correctionSource := Some(Some(UserClarification)))
      else if !isNegative && pred != "positive" then
        e.(prediction := Some("positive"), corrected := Some(true), correctionSource := Some(Some(UserClarification)))
      else
        e.(corrected := Some(false), correctionSource := Some(None));
    e1.(events := e1.events + [ClarificationHandled])
  }

  /** Afterwards the prediction is the label the user named. */
  lemma ClarifiedFollowsAnswer(e: Entry, isNegative: bool)
    ensures Clarified(e, isNegative).prediction == Some(AnswerLabel(isNegative))
  {
  }

  /** The record is marked corrected exactly when the earlier prediction
      differed from the user's label, and the correction is attributed to
      the user exactly then. */
  lemma ClarifiedCorrectedIff(e: Entry, isNegative: bool)
    ensures Clarified(e, isNegative).corrected == Some(PredictionOf(e) != AnswerLabel(isNegative))
    ensures Clarified(e, isNegative).correctionSource ==
              Some(if PredictionOf(e) != AnswerLabel(isNegative) then Some(UserClarification) else None)
  {
  }

  /** A record without a prediction reads as "unknown" and is always
      corrected. */
  lemma MissingPredictionCorrected(e: Entry, isNegative: bool)
    requires e.prediction.None?
    ensures Clarified(e, isNegative).corrected == Some(true)
    ensures Clarified(e, isNegative).correctionSource == Some(Some(UserClarification))
  {
  }

  /** One event is added after the earlier ones; the text, the confidence,
      the route and the review flag are left alone. */
  lemma ClarifiedKeepsTheRest(e: Entry, isNegative: bool)
    ensures Clarified(e, isNegative).events == e.events + [ClarificationHandled]
    ensures Clarified(e, isNegative).(prediction := e.prediction, corrected := e.corrected,
                                      correctionSource := e.correctionSource, events := e.events) == e
  {
  }

  /** Asking again with the same answer finds nothing more to correct. */
  lemma ClarifiedSettles(e: Entry, isNegative: bool)
    ensures Clarified(Clarified(e, isNegative), isNegative).prediction == Clarified(e, isNegative).prediction
    ensures Clarified(Clarified(e, isNegative), isNegative).corrected == Some(false)
  {
  }

  // ---------------------------------------------------------------------
  // RejectNode

  /** RejectNode's update. */
  function Rejected(e: Entry): Entry {
    e.(needsReview := Some(true), events := e.events + [ReviewRequested])
  }

  /** The record is held for review, one event is added after the earlier
      ones, and nothing else changes. */
  lemma RejectHoldsForReview(e: Entry)
    ensures Rejected(e).needsReview == Some(true)
    ensures Rejected(e).events == e.events + [ReviewRequested]
    ensures Rejected(e).(needsReview := e.needsReview, events := e.events) == e
  {
  }

  /** Holding twice keeps the flag and logs the hold twice. */
  lemma RejectTwice(e: Entry)
    ensures Rejected(Rejected(e)).needsReview == Some(true)
    ensures Rejected(Rejected(e)).events == e.events + [ReviewRequested, ReviewRequested]
    ensures Rejected(Rejected(e)).(events := Rejected(e).events) == Rejected(e)
  {
  }

  // ---------------------------------------------------------------------
  // The record as the nodes update it in place

  /** The shared dictionary the graph nodes receive and update in place. */
  class Record {
    var text: Option<string>
    var prediction: Option<string>
    var confidence: Option<real>
    var route: Option<string>
    var events: seq<Event>
    var corrected: Option<bool>
    var correctionSource: Option<Option<string>>
    var needsReview: Option<bool>

    /** The record's keys as a value. */
    function Snapshot(): Entry
      reads this
    {
      Entry(text, prediction, confidence, route, events, corrected, correctionSource, needsReview)
    }

    /** A record holding only the input text. */
    constructor (t: string)
      ensures Snapshot() == Fresh(t)
    {
      text, prediction, confidence, route := Some(t), None, None, None;
      events, corrected, correctionSource, needsReview := [], None, None, None;
    }

    /** InferenceNode.__call__, with the classifier's answer given. */
    method Infer(predicted: string, conf: real)
      modifies this`prediction, this`confidence, this`events
      ensures Snapshot() == Inferred(old(Snapshot()), predicted, conf)
    {
      prediction := Some(predicted);
      confidence := Some(conf);
      events := events + [Predicted(predicted, conf)];
    }

    /** ConfidenceCheckNode.__call__ */
    method CheckConfidence()
      modifies this`route, this`events
      ensures Snapshot() == Checked(old(Snapshot()))
    {
      var conf := if confidence.Some? then confidence.value else 0.0;
      var accepted: bool;
      if conf >= ConfidenceThreshold {
        route := Some("accept");
        accepted := true;
      } else {
        route := Some("fallback");
        accepted := false;
      }
      events := events + [ConfidenceChecked(conf, ConfidenceThreshold, accepted)];
    }

    /** FallbackNode.__call__, with the user's answer to the confirmation
        question given. */
    method Clarify(isNegative: bool)
      modifies this`prediction, this`corrected, this`correctionSource, this`events
      ensures Snapshot() == Clarified(old(Snapshot()), isNegative)
    {
      var pred := if prediction.Some? then prediction.value else "unknown";
      if isNegative && pred != "negative" {
        prediction := Some("negative");
        corrected := Some(true);
        correctionSource := Some(Some(UserClarification));
      } else if !isNegative && pred != "positive" {
        prediction := Some("positive");
        corrected := Some(true);
        correctionSource := Some(Some(UserClarification));
      } else {
        corrected := Some(false);
        correctionSource := Some(None);
      }
      events := events + [ClarificationHandled];
    }

    /** RejectNode.__call__ */
    method Reject()
      modifies this`needsReview, this`events
      ensures Snapshot() == Rejected(old(Snapshot()))
    {
      needsReview := Some(true);
      events := events + [ReviewRequested];
    }
  }
}
