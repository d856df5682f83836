/** The decision at the heart of the message handler: from the knowledge-base
    response and the intent-recognition result, pick exactly one of four
    replies, by a fixed priority chain. */
module Dispatch {

  import opened Wrappers
  import opened Channel

  /** One candidate answer of the knowledge base. */
  datatype KbAnswer = KbAnswer(answer: string)

  /** The parsed response body of a knowledge-base query. `answers` is
      `None` when the body has no `answers` field. */
  datatype KbResponse = KbResponse(answers: Option<seq<KbAnswer>>)

  /** One occurrence of an extracted entity, with the text it matched. */
  datatype EntityInstance = EntityInstance(text: string)

  /** What the intent recognizer reports: the top intent, the score of each
      intent it reports, and `entities.$instance`, which maps an entity kind
      to its occurrences and may be absent. */
  datatype IntentResult = IntentResult(
    topIntent: string,
    scores: map<string, real>,
    instances: Option<map<string, seq<EntityInstance>>>)

  datatype Decision =
    | AnswerKB(text: string)
    | ReportAvailability
    | Schedule(timeText: string)
    | Fallback

  const NoAnswer := "No answer found"
  const GetAvailabilityIntent := "GetAvailability"
  const ScheduleAppointmentIntent := "ScheduleAppointment"
  const TimeEntity := "time"
  const AvailabilityThreshold: real := 0.85
  const SchedulingThreshold: real := 0.6
  const FallbackText := "Could you say that differently? I had trouble understanding it."

  /** The knowledge-base check: a response body, with an `answers` list that
      is not empty and whose first answer is not the "no answer" sentinel. */
  predicate HasKbAnswer(kb: Option<KbResponse>)
  {
    kb.Some? && kb.value.answers.Some? && |kb.value.answers.value| > 0
    && kb.value.answers.value[0].answer != NoAnswer
  }

  /** `topIntent === intent && intents[intent].score > threshold`, with the
      short circuit of `&&`: the score is read only when the intent is the
      top one, and reading it throws when the recognizer reported no score
      for that intent. */
  function TopIntentAbove(r: IntentResult, intent: string, threshold: real): (b: Result<bool, Error>)
    ensures b.Err? <==> r.topIntent == intent && intent !in r.scores
    ensures b == Ok(true) <==> r.topIntent == intent && intent in r.scores && r.scores[intent] > threshold
  {
    if r.topIntent != intent then Ok(false)
    else if intent !in r.scores then Err(TypeError("score"))
    else Ok(r.scores[intent] > threshold)
  }

  /** The chain of the message handler. The scheduling branch tests only that
      a `time` entry exists; an empty one passes that test and then reading
      the text of its first occurrence throws. */
  function Decide(kb: Option<KbResponse>, r: IntentResult): Result<Decision, Error>
  {
    if HasKbAnswer(kb) then Ok(AnswerKB(kb.value.answers.value[0].answer))
    else match TopIntentAbove(r, GetAvailabilityIntent, AvailabilityThreshold)
      case Err(e) => Err(e)
      case Ok(true) => Ok(ReportAvailability)
      case Ok(false) =>
        match TopIntentAbove(r, ScheduleAppointmentIntent, SchedulingThreshold)
        case Err(e) => Err(e)
        case Ok(schedule) =>
          if schedule && r.instances.Some? && TimeEntity in r.instances.value then
            var times := r.instances.value[TimeEntity];
            if |times| == 0 then Err(TypeError("text")) else Ok(Schedule(times[0].text))
          else Ok(Fallback)
  }

  // ---- The four branches, each characterised in both directions ----

  /** A knowledge-base answer wins whatever the intent result says. */
  lemma KnowledgeBasePriority(kb: Option<KbResponse>, r: IntentResult)
    ensures HasKbAnswer(kb) ==> Decide(kb, r) == Ok(AnswerKB(kb.value.answers.value[0].answer))
    ensures (exists t :: Decide(kb, r) == Ok(AnswerKB(t))) ==> HasKbAnswer(kb)
  {
  }

  /** Availability is reported exactly when the knowledge base has no answer
      and availability is the top intent with a score strictly above 0.85. */
  lemma AvailabilityBranch(kb: Option<KbResponse>, r: IntentResult)
    ensures Decide(kb, r) == Ok(ReportAvailability) <==>
      !HasKbAnswer(kb) && r.topIntent == GetAvailabilityIntent
      && GetAvailabilityIntent in r.scores && r.scores[GetAvailabilityIntent] > 0.85
  {
  }

  /** A score of exactly 0.85 does not report availability. */
  lemma AvailabilityThresholdIsStrict(kb: Option<KbResponse>, r: IntentResult)
    requires GetAvailabilityIntent in r.scores && r.scores[GetAvailabilityIntent] == 0.85
    ensures Decide(kb, r) != Ok(ReportAvailability)
  {
  }

  /** An appointment is booked exactly when neither earlier branch applies,
      booking is the top intent with a score strictly above 0.6, and a time
      entity was extracted; the booking uses the text of its first occurrence. */
  lemma ScheduleBranch(kb: Option<KbResponse>, r: IntentResult, t: string)
    ensures Decide(kb, r) == Ok(Schedule(t)) <==>
      !HasKbAnswer(kb) && r.topIntent == ScheduleAppointmentIntent
      && ScheduleAppointmentIntent in r.scores && r.scores[ScheduleAppointmentIntent] > 0.6
      && r.instances.Some? && TimeEntity in r.instances.value
      && |r.instances.value[TimeEntity]| > 0 && t == r.instances.value[TimeEntity][0].text
  {
  }

  /** A score of exactly 0.6 does not book an appointment. */
  lemma SchedulingThresholdIsStrict(kb: Option<KbResponse>, r: IntentResult, t: string)
    requires ScheduleAppointmentIntent in r.scores && r.scores[ScheduleAppointmentIntent] == 0.6
    ensures Decide(kb, r) != Ok(Schedule(t))
  {
  }

  /** The intent conditions of the two intent branches. */
  predicate AvailabilityApplies(r: IntentResult)
  {
    r.topIntent == GetAvailabilityIntent && GetAvailabilityIntent in r.scores
    && r.scores[GetAvailabilityIntent] > AvailabilityThreshold
  }

  predicate SchedulingApplies(r: IntentResult)
  {
    r.topIntent == ScheduleAppointmentIntent && ScheduleAppointmentIntent in r.scores
    && r.scores[ScheduleAppointmentIntent] > SchedulingThreshold
    && r.instances.Some? && TimeEntity in r.instances.value
  }

  /** The fixed fallback is chosen exactly when no branch applies and no
      property access failed. */
  lemma FallbackBranch(kb: Option<KbResponse>, r: IntentResult)
    ensures Decide(kb, r) == Ok(Fallback) <==>
      !HasKbAnswer(kb) && !AvailabilityApplies(r) && !SchedulingApplies(r)
      && (r.topIntent in {GetAvailabilityIntent, ScheduleAppointmentIntent} ==> r.topIntent in r.scores)
  {
  }

  /** The decision throws exactly when the knowledge base has no answer and
      either the top intent is one of the two checked intents without a
      score, or the booking branch applies with an empty time entity. */
  lemma DecisionFails(kb: Option<KbResponse>, r: IntentResult)
    ensures Decide(kb, r).Err? <==>
      !HasKbAnswer(kb)
      && ((r.topIntent in {GetAvailabilityIntent, ScheduleAppointmentIntent} && r.topIntent !in r.scores)
          || (SchedulingApplies(r) && |r.instances.value[TimeEntity]| == 0))
  {
  }

  // ---- Example turns ----

  lemma OpeningHoursExample(r: IntentResult)
    ensures Decide(Some(KbResponse(Some([KbAnswer("We are open 9-5.")]))), r) == Ok(AnswerKB("We are open 9-5."))
  {
  }

  lemma OpeningsExample()
    ensures Decide(Some(KbResponse(Some([]))), IntentResult("GetAvailability", map["GetAvailability" := 0.9], None))
      == Ok(ReportAvailability)
  {
  }

  /** With two extracted times, the first mentioned one is booked. */
  lemma BookingExample()
    ensures Decide(
      Some(KbResponse(Some([KbAnswer("No answer found")]))),
      IntentResult("ScheduleAppointment", map["ScheduleAppointment" := 0.7],
        Some(map["time" := [EntityInstance("3pm Friday"), EntityInstance("4pm")]])))
      == Ok(Schedule("3pm Friday"))
  {
  }

  /** An empty `time` entry passes the presence test and then throws. */
  lemma EmptyTimeEntityExample()
    ensures Decide(None, IntentResult("ScheduleAppointment", map["ScheduleAppointment" := 0.7], Some(map["time" := []])))
      == Err(TypeError("text"))
  {
  }

  lemma GibberishExample()
    ensures Decide(Some(KbResponse(Some([KbAnswer("No answer found")]))), IntentResult("None", map["None" := 0.3], None))
      == Ok(Fallback)
  {
  }
}
