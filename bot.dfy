/** The message handler of the dentistry bot: query the knowledge base,
    recognise the intent, decide, call the scheduler if the decision needs
    it, and send one reply. The backends are given as functions from their
    input to a result; `calls` records, in order, which of them the turn
    invoked, and `sent` what it sent to the channel. */
module DentaBot {

  import opened Wrappers
  import opened Channel
  import opened KnowledgeQuery
  import opened Dispatch

  /** The availability answer and the booking function of the scheduler. */
  datatype Scheduler = Scheduler(
    availability: Result<string, Error>,
    book: string -> Result<string, Error>)

  /** The knowledge-base HTTP post (the parsed response body, or the error
      it threw), the intent recognizer over the message text, and the
      scheduler. */
  datatype Services = Services(
    postQuery: Request -> Result<Option<KbResponse>, Error>,
    recognize: string -> Result<IntentResult, Error>,
    scheduler: Scheduler)

  datatype Call =
    | PostKnowledgeQuery(request: Request)
    | RecognizeIntent(utterance: string)
    | GetAvailability
    | ScheduleAppointment(timeText: string)

  datatype Status = Completed | Failed(error: Error)

  datatype Turn = Turn(calls: seq<Call>, sent: seq<Activity>, status: Status)

  /** `queryCognitiveLanguageService`: post the query for `question` and
      return the response body; an error of the post is rethrown as it is. */
  method QueryCognitiveLanguageService(env: Environment, question: string, post: Request -> Result<Option<KbResponse>, Error>)
    returns (data: Result<Option<KbResponse>, Error>, call: Call)
    ensures call == PostKnowledgeQuery(KnowledgeRequest(env, question))
    ensures data == post(KnowledgeRequest(env, question))
  {
    var request := KnowledgeRequest(env, question);
    call := PostKnowledgeQuery(request);
    data := post(request);
  }

  /** The reply text for a decision, calling the scheduler only for the two
      decisions that need it. */
  method Reply(d: Decision, s: Scheduler) returns (reply: Result<string, Error>, calls: seq<Call>)
    ensures d.AnswerKB? ==> reply == Ok(d.text) && calls == []
    ensures d.ReportAvailability? ==> reply == s.availability && calls == [GetAvailability]
    ensures d.Schedule? ==> reply == s.book(d.timeText) && calls == [ScheduleAppointment(d.timeText)]
    ensures d.Fallback? ==> reply == Ok(FallbackText) && calls == []
  {
    match d
    case AnswerKB(text) =>
      reply, calls := Ok(text), [];
    case ReportAvailability =>
      reply, calls := s.availability, [GetAvailability];
    case Schedule(timeText) =>
      reply, calls := s.book(timeText), [ScheduleAppointment(timeText)];
    case Fallback =>
      reply, calls := Ok(FallbackText), [];
  }

  /** One turn of the message handler for the message text `utterance`. */
  method OnMessage(env: Environment, utterance: string, services: Services) returns (turn: Turn)
    // A turn sends nothing when it fails and exactly one reply when it completes.
    ensures turn.status.Failed? <==> turn.sent == []
    ensures turn.status.Completed? <==> |turn.sent| == 1
    // The knowledge base is always queried first, with the message as the question.
    ensures |turn.calls| >= 1 && turn.calls[0] == PostKnowledgeQuery(KnowledgeRequest(env, utterance))
    // Fail fast: a failed query ends the turn before anything else is called.
    ensures var kb := services.postQuery(KnowledgeRequest(env, utterance));
      kb.Err? ==> turn == Turn([PostKnowledgeQuery(KnowledgeRequest(env, utterance))], [], Failed(kb.error))
    // Fail fast: so does a failed intent recognition, after the query.
    ensures var kb := services.postQuery(KnowledgeRequest(env, utterance));
      var ir := services.recognize(utterance);
      kb.Ok? && ir.Err? ==>
        turn == Turn([PostKnowledgeQuery(KnowledgeRequest(env, utterance)), RecognizeIntent(utterance)], [], Failed(ir.error))
    // With both results in hand, the decision determines the rest of the turn.
    ensures var kb := services.postQuery(KnowledgeRequest(env, utterance));
      var ir := services.recognize(utterance);
      var asked := [PostKnowledgeQuery(KnowledgeRequest(env, utterance)), RecognizeIntent(utterance)];
      kb.Ok? && ir.Ok? ==>
        match Decide(kb.value, ir.value)
        case Err(e) => turn == Turn(asked, [], Failed(e))
        case Ok(AnswerKB(text)) => turn == Turn(asked, [TextActivity(text)], Completed)
        case Ok(ReportAvailability) =>
          turn.calls == asked + [GetAvailability]
          && (match services.scheduler.availability
              case Ok(text) => turn.sent == [TextActivity(text)] && turn.status == Completed
              case Err(e) => turn.sent == [] && turn.status == Failed(e))
        case Ok(Schedule(time)) =>
          turn.calls == asked + [ScheduleAppointment(time)]
          && (match services.scheduler.book(time)
              case Ok(text) => turn.sent == [TextActivity(text)] && turn.status == Completed
              case Err(e) => turn.sent == [] && turn.status == Failed(e))
        case Ok(Fallback) => turn == Turn(asked, [TextActivity(FallbackText)], Completed)
  {
    var kb, query := QueryCognitiveLanguageService(env, utterance, services.postQuery);
    var calls := [query];
    if kb.Err? {
      return Turn(calls, [], Failed(kb.error));
    }
    var ir := services.recognize(utterance);
    calls := calls + [RecognizeIntent(utterance)];
    if ir.Err? {
      return Turn(calls, [], Failed(ir.error));
    }
    var decision := Decide(kb.value, ir.value);
    if decision.Err? {
      return Turn(calls, [], Failed(decision.error));
    }
    var reply, schedulerCalls := Reply(decision.value, services.scheduler);
    calls := calls + schedulerCalls;
    if reply.Err? {
      return Turn(calls, [], Failed(reply.error));
    }
    turn := Turn(calls, [TextActivity(reply.value)], Completed);
  }
}
