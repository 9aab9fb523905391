/**
 * bot/app.py: the `/bot/handle` endpoint. It rejects long transcripts, runs
 * the NLU, stops at a validation error, makes at most one CRM call chosen by
 * the intent, logs one analytics record and builds the response.
 *
 * The CRM client is an input `crm`: for a request it either returns the
 * dictionary the client builds (a call record, or an error entry for an HTTP
 * failure) or raises, which the endpoint's `except` turns into a CRM_ERROR.
 */
module App {
  import opened Common
  import opened Calendar
  import opened Nlu

  /** The longest transcript accepted. */
  const MaxTranscript: nat := 1000

  const TooLongDetail := "Transcript too long (max 1000 chars)"
  const ValidationDetails := "Required entities missing or invalid."
  const UnknownMessage := "Unknown intent. No CRM action performed."

  /** The arguments of a CRM client call; None is Python's None. */
  datatype CrmRequest =
    | CreateLeadRequest(name: Option<string>, phone: Option<string>, city: Option<string>, source: Option<string>)
    | ScheduleVisitRequest(leadId: Option<string>, visitTime: Option<string>, notes: Option<string>)
    | UpdateStatusRequest(leadId: Option<string>, status: Option<string>, notes: Option<string>)

  /** `{"type": ..., "details": ...}` */
  datatype ErrorInfo = ErrorInfo(kind: string, details: string)

  /** A dictionary the CRM client returns: the record of a call, or an error entry. The decoded reply is kept as text. */
  datatype CrmBody =
    | CallRecord(endpoint: string, httpMethod: string, statusCode: nat, result: string)
    | ErrorEntry(error: ErrorInfo)

  /** One CRM client call: a returned dictionary or an exception with its message. */
  datatype CrmCall = Returned(body: CrmBody) | Threw(message: string)

  /** The response body; the intent travels as its label and the confidence in tenths. */
  datatype BotResponse = BotResponse(
    intent: string,
    intentConfidence: nat,
    entities: Entities,
    crmCall: Option<CrmBody>,
    result: Option<string>,
    error: Option<ErrorInfo>)

  /** The endpoint's outcome: an HTTP error it raises, an exception it lets escape (a 500), or a response. */
  datatype Outcome = Rejected(status: nat, detail: string) | Crashed(message: string) | Responded(response: BotResponse)

  /** One line of the analytics log, without its timestamp. */
  datatype AnalyticsRecord = AnalyticsRecord(intent: string, entities: Entities, success: bool)

  /** `entities.get(key, "")`: an absent key reads as the empty string. */
  function Arg(e: Entities, f: Field): (r: Option<string>)
    ensures f !in e ==> r == Some("")
    ensures f in e ==> r == e[f]
  {
    if f in e then e[f] else Some("")
  }

  /** The CRM call an intent makes, if any. */
  function RequestFor(intent: Intent, e: Entities): Option<CrmRequest> {
    match intent
    case LeadCreate => Some(CreateLeadRequest(Arg(e, Name), Arg(e, Phone), Arg(e, City), Lookup(e, Source)))
    case VisitSchedule => Some(ScheduleVisitRequest(Arg(e, LeadId), Arg(e, VisitTime), Lookup(e, Notes)))
    case LeadUpdate => Some(UpdateStatusRequest(Arg(e, LeadId), Arg(e, Status), Lookup(e, Notes)))
    case _ => None
  }

  /** The message reported when an intent's CRM call succeeds. */
  function SuccessMessage(intent: Intent): string {
    match intent
    case LeadCreate => "Lead created successfully."
    case VisitSchedule => "Visit scheduled successfully."
    case LeadUpdate => "Lead status updated successfully."
    case _ => UnknownMessage
  }

  /** The dictionary a call leaves in `crm_response`: the returned one, or a CRM_ERROR built from the exception. */
  function BodyOf(call: CrmCall): CrmBody {
    match call
    case Returned(b) => b
    case Threw(m) => ErrorEntry(ErrorInfo("CRM_ERROR", m))
  }

  /** Everything one request does: its outcome, the CRM call it makes and the analytics record it writes. */
  datatype Effect = Effect(outcome: Outcome, request: Option<CrmRequest>, record: Option<AnalyticsRecord>)

  /** handle_bot as a function of the transcript, the clock and the three outside parties. */
  function Handle(transcript: string, now: DateTime, dateParser: string -> Option<string>,
                  llm: string -> LlmCall, crm: CrmRequest -> CrmCall): (eff: Effect)
    requires Valid(now)
    ensures eff.outcome.Rejected? <==> |transcript| > MaxTranscript
    ensures eff.record.Some? <==> eff.outcome.Responded?
    ensures eff.request.Some? ==> eff.record.Some?
  {
    if |transcript| > MaxTranscript then
      Effect(Rejected(400, TooLongDetail), None, None)
    else
      match Parsed(transcript, now, dateParser, llm)
      case Raised(m) => Effect(Crashed(m), None, None)
      case Ok(n) => Respond(n, crm)
  }

  /** What handle_bot does once the NLU has produced `n`: stop at its validation error, else make the intent's CRM call. */
  function Respond(n: NluResult, crm: CrmRequest -> CrmCall): (eff: Effect)
    ensures eff.outcome.Responded? && eff.record.Some?
    ensures eff.record.value.intent == Label(n.intent) && eff.record.value.entities == n.entities
    ensures eff.request.Some? <==> n.error.None? && n.intent in KnownIntents
    ensures eff.record.value.success ==> eff.request.Some?
  {
    var intentLabel := Label(n.intent);
    if n.error.Some? then
      Effect(Responded(BotResponse(intentLabel, n.confidence, n.entities, None, None, Some(ErrorInfo("VALIDATION_ERROR", ValidationDetails)))),
             None, Some(AnalyticsRecord(intentLabel, n.entities, false)))
    else
      match RequestFor(n.intent, n.entities)
      case None =>
        Effect(Responded(BotResponse(intentLabel, n.confidence, n.entities, None, Some(UnknownMessage), None)),
               None, Some(AnalyticsRecord(intentLabel, n.entities, false)))
      case Some(req) =>
        var body := BodyOf(crm(req));
        var success := body.CallRecord?;
        Effect(Responded(BotResponse(intentLabel, n.confidence, n.entities, Some(body),
                                     if success then Some(SuccessMessage(n.intent)) else None,
                                     if success then None else Some(body.error))),
               Some(req), Some(AnalyticsRecord(intentLabel, n.entities, success)))
  }

  /** The bot service with what it leaves behind: the analytics log and the calls made to the CRM client. */
  class BotService {
    var analytics: seq<AnalyticsRecord>
    var crmRequests: seq<CrmRequest>

    constructor()
      ensures analytics == [] && crmRequests == []
    {
      analytics := [];
      crmRequests := [];
    }

    /** log_analytics: one more line in the log. */
    method LogAnalytics(intent: string, entities: Entities, success: bool)
      modifies this
      ensures analytics == old(analytics) + [AnalyticsRecord(intent, entities, success)]
      ensures crmRequests == old(crmRequests)
    {
      analytics := analytics + [AnalyticsRecord(intent, entities, success)];
    }

    /** One CRM client call inside the endpoint's `try`: an exception becomes a CRM_ERROR entry. */
    method CallCrm(crm: CrmRequest -> CrmCall, req: CrmRequest) returns (body: CrmBody)
      modifies this
      ensures body == BodyOf(crm(req))
      ensures crmRequests == old(crmRequests) + [req]
      ensures analytics == old(analytics)
    {
      crmRequests := crmRequests + [req];
      match crm(req)
      case Returned(b) =>
        body := b;
      case Threw(m) =>
        body := ErrorEntry(ErrorInfo("CRM_ERROR", m));
    }

    /** handle_bot: returns the outcome `Handle` describes and appends its call and its record. */
    method HandleBot(transcript: string, now: DateTime, dateParser: string -> Option<string>,
                     llm: string -> LlmCall, crm: CrmRequest -> CrmCall) returns (outcome: Outcome)
      requires Valid(now)
      modifies this
      ensures var eff := Handle(transcript, now, dateParser, llm, crm);
        outcome == eff.outcome
        && analytics == old(analytics) + (if eff.record.Some? then [eff.record.value] else [])
        && crmRequests == old(crmRequests) + (if eff.request.Some? then [eff.request.value] else [])
    {
      if |transcript| > MaxTranscript {
        return Rejected(400, TooLongDetail);
      }
      var parsed := ParseTranscript(transcript, now, dateParser, llm);
      if parsed.Raised? {
        return Crashed(parsed.message);
      }
      var n := parsed.value;
      assert Handle(transcript, now, dateParser, llm, crm) == Respond(n, crm);
      var intent := Label(n.intent);
      var entities := n.entities;
      var crmResponse: Option<CrmBody> := None;
      var success := false;
      var resultMessage: Option<string> := None;

      if n.error.Some? {
        LogAnalytics(intent, entities, false);
        return Responded(BotResponse(intent, n.confidence, entities, None, None, Some(ErrorInfo("VALIDATION_ERROR", ValidationDetails))));
      }

      if n.intent == LeadCreate {
        var req := CreateLeadRequest(Arg(entities, Name), Arg(entities, Phone), Arg(entities, City), Lookup(entities, Source));
        assert RequestFor(n.intent, entities) == Some(req);
        var body := CallCrm(crm, req);
        crmResponse := Some(body);
        if !body.ErrorEntry? {
          resultMessage := Some("Lead created successfully.");
          success := true;
        }
      } else if n.intent == VisitSchedule {
        var req := ScheduleVisitRequest(Arg(entities, LeadId), Arg(entities, VisitTime), Lookup(entities, Notes));
        assert RequestFor(n.intent, entities) == Some(req);
        var body := CallCrm(crm, req);
        crmResponse := Some(body);
        if !body.ErrorEntry? {
          resultMessage := Some("Visit scheduled successfully.");
          success := true;
        }
      } else if n.intent == LeadUpdate {
        var req := UpdateStatusRequest(Arg(entities, LeadId), Arg(entities, Status), Lookup(entities, Notes));
        assert RequestFor(n.intent, entities) == Some(req);
        var body := CallCrm(crm, req);
        crmResponse := Some(body);
        if !body.ErrorEntry? {
          resultMessage := Some("Lead status updated successfully.");
          success := true;
        }
      } else {
        assert RequestFor(n.intent, entities).None?;
        resultMessage := Some(UnknownMessage);
      }

      LogAnalytics(intent, entities, success);
      var error := if crmResponse.Some? && crmResponse.value.ErrorEntry? then Some(crmResponse.value.error) else None;
      outcome := Responded(BotResponse(intent, n.confidence, entities, crmResponse, resultMessage, error));
    }
  }

  // ===========================================================================
  // Properties of the endpoint

  /** A transcript over 1000 characters is refused with 400 before anything else happens; a shorter one never is. */
  lemma TooLongRejected(transcript: string, now: DateTime, dateParser: string -> Option<string>,
                        llm: string -> LlmCall, crm: CrmRequest -> CrmCall)
    requires Valid(now)
    ensures var eff := Handle(transcript, now, dateParser, llm, crm);
      (eff.outcome.Rejected? <==> |transcript| > MaxTranscript)
      && (eff.outcome.Rejected? ==> eff.outcome == Rejected(400, TooLongDetail) && eff.request.None? && eff.record.None?)
  {
  }

  /**
   * The endpoint lets an exception escape only when the casual date resolver
   * raised, which happens for a visit request alone; no call is made and
   * nothing is logged.
   */
  lemma CrashedOnlyFromDates(transcript: string, now: DateTime, dateParser: string -> Option<string>,
                             llm: string -> LlmCall, crm: CrmRequest -> CrmCall)
    requires Valid(now)
    ensures var eff := Handle(transcript, now, dateParser, llm, crm);
      eff.outcome.Crashed? ==>
        Classification(transcript).0 == VisitSchedule && eff.request.None? && eff.record.None?
  {
    var c := Classification(transcript);
    GuardIff(transcript, now, dateParser);
  }

  /**
   * A validation error stops the request: no CRM call, a failure in the log,
   * and an error of type VALIDATION_ERROR with the fixed details, which does
   * not name the missing fields.
   */
  lemma ValidationShortCircuit(transcript: string, now: DateTime, dateParser: string -> Option<string>,
                               llm: string -> LlmCall, crm: CrmRequest -> CrmCall)
    requires Valid(now) && |transcript| <= MaxTranscript
    requires Parsed(transcript, now, dateParser, llm).Ok? && Parsed(transcript, now, dateParser, llm).value.error.Some?
    ensures var eff := Handle(transcript, now, dateParser, llm, crm);
      eff.request.None? && eff.record.Some? && !eff.record.value.success
      && eff.outcome.Responded? && eff.outcome.response.crmCall.None? && eff.outcome.response.result.None?
      && eff.outcome.response.error == Some(ErrorInfo("VALIDATION_ERROR", ValidationDetails))
  {
  }

  /** Every response and every log record carries the NLU's intent label, confidence and entities. */
  lemma ResponseEchoesNlu(transcript: string, now: DateTime, dateParser: string -> Option<string>,
                          llm: string -> LlmCall, crm: CrmRequest -> CrmCall)
    requires Valid(now)
    ensures var eff := Handle(transcript, now, dateParser, llm, crm);
      eff.outcome.Responded? ==>
        var n := Parsed(transcript, now, dateParser, llm).value;
        var r := eff.outcome.response;
        Parsed(transcript, now, dateParser, llm).Ok?
        && r.intent == Label(n.intent) && r.intentConfidence == n.confidence && r.entities == n.entities
        && eff.record == Some(AnalyticsRecord(r.intent, r.entities, eff.record.value.success))
  {
    var parsed := Parsed(transcript, now, dateParser, llm);
    if |transcript| <= MaxTranscript && parsed.Ok? {
      var n := parsed.value;
      if n.error.None? && RequestFor(n.intent, n.entities).Some? {
        var req := RequestFor(n.intent, n.entities).value;
        assert Handle(transcript, now, dateParser, llm, crm).record
          == Some(AnalyticsRecord(Label(n.intent), n.entities, BodyOf(crm(req)).CallRecord?));
      }
    }
  }

  /**
   * Exactly one CRM call is made when the NLU found one of the three intents
   * and no validation error, and it is the operation of that intent with the
   * entities as arguments.
   */
  lemma OneCallPerKnownIntent(transcript: string, now: DateTime, dateParser: string -> Option<string>,
                              llm: string -> LlmCall, crm: CrmRequest -> CrmCall)
    requires Valid(now)
    ensures var eff := Handle(transcript, now, dateParser, llm, crm);
      var nlu := Parsed(transcript, now, dateParser, llm);
      (eff.request.Some? <==>
        |transcript| <= MaxTranscript && nlu.Ok? && nlu.value.error.None? && nlu.value.intent in KnownIntents)
      && (eff.request.Some? ==>
        var e := nlu.value.entities;
        match nlu.value.intent
        case LeadCreate => eff.request.value == CreateLeadRequest(Arg(e, Name), Arg(e, Phone), Arg(e, City), Lookup(e, Source))
        case VisitSchedule => eff.request.value == ScheduleVisitRequest(Arg(e, LeadId), Arg(e, VisitTime), Lookup(e, Notes))
        case LeadUpdate => eff.request.value == UpdateStatusRequest(Arg(e, LeadId), Arg(e, Status), Lookup(e, Notes))
        case _ => false)
  {
  }

  /**
   * A request succeeds exactly when its CRM call returned a call record. Then
   * the response carries that record, the intent's fixed message and no
   * error; otherwise the error entry, no message, and a CRM_ERROR carrying the
   * exception's text when the client raised.
   */
  lemma CallOutcome(transcript: string, now: DateTime, dateParser: string -> Option<string>,
                    llm: string -> LlmCall, crm: CrmRequest -> CrmCall)
    requires Valid(now)
    ensures var eff := Handle(transcript, now, dateParser, llm, crm);
      eff.request.Some? ==>
        var n := Parsed(transcript, now, dateParser, llm).value;
        var call := crm(eff.request.value);
        var r := eff.outcome.response;
        var success := call.Returned? && call.body.CallRecord?;
        eff.outcome.Responded? && eff.record.Some? && eff.record.value.success == success
        && r.crmCall == Some(BodyOf(call))
        && (success ==> r.result == Some(SuccessMessage(n.intent)) && r.error.None?)
        && (!success ==> r.result.None? && r.error.Some?)
        && (call.Threw? ==> r.error == Some(ErrorInfo("CRM_ERROR", call.message)))
  {
  }

  /**
   * An intent outside the three is answered with the fixed "unknown" message,
   * no CRM call, no error, and a failure in the log: a result message is no
   * proof of success.
   */
  lemma UnknownIntentAnswered(transcript: string, now: DateTime, dateParser: string -> Option<string>,
                              llm: string -> LlmCall, crm: CrmRequest -> CrmCall)
    requires Valid(now) && |transcript| <= MaxTranscript
    requires Parsed(transcript, now, dateParser, llm).Ok?
    requires Parsed(transcript, now, dateParser, llm).value.intent !in KnownIntents
    ensures var eff := Handle(transcript, now, dateParser, llm, crm);
      eff.outcome.Responded? && eff.request.None?
      && eff.record.Some? && !eff.record.value.success
      && eff.outcome.response.crmCall.None?
      && eff.outcome.response.result == Some(UnknownMessage)
      && eff.outcome.response.error.None?
  {
    var n := Parsed(transcript, now, dateParser, llm).value;
    if n.error.Some? {
      RulePathError(transcript, now, dateParser, llm);
    }
  }

  /** Only a known intent carries a validation error out of the NLU. */
  lemma RulePathError(transcript: string, now: DateTime, dateParser: string -> Option<string>, llm: string -> LlmCall)
    requires Valid(now) && Parsed(transcript, now, dateParser, llm).Ok?
    ensures var n := Parsed(transcript, now, dateParser, llm).value;
      n.error.Some? ==> n.intent in KnownIntents
  {
    GuardIff(transcript, now, dateParser);
    if !FallbackTaken(transcript) {
      RulePathResult(transcript, now, dateParser, llm);
    } else {
      FallbackResult(transcript, now, dateParser, llm);
    }
  }

  /**
   * The log gets one record for every response and none otherwise; its
   * success flag is set exactly when a CRM call was made and returned a call
   * record.
   */
  lemma AnalyticsFaithful(transcript: string, now: DateTime, dateParser: string -> Option<string>,
                          llm: string -> LlmCall, crm: CrmRequest -> CrmCall)
    requires Valid(now)
    ensures var eff := Handle(transcript, now, dateParser, llm, crm);
      (eff.record.Some? <==> eff.outcome.Responded?)
      && (eff.record.Some? ==>
            (eff.record.value.success <==> eff.request.Some? && BodyOf(crm(eff.request.value)).CallRecord?))
      && (eff.record.Some? && eff.record.value.success ==> eff.outcome.response.error.None?)
  {
  }

  /**
   * Off the LLM fallback, a CRM call is made only with every field its intent
   * requires present: the rules never send a request with an entity missing.
   */
  lemma RulePathRequestComplete(transcript: string, now: DateTime, dateParser: string -> Option<string>,
                                llm: string -> LlmCall, crm: CrmRequest -> CrmCall)
    requires Valid(now) && !FallbackTaken(transcript)
    ensures var eff := Handle(transcript, now, dateParser, llm, crm);
      eff.request.Some? ==>
        var e := Parsed(transcript, now, dateParser, llm).value.entities;
        forall f :: f in Required(Parsed(transcript, now, dateParser, llm).value.intent) ==> Arg(e, f).Some?
  {
    var eff := Handle(transcript, now, dateParser, llm, crm);
    if eff.request.Some? {
      var intent := Classification(transcript).0;
      ExtractedErrors(transcript, intent, now, dateParser);
      ExtractedGating(transcript, intent, now, dateParser);
      RulePathResult(transcript, now, dateParser, llm);
    }
  }

  /**
   * "Add a new lead with no phone number" is answered, whatever the clock and
   * the outside parties, as LEAD_CREATE with a VALIDATION_ERROR and no CRM call.
   */
  lemma NoPhoneValidation(now: DateTime, dateParser: string -> Option<string>,
                          llm: string -> LlmCall, crm: CrmRequest -> CrmCall)
    requires Valid(now)
    ensures var eff := Handle(NoPhoneTranscript, now, dateParser, llm, crm);
      eff.outcome.Responded? && eff.request.None?
      && eff.outcome.response.intent == "LEAD_CREATE"
      && eff.outcome.response.error == Some(ErrorInfo("VALIDATION_ERROR", ValidationDetails))
  {
    NoPhoneParsed(now, dateParser, llm);
    assert |NoPhoneTranscript| <= MaxTranscript;
  }
}
