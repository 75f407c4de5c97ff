/**
 * EmailGeneratorController: the HTTP endpoints in front of the service. Both
 * generating endpoints pass the service's reply through with status 200,
 * unless the reply starts with the service's old failure text or the service
 * throws, in which case they answer 500.
 */
module EmailGeneratorController {
  import opened Wrappers
  import opened Json
  import opened EmailGeneratorService

  const StatusOk: int := 200
  const StatusInternalServerError: int := 500

  /** Replies starting with this are failures, even though they were returned. */
  const FailurePrefix: string := "Failed to generate reply"
  const ServerErrorLabel: string := "Server error: "
  const DebugErrorLabel: string := "Debug endpoint error: "

  /** A `ResponseEntity<String>`: a status and a possibly null body. */
  datatype Response = Response(status: int, body: Option<string>)

  /** Java's `prefix + s` for a possibly null `s`: null is spelled "null". */
  function Concat(prefix: string, s: Option<string>): (r: string)
    ensures s.Some? ==> r == prefix + s.value
    ensures s.None? ==> r == prefix + "null"
  {
    prefix + s.GetOr("null")
  }

  /** The reply counts as a failure: non-null and starting with the failure prefix. */
  predicate FailedReply(reply: Option<string>)
  {
    reply.Some? && FailurePrefix <= reply.value
  }

  /**
   * The status and body both generating endpoints choose for what the
   * service did; `errorLabel` is what they put before an exception's message.
   */
  function Respond(call: Call, errorLabel: string): (r: Response)
    ensures r.status == StatusInternalServerError || r.status == StatusOk
    ensures r.status == StatusInternalServerError <==> call.Threw? || FailedReply(call.reply)
    ensures call.Returned? ==> r.body == call.reply
    ensures call.Threw? ==> r.body == Some(Concat(errorLabel, call.message))
  {
    match call
    case Returned(reply) =>
      if FailedReply(reply) then Response(StatusInternalServerError, reply) else Response(StatusOk, reply)
    case Threw(message) => Response(StatusInternalServerError, Some(Concat(errorLabel, message)))
  }

  /**
   * `generateEmail`: hands the request to the service; answers 500 when it
   * threw or returned a failure reply, 200 otherwise, with the reply as body
   * or "Server error: " before the exception's message.
   */
  function GenerateEmail(req: EmailRequest, service: EmailRequest -> Call): (r: Response)
    ensures r.status == StatusInternalServerError <==> service(req).Threw? || FailedReply(service(req).reply)
    ensures !(r.status == StatusInternalServerError) ==> r.status == StatusOk
    ensures service(req).Returned? ==> r.body == service(req).reply
    ensures service(req).Threw? ==> r.body == Some(Concat(ServerErrorLabel, service(req).message))
  {
    Respond(service(req), ServerErrorLabel)
  }

  /** The values of the debug endpoint's payload map, as Jackson binds them. */
  datatype PayloadValue =
    | NullValue
    | StringValue(s: string)
    | OtherValue(rendered: string)  // a number, boolean, list or map, with its `toString`

  /** A payload field, with `null` and an absent key both read as "". */
  function StringField(payload: map<string, PayloadValue>, key: string): (r: string)
    ensures key !in payload || payload[key].NullValue? ==> r == ""
    ensures key in payload && payload[key].StringValue? ==> r == payload[key].s
    ensures key in payload && payload[key].OtherValue? ==> r == payload[key].rendered
  {
    if key !in payload then ""
    else match payload[key]
      case NullValue => ""
      case StringValue(s) => s
      case OtherValue(rendered) => rendered
  }

  /** The request the debug endpoint fills in: neither field is ever null. */
  function DebugRequest(payload: map<string, PayloadValue>): (req: EmailRequest)
    ensures req.emailContent == Some(StringField(payload, "emailContent"))
    ensures req.tone == Some(StringField(payload, "tone"))
  {
    EmailRequest(Some(StringField(payload, "emailContent")), Some(StringField(payload, "tone")))
  }

  /**
   * `debugGenerateFromServer`: hands the service the request built from the
   * payload and decides like `generateEmail`, with "Debug endpoint error: "
   * before an exception's message.
   */
  function DebugGenerateFromServer(payload: map<string, PayloadValue>, service: EmailRequest -> Call): (r: Response)
    ensures var call := service(DebugRequest(payload));
      && (r.status == StatusInternalServerError <==> call.Threw? || FailedReply(call.reply))
      && (!(r.status == StatusInternalServerError) ==> r.status == StatusOk)
      && (call.Returned? ==> r.body == call.reply)
      && (call.Threw? ==> r.body == Some(Concat(DebugErrorLabel, call.message)))
  {
    Respond(service(DebugRequest(payload)), DebugErrorLabel)
  }

  /** `health`: a fixed status map. */
  function Health(): (r: map<string, string>)
    ensures r.Keys == {"status", "app"}
    ensures r["status"] == "ok" && r["app"] == "email-backend"
  {
    map["status" := "ok", "app" := "email-backend"]
  }

  /** A returned reply with the failure prefix is answered 500 with the reply itself. */
  lemma FailedReplyIs500(req: EmailRequest, service: EmailRequest -> Call)
    requires service(req).Returned? && FailedReply(service(req).reply)
    ensures GenerateEmail(req, service) == Response(500, service(req).reply)
  {
  }

  /** Any other returned reply, null included, is answered 200 with the reply itself. */
  lemma ReturnedReplyIs200(req: EmailRequest, service: EmailRequest -> Call)
    requires service(req).Returned? && !FailedReply(service(req).reply)
    ensures GenerateEmail(req, service) == Response(200, service(req).reply)
  {
  }

  /** An exception with message m is answered 500 with "Server error: " + m. */
  lemma ThrownIs500(req: EmailRequest, service: EmailRequest -> Call, m: string)
    requires service(req) == Threw(Some(m))
    ensures GenerateEmail(req, service) == Response(500, Some("Server error: " + m))
  {
  }

  /** The real service behind `generateEmail`, for a whitespace class, a provider and a parser. */
  function Service(ws: char -> bool, provider: Json -> ProviderOutcome, readTree: string -> Parse): EmailRequest -> Call
  {
    req => GenerateEmailReply(req, ws, provider, readTree)
  }

  /** End to end: a 429 from the provider reaches the frontend as a 500 with the quota message. */
  lemma QuotaEndToEnd(
    req: EmailRequest, ws: char -> bool,
    provider: Json -> ProviderOutcome, readTree: string -> Parse)
    requires var o := provider(RequestBody(PromptText(req, ws))); o.HttpError? && o.status == 429
    ensures GenerateEmail(req, Service(ws, provider, readTree))
         == Response(500, Some("Server error: " + "AI quota exceeded. Please try again after some time."))
  {
  }

  /**
   * End to end: `generateEmail` answers 500 exactly when the call failed or
   * the extracted reply text itself starts with the failure prefix; the
   * service never produces that prefix on its own.
   */
  lemma EndToEndStatus(
    req: EmailRequest, ws: char -> bool,
    provider: Json -> ProviderOutcome, readTree: string -> Parse)
    ensures var o := provider(RequestBody(PromptText(req, ws)));
      var r := GenerateEmail(req, Service(ws, provider, readTree));
      (r.status == 500 <==>
         !ParsedAnswer(o, readTree)
         || FailurePrefix <= ExtractResponseContent(readTree(o.answer.value).tree))
      && r.body.Some?
      && (r.status == 500 && !ParsedAnswer(o, readTree) ==>
            r.body.value in {"Server error: " + QuotaMessage,
                             "Server error: " + ServiceErrorMessage,
                             "Server error: " + InternalErrorMessage})
  {
  }

  /** A debug payload without a tone, or with a null one, gives a prompt without a tone line. */
  lemma DebugWithoutTone(payload: map<string, PayloadValue>, ws: char -> bool)
    requires "tone" !in payload || payload["tone"].NullValue?
    ensures !HasToneLine(PromptText(DebugRequest(payload), ws))
  {
    EmptyToneOmitted(Some(StringField(payload, "emailContent")), ws);
  }

  /**
   * The debug endpoint decides like `generateEmail` on the request it
   * builds: the same status, the same body for a returned reply, and its own
   * label before an exception's message.
   */
  lemma DebugLikeGenerate(payload: map<string, PayloadValue>, service: EmailRequest -> Call)
    ensures var d, g := DebugGenerateFromServer(payload, service), GenerateEmail(DebugRequest(payload), service);
      d.status == g.status
      && (service(DebugRequest(payload)).Returned? ==> d.body == g.body)
      && (service(DebugRequest(payload)).Threw? ==>
            d.body == Some(Concat(DebugErrorLabel, service(DebugRequest(payload)).message)))
  {
  }
}
