/**
 * EmailGeneratorService: turns an email request into a prompt, wraps the
 * prompt in the generation provider's request body, reads the reply text out
 * of the provider's JSON answer, and turns every failure of the call into one
 * of three fixed messages.
 *
 * The outbound HTTP call and Jackson's parser are not modelled; they are
 * parameters: `provider` maps the request body to what the call ended with,
 * and `readTree` maps a response body to a parsed tree or a parse failure.
 */
module EmailGeneratorService {
  import opened Wrappers
  import opened Json

  /** The frontend's request; either field may be null. */
  datatype EmailRequest = EmailRequest(emailContent: Option<string>, tone: Option<string>)

  // ---------------------------------------------------------------------------
  // Prompt construction
  // ---------------------------------------------------------------------------

  const Preamble: string := "Write an email reply.\n"
  const ToneLabel: string := "Tone: "
  const EmailHeader: string := "Email:\n"

  /** `String.isBlank`: every character belongs to the whitespace class `ws`. */
  predicate IsBlank(s: string, ws: char -> bool)
  {
    forall i | 0 <= i < |s| :: ws(s[i])
  }

  /** The prompt carries a tone line exactly when the tone is non-null and not blank. */
  predicate ToneGiven(tone: Option<string>, ws: char -> bool)
  {
    tone.Some? && !IsBlank(tone.value, ws)
  }

  function ToneLine(tone: Option<string>, ws: char -> bool): string
  {
    if ToneGiven(tone, ws) then ToneLabel + tone.value + "\n" else ""
  }

  /** The prompt `buildPrompt` produces, as one concatenation. */
  function PromptText(req: EmailRequest, ws: char -> bool): string
  {
    Preamble + ToneLine(req.tone, ws) + EmailHeader + req.emailContent.GetOr("")
  }

  /** The `java.lang.StringBuilder` the prompt is appended into. */
  class StringBuilder {
    var text: string

    constructor ()
      ensures text == ""
    {
      text := "";
    }

    method Append(s: string)
      modifies this
      ensures text == old(text) + s
    {
      text := text + s;
    }
  }

  /** `buildPrompt`: appends the parts of the prompt one after another. */
  method BuildPrompt(req: EmailRequest, ws: char -> bool) returns (prompt: string)
    ensures prompt == PromptText(req, ws)
  {
    var sb := new StringBuilder();
    sb.Append(Preamble);
    if req.tone.Some? && !IsBlank(req.tone.value, ws) {
      sb.Append(ToneLabel);
      sb.Append(req.tone.value);
      sb.Append("\n");
    }
    sb.Append(EmailHeader);
    sb.Append(if req.emailContent.None? then "" else req.emailContent.value);
    prompt := sb.text;
  }

  /** The prompt names a tone: the tone label follows the first line. */
  predicate HasToneLine(p: string)
  {
    |Preamble + ToneLabel| <= |p| && p[..|Preamble + ToneLabel|] == Preamble + ToneLabel
  }

  /** The tone line is there if and only if the tone is non-null and not blank. */
  lemma ToneLineIff(req: EmailRequest, ws: char -> bool)
    ensures HasToneLine(PromptText(req, ws)) <==> ToneGiven(req.tone, ws)
  {
    var p := PromptText(req, ws);
    var k := |Preamble|;
    if !ToneGiven(req.tone, ws) {
      assert p[k] == 'E';
    } else {
      assert p == (Preamble + ToneLabel) + (req.tone.value + "\n" + EmailHeader + req.emailContent.GetOr(""));
    }
  }

  /** A present tone is copied into its line verbatim, untrimmed, and ends the line. */
  lemma ToneVerbatim(req: EmailRequest, ws: char -> bool)
    requires ToneGiven(req.tone, ws)
    ensures var p, t, k := PromptText(req, ws), req.tone.value, |Preamble + ToneLabel|;
      k + |t| < |p| && p[k..k + |t|] == t && p[k + |t|] == '\n'
  {
  }

  /** Without a usable tone the prompt is exactly the first line, the header and the email. */
  lemma PromptWithoutTone(req: EmailRequest, ws: char -> bool)
    requires !ToneGiven(req.tone, ws)
    ensures PromptText(req, ws) == "Write an email reply.\nEmail:\n" + req.emailContent.GetOr("")
  {
  }

  /** An empty tone counts as no tone at all. */
  lemma EmptyToneOmitted(content: Option<string>, ws: char -> bool)
    ensures !HasToneLine(PromptText(EmailRequest(content, Some("")), ws))
  {
    ToneLineIff(EmailRequest(content, Some("")), ws);
  }

  /**
   * The prompt ends with the header line followed by the email content; a
   * null content is rendered as nothing, so the prompt then ends with the header.
   */
  lemma PromptEndsWithContent(req: EmailRequest, ws: char -> bool)
    ensures var p, c := PromptText(req, ws), req.emailContent.GetOr("");
      |EmailHeader| + |c| <= |p|
      && p[|p| - |c|..] == c
      && p[|p| - |c| - |EmailHeader|..|p| - |c|] == EmailHeader
    ensures req.emailContent.None? ==>
      var p := PromptText(req, ws); p[|p| - |EmailHeader|..] == EmailHeader
  {
  }

  // ---------------------------------------------------------------------------
  // Request body
  // ---------------------------------------------------------------------------

  const ContentsPath: seq<Step> := [Key("contents")]
  const PartsOfFirstContent: seq<Step> := [At(0), Key("parts")]
  const TextOfFirstPart: seq<Step> := [At(0), Key("text")]

  /**
   * `{"contents":[{"parts":[{"text": prompt}]}]}`: one `contents` entry
   * holding one `parts` entry, whose `text` reads back as the prompt.
   */
  function RequestBody(prompt: string): (body: Json)
    ensures var contents := Navigate(Present(body), ContentsPath);
      IsArray(contents) && Size(contents) == 1
      && var parts := Navigate(contents, PartsOfFirstContent);
         IsArray(parts) && Size(parts) == 1
         && Navigate(parts, TextOfFirstPart) == Present(Text(prompt))
  {
    Object(map["contents" := Array([Object(map["parts" := Array([Object(map["text" := Text(prompt)])])])])])
  }

  // ---------------------------------------------------------------------------
  // Response extraction
  // ---------------------------------------------------------------------------

  const Fallback: string := "No response generated."

  /**
   * The chain `path("candidates").path(0).path("content").path("parts")`;
   * `Navigate` applies these four `path` calls in this order.
   */
  const PartsPath: seq<Step> := [Key("candidates"), At(0), Key("content"), Key("parts")]

  /** The answer holds a non-empty `parts` array in its first candidate's content. */
  predicate HasReplyParts(root: Json)
  {
    && root.Object? && "candidates" in root.fields
    && var candidates := root.fields["candidates"];
    && candidates.Array? && |candidates.items| > 0
    && var first := candidates.items[0];
    && first.Object? && "content" in first.fields
    && var content := first.fields["content"];
    && content.Object? && "parts" in content.fields
    && var parts := content.fields["parts"];
    && parts.Array? && |parts.items| > 0
  }

  /** `candidates[0].content.parts[0]` of an answer that has it. */
  function FirstPart(root: Json): Json
    requires HasReplyParts(root)
  {
    root.fields["candidates"].items[0].fields["content"].fields["parts"].items[0]
  }

  /**
   * `extractResponseContent` after `readTree` has succeeded: with a non-empty
   * `parts` array the reply is `asText` of the first part's `text`; whenever
   * `candidates` is missing or empty, or `parts` is missing, not an array or
   * empty, it is the fixed fallback.
   */
  function ExtractResponseContent(root: Json): (r: string)
    ensures HasReplyParts(root) ==> r == AsText(Path(Present(FirstPart(root)), Key("text")))
    ensures !HasReplyParts(root) ==> r == Fallback
  {
    var parts := Navigate(Present(root), PartsPath);
    if IsArray(parts) && Size(parts) > 0 then AsText(Path(Path(parts, At(0)), Key("text"))) else Fallback
  }

  /** As soon as any prefix of the chain reaches the missing node, the reply is the fallback. */
  lemma MissingPrefixFallback(root: Json, k: nat)
    requires k <= |PartsPath|
    requires Navigate(Present(root), PartsPath[..k]) == Missing
    ensures ExtractResponseContent(root) == Fallback
  {
    assert PartsPath == PartsPath[..k] + PartsPath[k..];
    NavigateAppend(Present(root), PartsPath[..k], PartsPath[k..]);
    MissingAbsorbs(PartsPath[k..]);
  }

  /** A `text` string in the first part is the reply, unchanged. */
  lemma ExtractText(root: Json, s: string)
    requires HasReplyParts(root)
    requires FirstPart(root).Object? && "text" in FirstPart(root).fields
    requires FirstPart(root).fields["text"] == Text(s)
    ensures ExtractResponseContent(root) == s
  {
  }

  /** A first part without a `text` field gives the empty reply, not the fallback. */
  lemma ExtractNoTextField(root: Json)
    requires HasReplyParts(root)
    requires !(FirstPart(root).Object? && "text" in FirstPart(root).fields)
    ensures ExtractResponseContent(root) == ""
  {
  }

  /** `{"candidates":[{"content":{"parts":[{"text":"Hello"}]}}]}` gives "Hello". */
  lemma ExtractHello()
    ensures ExtractResponseContent(
      Object(map["candidates" := Array([
        Object(map["content" := Object(map["parts" := Array([Object(map["text" := Text("Hello")])])])])])]))
      == "Hello"
  {
  }

  /** `{"candidates":[]}` gives the fallback. */
  lemma ExtractNoCandidates()
    ensures ExtractResponseContent(Object(map["candidates" := Array([])])) == Fallback
  {
  }

  // ---------------------------------------------------------------------------
  // The call and its failures
  // ---------------------------------------------------------------------------

  /** An HTTP status for which `retrieve()` raises a response exception. */
  type ErrorStatus = s: int | 400 <= s < 600 witness 400

  /**
   * How the outbound call ended. A successful call with an empty answer
   * yields a null body from `block()`: `Ok(None)`.
   */
  datatype ProviderOutcome =
    | Ok(answer: Option<string>)
    | HttpError(status: ErrorStatus, body: string)
    | OtherFailure

  /** What `readTree` makes of a (non-null) response body. */
  datatype Parse = Parsed(tree: Json) | Malformed

  /** A Java call: it returns a possibly null string, or throws with a possibly null message. */
  datatype Call = Returned(reply: Option<string>) | Threw(message: Option<string>)

  const TooManyRequests: int := 429
  const QuotaMessage: string := "AI quota exceeded. Please try again after some time."
  const ServiceErrorMessage: string := "AI service error."
  const InternalErrorMessage: string := "Internal server error."

  /** The call succeeded with a non-null answer that `readTree` parses. */
  predicate ParsedAnswer(outcome: ProviderOutcome, readTree: string -> Parse)
  {
    outcome.Ok? && outcome.answer.Some? && readTree(outcome.answer.value).Parsed?
  }

  /**
   * The catch chain of `generateEmailReply`: 429 first, then any other error
   * status, then every other failure, a malformed or null answer included
   * (`readTree` of null throws).
   */
  function Classify(outcome: ProviderOutcome, readTree: string -> Parse): (r: Call)
    ensures r.Returned? ==> r.reply.Some?
    ensures r.Threw? ==>
      (r.message.Some? && r.message.value in {QuotaMessage, ServiceErrorMessage, InternalErrorMessage})
    ensures r.Returned? <==> ParsedAnswer(outcome, readTree)
  {
    match outcome
    case Ok(None) => Threw(Some(InternalErrorMessage))
    case Ok(Some(body)) =>
      (match readTree(body)
       case Parsed(tree) => Returned(Some(ExtractResponseContent(tree)))
       case Malformed => Threw(Some(InternalErrorMessage)))
    case HttpError(status, _) =>
      if status == TooManyRequests then Threw(Some(QuotaMessage)) else Threw(Some(ServiceErrorMessage))
    case OtherFailure => Threw(Some(InternalErrorMessage))
  }

  /**
   * `generateEmailReply`: the provider is sent the request body wrapping the
   * request's prompt; a parsed answer is returned as the text extracted from
   * it, a 429 throws the quota message, any other error status the service
   * error, and every other failure the internal error.
   */
  function GenerateEmailReply(
    req: EmailRequest, ws: char -> bool,
    provider: Json -> ProviderOutcome, readTree: string -> Parse): (r: Call)
    ensures var o := provider(RequestBody(PromptText(req, ws)));
      && (ParsedAnswer(o, readTree) ==>
            r == Returned(Some(ExtractResponseContent(readTree(o.answer.value).tree))))
      && (o.HttpError? && o.status == 429 ==> r == Threw(Some(QuotaMessage)))
      && (o.HttpError? && o.status != 429 ==> r == Threw(Some(ServiceErrorMessage)))
      && (!o.HttpError? && !ParsedAnswer(o, readTree) ==> r == Threw(Some(InternalErrorMessage)))
  {
    Classify(provider(RequestBody(PromptText(req, ws))), readTree)
  }

  /** A 429 from the provider is reported as the quota message. */
  lemma QuotaExceeded(status: ErrorStatus, body: string, readTree: string -> Parse)
    requires status == 429
    ensures Classify(HttpError(status, body), readTree) == Threw(Some(QuotaMessage))
  {
  }

  /** Any other error status is reported as the generic service error. */
  lemma ServiceError(status: ErrorStatus, body: string, readTree: string -> Parse)
    requires status != 429
    ensures Classify(HttpError(status, body), readTree) == Threw(Some(ServiceErrorMessage))
  {
  }

  /** A null or malformed answer and any other failure are internal errors. */
  lemma InternalError(outcome: ProviderOutcome, readTree: string -> Parse)
    requires outcome.OtherFailure? || (outcome.Ok? && !ParsedAnswer(outcome, readTree))
    ensures Classify(outcome, readTree) == Threw(Some(InternalErrorMessage))
  {
  }

  /** A parsed answer is returned as the text extracted from it. */
  lemma ReplyExtracted(body: string, readTree: string -> Parse)
    requires readTree(body).Parsed?
    ensures Classify(Ok(Some(body)), readTree) == Returned(Some(ExtractResponseContent(readTree(body).tree)))
  {
  }

  /** The provider's error body never reaches the caller: the outcome does not depend on it. */
  lemma ErrorBodyIgnored(status: ErrorStatus, b1: string, b2: string, readTree: string -> Parse)
    ensures Classify(HttpError(status, b1), readTree) == Classify(HttpError(status, b2), readTree)
  {
  }
}
