# Email reply backend: the reply adapter, in Dafny

This project models the reply adapter of a small Spring backend that drafts
email replies with a generative-language provider (Gemini), and proves what
it does with every input.

- `EmailGeneratorService` (file `email_generator_service.dfy`) models the
  service of the same name: `buildPrompt` as a method appending into a
  `StringBuilder` object, proved equal to the prompt as one concatenation
  (`PromptText`); the request body `{"contents":[{"parts":[{"text":prompt}]}]}`;
  `extractResponseContent`, which walks `candidates[0].content.parts[0].text`
  with Jackson's `path` semantics and falls back to `"No response generated."`;
  and the catch chain of `generateEmailReply`, which turns a 429 into the quota
  message, any other error status into `"AI service error."` and every other
  failure, a malformed answer included, into `"Internal server error."`.
- `EmailGeneratorController` (file `email_generator_controller.dfy`) models the
  controller: the 500-versus-200 choice shared by `generateEmail` and
  `debugGenerateFromServer`, the debug endpoint's reading of a missing or null
  payload field as `""`, and `health`.
- `Json` (file `json.dfy`) is the slice of Jackson's tree model the adapter
  relies on: parsed values, the missing node, `path`, `isArray`, `size` and
  `asText` (a string gives its value; the missing node, objects and arrays
  give `""`).
- `Wrappers` (file `wrappers.dfy`) holds `Option`, which stands for Java's
  nullable references.

The outbound call and the JSON parser are parameters of the model: `provider`
maps the request body to how the call ended (`Ok(answer)` with a possibly
null answer, `HttpError(status, body)` or `OtherFailure`), and `readTree` maps a response body to a parsed
tree or `Malformed`. Java's `isBlank` is taken relative to a whitespace class
`ws: char -> bool` that is also a parameter.

A failed parse of the provider's answer, and a null answer (what `block()`
gives for an empty body), are reported as `"Internal server error."`; there is
no separate empty-response outcome, and the fallback reply is always
`"No response generated."`.

Proved along the way (`EmailGeneratorController.EndToEndStatus`): the service
never produces a reply starting with `"Failed to generate reply"` itself, so
the controller's 500 for a returned reply only happens when the provider's own
text starts with those words.

## Model

| member | source | states |
|---|---|---|
| Json.MissingAbsorbs | src/main/java/com/mail/email_writer/app/EmailGeneratorService.java:91-95 | once a `path` chain reaches the missing node, every further `path` call leaves it missing |
| Json.NavigateAppend | src/main/java/com/mail/email_writer/app/EmailGeneratorService.java:91-95 | following a chain of `path` calls in two pieces is the same as following it at once |
| EmailGeneratorService.BuildPrompt | src/main/java/com/mail/email_writer/app/EmailGeneratorService.java:75-87 | appending into the buffer step by step yields exactly the first line, the optional tone line, the header line and the content (or `""` for null), nothing else |
| EmailGeneratorService.ToneLineIff | src/main/java/com/mail/email_writer/app/EmailGeneratorService.java:79-81 | the prompt has a tone line right after the first line if and only if the tone is non-null and not blank |
| EmailGeneratorService.ToneVerbatim | src/main/java/com/mail/email_writer/app/EmailGeneratorService.java:80 | a usable tone appears in its line character for character, untrimmed, followed by a newline |
| EmailGeneratorService.PromptWithoutTone | src/main/java/com/mail/email_writer/app/EmailGeneratorService.java:77-84 | with a null or blank tone the prompt is exactly `"Write an email reply.\nEmail:\n"` followed by the content |
| EmailGeneratorService.EmptyToneOmitted | src/main/java/com/mail/email_writer/app/EmailGeneratorService.java:79 | an empty tone gives a prompt with no tone line |
| EmailGeneratorService.PromptEndsWithContent | src/main/java/com/mail/email_writer/app/EmailGeneratorService.java:83-84 | the prompt ends with the header line followed by the content; a null content leaves the prompt ending in `"Email:\n"`, with nothing such as `"null"` inserted |
| EmailGeneratorService.RequestBody | src/main/java/com/mail/email_writer/app/EmailGeneratorService.java:33-39 | the request body has exactly one `contents` entry with exactly one `parts` entry, whose `text` is the prompt |
| EmailGeneratorService.ExtractResponseContent | src/main/java/com/mail/email_writer/app/EmailGeneratorService.java:89-102 | when the first candidate's content has a non-empty `parts` array, the reply is `asText` of the first part's `text`; a missing or empty `candidates`, or a missing, non-array or empty `parts`, gives `"No response generated."` |
| EmailGeneratorService.MissingPrefixFallback | src/main/java/com/mail/email_writer/app/EmailGeneratorService.java:91-101 | as soon as any prefix of the `path` chain to `parts` reaches the missing node, the reply is the fallback |
| EmailGeneratorService.ExtractText | src/main/java/com/mail/email_writer/app/EmailGeneratorService.java:98 | a string `text` in the first part is returned unchanged |
| EmailGeneratorService.ExtractNoTextField | src/main/java/com/mail/email_writer/app/EmailGeneratorService.java:98 | a first part without a `text` field gives `""`, not the fallback |
| EmailGeneratorService.ExtractHello | src/main/java/com/mail/email_writer/app/EmailGeneratorService.java:89-98 | an answer whose first part's `text` is `"Hello"` gives `"Hello"` |
| EmailGeneratorService.ExtractNoCandidates | src/main/java/com/mail/email_writer/app/EmailGeneratorService.java:89-101 | `{"candidates":[]}` gives the fallback rather than a failure |
| EmailGeneratorService.Classify | src/main/java/com/mail/email_writer/app/EmailGeneratorService.java:57-72 | the call returns a non-null reply exactly when the provider answered with a non-null body that parses; otherwise it throws with one of the three fixed messages |
| EmailGeneratorService.GenerateEmailReply | src/main/java/com/mail/email_writer/app/EmailGeneratorService.java:29-73 | the provider is sent the body wrapping the request's prompt; a parsed answer is returned as its extracted text, a 429 throws the quota message, any other error status `"AI service error."`, every other failure (null or malformed answer included) `"Internal server error."` |
| EmailGeneratorService.QuotaExceeded | src/main/java/com/mail/email_writer/app/EmailGeneratorService.java:59-62 | a 429 is reported as `"AI quota exceeded. Please try again after some time."` whatever its body |
| EmailGeneratorService.ServiceError | src/main/java/com/mail/email_writer/app/EmailGeneratorService.java:64-67 | any other error status is reported as `"AI service error."` |
| EmailGeneratorService.InternalError | src/main/java/com/mail/email_writer/app/EmailGeneratorService.java:69-72 | a null or malformed answer, or any other failure, is reported as `"Internal server error."` |
| EmailGeneratorService.ReplyExtracted | src/main/java/com/mail/email_writer/app/EmailGeneratorService.java:57 | a parsed answer is returned as the text extracted from it |
| EmailGeneratorService.ErrorBodyIgnored | src/main/java/com/mail/email_writer/app/EmailGeneratorService.java:59-67 | the outcome of an error status does not depend on the provider's error body, so that body never reaches the caller |
| EmailGeneratorController.Respond | src/main/java/com/mail/email_writer/app/EmailGeneratorController.java:28-38 | the status is 500 exactly when the service threw or returned a non-null reply starting with `"Failed to generate reply"`, otherwise 200; a returned reply is the body unchanged, an exception's message follows the endpoint's label (null read as `"null"`) |
| EmailGeneratorController.GenerateEmail | src/main/java/com/mail/email_writer/app/EmailGeneratorController.java:21-40 | `generateEmail` answers 500 exactly when the service threw or returned a reply starting with `"Failed to generate reply"`, else 200; the body is the reply unchanged, or `"Server error: "` before the exception's message |
| EmailGeneratorController.FailedReplyIs500 | src/main/java/com/mail/email_writer/app/EmailGeneratorController.java:31-32 | a reply starting with `"Failed to generate reply"` is answered 500 with that reply as body |
| EmailGeneratorController.ReturnedReplyIs200 | src/main/java/com/mail/email_writer/app/EmailGeneratorController.java:31-35 | any other returned reply, null included, is answered 200 with that reply as body |
| EmailGeneratorController.ThrownIs500 | src/main/java/com/mail/email_writer/app/EmailGeneratorController.java:36-38 | an exception with message m is answered 500 with body `"Server error: " + m` |
| EmailGeneratorController.QuotaEndToEnd | src/main/java/com/mail/email_writer/app/EmailGeneratorController.java:28-38 | with the real service, a 429 from the provider reaches the frontend as 500 with `"Server error: AI quota exceeded. Please try again after some time."` |
| EmailGeneratorController.EndToEndStatus | src/main/java/com/mail/email_writer/app/EmailGeneratorController.java:28-38 | with the real service the answer is 500 exactly when the call failed or the extracted text starts with the failure prefix; the body is never null and a failure body is one of three fixed strings |
| EmailGeneratorController.StringField | src/main/java/com/mail/email_writer/app/EmailGeneratorController.java:57-58 | an absent or null payload field reads as `""`, a string field as itself |
| EmailGeneratorController.DebugRequest | src/main/java/com/mail/email_writer/app/EmailGeneratorController.java:57-62 | the debug request's content and tone are never null: each is the payload field or `""` |
| EmailGeneratorController.DebugWithoutTone | src/main/java/com/mail/email_writer/app/EmailGeneratorController.java:57-62 | a payload without a tone, or with a null one, yields a prompt without a tone line |
| EmailGeneratorController.DebugGenerateFromServer | src/main/java/com/mail/email_writer/app/EmailGeneratorController.java:53-73 | the debug endpoint hands the service the request built from the payload, answers 500 exactly when it threw or returned a failure reply, else 200, with the reply as body or `"Debug endpoint error: "` before the exception's message |
| EmailGeneratorController.DebugLikeGenerate | src/main/java/com/mail/email_writer/app/EmailGeneratorController.java:64-72 | the debug endpoint chooses the same status and returned body as `generateEmail`, and labels an exception's message `"Debug endpoint error: "` |
| EmailGeneratorController.Health | src/main/java/com/mail/email_writer/app/EmailGeneratorController.java:48-51 | `health` is exactly `{"status":"ok","app":"email-backend"}` |

## Left out

- The outbound HTTP call (WebClient, base URL, model path, the `key` query parameter, `.block()`): network I/O; its result is the `provider` parameter.
- Jackson's serialisation (`writeValueAsString` of the request body and of the controller's logged payload) and parsing (`readTree`): library code. A serialisation failure in the service is one of the `OtherFailure` outcomes; a failure of the controller's payload logging is not modelled. How an empty (non-null) body parses is left to the `readTree` parameter; a successful call whose body is null, which `block()` gives for an empty answer, is `Ok(None)` and reported as an internal error, since `readTree` of null throws.
- `asText` and `toString` of numbers, booleans and JSON null: library formatting; these values carry their rendering as data (`Json.Scalar`, `PayloadValue.OtherValue`).
- Java's whitespace table for `isBlank`: the whitespace class is the parameter `ws`.
- Field order and duplicate keys of JSON objects: objects are maps, which is all `path` by name observes.
- EmailGeneratorService.Classify: error statuses outside 400-599 are not modelled; `retrieve()` raises a response exception only for 4xx and 5xx answers.
- All console and stderr logging and `printStackTrace`: side effects only.
- Spring wiring (`@Value` key injection, the duplicated `@Service`, `@CrossOrigin`, request mappings, `ResponseEntity` plumbing): framework code.
- `HealthController.health`: the same constant map as the controller's `health`, modelled once.
- EmailRequest.java is not part of this model; the request is a datatype with two nullable strings, `emailContent` and `tone`.
