/**
 * `GeminiService.generateContent`: look up the content type, assemble the prompt,
 * ask the model once, and trim its text; provider errors are relabelled by the words
 * in their message. The model is a parameter: a total function from the prompt to
 * what the SDK call gives back.
 */
module GeminiService {
  import opened Wrappers
  import opened Strings
  import opened Templates
  import opened ContentConfigs
  import opened LengthConfig
  import opened Prompts
  import opened Js

  /** The argument `{ type, keyword, tone, length }`. */
  datatype Request = Request(contentType: string, keyword: string, tone: string, length: string)

  /** What the model call gives back for one prompt: its text, or the error it throws. */
  datatype ModelReply = Reply(text: string) | Thrown(error: JsError)

  /** The prompt the service sends for a request of a registered type. */
  function ServicePrompt(t: ContentType, req: Request): (p: string)
    ensures forall n: nat :: HasSuffix(p, BudgetSentence(n)) <==> n == MaxWords(req.length)
  {
    var entry, w := EntryOf(t), MaxWords(req.length);
    StatesBudgetAll(entry, req.keyword, req.tone, req.length, w);
    FullPrompt(entry, req.keyword, req.tone, req.length, w)
  }

  /** The `catch` block: a message naming the API key wins, then quota or rate limit;
      any other error is rethrown as it is. */
  function Reclassify(e: JsError): (r: JsError)
    ensures Mentions(e, "API key") ==> r == NewError("INVALID_API_KEY")
    ensures !Mentions(e, "API key") && (Mentions(e, "quota") || Mentions(e, "rate limit"))
            ==> r == NewError("RATE_LIMIT_EXCEEDED")
    ensures !Mentions(e, "API key") && !Mentions(e, "quota") && !Mentions(e, "rate limit") ==> r == e
  {
    if MessageIncludes(e, "API key") then NewError("INVALID_API_KEY")
    else if MessageIncludes(e, "quota") || MessageIncludes(e, "rate limit") then NewError("RATE_LIMIT_EXCEEDED")
    else e
  }

  /** The `try` block once the prompt is sent: the reply's text trimmed, or the thrown error relabelled. */
  function Answer(reply: ModelReply): (r: Result<string, JsError>)
    ensures r.Ok? <==> reply.Reply?
    ensures r.Ok? ==> Trim(r.value) == r.value
    ensures reply.Reply? ==> r == Ok(Trim(reply.text))
    ensures reply.Thrown? ==> r == Err(Reclassify(reply.error))
  {
    match reply
    case Reply(text) => TrimIdempotent(text); Ok(Trim(text))
    case Thrown(e) => Err(Reclassify(e))
  }

  /** `generateContent`. An unknown type throws before the `try`, so its error is never relabelled. */
  function GenerateContent(req: Request, model: string -> ModelReply): (r: Result<string, JsError>)
    ensures Parse(req.contentType).None? ==> r == Err(NewError(UnsupportedTypeMessage(req.contentType)))
    ensures r.Ok? ==> Parse(req.contentType).Some? && Trim(r.value) == r.value
  {
    match Parse(req.contentType)
    case None => Err(NewError(UnsupportedTypeMessage(req.contentType)))
    case Some(t) => Answer(model(ServicePrompt(t, req)))
  }

  /** A reply's text comes back trimmed (`Trim` keeps exactly the text between the leading
      and the trailing whitespace). */
  lemma ResultIsTrimmedReply(req: Request, model: string -> ModelReply, t: ContentType, text: string)
    requires Parse(req.contentType) == Some(t) && model(ServicePrompt(t, req)) == Reply(text)
    ensures GenerateContent(req, model) == Ok(Trim(text))
  {
  }

  /** A thrown provider error comes back relabelled by `Reclassify`. */
  lemma ProviderErrorRelabelled(req: Request, model: string -> ModelReply, t: ContentType, e: JsError)
    requires Parse(req.contentType) == Some(t) && model(ServicePrompt(t, req)) == Thrown(e)
    ensures GenerateContent(req, model) == Err(Reclassify(e))
  {
  }

  /** An unknown type is rejected without calling the model: every model gives the same result. */
  lemma UnknownTypeSkipsModel(req: Request, m1: string -> ModelReply, m2: string -> ModelReply)
    requires Parse(req.contentType).None?
    ensures GenerateContent(req, m1) == GenerateContent(req, m2)
  {
  }

  /** The model is consulted on the assembled prompt and nothing else. */
  lemma ModelSeesOnlyPrompt(req: Request, m1: string -> ModelReply, m2: string -> ModelReply, t: ContentType)
    requires Parse(req.contentType) == Some(t)
    requires m1(ServicePrompt(t, req)) == m2(ServicePrompt(t, req))
    ensures GenerateContent(req, m1) == GenerateContent(req, m2)
  {
    var p := ServicePrompt(t, req);
    assert GenerateContent(req, m1) == Answer(m1(p));
    assert GenerateContent(req, m2) == Answer(m2(p));
  }

  /** The unsupported-type error escapes relabelling even when the type itself names
      the API key, which the `catch` block would have relabelled. */
  lemma UnsupportedNotRelabelled(req: Request, model: string -> ModelReply)
    requires Parse(req.contentType).None? && Occurs("API key", req.contentType)
    ensures GenerateContent(req, model).Err?
    ensures GenerateContent(req, model).error.message == Some(UnsupportedTypeMessage(req.contentType))
    ensures Reclassify(GenerateContent(req, model).error) == NewError("INVALID_API_KEY")
  {
    UnsupportedMessageQuotes(req.contentType, "API key");
  }

  /** A provider message that is one of the bare labels "INVALID_API_KEY" or "RATE_LIMIT_EXCEEDED"
      names none of the three phrases, so the service rethrows it unchanged. */
  lemma BareLabelNotRelabelled(e: JsError)
    requires e.message == Some("INVALID_API_KEY") || e.message == Some("RATE_LIMIT_EXCEEDED")
    ensures !Mentions(e, "API key") && !Mentions(e, "quota") && !Mentions(e, "rate limit")
    ensures Reclassify(e) == e
  {
    var m := e.message.value;
    MissingCharNoOccurrence("API key", m, ' ');
    MissingCharNoOccurrence("quota", m, 'q');
    MissingCharNoOccurrence("rate limit", m, ' ');
  }

  /** A message that names both the API key and the quota is an API-key error. */
  lemma ApiKeyCheckedFirst(e: JsError)
    requires Mentions(e, "API key") && Mentions(e, "quota")
    ensures Reclassify(e).message == Some("INVALID_API_KEY")
  {
  }

  /** The prompt carries the keyword in double quotes. */
  lemma PromptQuotesKeyword(req: Request, t: ContentType)
    ensures Occurs("\"" + req.keyword + "\"", ServicePrompt(t, req))
  {
    UserPromptQuotesKeyword(t, req.keyword, req.tone, req.length);
    UserPromptInside(EntryOf(t), req.keyword, req.tone, req.length, MaxWords(req.length), "\"" + req.keyword + "\"");
  }
}
