/**
 * The self-contained server of `server.js`: the `lengthWords` table, the
 * `/api/generate` handler (defaults, keyword check, type check, prompt, model call,
 * `catch`) and the `/api/content-types` listing. Its `contentConfigs` object repeats
 * the registry of `config/contentConfigs.js` string for string, so the handler reads
 * the one registry of `ContentConfigs`.
 */
module Server {
  import opened Wrappers
  import opened Strings
  import opened Templates
  import opened ContentConfigs
  import opened LengthConfig
  import opened Prompts
  import opened Js
  import opened Http
  import opened GeminiService
  import opened Routes

  /** `lengthWords[length]`. */
  function LengthWords(length: string): Option<nat> {
    match length
    case "short" => Some(100)
    case "medium" => Some(200)
    case "long" => Some(400)
    case _ => None
  }

  /** `lengthWords[length] || 200`. */
  function ServerMaxWords(length: string): (w: nat)
    ensures w == 100 <==> length == "short"
    ensures w == 400 <==> length == "long"
    ensures w == 200 <==> length != "short" && length != "long"
  {
    var w := LengthWords(length);
    if w.Some? && w.value != 0 then w.value else 200
  }

  /** The server's budget is the service's, under the `lengthConfig` table this model assumes. */
  lemma BudgetsAgree(length: string)
    ensures ServerMaxWords(length) == MaxWords(length)
  {
    MaxWordsCases(length);
  }

  /** The destructured request: every absent field defaulted, the keyword to "". */
  function Defaults(body: RequestBody): (req: Request)
    ensures req.contentType == (if body.contentType.Some? then body.contentType.value else "joke")
    ensures req.keyword == (if body.keyword.Some? then body.keyword.value else "")
    ensures req.tone == (if body.tone.Some? then body.tone.value else "funny")
    ensures req.length == (if body.length.Some? then body.length.value else "medium")
  {
    Request(body.contentType.GetOr("joke"), body.keyword.GetOr(""), body.tone.GetOr("funny"), body.length.GetOr("medium"))
  }

  const KeywordRequired: Response :=
    Response(400, Problem("Keyword is required", Some("Please provide a keyword to generate content."), None, None))

  /** The 400 answer to a type that is not a registry key, listing the keys. */
  function InvalidType(contentType: string): Response {
    Response(400, Problem("Invalid content type", Some(UnsupportedTypeMessage(contentType)), Some(Keys()), None))
  }

  /** The 500 answer to any other failure; `details` carries the message in development only. */
  function GenerationFailed(e: JsError, development: bool): Response {
    Response(500, Problem("Generation failed", Some("An error occurred while generating content. Please try again."),
                          None, if development then e.message else None))
  }

  /** The `catch` block: "API key" first, then "quota" or "rate limit", else a generic failure. */
  function CatchResponse(e: JsError, development: bool): (r: Response)
    ensures Mentions(e, "API key") ==> r == InvalidKeyResponse
    ensures !Mentions(e, "API key") && (Mentions(e, "quota") || Mentions(e, "rate limit")) ==> r == RateLimitedResponse
    ensures !Mentions(e, "API key") && !Mentions(e, "quota") && !Mentions(e, "rate limit") ==>
              r == GenerationFailed(e, development)
  {
    if MessageIncludes(e, "API key") then InvalidKeyResponse
    else if MessageIncludes(e, "quota") || MessageIncludes(e, "rate limit") then RateLimitedResponse
    else GenerationFailed(e, development)
  }

  /** The `fullPrompt` of the handler. */
  function ServerPrompt(t: ContentType, req: Request): string {
    FullPrompt(EntryOf(t), req.keyword, req.tone, req.length, ServerMaxWords(req.length))
  }

  /** `!keyword || keyword.trim() === ''`. */
  predicate KeywordBlank(keyword: string) {
    keyword == "" || Trim(keyword) == ""
  }

  /** What the handler answers once the model has replied. */
  function AnswerReply(req: Request, reply: ModelReply, development: bool): (r: Response)
    ensures r.status == 200 <==> reply.Reply?
    ensures r.status == 200 ==> r.body.Generated? && Trim(r.body.result) == r.body.result
    ensures r.body.Problem? ==> r.status != 400 && r.body.supportedTypes.None? && r.body.error != "Keyword is required"
  {
    match reply
    case Reply(text) =>
      TrimIdempotent(text);
      Success(Trim(text), req.contentType, req.keyword, req.tone, req.length)
    case Thrown(e) => CatchResponse(e, development)
  }

  /** The handler past the keyword check: the type check, then the model call. */
  function Dispatch(req: Request, model: string -> ModelReply, development: bool): (r: Response)
    ensures r.status == 400 <==> Parse(req.contentType).None?
    ensures Parse(req.contentType).None? ==> r.body.Problem? && r.body.supportedTypes == Some(Keys())
    ensures r.status == 200 <==> Parse(req.contentType).Some? && model(ServerPrompt(Parse(req.contentType).value, req)).Reply?
    ensures r.body.Problem? ==> r.body.error != "Keyword is required"
  {
    match Parse(req.contentType)
    case None => InvalidType(req.contentType)
    case Some(t) => AnswerReply(req, model(ServerPrompt(t, req)), development)
  }

  /** The `/api/generate` handler; `development` is `process.env.NODE_ENV === 'development'`. */
  function Generate(body: RequestBody, model: string -> ModelReply, development: bool): (r: Response)
    ensures r.status == 400 <==> KeywordBlank(Defaults(body).keyword) || Parse(Defaults(body).contentType).None?
    ensures r.body.Problem? && r.body.error == "Keyword is required" <==> KeywordBlank(Defaults(body).keyword)
    ensures r.status == 200 <==> && !KeywordBlank(Defaults(body).keyword) && Parse(Defaults(body).contentType).Some?
                                 && model(ServerPrompt(Parse(Defaults(body).contentType).value, Defaults(body))).Reply?
  {
    var req := Defaults(body);
    if KeywordBlank(req.keyword) then KeywordRequired else Dispatch(req, model, development)
  }

  /** The keyword check refuses exactly the missing keywords and those of whitespace only. */
  lemma KeywordRequiredIffBlank(body: RequestBody, model: string -> ModelReply, development: bool)
    ensures Generate(body, model, development) == KeywordRequired <==> body.keyword.None? || AllWhitespace(body.keyword.value)
  {
    var req := Defaults(body);
    TrimEmptyIffBlank(req.keyword);
    if !KeywordBlank(req.keyword) {
      var r := Dispatch(req, model, development);
      if Parse(req.contentType).None? {
        assert r.body.error == "Invalid content type";
      } else {
        assert r.body.Problem? ==> r.status != 400;
      }
    }
  }

  /** A blank or missing keyword is reported whatever the type, and the model is not called. */
  lemma KeywordCheckedFirst(body: RequestBody, m1: string -> ModelReply, m2: string -> ModelReply, development: bool)
    requires body.keyword.None? || AllWhitespace(body.keyword.value)
    ensures Generate(body, m1, development) == Generate(body, m2, development) == KeywordRequired
  {
    KeywordRequiredIffBlank(body, m1, development);
    KeywordRequiredIffBlank(body, m2, development);
  }

  /** An unknown type is answered with 400 and the fourteen keys, and the model is not called. */
  lemma UnknownTypeRejected(body: RequestBody, model: string -> ModelReply, development: bool)
    requires body.keyword.Some? && !AllWhitespace(body.keyword.value)
    requires Parse(Defaults(body).contentType).None?
    ensures Generate(body, model, development) == InvalidType(Defaults(body).contentType)
    ensures InvalidType(Defaults(body).contentType).status == 400
    ensures InvalidType(Defaults(body).contentType).body.supportedTypes == Some(Keys())
  {
    TrimEmptyIffBlank(body.keyword.value);
  }

  /** The handler sends the model the prompt the service would send. */
  lemma SamePromptAsService(t: ContentType, req: Request)
    ensures ServerPrompt(t, req) == ServicePrompt(t, req)
  {
    BudgetsAgree(req.length);
  }

  /** A reply is trimmed, and the defaulted request is echoed with the keyword as sent. */
  lemma SuccessEchoesRequest(body: RequestBody, model: string -> ModelReply, development: bool, t: ContentType, text: string)
    requires body.keyword.Some? && !AllWhitespace(body.keyword.value)
    requires Parse(Defaults(body).contentType) == Some(t)
    requires model(ServerPrompt(t, Defaults(body))) == Reply(text)
    ensures Generate(body, model, development) ==
            Success(Trim(text), Defaults(body).contentType, body.keyword.value, Defaults(body).tone, Defaults(body).length)
  {
    var req := Defaults(body);
    TrimEmptyIffBlank(req.keyword);
    assert Generate(body, model, development) == Dispatch(req, model, development);
    assert Dispatch(req, model, development) == AnswerReply(req, Reply(text), development);
  }

  /** A thrown error is answered by the `catch` block: 401, then 429, else 500. */
  lemma FailureStatus(body: RequestBody, model: string -> ModelReply, development: bool, t: ContentType, e: JsError)
    requires body.keyword.Some? && !AllWhitespace(body.keyword.value)
    requires Parse(Defaults(body).contentType) == Some(t)
    requires model(ServerPrompt(t, Defaults(body))) == Thrown(e)
    ensures Generate(body, model, development).status ==
            if Mentions(e, "API key") then 401
            else if Mentions(e, "quota") || Mentions(e, "rate limit") then 429
            else 500
  {
    var req := Defaults(body);
    TrimEmptyIffBlank(req.keyword);
    assert Generate(body, model, development) == Dispatch(req, model, development);
    assert Dispatch(req, model, development) == AnswerReply(req, Thrown(e), development);
    assert AnswerReply(req, Thrown(e), development) == CatchResponse(e, development);
  }

  /** `Object.keys(contentConfigs).map(...)` of `server.js`: the listing of `routes/routes.js`. */
  function ServerContentTypes(): (types: seq<TypeInfo>)
    ensures types == ContentTypes()
  {
    seq(|Keys()|, i requires 0 <= i < |Keys()| => TypeInfo(Keys()[i], DisplayName(Keys()[i]), SystemPrompt(Types[i])))
  }
}
