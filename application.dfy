/**
 * The router path `POST /generate` of `routes/routes.js`: the controller called with
 * `GeminiService.generateContent`, and the error middleware answering whatever the
 * controller passes on. Set beside the self-contained handler of `server.js`, it agrees
 * on successes and on relabelled provider errors, and differs on unknown types and on
 * provider errors that carry their own status or an exact label.
 */
module Application {
  import opened Wrappers
  import opened Strings
  import opened ContentConfigs
  import opened Js
  import opened Http
  import opened GeminiService
  import GenerateController
  import ErrorHandler
  import Server

  /** `GeminiService.generateContent`, bound to a model. */
  function Service(model: string -> ModelReply): Request -> Result<string, JsError> {
    req => GenerateContent(req, model)
  }

  /** `POST /generate` on the router. */
  function Generate(body: RequestBody, model: string -> ModelReply): (r: Response)
    ensures GenerateController.KeywordMissing(body.keyword) ==> r == GenerateController.KeywordRequired
    ensures !GenerateController.KeywordMissing(body.keyword) ==>
              var req := GenerateController.ServiceArgs(body, body.keyword.value);
              match GenerateContent(req, model)
              case Ok(result) => r == Success(result, req.contentType, req.keyword, req.tone, req.length)
              case Err(e) => r == ErrorHandler.Handle(e)
  {
    match GenerateController.Handle(body, Service(model))
    case Respond(r) => r
    case Next(e) => ErrorHandler.Handle(e)
  }

  /** With a keyword sent, both handlers default the other fields alike. */
  lemma SameDefaults(body: RequestBody)
    requires body.keyword.Some?
    ensures GenerateController.ServiceArgs(body, body.keyword.value) == Server.Defaults(body)
  {
  }

  /** An unknown type: 500 with the plain `Error` of the service on the router path,
      400 with the list of keys on the server. */
  lemma UnknownTypePathsDiffer(body: RequestBody, model: string -> ModelReply, development: bool)
    requires body.keyword.Some? && !AllWhitespace(body.keyword.value)
    requires Parse(Server.Defaults(body).contentType).None?
    ensures Generate(body, model) ==
            Response(500, Problem("Error", Some(UnsupportedTypeMessage(Server.Defaults(body).contentType)), None, None))
    ensures Server.Generate(body, model, development) == Server.InvalidType(Server.Defaults(body).contentType)
  {
    var req := Server.Defaults(body);
    var m := UnsupportedTypeMessage(req.contentType);
    TrimEmptyIffBlank(body.keyword.value);
    SameDefaults(body);
    assert GenerateContent(req, model) == Err(NewError(m));
    assert Generate(body, model) == ErrorHandler.Handle(NewError(m));
    assert m[0] == 'C';
    ErrorHandler.PlainErrorIs500(m);
    Server.UnknownTypeRejected(body, model, development);
  }

  /** Both handlers answer a reply with the same trimmed text and echo. */
  lemma SuccessPathsAgree(body: RequestBody, model: string -> ModelReply, development: bool, t: ContentType, text: string)
    requires body.keyword.Some? && !AllWhitespace(body.keyword.value)
    requires Parse(Server.Defaults(body).contentType) == Some(t)
    requires model(ServicePrompt(t, Server.Defaults(body))) == Reply(text)
    ensures Generate(body, model) == Server.Generate(body, model, development)
    ensures Generate(body, model) == Success(Trim(text), Server.Defaults(body).contentType, body.keyword.value,
                                             Server.Defaults(body).tone, Server.Defaults(body).length)
  {
    var req := Server.Defaults(body);
    TrimEmptyIffBlank(body.keyword.value);
    SameDefaults(body);
    ResultIsTrimmedReply(req, model, t, text);
    assert Generate(body, model) == Success(Trim(text), req.contentType, req.keyword, req.tone, req.length);
    Server.SamePromptAsService(t, req);
    Server.SuccessEchoesRequest(body, model, development, t, text);
  }

  /** A provider message naming the API key is answered 401 on both paths. */
  lemma ApiKeyPathsAgree(body: RequestBody, model: string -> ModelReply, development: bool, t: ContentType, e: JsError)
    requires body.keyword.Some? && !AllWhitespace(body.keyword.value)
    requires Parse(Server.Defaults(body).contentType) == Some(t)
    requires model(ServicePrompt(t, Server.Defaults(body))) == Thrown(e)
    requires Mentions(e, "API key")
    ensures Generate(body, model) == Server.Generate(body, model, development) == InvalidKeyResponse
  {
    TrimEmptyIffBlank(body.keyword.value);
    SameDefaults(body);
    Server.SamePromptAsService(t, Server.Defaults(body));
    Server.FailureStatus(body, model, development, t, e);
  }

  /** A provider message naming the quota or a rate limit, and not the API key, is answered 429 on both paths. */
  lemma RateLimitPathsAgree(body: RequestBody, model: string -> ModelReply, development: bool, t: ContentType, e: JsError)
    requires body.keyword.Some? && !AllWhitespace(body.keyword.value)
    requires Parse(Server.Defaults(body).contentType) == Some(t)
    requires model(ServicePrompt(t, Server.Defaults(body))) == Thrown(e)
    requires !Mentions(e, "API key") && (Mentions(e, "quota") || Mentions(e, "rate limit"))
    ensures Generate(body, model) == Server.Generate(body, model, development) == RateLimitedResponse
  {
    TrimEmptyIffBlank(body.keyword.value);
    SameDefaults(body);
    Server.SamePromptAsService(t, Server.Defaults(body));
    Server.FailureStatus(body, model, development, t, e);
  }

  /** A provider error that is neither relabelled nor matched by label keeps its own non-zero status
      on the router path; the server answers 500. */
  lemma ProviderStatusPathsDiffer(body: RequestBody, model: string -> ModelReply, development: bool,
                                  t: ContentType, e: JsError)
    requires body.keyword.Some? && !AllWhitespace(body.keyword.value)
    requires Parse(Server.Defaults(body).contentType) == Some(t)
    requires model(ServicePrompt(t, Server.Defaults(body))) == Thrown(e)
    requires !Mentions(e, "API key") && !Mentions(e, "quota") && !Mentions(e, "rate limit")
    requires e.message != Some("INVALID_API_KEY") && e.message != Some("RATE_LIMIT_EXCEEDED")
    requires e.status.Some? && e.status.value != 0
    ensures Generate(body, model).status == e.status.value
    ensures Server.Generate(body, model, development).status == 500
  {
    var req := Server.Defaults(body);
    TrimEmptyIffBlank(body.keyword.value);
    SameDefaults(body);
    ProviderErrorRelabelled(req, model, t, e);
    assert Generate(body, model) == ErrorHandler.Handle(e);
    Server.SamePromptAsService(t, req);
    Server.FailureStatus(body, model, development, t, e);
  }

  /** A provider error whose message is the bare label "INVALID_API_KEY" names no API key, so the
      service passes it on unchanged; the middleware then answers 401, and the server 500. */
  lemma BareLabelPathsDiffer(body: RequestBody, model: string -> ModelReply, development: bool, t: ContentType, e: JsError)
    requires body.keyword.Some? && !AllWhitespace(body.keyword.value)
    requires Parse(Server.Defaults(body).contentType) == Some(t)
    requires model(ServicePrompt(t, Server.Defaults(body))) == Thrown(e)
    requires e.message == Some("INVALID_API_KEY")
    ensures Generate(body, model) == InvalidKeyResponse
    ensures Server.Generate(body, model, development).status == 500
  {
    BareLabelNotRelabelled(e);
    ProviderStatusPathsDifferOnMessage(body, model, development, t, e);
  }

  /** A provider error whose message is the bare label "RATE_LIMIT_EXCEEDED" names no quota or
      rate limit, so the service passes it on unchanged; the middleware then answers 429, and the server 500. */
  lemma BareRateLabelPathsDiffer(body: RequestBody, model: string -> ModelReply, development: bool, t: ContentType, e: JsError)
    requires body.keyword.Some? && !AllWhitespace(body.keyword.value)
    requires Parse(Server.Defaults(body).contentType) == Some(t)
    requires model(ServicePrompt(t, Server.Defaults(body))) == Thrown(e)
    requires e.message == Some("RATE_LIMIT_EXCEEDED")
    ensures Generate(body, model) == RateLimitedResponse
    ensures Server.Generate(body, model, development).status == 500
  {
    BareLabelNotRelabelled(e);
    ProviderStatusPathsDifferOnMessage(body, model, development, t, e);
  }

  lemma ProviderStatusPathsDifferOnMessage(body: RequestBody, model: string -> ModelReply, development: bool,
                                           t: ContentType, e: JsError)
    requires body.keyword.Some? && !AllWhitespace(body.keyword.value)
    requires Parse(Server.Defaults(body).contentType) == Some(t)
    requires model(ServicePrompt(t, Server.Defaults(body))) == Thrown(e)
    requires !Mentions(e, "API key") && !Mentions(e, "quota") && !Mentions(e, "rate limit")
    ensures Generate(body, model) == ErrorHandler.Handle(e)
    ensures Server.Generate(body, model, development).status == 500
  {
    var req := Server.Defaults(body);
    TrimEmptyIffBlank(body.keyword.value);
    SameDefaults(body);
    ProviderErrorRelabelled(req, model, t, e);
    Server.SamePromptAsService(t, req);
    Server.FailureStatus(body, model, development, t, e);
  }
}
