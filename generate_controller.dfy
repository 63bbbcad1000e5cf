/**
 * `generateContent` of `controllers/generate.controller.js`: default the request
 * fields, insist on a keyword, call the service, and either answer with the result
 * or pass the service's error on to the error middleware.
 */
module GenerateController {
  import opened Wrappers
  import opened Strings
  import opened Js
  import opened Http
  import opened GeminiService

  /** What the controller does with a request: answer it, or call `next(error)`. */
  datatype Outcome = Respond(response: Response) | Next(error: JsError)

  const KeywordRequired: Response := Response(400, Problem("Keyword is required", None, None, None))

  /** `!keyword?.trim()`: an absent keyword, or one that trims to "". */
  predicate KeywordMissing(keyword: Option<string>) {
    keyword.None? || Trim(keyword.value) == ""
  }

  /** The argument passed to the service: `type`, `tone` and `length` defaulted, the keyword as sent. */
  function ServiceArgs(body: RequestBody, keyword: string): (req: Request)
    ensures req.keyword == keyword
    ensures req.contentType == (if body.contentType.Some? then body.contentType.value else "joke")
    ensures req.tone == (if body.tone.Some? then body.tone.value else "funny")
    ensures req.length == (if body.length.Some? then body.length.value else "medium")
  {
    Request(body.contentType.GetOr("joke"), keyword, body.tone.GetOr("funny"), body.length.GetOr("medium"))
  }

  /** `!keyword?.trim()` holds exactly for an absent keyword or one of whitespace only. */
  lemma MissingIffBlank(keyword: Option<string>)
    ensures KeywordMissing(keyword) <==> keyword.None? || AllWhitespace(keyword.value)
  {
    if keyword.Some? {
      TrimEmptyIffBlank(keyword.value);
    }
  }

  /** `generateContent`, with the service as a parameter: the 400 for a blank keyword, the
      service's error handed to `next`, or a 200 echoing the defaulted request. */
  function Handle(body: RequestBody, service: Request -> Result<string, JsError>): (o: Outcome)
    ensures o == Respond(KeywordRequired) <==> body.keyword.None? || AllWhitespace(body.keyword.value)
    ensures o.Next? <==> && body.keyword.Some? && !AllWhitespace(body.keyword.value)
                         && service(ServiceArgs(body, body.keyword.value)).Err?
    ensures o.Next? ==> body.keyword.Some? && service(ServiceArgs(body, body.keyword.value)) == Err(o.error)
    ensures o.Respond? && o.response.status == 200 <==> && body.keyword.Some? && !AllWhitespace(body.keyword.value)
                                                        && service(ServiceArgs(body, body.keyword.value)).Ok?
    ensures o.Respond? && o.response.status == 200 ==>
              && body.keyword.Some? && o.response.body.Generated?
              && service(ServiceArgs(body, body.keyword.value)) == Ok(o.response.body.result)
              && o.response.body.metadata == Metadata(ServiceArgs(body, body.keyword.value).contentType, body.keyword.value,
                                                      ServiceArgs(body, body.keyword.value).tone,
                                                      ServiceArgs(body, body.keyword.value).length, ModelName)
  {
    MissingIffBlank(body.keyword);
    if KeywordMissing(body.keyword) then Respond(KeywordRequired)
    else
      var req := ServiceArgs(body, body.keyword.value);
      match service(req)
      case Ok(result) => Respond(Success(result, req.contentType, req.keyword, req.tone, req.length))
      case Err(e) => Next(e)
  }

  /** The keyword check refuses exactly the absent keywords and those made of whitespace only. */
  lemma KeywordRequiredIffBlank(body: RequestBody, service: Request -> Result<string, JsError>)
    ensures Handle(body, service) == Respond(KeywordRequired) <==> body.keyword.None? || AllWhitespace(body.keyword.value)
  {
    if body.keyword.Some? {
      TrimEmptyIffBlank(body.keyword.value);
    }
  }

  /** A missing or blank keyword is refused without calling the service. */
  lemma BlankKeywordSkipsService(body: RequestBody, s1: Request -> Result<string, JsError>,
                                 s2: Request -> Result<string, JsError>)
    requires body.keyword.None? || AllWhitespace(body.keyword.value)
    ensures Handle(body, s1) == Handle(body, s2) == Respond(KeywordRequired)
  {
    KeywordRequiredIffBlank(body, s1);
    KeywordRequiredIffBlank(body, s2);
  }

  /** The service is consulted on the defaulted request alone. */
  lemma ServiceSeesDefaultedRequest(body: RequestBody, s1: Request -> Result<string, JsError>,
                                    s2: Request -> Result<string, JsError>)
    requires body.keyword.Some?
    requires s1(ServiceArgs(body, body.keyword.value)) == s2(ServiceArgs(body, body.keyword.value))
    ensures Handle(body, s1) == Handle(body, s2)
  {
  }

  /** With only a keyword sent, the service is asked for a funny joke of medium length,
      and the keyword reaches it untrimmed. */
  lemma KeywordOnlyDefaults(keyword: string)
    ensures ServiceArgs(RequestBody(None, Some(keyword), None, None), keyword)
            == Request("joke", keyword, "funny", "medium")
  {
  }

  /** A non-blank keyword with a service error hands that very error on. */
  lemma ServiceErrorForwarded(body: RequestBody, service: Request -> Result<string, JsError>, e: JsError)
    requires body.keyword.Some? && !AllWhitespace(body.keyword.value)
    requires service(ServiceArgs(body, body.keyword.value)) == Err(e)
    ensures Handle(body, service) == Next(e)
  {
    TrimEmptyIffBlank(body.keyword.value);
  }
}
