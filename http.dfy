/** The request and response shapes of the `/generate` endpoints. */
module Http {
  import opened Wrappers

  /** The model name every success response reports. */
  const ModelName: string := "gemini-2.5-flash"

  /** `req.body`: each field may be absent (`undefined`). The field `type` is `contentType` here. */
  datatype RequestBody = RequestBody(contentType: Option<string>, keyword: Option<string>,
                                     tone: Option<string>, length: Option<string>)

  /** The `metadata` object of a success response (its `timestamp` is not modelled). */
  datatype Metadata = Metadata(contentType: string, keyword: string, tone: string, length: string, model: string)

  /** The JSON body of a response. */
  datatype Body =
    | Generated(result: string, metadata: Metadata)       // { success: true, result, metadata }
    | Problem(error: string, message: Option<string>,      // { error, message?, supportedTypes?, details? }
              supportedTypes: Option<seq<string>>, details: Option<string>)

  datatype Response = Response(status: int, body: Body)

  /** The 401 answer to a rejected API key, the same on both paths. */
  const InvalidKeyResponse: Response :=
    Response(401, Problem("API key invalid",
                          Some("Gemini API key is missing or invalid. Please check your configuration."), None, None))

  /** The 429 answer to an exhausted quota or rate limit, the same on both paths. */
  const RateLimitedResponse: Response :=
    Response(429, Problem("Rate limit exceeded", Some("API rate limit reached. Please try again in a moment."), None, None))

  /** A success answer: status 200, the generated text and the echoed request. */
  function Success(result: string, contentType: string, keyword: string, tone: string, length: string): Response {
    Response(200, Generated(result, Metadata(contentType, keyword, tone, length, ModelName)))
  }
}
