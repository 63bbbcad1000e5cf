/**
 * The Express error middleware of `middlewares/errorHandler.js`: two exact labels
 * choose 401 and 429; every other error is answered with its own status, name and
 * message, each falling back to a fixed value when it is missing or empty.
 */
module ErrorHandler {
  import opened Wrappers
  import opened Js
  import opened Http

  const GenericError := "Internal server error"
  const GenericMessage := "An error occurred while processing your request."

  /** The response for an error passed on with `next(error)`, outside the development
      environment (so `details` is absent). */
  function Handle(err: JsError): (r: Response)
    ensures err.message == Some("INVALID_API_KEY") ==> r == InvalidKeyResponse
    ensures err.message == Some("RATE_LIMIT_EXCEEDED") ==> r == RateLimitedResponse
    ensures err.message != Some("INVALID_API_KEY") && err.message != Some("RATE_LIMIT_EXCEEDED") ==>
              && r.body.Problem?
              && r.body.supportedTypes.None? && r.body.details.None?
              && (err.status.Some? && err.status.value != 0 ==> r.status == err.status.value)
              && (err.status.None? || err.status.value == 0 ==> r.status == 500)
              && (err.name.Some? && err.name.value != "" ==> r.body.error == err.name.value)
              && (err.name.None? || err.name.value == "" ==> r.body.error == GenericError)
              && (err.message.Some? && err.message.value != "" ==> r.body.message == err.message)
              && (err.message.None? || err.message.value == "" ==> r.body.message == Some(GenericMessage))
  {
    if err.message == Some("INVALID_API_KEY") then InvalidKeyResponse
    else if err.message == Some("RATE_LIMIT_EXCEEDED") then RateLimitedResponse
    else Response(NumberOr(err.status, 500),
                  Problem(StringOr(err.name, GenericError), Some(StringOr(err.message, GenericMessage)), None, None))
  }

  /** Every answer has a non-zero status and a non-empty `error` and `message`. */
  lemma AnswerIsComplete(err: JsError)
    ensures Handle(err).status != 0
    ensures Handle(err).body.Problem? && Handle(err).body.error != ""
    ensures Handle(err).body.message.Some? && Handle(err).body.message.value != ""
  {
  }

  /** 401 and 429 without a status of their own come only from the exact labels. */
  lemma LabelsAreExact(err: JsError)
    requires err.status.None?
    ensures Handle(err).status == 401 <==> err.message == Some("INVALID_API_KEY")
    ensures Handle(err).status == 429 <==> err.message == Some("RATE_LIMIT_EXCEEDED")
  {
  }

  /** A label with anything around it is not recognised. */
  lemma LabelWithSuffixFallsThrough()
    ensures Handle(NewError("INVALID_API_KEY x")) ==
            Response(500, Problem("Error", Some("INVALID_API_KEY x"), None, None))
  {
  }

  /** An `Error` the middleware does not recognise is answered 500 with its own name and message. */
  lemma PlainErrorIs500(message: string)
    requires message != "" && message != "INVALID_API_KEY" && message != "RATE_LIMIT_EXCEEDED"
    ensures Handle(NewError(message)) == Response(500, Problem("Error", Some(message), None, None))
  {
  }
}
