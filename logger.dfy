/**
 * `errorHandler` of src/utils/logger.js: validation errors first, then
 * `ApiError` instances, then everything else. The handler is defined but
 * neither exported nor mounted; the winston logging it does is left out.
 */
module Logger {
  import opened Wrappers
  import opened JsValue
  import opened ApiErrors
  import opened Http

  const ValidationFailedMessage := "Validation failed"
  const InternalErrorMessage := "Internal server error"

  /**
   * The response for `err`, where `validationErrors` is
   * `validationResult(req).array()` and `nodeEnv` is `process.env.NODE_ENV`.
   */
  function ErrorHandler(err: ErrorObject, validationErrors: seq<Js>, nodeEnv: Option<string>): (r: ErrorResponse)
    ensures r.body.status == r.httpStatus
    // validation errors win over whatever error was passed in
    ensures |validationErrors| > 0 ==>
      r == ErrorResponse(Num(400), ErrorBody(Num(400), Str(ValidationFailedMessage), Arr(validationErrors)))
    // an ApiError answers with its own status, message and details (or null)
    ensures |validationErrors| == 0 && err.isApiError ==>
      r.httpStatus == Prop(err, "status") && r.body.message == Prop(err, "message") &&
      (Truthy(Prop(err, "details")) ==> r.body.details == Prop(err, "details")) &&
      (!Truthy(Prop(err, "details")) ==> r.body.details == Null)
    // anything else is a 500 whose details reveal the message only in development
    ensures |validationErrors| == 0 && !err.isApiError ==>
      r.httpStatus == Num(500) && r.body.message == Str(InternalErrorMessage) &&
      r.body.details == (if nodeEnv == Some("development") then Prop(err, "message") else Null)
  {
    if |validationErrors| > 0 then
      ErrorResponse(Num(400), ErrorBody(Num(400), Str(ValidationFailedMessage), Arr(validationErrors)))
    else if err.isApiError then
      ErrorResponse(Prop(err, "status"), ErrorBody(Prop(err, "status"), Prop(err, "message"), Or(Prop(err, "details"), Null)))
    else
      ErrorResponse(Num(500), ErrorBody(Num(500), Str(InternalErrorMessage),
        if nodeEnv == Some("development") then Prop(err, "message") else Null))
  }

  /**
   * Because `ApiError` stores `statusCode` and never `status`, this handler
   * would answer every `ApiError` with an undefined status and null details.
   */
  lemma ApiErrorStatusIsLost(e: ApiError, nodeEnv: Option<string>)
    ensures ErrorHandler(Thrown(e), [], nodeEnv)
         == ErrorResponse(Undefined, ErrorBody(Undefined, e.message, Null))
  {
  }
}
