/**
 * The `ApiError` class of src/utils/ApiError.js and the view an error handler
 * has of any thrown error: whether it is an `ApiError` instance, and its own
 * properties. The class stores `statusCode`; both error handlers read
 * `status` and `details`, which an `ApiError` never has.
 */
module ApiErrors {
  import opened JsValue

  const DefaultMessage := "Something Went Wrong"
  const DefaultErrorCode := "UNKNOWN_ERROR"

  /** The fields the constructor assigns (the stack trace is not modelled). */
  datatype ApiError = ApiError(statusCode: Js, message: Js, success: bool, errors: Js, errorCode: Js)

  /**
   * `new ApiError(statusCode, message, errors, errorCode)`; an argument passed
   * as `Undefined` is an omitted one and takes its default. (As written, the
   * constructor assigns `this` before calling `super()`, which JavaScript
   * rejects at run time; the model keeps the assignments it intends.)
   */
  function Construct(statusCode: Js, message: Js, errors: Js, errorCode: Js): (e: ApiError)
    ensures e.statusCode == statusCode && !e.success
    // each argument is kept when given and takes its own default when omitted
    ensures message != Undefined ==> e.message == message
    ensures message == Undefined ==> e.message == Str(DefaultMessage)
    ensures errors != Undefined ==> e.errors == errors
    ensures errors == Undefined ==> e.errors == Arr([])
    ensures errorCode != Undefined ==> e.errorCode == errorCode
    ensures errorCode == Undefined ==> e.errorCode == Str(DefaultErrorCode)
  {
    ApiError(
      statusCode,
      if message == Undefined then Str(DefaultMessage) else message,
      false,
      if errors == Undefined then Arr([]) else errors,
      if errorCode == Undefined then Str(DefaultErrorCode) else errorCode)
  }

  /**
   * `new ApiError(code, msg)`, the form every call site uses: the message is
   * kept while `errors` and `errorCode` take their defaults.
   */
  lemma TwoArgumentForm(statusCode: Js, message: string)
    ensures Construct(statusCode, Str(message), Undefined, Undefined)
         == ApiError(statusCode, Str(message), false, Arr([]), Str(DefaultErrorCode))
  {
  }

  /** A thrown value as an error handler sees it. */
  datatype ErrorObject = ErrorObject(isApiError: bool, props: map<string, Js>)

  /** `err.name`. */
  function Prop(err: ErrorObject, name: string): Js {
    Get(err.props, name)
  }

  /** An `ApiError` instance with exactly the properties its constructor assigns. */
  function Thrown(e: ApiError): (err: ErrorObject)
    ensures err.isApiError
    ensures Prop(err, "statusCode") == e.statusCode && Prop(err, "message") == e.message
    ensures Prop(err, "status") == Undefined && Prop(err, "details") == Undefined
  {
    ErrorObject(true, map[
      "statusCode" := e.statusCode,
      "message" := e.message,
      "success" := Bool(e.success),
      "errors" := e.errors,
      "errorCode" := e.errorCode])
  }

  /** `new ApiError(code, msg)`, the form every call site in the core uses. */
  function Fault(code: int, msg: string): ErrorObject {
    Thrown(Construct(Num(code), Str(msg), Undefined, Undefined))
  }
}
