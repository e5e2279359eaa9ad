/** The Express request and the results of middleware and route handlers. */
module Http {
  import opened Wrappers
  import opened JsValue
  import opened ApiErrors
  import opened Domain

  /**
   * An Express request. Header names are lower-cased by Node; `user` is
   * `req.user`, absent until `authMiddleware` attaches verified claims.
   */
  class Request {
    const verb: string
    const path: string
    var headers: map<string, string>
    var body: map<string, Js>
    var user: Option<Claims>

    constructor (verb: string, path: string, headers: map<string, string>, body: map<string, Js>)
      ensures this.verb == verb && this.path == path
      ensures this.headers == headers && this.body == body && user == None
    {
      this.verb := verb;
      this.path := path;
      this.headers := headers;
      this.body := body;
      user := None;
    }
  }

  /** What a middleware does: call `next()`, or call `next(err)`. */
  datatype Step = Proceed | Reject(err: ErrorObject)

  /** The data a route sends back on success (timestamps of `/` and `/health` are left out). */
  datatype Payload =
    | LoginOk(token: string, role: Js)
    | UserRows(rows: seq<PublicUser>)
    | Registered(value: Js)
    | Welcome
    | Health

  /** What a route handler does: send a status and payload, or call `next(err)`. */
  datatype Outcome = Reply(status: int, payload: Payload) | Raise(err: ErrorObject)

  /** The uniform error body `{error: {status, message, details}}`. */
  datatype ErrorBody = ErrorBody(status: Js, message: Js, details: Js)

  /** `res.status(httpStatus).json({error: body})`. */
  datatype ErrorResponse = ErrorResponse(httpStatus: Js, body: ErrorBody)
}
