/**
 * `authMiddleware` and `adminMiddleware` of src/middlewares/authMiddleware.js.
 * `verify` stands for `jwt.verify` with the configured secret: the decoded
 * claims, or `None` where it throws.
 */
module Middleware {
  import opened Wrappers
  import opened JsString
  import opened ApiErrors
  import opened Domain
  import opened Http

  /** The header the middleware reads, spelled as in the source. */
  const AuthHeader := "authorzation"
  const Bearer := "Bearer "
  const NoTokenMessage := "Unathorized No tokn provided"
  const InvalidTokenMessage := "Unauthorized: Invalid Token"
  const AdminRequiredMessage := "Forbidden: Admin Access required"

  /** `header?.split('Bearer ')[1]`. */
  function BearerToken(header: Option<string>): Option<string> {
    match header
    case None => None
    case Some(h) =>
      var pieces := Split(h, Bearer);
      if |pieces| > 1 then Some(pieces[1]) else None
  }

  /**
   * The token is what lies between the first and the second occurrence of
   * `"Bearer "` (or the end of the header); with no occurrence there is none.
   */
  lemma BearerTokenBetweenOccurrences(h: string)
    ensures IndexOf(h, Bearer, 0).None? ==> BearerToken(Some(h)) == None
    ensures IndexOf(h, Bearer, 0).Some? ==>
      var start := IndexOf(h, Bearer, 0).value + |Bearer|;
      start <= |h| && BearerToken(Some(h)) == Some(h[start..SegmentEnd(h, Bearer, start)])
  {
    SecondPiece(h, Bearer);
  }

  /** `req.headers.authorzation`. */
  function HeaderValue(headers: map<string, string>): Option<string> {
    if AuthHeader in headers then Some(headers[AuthHeader]) else None
  }

  /** `!token` is false: a token was extracted and it is not empty. */
  predicate HasToken(headers: map<string, string>) {
    BearerToken(HeaderValue(headers)).Some? && BearerToken(HeaderValue(headers)).value != ""
  }

  datatype AuthResult = Authenticated(claims: Claims) | Unauthenticated(error: ErrorObject)

  /** What `authMiddleware` decides for a request with these headers. */
  function Authenticate(headers: map<string, string>, verify: string -> Option<Claims>): (a: AuthResult)
    // no header, no "Bearer ", or an empty token: rejected without verifying anything
    ensures !HasToken(headers) ==> a == Unauthenticated(Fault(401, NoTokenMessage))
    // a token that does not verify is rejected with its own message
    ensures HasToken(headers) && verify(BearerToken(HeaderValue(headers)).value).None? ==>
      a == Unauthenticated(Fault(401, InvalidTokenMessage))
    // success means the extracted token verified, to exactly these claims
    ensures a.Authenticated? <==> HasToken(headers) && verify(BearerToken(HeaderValue(headers)).value).Some?
    ensures a.Authenticated? ==> verify(BearerToken(HeaderValue(headers)).value) == Some(a.claims)
  {
    var token := BearerToken(HeaderValue(headers));
    if token.None? || token.value == "" then Unauthenticated(Fault(401, NoTokenMessage))
    else match verify(token.value)
      case None => Unauthenticated(Fault(401, InvalidTokenMessage))
      case Some(claims) => Authenticated(claims)
  }

  /**
   * Only the misspelled header is read: a request that carries its token
   * under any other header name, the standard `authorization` included, is
   * rejected as having no token.
   */
  lemma OnlyMisspelledHeaderIsRead(headers: map<string, string>, verify: string -> Option<Claims>)
    requires AuthHeader !in headers
    ensures Authenticate(headers, verify) == Unauthenticated(Fault(401, NoTokenMessage))
  {
  }

  /** `authMiddleware(req, res, next)`: attaches the claims to `req.user` and proceeds, or rejects. */
  method AuthMiddleware(req: Request, verify: string -> Option<Claims>) returns (step: Step)
    modifies req`user
    ensures match Authenticate(req.headers, verify)
      case Authenticated(c) => step == Proceed && req.user == Some(c)
      case Unauthenticated(e) => step == Reject(e) && req.user == old(req.user)
  {
    match Authenticate(req.headers, verify) {
      case Unauthenticated(e) =>
        step := Reject(e);
      case Authenticated(c) =>
        req.user := Some(c);
        step := Proceed;
    }
  }

  /** `adminMiddleware(req, res, next)` on the claims `authMiddleware` attached as `req.user`. */
  function AdminMiddleware(user: Claims): (step: Step)
    ensures step.Reject? <==> user.role != "admin"
    ensures step.Reject? ==> step.err == Fault(403, AdminRequiredMessage)
  {
    if user.role != "admin" then Reject(Fault(403, AdminRequiredMessage)) else Proceed
  }
}
