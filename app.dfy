/**
 * src/app.js: the routes mounted under `/v1/api`, the two static routes, the
 * 404 fallback and the final error-response mapper.
 */
module App {
  import opened Wrappers
  import opened JsValue
  import opened ApiErrors
  import opened Domain
  import opened Http
  import opened AuthController
  import opened Middleware
  import opened AuthRoutes

  const ApiPrefix := "/v1/api"
  const NotFoundPrefix := "Resource not found: "
  const FallbackMessage := "Internal Server Error"

  /** The external collaborators and configuration the application calls into. */
  datatype Services = Services(
    users: seq<User>,                                  // the `users` relation
    passwordMatches: (Js, string) -> bool,             // bcrypt.compare
    sign: (Claims, string) -> string,                  // jwt.sign with JWT_SECRET
    verify: string -> Option<Claims>,                  // jwt.verify with JWT_SECRET
    registerAdmin: map<string, Js> -> Outcome,
    registerSupervisor: map<string, Js> -> Outcome,
    setupKey: Option<string>)                          // process.env.SETUP_KEY

  datatype Route = LoginRoute | RegisterAdminRoute | RegisterSupervisorRoute | SetupAdminRoute
                 | UsersRoute | WelcomeRoute | HealthRoute

  /** Express answers HEAD with the GET route when no HEAD route exists. */
  predicate ReadVerb(verb: string) {
    verb == "GET" || verb == "HEAD"
  }

  /** The route a request reaches, if any. */
  function RouteFor(verb: string, path: string): Option<Route> {
    if verb == "POST" && path == ApiPrefix + "/login" then Some(LoginRoute)
    else if verb == "POST" && path == ApiPrefix + "/register-admin" then Some(RegisterAdminRoute)
    else if verb == "POST" && path == ApiPrefix + "/register-supervisor" then Some(RegisterSupervisorRoute)
    else if verb == "POST" && path == ApiPrefix + "/setup-admin" then Some(SetupAdminRoute)
    else if ReadVerb(verb) && path == ApiPrefix + "/users" then Some(UsersRoute)
    else if ReadVerb(verb) && path == "/" then Some(WelcomeRoute)
    else if ReadVerb(verb) && path == "/health" then Some(HealthRoute)
    else None
  }

  /** The 404 fallback: an `ApiError` naming the path. */
  function NotFound(path: string): (err: ErrorObject)
    ensures err.isApiError
    ensures Prop(err, "statusCode") == Num(404) && Prop(err, "message") == Str(NotFoundPrefix + path)
  {
    Fault(404, NotFoundPrefix + path)
  }

  /** The final error middleware: `err.status || 500`, `err.message || ...`, `err.details || null`. */
  function RenderError(err: ErrorObject): (r: ErrorResponse)
    ensures r.body.status == r.httpStatus
    ensures Truthy(Prop(err, "status")) ==> r.httpStatus == Prop(err, "status")
    ensures !Truthy(Prop(err, "status")) ==> r.httpStatus == Num(500)
    ensures Truthy(Prop(err, "message")) ==> r.body.message == Prop(err, "message")
    ensures !Truthy(Prop(err, "message")) ==> r.body.message == Str(FallbackMessage)
    ensures Truthy(Prop(err, "details")) ==> r.body.details == Prop(err, "details")
    ensures !Truthy(Prop(err, "details")) ==> r.body.details == Null
    // status and message are always filled in, details is always present
    ensures Truthy(r.httpStatus) && Truthy(r.body.message) && r.body.details != Undefined
  {
    var status := Or(Prop(err, "status"), Num(500));
    ErrorResponse(status, ErrorBody(status, Or(Prop(err, "message"), Str(FallbackMessage)), Or(Prop(err, "details"), Null)))
  }

  /**
   * Every `ApiError` reaches the client as a 500: the mapper reads `status`,
   * which the class never sets. Its message survives; details are null.
   */
  lemma ApiErrorsRenderAs500(e: ApiError)
    ensures RenderError(Thrown(e)).httpStatus == Num(500)
    ensures RenderError(Thrown(e)).body.details == Null
    ensures Truthy(e.message) ==> RenderError(Thrown(e)).body.message == e.message
  {
  }

  /** An unmatched request is answered 500 with the not-found message. */
  lemma UnmatchedRequestRendersAs500(path: string)
    ensures RenderError(NotFound(path))
         == ErrorResponse(Num(500), ErrorBody(Num(500), Str(NotFoundPrefix + path), Null))
  {
  }

  datatype Response = Success(status: int, payload: Payload) | Failure(error: ErrorResponse)

  /** How a handler's outcome reaches the client: a reply as is, an error through `RenderError`. */
  function Finish(o: Outcome): Response {
    match o
    case Reply(status, payload) => Success(status, payload)
    case Raise(err) => Failure(RenderError(err))
  }

  /** One request through the application. */
  method HandleRequest(req: Request, svc: Services) returns (resp: Response)
    modifies req`user, req`body
    ensures RouteFor(req.verb, req.path).None? ==> resp == Failure(RenderError(NotFound(req.path)))
    // only the setup handler rewrites the body, only the admin guard attaches claims
    ensures RouteFor(req.verb, req.path) != Some(SetupAdminRoute) ==> req.body == old(req.body)
    ensures RouteFor(req.verb, req.path) == Some(SetupAdminRoute) ==>
      req.body == match CheckSetup(old(req.body), svc.setupKey)
                  case SetupRejected(_) => old(req.body)
                  case SetupAccepted(b) => b
    ensures RouteFor(req.verb, req.path) !in {Some(RegisterAdminRoute), Some(RegisterSupervisorRoute), Some(UsersRoute)} ==>
      req.user == old(req.user)
    ensures RouteFor(req.verb, req.path) in {Some(RegisterAdminRoute), Some(RegisterSupervisorRoute), Some(UsersRoute)} ==>
      req.user == match Authenticate(req.headers, svc.verify)
                  case Unauthenticated(_) => old(req.user)
                  case Authenticated(c) => Some(c)
    // login runs without any guard
    ensures RouteFor(req.verb, req.path) == Some(LoginRoute) ==>
      resp == Finish(Login(old(req.body), svc.users, svc.passwordMatches, svc.sign).outcome)
    ensures RouteFor(req.verb, req.path) == Some(SetupAdminRoute) ==>
      resp == Finish(match CheckSetup(old(req.body), svc.setupKey)
                     case SetupRejected(e) => Raise(e)
                     case SetupAccepted(b) => svc.registerAdmin(b))
    // the admin-only routes answer from their handler only for a verified admin
    ensures RouteFor(req.verb, req.path) in {Some(RegisterAdminRoute), Some(RegisterSupervisorRoute), Some(UsersRoute)} ==>
      match Authenticate(req.headers, svc.verify)
      case Unauthenticated(e) => resp == Failure(RenderError(e))
      case Authenticated(c) =>
        c.role != "admin" ==> resp == Failure(RenderError(Fault(403, AdminRequiredMessage)))
    ensures RouteFor(req.verb, req.path) == Some(UsersRoute) ==>
      match Authenticate(req.headers, svc.verify)
      case Unauthenticated(_) => true
      case Authenticated(c) =>
        c.role == "admin" ==> resp == Success(200, UserRows(ListUsers(svc.users)))
    ensures RouteFor(req.verb, req.path) == Some(RegisterAdminRoute) ==>
      match Authenticate(req.headers, svc.verify)
      case Unauthenticated(_) => true
      case Authenticated(c) =>
        c.role == "admin" ==> resp == Finish(svc.registerAdmin(old(req.body)))
    ensures RouteFor(req.verb, req.path) == Some(RegisterSupervisorRoute) ==>
      match Authenticate(req.headers, svc.verify)
      case Unauthenticated(_) => true
      case Authenticated(c) =>
        c.role == "admin" ==> resp == Finish(svc.registerSupervisor(old(req.body)))
  {
    var route := RouteFor(req.verb, req.path);
    var o: Outcome;
    match route {
    case None =>
      o := Raise(NotFound(req.path));
    case Some(LoginRoute) =>
      o := Login(req.body, svc.users, svc.passwordMatches, svc.sign).outcome;
    case Some(RegisterAdminRoute) =>
      o := AdminRoute(req, svc.verify, (c, b) => svc.registerAdmin(b));
    case Some(RegisterSupervisorRoute) =>
      o := AdminRoute(req, svc.verify, (c, b) => svc.registerSupervisor(b));
    case Some(SetupAdminRoute) =>
      o := SetupAdmin(req, svc.setupKey, svc.registerAdmin);
    case Some(UsersRoute) =>
      var users := svc.users;
      o := AdminRoute(req, svc.verify, (c, b) => UsersHandler(users, c, b));
    case Some(WelcomeRoute) =>
      o := Reply(200, Welcome);
    case Some(HealthRoute) =>
      o := Reply(200, Health);
    }
    resp := Finish(o);
  }
}
