/**
 * The router of src/routes/authRoutes.js: the `/setup-admin` handler, the
 * guard order of the admin-only routes, and the `/users` listing.
 * `registerAdmin` and `registerSupervisor` are collaborators whose code is not
 * part of this model; they are functions of the request body.
 */
module AuthRoutes {
  import opened Wrappers
  import opened JsValue
  import opened ApiErrors
  import opened Domain
  import opened Http
  import opened Middleware

  const SetupFields := ["username", "password", "name", "email", "setupKey"]
  const SetupMissingMessage := "Username, password, name, email, and setup key are required"
  const InvalidSetupKeyMessage := "Invalid setup key"

  /** `setupKey === process.env.SETUP_KEY`, where an unset variable is `undefined`. */
  predicate SetupKeyMatches(setupKey: Js, configured: Option<string>) {
    match configured
    case None => setupKey == Undefined
    case Some(k) => setupKey == Str(k)
  }

  /** `{ username, password, name, email }` built from the request body. */
  function RegistrationBody(body: map<string, Js>): map<string, Js> {
    map["username" := Get(body, "username"), "password" := Get(body, "password"),
        "name" := Get(body, "name"), "email" := Get(body, "email")]
  }

  datatype SetupCheck = SetupRejected(error: ErrorObject) | SetupAccepted(body: map<string, Js>)

  /** The guards of the `/setup-admin` handler, and the body it hands to `registerAdmin`. */
  function CheckSetup(body: map<string, Js>, configured: Option<string>): (c: SetupCheck)
    // every field is required, and a missing one is reported before the key is compared
    ensures !AllTruthy(body, SetupFields) ==> c == SetupRejected(Fault(400, SetupMissingMessage))
    ensures AllTruthy(body, SetupFields) && !SetupKeyMatches(Get(body, "setupKey"), configured) ==>
      c == SetupRejected(Fault(403, InvalidSetupKeyMessage))
    ensures c.SetupAccepted? <==>
      AllTruthy(body, SetupFields) && SetupKeyMatches(Get(body, "setupKey"), configured)
    // the body passed on keeps the four registration fields unchanged and drops the setup key
    ensures c.SetupAccepted? ==>
      c.body.Keys == {"username", "password", "name", "email"} &&
      forall k :: k in c.body ==> c.body[k] == Get(body, k) && Truthy(c.body[k])
  {
    if !Truthy(Get(body, "username")) || !Truthy(Get(body, "password")) || !Truthy(Get(body, "name"))
       || !Truthy(Get(body, "email")) || !Truthy(Get(body, "setupKey")) then
      assert !Truthy(Get(body, SetupFields[0])) || !Truthy(Get(body, SetupFields[1]))
        || !Truthy(Get(body, SetupFields[2])) || !Truthy(Get(body, SetupFields[3]))
        || !Truthy(Get(body, SetupFields[4]));
      SetupRejected(Fault(400, SetupMissingMessage))
    else if !SetupKeyMatches(Get(body, "setupKey"), configured) then
      SetupRejected(Fault(403, InvalidSetupKeyMessage))
    else
      SetupAccepted(RegistrationBody(body))
  }

  /** With `SETUP_KEY` unset, no request gets past the setup handler's guards. */
  lemma UnsetSetupKeyLocksSetup(body: map<string, Js>)
    ensures CheckSetup(body, None).SetupRejected?
  {
  }

  /** The `/setup-admin` handler: rewrites `req.body` and delegates to `registerAdmin`, or rejects. */
  method SetupAdmin(req: Request, configured: Option<string>,
                    registerAdmin: map<string, Js> -> Outcome) returns (o: Outcome)
    modifies req`body
    ensures match CheckSetup(old(req.body), configured)
      case SetupRejected(e) => o == Raise(e) && req.body == old(req.body)
      case SetupAccepted(b) => req.body == b && o == registerAdmin(b)
  {
    var check := CheckSetup(req.body, configured);
    match check
    case SetupRejected(e) =>
      o := Raise(e);
    case SetupAccepted(b) =>
      req.body := b;
      o := registerAdmin(req.body);
  }

  /**
   * An admin-only route: `authMiddleware`, then `adminMiddleware`, then the
   * handler, which therefore runs only for a verified admin.
   */
  method AdminRoute(req: Request, verify: string -> Option<Claims>,
                    handler: (Claims, map<string, Js>) -> Outcome) returns (o: Outcome)
    modifies req`user
    ensures match Authenticate(req.headers, verify)
      case Unauthenticated(e) => o == Raise(e) && req.user == old(req.user)
      case Authenticated(c) =>
        req.user == Some(c) &&
        o == if c.role == "admin" then handler(c, req.body) else Raise(Fault(403, AdminRequiredMessage))
  {
    var step := AuthMiddleware(req, verify);
    if step.Reject? {
      return Raise(step.err);
    }
    step := AdminMiddleware(req.user.value);
    if step.Reject? {
      return Raise(step.err);
    }
    o := handler(req.user.value, req.body);
  }

  /** A row of `SELECT id, username, role, name, email FROM users`. */
  function Project(u: User): PublicUser {
    PublicUser(u.id, u.username, u.role, u.name, u.email)
  }

  /** The rows the `/users` handler returns. */
  function ListUsers(table: seq<User>): (rows: seq<PublicUser>)
    ensures |rows| == |table|
    ensures forall i :: 0 <= i < |table| ==>
      rows[i].id == table[i].id && rows[i].username == table[i].username &&
      rows[i].role == table[i].role && rows[i].name == table[i].name && rows[i].email == table[i].email
  {
    if table == [] then [] else [Project(table[0])] + ListUsers(table[1..])
  }

  /** The listing does not depend on the stored password hashes. */
  lemma ListingHidesPasswords(t1: seq<User>, t2: seq<User>)
    requires |t1| == |t2|
    requires forall i :: 0 <= i < |t1| ==> t1[i].(password := t2[i].password) == t2[i]
    ensures ListUsers(t1) == ListUsers(t2)
  {
  }

  /** The handler of `GET /users`. */
  function UsersHandler(table: seq<User>, user: Claims, body: map<string, Js>): Outcome {
    Reply(200, UserRows(ListUsers(table)))
  }
}
