/**
 * `login` of src/controllers/authController.js: a chain of guards that ends
 * in a signed token or an `ApiError` passed to `next`. The user table stands
 * for `pg`, `passwordMatches` for `bcrypt.compare`, `sign` for `jwt.sign`
 * with the configured secret. (As written, the file imports neither `bcrypt`
 * nor `jwt` and calls `JsonWebTokenError.sign`; the model keeps the intended
 * calls.)
 */
module AuthController {
  import opened JsValue
  import opened ApiErrors
  import opened Domain
  import opened Http

  const MissingFieldsMessage := "Username, password and role are required"
  const InvalidCredentialsMessage := "Invalid credentials"
  const TokenLifetime := "1h"

  /** A call `login` makes to a collaborator, in the order it makes them. */
  datatype Effect =
    | QueryUsers(username: Js, role: Js)
    | ComparePassword(password: Js, hash: string)
    | SignToken(claims: Claims, expiresIn: string)

  /** The outcome of one `login` call and the collaborator calls it made. */
  datatype LoginRun = LoginRun(outcome: Outcome, effects: seq<Effect>)

  /** `WHERE username = $1 AND role = $2`. */
  predicate RowMatches(u: User, username: Js, role: Js) {
    Str(u.username) == username && Str(u.role) == role
  }

  /** The rows `SELECT * FROM users WHERE username = $1 AND role = $2` returns, in table order. */
  function Select(table: seq<User>, username: Js, role: Js): (rows: seq<User>)
    ensures |rows| <= |table|
    ensures forall u :: u in rows <==> u in table && RowMatches(u, username, role)
  {
    if table == [] then []
    else (if RowMatches(table[0], username, role) then [table[0]] else [])
         + Select(table[1..], username, role)
  }

  /** `rows[0]` is the first row of the table that matches. */
  lemma {:induction false} SelectFirst(table: seq<User>, username: Js, role: Js, i: nat)
    requires i < |table| && RowMatches(table[i], username, role)
    requires forall k :: 0 <= k < i ==> !RowMatches(table[k], username, role)
    ensures |Select(table, username, role)| > 0 && Select(table, username, role)[0] == table[i]
  {
    if i > 0 {
      assert !RowMatches(table[0], username, role);
      SelectFirst(table[1..], username, role, i - 1);
    }
  }

  /** `!username || !password || !role` is false. */
  predicate FieldsPresent(body: map<string, Js>) {
    Truthy(Get(body, "username")) && Truthy(Get(body, "password")) && Truthy(Get(body, "role"))
  }

  /** The claims put in the token of `user`. */
  function ClaimsOf(user: User): Claims {
    Claims(user.id, user.username, user.role)
  }

  /** An effect list that contains a call to `jwt.sign`. */
  predicate SignsToken(effects: seq<Effect>) {
    exists k :: 0 <= k < |effects| && effects[k].SignToken?
  }

  /** `login(req, res, next)` for `req.body == body`. */
  function Login(body: map<string, Js>, table: seq<User>,
                 passwordMatches: (Js, string) -> bool,
                 sign: (Claims, string) -> string): (run: LoginRun)
    // a missing field is rejected before the store is consulted
    ensures !FieldsPresent(body) ==>
      run == LoginRun(Raise(Fault(400, MissingFieldsMessage)), [])
    // a token is signed exactly when the request succeeds, and only after all three checks
    ensures SignsToken(run.effects) <==> run.outcome.Reply?
    ensures run.outcome.Reply? <==>
      FieldsPresent(body) && |Select(table, Get(body, "username"), Get(body, "role"))| > 0 &&
      passwordMatches(Get(body, "password"), Select(table, Get(body, "username"), Get(body, "role"))[0].password)
    // every failure after the field check is the same 401, whether the user is unknown or the password wrong
    ensures FieldsPresent(body) && run.outcome.Raise? ==>
      run.outcome == Raise(Fault(401, InvalidCredentialsMessage))
    // on success: the first matching row's claims, a one-hour token, and the requested role
    ensures run.outcome.Reply? ==>
      var user := Select(table, Get(body, "username"), Get(body, "role"))[0];
      user in table && Str(user.username) == Get(body, "username") && Str(user.role) == Get(body, "role") &&
      run.effects == [QueryUsers(Get(body, "username"), Get(body, "role")),
                      ComparePassword(Get(body, "password"), user.password),
                      SignToken(ClaimsOf(user), TokenLifetime)] &&
      run.outcome == Reply(200, LoginOk(sign(ClaimsOf(user), TokenLifetime), Get(body, "role")))
  {
    var username, password, role := Get(body, "username"), Get(body, "password"), Get(body, "role");
    if !Truthy(username) || !Truthy(password) || !Truthy(role) then
      LoginRun(Raise(Fault(400, MissingFieldsMessage)), [])
    else
      var rows := Select(table, username, role);
      var queried := [QueryUsers(username, role)];
      if |rows| == 0 then
        LoginRun(Raise(Fault(401, InvalidCredentialsMessage)), queried)
      else
        var user := rows[0];
        var compared := queried + [ComparePassword(password, user.password)];
        if !passwordMatches(password, user.password) then
          LoginRun(Raise(Fault(401, InvalidCredentialsMessage)), compared)
        else
          var claims := ClaimsOf(user);
          var signed := compared + [SignToken(claims, TokenLifetime)];
          assert signed[2].SignToken?;
          LoginRun(Reply(200, LoginOk(sign(claims, TokenLifetime), role)),
                   signed)
  }

  /**
   * An unknown username and a wrong password for a known one give the same
   * response: the two failures cannot be told apart.
   */
  lemma UnknownUserLooksLikeWrongPassword(body: map<string, Js>, missing: seq<User>, present: seq<User>,
                                          passwordMatches: (Js, string) -> bool,
                                          sign: (Claims, string) -> string, i: nat)
    requires FieldsPresent(body)
    requires forall u :: u in missing ==> !RowMatches(u, Get(body, "username"), Get(body, "role"))
    requires i < |present| && RowMatches(present[i], Get(body, "username"), Get(body, "role"))
    requires forall k :: 0 <= k < i ==> !RowMatches(present[k], Get(body, "username"), Get(body, "role"))
    requires !passwordMatches(Get(body, "password"), present[i].password)
    ensures Login(body, missing, passwordMatches, sign).outcome
         == Login(body, present, passwordMatches, sign).outcome
         == Raise(Fault(401, InvalidCredentialsMessage))
  {
    SelectFirst(present, Get(body, "username"), Get(body, "role"), i);
    var rows := Select(missing, Get(body, "username"), Get(body, "role"));
    if |rows| > 0 {
      assert rows[0] in rows;
    }
  }
}
