# Authentication pipeline of an Express backend, modelled in Dafny

This project models the request-decision pipeline of a small Node/Express
authentication backend: the `login` controller, the bearer-token and admin
middlewares, the `/setup-admin` handler and the guard order of the admin-only
routes, the `/users` column list, the `ApiError` record, the 404 fallback and
the two error-to-response mappers. Each step is a chain of guards with early
exits that ends in a status code and a message.

External collaborators are parameters, never implemented:

- the `users` relation of PostgreSQL is a `seq<User>`; a query returns the
  matching rows in table order and the first one is used;
- `bcrypt.compare` is a function `passwordMatches(password, hash)`;
- `jwt.sign` and `jwt.verify` (with the configured secret) are functions
  `sign(claims, expiresIn)` and `verify(token): Option<Claims>`;
- `registerAdmin` and `registerSupervisor` are functions of the request body;
- `process.env.SETUP_KEY` and `NODE_ENV` are `Option<string>` parameters.

JavaScript values (`JsValue.Js`) carry `undefined`, `null` and truthiness
explicitly, because every guard in the source is a `!field` or `a || b` test.
`String.prototype.split` is modelled exactly (`JsString`), because the token
is `header.split('Bearer ')[1]`. `login` also returns the list of collaborator
calls it made, so "no lookup happens" and "no token is signed" are statements
about that list.

The model follows the code as written, including its defects:

- the middleware reads the misspelled header `authorzation`, so a token sent
  under the standard `Authorization` header is never seen
  (`Middleware.OnlyMisspelledHeaderIsRead`);
- `ApiError` stores `statusCode`, while both error handlers read `status`
  and `details`; so the mapper in src/app.js answers every `ApiError` with
  HTTP 500, the 404 fallback included (`App.ApiErrorsRenderAs500`,
  `App.UnmatchedRequestRendersAs500`), and the handler in src/utils/logger.js
  would answer it with an undefined status (`Logger.ApiErrorStatusIsLost`);
- with `SETUP_KEY` unset, `/setup-admin` rejects every request
  (`AuthRoutes.UnsetSetupKeyLocksSetup`).

Where the intended behaviour of the API and its code differ, the model
follows the code: `login` looks the user up by username and role only (never by
email), does not check that the role is `admin` or `supervisor`, and the
rejections meant as 401/403 reach the client as 500.

Modules: `Wrappers`, `JsValue`, `JsString` (indexOf/split), `ApiErrors`
(src/utils/ApiError.js), `Domain` (rows and claims), `Http` (the request
class and handler results), `AuthController` (src/controllers/authController.js),
`Middleware` (src/middlewares/authMiddleware.js), `AuthRoutes`
(src/routes/authRoutes.js), `Logger` (src/utils/logger.js), `App` (src/app.js).

## Model

| member | source | states |
|---|---|---|
| `JsString.IndexOf` | src/middlewares/authMiddleware.js:9 | the index found is an occurrence of the separator at or after the start, and no earlier one exists; `None` means there is none |
| `JsString.SplitCharacterized` | src/middlewares/authMiddleware.js:9 | `split` yields separator-free pieces that `join` reassembles into the original header |
| `JsString.SecondPiece` | src/middlewares/authMiddleware.js:9 | without an occurrence `split` gives the whole string; otherwise the second piece runs from the end of the first separator to the next separator or the end |
| `Middleware.BearerTokenBetweenOccurrences` | src/middlewares/authMiddleware.js:9 | the token is the text between the first and second `"Bearer "`; with no `"Bearer "` it is undefined |
| `Middleware.Authenticate` | src/middlewares/authMiddleware.js:8-21 | no header, no `"Bearer "` or an empty token gives 401 "Unathorized No tokn provided" independent of `verify`; a failed verification gives 401 "Unauthorized: Invalid Token"; success exactly when the token verifies, with the decoded claims |
| `Middleware.OnlyMisspelledHeaderIsRead` | src/middlewares/authMiddleware.js:9 | without an `authorzation` header the request is rejected as carrying no token |
| `Middleware.AuthMiddleware` | src/middlewares/authMiddleware.js:8-22 | on success `req.user` becomes the decoded claims and the chain proceeds once; on rejection `req.user` is untouched |
| `Middleware.AdminMiddleware` | src/middlewares/authMiddleware.js:24-29 | 403 "Forbidden: Admin Access required" exactly when the role is not `"admin"`, otherwise pass-through |
| `ApiErrors.Construct` | src/utils/ApiError.js:2-13 | `statusCode` stored as passed, `success` always false; message, errors and error code each kept when given and, each on its own, defaulting to "Something Went Wrong", `[]` and "UNKNOWN_ERROR" when omitted |
| `ApiErrors.TwoArgumentForm` | src/utils/ApiError.js:2-13 | `new ApiError(code, msg)` keeps the message and takes the defaults `[]` and "UNKNOWN_ERROR" |
| `ApiErrors.Thrown` | src/utils/ApiError.js:9-13 | an `ApiError` instance has `statusCode` and `message` but no `status` and no `details` property |
| `AuthController.Select` | src/controllers/authController.js:17-20 | the rows returned are exactly the table rows whose username and role equal the request's; email is not consulted |
| `AuthController.SelectFirst` | src/controllers/authController.js:21 | `rows[0]` is the first matching row of the table |
| `AuthController.Login` | src/controllers/authController.js:9-47 | a missing field gives 400 with no collaborator call; a token is signed exactly on success, i.e. fields present, a row found and the password matching; every later failure is the same 401 "Invalid credentials"; success signs the row's `{userId, username, role}` for "1h" and replies 200 with the token and the requested role |
| `AuthController.UnknownUserLooksLikeWrongPassword` | src/controllers/authController.js:23-32 | an unknown user and a wrong password yield identical responses |
| `AuthRoutes.CheckSetup` | src/routes/authRoutes.js:36-56 | a missing field gives 400 before the key is compared; a wrong key gives 403 "Invalid setup key"; acceptance exactly when all fields are present and the key matches, and the body passed on has exactly username, password, name and email, unchanged |
| `AuthRoutes.UnsetSetupKeyLocksSetup` | src/routes/authRoutes.js:49-51 | with `SETUP_KEY` unset no request is accepted |
| `AuthRoutes.SetupAdmin` | src/routes/authRoutes.js:34-64 | on acceptance `req.body` is replaced by the registration body and `registerAdmin` decides the outcome; on rejection the body is untouched and `registerAdmin` is not reached |
| `AuthRoutes.AdminRoute` | src/routes/authRoutes.js:23-31 | `authMiddleware`, then `adminMiddleware`, then the handler: the handler's outcome is returned only for a verified admin |
| `AuthRoutes.ListUsers` | src/routes/authRoutes.js:73-75 | one row per user carrying id, username, role, name and email |
| `AuthRoutes.ListingHidesPasswords` | src/routes/authRoutes.js:73-75 | the listing does not depend on the stored password hashes |
| `Logger.ErrorHandler` | src/utils/logger.js:19-69 | validation errors first (400 "Validation failed" with the list), then an `ApiError` with its `status`, `message` and `details` or null, else 500 "Internal server error" with the message as details only in development |
| `Logger.ApiErrorStatusIsLost` | src/utils/logger.js:51-58 | for any `ApiError` the status is undefined and the details null |
| `App.NotFound` | src/app.js:69-71 | the fallback error is an `ApiError` with code 404 and message "Resource not found: " plus the path |
| `App.RenderError` | src/app.js:74-83 | status is `err.status` if truthy else 500 and equals the body's status; message is `err.message` or "Internal Server Error"; details `err.details` or null |
| `App.ApiErrorsRenderAs500` | src/app.js:75-80 | every `ApiError` is answered 500 with its message and null details |
| `App.UnmatchedRequestRendersAs500` | src/app.js:69-83 | an unmatched request is answered 500 "Resource not found: " plus the path |
| `App.HandleRequest` | src/app.js:53-83 | unmatched requests get the 404 fallback (HEAD reaches the GET routes); `/login` runs unguarded; `/setup-admin` runs its own checks and alone rewrites the body; the admin-only routes reach their handler only for a verified admin and alone attach the claims to `req.user`; every error goes through `RenderError` |

## Left out

- Rate limiting, CORS, request logging and JSON body parsing (src/app.js:30-50) are library middleware; the request body is taken as an already parsed JSON object.
- All winston logging, in every file; it has no effect on responses.
- The timestamps of `GET /` and `GET /health`; their payloads are plain markers.
- src/config/db.js and src/index.js: connection pool, retry loop, signal and exception handlers are process plumbing.
- `ApiResponse`: success payloads are modelled directly; as written, the call sites pass `(200, payload, message)` to a constructor that expects `(res, statusCode, message, data)`, which is not modelled.
- `registerAdmin` and `registerSupervisor` are not defined or exported in src/controllers/authController.js, so as written the route module fails to load; they are abstract functions of the request body, and errors or rejected promises they produce are not modelled.
- The module-load and run-time failures of the source (missing `bcrypt`/`jwt` imports in the controller, `JsonWebTokenError.sign`, `this` before `super()` in `ApiError`) are not modelled; the intended calls are.
- Password hashing, token signing, verification and expiry are not modelled; `verify` collapses every failure kind to `None`, and the `iat`/`exp` fields of a decoded token are dropped.
- App.HandleRequest: a HEAD request runs the GET handler, but that Express then sends no response body is not modelled.
- AuthController.Login and AuthRoutes.ListUsers: the collaborators are total, so a failing `pool.query`, a `bcrypt.compare` that rejects (a non-string password, say) or a `jwt.sign` that throws (an unset secret) are not modelled; in the source each reaches `catch (err) { next(err) }` and is answered 500 with the error's message.
- Express path matching is exact: case-insensitive matching, trailing slashes and query strings are not modelled.
- JavaScript numbers are integers (no NaN, no fractions).
- AuthController.Select: PostgreSQL's conversion of non-string parameters to text is not modelled, so a non-string username or role never matches a row.
- Middleware.AdminMiddleware: takes the claims `authMiddleware` attached; the TypeError the source raises when `req.user` is missing is not modelled (the route order makes it unreachable).
- Logger.ErrorHandler: `validationResult(req)` is a parameter; what Express does with `res.status(undefined)` and how JSON drops undefined fields are not modelled.
- `ApiError`'s `stack` argument and the captured stack trace.
