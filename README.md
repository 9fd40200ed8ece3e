# pern-auth backend authentication flow, in Dafny

This project models the authentication core of the pern-auth Express backend. It is
written in Dafny and every part of it is verified. The modelled flow is:

- the input validator that guards `POST /auth/register` and `POST /auth/login`;
- the `register`, `login`, `logout` and `isVerified` controllers;
- the `authenticateToken` access gate in front of `GET /auth/is-verified` and `GET /dashboard`;
- the `getUser` profile endpoint.

The PostgreSQL `users` table is replaced by a map from username to row, held in a
class (`UserModel.UserStore`). bcrypt and jsonwebtoken are abstract collaborators:

- A `Bcrypt.Hasher` is a pair of functions, `hash(password, salt)` and
  `compare(password, stored)`. Its `Sound()` predicate says that comparing a password
  with any salted hash of that password succeeds.
- A `Jwt.Signer` is a pair `encode(claims)` / `decode(token)`, with the secret key
  inside it. Its `Sound()` predicate says that decoding a token it produced gives back
  the claims, and that such a token is never empty.

Time is an integer number of milliseconds, as `Date.now()` gives it. `jwt.sign` with
`expiresIn: "1h"` puts `iat = floor(now / 1000)` and `exp = iat + 3600` in the token.
`jwt.verify` rejects a token once `floor(now / 1000) >= exp`, following the `exp` claim
of section 4.1.4 of RFC 7519.

## Layout

| file | module | what it holds |
|---|---|---|
| wrappers.dfy | Wrappers | `Option`, `Result` |
| http.dfy | Http | the request body, cookies, JSON replies; `Request` and `Response` classes |
| bcrypt.dfy | Bcrypt | the abstract hasher |
| jwt.dfy | Jwt | claims, signing, verification, expiry lemmas |
| user_model.dfy | UserModel | rows, the store class, the NRIC scan, the store invariant |
| validation.dfy | Validation | the NRIC regular expression, the validator middleware |
| auth_controller.dfy | AuthController | register, login, logout, isVerified |
| authorisation.dfy | Authorisation | the access gate |
| user_controller.dfy | UserController | the profile projection and `getUser` |
| routes.dfy | Routes | the handler chains of the two routers, and an end-to-end session lemma |

Each controller follows the same pattern:

- A function gives its reply from the store's contents: `RegisterOutcome`,
  `LoginReply`, `GetUserReply` and others. `RegisterOutcome` also gives the new store.
- Lemmas about those functions state the properties.
- A method with the handler's own steps writes the Express `res` object, and for
  `register` also writes the store. The method is proved to produce exactly what the
  function describes.

Some behaviour of the code is easy to misread:

- An unparseable date of birth passes validation. `new Date(dob)` is then an Invalid
  Date, and `NaN > now` is false. `Validation.DobInFuture` gives such a date no time,
  so it is never in the future.
- A date of birth equal to the current time is accepted, because the test is a strict `>`.
- `gender` is accepted as any non-empty string. It is not checked against male/female.
- `secure` is set exactly when `NODE_ENV` is `"production"`.
- Nothing refuses to start without `JWT_SECRET`.
- Express routers match a route case-insensitively and accept one trailing slash, so
  `POST /auth/register/` and `POST /auth/REGISTER` reach `register`. The validator
  compares `req.path` with `"/register"` and `"/login"` exactly, so those spellings skip
  it. The model keeps the path and shows the consequences under "## Findings".

## Model

| member | source | states |
|---|---|---|
| Validation.Validate | backend/middleware/validation.js:1-46 | On "/register", the checks run in a fixed order: 401 "Missing Input" iff a field is missing or empty; otherwise 401 "Invalid NRIC" iff the NRIC is not of NRIC shape; otherwise 401 "Invalid Date of Birth" iff the date of birth is strictly after now. `next` runs iff all three pass. On "/login", `next` runs iff the username and password are both non-empty, else 401 "Missing Input"; other fields are ignored. Any other path passes unchecked. Every refusal is 401 |
| Validation.Every | backend/middleware/validation.js:14-24 | `[...].every(Boolean)` holds iff every listed field is present and not the empty string |
| Validation.AtomMatch | backend/middleware/validation.js:29 | An anchored pattern whose first atom is a character class repeated n times matches s iff the first n characters of s are in the class and the rest of the pattern matches the remainder |
| Validation.NricPatternMatchesNric | backend/middleware/validation.js:29-31 | `^[STFG]\d{7}[A-Z]$` accepts s iff s has exactly 9 characters: S, T, F or G, then seven ASCII digits, then one upper-case ASCII letter |
| Validation.ValidatorTestCases | backend/tests/validation.test.js:5-48 | A registration with only a username and password gets "Missing Input". NRIC "1234567X" gets "Invalid NRIC". A login without a password gets "Missing Input". The test NRICs are of NRIC shape |
| Jwt.ExpiryWithinTheHour | backend/controllers/authController.js:44-46 | A token signed at t expires at a millisecond within the last second of the hour after t |
| Jwt.SignedTokenVerifiesUntilExpiry | backend/controllers/authController.js:44-46 | With a sound signer, a token signed for u at t verifies, with claims user u, iat floor(t/1000) and exp iat+3600, at every time before its expiry. From its expiry on, it fails as Expired |
| Jwt.OneHourLifetime | backend/controllers/authController.js:44-46 | A signed token still verifies 59 minutes after signing and is Expired 61 minutes after |
| UserModel.GetUserByUsername | backend/models/userModel.js:17-21 | Finds a row iff one is stored under the username, and returns that row. In a consistent store, the row's own username is the one asked for |
| UserModel.UserStore.CreateUser | backend/models/userModel.js:3-9 | Inserts one row with the given values under its username and returns that row (`RETURNING *`); the other rows are unchanged |
| UserModel.UserStore.GetUserByNric | backend/models/userModel.js:11-15 | The scan returns a stored row with that NRIC, and returns none exactly when no row has it. Under the store invariant the row returned is the one stored under its own username |
| AuthController.RegisterOutcome | backend/controllers/authController.js:9-55 | The store either stays as it was or gains the new row under the username. The status is 201 iff the username is free and no row has the NRIC |
| AuthController.RegisterRefusesTakenUsername | backend/controllers/authController.js:22-24 | A taken username gives 400 "Username already exists" with no cookie and an unchanged store, whatever the NRIC |
| AuthController.RegisterRefusesTakenNric | backend/controllers/authController.js:25-27 | A free username with a taken NRIC gives 400 "NRIC already exists" with no cookie and an unchanged store |
| AuthController.RegisterAddsOneRecord | backend/controllers/authController.js:29-55 | A successful registration answers 201 "User registered successfully" with the token cookie for the username. The store gains exactly one key, the username, and grows by one. No existing row changes. The new row holds `hash(password, salt)` and every other field as given |
| AuthController.RegisterKeepsStoreConsistent | backend/controllers/authController.js:22-42 | If every row is stored under its own username and NRICs are unique, the same holds after `register` |
| AuthController.RegisterRequest | backend/controllers/authController.js:9-59 | On a body as it arrives: a body with all eight fields behaves exactly as `RegisterOutcome`. A body missing a field never changes the store and never sets a cookie; it gets 400 exactly when a present username is taken or a present NRIC is stored, and otherwise 500 "Server error", as bcrypt or the insertion fails. On any body, a taken username gives 400 "Username already exists", and otherwise a stored NRIC gives 400 "NRIC already exists", each with the store unchanged |
| AuthController.RegisterRequestKeepsStoreConsistent | backend/controllers/authController.js:9-59 | If every row is stored under its own username and NRICs are unique, the same holds after `register` on any body, whether the validator ran or not |
| AuthController.Register | backend/controllers/authController.js:9-59 | The handler sends a reply, and the reply and the new store are exactly `RegisterRequest` of the old store and the body |
| AuthController.LoginReply | backend/controllers/authController.js:62-82 | The status is 200 iff the username is stored and `compare` accepts the password against the stored hash. A 200 is exactly "Login successful" with one token cookie, signed for the stored row's username. Otherwise the status is 401 and no cookie is set |
| AuthController.LoginCookieNamesUser | backend/controllers/authController.js:72-81 | In a store whose rows are keyed by their own usernames, the token cookie of a successful login is signed for the username that was given |
| AuthController.LoginRefusesUnknownUser | backend/controllers/authController.js:65-66 | An unknown username gives 401 "Invalid username" and no cookie |
| AuthController.LoginRefusesWrongPassword | backend/controllers/authController.js:68-70 | A password that `compare` rejects gives 401 "Incorrect password" and no cookie |
| AuthController.RegisterThenLogin | backend/controllers/authController.js:62-82 | With a sound hasher, after a successful registration, login with the same username and password gives 200 "Login successful" and the token cookie for that username |
| AuthController.LoginRequest | backend/controllers/authController.js:62-87 | On the username and password as they arrive: both present behaves exactly as `LoginReply`. An absent or unknown username gives 401 "Invalid username". A stored username with an absent password gives 500 "Server error", as bcrypt's `compare` throws. No refusal sets a cookie |
| AuthController.Login | backend/controllers/authController.js:62-87 | The handler's reply is `LoginRequest` of the store. It has no write access to the store |
| AuthController.TokenCookieLifetime | backend/controllers/authController.js:44-53 | The cookie's maxAge is the token lifetime of one hour. With a sound signer, the token in the cookie verifies at every time up to the last second of the cookie's life, and is Expired once the cookie's maxAge has passed |
| AuthController.LogoutReply | backend/controllers/authController.js:89-96 | Logout answers 200 and clears `token` with httpOnly, sameSite Strict and `secure` iff production |
| AuthController.Logout | backend/controllers/authController.js:89-96 | The handler's reply is `LogoutReply`. It is given no store |
| AuthController.IsVerified | backend/controllers/authController.js:98-104 | Answers 200 with the JSON value `true` |
| Authorisation.Decide | backend/middleware/authorisation.js:4-15 | Access denied iff the `token` cookie is absent or empty. Invalid token iff it is present, non-empty and fails verification. Proceed only on a verifying token, with identity equal to its `user` claim |
| Authorisation.Refusal | backend/middleware/authorisation.js:6-13 | Access denied answers 401 "Access denied" and an invalid token answers 403 "Invalid token", each with no cookie |
| Authorisation.AuthenticateToken | backend/middleware/authorisation.js:4-15 | `next` is called iff the decision is Proceed. Then `req.user` is the token's user and nothing is sent. Otherwise `req.user` is untouched and the refusal is sent |
| Authorisation.SignedTokenPassesGate | backend/middleware/authorisation.js:8-11 | With a sound signer, a cookie holding a token signed for u passes the gate with identity u before the token's expiry, and gets 403 from then on |
| Authorisation.UndecodableTokenRefused | backend/middleware/authorisation.js:12-14 | A non-empty token that does not decode (malformed or wrongly signed) gets 403 "Invalid token" |
| UserController.Profile | backend/controllers/userController.js:9 | The projection has no `password` key. Its keys are all the row's other columns, each with its stored value |
| UserController.ProfileFields | backend/controllers/userController.js:9-10 | The profile is exactly username, nric, first_name, last_name, dob, address and gender with their stored values |
| UserController.GetUserReply | backend/controllers/userController.js:3-14 | 404 "User not found" iff no identity is attached or no row is stored under it; otherwise 200 with that row's profile. No reply has a `password` field |
| UserController.GetUser | backend/controllers/userController.js:3-14 | The handler's reply is `GetUserReply` of the store for `req.user`. It has no write access to the store |
| Routes.ValidatedRegisterRoute | backend/middleware/validation.js:13-37 | Registration as intended: 401 "Missing Input" for a missing or empty field, else 401 "Invalid NRIC", else 401 "Invalid Date of Birth", each with the store unchanged; a body passing all three is `RegisterOutcome` |
| Routes.RegisterRoute | backend/routes/authRoutes.js:6 | On path "/register" exactly, the reply and store are `ValidatedRegisterRoute`. On any other spelling the router accepts, they are `RegisterRequest`: the validator is skipped. A 201 needs all eight fields present |
| Routes.PostRegister | backend/routes/authRoutes.js:6 | The chain validation then `register` sends exactly the reply and store of `RegisterRoute` for `req.path` |
| Routes.ValidRegistrationStored | backend/middleware/validation.js:13-45 | A validated body with a new username and NRIC answers 201 with the token cookie and stores exactly the new row under its username |
| Routes.ValidatedLoginRoute | backend/middleware/validation.js:39-43 | Login as intended: a non-empty username and password give `LoginReply`; otherwise 401 "Missing Input" |
| Routes.LoginRoute | backend/routes/authRoutes.js:7 | On path "/login" exactly, the reply is `ValidatedLoginRoute`. On any other spelling, it is `LoginRequest`, unvalidated. No refusal sets a cookie |
| Routes.PostLogin | backend/routes/authRoutes.js:7 | The chain validation then `login` sends exactly `LoginRoute` of the store for `req.path` |
| Routes.TrailingSlashSkipsValidation | backend/middleware/validation.js:13 | A complete body with NRIC "1234567X" is refused "Invalid NRIC" on "/register", but is stored with 201 on "/register/" and on "/REGISTER" |
| Routes.EmptyPasswordAccepted | backend/middleware/validation.js:39 | With a sound hasher, an account with an empty password is created through "/register/" and logged into through "/login/" with 200, while the validated login refuses it with "Missing Input" |
| Routes.IsVerifiedRoute | backend/routes/authRoutes.js:9 | When the gate lets the request through, exactly 200 `true` with no cookie; otherwise exactly the gate's refusal (401 or 403). 200 iff the gate lets it through |
| Routes.GetIsVerified | backend/routes/authRoutes.js:9 | The chain gate then `isVerified` sends exactly `IsVerifiedRoute` |
| Routes.DashboardRoute | backend/routes/userRoutes.js:7 | When the gate lets the request through, exactly `GetUserReply` for the token's user; otherwise exactly the gate's refusal (so 200 only through the gate). No reply has a `password` field |
| Routes.GetDashboard | backend/routes/userRoutes.js:7 | The chain gate then `getUser` sends exactly `DashboardRoute` of the store |
| Routes.RegisterLoginProfileLogout | backend/routes/authRoutes.js:6-9 | With sound collaborators, one whole session: valid registration gives 201; login with the same credentials gives 200 and the token cookie; that token before expiry gives the profile, with the registered first name and no password; an emptied cookie gives 401 "Access denied" |

## Findings

| source | as written | input that shows it | evidently intended | confidence | as-written member | corrected member |
|---|---|---|---|---|---|---|
| backend/middleware/validation.js:13 | `req.path === "/register"`, while the router also sends "/register/" and "/REGISTER" to this chain | POST /auth/register/ with a complete body and NRIC "1234567X" | every request routed to `register` is validated | not executed; high that the bypass exists, given Express's default routing | Routes.TrailingSlashSkipsValidation | Routes.ValidatedRegisterRoute |
| backend/middleware/validation.js:39 | `req.path === "/login"`, with the same routing | register with password "" via "/register/", then POST /auth/login/ with the same empty password | empty credentials are refused with "Missing Input" | not executed; high, as above | Routes.EmptyPasswordAccepted | Routes.ValidatedLoginRoute |

## Left out

- The 500 "Server error" branches are modelled only where a field is absent: bcrypt
  throws on an undefined password, and the insertion of a NULL column is taken to fail.
  Other failures of the database and the crypto libraries are not modelled: the store
  and collaborators are total functions, and the error text in the 500 body is left out.
- PostRegister: reaching `register` without the validator, a body with every field
  present but some empty (such as an empty password) is stored. Whether the table's own
  constraints would refuse an empty or NULL column is not part of this model; the NULL
  case is modelled as a 500.
- PostLogin: reaching `login` without the validator, an absent password is modelled as
  bcrypt throwing, a 500.
- SQL, the connection pool and the table schema are not modelled. The store is a map
  keyed by username, and a row has exactly the eight inserted columns. Any other column
  the table might have (an id, say) is not part of this model. So are the database's own
  uniqueness constraints: the map update in `CreateUser` is only reached after
  `register`'s own checks. Column types are not modelled either: every column is a
  string, so `dob` is read back exactly as it was registered, whereas a date column
  would come back from PostgreSQL as a Date and reach the client as an ISO timestamp.
- bcrypt's salt generation is randomness, so the salt is a parameter. The cost factor 10,
  the digest format and constant-time comparison are not modelled.
- AuthController.RegisterAddsOneRecord: shows that the stored password is
  `hash(password, salt)`, but not that it differs from the plaintext. That would need a
  property of bcrypt's output format that an abstract hasher does not have.
- AuthController.RegisterThenLogin: shows that the right password is accepted, not that
  every other password is refused. That would need collision resistance of the hash.
- jsonwebtoken's header, base64url encoding and HMAC are inside the abstract `Signer`.
  Malformed tokens and bad signatures are the two `decode` errors.
- Tokens without an `exp` claim are not modelled. Every token this backend signs has
  one, and `Claims` always carries it.
- The secret from `process.env.JWT_SECRET` and the rest of the environment are not
  modelled. Only `NODE_ENV === "production"` appears, as `Config.production`.
- JavaScript date parsing (`new Date(dob)`) is the parameter `parseDate`, and the clock
  is the parameter `now`.
- Body fields that are JSON values other than strings, such as numbers or booleans, are
  not modelled. A field is either absent (or null) or a string.
- Express wiring, CORS, cookie-parser and the listening server are not modelled, except
  for the order in which the two routers chain their handlers. A response sent twice is
  not modelled either: every handler sends at most once.
- What the browser does with cookies is not modelled. The end-to-end lemma presents the
  cookie value explicitly, and after logout presents it as the empty value that
  `clearCookie` sets.
- Concurrent double registration is not modelled, and there is no token revocation
  list, since neither exists in the code. A token copied before logout stays valid until
  it expires.
- The frontend is not part of this model.
