/**
 * How the routers chain the handlers: POST /auth/register and /auth/login run
 * the validator and then the controller, POST /auth/logout runs `logout` alone,
 * GET /auth/is-verified and GET /dashboard run the access gate and then
 * `isVerified` or `getUser`. A handler further down the chain runs only when the
 * one before it calls `next()`.
 */
module Routes {
  import opened Wrappers
  import opened Http
  import opened Bcrypt
  import opened Jwt
  import opened UserModel
  import opened Validation
  import opened AuthController
  import opened Authorisation
  import opened UserController

  /** Two characters are equal once ASCII letters are folded to one case. */
  predicate SameIgnoringCase(a: char, b: char) {
    || a == b
    || ('a' <= a <= 'z' && b as int == a as int - 32)
    || ('A' <= a <= 'Z' && b as int == a as int + 32)
  }

  predicate EqualIgnoringCase(s: string, t: string) {
    |s| == |t| && forall i :: 0 <= i < |s| ==> SameIgnoringCase(s[i], t[i])
  }

  /**
   * The paths Express's router sends to a route declared as `route` with its
   * default options: matched case-insensitively, with one optional trailing
   * slash. The handlers then see `req.path` exactly as the client wrote it.
   */
  predicate RouteMatches(route: string, path: string) {
    EqualIgnoringCase(path, route) || EqualIgnoringCase(path, route + "/")
  }

  /**
   * POST /auth/register as intended: the validator's "/register" checks, then
   * `register`. Missing input, then the NRIC, then the date of birth decide a
   * refusal, which answers 401 and leaves the store as it was.
   */
  function ValidatedRegisterRoute(users: map<string, User>, cfg: Config, body: Body, salt: Salt, now: int,
                                  parseDate: string -> Option<int>): (o: (Reply, map<string, User>))
    ensures !RegisterComplete(body) ==> o == (MessageReply(401, "Missing Input"), users)
    ensures RegisterComplete(body) && !IsNric(body.nric.value) ==> o == (MessageReply(401, "Invalid NRIC"), users)
    ensures RegisterComplete(body) && IsNric(body.nric.value) && DobInFuture(body.dob.value, now, parseDate) ==>
              o == (MessageReply(401, "Invalid Date of Birth"), users)
    ensures RegisterComplete(body) && IsNric(body.nric.value) && !DobInFuture(body.dob.value, now, parseDate) ==>
              o == RegisterOutcome(users, cfg, RegistrationOf(body), salt, now)
  {
    match Validate("/register", body, now, parseDate)
    case Reject(code, text) => (MessageReply(code, text), users)
    case Next => RegisterRequest(users, cfg, body, salt, now)
  }

  /**
   * POST /auth/register as the code runs it. The validator compares `req.path`
   * with "/register" exactly, so only that spelling is validated; any other
   * spelling the router accepts reaches `register` unchecked.
   */
  function RegisterRoute(users: map<string, User>, cfg: Config, path: string, body: Body, salt: Salt, now: int,
                         parseDate: string -> Option<int>): (o: (Reply, map<string, User>))
    requires RouteMatches("/register", path)
    ensures path == "/register" ==> o == ValidatedRegisterRoute(users, cfg, body, salt, now, parseDate)
    ensures path != "/register" ==> o == RegisterRequest(users, cfg, body, salt, now)
    ensures o.0.status == 201 ==> AllPresent(body)
  {
    match Validate(path, body, now, parseDate)
    case Reject(code, text) => (MessageReply(code, text), users)
    case Next => RegisterRequest(users, cfg, body, salt, now)
  }

  method PostRegister(store: UserStore, req: Request, res: Response, cfg: Config, salt: Salt, now: int,
                      parseDate: string -> Option<int>)
    requires RouteMatches("/register", req.path) && res.Unsent()
    modifies store, res
    ensures res.Sent().Some?
    ensures (res.Sent().value, store.users) == RegisterRoute(old(store.users), cfg, req.path, req.body, salt, now, parseDate)
  {
    var verdict := Validate(req.path, req.body, now, parseDate);
    if verdict.Reject? {
      res.Status(verdict.status);
      res.SendJson(Message(verdict.message));
      return;
    }
    Register(store, res, cfg, req.body, salt, now);
  }

  /** POST /auth/login as intended: both credentials present and non-empty, then `login`. */
  function ValidatedLoginRoute(users: map<string, User>, cfg: Config, body: Body, now: int,
                               parseDate: string -> Option<int>): (r: Reply)
    ensures Truthy(body.username) && Truthy(body.password) ==>
              r == LoginReply(users, cfg, body.username.value, body.password.value, now)
    ensures !(Truthy(body.username) && Truthy(body.password)) ==> r == MessageReply(401, "Missing Input")
  {
    match Validate("/login", body, now, parseDate)
    case Reject(code, text) => MessageReply(code, text)
    case Next => LoginRequest(users, cfg, body.username, body.password, now)
  }

  /** POST /auth/login as the code runs it; as for registration, only "/login" itself is validated. */
  function LoginRoute(users: map<string, User>, cfg: Config, path: string, body: Body, now: int,
                      parseDate: string -> Option<int>): (r: Reply)
    requires RouteMatches("/login", path)
    ensures path == "/login" ==> r == ValidatedLoginRoute(users, cfg, body, now, parseDate)
    ensures path != "/login" ==> r == LoginRequest(users, cfg, body.username, body.password, now)
    ensures r.status != 200 ==> r.cookies == []
  {
    match Validate(path, body, now, parseDate)
    case Reject(code, text) => MessageReply(code, text)
    case Next => LoginRequest(users, cfg, body.username, body.password, now)
  }

  method PostLogin(store: UserStore, req: Request, res: Response, cfg: Config, now: int,
                   parseDate: string -> Option<int>)
    requires RouteMatches("/login", req.path) && res.Unsent()
    modifies res
    ensures res.Sent() == Some(LoginRoute(store.users, cfg, req.path, req.body, now, parseDate))
  {
    var verdict := Validate(req.path, req.body, now, parseDate);
    if verdict.Reject? {
      res.Status(verdict.status);
      res.SendJson(Message(verdict.message));
      return;
    }
    Login(store, res, cfg, req.body.username, req.body.password, now);
  }

  /** A complete body whose NRIC breaks the pattern, used by the findings below. */
  const BadNricBody := Body(Some("alice"), Some("secret"), Some("1234567X"), Some("Alice"), Some("Tan"),
                            Some("2000-01-01"), Some("1 Main Road"), Some("F"))

  /**
   * Registering through "/register/" or "/REGISTER" skips the validator: a
   * body with an invalid NRIC, refused on "/register", is stored.
   */
  lemma TrailingSlashSkipsValidation(cfg: Config, salt: Salt, now: int, parseDate: string -> Option<int>)
    ensures ValidatedRegisterRoute(map[], cfg, BadNricBody, salt, now, parseDate) == (MessageReply(401, "Invalid NRIC"), map[])
    ensures RegisterRoute(map[], cfg, "/register/", BadNricBody, salt, now, parseDate).0.status == 201
    ensures RegisterRoute(map[], cfg, "/REGISTER", BadNricBody, salt, now, parseDate).0.status == 201
  {
    assert !IsNric(BadNricBody.nric.value) by { assert BadNricBody.nric.value[0] == '1'; }
    assert RouteMatches("/register", "/register/");
    assert RouteMatches("/register", "/REGISTER");
  }

  /**
   * With the validator skipped on both routes, an account with an empty
   * password can be created and then logged into with that empty password;
   * the validated login refuses the same credentials.
   */
  lemma EmptyPasswordAccepted(cfg: Config, salt: Salt, registeredAt: int, loggedInAt: int,
                              parseDate: string -> Option<int>)
    requires cfg.hasher.Sound()
    ensures var body := Body(Some("bob"), Some(""), Some("S1234567A"), Some("Bob"), Some("Lim"),
                             Some("1990-05-05"), Some("2 Side Street"), Some("M"));
      var login := Body(Some("bob"), Some(""), None, None, None, None, None, None);
      var o := RegisterRoute(map[], cfg, "/register/", body, salt, registeredAt, parseDate);
      && o.0.status == 201
      && LoginRoute(o.1, cfg, "/login/", login, loggedInAt, parseDate).status == 200
      && ValidatedLoginRoute(o.1, cfg, login, loggedInAt, parseDate) == MessageReply(401, "Missing Input")
  {
    var body := Body(Some("bob"), Some(""), Some("S1234567A"), Some("Bob"), Some("Lim"),
                     Some("1990-05-05"), Some("2 Side Street"), Some("M"));
    assert RouteMatches("/register", "/register/");
    assert RouteMatches("/login", "/login/");
    var reg := RegistrationOf(body);
    RegisterThenLogin(map[], cfg, reg, salt, registeredAt, loggedInAt);
  }

  /** GET /auth/is-verified: 200 `true` exactly when the gate lets the request through. */
  function IsVerifiedRoute(signer: Signer, cookies: map<string, string>, now: int): (r: Reply)
    ensures Decide(signer, cookies, now).Proceed? ==> r == Reply(200, Bool(true), [])
    ensures !Decide(signer, cookies, now).Proceed? ==> r == Refusal(Decide(signer, cookies, now))
    ensures r.status == 200 <==> Decide(signer, cookies, now).Proceed?
  {
    match Decide(signer, cookies, now)
    case Proceed(_) => Reply(200, Bool(true), [])
    case d => Refusal(d)
  }

  method GetIsVerified(req: Request, res: Response, cfg: Config, now: int)
    requires res.Unsent()
    modifies req`user, res
    ensures res.Sent() == Some(IsVerifiedRoute(cfg.signer, req.cookies, now))
  {
    var next := AuthenticateToken(cfg.signer, req, res, now);
    if next {
      IsVerified(res);
    }
  }

  /** GET /dashboard: the gate, then the profile of the identity it attached. */
  function DashboardRoute(users: map<string, User>, signer: Signer, cookies: map<string, string>, now: int)
    : (r: Reply)
    ensures Decide(signer, cookies, now).Proceed? ==> r == GetUserReply(users, Some(Decide(signer, cookies, now).user))
    ensures !Decide(signer, cookies, now).Proceed? ==> r == Refusal(Decide(signer, cookies, now))
    ensures r.body.Object? ==> "password" !in r.body.fields
  {
    match Decide(signer, cookies, now)
    case Proceed(user) => GetUserReply(users, Some(user))
    case d => Refusal(d)
  }

  method GetDashboard(store: UserStore, req: Request, res: Response, cfg: Config, now: int)
    requires res.Unsent()
    modifies req`user, res
    ensures res.Sent() == Some(DashboardRoute(store.users, cfg.signer, req.cookies, now))
  {
    var next := AuthenticateToken(cfg.signer, req, res, now);
    if next {
      GetUser(store, req, res);
    }
  }

  /**
   * A body the validator accepts, with a new username and a new NRIC, is
   * answered 201 and stored as exactly one new row under its username.
   */
  lemma ValidRegistrationStored(users: map<string, User>, cfg: Config, body: Body, salt: Salt, now: int,
                                parseDate: string -> Option<int>)
    requires Validate("/register", body, now, parseDate) == Next
    requires body.username.value !in users && !NricTaken(users, body.nric.value)
    ensures RegisterComplete(body)
    ensures ValidatedRegisterRoute(users, cfg, body, salt, now, parseDate)
      == (Reply(201, Message("User registered successfully"), [TokenCookie(cfg, body.username.value, now)]),
          users[body.username.value := NewRecord(cfg, RegistrationOf(body), salt)])
  {
  }

  /**
   * The whole session: a valid registration of a new username and NRIC is
   * answered 201; logging in with the same credentials is answered 200 with
   * the token cookie; presenting that token before it expires gives the
   * profile, with the registered first name and no password; and once logout
   * has emptied the cookie, the dashboard answers 401.
   */
  lemma {:induction false} RegisterLoginProfileLogout(
    users: map<string, User>, cfg: Config, body: Body, salt: Salt, parseDate: string -> Option<int>,
    registeredAt: int, loggedInAt: int, readAt: int)
    requires cfg.hasher.Sound() && cfg.signer.Sound()
    requires Validate("/register", body, registeredAt, parseDate) == Next
    requires body.username.value !in users && !NricTaken(users, body.nric.value)
    requires readAt < ExpiresAt(loggedInAt)
    ensures ValidatedRegisterRoute(users, cfg, body, salt, registeredAt, parseDate).0.status == 201
    ensures var users' := ValidatedRegisterRoute(users, cfg, body, salt, registeredAt, parseDate).1;
      var login := Body(body.username, body.password, None, None, None, None, None, None);
      var username := body.username.value;
      var profile := DashboardRoute(users', cfg.signer, map["token" := Sign(cfg.signer, username, loggedInAt)], readAt);
      && ValidatedLoginRoute(users', cfg, login, loggedInAt, parseDate)
           == Reply(200, Message("Login successful"), [TokenCookie(cfg, username, loggedInAt)])
      && profile.status == 200
      && profile.body.Object?
      && "password" !in profile.body.fields
      && profile.body.fields["first_name"] == body.first_name.value
      && DashboardRoute(users', cfg.signer, map["token" := ""], readAt) == Reply(401, Message("Access denied"), [])
  {
    ValidRegistrationStored(users, cfg, body, salt, registeredAt, parseDate);
    var reg := RegistrationOf(body);
    var username := body.username.value;
    var row := NewRecord(cfg, reg, salt);
    var users' := users[username := row];
    assert ValidatedRegisterRoute(users, cfg, body, salt, registeredAt, parseDate).1 == users';

    // login
    assert RegisterOutcome(users, cfg, reg, salt, registeredAt) == ValidatedRegisterRoute(users, cfg, body, salt, registeredAt, parseDate);
    RegisterThenLogin(users, cfg, reg, salt, registeredAt, loggedInAt);
    var login := Body(body.username, body.password, None, None, None, None, None, None);

    // the dashboard with the login cookie
    var token := Sign(cfg.signer, username, loggedInAt);
    SignedTokenPassesGate(cfg.signer, username, loggedInAt, readAt);
    assert Decide(cfg.signer, map["token" := token], readAt) == Proceed(username);
    assert GetUserReply(users', Some(username)) == Reply(200, Object(Profile(row)), []);
    ProfileFields(row);

    // the dashboard once the cookie is cleared
    assert Decide(cfg.signer, map["token" := ""], readAt) == AccessDenied;
  }
}
