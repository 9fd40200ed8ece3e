/**
 * `register`, `login`, `logout` and `isVerified`. Each handler writes its reply
 * into the response object; `register` also inserts into the store. What each
 * handler produces is first given as a function of the store's contents (the
 * *Outcome and *Reply functions), the properties are lemmas about those
 * functions, and the handler methods are proved to do what the functions say.
 */
module AuthController {
  import opened Wrappers
  import opened Http
  import opened Bcrypt
  import opened Jwt
  import opened UserModel

  /** The collaborators and the one environment flag the controllers consult. */
  datatype Config = Config(
    hasher: Hasher,    // bcrypt
    signer: Signer,    // jsonwebtoken with JWT_SECRET
    production: bool)  // process.env.NODE_ENV === "production"

  /** `maxAge: 60 * 60 * 1000`, one hour in milliseconds. */
  const MaxAgeMs := 60 * 60 * 1000

  function TokenCookieOptions(production: bool): CookieOptions {
    CookieOptions(httpOnly := true, secure := production, sameSite := "Strict", maxAge := Some(MaxAgeMs))
  }

  /** The `token` cookie that register and login set for `user` at time `now`. */
  function TokenCookie(cfg: Config, user: string, now: int): CookieHeader {
    SetCookie("token", Sign(cfg.signer, user, now), TokenCookieOptions(cfg.production))
  }

  /** The eight fields `register` destructures from a validated body. */
  datatype Registration = Registration(
    username: string,
    password: string,
    nric: string,
    first_name: string,
    last_name: string,
    dob: string,
    address: string,
    gender: string)

  /** The row `register` inserts: the registration with the password replaced by its hash. */
  function NewRecord(cfg: Config, reg: Registration, salt: Salt): User {
    User(reg.username, cfg.hasher.hash(reg.password, salt), reg.nric, reg.first_name,
         reg.last_name, reg.dob, reg.address, reg.gender)
  }

  function MessageReply(status: int, text: string): Reply {
    Reply(status, Message(text), [])
  }

  // ---------------------------------------------------------------------------
  // register
  // ---------------------------------------------------------------------------

  /**
   * The reply and the new store contents of `register`: the username check,
   * then the NRIC check, then one insertion and the token cookie.
   */
  function RegisterOutcome(users: map<string, User>, cfg: Config, reg: Registration, salt: Salt, now: int)
    : (o: (Reply, map<string, User>))
    ensures o.1 == users || o.1 == users[reg.username := NewRecord(cfg, reg, salt)]
    ensures o.0.status == 201 <==> reg.username !in users && !NricTaken(users, reg.nric)
  {
    if reg.username in users then
      (MessageReply(400, "Username already exists"), users)
    else if NricTaken(users, reg.nric) then
      (MessageReply(400, "NRIC already exists"), users)
    else
      var row := NewRecord(cfg, reg, salt);
      (Reply(201, Message("User registered successfully"), [TokenCookie(cfg, row.username, now)]),
       users[reg.username := row])
  }

  /** A taken username is refused with 400 before anything else is looked at, and nothing is stored. */
  lemma RegisterRefusesTakenUsername(users: map<string, User>, cfg: Config, reg: Registration, salt: Salt, now: int)
    requires reg.username in users
    ensures RegisterOutcome(users, cfg, reg, salt, now) == (MessageReply(400, "Username already exists"), users)
  {
  }

  /** A fresh username with a taken NRIC is refused with 400, and nothing is stored. */
  lemma RegisterRefusesTakenNric(users: map<string, User>, cfg: Config, reg: Registration, salt: Salt, now: int)
    requires reg.username !in users
    requires exists name :: name in users && users[name].nric == reg.nric
    ensures RegisterOutcome(users, cfg, reg, salt, now) == (MessageReply(400, "NRIC already exists"), users)
  {
  }

  /**
   * A successful registration answers 201, sets the token cookie for the new
   * username, and adds exactly one row, keyed by the username, holding the hash
   * of the password and every other field as given; no other row changes.
   */
  lemma {:induction false} RegisterAddsOneRecord(users: map<string, User>, cfg: Config, reg: Registration, salt: Salt, now: int)
    requires RegisterOutcome(users, cfg, reg, salt, now).0.status == 201
    ensures var (reply, users') := RegisterOutcome(users, cfg, reg, salt, now);
      && reply == Reply(201, Message("User registered successfully"), [TokenCookie(cfg, reg.username, now)])
      && users'.Keys == users.Keys + {reg.username}
      && |users'| == |users| + 1
      && (forall name :: name in users ==> users'[name] == users[name])
      && var row := users'[reg.username];
         && row.password == cfg.hasher.hash(reg.password, salt)
         && row.username == reg.username && row.nric == reg.nric
         && row.first_name == reg.first_name && row.last_name == reg.last_name
         && row.dob == reg.dob && row.address == reg.address && row.gender == reg.gender
  {
    var users' := RegisterOutcome(users, cfg, reg, salt, now).1;
    assert reg.username !in users;
    assert users' == users[reg.username := NewRecord(cfg, reg, salt)];
    assert users'.Keys == users.Keys + {reg.username};
    assert |users'.Keys| == |users.Keys| + 1;
  }

  /** Registration keeps the store's uniqueness of usernames and NRICs. */
  lemma {:induction false} RegisterKeepsStoreConsistent(users: map<string, User>, cfg: Config, reg: Registration, salt: Salt, now: int)
    requires Consistent(users)
    ensures Consistent(RegisterOutcome(users, cfg, reg, salt, now).1)
  {
    var users' := RegisterOutcome(users, cfg, reg, salt, now).1;
    if users' != users {
      assert reg.username !in users && !NricTaken(users, reg.nric);
      forall a, b | a in users' && b in users' && users'[a].nric == users'[b].nric
        ensures a == b
      {
        if a != reg.username && b != reg.username {
          assert users'[a] == users[a] && users'[b] == users[b];
        }
      }
    }
  }

  /** Every field of the body is present (neither undefined nor null); empty strings count as present. */
  predicate AllPresent(b: Body) {
    && b.username.Some? && b.password.Some? && b.nric.Some? && b.first_name.Some?
    && b.last_name.Some? && b.dob.Some? && b.address.Some? && b.gender.Some?
  }

  /** The fields `register` destructures from a body that has them all. */
  function RegistrationOf(b: Body): Registration
    requires AllPresent(b)
  {
    Registration(b.username.value, b.password.value, b.nric.value, b.first_name.value,
                 b.last_name.value, b.dob.value, b.address.value, b.gender.value)
  }

  /** The reply of the `catch` branch; the error text is not modelled. */
  function ServerError(): Reply {
    MessageReply(500, "Server error")
  }

  /**
   * `register` on a request body as it arrives, whether or not the validator
   * looked at it. An absent username or NRIC matches no row (`= NULL` is never
   * true in SQL). A body with every field present behaves as RegisterOutcome.
   * Otherwise, once both checks pass, bcrypt or the insertion fails and the
   * handler answers 500 with the store unchanged.
   */
  function RegisterRequest(users: map<string, User>, cfg: Config, body: Body, salt: Salt, now: int)
    : (o: (Reply, map<string, User>))
    ensures AllPresent(body) ==> o == RegisterOutcome(users, cfg, RegistrationOf(body), salt, now)
    ensures !AllPresent(body) ==> o.1 == users && o.0.cookies == [] && o.0.status in {400, 500}
    ensures !AllPresent(body) ==>
              (o.0.status == 400 <==>
                 (body.username.Some? && body.username.value in users)
                 || (body.nric.Some? && NricTaken(users, body.nric.value)))
    ensures body.username.Some? && body.username.value in users ==> o == (MessageReply(400, "Username already exists"), users)
    ensures !(body.username.Some? && body.username.value in users) && body.nric.Some? && NricTaken(users, body.nric.value) ==>
              o == (MessageReply(400, "NRIC already exists"), users)
    ensures !AllPresent(body) && o.0.status == 500 ==> o == (ServerError(), users)
  {
    if body.username.Some? && body.username.value in users then
      (MessageReply(400, "Username already exists"), users)
    else if body.nric.Some? && NricTaken(users, body.nric.value) then
      (MessageReply(400, "NRIC already exists"), users)
    else if !AllPresent(body) then
      (ServerError(), users)
    else
      RegisterOutcome(users, cfg, RegistrationOf(body), salt, now)
  }

  /** `register` keeps the store invariant on every body, validated or not. */
  lemma RegisterRequestKeepsStoreConsistent(users: map<string, User>, cfg: Config, body: Body, salt: Salt, now: int)
    requires Consistent(users)
    ensures Consistent(RegisterRequest(users, cfg, body, salt, now).1)
  {
    if AllPresent(body) {
      RegisterKeepsStoreConsistent(users, cfg, RegistrationOf(body), salt, now);
    }
  }

  /** `register` as the handler runs it against the store. */
  method Register(store: UserStore, res: Response, cfg: Config, body: Body, salt: Salt, now: int)
    requires res.Unsent()
    modifies store, res
    ensures res.Sent().Some?
    ensures (res.Sent().value, store.users) == RegisterRequest(old(store.users), cfg, body, salt, now)
  {
    var existingUser := if body.username.Some? then GetUserByUsername(store.users, body.username.value) else None;
    if existingUser.Some? {
      res.Status(400);
      res.SendJson(Message("Username already exists"));
      return;
    }
    var existingNric: Option<User> := None;
    if body.nric.Some? {
      existingNric := store.GetUserByNric(body.nric.value);
    }
    if existingNric.Some? {
      res.Status(400);
      res.SendJson(Message("NRIC already exists"));
      return;
    }
    if !AllPresent(body) {
      // bcrypt.hash throws on an undefined password, and the insertion of a NULL column fails
      res.Status(500);
      res.SendJson(Message("Server error"));
      return;
    }
    var reg := RegistrationOf(body);
    var hashed := cfg.hasher.hash(reg.password, salt);
    var newUser := store.CreateUser(reg.username, hashed, reg.nric, reg.first_name,
                                    reg.last_name, reg.dob, reg.address, reg.gender);
    var token := Sign(cfg.signer, newUser.username, now);
    res.Cookie("token", token, TokenCookieOptions(cfg.production));
    res.Status(201);
    res.SendJson(Message("User registered successfully"));
    assert res.cookies == [TokenCookie(cfg, newUser.username, now)];
  }

  // ---------------------------------------------------------------------------
  // login
  // ---------------------------------------------------------------------------

  /** The reply of `login`: unknown username, wrong password, or 200 with the token cookie. */
  function LoginReply(users: map<string, User>, cfg: Config, username: string, password: string, now: int)
    : (r: Reply)
    ensures r.status == 200 <==> username in users && cfg.hasher.compare(password, users[username].password)
    ensures r.status != 200 ==> r.status == 401 && r.cookies == []
    ensures r.status == 200 ==>
              r == Reply(200, Message("Login successful"), [TokenCookie(cfg, users[username].username, now)])
  {
    match GetUserByUsername(users, username)
    case None => MessageReply(401, "Invalid username")
    case Some(user) =>
      if !cfg.hasher.compare(password, user.password) then MessageReply(401, "Incorrect password")
      else Reply(200, Message("Login successful"), [TokenCookie(cfg, user.username, now)])
  }

  /** An unknown username is answered 401 "Invalid username", with no cookie. */
  lemma LoginRefusesUnknownUser(users: map<string, User>, cfg: Config, username: string, password: string, now: int)
    requires username !in users
    ensures LoginReply(users, cfg, username, password, now) == MessageReply(401, "Invalid username")
  {
  }

  /** A password the stored hash does not accept is answered 401 "Incorrect password", with no cookie. */
  lemma LoginRefusesWrongPassword(users: map<string, User>, cfg: Config, username: string, password: string, now: int)
    requires username in users && !cfg.hasher.compare(password, users[username].password)
    ensures LoginReply(users, cfg, username, password, now) == MessageReply(401, "Incorrect password")
  {
  }

  /**
   * After a successful registration, logging in with the same username and
   * password succeeds, and the token cookie names that username.
   */
  lemma {:induction false} RegisterThenLogin(users: map<string, User>, cfg: Config, reg: Registration, salt: Salt,
                                             registeredAt: int, now: int)
    requires cfg.hasher.Sound()
    requires RegisterOutcome(users, cfg, reg, salt, registeredAt).0.status == 201
    ensures var users' := RegisterOutcome(users, cfg, reg, salt, registeredAt).1;
      LoginReply(users', cfg, reg.username, reg.password, now)
        == Reply(200, Message("Login successful"), [TokenCookie(cfg, reg.username, now)])
  {
    RegisterAddsOneRecord(users, cfg, reg, salt, registeredAt);
    var users' := RegisterOutcome(users, cfg, reg, salt, registeredAt).1;
    var row := users'[reg.username];
    assert row.password == cfg.hasher.hash(reg.password, salt);
    assert cfg.hasher.compare(reg.password, cfg.hasher.hash(reg.password, salt));
  }

  /** In a consistent store, the token cookie of a successful login names the username given. */
  lemma LoginCookieNamesUser(users: map<string, User>, cfg: Config, username: string, password: string, now: int)
    requires Consistent(users)
    requires LoginReply(users, cfg, username, password, now).status == 200
    ensures LoginReply(users, cfg, username, password, now)
              == Reply(200, Message("Login successful"), [TokenCookie(cfg, username, now)])
  {
  }

  /**
   * `login` on the username and password as they arrive. An absent username
   * matches no row; an absent password makes bcrypt's `compare` throw, which
   * the handler answers with 500. Present fields behave as LoginReply.
   */
  function LoginRequest(users: map<string, User>, cfg: Config, username: Option<string>, password: Option<string>,
                        now: int): (r: Reply)
    ensures username.Some? && password.Some? ==> r == LoginReply(users, cfg, username.value, password.value, now)
    ensures username.None? || username.value !in users ==> r == MessageReply(401, "Invalid username")
    ensures username.Some? && username.value in users && password.None? ==> r == ServerError()
    ensures r.status != 200 ==> r.cookies == []
  {
    match username
    case None => MessageReply(401, "Invalid username")
    case Some(name) =>
      if name !in users then MessageReply(401, "Invalid username")
      else if password.None? then ServerError()
      else LoginReply(users, cfg, name, password.value, now)
  }

  /** `login` as the handler runs it; it only reads the store. */
  method Login(store: UserStore, res: Response, cfg: Config, username: Option<string>, password: Option<string>,
               now: int)
    requires res.Unsent()
    modifies res
    ensures res.Sent() == Some(LoginRequest(store.users, cfg, username, password, now))
  {
    var user := if username.Some? then GetUserByUsername(store.users, username.value) else None;
    if user.None? {
      res.Status(401);
      res.SendJson(Message("Invalid username"));
      return;
    }
    if password.None? {
      res.Status(500);
      res.SendJson(Message("Server error"));
      return;
    }
    var isMatch := cfg.hasher.compare(password.value, user.value.password);
    if !isMatch {
      res.Status(401);
      res.SendJson(Message("Incorrect password"));
      return;
    }
    var token := Sign(cfg.signer, user.value.username, now);
    res.Cookie("token", token, TokenCookieOptions(cfg.production));
    res.SendJson(Message("Login successful"));
    assert res.status == 200;
    assert res.cookies == [TokenCookie(cfg, user.value.username, now)];
  }

  // ---------------------------------------------------------------------------
  // logout and isVerified
  // ---------------------------------------------------------------------------

  /** The reply of `logout`: 200 and the `token` cookie cleared with the issuing flags. */
  function LogoutReply(cfg: Config): (r: Reply)
    ensures r.status == 200
    ensures r.cookies == [ClearCookie("token", CookieOptions(true, cfg.production, "Strict", None))]
  {
    Reply(200, Message("Logged out successfully"),
          [ClearCookie("token", CookieOptions(httpOnly := true, secure := cfg.production, sameSite := "Strict", maxAge := None))])
  }

  /** `logout` only writes the response. */
  method Logout(res: Response, cfg: Config)
    requires res.Unsent()
    modifies res
    ensures res.Sent() == Some(LogoutReply(cfg))
  {
    res.ClearCookie("token", CookieOptions(httpOnly := true, secure := cfg.production, sameSite := "Strict", maxAge := None));
    res.SendJson(Message("Logged out successfully"));
    assert res.cookies == LogoutReply(cfg).cookies;
  }

  /** `isVerified` answers 200 with `true`; the gate in front of it does the work. */
  method IsVerified(res: Response)
    requires res.Unsent()
    modifies res
    ensures res.Sent() == Some(Reply(200, Bool(true), []))
  {
    res.SendJson(Bool(true));
  }

  /**
   * The token cookie lives for the token's one-hour lifetime. Because the
   * token's expiry is rounded down to a whole second (Jwt.ExpiryWithinTheHour),
   * the token it carries verifies for all but at most the last second of the
   * cookie's life, and is expired once the cookie is gone.
   */
  lemma TokenCookieLifetime(cfg: Config, user: string, now: int)
    requires cfg.signer.Sound()
    ensures TokenCookie(cfg, user, now).options.maxAge == Some(LifetimeSeconds * 1000)
    ensures forall at :: now <= at < now + MaxAgeMs - 1000 ==>
              Verify(cfg.signer, TokenCookie(cfg, user, now).value, at) == Ok(Issue(user, now))
    ensures forall at :: at >= now + MaxAgeMs ==>
              Verify(cfg.signer, TokenCookie(cfg, user, now).value, at) == Err(Expired)
  {
    ExpiryWithinTheHour(now);
    forall at | now <= at < now + MaxAgeMs - 1000 || at >= now + MaxAgeMs
      ensures now <= at < now + MaxAgeMs - 1000 ==> Verify(cfg.signer, TokenCookie(cfg, user, now).value, at) == Ok(Issue(user, now))
      ensures at >= now + MaxAgeMs ==> Verify(cfg.signer, TokenCookie(cfg, user, now).value, at) == Err(Expired)
    {
      SignedTokenVerifiesUntilExpiry(cfg.signer, user, now, at);
    }
  }
}
