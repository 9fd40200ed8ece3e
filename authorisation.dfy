/**
 * `authenticateToken`: the access gate in front of `isVerified` and `getUser`.
 * The decision is a function of the cookies, the signer and the time; on
 * success the gate records the token's `user` claim in `req.user` and lets
 * the next handler run.
 */
module Authorisation {
  import opened Wrappers
  import opened Http
  import opened Jwt

  datatype Decision =
    | AccessDenied          // no token cookie: 401
    | InvalidToken          // the token does not verify: 403
    | Proceed(user: string) // the token verifies: req.user := user; next()

  /** The gate's decision on the request's cookies at time `now`. */
  function Decide(signer: Signer, cookies: map<string, string>, now: int): (d: Decision)
    ensures d == AccessDenied <==> "token" !in cookies || cookies["token"] == ""
    ensures d == InvalidToken <==> "token" in cookies && cookies["token"] != "" && Verify(signer, cookies["token"], now).Err?
    ensures d.Proceed? ==>
              && "token" in cookies && Verify(signer, cookies["token"], now).Ok?
              && d.user == Verify(signer, cookies["token"], now).value.user
  {
    if "token" !in cookies || cookies["token"] == "" then AccessDenied
    else
      match Verify(signer, cookies["token"], now)
      case Err(_) => InvalidToken
      case Ok(payload) => Proceed(payload.user)
  }

  /** What the gate answers when it stops the request. */
  function Refusal(d: Decision): (r: Reply)
    requires !d.Proceed?
    ensures r.cookies == []
    ensures r.status == (if d == AccessDenied then 401 else 403)
    ensures r.body == Message(if d == AccessDenied then "Access denied" else "Invalid token")
  {
    if d == AccessDenied then Reply(401, Message("Access denied"), [])
    else Reply(403, Message("Invalid token"), [])
  }

  /**
   * The middleware. It returns whether `next()` is called. It sets `req.user`
   * only when it lets the request through, and writes the response only when
   * it stops it.
   */
  method AuthenticateToken(signer: Signer, req: Request, res: Response, now: int) returns (next: bool)
    requires res.Unsent()
    modifies req`user, res
    ensures next <==> Decide(signer, req.cookies, now).Proceed?
    ensures next ==> req.user == Some(Decide(signer, req.cookies, now).user) && res.Unsent()
    ensures !next ==> req.user == old(req.user) && res.Sent() == Some(Refusal(Decide(signer, req.cookies, now)))
  {
    if "token" !in req.cookies || req.cookies["token"] == "" {
      res.Status(401);
      res.SendJson(Message("Access denied"));
      return false;
    }
    var token := req.cookies["token"];
    var payload := Verify(signer, token, now);
    if payload.Err? {
      res.Status(403);
      res.SendJson(Message("Invalid token"));
      return false;
    }
    req.user := Some(payload.value.user);
    return true;
  }

  /**
   * A token signed for `user` and presented before it expires passes the gate
   * with identity `user`; presented at or after its expiry it is refused with 403.
   */
  lemma SignedTokenPassesGate(signer: Signer, user: string, issued: int, now: int)
    requires signer.Sound()
    ensures now < ExpiresAt(issued) ==> Decide(signer, map["token" := Sign(signer, user, issued)], now) == Proceed(user)
    ensures now >= ExpiresAt(issued) ==> Decide(signer, map["token" := Sign(signer, user, issued)], now) == InvalidToken
  {
    var token := Sign(signer, user, issued);
    assert token != "" by {
      assert signer.encode(Issue(user, issued)) != "";
    }
    SignedTokenVerifiesUntilExpiry(signer, user, issued, now);
  }

  /** A token the signer cannot decode (malformed or wrongly signed) is refused with 403. */
  lemma UndecodableTokenRefused(signer: Signer, cookies: map<string, string>, now: int)
    requires "token" in cookies && cookies["token"] != ""
    requires signer.decode(cookies["token"]).Err?
    ensures Decide(signer, cookies, now) == InvalidToken
    ensures Refusal(Decide(signer, cookies, now)) == Reply(403, Message("Invalid token"), [])
  {
  }
}
