/**
 * The session token codec as `jsonwebtoken` is used by the backend: `sign`
 * with `expiresIn: "1h"` and `verify`. The secret key, the header and the
 * signature algorithm live inside an abstract Signer whose `encode` produces a
 * compact token and whose `decode` checks the signature and recovers the claims.
 * Times are milliseconds since the epoch, as `Date.now()` gives them; the
 * claims carry whole seconds, as section 4.1.4 of RFC 7519 prescribes for `exp`.
 */
module Jwt {
  import opened Wrappers

  /** `expiresIn: "1h"`, in seconds. */
  const LifetimeSeconds := 60 * 60

  /** The payload: the `user` claim plus the `iat` and `exp` that `sign` adds. */
  datatype Claims = Claims(user: string, iat: int, exp: int)

  datatype DecodeError = Malformed | InvalidSignature

  datatype VerifyError = Undecodable(reason: DecodeError) | Expired

  datatype Signer = Signer(
    encode: Claims -> string,
    decode: string -> Result<Claims, DecodeError>)
  {
    /**
     * Decoding a token this signer produced gives back its claims, and a
     * produced token is never the empty string (a compact JWT has three parts).
     */
    ghost predicate Sound() {
      forall c :: decode(encode(c)) == Ok(c) && encode(c) != ""
    }
  }

  /** `Math.floor(ms / 1000)`; Dafny's division by a positive divisor floors. */
  function Seconds(ms: int): int {
    ms / 1000
  }

  /** The claims `jwt.sign({ user }, secret, { expiresIn: "1h" })` produces at time `now`. */
  function Issue(user: string, now: int): Claims {
    Claims(user, Seconds(now), Seconds(now) + LifetimeSeconds)
  }

  /** `jwt.sign({ user }, secret, { expiresIn: "1h" })` at time `now`. */
  function Sign(signer: Signer, user: string, now: int): string {
    signer.encode(Issue(user, now))
  }

  /**
   * `jwt.verify(token, secret)` at time `now`: the signature must check, and the
   * current second must be strictly before `exp`.
   */
  function Verify(signer: Signer, token: string, now: int): Result<Claims, VerifyError> {
    match signer.decode(token)
    case Err(e) => Err(Undecodable(e))
    case Ok(c) => if Seconds(now) >= c.exp then Err(Expired) else Ok(c)
  }

  /** The first millisecond at which a token signed at `issued` is expired. */
  function ExpiresAt(issued: int): int {
    (Seconds(issued) + LifetimeSeconds) * 1000
  }

  /** A whole second `k` is after the second containing `ms` exactly when `ms` is before `k * 1000`. */
  lemma SecondsBefore(ms: int, k: int)
    ensures Seconds(ms) < k <==> ms < k * 1000
  {
    var q, r := ms / 1000, ms % 1000;
    assert ms == q * 1000 + r && 0 <= r < 1000;
    if q < k {
      assert q * 1000 <= (k - 1) * 1000;
    } else {
      assert k * 1000 <= q * 1000;
    }
  }

  /**
   * A token expires within the last second of the hour after it was signed:
   * still valid 59 minutes later, expired 61 minutes later.
   */
  lemma ExpiryWithinTheHour(issued: int)
    ensures issued + 3600 * 1000 - 1000 < ExpiresAt(issued) <= issued + 3600 * 1000
  {
    var q, r := issued / 1000, issued % 1000;
    assert issued == q * 1000 + r && 0 <= r < 1000;
    assert ExpiresAt(issued) == q * 1000 + 3600 * 1000;
  }

  /**
   * A token signed for `user` at `issued` verifies, with the claims it was
   * signed with, at every time before ExpiresAt(issued), and is reported
   * expired from then on.
   */
  lemma SignedTokenVerifiesUntilExpiry(signer: Signer, user: string, issued: int, now: int)
    requires signer.Sound()
    ensures now < ExpiresAt(issued) ==> Verify(signer, Sign(signer, user, issued), now) == Ok(Issue(user, issued))
    ensures now >= ExpiresAt(issued) ==> Verify(signer, Sign(signer, user, issued), now) == Err(Expired)
  {
    var c := Issue(user, issued);
    assert signer.decode(signer.encode(c)) == Ok(c);
    SecondsBefore(now, c.exp);
  }

  /** Sixty-one minutes after signing, a token no longer verifies; fifty-nine minutes after, it does. */
  lemma OneHourLifetime(signer: Signer, user: string, issued: int)
    requires signer.Sound()
    ensures Verify(signer, Sign(signer, user, issued), issued + 59 * 60 * 1000) == Ok(Issue(user, issued))
    ensures Verify(signer, Sign(signer, user, issued), issued + 61 * 60 * 1000) == Err(Expired)
  {
    ExpiryWithinTheHour(issued);
    SignedTokenVerifiesUntilExpiry(signer, user, issued, issued + 59 * 60 * 1000);
    SignedTokenVerifiesUntilExpiry(signer, user, issued, issued + 61 * 60 * 1000);
  }
}
