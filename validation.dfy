/**
 * The input validator that runs before `register` and `login`. It is a pure
 * decision on the request path, the body and the current time: either the
 * next handler runs, or the request is answered with 401 and a message.
 */
module Validation {
  import opened Wrappers
  import opened Http

  // ---------------------------------------------------------------------------
  // The NRIC regular expression `^[STFG]\d{7}[A-Z]$`
  // ---------------------------------------------------------------------------

  /** A bracketed character class or the `\d` shorthand. */
  datatype CharClass = AnyOf(chars: string) | Between(lo: char, hi: char)

  predicate InClass(c: char, k: CharClass) {
    match k
    case AnyOf(cs) => c in cs
    case Between(lo, hi) => lo <= c <= hi
  }

  /** A character class repeated exactly `count` times (`[A-Z]`, `\d{7}`). */
  datatype Atom = Atom(charClass: CharClass, count: nat)

  /**
   * `RegExp.test` for a pattern anchored with `^` and `$` and built from
   * fixed-count atoms. Without the `m` flag, JavaScript's `$` matches only at
   * the very end of the input.
   */
  function FullMatch(pattern: seq<Atom>, s: string): bool
    decreases |s|, |pattern|
  {
    if pattern == [] then s == []
    else if pattern[0].count == 0 then FullMatch(pattern[1..], s)
    else s != [] && InClass(s[0], pattern[0].charClass)
         && FullMatch([Atom(pattern[0].charClass, pattern[0].count - 1)] + pattern[1..], s[1..])
  }

  /** `^[STFG]\d{7}[A-Z]$`; `\d` without the `u` flag is exactly the ASCII digits. */
  const NricPattern: seq<Atom> :=
    [Atom(AnyOf("STFG"), 1), Atom(Between('0', '9'), 7), Atom(Between('A', 'Z'), 1)]

  /** An NRIC: S, T, F or G, then seven ASCII digits, then one upper-case ASCII letter. */
  predicate IsNric(s: string) {
    && |s| == 9
    && s[0] in {'S', 'T', 'F', 'G'}
    && (forall i :: 1 <= i < 8 ==> '0' <= s[i] <= '9')
    && 'A' <= s[8] <= 'Z'
  }

  /** An atom repeated `n` times consumes exactly the first `n` characters, each in its class. */
  lemma {:induction false} AtomMatch(k: CharClass, n: nat, rest: seq<Atom>, s: string)
    ensures FullMatch([Atom(k, n)] + rest, s)
        <==> |s| >= n && (forall i :: 0 <= i < n ==> InClass(s[i], k)) && FullMatch(rest, s[n..])
  {
    var p := [Atom(k, n)] + rest;
    assert p[1..] == rest;
    if n == 0 {
      assert s[0..] == s;
    } else if s == [] {
    } else {
      AtomMatch(k, n - 1, rest, s[1..]);
      if |s| >= n {
        assert s[1..][n - 1..] == s[n..];
      }
      if InClass(s[0], k) && |s[1..]| >= n - 1 && (forall i :: 0 <= i < n - 1 ==> InClass(s[1..][i], k)) {
        forall i | 0 <= i < n ensures InClass(s[i], k) {
          if i > 0 { assert s[i] == s[1..][i - 1]; }
        }
      }
      if |s| >= n && (forall i :: 0 <= i < n ==> InClass(s[i], k)) {
        forall i | 0 <= i < n - 1 ensures InClass(s[1..][i], k) {
          assert s[1..][i] == s[i + 1];
        }
      }
    }
  }

  /** The regular expression accepts exactly the strings of NRIC shape. */
  lemma NricPatternMatchesNric(s: string)
    ensures FullMatch(NricPattern, s) <==> IsNric(s)
  {
    var letter, digits, check := Atom(AnyOf("STFG"), 1), Atom(Between('0', '9'), 7), Atom(Between('A', 'Z'), 1);
    assert NricPattern == [letter] + [digits, check];
    assert [digits, check] == [digits] + [check];
    assert [check] == [check] + [];
    AtomMatch(letter.charClass, 1, [digits, check], s);
    if |s| >= 1 {
      AtomMatch(digits.charClass, 7, [check], s[1..]);
      if |s| >= 8 {
        assert s[1..][7..] == s[8..];
        AtomMatch(check.charClass, 1, [], s[8..]);
        if |s| >= 9 {
          assert s[8..][1..] == s[9..];
        }
        assert (forall i :: 0 <= i < 7 ==> InClass(s[1..][i], digits.charClass))
           <==> (forall i :: 1 <= i < 8 ==> '0' <= s[i] <= '9');
      }
    }
  }

  // ---------------------------------------------------------------------------
  // The middleware
  // ---------------------------------------------------------------------------

  /** `Boolean(field)` for a body field: present and not the empty string. */
  predicate Truthy(field: Option<string>) {
    field.Some? && field.value != ""
  }

  /** `[...].every(Boolean)` */
  function Every(fields: seq<Option<string>>): (all: bool)
    ensures all <==> forall i :: 0 <= i < |fields| ==> Truthy(fields[i])
  {
    if fields == [] then true else Truthy(fields[0]) && Every(fields[1..])
  }

  /** All eight registration fields are present and non-empty. */
  predicate RegisterComplete(b: Body) {
    && Truthy(b.username) && Truthy(b.password) && Truthy(b.nric) && Truthy(b.first_name)
    && Truthy(b.last_name) && Truthy(b.dob) && Truthy(b.address) && Truthy(b.gender)
  }

  /**
   * `new Date(dob) > new Date()`. `parseDate` stands for JavaScript's date
   * parsing; None is an Invalid Date, whose time value NaN compares false, so
   * an unparseable date of birth is not in the future.
   */
  predicate DobInFuture(dob: string, now: int, parseDate: string -> Option<int>) {
    match parseDate(dob)
    case None => false
    case Some(t) => t > now
  }

  /** Whether the middleware calls `next()` or answers the request itself. */
  datatype Verdict = Next | Reject(status: int, message: string)

  /**
   * The middleware: on "/register", missing input, then the NRIC, then the date
   * of birth, the first failure deciding the message; on "/login", username and
   * password only; on any other path, nothing.
   */
  function Validate(path: string, body: Body, now: int, parseDate: string -> Option<int>): (v: Verdict)
    ensures v.Reject? ==> v.status == 401
    ensures path == "/register" ==>
      && (v == Reject(401, "Missing Input") <==> !RegisterComplete(body))
      && (v == Reject(401, "Invalid NRIC") <==> RegisterComplete(body) && !IsNric(body.nric.value))
      && (v == Reject(401, "Invalid Date of Birth") <==>
            RegisterComplete(body) && IsNric(body.nric.value) && DobInFuture(body.dob.value, now, parseDate))
      && (v == Next <==>
            RegisterComplete(body) && IsNric(body.nric.value) && !DobInFuture(body.dob.value, now, parseDate))
    ensures path == "/login" ==>
      && (v == Next <==> Truthy(body.username) && Truthy(body.password))
      && (v != Next ==> v == Reject(401, "Missing Input"))
    ensures path != "/register" && path != "/login" ==> v == Next
  {
    if path == "/register" then
      var fields := [body.username, body.password, body.nric, body.first_name,
                     body.last_name, body.dob, body.address, body.gender];
      if !Every(fields) then
        Reject(401, "Missing Input")
      else
        assert Truthy(fields[0]) && Truthy(fields[1]) && Truthy(fields[2]) && Truthy(fields[3]);
        assert Truthy(fields[4]) && Truthy(fields[5]) && Truthy(fields[6]) && Truthy(fields[7]);
        NricPatternMatchesNric(body.nric.value);
        if !FullMatch(NricPattern, body.nric.value) then Reject(401, "Invalid NRIC")
        else if DobInFuture(body.dob.value, now, parseDate) then Reject(401, "Invalid Date of Birth")
        else Next
    else if path == "/login" then
      var fields := [body.username, body.password];
      assert Every(fields) <==> Truthy(fields[0]) && Truthy(fields[1]);
      if !Every(fields) then Reject(401, "Missing Input") else Next
    else
      Next
  }

  /**
   * The bodies exercised by the validator's tests: a registration with only a
   * username and password, one whose NRIC has no leading letter, a login
   * without a password, and the NRIC used for the test user.
   */
  lemma ValidatorTestCases(now: int, parseDate: string -> Option<int>)
    ensures Validate("/register", Body(Some("testuser"), Some("TestPassword123!"), None, None, None, None, None, None),
                     now, parseDate) == Reject(401, "Missing Input")
    ensures Validate("/register", Body(Some("testuser"), Some("TestPassword123!"), Some("1234567X"), Some("Test"),
                                       Some("User"), Some("1995-05-15"), Some("123 Test Street"), Some("M")),
                     now, parseDate) == Reject(401, "Invalid NRIC")
    ensures Validate("/login", Body(Some("testuser"), None, None, None, None, None, None, None),
                     now, parseDate) == Reject(401, "Missing Input")
    ensures IsNric("S1234567D") && IsNric("S7654321D")
  {
  }
}
