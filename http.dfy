/**
 * The parts of an Express request and response that the authentication flow
 * touches: the parsed JSON body, the parsed cookies, the `user` field that the
 * access gate attaches, and the status, JSON body and Set-Cookie headers that a
 * handler writes.
 */
module Http {
  import opened Wrappers

  /** A JSON response body as the handlers send it. */
  datatype Json =
    | Message(text: string)                // { message: "..." }
    | Bool(flag: bool)                     // a bare `true`
    | Object(fields: map<string, string>)  // a user record

  /** The options object given to `res.cookie` and `res.clearCookie`. */
  datatype CookieOptions = CookieOptions(
    httpOnly: bool,
    secure: bool,
    sameSite: string,
    maxAge: Option<int>)  // milliseconds; None when not given

  /** One Set-Cookie header the handler emits. */
  datatype CookieHeader =
    | SetCookie(name: string, value: string, options: CookieOptions)
    | ClearCookie(name: string, options: CookieOptions)

  /** What a finished response carries. */
  datatype Reply = Reply(status: int, body: Json, cookies: seq<CookieHeader>)

  /**
   * The request body after JSON parsing, restricted to the eight fields the
   * validator and the controllers destructure. None stands for a field that is
   * absent (undefined) or null.
   */
  datatype Body = Body(
    username: Option<string>,
    password: Option<string>,
    nric: Option<string>,
    first_name: Option<string>,
    last_name: Option<string>,
    dob: Option<string>,
    address: Option<string>,
    gender: Option<string>)

  class Request {
    const path: string                     // req.path, relative to the router
    const body: Body                       // req.body
    const cookies: map<string, string>     // req.cookies, from cookie-parser
    var user: Option<string>               // req.user, set by the access gate

    constructor (path: string, body: Body, cookies: map<string, string>)
      ensures this.path == path && this.body == body && this.cookies == cookies
      ensures user == None
    {
      this.path := path;
      this.body := body;
      this.cookies := cookies;
      user := None;
    }
  }

  class Response {
    var status: int
    var body: Option<Json>
    var cookies: seq<CookieHeader>

    /** A response as Express hands it to the first handler: status 200, nothing sent. */
    constructor ()
      ensures Unsent()
    {
      status := 200;
      body := None;
      cookies := [];
    }

    predicate Unsent()
      reads this
    {
      status == 200 && body == None && cookies == []
    }

    /** The reply once a JSON body has been sent; None while nothing is sent. */
    function Sent(): Option<Reply>
      reads this
    {
      if body.Some? then Some(Reply(status, body.value, cookies)) else None
    }

    /** `res.status(code)` */
    method Status(code: int)
      modifies this
      ensures status == code && body == old(body) && cookies == old(cookies)
    {
      status := code;
    }

    /** `res.json(j)` */
    method SendJson(j: Json)
      modifies this
      ensures body == Some(j) && status == old(status) && cookies == old(cookies)
    {
      body := Some(j);
    }

    /** `res.cookie(name, value, options)` */
    method Cookie(name: string, value: string, options: CookieOptions)
      modifies this
      ensures cookies == old(cookies) + [SetCookie(name, value, options)]
      ensures status == old(status) && body == old(body)
    {
      cookies := cookies + [SetCookie(name, value, options)];
    }

    /** `res.clearCookie(name, options)` */
    method ClearCookie(name: string, options: CookieOptions)
      modifies this
      ensures cookies == old(cookies) + [CookieHeader.ClearCookie(name, options)]
      ensures status == old(status) && body == old(body)
    {
      cookies := cookies + [CookieHeader.ClearCookie(name, options)];
    }
  }
}
