/**
 * The parts of an express request and response that the auth handlers and the
 * authentication gate touch: parsed query and cookie values, JavaScript
 * truthiness, cookie attributes, the client's cookie jar as the response's
 * Set-Cookie headers leave it, and what the response finally sent.
 */
module Http {
  import opened Wrappers

  /**
   * A value of `req.query.x` or `req.cookies.x`. The query parser yields a
   * string, or an array or object for `x[]=..` / `x[k]=..`; cookie-parser yields
   * a string, or a parsed JSON value for a `j:` cookie, which it keeps only when
   * truthy. Every non-string value is therefore truthy.
   */
  datatype Param = Str(s: string) | NonString

  /** Looking a name up in a parsed map; an absent name reads as `undefined`. */
  function Get(m: map<string, Param>, name: string): Option<Param>
  {
    if name in m then Some(m[name]) else None
  }

  /** JavaScript truthiness of a looked-up value: `undefined` and `""` are falsy. */
  predicate Truthy(p: Option<Param>)
  {
    match p
    case None => false
    case Some(Str(s)) => s != ""
    case Some(NonString) => true
  }

  /** `typeof p === 'string'`. */
  predicate IsString(p: Option<Param>)
  {
    p.Some? && p.value.Str?
  }

  /** The options object handed to `res.cookie`; a missing key is `None`. */
  datatype CookieOptions = CookieOptions(
    httpOnly: Option<bool>,
    secure: Option<bool>,
    sameSite: Option<string>,
    maxAge: Option<nat>)

  datatype Cookie = Cookie(value: string, options: CookieOptions)

  /** The client's cookies by name. */
  type Jar = map<string, Cookie>

  /** What the response has sent: nothing yet, a JSON error body, or a redirect. */
  datatype Sent =
    | NotSent
    | JsonBody(status: nat, message: string)
    | Redirected(status: nat, location: string)

  /** How an async handler ends: it returns, or its promise rejects. */
  datatype Completion = Returned | Threw(error: string)

  /** Verified identity-token claims, `req.user`. */
  datatype Payload = Payload(claims: map<string, string>)

  /** The status express uses for `res.redirect(url)` without a status. */
  const FOUND: nat := 302

  class Request {
    const query: map<string, Param>
    const cookies: map<string, Param>
    var user: Option<Payload>

    constructor (query: map<string, Param>, cookies: map<string, Param>)
      ensures this.query == query && this.cookies == cookies && user == None
    {
      this.query := query;
      this.cookies := cookies;
      user := None;
    }
  }

  class Response {
    /** The client's jar once it has applied this response's Set-Cookie headers. */
    var cookies: Jar
    var sent: Sent

    constructor (jar: Jar)
      ensures cookies == jar && sent == NotSent
    {
      cookies := jar;
      sent := NotSent;
    }

    /** `res.cookie(name, value, options)`. */
    method SetCookie(name: string, value: string, options: CookieOptions)
      modifies this
      ensures cookies == old(cookies)[name := Cookie(value, options)]
      ensures sent == old(sent)
    {
      cookies := cookies[name := Cookie(value, options)];
    }

    /** `res.clearCookie(name)`: an expired Set-Cookie, so the client drops the cookie. */
    method ClearCookie(name: string)
      modifies this
      ensures cookies == old(cookies) - {name}
      ensures sent == old(sent)
    {
      cookies := cookies - {name};
    }

    /** `res.status(status).json({ message })`. */
    method Json(status: nat, message: string)
      modifies this
      ensures sent == JsonBody(status, message)
      ensures cookies == old(cookies)
    {
      sent := JsonBody(status, message);
    }

    /** `res.redirect(location)`. */
    method Redirect(location: string)
      modifies this
      ensures sent == Redirected(FOUND, location)
      ensures cookies == old(cookies)
    {
      sent := Redirected(FOUND, location);
    }
  }
}
