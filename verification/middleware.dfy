/** The request middleware of `src/middleware.ts`: CORS headers for API paths,
    the answer to preflight requests, and forwarding of the session cookie. */
module Middleware {
  import opened Options

  const ApiPrefix := "/api/"
  const SessionCookieName := "better-auth.session_token"

  const AllowCredentials := "Access-Control-Allow-Credentials"
  const AllowOrigin := "Access-Control-Allow-Origin"
  const AllowMethods := "Access-Control-Allow-Methods"
  const AllowHeaders := "Access-Control-Allow-Headers"

  const AllowedMethods := "GET,DELETE,PATCH,POST,PUT,OPTIONS"
  const AllowedHeaders := "Content-Type, Authorization, Cookie, X-Requested-With"

  /** The parts of an incoming request the middleware looks at. */
  datatype Request = Request(
    pathname: string,
    verb: string,                    // the HTTP method
    origin: Option<string>,          // the `origin` header
    sessionCookie: Option<string>)   // value of the session cookie, if sent

  datatype SameSite = Lax | Strict | NoSameSite

  datatype CookieOptions = CookieOptions(httpOnly: bool, secure: bool, sameSite: SameSite, path: string)

  datatype SetCookie = SetCookie(name: string, value: string, options: CookieOptions)

  /** Either the 200 answer to a preflight, or the request passed on with
      headers and possibly a cookie added. */
  datatype Response =
    | Preflight(status: nat, headers: map<string, string>)
    | PassOn(headers: map<string, string>, cookie: Option<SetCookie>)

  /** `request.headers.get("origin") || "*"`: an absent or empty origin gives the wildcard. */
  function OriginOrWildcard(origin: Option<string>): string {
    if origin.Some? && origin.value != "" then origin.value else "*"
  }

  /** The four CORS headers, set on API paths only. */
  function CorsHeaders(req: Request): map<string, string> {
    if ApiPrefix <= req.pathname then
      map[AllowCredentials := "true",
          AllowOrigin := OriginOrWildcard(req.origin),
          AllowMethods := AllowedMethods,
          AllowHeaders := AllowedHeaders]
    else map[]
  }

  /** `middleware`, with `production` standing for `NODE_ENV === "production"`. */
  function Handle(req: Request, production: bool): (r: Response)
    // CORS headers exactly on paths under /api/
    ensures r.headers.Keys == (if ApiPrefix <= req.pathname
                               then {AllowCredentials, AllowOrigin, AllowMethods, AllowHeaders}
                               else {})
    ensures ApiPrefix <= req.pathname ==>
              && r.headers[AllowCredentials] == "true"
              && (req.origin.Some? && req.origin.value != "" ==> r.headers[AllowOrigin] == req.origin.value)
              && (req.origin.None? || req.origin.value == "" ==> r.headers[AllowOrigin] == "*")
              && r.headers[AllowMethods] == AllowedMethods
              && r.headers[AllowHeaders] == AllowedHeaders
    // any OPTIONS request is answered right away with 200 and no cookie work
    ensures r.Preflight? <==> req.verb == "OPTIONS"
    ensures r.Preflight? ==> r.status == 200
    // a session cookie is re-set with the same value and fixed options
    ensures r.PassOn? ==> (r.cookie.Some? <==> req.sessionCookie.Some?)
    ensures r.PassOn? && r.cookie.Some? ==>
              && r.cookie.value.name == SessionCookieName
              && r.cookie.value.value == req.sessionCookie.value
              && r.cookie.value.options.httpOnly
              && (r.cookie.value.options.secure <==> production)
              && r.cookie.value.options.sameSite == Lax
              && r.cookie.value.options.path == "/"
  {
    var headers := CorsHeaders(req);
    if req.verb == "OPTIONS" then Preflight(200, headers)
    else match req.sessionCookie
      case None => PassOn(headers, None)
      case Some(token) =>
        PassOn(headers, Some(SetCookie(SessionCookieName, token, CookieOptions(true, production, Lax, "/"))))
  }

  /** A request without a session cookie that is not a preflight goes on
      untouched apart from the CORS headers; outside /api/ it goes on untouched. */
  lemma PlainRequestPassesThrough(req: Request, production: bool)
    requires req.verb != "OPTIONS" && req.sessionCookie.None?
    ensures Handle(req, production).PassOn?
    ensures Handle(req, production).cookie.None?
    ensures !(ApiPrefix <= req.pathname) ==> Handle(req, production) == PassOn(map[], None)
  {
  }

  /** A preflight carries exactly the headers the same request would have got
      with any other method: only the shape of the answer changes. */
  lemma PreflightHeadersMatch(req: Request, otherVerb: string, production: bool)
    requires req.verb == "OPTIONS" && otherVerb != "OPTIONS"
    ensures Handle(req, production).headers == Handle(req.(verb := otherVerb), production).headers
  {
  }

  /** The production flag changes nothing but the cookie's `secure` option. */
  lemma ProductionOnlyAffectsSecure(req: Request)
    ensures Handle(req, true).headers == Handle(req, false).headers
    ensures Handle(req, true).Preflight? == Handle(req, false).Preflight?
    ensures Handle(req, true).PassOn? && Handle(req, true).cookie.Some? ==>
              Handle(req, false).cookie.Some? &&
              Handle(req, true).cookie.value.(options := Handle(req, false).cookie.value.options)
                == Handle(req, false).cookie.value
  {
  }
}
