/** The session token, the session cookie that carries it, and the
    "cookie, then verify, then role" gate that every content route repeats
    inline before it touches the store.

    The token library is abstract: a route verifies with a `decode` function
    (`None` stands for `verify` throwing, on a bad signature, a malformed token
    or an expired one), and login signs with a `sign` function (`None` stands
    for `sign` throwing, for instance when the secret is not configured). */
module Auth {
  import opened Common
  import opened Http

  /** The claims a token carries: the account id and its role, as strings are stored. */
  datatype Claims = Claims(id: Id, role: string)

  /** What `sign` is given: the claims and `expiresIn`, in seconds. */
  datatype Payload = Payload(claims: Claims, expiresIn: nat)

  type Decoder = string -> Option<Claims>
  type Signer = Payload -> Option<string>

  const SESSION_COOKIE := "admin_token"

  /** '24h', which is also the cookie's maxAge `60 * 60 * 24`. */
  const TOKEN_LIFETIME: nat := 60 * 60 * 24

  const SUPER_ADMIN := "SUPER_ADMIN"
  const ADMIN := "ADMIN"

  /** The roles the content routes admit. */
  const STAFF_ROLES: set<string> := {SUPER_ADMIN, ADMIN}

  /** The roles the create-user route admits. */
  const SUPER_ADMIN_ONLY: set<string> := {SUPER_ADMIN}

  /** What login hands to `sign` for a stored admin. */
  function SessionPayload(id: Id, role: string): Payload {
    Payload(Claims(id, role), TOKEN_LIFETIME)
  }

  /** `process.env.NODE_ENV` */
  datatype Env = Env(nodeEnv: string)

  /** The cookie both login routes set on success. */
  function SessionCookie(token: string, env: Env): (c: Cookie)
    ensures c.name == SESSION_COOKIE && c.value == token
    ensures c.httpOnly && c.path == "/" && c.sameSite == Some(Strict)
    ensures c.maxAge == Some(TOKEN_LIFETIME) && c.expires.None?
    ensures c.secure <==> env.nodeEnv == "production"
  {
    Cookie(SESSION_COOKIE, token, true, env.nodeEnv == "production", "/",
           Some(60 * 60 * 24), None, Some(Strict))
  }

  /** The cookie logout sets: same name and path, empty value, expiry at the epoch. */
  function ExpiredSessionCookie(): (c: Cookie)
    ensures c.name == SESSION_COOKIE && c.value == "" && c.path == "/"
    ensures c.httpOnly && c.expires == Some(0)
    ensures !c.secure && c.maxAge.None? && c.sameSite.None?
  {
    Cookie(SESSION_COOKIE, "", true, false, "/", None, Some(0), None)
  }

  /** The outcome of the gate: the decoded claims, or the response the route returns. */
  datatype Admission = Admitted(claims: Claims) | Refused(status: int, error: string)

  /** `if (!token) 401; decoded = verify(token); if (role not allowed) 403;` with the
      route's `catch` turning a throwing `verify` into 500. */
  function Gate(token: Option<string>, decode: Decoder, roles: set<string>): (a: Admission)
    ensures a == Refused(401, "Unauthorized") <==> !Truthy(token)
    ensures a == Refused(500, INTERNAL_ERROR) <==> Truthy(token) && decode(token.value).None?
    ensures a == Refused(403, "Forbidden") <==>
              Truthy(token) && decode(token.value).Some? && decode(token.value).value.role !in roles
    ensures a.Admitted? <==>
              Truthy(token) && decode(token.value).Some? && decode(token.value).value.role in roles
    ensures a.Admitted? ==> a.claims == decode(token.value).value
  {
    if !Truthy(token) then Refused(401, "Unauthorized")
    else match decode(token.value)
      case None => Refused(500, INTERNAL_ERROR)
      case Some(claims) =>
        if claims.role !in roles then Refused(403, "Forbidden") else Admitted(claims)
  }

  /** The response a route returns when the gate refuses. */
  function Refusal<T>(a: Admission): Response<T>
    requires a.Refused?
  {
    Fail(a.status, a.error)
  }

  /** A token carrying the role stored for an account passes a route's gate exactly
      when that stored role is one the route admits; the role is the snapshot taken
      at sign-in, not re-read from the store. */
  lemma GateAdmitsStoredRole(token: string, decode: Decoder, roles: set<string>, id: Id, role: string)
    requires token != "" && decode(token) == Some(Claims(id, role))
    ensures Gate(Some(token), decode, roles).Admitted? <==> role in roles
    ensures role == ADMIN ==>
              Gate(Some(token), decode, STAFF_ROLES).Admitted? &&
              Gate(Some(token), decode, SUPER_ADMIN_ONLY) == Refused(403, "Forbidden")
  {
  }

  /** The browser's cookies for the application, by name (every cookie here uses
      path '/'). Storing follows section 5.3 of RFC 6265: a cookie whose expiry
      time has passed, or whose Max-Age is not positive, removes the stored one. */
  type Jar = map<string, string>

  predicate ExpiredAt(c: Cookie, now: int) {
    (c.expires.Some? && c.expires.value <= now) || (c.maxAge.Some? && c.maxAge.value <= 0)
  }

  function StoreCookie(jar: Jar, c: Cookie, now: int): Jar {
    if ExpiredAt(c, now) then jar - {c.name} else jar[c.name := c.value]
  }

  function StoreCookies(jar: Jar, cs: seq<Cookie>, now: int): Jar
    decreases |cs|
  {
    if cs == [] then jar else StoreCookies(StoreCookie(jar, cs[0], now), cs[1..], now)
  }

  /** `req.cookies.get('admin_token')?.value` */
  function SessionToken(jar: Jar): Option<string> {
    if SESSION_COOKIE in jar then Some(jar[SESSION_COOKIE]) else None
  }
}
