/** POST /api/admin/logout: overwrite the session cookie with an expired, empty one. */
module AdminLogout {
  import opened Common
  import opened Http
  import opened Auth

  datatype LogoutReply = LogoutReply(message: string)

  /** Takes no input, so every call gives the same response. */
  method Logout() returns (res: Response<LogoutReply>)
    ensures res.status == 200 && res.body == Data(LogoutReply("Logout successful"))
    ensures res.cookies == [ExpiredSessionCookie()]
    // it overwrites the cookie login sets: same name, same path
    ensures forall token: string, env: Env {:trigger SessionCookie(token, env)} ::
              res.cookies[0].name == SessionCookie(token, env).name &&
              res.cookies[0].path == SessionCookie(token, env).path
  {
    res := Json(200, LogoutReply("Logout successful"));
    res := res.(cookies := res.cookies + [ExpiredSessionCookie()]);
  }

  /** Logout undoes login in the browser: after the login cookie and then the logout
      cookie are stored, at any time after the epoch, no token is sent and every
      gate answers 401; before logout exactly the signed token is sent. */
  lemma LogoutEndsSession(jar: Jar, token: string, env: Env, now: int, decode: Decoder, roles: set<string>)
    requires now > 0
    ensures SessionToken(StoreCookies(jar, [SessionCookie(token, env)], now)) == Some(token)
    ensures var after := StoreCookies(StoreCookies(jar, [SessionCookie(token, env)], now), [ExpiredSessionCookie()], now);
            SessionToken(after).None? && Gate(SessionToken(after), decode, roles) == Refused(401, "Unauthorized")
  {
    var c := SessionCookie(token, env);
    assert StoreCookies(jar, [c], now) == StoreCookies(StoreCookie(jar, c, now), [], now);
    var j1 := StoreCookie(jar, c, now);
    assert StoreCookies(j1, [ExpiredSessionCookie()], now) == StoreCookie(j1, ExpiredSessionCookie(), now);
  }
}
