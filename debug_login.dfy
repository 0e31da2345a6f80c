/** POST /api/debug-admin: the same login with bcrypt, whose two failures can be
    told apart and whose success body has no user object. */
module DebugAdmin {
  import opened Common
  import opened Http
  import opened Auth
  import opened Db
  import opened AdminLogin

  /** `bcrypt.compare(password, storedHash)`: note the argument order. */
  type BcryptCompare = (string, string) -> bool

  const ADMIN_NOT_FOUND := "Admin not found"
  const INVALID_PASSWORD := "Invalid password"

  method DebugLogin(db: Database, body: Option<Credentials>, compare: BcryptCompare, sign: Signer, env: Env)
    returns (res: Response<SessionReply>)
    ensures body.None? ==> res == Fail(500, INTERNAL_ERROR)
    ensures body.Some? && Lookup(db.admins, body.value.email).None? ==> res == Fail(401, ADMIN_NOT_FOUND)
    ensures body.Some? && Lookup(db.admins, body.value.email).Some? ==>
              var a := Lookup(db.admins, body.value.email).value;
              var pw := body.value.password;
              (pw.None? ==> res == Fail(500, INTERNAL_ERROR)) &&
              (pw.Some? && !compare(pw.value, a.password) ==> res == Fail(401, INVALID_PASSWORD)) &&
              (pw.Some? && compare(pw.value, a.password) ==>
                 match sign(SessionPayload(a.id, a.role))
                 case None => res == Fail(500, INTERNAL_ERROR)
                 case Some(token) =>
                   res == Response(200, Data(SessionReply("Login successful", None)), [SessionCookie(token, env)]))
    // the two failures are distinguishable
    ensures res.status == 401 ==>
              (res == Fail(401, ADMIN_NOT_FOUND) <==> Lookup(db.admins, body.value.email).None?) &&
              (res == Fail(401, INVALID_PASSWORD) <==> Lookup(db.admins, body.value.email).Some?)
    ensures res.status in {200, 401, 500}
    ensures res.status != 200 ==> res.cookies == []
  {
    if body.None? {
      return Fail(500, INTERNAL_ERROR);
    }
    var admin := Lookup(db.admins, body.value.email);
    if admin.None? {
      return Fail(401, ADMIN_NOT_FOUND);
    }
    if body.value.password.None? {
      return Fail(500, INTERNAL_ERROR);
    }
    var isValidPassword := compare(body.value.password.value, admin.value.password);
    if !isValidPassword {
      return Fail(401, INVALID_PASSWORD);
    }
    var token := sign(SessionPayload(admin.value.id, admin.value.role));
    if token.None? {
      return Fail(500, INTERNAL_ERROR);
    }
    res := Json(200, SessionReply("Login successful", None));
    res := res.(cookies := res.cookies + [SessionCookie(token.value, env)]);
  }
}
