/** POST /api/admin/login: look the admin up by email, check the password with
    Argon2, sign a 24-hour token with the stored id and role, and set it as the
    session cookie. Every credential failure looks the same to the client. */
module AdminLogin {
  import opened Common
  import opened Http
  import opened Auth
  import opened Db

  /** The parsed JSON body. The whole body is `None` when it is not JSON or has no
      email, since the lookup then throws; the password may be missing. */
  datatype Credentials = Credentials(email: string, password: Option<string>)

  /** The user object of a successful login: no password hash. */
  datatype AdminView = AdminView(id: Id, email: string, role: string)

  datatype SessionReply = SessionReply(message: string, user: Option<AdminView>)

  /** The Argon2 check, `argon2.verify(storedHash, password)`. */
  type HashCheck = (string, string) -> bool

  const INVALID_CREDENTIALS := "Invalid credentials"

  /** The admin whose email is exactly `email` (no case folding, no trimming). */
  function Lookup(admins: seq<Admin>, email: string): (r: Option<Admin>)
    ensures r.Some? ==> r.value in admins && r.value.email == email
    ensures r.None? <==> forall a :: a in admins ==> a.email != email
  {
    match FindBy(admins, AdminEmail, email)
    case None => None
    case Some(i) => Some(admins[i])
  }

  /** Verified credentials: an admin with exactly this email whose stored hash accepts the password. */
  predicate Authenticates(admins: seq<Admin>, body: Credentials, verify: HashCheck) {
    Lookup(admins, body.email).Some? && body.password.Some? &&
    verify(Lookup(admins, body.email).value.password, body.password.value)
  }

  method Login(db: Database, body: Option<Credentials>, verify: HashCheck, sign: Signer, env: Env)
    returns (res: Response<SessionReply>)
    // unreadable body: the catch block
    ensures body.None? ==> res == Fail(500, INTERNAL_ERROR)
    // unknown email: 401, and `verify` is not consulted (the answer does not depend on it)
    ensures body.Some? && Lookup(db.admins, body.value.email).None? ==> res == Fail(401, INVALID_CREDENTIALS)
    // a known email without a password makes argon2 throw
    ensures body.Some? && Lookup(db.admins, body.value.email).Some? && body.value.password.None? ==>
              res == Fail(500, INTERNAL_ERROR)
    // every 401 is the same response, whether the email or the password was wrong
    ensures res.status == 401 ==> res == Fail(401, INVALID_CREDENTIALS)
    ensures res.status == 401 <==>
              (body.Some? && !Authenticates(db.admins, body.value, verify) &&
               (Lookup(db.admins, body.value.email).Some? ==> body.value.password.Some?))
    // success: claims are exactly the stored id and role, for 24 hours, in the session cookie
    ensures res.status == 200 <==>
              (body.Some? && Authenticates(db.admins, body.value, verify) &&
               sign(SessionPayload(Lookup(db.admins, body.value.email).value.id,
                                   Lookup(db.admins, body.value.email).value.role)).Some?)
    ensures res.status == 200 ==>
              var a := Lookup(db.admins, body.value.email).value;
              a.email == body.value.email &&
              res.body == Data(SessionReply("Login successful", Some(AdminView(a.id, a.email, a.role)))) &&
              res.cookies == [SessionCookie(sign(SessionPayload(a.id, a.role)).value, env)]
    ensures res.status in {200, 401, 500}
    // no cookie on any failure
    ensures res.status != 200 ==> res.cookies == []
  {
    if body.None? {
      return Fail(500, INTERNAL_ERROR);
    }
    var email := body.value.email;
    var admin := Lookup(db.admins, email);
    if admin.None? {
      return Fail(401, INVALID_CREDENTIALS);
    }
    if body.value.password.None? {
      return Fail(500, INTERNAL_ERROR);
    }
    var isValidPassword := verify(admin.value.password, body.value.password.value);
    if !isValidPassword {
      return Fail(401, INVALID_CREDENTIALS);
    }
    var token := sign(SessionPayload(admin.value.id, admin.value.role));
    if token.None? {
      return Fail(500, INTERNAL_ERROR);
    }
    var user := AdminView(admin.value.id, admin.value.email, admin.value.role);
    res := Json(200, SessionReply("Login successful", Some(user)));
    res := res.(cookies := res.cookies + [SessionCookie(token.value, env)]);
  }
}
