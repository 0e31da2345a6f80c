/** POST /api/reset-admin: wipe questions, exams and admins and recreate the one
    default super admin, answering with its credentials in clear. The route checks
    no session. The default account is also what the create-admin script and the
    seed create. */
module ResetAdmin {
  import opened Common
  import opened Http
  import opened Auth
  import opened Db
  import opened AdminLogin
  import opened CreateUser

  const DEFAULT_USERNAME := "admin"
  const DEFAULT_EMAIL := "admin@example.com"
  const DEFAULT_PASSWORD := "admin123"

  /** The default admin row, given the id the store assigns it. */
  function DefaultAdmin(id: Id, hash: Hasher, now: DateTime): (a: Admin)
    ensures a.email == DEFAULT_EMAIL && a.role == SUPER_ADMIN && a.password == hash(DEFAULT_PASSWORD)
  {
    Admin(id, DEFAULT_USERNAME, DEFAULT_EMAIL, hash(DEFAULT_PASSWORD), SUPER_ADMIN, now)
  }

  datatype Login = Login(email: string, password: string)

  datatype ResetReply = ResetReply(message: string, admin: AdminProfile, passwordTest: bool, credentials: Login)

  method Reset(db: Database, hash: Hasher, verify: HashCheck, now: DateTime) returns (res: Response<ResetReply>)
    modifies db`questions, db`exams, db`admins, db`nextId
    ensures db.Valid()
    ensures db.questions == [] && db.exams == []
    ensures db.admins == [DefaultAdmin(old(db.nextId), hash, now)] && db.nextId == old(db.nextId) + 1
    ensures res == Json(200, ResetReply("Admin reset successful", Profile(db.admins[0]),
                                        verify(hash(DEFAULT_PASSWORD), DEFAULT_PASSWORD),
                                        Login(DEFAULT_EMAIL, DEFAULT_PASSWORD)))
  {
    db.questions := [];
    db.exams := [];
    db.admins := [];
    var plainPassword := DEFAULT_PASSWORD;
    var hashedPassword := hash(plainPassword);
    var admin := db.InsertAdmin(DEFAULT_USERNAME, DEFAULT_EMAIL, hashedPassword, SUPER_ADMIN, now);
    var testResult := verify(hashedPassword, plainPassword);
    res := Json(200, ResetReply("Admin reset successful", Profile(admin), testResult,
                                Login(DEFAULT_EMAIL, DEFAULT_PASSWORD)));
  }

  /** The `passwordTest` the reset reports is exactly whether the credentials it
      echoes now sign in, and that account is the only one and a super admin. */
  lemma ResetCredentialsSignIn(id: Id, hash: Hasher, verify: HashCheck, now: DateTime)
    ensures var admins := [DefaultAdmin(id, hash, now)];
            (Authenticates(admins, Credentials(DEFAULT_EMAIL, Some(DEFAULT_PASSWORD)), verify) <==>
             verify(hash(DEFAULT_PASSWORD), DEFAULT_PASSWORD)) &&
            Lookup(admins, DEFAULT_EMAIL) == Some(admins[0]) &&
            SUPER_ADMIN in SUPER_ADMIN_ONLY
    ensures forall e :: e != DEFAULT_EMAIL ==> Lookup([DefaultAdmin(id, hash, now)], e).None?
  {
    var admins := [DefaultAdmin(id, hash, now)];
    assert FindBy(admins, AdminEmail, DEFAULT_EMAIL) == Some(0);
  }
}
