/** POST /api/admin/create-user: only a token whose role is exactly 'SUPER_ADMIN'
    may add an admin; an email already present is a conflict; the password is
    stored as its Argon2 hash. */
module CreateUser {
  import opened Common
  import opened Http
  import opened Auth
  import opened Db
  import opened AdminLogin

  /** The JSON body; `password`, `username` and `role` may be left out. `None` for the
      whole body stands for a body that is not JSON or has no email, which makes the
      lookup by email throw. */
  datatype NewAdmin = NewAdmin(email: string, password: Option<string>, username: Option<string>,
                               role: Option<string>)

  /** The admin object the handler returns: everything but the password hash. */
  datatype AdminProfile = AdminProfile(id: Id, username: string, email: string, role: string)

  datatype CreateReply = CreateReply(message: string, admin: AdminProfile)

  /** `argon2.hash(password)` */
  type Hasher = string -> string

  /** `role = 'ADMIN'` as a destructuring default: it applies only when the role is absent. */
  const DEFAULT_ROLE := "ADMIN"

  /** `username || email.split('@')[0]` */
  function DerivedUsername(username: Option<string>, email: string): (u: string)
    ensures Truthy(username) ==> u == username.value
    ensures !Truthy(username) ==> u <= email && '@' !in u && (|u| < |email| ==> email[|u|] == '@')
    ensures !Truthy(username) && '@' !in email ==> u == email
  {
    if Truthy(username) then username.value else Before(email, '@')
  }

  function Profile(a: Admin): AdminProfile {
    AdminProfile(a.id, a.username, a.email, a.role)
  }

  /** The row the handler inserts for an accepted body. */
  function NewRow(id: Id, body: NewAdmin, hash: Hasher, now: DateTime): Admin
    requires body.password.Some?
  {
    Admin(id, DerivedUsername(body.username, body.email), body.email, hash(body.password.value),
          body.role.GetOr(DEFAULT_ROLE), now)
  }

  /** The steps in their order: the gate, the body, the lookup by email, the hash (which
      throws without a password), then the insert, which the store may refuse (a role
      outside the schema's enumeration, say). */
  method CreateUser(db: Database, token: Option<string>, decode: Decoder, body: Option<NewAdmin>,
                    hash: Hasher, refuses: Refuses, now: DateTime)
    returns (res: Response<CreateReply>)
    requires db.Valid()
    modifies db`admins, db`nextId
    ensures db.Valid()
    // the gate runs first: 401 without a token, 500 when verify throws, 403 for any other role
    ensures Gate(token, decode, SUPER_ADMIN_ONLY).Refused? ==>
              res == Refusal(Gate(token, decode, SUPER_ADMIN_ONLY))
    ensures Gate(token, decode, SUPER_ADMIN_ONLY).Admitted? && body.None? ==> res == Fail(500, INTERNAL_ERROR)
    // the conflict is found before the password is looked at
    ensures (Gate(token, decode, SUPER_ADMIN_ONLY).Admitted? && body.Some? &&
             Lookup(old(db.admins), body.value.email).Some?) ==> res == Fail(409, "Admin already exists")
    ensures (Gate(token, decode, SUPER_ADMIN_ONLY).Admitted? && body.Some? &&
             Lookup(old(db.admins), body.value.email).None? &&
             (body.value.password.None? ||
              refuses(NewAdminRow(NewRow(old(db.nextId), body.value, hash, now))))) ==>
              res == Fail(500, INTERNAL_ERROR)
    // only a 201 writes, and it appends exactly one row
    ensures res.status != 201 ==> db.admins == old(db.admins) && db.nextId == old(db.nextId)
    ensures res.status == 201 <==>
              (Gate(token, decode, SUPER_ADMIN_ONLY).Admitted? && body.Some? &&
               Lookup(old(db.admins), body.value.email).None? && body.value.password.Some? &&
               !refuses(NewAdminRow(NewRow(old(db.nextId), body.value, hash, now))))
    ensures res.status == 201 ==>
              var row := NewRow(old(db.nextId), body.value, hash, now);
              db.admins == old(db.admins) + [row] && db.nextId == old(db.nextId) + 1 &&
              res == Json(201, CreateReply("Admin created successfully", Profile(row)))
  {
    var gate := Gate(token, decode, SUPER_ADMIN_ONLY);
    if gate.Refused? {
      return Refusal(gate);
    }
    if body.None? {
      return Fail(500, INTERNAL_ERROR);
    }
    var existing := Lookup(db.admins, body.value.email);
    if existing.Some? {
      return Fail(409, "Admin already exists");
    }
    if body.value.password.None? {
      return Fail(500, INTERNAL_ERROR);
    }
    var hashedPassword := hash(body.value.password.value);
    var role := body.value.role.GetOr(DEFAULT_ROLE);
    var row := Admin(db.nextId, DerivedUsername(body.value.username, body.value.email),
                     body.value.email, hashedPassword, role, now);
    if refuses(NewAdminRow(row)) {
      return Fail(500, INTERNAL_ERROR);
    }
    var newAdmin := db.InsertAdmin(row.username, row.email, row.password, row.role, now);
    res := Json(201, CreateReply("Admin created successfully", Profile(newAdmin)));
  }
}
