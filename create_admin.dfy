/** The create-admin script: add the default super admin unless its email is
    already taken, and leave everything as it is otherwise. */
module CreateAdminScript {
  import opened Common
  import opened Auth
  import opened Db
  import opened AdminLogin
  import opened CreateUser
  import opened ResetAdmin

  /** Returns whether it created the account. */
  method CreateDefaultAdmin(db: Database, hash: Hasher, now: DateTime) returns (created: bool)
    requires db.Valid()
    modifies db`admins, db`nextId
    ensures db.Valid()
    ensures created <==> Lookup(old(db.admins), DEFAULT_EMAIL).None?
    ensures !created ==> db.admins == old(db.admins) && db.nextId == old(db.nextId)
    ensures created ==>
              db.admins == old(db.admins) + [DefaultAdmin(old(db.nextId), hash, now)] &&
              db.nextId == old(db.nextId) + 1
    // either way the default email ends up held by exactly one admin
    ensures CountEmail(db.admins, DEFAULT_EMAIL) == 1
  {
    var existing := Lookup(db.admins, DEFAULT_EMAIL);
    if existing.Some? {
      created := false;
    } else {
      var hashed := hash(DEFAULT_PASSWORD);
      var admin := db.InsertAdmin(DEFAULT_USERNAME, DEFAULT_EMAIL, hashed, SUPER_ADMIN, now);
      FindByAppend(old(db.admins), [admin], AdminEmail, DEFAULT_EMAIL);
      assert FindBy([admin], AdminEmail, DEFAULT_EMAIL) == Some(0);
      created := true;
    }
    CountEmailUnique(db.admins, db.nextId, DEFAULT_EMAIL);
  }
}
