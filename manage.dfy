/** /api/admin/manage: list every admin, and delete one by id unless it is the
    only admin left. Neither handler checks a session. */
module ManageAdmins {
  import opened Common
  import opened Http
  import opened Db

  /** The selected columns: no username, role or password hash. */
  datatype AdminSummary = AdminSummary(id: Id, email: string, createdAt: DateTime)

  function Summary(a: Admin): AdminSummary {
    AdminSummary(a.id, a.email, a.createdAt)
  }

  /** GET: every admin, in table order. */
  method ListAdmins(db: Database) returns (res: Response<seq<AdminSummary>>)
    ensures res.status == 200 && res.cookies == [] && res.body.Data?
    ensures |res.body.data| == |db.admins|
    ensures forall i :: 0 <= i < |db.admins| ==>
              res.body.data[i].id == db.admins[i].id && res.body.data[i].email == db.admins[i].email &&
              res.body.data[i].createdAt == db.admins[i].createdAt
  {
    var admins := db.admins;
    var rows := seq(|admins|, i requires 0 <= i < |admins| => Summary(admins[i]));
    res := Json(200, rows);
  }

  /** In a well-formed table the listing names each admin once. */
  lemma ListingIdsDistinct(rows: seq<Admin>, nextId: nat, listing: seq<AdminSummary>)
    requires AdminTableOk(rows, nextId)
    requires |listing| == |rows| && forall i :: 0 <= i < |rows| ==> listing[i].id == rows[i].id
    ensures forall i, j :: 0 <= i < j < |listing| ==> listing[i].id != listing[j].id
  {
  }

  /** The parsed DELETE body; `id` is `None` when the field is missing. The whole
      body is `None` when it is not JSON. */
  datatype DeleteRequest = DeleteRequest(id: Option<Id>)

  datatype DeleteReply = DeleteReply(success: bool)

  const LAST_ADMIN := "At least one admin required"

  /** Removing one admin keeps the table well formed, and in a well-formed table no
      row with the removed id is left. */
  lemma RemoveAtKeepsTableOk(rows: seq<Admin>, nextId: nat, i: nat)
    requires AdminTableOk(rows, nextId) && i < |rows|
    ensures AdminTableOk(RemoveAt(rows, i), nextId)
    ensures forall a :: a in RemoveAt(rows, i) ==> a.id != rows[i].id
  {
    var r := RemoveAt(rows, i);
    forall a | a in r ensures a.id != rows[i].id {
      var j :| 0 <= j < |r| && r[j] == a;
      if j < i {
        assert r[j] == rows[j];
      } else {
        assert r[j] == rows[j + 1];
      }
    }
    forall j, k | 0 <= j < k < |r| ensures r[j].id != r[k].id && r[j].email != r[k].email {
      var j' := if j < i then j else j + 1;
      var k' := if k < i then k else k + 1;
      assert r[j] == rows[j'] && r[k] == rows[k'];
    }
  }

  /** Whether a question or an exam still names the admin as its creator: their
      foreign keys then make `admin.delete` throw. */
  predicate Owned(questions: seq<Question>, exams: seq<Exam>, id: Id) {
    (exists i :: 0 <= i < |questions| && questions[i].createdById == id) ||
    (exists i :: 0 <= i < |exams| && exams[i].createdById == id)
  }

  /** The admin table after one DELETE request. */
  function AfterDelete(rows: seq<Admin>, questions: seq<Question>, exams: seq<Exam>,
                       body: Option<DeleteRequest>): (r: seq<Admin>)
    ensures |rows| <= 1 ==> r == rows
    ensures r == rows || |r| == |rows| - 1
    ensures body.Some? && body.value.id.Some? && Owned(questions, exams, body.value.id.value) ==> r == rows
  {
    if body.None? || |rows| <= 1 || body.value.id.None? then rows
    else match FindBy(rows, AdminId, body.value.id.value)
      case None => rows
      case Some(i) => if Owned(questions, exams, body.value.id.value) then rows else RemoveAt(rows, i)
  }

  /** DELETE. A body that is not JSON, a missing id, an id no admin has and an admin
      whose questions or exams still refer to it all make the store call throw; nothing
      catches it, so the framework answers 500. */
  method DeleteAdmin(db: Database, body: Option<DeleteRequest>) returns (res: Response<DeleteReply>)
    requires db.Valid()
    modifies db`admins
    ensures db.Valid()
    ensures db.admins == AfterDelete(old(db.admins), db.questions, db.exams, body)
    ensures body.None? ==> res == Unhandled()
    ensures body.Some? && |old(db.admins)| <= 1 ==> res == Fail(403, LAST_ADMIN)
    ensures (body.Some? && |old(db.admins)| > 1 && body.value.id.Some? &&
             Owned(db.questions, db.exams, body.value.id.value)) ==> res == Unhandled()
    ensures res.status == 200 <==>
              (body.Some? && |old(db.admins)| > 1 && body.value.id.Some? &&
               FindBy(old(db.admins), AdminId, body.value.id.value).Some? &&
               !Owned(db.questions, db.exams, body.value.id.value))
    ensures res.status == 200 ==>
              res == Json(200, DeleteReply(true)) &&
              |db.admins| == |old(db.admins)| - 1 &&
              (forall a :: a in old(db.admins) && a.id != body.value.id.value ==> a in db.admins) &&
              (forall a :: a in db.admins ==> a.id != body.value.id.value)
    ensures res.status != 200 ==> db.admins == old(db.admins)
    ensures res.status in {200, 403, 500}
  {
    if body.None? {
      return Unhandled();
    }
    var count := |db.admins|;
    if count <= 1 {
      return Fail(403, LAST_ADMIN);
    }
    if body.value.id.None? {
      return Unhandled();
    }
    var id := body.value.id.value;
    var found := FindBy(db.admins, AdminId, id);
    if found.None? || Owned(db.questions, db.exams, id) {
      return Unhandled();
    }
    ghost var before := db.admins;
    RemoveAtKeepsTableOk(db.admins, db.nextId, found.value);
    db.admins := RemoveAt(db.admins, found.value);
    forall a | a in before && a.id != id ensures a in db.admins {
      var j :| 0 <= j < |before| && before[j] == a;
      assert j != found.value;
      if j < found.value {
        assert db.admins[j] == a;
      } else {
        assert db.admins[j - 1] == a;
      }
    }
    res := Json(200, DeleteReply(true));
  }

  /** The table after a series of DELETE requests, in order, against fixed question
      and exam tables. */
  function AfterDeletes(rows: seq<Admin>, questions: seq<Question>, exams: seq<Exam>,
                        bodies: seq<Option<DeleteRequest>>): seq<Admin>
    decreases |bodies|
  {
    if bodies == [] then rows
    else AfterDeletes(AfterDelete(rows, questions, exams, bodies[0]), questions, exams, bodies[1..])
  }

  /** The guard holds across any series of requests: a table with an admin never
      loses its last one through this route. */
  lemma {:induction false} LastAdminSurvives(rows: seq<Admin>, questions: seq<Question>, exams: seq<Exam>,
                                            bodies: seq<Option<DeleteRequest>>)
    requires |rows| >= 1
    ensures |AfterDeletes(rows, questions, exams, bodies)| >= 1
    decreases |bodies|
  {
    if bodies != [] {
      LastAdminSurvives(AfterDelete(rows, questions, exams, bodies[0]), questions, exams, bodies[1..]);
    }
  }

  /** The foreign keys hold across any series of requests: an admin who created a
      question or an exam is never deleted through this route. */
  lemma {:induction false} AuthorsSurvive(rows: seq<Admin>, questions: seq<Question>, exams: seq<Exam>,
                                         bodies: seq<Option<DeleteRequest>>, a: Admin)
    requires a in rows && Owned(questions, exams, a.id)
    ensures a in AfterDeletes(rows, questions, exams, bodies)
    decreases |bodies|
  {
    if bodies != [] {
      var next := AfterDelete(rows, questions, exams, bodies[0]);
      if next != rows {
        var i := FindBy(rows, AdminId, bodies[0].value.id.value).value;
        assert next == RemoveAt(rows, i) && rows[i].id != a.id;
        var j :| 0 <= j < |rows| && rows[j] == a;
        assert j != i;
        if j < i {
          assert next[j] == a;
        } else {
          assert next[j - 1] == a;
        }
      }
      AuthorsSurvive(next, questions, exams, bodies[1..], a);
    }
  }
}
