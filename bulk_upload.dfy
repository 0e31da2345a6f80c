/** POST /api/bulk-upload: create one student per row of an uploaded CSV file, and
    report for each row, in order, whether its create succeeded. The route checks no
    session. */
module BulkUpload {
  import opened Common
  import opened Http
  import opened Db

  /** A parsed CSV row (`columns: true`): the three columns the route reads. */
  datatype CsvRow = CsvRow(username: string, email: string, password: string)

  /** The CSV library on the uploaded bytes: the rows, or `None` when `parse` throws. */
  type CsvParser = seq<bv8> -> Option<seq<CsvRow>>

  /** Whether `student.create` throws for a row whose email is not yet taken, given the
      students stored so far: a schema constraint that is not part of this model. */
  type StudentRefuses = (seq<Student>, CsvRow) -> bool

  /** The form: the `file` part's bytes, if there is one. */
  datatype UploadForm = UploadForm(file: Option<seq<bv8>>)

  const CREATED := "created"
  const REJECTED := "duplicate/error"

  datatype RowResult = RowResult(email: string, status: string)

  datatype BulkUploadReply = BulkUploadReply(results: seq<RowResult>)

  /** The loop's state: the student table, the id counter and the results so far. */
  datatype RowPass = RowPass(students: seq<Student>, nextId: nat, results: seq<RowResult>)

  /** The unique key on student emails. */
  predicate EmailTaken(students: seq<Student>, email: string) {
    FindBy(students, StudentEmail, email).Some?
  }

  /** One iteration: try the create, then record its outcome. */
  function RowStep(p: RowPass, row: CsvRow, refuses: StudentRefuses, now: DateTime): RowPass {
    if EmailTaken(p.students, row.email) || refuses(p.students, row) then p.(results := p.results + [RowResult(row.email, REJECTED)])
    else
      RowPass(p.students + [Student(p.nextId, row.username, row.email, row.password, now)], p.nextId + 1,
              p.results + [RowResult(row.email, CREATED)])
  }

  /** The loop over `rows`, in order. */
  function RowLoop(students: seq<Student>, nextId: nat, rows: seq<CsvRow>, refuses: StudentRefuses,
                   now: DateTime): RowPass
    decreases |rows|
  {
    if rows == [] then RowPass(students, nextId, [])
    else RowStep(RowLoop(students, nextId, rows[..|rows| - 1], refuses, now), rows[|rows| - 1], refuses, now)
  }

  lemma RowLoopSnoc(students: seq<Student>, nextId: nat, rows: seq<CsvRow>, n: nat, refuses: StudentRefuses,
                    now: DateTime)
    requires n < |rows|
    ensures RowLoop(students, nextId, rows[..n + 1], refuses, now) ==
            RowStep(RowLoop(students, nextId, rows[..n], refuses, now), rows[n], refuses, now)
  {
    assert rows[..n + 1][..n] == rows[..n];
  }

  /** `form` is `None` when the body is not a form: `formData()` throws and nothing catches it. */
  method UploadStudents(db: Database, form: Option<UploadForm>, parse: CsvParser, refuses: StudentRefuses,
                        now: DateTime)
    returns (res: Response<BulkUploadReply>)
    modifies db`students, db`nextId
    ensures form.None? ==> res == Unhandled()
    ensures form.Some? && form.value.file.None? ==> res == Fail(400, "No file uploaded")
    ensures form.Some? && form.value.file.Some? && parse(form.value.file.value).None? ==>
              res == Fail(400, "CSV parse failed")
    ensures res.status != 200 ==> db.students == old(db.students) && db.nextId == old(db.nextId)
    ensures form.Some? && form.value.file.Some? && parse(form.value.file.value).Some? ==>
              var p := RowLoop(old(db.students), old(db.nextId), parse(form.value.file.value).value, refuses, now);
              db.students == p.students && db.nextId == p.nextId && res == Json(200, BulkUploadReply(p.results))
  {
    if form.None? {
      return Unhandled();
    }
    var file := form.value.file;
    if file.None? {
      return Fail(400, "No file uploaded");
    }
    var usersCsv := parse(file.value);
    if usersCsv.None? {
      return Fail(400, "CSV parse failed");
    }
    var rows := usersCsv.value;
    var results: seq<RowResult> := [];
    var n := 0;
    while n < |rows|
      invariant 0 <= n <= |rows|
      invariant RowLoop(old(db.students), old(db.nextId), rows[..n], refuses, now) ==
                RowPass(db.students, db.nextId, results)
    {
      RowLoopSnoc(old(db.students), old(db.nextId), rows, n, refuses, now);
      var row := rows[n];
      var taken := FindBy(db.students, StudentEmail, row.email);
      if taken.Some? || refuses(db.students, row) {
        results := results + [RowResult(row.email, REJECTED)];
      } else {
        var id := db.NewId();
        db.students := db.students + [Student(id, row.username, row.email, row.password, now)];
        results := results + [RowResult(row.email, CREATED)];
      }
      n := n + 1;
    }
    assert rows[..n] == rows;
    res := Json(200, BulkUploadReply(results));
  }

  /** The rows whose result is `created`, in order. */
  function Accepted(rows: seq<CsvRow>, results: seq<RowResult>): seq<CsvRow>
    requires |rows| == |results|
    decreases |rows|
  {
    if rows == [] then []
    else Accepted(rows[..|rows| - 1], results[..|results| - 1]) +
         (if results[|results| - 1].status == CREATED then [rows[|rows| - 1]] else [])
  }

  /** The three columns a stored student came from. */
  function Columns(s: Student): CsvRow {
    CsvRow(s.username, s.email, s.password)
  }

  function ColumnsOf(students: seq<Student>): (r: seq<CsvRow>)
    ensures |r| == |students| && forall i :: 0 <= i < |students| ==> r[i] == Columns(students[i])
  {
    seq(|students|, i requires 0 <= i < |students| => Columns(students[i]))
  }

  /** One result per row, in row order, carrying the row's email and one of the two
      statuses; a rejected row does not stop the loop. */
  lemma {:induction false} OneResultPerRow(students: seq<Student>, nextId: nat, rows: seq<CsvRow>,
                                          refuses: StudentRefuses, now: DateTime)
    ensures var p := RowLoop(students, nextId, rows, refuses, now);
            && |p.results| == |rows|
            && forall k :: 0 <= k < |rows| ==>
                 p.results[k].email == rows[k].email && p.results[k].status in {CREATED, REJECTED}
    decreases |rows|
  {
    if rows != [] {
      OneResultPerRow(students, nextId, rows[..|rows| - 1], refuses, now);
    }
  }

  /** The table only grows, and what it gains is, in order, exactly the rows reported as
      created, with their columns stored verbatim (the password too) and consecutive
      fresh ids. */
  lemma {:induction false} CreatedRowsStoredVerbatim(students: seq<Student>, nextId: nat, rows: seq<CsvRow>,
                                                    refuses: StudentRefuses, now: DateTime)
    ensures var p := RowLoop(students, nextId, rows, refuses, now);
            && |p.results| == |rows|
            && students <= p.students
            && ColumnsOf(p.students[|students|..]) == Accepted(rows, p.results)
            && p.nextId == nextId + |p.students| - |students|
            && forall j :: |students| <= j < |p.students| ==>
                 p.students[j].id == nextId + (j - |students|) && p.students[j].createdAt == now
    decreases |rows|
  {
    if rows != [] {
      var init := rows[..|rows| - 1];
      var row := rows[|rows| - 1];
      var p := RowLoop(students, nextId, init, refuses, now);
      CreatedRowsStoredVerbatim(students, nextId, init, refuses, now);
      OneResultPerRow(students, nextId, init, refuses, now);
      var r := RowLoop(students, nextId, rows, refuses, now);
      assert r.results[..|r.results| - 1] == p.results;
      if EmailTaken(p.students, row.email) || refuses(p.students, row) {
        assert r.students == p.students;
      } else {
        var added := Student(p.nextId, row.username, row.email, row.password, now);
        assert r.students[|students|..] == p.students[|students|..] + [added];
        assert ColumnsOf(r.students[|students|..]) == ColumnsOf(p.students[|students|..]) + [Columns(added)];
      }
    }
  }

  /** No two students share an email. */
  ghost predicate EmailsUnique(students: seq<Student>) {
    forall i, j :: 0 <= i < |students| && 0 <= j < |students| && i != j ==> students[i].email != students[j].email
  }

  /** The email key holds after an upload: a row whose email is already stored, by an
      earlier upload or an earlier row of this file, is reported as rejected and not
      stored. */
  lemma {:induction false} UploadKeepsEmailsUnique(students: seq<Student>, nextId: nat, rows: seq<CsvRow>,
                                                  refuses: StudentRefuses, now: DateTime)
    requires EmailsUnique(students)
    ensures EmailsUnique(RowLoop(students, nextId, rows, refuses, now).students)
    decreases |rows|
  {
    if rows != [] {
      var init := rows[..|rows| - 1];
      var row := rows[|rows| - 1];
      UploadKeepsEmailsUnique(students, nextId, init, refuses, now);
      var p := RowLoop(students, nextId, init, refuses, now);
      if !EmailTaken(p.students, row.email) && !refuses(p.students, row) {
        var r := p.students + [Student(p.nextId, row.username, row.email, row.password, now)];
        forall i, j | 0 <= i < |r| && 0 <= j < |r| && i != j ensures r[i].email != r[j].email {
          if i < |p.students| && j < |p.students| {
            assert r[i] == p.students[i] && r[j] == p.students[j];
          } else if i < |p.students| {
            assert r[i] == p.students[i];
          } else {
            assert r[j] == p.students[j];
          }
        }
      }
    }
  }
}
