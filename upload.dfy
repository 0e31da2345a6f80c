/** POST /api/upload: store an image a staff member sends, under a name made of the
    upload time and the original file name, and record it, optionally against an
    existing question. */
module Upload {
  import opened Common
  import opened Http
  import opened Auth
  import opened Db

  /** The `image` part of the form. */
  datatype FilePart = FilePart(name: string, mimeType: string, bytes: seq<bv8>)

  /** The form: the image, if any, and the `questionId` field when it is truthy. */
  datatype UploadForm = UploadForm(image: Option<FilePart>, questionId: Option<Id>)

  datatype UploadReply = UploadReply(message: string, file: UploadedFile)

  /** What the route reads and writes: the disk, the record table and the id counter.
      The question table is only read. */
  datatype UploadStore = UploadStore(files: map<seq<string>, seq<bv8>>, uploads: seq<UploadedFile>, nextId: nat)

  ghost function StoreOf(db: Database): UploadStore
    reads db
  {
    UploadStore(db.files, db.uploads, db.nextId)
  }

  const NO_FILE := "No file provided"
  const UNKNOWN_QUESTION := "Invalid question ID - question not found"

  /** `${Date.now()}-${file.name}` */
  function UploadName(now: nat, name: string): (r: string)
    ensures Before(r, '-') == NatToString(now)
  {
    var stamp := NatToString(now);
    BeforeJoin(stamp, '-', name);
    stamp + "-" + name
  }

  /** A POSIX path as its segments, split at every '/'; a leading, doubled or trailing
      '/' gives an empty segment. */
  function Segments(p: string): (r: seq<string>)
    ensures |r| >= 1
    decreases |p|
  {
    if p == [] then [[]]
    else
      var rest := Segments(p[1..]);
      if p[0] == '/' then [[]] + rest else [[p[0]] + rest[0]] + rest[1..]
  }

  lemma {:induction false} SegmentsWithoutSlash(p: string)
    requires '/' !in p
    ensures Segments(p) == [p]
    decreases |p|
  {
    if p != [] {
      SegmentsWithoutSlash(p[1..]);
      assert [p[0]] + p[1..] == p;
    }
  }

  lemma {:induction false} SegmentsAtSlash(a: string, b: string)
    requires '/' !in a
    ensures Segments(a + "/" + b) == [a] + Segments(b)
    decreases |a|
  {
    if a == [] {
      assert (a + "/" + b)[1..] == b;
    } else {
      assert (a + "/" + b)[1..] == a[1..] + "/" + b;
      SegmentsAtSlash(a[1..], b);
      assert [a[0]] + a[1..] == a;
    }
  }

  /** Walking the segments from the directory `dir` as `path.join` normalises them:
      empty and `.` segments stay put, `..` goes up one level (never above the root),
      any other segment goes down into it. */
  function Resolve(dir: seq<string>, parts: seq<string>): seq<string>
    decreases |parts|
  {
    if parts == [] then dir
    else if parts[0] == "" || parts[0] == "." then Resolve(dir, parts[1..])
    else if parts[0] == ".." then Resolve(if dir == [] then [] else dir[..|dir| - 1], parts[1..])
    else Resolve(dir + [parts[0]], parts[1..])
  }

  /** A segment that names a directory entry moves down into it. */
  lemma ResolveDown(dir: seq<string>, part: string, rest: seq<string>)
    requires part != "" && part != "." && part != ".."
    ensures Resolve(dir, [part] + rest) == Resolve(dir + [part], rest)
  {
    assert ([part] + rest)[1..] == rest;
  }

  /** `..` below the root moves up one level. */
  lemma ResolveUp(dir: seq<string>, part: string, rest: seq<string>)
    requires dir != [] && part == ".."
    ensures Resolve(dir, [part] + rest) == Resolve(dir[..|dir| - 1], rest)
  {
    assert ([part] + rest)[1..] == rest;
  }

  /** `path.join(dir, rel)` for an absolute, normalised `dir`. */
  function Join(dir: seq<string>, rel: string): seq<string> {
    Resolve(dir, Segments(rel))
  }

  /** `path.join(process.cwd(), 'public/uploads')`; the working directory is given as
      the segments of its absolute path. */
  function UploadDir(cwd: seq<string>): (r: seq<string>)
    ensures r == cwd + ["public", "uploads"]
  {
    var public, uploads := "public", "uploads";
    assert '/' !in public && '/' !in uploads;
    SegmentsAtSlash(public, uploads);
    SegmentsWithoutSlash(uploads);
    ResolveDown(cwd, public, [uploads]);
    ResolveDown(cwd + [public], uploads, []);
    assert cwd + [public] + [uploads] == cwd + [public, uploads];
    Join(cwd, public + "/" + uploads)
  }

  /** `path.join(uploadDir, fileName)`: where `fs.writeFile` puts the bytes. */
  function StoredPath(cwd: seq<string>, fileName: string): seq<string> {
    Join(UploadDir(cwd), fileName)
  }

  /** An original name without '/' lands in the upload directory under exactly the
      name the record gives. */
  lemma PlainNameStaysInUploads(cwd: seq<string>, now: nat, name: string)
    requires '/' !in name
    ensures StoredPath(cwd, UploadName(now, name)) == cwd + ["public", "uploads", UploadName(now, name)]
  {
    var fileName := UploadName(now, name);
    StampedName(now, name);
    SegmentsWithoutSlash(fileName);
    var dir := UploadDir(cwd);
    ResolveDown(dir, fileName, []);
    assert [fileName] + [] == [fileName];
  }

  /** The stored name of an original name without '/' has none either, and it is an
      ordinary segment: never empty, `.` or `..`, since it holds a '-'. */
  lemma StampedName(now: nat, name: string)
    requires '/' !in name
    ensures var r := UploadName(now, name); '/' !in r && r != "" && r != "." && r != ".."
  {
    var stamp := NatToString(now);
    var r := UploadName(now, name);
    assert r == stamp + "-" + name;
    forall i | 0 <= i < |r|
      ensures r[i] != '/'
    {
      if i < |stamp| {
        assert r[i] == stamp[i];
      } else if i > |stamp| {
        assert r[i] == name[i - |stamp| - 1];
      }
    }
    assert r[|stamp|] == '-';
  }

  /** A '..' in the original name leaves the upload directory: a file sent as
      `x/../../logo.png` overwrites `public/logo.png`, whatever the time. */
  lemma ParentSegmentsEscapeUploads(cwd: seq<string>, now: nat)
    ensures StoredPath(cwd, UploadName(now, "x/../../logo.png")) == cwd + ["public", "logo.png"]
  {
    assert "x/../../logo.png" == "x" + "/../../" + "logo.png";
    UpTwoLevels(cwd, now, "x", "logo.png");
  }

  /** `<stamp>-d/../../name` resolves to `name` in public. */
  lemma UpTwoLevels(cwd: seq<string>, now: nat, d: string, name: string)
    requires '/' !in d && '/' !in name && name != "" && name != "." && name != ".."
    ensures StoredPath(cwd, UploadName(now, d + "/../../" + name)) == cwd + ["public", name]
  {
    var up := "..";
    var first := UploadName(now, d);
    StampedName(now, d);
    assert UploadName(now, d + "/../../" + name) == first + "/" + (up + "/" + (up + "/" + name));
    SegmentsAtSlash(first, up + "/" + (up + "/" + name));
    SegmentsAtSlash(up, up + "/" + name);
    SegmentsAtSlash(up, name);
    SegmentsWithoutSlash(name);
    var dir := UploadDir(cwd);
    assert [first] + ([up] + ([up] + [name])) == [first] + ([up] + ([up] + ([name] + [])));
    ResolveDown(dir, first, [up] + ([up] + ([name] + [])));
    assert (dir + [first])[..|dir + [first]| - 1] == dir;
    ResolveUp(dir + [first], up, [up] + ([name] + []));
    assert dir[..|dir| - 1] == cwd + ["public"];
    ResolveUp(dir, up, [name] + []);
    ResolveDown(cwd + ["public"], name, []);
  }

  /** Different original names can share a file: `a/../b.png` and `c/../b.png` sent in
      the same millisecond both write `public/uploads/b.png`, although their records
      name different files. */
  lemma DifferentNamesShareAFile(cwd: seq<string>, now: nat)
    ensures UploadName(now, "a/../b.png") != UploadName(now, "c/../b.png")
    ensures StoredPath(cwd, UploadName(now, "a/../b.png")) == cwd + ["public", "uploads", "b.png"]
    ensures StoredPath(cwd, UploadName(now, "c/../b.png")) == cwd + ["public", "uploads", "b.png"]
  {
    if UploadName(now, "a/../b.png") == UploadName(now, "c/../b.png") {
      UploadNamesDistinct(now, "a/../b.png", now, "c/../b.png");
    }
    assert "a/../b.png" == "a" + "/../b.png" && "c/../b.png" == "c" + "/../b.png";
    UpOneLevel(cwd, now, "a");
    UpOneLevel(cwd, now, "c");
  }

  /** `<stamp>-d/../b.png` resolves to `b.png` in the upload directory. */
  lemma UpOneLevel(cwd: seq<string>, now: nat, d: string)
    requires '/' !in d
    ensures StoredPath(cwd, UploadName(now, d + "/../b.png")) == cwd + ["public", "uploads", "b.png"]
  {
    var up, png := "..", "b.png";
    var first := UploadName(now, d);
    StampedName(now, d);
    assert UploadName(now, d + "/../b.png") == first + "/" + (up + "/" + png);
    SegmentsAtSlash(first, up + "/" + png);
    SegmentsAtSlash(up, png);
    SegmentsWithoutSlash(png);
    var dir := UploadDir(cwd);
    assert [first] + ([up] + [png]) == [first] + ([up] + ([png] + []));
    ResolveDown(dir, first, [up] + ([png] + []));
    assert (dir + [first])[..|dir + [first]| - 1] == dir;
    ResolveUp(dir + [first], up, [png] + []);
    ResolveDown(dir, png, []);
  }

  /** The record `uploadedFile.create` writes. */
  function Record(id: Id, image: FilePart, now: nat, uploadedBy: Id, questionId: Option<Id>): UploadedFile {
    var fileName := UploadName(now, image.name);
    UploadedFile(id, image.name, fileName, "/uploads/" + fileName, |image.bytes|, image.mimeType,
                 uploadedBy, questionId)
  }

  /** The route: the store afterwards and the response. `form` is `None` when the body
      is not a form, which makes `formData()` throw. */
  function UploadOutcome(s: UploadStore, questions: seq<Question>, gate: Admission, form: Option<UploadForm>,
                         cwd: seq<string>, now: nat): (UploadStore, Response<UploadReply>)
  {
    if gate.Refused? then (s, Refusal(gate))
    else if form.None? then (s, Fail(500, INTERNAL_ERROR))
    else if form.value.image.None? then (s, Fail(400, NO_FILE))
    else if form.value.questionId.Some? && FindBy(questions, QuestionId, form.value.questionId.value).None? then
      (s, Fail(400, UNKNOWN_QUESTION))
    else
      var image := form.value.image.value;
      var record := Record(s.nextId, image, now, gate.claims.id, form.value.questionId);
      (UploadStore(s.files[StoredPath(cwd, record.fileName) := image.bytes], s.uploads + [record], s.nextId + 1),
       Json(201, UploadReply("Image uploaded", record)))
  }

  /** `cwd` is `process.cwd()` as path segments, `now` is `Date.now()` in milliseconds. */
  method UploadImage(db: Database, token: Option<string>, decode: Decoder, form: Option<UploadForm>,
                     cwd: seq<string>, now: nat)
    returns (res: Response<UploadReply>)
    modifies db`files, db`uploads, db`nextId
    ensures (StoreOf(db), res) ==
            UploadOutcome(old(StoreOf(db)), db.questions, Gate(token, decode, STAFF_ROLES), form, cwd, now)
  {
    var gate := Gate(token, decode, STAFF_ROLES);
    if gate.Refused? {
      return Refusal(gate);
    }
    if form.None? {
      return Fail(500, INTERNAL_ERROR);
    }
    var file := form.value.image;
    var questionId := form.value.questionId;
    if file.None? {
      return Fail(400, NO_FILE);
    }
    if questionId.Some? {
      var question := FindBy(db.questions, QuestionId, questionId.value);
      if question.None? {
        return Fail(400, UNKNOWN_QUESTION);
      }
    }
    var uploadDir := UploadDir(cwd);
    var fileName := UploadName(now, file.value.name);
    var filePath := Join(uploadDir, fileName);
    db.files := db.files[filePath := file.value.bytes];
    var id := db.NewId();
    var uploaded := UploadedFile(id, file.value.name, fileName, "/uploads/" + fileName, |file.value.bytes|,
                                 file.value.mimeType, gate.claims.id, questionId);
    db.uploads := db.uploads + [uploaded];
    res := Json(201, UploadReply("Image uploaded", uploaded));
  }

  /** Two uploads get the same stored name only when they have the same original name
      and arrive in the same millisecond; then the later one replaces the earlier file
      on disk while both records remain. */
  lemma UploadNamesDistinct(now1: nat, name1: string, now2: nat, name2: string)
    requires UploadName(now1, name1) == UploadName(now2, name2)
    ensures now1 == now2 && name1 == name2
  {
    NatToStringInjective(now1, now2);
    var stamp := NatToString(now1);
    assert name1 == UploadName(now1, name1)[|stamp| + 1..];
    assert name2 == UploadName(now2, name2)[|stamp| + 1..];
  }

  /** A 201 means: the record describes the stored file (its name starts with the upload
      time, its path is under /uploads, its size is the file's), the file `path.join`
      resolves holds exactly the bytes sent and no other file changed (for an original
      name without '/' that file is the record's name in public/uploads), the record names the uploader and, when it
      names a question, that question exists. Every other answer changes nothing. */
  lemma UploadStoresWhatItRecords(s: UploadStore, questions: seq<Question>, token: Option<string>,
                                  decode: Decoder, form: Option<UploadForm>, cwd: seq<string>, now: nat)
    ensures var gate := Gate(token, decode, STAFF_ROLES);
            var (s', res) := UploadOutcome(s, questions, gate, form, cwd, now);
            && (res.status == 201 <==>
                  gate.Admitted? && form.Some? && form.value.image.Some? &&
                  (form.value.questionId.Some? ==> FindBy(questions, QuestionId, form.value.questionId.value).Some?))
            && (res.status != 201 ==> s' == s)
            && (res.status == 201 ==>
                  var image := form.value.image.value;
                  && res.body.Data? && res.body.data.message == "Image uploaded"
                  && var f := res.body.data.file;
                  && s'.uploads == s.uploads + [f] && s'.nextId == s.nextId + 1 && f.id == s.nextId
                  && Before(f.fileName, '-') == NatToString(now)
                  && f.filePath == "/uploads/" + f.fileName
                  && var path := StoredPath(cwd, f.fileName);
                  && s'.files.Keys == s.files.Keys + {path}
                  && s'.files[path] == image.bytes && f.fileSize == |image.bytes|
                  && (forall n :: n in s.files && n != path ==> s'.files[n] == s.files[n])
                  && ('/' !in image.name ==> path == cwd + ["public", "uploads", f.fileName])
                  && f.originalName == image.name && f.mimeType == image.mimeType
                  && f.uploadedBy == gate.claims.id
                  && (f.questionId.Some? ==> exists i :: 0 <= i < |questions| && questions[i].id == f.questionId.value))
  {
    var gate := Gate(token, decode, STAFF_ROLES);
    var (s', res) := UploadOutcome(s, questions, gate, form, cwd, now);
    if res.status == 201 {
      var image := form.value.image.value;
      var f := Record(s.nextId, image, now, gate.claims.id, form.value.questionId);
      var path := StoredPath(cwd, f.fileName);
      assert s' == UploadStore(s.files[path := image.bytes], s.uploads + [f], s.nextId + 1);
      if '/' !in image.name {
        PlainNameStaysInUploads(cwd, now, image.name);
      }
      if f.questionId.Some? {
        var i := FindBy(questions, QuestionId, f.questionId.value);
        assert questions[i.value].id == f.questionId.value;
      }
    }
  }
}
