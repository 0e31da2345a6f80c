/** The relational store the handlers talk to, as in-memory tables. Each table is
    a sequence of rows in insertion order, which is the order `findFirst` searches and
    the order the model's `findMany` returns (the store's own order, without an
    `orderBy`, is left open). One counter hands out the ids of new rows. */
module Db {
  import opened Common

  datatype Admin = Admin(id: Id, username: string, email: string, password: string, role: string, createdAt: DateTime)

  datatype Student = Student(id: Id, username: string, email: string, password: string, createdAt: DateTime)

  /** The question fields a client supplies; optional ones are `None` when absent or null. */
  datatype QuestionData = QuestionData(
    content: string,
    questionImage: Option<string>,
    questionType: string,
    options: Option<seq<string>>,
    optionImages: Option<seq<string>>,
    correctAnswer: string,
    explanation: Option<string>,
    explanationImage: Option<string>,
    subject: string,
    category: string,
    subcategory: Option<string>,
    difficulty: string,
    estimatedTime: Option<int>)

  /** Usage statistics kept per question; `correctRate` and `avgTimeSpent` are floating
      point in the store and only ever copied here. */
  datatype QuestionStats = QuestionStats(timesUsed: int, correctRate: real, avgTimeSpent: real)

  datatype Question = Question(id: Id, data: QuestionData, createdById: Id, stats: QuestionStats)

  /** An exam, with the admin who created it (like a question's author, a foreign key
      the reset route clears before it deletes admins). */
  datatype Exam = Exam(id: Id, title: string, createdById: Id)

  datatype Tag = Tag(id: Id, name: string, color: Option<string>)

  datatype QuestionTag = QuestionTag(questionId: Id, tagId: Id)

  datatype Bank = Bank(
    id: Id, name: string, subject: string, category: string,
    subcategory: Option<string>, description: Option<string>, color: Option<string>)

  datatype BankQuestion = BankQuestion(questionId: Id, questionBankId: Id)

  datatype ExamQuestion = ExamQuestion(examId: Id, questionId: Id, order: nat)

  datatype UploadedFile = UploadedFile(
    id: Id, originalName: string, fileName: string, filePath: string, fileSize: nat,
    mimeType: string, uploadedBy: Id, questionId: Option<Id>)

  datatype TemplateSection = TemplateSection(
    name: string, order: nat, timeLimit: nat, lockAfterTime: Option<nat>,
    totalQuestions: nat, easyCount: nat, mediumCount: nat, hardCount: nat, expertCount: nat,
    instructions: string)

  datatype Template = Template(
    id: Id, name: string, subject: string, description: string, totalTime: nat,
    allowBackward: bool, showTimer: bool, instructions: string, sections: seq<TemplateSection>)

  /** An audit entry; `userType` names the table `userId` refers to. */
  datatype Audit = Audit(id: Id, userId: Option<Id>, userType: string, action: string, createdAt: DateTime)

  /** Every table at once, for stating that an operation changed nothing. */
  datatype Tables = Tables(
    admins: seq<Admin>, students: seq<Student>, questions: seq<Question>, exams: seq<Exam>,
    tags: seq<Tag>, questionTags: seq<QuestionTag>, banks: seq<Bank>,
    bankQuestions: seq<BankQuestion>, examQuestions: seq<ExamQuestion>,
    uploads: seq<UploadedFile>, templates: seq<Template>, audits: seq<Audit>,
    files: map<seq<string>, seq<bv8>>, nextId: nat)

  /** `findFirst`/`findUnique`: the index of the first row whose key is `k`. */
  function FindBy<T, K(==)>(rows: seq<T>, key: T -> K, k: K): (r: Option<nat>)
    ensures r.Some? ==> r.value < |rows| && key(rows[r.value]) == k
    ensures r.Some? ==> forall j :: 0 <= j < r.value ==> key(rows[j]) != k
    ensures r.None? <==> forall j :: 0 <= j < |rows| ==> key(rows[j]) != k
  {
    if rows == [] then None
    else if key(rows[0]) == k then Some(0)
    else match FindBy(rows[1..], key, k)
      case None => None
      case Some(i) => Some(i + 1)
  }

  /** Appending rows does not change which row a search finds first, when it finds one;
      when it finds none, the search goes on in the appended rows. */
  lemma {:induction false} FindByAppend<T, K>(rows: seq<T>, more: seq<T>, key: T -> K, k: K)
    ensures FindBy(rows, key, k).Some? ==> FindBy(rows + more, key, k) == FindBy(rows, key, k)
    ensures FindBy(rows, key, k).None? && FindBy(more, key, k).Some? ==>
              FindBy(rows + more, key, k) == Some(|rows| + FindBy(more, key, k).value)
    ensures FindBy(rows, key, k).None? && FindBy(more, key, k).None? ==> FindBy(rows + more, key, k).None?
  {
    if rows == [] {
      assert rows + more == more;
    } else {
      assert (rows + more)[0] == rows[0];
      assert (rows + more)[1..] == rows[1..] + more;
      FindByAppend(rows[1..], more, key, k);
    }
  }

  /** One pass of a find-then-create loop: an item whose key is already in the table is
      left alone, any other gets a new row `make(id, item)` with the next id. The state
      is the table and the counter. */
  function FindOrCreateStep<T, D, K(==)>(acc: (seq<T>, nat), d: D, key: T -> K, dkey: D -> K,
                                          make: (Id, D) -> T): (seq<T>, nat)
  {
    if FindBy(acc.0, key, dkey(d)).Some? then acc else (acc.0 + [make(acc.1, d)], acc.1 + 1)
  }

  /** The whole loop over `items`, in order. */
  function FindOrCreate<T, D, K(==)>(rows: seq<T>, nextId: nat, items: seq<D>,
                                      key: T -> K, dkey: D -> K, make: (Id, D) -> T): (seq<T>, nat)
    decreases |items|
  {
    if items == [] then (rows, nextId)
    else FindOrCreateStep(FindOrCreate(rows, nextId, items[..|items| - 1], key, dkey, make),
                          items[|items| - 1], key, dkey, make)
  }

  /** The loop over a prefix, then one more pass. */
  lemma FindOrCreateSnoc<T, D, K>(rows: seq<T>, nextId: nat, items: seq<D>, n: nat,
                                  key: T -> K, dkey: D -> K, make: (Id, D) -> T)
    requires n < |items|
    ensures FindOrCreate(rows, nextId, items[..n + 1], key, dkey, make) ==
            FindOrCreateStep(FindOrCreate(rows, nextId, items[..n], key, dkey, make), items[n], key, dkey, make)
  {
    assert items[..n + 1][..n] == items[..n];
  }

  /** A find-or-create loop only appends, and uses one id per new row. */
  lemma {:induction false} FindOrCreateGrows<T, D, K>(rows: seq<T>, nextId: nat, items: seq<D>,
                                                     key: T -> K, dkey: D -> K, make: (Id, D) -> T)
    ensures var res := FindOrCreate(rows, nextId, items, key, dkey, make);
            rows <= res.0 && res.1 == nextId + (|res.0| - |rows|)
    decreases |items|
  {
    if items != [] {
      FindOrCreateGrows(rows, nextId, items[..|items| - 1], key, dkey, make);
    }
  }

  /** A row a find-or-create loop finds stays the one found: it never adds a row in front of it. */
  lemma {:induction false} FindOrCreateKeepsFound<T, D, K>(rows: seq<T>, nextId: nat, items: seq<D>,
                                                          key: T -> K, dkey: D -> K, make: (Id, D) -> T, x: K)
    requires FindBy(rows, key, x).Some?
    ensures FindBy(FindOrCreate(rows, nextId, items, key, dkey, make).0, key, x) == FindBy(rows, key, x)
    decreases |items|
  {
    if items != [] {
      var init := items[..|items| - 1];
      FindOrCreateKeepsFound(rows, nextId, init, key, dkey, make, x);
      var prev := FindOrCreate(rows, nextId, init, key, dkey, make);
      var d := items[|items| - 1];
      if FindBy(prev.0, key, dkey(d)).None? {
        FindByAppend(prev.0, [make(prev.1, d)], key, x);
      }
    }
  }

  /** After a find-or-create loop every item's key is in the table. */
  lemma {:induction false} FindOrCreatePresent<T, D, K>(rows: seq<T>, nextId: nat, items: seq<D>,
                                                       key: T -> K, dkey: D -> K, make: (Id, D) -> T)
    requires forall id, d :: key(make(id, d)) == dkey(d)
    ensures forall k :: 0 <= k < |items| ==>
              FindBy(FindOrCreate(rows, nextId, items, key, dkey, make).0, key, dkey(items[k])).Some?
    decreases |items|
  {
    if items != [] {
      var init := items[..|items| - 1];
      FindOrCreatePresent(rows, nextId, init, key, dkey, make);
      var prev := FindOrCreate(rows, nextId, init, key, dkey, make);
      var d := items[|items| - 1];
      assert forall k :: 0 <= k < |init| ==> init[k] == items[k];
      if FindBy(prev.0, key, dkey(d)).None? {
        var row := make(prev.1, d);
        assert FindBy([row], key, dkey(d)) == Some(0);
        forall k | 0 <= k < |items| ensures FindBy(prev.0 + [row], key, dkey(items[k])).Some? {
          FindByAppend(prev.0, [row], key, dkey(items[k]));
        }
      }
    }
  }

  /** Each row a find-or-create loop adds is made from one of its items, with the id the
      counter had when the row was added. */
  lemma {:induction false} FindOrCreateMakes<T, D, K>(rows: seq<T>, nextId: nat, items: seq<D>,
                                                     key: T -> K, dkey: D -> K, make: (Id, D) -> T)
    ensures var r := FindOrCreate(rows, nextId, items, key, dkey, make).0;
            forall j :: |rows| <= j < |r| ==>
              exists k :: 0 <= k < |items| && r[j] == make(nextId + (j - |rows|), items[k])
    decreases |items|
  {
    if items != [] {
      var init := items[..|items| - 1];
      FindOrCreateMakes(rows, nextId, init, key, dkey, make);
      FindOrCreateGrows(rows, nextId, init, key, dkey, make);
      var prev := FindOrCreate(rows, nextId, init, key, dkey, make);
      var r := FindOrCreate(rows, nextId, items, key, dkey, make).0;
      forall j | |rows| <= j < |r|
        ensures exists k :: 0 <= k < |items| && r[j] == make(nextId + (j - |rows|), items[k])
      {
        if j < |prev.0| {
          var k :| 0 <= k < |init| && prev.0[j] == make(nextId + (j - |rows|), init[k]);
          assert init[k] == items[k];
        } else {
          assert r[j] == make(nextId + (j - |rows|), items[|items| - 1]);
        }
      }
    }
  }

  /** No row a find-or-create loop adds has the key of an earlier row. */
  lemma {:induction false} FindOrCreateNoRepeat<T, D, K>(rows: seq<T>, nextId: nat, items: seq<D>,
                                                        key: T -> K, dkey: D -> K, make: (Id, D) -> T)
    requires forall id, d :: key(make(id, d)) == dkey(d)
    ensures var r := FindOrCreate(rows, nextId, items, key, dkey, make).0;
            forall i, j :: 0 <= i < j < |r| && |rows| <= j ==> key(r[i]) != key(r[j])
    decreases |items|
  {
    if items != [] {
      var init := items[..|items| - 1];
      FindOrCreateNoRepeat(rows, nextId, init, key, dkey, make);
      FindOrCreateGrows(rows, nextId, init, key, dkey, make);
      var prev := FindOrCreate(rows, nextId, init, key, dkey, make);
      var r := FindOrCreate(rows, nextId, items, key, dkey, make).0;
      forall i, j | 0 <= i < j < |r| && |rows| <= j ensures key(r[i]) != key(r[j]) {
        if j < |prev.0| {
          assert r[i] == prev.0[i] && r[j] == prev.0[j];
        } else {
          assert r[i] == prev.0[i];
        }
      }
    }
  }

  /** When every item is already in the table, a find-or-create loop changes nothing. */
  lemma {:induction false} FindOrCreateNoop<T, D, K>(rows: seq<T>, nextId: nat, items: seq<D>,
                                                    key: T -> K, dkey: D -> K, make: (Id, D) -> T)
    requires forall k :: 0 <= k < |items| ==> FindBy(rows, key, dkey(items[k])).Some?
    ensures FindOrCreate(rows, nextId, items, key, dkey, make) == (rows, nextId)
    decreases |items|
  {
    if items != [] {
      var init := items[..|items| - 1];
      assert forall k :: 0 <= k < |init| ==> init[k] == items[k];
      FindOrCreateNoop(rows, nextId, init, key, dkey, make);
    }
  }

  /** What a bank lookup `where: { subject, category }` matches. */
  function BankArea(b: Bank): (string, string) { (b.subject, b.category) }
  function QuestionArea(d: QuestionData): (string, string) { (d.subject, d.category) }

  function QuestionId(q: Question): Id { q.id }
  function TagName(t: Tag): string { t.name }

  /** A row the handlers ask the store to insert. */
  datatype Write =
    | NewQuestion(data: QuestionData)
    | NewQuestionTag(questionTag: QuestionTag)
    | NewBankLink(bankQuestion: BankQuestion)
    | NewExamLink(examQuestion: ExamQuestion)
    | NewBank(bank: Bank)
    | NewAdminRow(admin: Admin)

  /** Whether the store rejects an insert, which makes the call throw. The schema's
      constraints on a row's own fields (required fields, enumerations such as the admin
      role) are not part of the model, so a handler takes them as this parameter. Keys
      over the stored rows are checked against the tables: admin emails here, student
      emails in the CSV upload, tag links, the question's creator and the linked exam in
      the questions routes, and the question and exam rows that keep an admin from
      being deleted. */
  type Refuses = Write -> bool

  function AdminEmail(a: Admin): string { a.email }
  function AdminId(a: Admin): Id { a.id }
  function AdminRole(a: Admin): string { a.role }
  function StudentId(s: Student): Id { s.id }
  function StudentEmail(s: Student): string { s.email }
  function ExamId(e: Exam): Id { e.id }

  /** The foreign key from a question's `createdById` into the admin table. */
  predicate HasAdmin(admins: seq<Admin>, id: Id) {
    FindBy(admins, AdminId, id).Some?
  }

  /** The foreign key from an exam link's `examId` into the exam table. */
  predicate HasExam(exams: seq<Exam>, id: Id) {
    FindBy(exams, ExamId, id).Some?
  }

  /** The values of the schema's `Subject` and `Difficulty` enumerations. The schema is
      not part of the model, so the routes that filter on these columns take the values
      as a parameter (the seed uses CAT and JEE_MAIN, EASY and MEDIUM). */
  datatype Enums = Enums(subjects: set<string>, difficulties: set<string>)

  /** A filter parameter `findMany` accepts on an enum column: the route drops one that
      is missing or empty, any other must be one of the values or the query throws. */
  predicate EnumFilterOk(p: Option<string>, values: set<string>) {
    !Truthy(p) || p.value in values
  }

  /** What the unique constraints on admins guarantee: ids below the counter,
      no two rows with the same id or the same email. */
  ghost predicate AdminTableOk(rows: seq<Admin>, nextId: nat) {
    && (forall i :: 0 <= i < |rows| ==> rows[i].id < nextId)
    && (forall i, j :: 0 <= i < j < |rows| ==> rows[i].id != rows[j].id)
    && (forall i, j :: 0 <= i < j < |rows| ==> rows[i].email != rows[j].email)
  }

  /** Handing out more ids keeps every stored id below the counter. */
  lemma AdminTableOkGrows(rows: seq<Admin>, nextId: nat, later: nat)
    requires AdminTableOk(rows, nextId) && nextId <= later
    ensures AdminTableOk(rows, later)
  {
  }

  /** The number of admins with email `e`. */
  function CountEmail(rows: seq<Admin>, e: string): (n: nat)
    ensures n <= |rows|
    ensures n == 0 <==> FindBy(rows, AdminEmail, e).None?
  {
    if rows == [] then 0 else (if rows[0].email == e then 1 else 0) + CountEmail(rows[1..], e)
  }

  /** Unique emails mean at most one admin per email. */
  lemma {:induction false} CountEmailUnique(rows: seq<Admin>, nextId: nat, e: string)
    requires AdminTableOk(rows, nextId)
    ensures CountEmail(rows, e) <= 1
  {
    if rows != [] {
      assert AdminTableOk(rows[1..], nextId) by {
        forall i, j | 0 <= i < j < |rows[1..]|
          ensures rows[1..][i].id != rows[1..][j].id && rows[1..][i].email != rows[1..][j].email
        {
          assert rows[1..][i] == rows[i + 1] && rows[1..][j] == rows[j + 1];
        }
      }
      CountEmailUnique(rows[1..], nextId, e);
      if rows[0].email == e {
        assert forall j :: 0 <= j < |rows[1..]| ==> AdminEmail(rows[1..][j]) != e by {
          forall j | 0 <= j < |rows[1..]| ensures AdminEmail(rows[1..][j]) != e {
            assert rows[1..][j] == rows[j + 1];
          }
        }
      }
    }
  }

  class Database {
    var admins: seq<Admin>
    var students: seq<Student>
    var questions: seq<Question>
    var exams: seq<Exam>
    var tags: seq<Tag>
    var questionTags: seq<QuestionTag>
    var banks: seq<Bank>
    var bankQuestions: seq<BankQuestion>
    var examQuestions: seq<ExamQuestion>
    var uploads: seq<UploadedFile>
    var templates: seq<Template>
    var audits: seq<Audit>
    /** The disk: each file's absolute path, as its segments, to its contents. */
    var files: map<seq<string>, seq<bv8>>
    var nextId: nat
    /** The statistics the schema gives a new question (not part of this model). */
    const defaultStats: QuestionStats

    ghost predicate Valid()
      reads this
    {
      AdminTableOk(admins, nextId)
    }

    ghost function State(): Tables
      reads this
    {
      Tables(admins, students, questions, exams, tags, questionTags, banks, bankQuestions,
             examQuestions, uploads, templates, audits, files, nextId)
    }

    constructor (stats: QuestionStats)
      ensures Valid() && defaultStats == stats
      ensures State() == Tables([], [], [], [], [], [], [], [], [], [], [], [], map[], 0)
    {
      admins, students, questions, exams := [], [], [], [];
      tags, questionTags, banks, bankQuestions := [], [], [], [];
      examQuestions, uploads, templates, audits := [], [], [], [];
      files, nextId := map[], 0;
      defaultStats := stats;
    }

    /** A fresh id for a new row. */
    method NewId() returns (id: Id)
      modifies this`nextId
      ensures id == old(nextId) && nextId == old(nextId) + 1
    {
      id := nextId;
      nextId := nextId + 1;
    }

    /** `prisma.admin.create`, for an email no admin has (the unique constraint). */
    method InsertAdmin(username: string, email: string, password: string, role: string, now: DateTime)
      returns (a: Admin)
      requires Valid()
      requires FindBy(admins, AdminEmail, email).None?
      modifies this`admins, this`nextId
      ensures Valid()
      ensures a == Admin(old(nextId), username, email, password, role, now)
      ensures admins == old(admins) + [a] && nextId == old(nextId) + 1
    {
      var id := NewId();
      a := Admin(id, username, email, password, role, now);
      admins := admins + [a];
    }
  }
}
