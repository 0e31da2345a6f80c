/** /api/questions. POST creates a question for the signed-in admin, upserts each of
    its tags and links it to them, then links it to a bank and to an exam when asked.
    GET lists the questions with their tag links, filtered by subject and difficulty
    when those are given. Both run the staff gate first.

    The POST writes are separate statements, not a transaction: when one of them
    throws, the rows written before it stay and the answer is 500. */
module Questions {
  import opened Common
  import opened Http
  import opened Auth
  import opened Db

  /** The JSON body. `tags` is `None` when absent, `assignToBank` is its truthiness and
      `assignToExam` the exam id when it is truthy. */
  datatype QuestionRequest = QuestionRequest(data: QuestionData, tags: Option<seq<string>>,
                                             assignToBank: bool, assignToExam: Option<Id>)

  datatype CreatedQuestion = CreatedQuestion(message: string, question: Question)

  /** The tables the POST reads or writes, the id counter, and the admin and exam tables
      the question's creator and its exam link must name a row of. */
  datatype QuestionStore = QuestionStore(
    questions: seq<Question>, tags: seq<Tag>, questionTags: seq<QuestionTag>, banks: seq<Bank>,
    bankQuestions: seq<BankQuestion>, examQuestions: seq<ExamQuestion>, nextId: nat,
    admins: seq<Admin>, exams: seq<Exam>)

  ghost function StoreOf(db: Database): QuestionStore
    reads db
  {
    QuestionStore(db.questions, db.tags, db.questionTags, db.banks, db.bankQuestions,
                  db.examQuestions, db.nextId, db.admins, db.exams)
  }

  function AsName(name: string): string { name }

  /** The row `create: { name }` makes: no colour. */
  function NamedTag(id: Id, name: string): Tag { Tag(id, name, None) }

  /** `tag.upsert({ where: { name }, update: {}, create: { name } })`: the table and the
      counter afterwards, and the id of the tag with that name. */
  function Upsert(tags: seq<Tag>, nextId: nat, name: string): (r: (seq<Tag>, nat, Id))
    ensures (r.0, r.1) == FindOrCreateStep((tags, nextId), name, TagName, AsName, NamedTag)
    ensures FindBy(r.0, TagName, name).Some? && r.0[FindBy(r.0, TagName, name).value].id == r.2
  {
    match FindBy(tags, TagName, name)
    case Some(i) => (tags, nextId, tags[i].id)
    case None =>
      var tag := NamedTag(nextId, name);
      FindByAppend(tags, [tag], TagName, name);
      assert FindBy([tag], TagName, name) == Some(0);
      (tags + [tag], nextId + 1, nextId)
  }

  /** The state of the tag loop: the tag table, the counter, the links written so far
      and whether a link create has thrown, which ends the loop. */
  datatype TagPass = TagPass(tags: seq<Tag>, nextId: nat, links: seq<QuestionTag>, failed: bool)

  /** One pass: upsert the tag, then create its link to the question. A link is keyed
      by its (question, tag) pair, so the create throws when this request has already
      written the same link (a repeated name); links from earlier requests carry other
      question ids, and any other refusal is `refuses`. */
  function TagStep(p: TagPass, questionId: Id, name: string, refuses: Refuses): TagPass {
    var u := Upsert(p.tags, p.nextId, name);
    var link := QuestionTag(questionId, u.2);
    if link in p.links || refuses(NewQuestionTag(link)) then TagPass(u.0, u.1, p.links, true)
    else TagPass(u.0, u.1, p.links + [link], false)
  }

  /** The loop over `names`, in order, stopping at the first link the store refuses. */
  function TagLoop(tags: seq<Tag>, nextId: nat, questionId: Id, names: seq<string>, refuses: Refuses): TagPass
    decreases |names|
  {
    if names == [] then TagPass(tags, nextId, [], false)
    else
      var p := TagLoop(tags, nextId, questionId, names[..|names| - 1], refuses);
      if p.failed then p else TagStep(p, questionId, names[|names| - 1], refuses)
  }

  lemma TagLoopSnoc(tags: seq<Tag>, nextId: nat, questionId: Id, names: seq<string>, n: nat, refuses: Refuses)
    requires n < |names|
    ensures var p := TagLoop(tags, nextId, questionId, names[..n], refuses);
            TagLoop(tags, nextId, questionId, names[..n + 1], refuses) ==
              if p.failed then p else TagStep(p, questionId, names[n], refuses)
  {
    assert names[..n + 1][..n] == names[..n];
  }

  /** Once a link has thrown, the rest of the names are never reached. */
  lemma {:induction false} TagLoopStopsAtFailure(tags: seq<Tag>, nextId: nat, questionId: Id, names: seq<string>,
                                                n: nat, refuses: Refuses)
    requires n <= |names| && TagLoop(tags, nextId, questionId, names[..n], refuses).failed
    ensures TagLoop(tags, nextId, questionId, names, refuses) == TagLoop(tags, nextId, questionId, names[..n], refuses)
    decreases |names| - n
  {
    if n < |names| {
      TagLoopSnoc(tags, nextId, questionId, names, n, refuses);
      TagLoopStopsAtFailure(tags, nextId, questionId, names, n + 1, refuses);
    } else {
      assert names[..n] == names;
    }
  }

  /** One upsert, on the store. */
  method UpsertTag(db: Database, name: string) returns (tagId: Id)
    modifies db`tags, db`nextId
    ensures (db.tags, db.nextId, tagId) == Upsert(old(db.tags), old(db.nextId), name)
  {
    var existing := FindBy(db.tags, TagName, name);
    if existing.Some? {
      tagId := db.tags[existing.value].id;
    } else {
      tagId := db.NewId();
      db.tags := db.tags + [NamedTag(tagId, name)];
    }
  }

  /** The tag loop, on the store. Returns whether a link create threw. */
  method AddTags(db: Database, questionId: Id, names: seq<string>, refuses: Refuses) returns (failed: bool)
    modifies db`tags, db`nextId, db`questionTags
    ensures var p := TagLoop(old(db.tags), old(db.nextId), questionId, names, refuses);
            db.tags == p.tags && db.nextId == p.nextId &&
            db.questionTags == old(db.questionTags) + p.links && failed == p.failed
  {
    failed := false;
    var links: seq<QuestionTag> := [];
    var n := 0;
    while n < |names| && !failed
      invariant 0 <= n <= |names|
      invariant TagLoop(old(db.tags), old(db.nextId), questionId, names[..n], refuses) ==
                TagPass(db.tags, db.nextId, links, failed)
      invariant db.questionTags == old(db.questionTags) + links
    {
      TagLoopSnoc(old(db.tags), old(db.nextId), questionId, names, n, refuses);
      ghost var before := TagPass(db.tags, db.nextId, links, failed);
      var tagId := UpsertTag(db, names[n]);
      var link := QuestionTag(questionId, tagId);
      if link in links || refuses(NewQuestionTag(link)) {
        failed := true;
      } else {
        db.questionTags := db.questionTags + [link];
        links := links + [link];
      }
      assert TagPass(db.tags, db.nextId, links, failed) == TagStep(before, questionId, names[n], refuses);
      n := n + 1;
    }
    if failed {
      TagLoopStopsAtFailure(old(db.tags), old(db.nextId), questionId, names, n, refuses);
    } else {
      assert names[..n] == names;
    }
  }

  /** An upsert only appends, and a tag it does not create is found where it was. */
  lemma UpsertKeeps(tags: seq<Tag>, nextId: nat, name: string, x: string)
    ensures tags <= Upsert(tags, nextId, name).0
    ensures FindBy(tags, TagName, x).Some? ==> FindBy(Upsert(tags, nextId, name).0, TagName, x) == FindBy(tags, TagName, x)
  {
    if FindBy(tags, TagName, name).None? {
      FindByAppend(tags, [NamedTag(nextId, name)], TagName, x);
    }
  }

  /** When no link is refused the loop's tag table is the plain find-or-create over the names. */
  lemma {:induction false} TagLoopTable(tags: seq<Tag>, nextId: nat, questionId: Id, names: seq<string>,
                                       refuses: Refuses)
    requires !TagLoop(tags, nextId, questionId, names, refuses).failed
    ensures var p := TagLoop(tags, nextId, questionId, names, refuses);
            (p.tags, p.nextId) == FindOrCreate(tags, nextId, names, TagName, AsName, NamedTag)
    decreases |names|
  {
    if names != [] {
      TagLoopTable(tags, nextId, questionId, names[..|names| - 1], refuses);
    }
  }

  /** The links are one per name, in order, each to the tag that has that name. */
  ghost predicate LinksNames(tags: seq<Tag>, links: seq<QuestionTag>, questionId: Id, names: seq<string>) {
    && |links| == |names|
    && forall k :: 0 <= k < |names| ==>
         FindBy(tags, TagName, names[k]).Some? &&
         links[k] == QuestionTag(questionId, tags[FindBy(tags, TagName, names[k]).value].id)
  }

  /** A pass that writes its link keeps the links matching the names. */
  lemma StepLinksNames(p: TagPass, questionId: Id, init: seq<string>, name: string, refuses: Refuses)
    requires LinksNames(p.tags, p.links, questionId, init)
    requires !TagStep(p, questionId, name, refuses).failed
    ensures var r := TagStep(p, questionId, name, refuses);
            LinksNames(r.tags, r.links, questionId, init + [name])
  {
    var u := Upsert(p.tags, p.nextId, name);
    var r := TagStep(p, questionId, name, refuses);
    assert r == TagPass(u.0, u.1, p.links + [QuestionTag(questionId, u.2)], false);
    var names := init + [name];
    forall k | 0 <= k < |init|
      ensures FindBy(r.tags, TagName, names[k]).Some? &&
              r.links[k] == QuestionTag(questionId, r.tags[FindBy(r.tags, TagName, names[k]).value].id)
    {
      assert names[k] == init[k];
      UpsertKeeps(p.tags, p.nextId, name, init[k]);
    }
  }

  /** When no link is refused the loop writes one link per name, to the tag that then
      has that name. */
  lemma {:induction false} TagLoopLinksEveryName(tags: seq<Tag>, nextId: nat, questionId: Id, names: seq<string>,
                                                refuses: Refuses)
    requires !TagLoop(tags, nextId, questionId, names, refuses).failed
    ensures var p := TagLoop(tags, nextId, questionId, names, refuses);
            LinksNames(p.tags, p.links, questionId, names)
    decreases |names|
  {
    var r := TagLoop(tags, nextId, questionId, names, refuses);
    if names != [] {
      var init := names[..|names| - 1];
      var last := names[|names| - 1];
      var p := TagLoop(tags, nextId, questionId, init, refuses);
      assert !p.failed && r == TagStep(p, questionId, last, refuses);
      assert init + [last] == names;
      assert LinksNames(r.tags, r.links, questionId, init + [last]) by {
        TagLoopLinksEveryName(tags, nextId, questionId, init, refuses);
        StepLinksNames(p, questionId, init, last, refuses);
      }
    }
  }

  predicate NoRepeats<T(==)>(s: seq<T>) {
    forall i, j :: 0 <= i < j < |s| ==> s[i] != s[j]
  }

  /** What the tag table's keys guarantee: ids below the counter, no two rows with the
      same id or the same name. */
  ghost predicate TagsOk(tags: seq<Tag>, nextId: nat) {
    && (forall i :: 0 <= i < |tags| ==> tags[i].id < nextId)
    && (forall i, j :: 0 <= i < |tags| && 0 <= j < |tags| && i != j ==> tags[i].id != tags[j].id)
    && (forall i, j :: 0 <= i < |tags| && 0 <= j < |tags| && i != j ==> tags[i].name != tags[j].name)
  }

  /** An upsert keeps the tag table's keys. */
  lemma UpsertTagsOk(tags: seq<Tag>, nextId: nat, name: string)
    requires TagsOk(tags, nextId)
    ensures TagsOk(Upsert(tags, nextId, name).0, Upsert(tags, nextId, name).1)
  {
  }

  /** So does the whole loop. */
  lemma {:induction false} TagLoopTagsOk(tags: seq<Tag>, nextId: nat, questionId: Id, names: seq<string>,
                                        refuses: Refuses)
    requires TagsOk(tags, nextId)
    ensures var p := TagLoop(tags, nextId, questionId, names, refuses);
            TagsOk(p.tags, p.nextId)
    decreases |names|
  {
    if names != [] {
      var p := TagLoop(tags, nextId, questionId, names[..|names| - 1], refuses);
      TagLoopTagsOk(tags, nextId, questionId, names[..|names| - 1], refuses);
      UpsertTagsOk(p.tags, p.nextId, names[|names| - 1]);
    }
  }

  /** The loop never writes the same link twice. */
  lemma {:induction false} TagLoopLinksDistinct(tags: seq<Tag>, nextId: nat, questionId: Id, names: seq<string>,
                                               refuses: Refuses)
    ensures NoRepeats(TagLoop(tags, nextId, questionId, names, refuses).links)
    decreases |names|
  {
    if names != [] {
      TagLoopLinksDistinct(tags, nextId, questionId, names[..|names| - 1], refuses);
    }
  }

  /** A loop that ends without a failure had no repeated name: the second link of a
      repeated name is the first one again, which the link key refuses. */
  lemma TagLoopNamesDistinct(tags: seq<Tag>, nextId: nat, questionId: Id, names: seq<string>, refuses: Refuses)
    requires !TagLoop(tags, nextId, questionId, names, refuses).failed
    ensures NoRepeats(names)
  {
    var p := TagLoop(tags, nextId, questionId, names, refuses);
    TagLoopLinksEveryName(tags, nextId, questionId, names, refuses);
    TagLoopLinksDistinct(tags, nextId, questionId, names, refuses);
    forall i, j | 0 <= i < j < |names| ensures names[i] != names[j] {
      assert p.links[i] != p.links[j];
    }
  }


  function TagNames(tags: Option<seq<string>>): seq<string> {
    if tags.Some? && |tags.value| > 0 then tags.value else []
  }

  /** `if (assignToBank)`: the link to the first bank with the question's subject and category. */
  function BankLink(banks: seq<Bank>, q: Question, assign: bool): Option<BankQuestion> {
    if !assign then None
    else match FindBy(banks, BankArea, QuestionArea(q.data))
      case None => None
      case Some(i) => Some(BankQuestion(q.id, banks[i].id))
  }

  /** `if (assignToExam)`: the exam link, at order 1. */
  function ExamLink(q: Question, exam: Option<Id>): Option<ExamQuestion> {
    if exam.Some? then Some(ExamQuestion(exam.value, q.id, 1)) else None
  }

  /** The bank and exam steps, after the tags. The exam link's create throws when the
      exam id names no exam or the store refuses the row. */
  function Linked(s: QuestionStore, q: Question, req: QuestionRequest, refuses: Refuses)
    : (QuestionStore, Response<CreatedQuestion>)
  {
    var bank := BankLink(s.banks, q, req.assignToBank);
    if bank.Some? && refuses(NewBankLink(bank.value)) then (s, Fail(500, INTERNAL_ERROR))
    else
      var s1 := s.(bankQuestions := s.bankQuestions + bank.ToSeq());
      var exam := ExamLink(q, req.assignToExam);
      if exam.Some? && (!HasExam(s1.exams, exam.value.examId) || refuses(NewExamLink(exam.value))) then
        (s1, Fail(500, INTERNAL_ERROR))
      else (s1.(examQuestions := s1.examQuestions + exam.ToSeq()),
            Json(201, CreatedQuestion("Question created", q)))
  }

  /** Everything after the question row is written. */
  function Created(s: QuestionStore, q: Question, req: QuestionRequest, refuses: Refuses)
    : (QuestionStore, Response<CreatedQuestion>)
  {
    var p := TagLoop(s.tags, s.nextId, q.id, TagNames(req.tags), refuses);
    var s1 := s.(tags := p.tags, questionTags := s.questionTags + p.links, nextId := p.nextId);
    if p.failed then (s1, Fail(500, INTERNAL_ERROR)) else Linked(s1, q, req, refuses)
  }

  /** The question row the POST writes. */
  function NewQuestionRow(id: Id, req: QuestionRequest, claims: Claims, stats: QuestionStats): Question {
    Question(id, req.data, claims.id, stats)
  }

  /** The POST: the store afterwards and the response. `body` is `None` when it is not JSON.
      The question's create throws when the token's id names no admin, or when the store
      refuses the row. */
  function PostOutcome(s: QuestionStore, gate: Admission, body: Option<QuestionRequest>, refuses: Refuses,
                       stats: QuestionStats): (QuestionStore, Response<CreatedQuestion>)
  {
    if gate.Refused? then (s, Refusal(gate))
    else if body.None? || !HasAdmin(s.admins, gate.claims.id) || refuses(NewQuestion(body.value.data)) then
      (s, Fail(500, INTERNAL_ERROR))
    else
      var q := NewQuestionRow(s.nextId, body.value, gate.claims, stats);
      Created(s.(questions := s.questions + [q], nextId := s.nextId + 1), q, body.value, refuses)
  }

  /** The bank and exam steps on the store. */
  method LinkQuestion(db: Database, q: Question, req: QuestionRequest, refuses: Refuses)
    returns (res: Response<CreatedQuestion>)
    modifies db`bankQuestions, db`examQuestions
    ensures (StoreOf(db), res) == Linked(old(StoreOf(db)), q, req, refuses)
  {
    if req.assignToBank {
      var bank := FindBy(db.banks, BankArea, QuestionArea(q.data));
      if bank.Some? {
        var link := BankQuestion(q.id, db.banks[bank.value].id);
        assert BankLink(db.banks, q, req.assignToBank) == Some(link);
        if refuses(NewBankLink(link)) {
          return Fail(500, INTERNAL_ERROR);
        }
        db.bankQuestions := db.bankQuestions + [link];
      }
    }
    ghost var mid := old(StoreOf(db)).(bankQuestions := old(db.bankQuestions) +
                                       BankLink(db.banks, q, req.assignToBank).ToSeq());
    assert StoreOf(db) == mid;
    if req.assignToExam.Some? {
      var link := ExamQuestion(req.assignToExam.value, q.id, 1);
      var exam := FindBy(db.exams, ExamId, link.examId);
      if exam.None? || refuses(NewExamLink(link)) {
        return Fail(500, INTERNAL_ERROR);
      }
      db.examQuestions := db.examQuestions + [link];
    }
    assert StoreOf(db) == mid.(examQuestions := mid.examQuestions + ExamLink(q, req.assignToExam).ToSeq());
    res := Json(201, CreatedQuestion("Question created", q));
  }

  method CreateQuestion(db: Database, token: Option<string>, decode: Decoder, body: Option<QuestionRequest>,
                        refuses: Refuses)
    returns (res: Response<CreatedQuestion>)
    modifies db`questions, db`tags, db`questionTags, db`bankQuestions, db`examQuestions, db`nextId
    ensures (StoreOf(db), res) ==
            PostOutcome(old(StoreOf(db)), Gate(token, decode, STAFF_ROLES), body, refuses, db.defaultStats)
  {
    var gate := Gate(token, decode, STAFF_ROLES);
    ghost var s0 := StoreOf(db);
    ghost var outcome := PostOutcome(s0, gate, body, refuses, db.defaultStats);
    if gate.Refused? {
      return Refusal(gate);
    }
    if body.None? {
      return Fail(500, INTERNAL_ERROR);
    }
    var author := FindBy(db.admins, AdminId, gate.claims.id);
    if author.None? || refuses(NewQuestion(body.value.data)) {
      assert outcome == (s0, Fail(500, INTERNAL_ERROR));
      return Fail(500, INTERNAL_ERROR);
    }
    var req := body.value;
    var id := db.NewId();
    var question := NewQuestionRow(id, req, gate.claims, db.defaultStats);
    db.questions := db.questions + [question];
    ghost var s1 := StoreOf(db);
    assert outcome == Created(s1, question, req, refuses);
    var failed := AddTags(db, question.id, TagNames(req.tags), refuses);
    ghost var p := TagLoop(s1.tags, s1.nextId, question.id, TagNames(req.tags), refuses);
    ghost var s2 := s1.(tags := p.tags, questionTags := s1.questionTags + p.links, nextId := p.nextId);
    assert StoreOf(db) == s2;
    if failed {
      assert outcome == (s2, Fail(500, INTERNAL_ERROR));
      return Fail(500, INTERNAL_ERROR);
    }
    assert outcome == Linked(s2, question, req, refuses);
    res := LinkQuestion(db, question, req, refuses);
  }

  /** The gate runs before anything else: a refused token, a body that is not JSON, a
      token whose id names no admin, or a question the store refuses, writes nothing. */
  lemma PostWritesNothingBeforeTheQuestion(s: QuestionStore, gate: Admission, body: Option<QuestionRequest>,
                                           refuses: Refuses, stats: QuestionStats)
    requires || gate.Refused? || body.None? || !HasAdmin(s.admins, gate.claims.id)
             || refuses(NewQuestion(body.value.data))
    ensures PostOutcome(s, gate, body, refuses, stats).0 == s
    ensures gate.Refused? ==> PostOutcome(s, gate, body, refuses, stats).1 == Fail(gate.status, gate.error)
    ensures gate.Admitted? ==> PostOutcome(s, gate, body, refuses, stats).1 == Fail(500, INTERNAL_ERROR)
  {
  }

  /** The tag loop only appends tags and does not give back ids. */
  lemma {:induction false} TagLoopGrows(tags: seq<Tag>, nextId: nat, questionId: Id, names: seq<string>,
                                       refuses: Refuses)
    ensures var p := TagLoop(tags, nextId, questionId, names, refuses);
            tags <= p.tags && nextId <= p.nextId
    decreases |names|
  {
    if names != [] {
      var p := TagLoop(tags, nextId, questionId, names[..|names| - 1], refuses);
      TagLoopGrows(tags, nextId, questionId, names[..|names| - 1], refuses);
      UpsertKeeps(p.tags, p.nextId, names[|names| - 1], "");
    }
  }

  /** The bank and exam steps touch only their two link tables, and append to them. */
  lemma LinkedFacts(s: QuestionStore, q: Question, req: QuestionRequest, refuses: Refuses)
    ensures var (s', res) := Linked(s, q, req, refuses);
            && s' == s.(bankQuestions := s'.bankQuestions, examQuestions := s'.examQuestions)
            && s.bankQuestions <= s'.bankQuestions && s.examQuestions <= s'.examQuestions
            && (res == Fail(500, INTERNAL_ERROR) || res == Json(201, CreatedQuestion("Question created", q)))
            && (res.status == 201 ==>
                  && s'.bankQuestions == s.bankQuestions + BankLink(s.banks, q, req.assignToBank).ToSeq()
                  && s'.examQuestions == s.examQuestions + ExamLink(q, req.assignToExam).ToSeq()
                  && (req.assignToExam.Some? ==> HasExam(s.exams, req.assignToExam.value)))
            && (req.assignToExam.Some? && !HasExam(s.exams, req.assignToExam.value) ==>
                  res == Fail(500, INTERNAL_ERROR) &&
                  s'.examQuestions == s.examQuestions)
  {
  }

  /** The steps after the question row leave the questions and banks as they are and
      only append to the other tables. */
  lemma CreatedFacts(s: QuestionStore, q: Question, req: QuestionRequest, refuses: Refuses)
    ensures var (s', res) := Created(s, q, req, refuses);
            var p := TagLoop(s.tags, s.nextId, q.id, TagNames(req.tags), refuses);
            && s'.questions == s.questions && s'.banks == s.banks
            && s'.admins == s.admins && s'.exams == s.exams
            && s.tags <= s'.tags && s.nextId <= s'.nextId && s.questionTags <= s'.questionTags
            && s.bankQuestions <= s'.bankQuestions && s.examQuestions <= s'.examQuestions
            && (res == Fail(500, INTERNAL_ERROR) || res == Json(201, CreatedQuestion("Question created", q)))
            && (res.status == 201 ==>
                  && !p.failed && s'.tags == p.tags && s'.questionTags == s.questionTags + p.links
                  && s'.bankQuestions == s.bankQuestions + BankLink(s.banks, q, req.assignToBank).ToSeq()
                  && s'.examQuestions == s.examQuestions + ExamLink(q, req.assignToExam).ToSeq()
                  && (req.assignToExam.Some? ==> HasExam(s.exams, req.assignToExam.value)))
  {
    var p := TagLoop(s.tags, s.nextId, q.id, TagNames(req.tags), refuses);
    TagLoopGrows(s.tags, s.nextId, q.id, TagNames(req.tags), refuses);
    var s1 := s.(tags := p.tags, questionTags := s.questionTags + p.links, nextId := p.nextId);
    LinkedFacts(s1, q, req, refuses);
  }

  /** Once the question row is written it stays, attributed to the token's account,
      whatever happens to the tag, bank and exam writes after it; those only append,
      and only they can still turn the answer into 500. */
  lemma PostKeepsTheQuestion(s: QuestionStore, gate: Admission, body: Option<QuestionRequest>,
                             refuses: Refuses, stats: QuestionStats)
    requires gate.Admitted? && body.Some? && HasAdmin(s.admins, gate.claims.id)
    requires !refuses(NewQuestion(body.value.data))
    ensures var (s', res) := PostOutcome(s, gate, body, refuses, stats);
            && s'.questions == s.questions + [Question(s.nextId, body.value.data, gate.claims.id, stats)]
            && s'.banks == s.banks
            && s.tags <= s'.tags && s.nextId < s'.nextId
            && s.questionTags <= s'.questionTags && s.bankQuestions <= s'.bankQuestions
            && s.examQuestions <= s'.examQuestions
            && (res.status == 201 || res == Fail(500, INTERNAL_ERROR))
  {
    var q := Question(s.nextId, body.value.data, gate.claims.id, stats);
    var s1 := s.(questions := s.questions + [q], nextId := s.nextId + 1);
    assert PostOutcome(s, gate, body, refuses, stats) == Created(s1, q, body.value, refuses);
    CreatedFacts(s1, q, body.value, refuses);
  }

  /** What a 201 means: the token's id names an admin, a named exam exists, no write was
      refused and no tag name repeats, every tag name is now in the tag table
      (the tags that were there are unchanged), there is one link per name, to the tag
      with that name, the bank link is made exactly when asked for and a bank has the
      question's subject and category, and the exam link exactly when an exam is given. */
  lemma PostCreated(s: QuestionStore, token: Option<string>, decode: Decoder, body: Option<QuestionRequest>,
                    refuses: Refuses, stats: QuestionStats)
    requires PostOutcome(s, Gate(token, decode, STAFF_ROLES), body, refuses, stats).1.status == 201
    ensures Gate(token, decode, STAFF_ROLES).Admitted? && body.Some?
    ensures HasAdmin(s.admins, Gate(token, decode, STAFF_ROLES).claims.id)
    ensures body.value.assignToExam.Some? ==> HasExam(s.exams, body.value.assignToExam.value)
    ensures var gate := Gate(token, decode, STAFF_ROLES);
            var (s', res) := PostOutcome(s, gate, body, refuses, stats);
            var req := body.value;
            var q := Question(s.nextId, req.data, gate.claims.id, stats);
            var names := TagNames(req.tags);
            var links := s'.questionTags[|s.questionTags|..];
            && res == Json(201, CreatedQuestion("Question created", q))
            && s'.questions == s.questions + [q]
            && s.tags <= s'.tags
            && (forall k :: 0 <= k < |names| ==> FindBy(s'.tags, TagName, names[k]).Some?)
            && s.questionTags <= s'.questionTags && |links| == |names|
            && (forall k :: 0 <= k < |names| ==>
                  links[k] == QuestionTag(q.id, s'.tags[FindBy(s'.tags, TagName, names[k]).value].id))
            && s'.bankQuestions == s.bankQuestions + BankLink(s.banks, q, req.assignToBank).ToSeq()
            && s'.examQuestions == s.examQuestions + ExamLink(q, req.assignToExam).ToSeq()
            && NoRepeats(names)
  {
    var gate := Gate(token, decode, STAFF_ROLES);
    assert gate.Admitted? && body.Some? && HasAdmin(s.admins, gate.claims.id) && !refuses(NewQuestion(body.value.data));
    var req := body.value;
    var q := Question(s.nextId, req.data, gate.claims.id, stats);
    var names := TagNames(req.tags);
    var s1 := s.(questions := s.questions + [q], nextId := s.nextId + 1);
    assert PostOutcome(s, gate, body, refuses, stats) == Created(s1, q, req, refuses);
    CreatedFacts(s1, q, req, refuses);
    var p := TagLoop(s1.tags, s1.nextId, q.id, names, refuses);
    TagLoopLinksEveryName(s1.tags, s1.nextId, q.id, names, refuses);
    TagLoopNamesDistinct(s1.tags, s1.nextId, q.id, names, refuses);
    var s' := Created(s1, q, req, refuses).0;
    assert s'.questionTags[|s.questionTags|..] == p.links;
  }

  /** With a well-formed tag table and a store that refuses nothing, an admitted JSON
      body is answered with 201 exactly when the token's id names an admin, a named exam
      exists and no tag name repeats. */
  lemma PostSucceedsWithoutRefusals(s: QuestionStore, gate: Admission, body: Option<QuestionRequest>,
                                    refuses: Refuses, stats: QuestionStats)
    requires gate.Admitted? && body.Some? && forall w :: !refuses(w)
    requires TagsOk(s.tags, s.nextId)
    ensures PostOutcome(s, gate, body, refuses, stats).1.status == 201 <==>
              && HasAdmin(s.admins, gate.claims.id)
              && (body.value.assignToExam.Some? ==> HasExam(s.exams, body.value.assignToExam.value))
              && NoRepeats(TagNames(body.value.tags))
  {
    var req := body.value;
    if !HasAdmin(s.admins, gate.claims.id) {
      return;
    }
    var q := Question(s.nextId, req.data, gate.claims.id, stats);
    var s1 := s.(questions := s.questions + [q], nextId := s.nextId + 1);
    var names := TagNames(req.tags);
    assert PostOutcome(s, gate, body, refuses, stats) == Created(s1, q, req, refuses);
    CreatedFacts(s1, q, req, refuses);
    if NoRepeats(names) {
      assert TagsOk(s1.tags, s1.nextId);
      TagLoopNeverFails(s1.tags, s1.nextId, q.id, names, refuses);
    }
    if !TagLoop(s1.tags, s1.nextId, q.id, names, refuses).failed {
      TagLoopNamesDistinct(s1.tags, s1.nextId, q.id, names, refuses);
    }
  }

  /** A name the earlier names do not include gets a link none of theirs equals: its
      tag is another row of a table whose ids are distinct. */
  lemma FreshLink(p: TagPass, questionId: Id, init: seq<string>, name: string)
    requires TagsOk(p.tags, p.nextId) && LinksNames(p.tags, p.links, questionId, init)
    requires forall k :: 0 <= k < |init| ==> init[k] != name
    ensures QuestionTag(questionId, Upsert(p.tags, p.nextId, name).2) !in p.links
  {
    var u := Upsert(p.tags, p.nextId, name);
    UpsertTagsOk(p.tags, p.nextId, name);
    var j := FindBy(u.0, TagName, name).value;
    forall k | 0 <= k < |p.links| ensures p.links[k] != QuestionTag(questionId, u.2) {
      UpsertKeeps(p.tags, p.nextId, name, init[k]);
      var ik := FindBy(p.tags, TagName, init[k]).value;
      assert u.0[ik] == p.tags[ik] && u.0[ik].name != u.0[j].name;
    }
  }

  /** With a well-formed tag table and a store that refuses nothing, distinct names never
      stop the loop: each name's tag is a different row, so each link is new. */
  lemma {:induction false} TagLoopNeverFails(tags: seq<Tag>, nextId: nat, questionId: Id, names: seq<string>,
                                            refuses: Refuses)
    requires forall w :: !refuses(w)
    requires TagsOk(tags, nextId) && NoRepeats(names)
    ensures !TagLoop(tags, nextId, questionId, names, refuses).failed
    decreases |names|
  {
    if names != [] {
      var init := names[..|names| - 1];
      var name := names[|names| - 1];
      assert NoRepeats(init);
      TagLoopNeverFails(tags, nextId, questionId, init, refuses);
      var p := TagLoop(tags, nextId, questionId, init, refuses);
      TagLoopTagsOk(tags, nextId, questionId, init, refuses);
      TagLoopLinksEveryName(tags, nextId, questionId, init, refuses);
      assert LinksNames(p.tags, p.links, questionId, init);
      FreshLink(p, questionId, init, name);
    }
  }

  /** A question in the listing, with its tag links (`include: { tags: true }`). */
  datatype ListedQuestion = ListedQuestion(question: Question, tags: seq<QuestionTag>)

  /** The GET filter: each parameter that is present and non-empty must match. */
  predicate Requested(q: Question, subject: Option<string>, difficulty: Option<string>) {
    (!Truthy(subject) || q.data.subject == subject.value) &&
    (!Truthy(difficulty) || q.data.difficulty == difficulty.value)
  }

  /** The `where` object: a key is set only when its parameter is truthy. */
  datatype Where = Where(subject: Option<string>, difficulty: Option<string>)

  predicate Matches(q: Question, w: Where) {
    (w.subject.None? || q.data.subject == w.subject.value) &&
    (w.difficulty.None? || q.data.difficulty == w.difficulty.value)
  }

  function LinksOf(links: seq<QuestionTag>, id: Id): (r: seq<QuestionTag>)
    ensures forall i :: 0 <= i < |r| ==> r[i].questionId == id && r[i] in links
    ensures forall i :: 0 <= i < |links| && links[i].questionId == id ==> links[i] in r
  {
    Filter(links, (l: QuestionTag) => l.questionId == id)
  }

  /** `subject` and `difficulty` filter enum columns: a value outside its enumeration
      makes `findMany` throw, which the catch answers with 500. */
  method ListQuestions(db: Database, token: Option<string>, decode: Decoder, enums: Enums,
                       subject: Option<string>, difficulty: Option<string>)
    returns (res: Response<seq<ListedQuestion>>)
    ensures Gate(token, decode, STAFF_ROLES).Refused? ==> res == Refusal(Gate(token, decode, STAFF_ROLES))
    ensures Gate(token, decode, STAFF_ROLES).Admitted? &&
            !(EnumFilterOk(subject, enums.subjects) && EnumFilterOk(difficulty, enums.difficulties)) ==>
              res == Fail(500, INTERNAL_ERROR)
    ensures Gate(token, decode, STAFF_ROLES).Admitted? &&
            EnumFilterOk(subject, enums.subjects) && EnumFilterOk(difficulty, enums.difficulties) ==>
              && res.status == 200 && res.body.Data? && res.cookies == []
              && var listed := res.body.data;
                 && (forall i :: 0 <= i < |listed| ==> listed[i].tags == LinksOf(db.questionTags, listed[i].question.id))
                 && seq(|listed|, i requires 0 <= i < |listed| => listed[i].question) ==
                    Filter(db.questions, (q: Question) => Requested(q, subject, difficulty))
  {
    var gate := Gate(token, decode, STAFF_ROLES);
    if gate.Refused? {
      return Refusal(gate);
    }
    var where := Where(None, None);
    if Truthy(subject) {
      where := where.(subject := subject);
    }
    if Truthy(difficulty) {
      where := where.(difficulty := difficulty);
    }
    if (where.subject.Some? && where.subject.value !in enums.subjects) ||
       (where.difficulty.Some? && where.difficulty.value !in enums.difficulties) {
      return Fail(500, INTERNAL_ERROR);
    }
    assert forall q :: Matches(q, where) == Requested(q, subject, difficulty);
    var questions := db.questions;
    var links := db.questionTags;
    var found := Filter(questions, (q: Question) => Matches(q, where));
    FilterSame(questions, (q: Question) => Matches(q, where), (q: Question) => Requested(q, subject, difficulty));
    var listed := seq(|found|, i requires 0 <= i < |found| => ListedQuestion(found[i], LinksOf(links, found[i].id)));
    assert seq(|listed|, i requires 0 <= i < |listed| => listed[i].question) == found;
    res := Json(200, listed);
  }

  /** Two filters that accept the same elements give the same result. */
  lemma {:induction false} FilterSame<T>(s: seq<T>, p: T -> bool, p': T -> bool)
    requires forall x :: p(x) == p'(x)
    ensures Filter(s, p) == Filter(s, p')
    decreases |s|
  {
    if s != [] {
      FilterSame(s[1..], p, p');
    }
  }
}
