/** The seed script: make sure a super admin exists, then add the default tags,
    question banks, the CAT exam template and two sample questions, each only when
    it is not there yet. Each step is find-then-create, so running the script on a
    seeded store changes nothing. */
module Seed {
  import opened Common
  import opened Auth
  import opened Db
  import opened AdminLogin
  import opened CreateUser
  import opened ResetAdmin

  datatype TagDef = TagDef(name: string, color: string)

  const DEFAULT_TAGS: seq<TagDef> := [
    TagDef("algebra", "#FF6B6B"), TagDef("geometry", "#4ECDC4"), TagDef("calculus", "#45B7D1"),
    TagDef("physics", "#96CEB4"), TagDef("chemistry", "#FFEAA7"), TagDef("biology", "#DDA0DD"),
    TagDef("reasoning", "#98D8C8"), TagDef("verbal", "#F7DC6F"), TagDef("quantitative", "#BB8FCE"),
    TagDef("basic", "#85C1E9"), TagDef("intermediate", "#F8C471"), TagDef("advanced", "#EC7063")]

  /** A default bank; every one has a null subcategory. */
  datatype BankDef = BankDef(name: string, subject: string, category: string)

  const CAT := "CAT"
  const JEE_MAIN := "JEE_MAIN"

  const DEFAULT_BANKS: seq<BankDef> := [
    BankDef("CAT Quantitative Ability", CAT, "Quantitative Ability"),
    BankDef("CAT Verbal Ability", CAT, "Verbal Ability"),
    BankDef("CAT Data Interpretation", CAT, "Data Interpretation & Logical Reasoning"),
    BankDef("JEE Physics", JEE_MAIN, "Physics"),
    BankDef("JEE Chemistry", JEE_MAIN, "Chemistry"),
    BankDef("JEE Mathematics", JEE_MAIN, "Mathematics")]

  const CAT_TEMPLATE := "CAT Standard Pattern"

  function TemplateName(t: Template): string { t.name }
  function QuestionContent(q: Question): string { q.data.content }

  /** What the bank lookup matches: subject, category and subcategory, where a null
      subcategory matches only a null one. */
  function BankKey(b: Bank): (string, string, Option<string>) { (b.subject, b.category, b.subcategory) }
  function DefKey(d: BankDef): (string, string, Option<string>) { (d.subject, d.category, None) }

  /** The template's three sections. */
  const CAT_SECTIONS: seq<TemplateSection> := [
    TemplateSection("Quantitative Ability", 1, 40, Some(40), 22, 6, 10, 6, 0,
                    "Answer all questions in this section."),
    TemplateSection("Data Interpretation & Logical Reasoning", 2, 40, Some(40), 20, 5, 10, 5, 0,
                    "Analyze the data carefully before answering."),
    TemplateSection("Verbal Ability & Reading Comprehension", 3, 40, None, 24, 8, 12, 4, 0,
                    "Read the passages carefully.")]

  /** The template, given the id the store assigns it. */
  function CatTemplate(id: Id): Template {
    Template(id, CAT_TEMPLATE, CAT, "Standard CAT exam pattern with 3 sections", 120, true, true,
      "This is a Computer Adaptive Test. Read all instructions carefully.", CAT_SECTIONS)
  }

  /** The template is consistent: the sections' time limits fill the total time, each
      section's question count is the sum of its difficulty counts, the sections are
      numbered from 1, and every section but the last locks when its own time is up. */
  lemma CatTemplateConsistent(id: Id)
    ensures var t := CatTemplate(id);
            && t.name == CAT_TEMPLATE && |t.sections| == 3
            && t.sections[0].timeLimit + t.sections[1].timeLimit + t.sections[2].timeLimit == t.totalTime
            && (forall s :: s in t.sections ==>
                  s.totalQuestions == s.easyCount + s.mediumCount + s.hardCount + s.expertCount)
            && (forall k :: 0 <= k < 3 ==> t.sections[k].order == k + 1)
            && (forall k :: 0 <= k < 2 ==> t.sections[k].lockAfterTime == Some(t.sections[k].timeLimit))
            && t.sections[2].lockAfterTime.None?
  {
  }

  const SAMPLE_QUESTIONS: seq<QuestionData> := [
    QuestionData("What is the value of √144?", None, "MCQ_SINGLE", Some(["10", "11", "12", "13"]), None,
                 "C", Some("√144 = 12 because 12² = 144"), None, CAT, "Quantitative Ability",
                 Some("Arithmetic"), "EASY", Some(60)),
    QuestionData("If x + y = 10 and x - y = 2, what is the value of x?", None, "MCQ_SINGLE",
                 Some(["4", "5", "6", "7", "8"]), None, "C", Some("Adding the equations: 2x = 12, so x = 6"),
                 None, CAT, "Quantitative Ability", Some("Algebra"), "MEDIUM", Some(90))]

  /** The option an answer letter names: 'A' is the first. */
  function AnswerOption(d: QuestionData): Option<string> {
    if d.options.Some? && |d.correctAnswer| == 1 && 'A' <= d.correctAnswer[0] &&
       (d.correctAnswer[0] as int - 'A' as int) < |d.options.value|
    then Some(d.options.value[d.correctAnswer[0] as int - 'A' as int])
    else None
  }

  /** Both sample answers name an existing option, and the option their explanations derive. */
  lemma SampleAnswersAreRight()
    ensures AnswerOption(SAMPLE_QUESTIONS[0]) == Some("12")
    ensures AnswerOption(SAMPLE_QUESTIONS[1]) == Some("6")
    ensures forall d :: d in SAMPLE_QUESTIONS ==> d.subject == CAT && d.category == DEFAULT_BANKS[0].category
  {
  }

  function DefName(d: TagDef): string { d.name }
  function DataContent(d: QuestionData): string { d.content }

  /** The row `create: tag` makes. */
  function MakeTag(id: Id, d: TagDef): Tag { Tag(id, d.name, Some(d.color)) }

  /** The row the bank create makes: no description, no colour. */
  function MakeBank(id: Id, d: BankDef): Bank { Bank(id, d.name, d.subject, d.category, None, None, None) }

  /** The question create, attributed to `adminId`, with the schema's statistics. */
  function MakeQuestion(adminId: Id, stats: QuestionStats): (Id, QuestionData) -> Question {
    (id: Id, d: QuestionData) => Question(id, d, adminId, stats)
  }

  ghost predicate TagsSeeded(tags: seq<Tag>, defs: seq<TagDef>) {
    forall k :: 0 <= k < |defs| ==> FindBy(tags, TagName, DefName(defs[k])).Some?
  }

  ghost predicate BanksSeeded(banks: seq<Bank>, defs: seq<BankDef>) {
    forall k :: 0 <= k < |defs| ==> FindBy(banks, BankKey, DefKey(defs[k])).Some?
  }

  ghost predicate QuestionsSeeded(questions: seq<Question>, samples: seq<QuestionData>) {
    forall k :: 0 <= k < |samples| ==> FindBy(questions, QuestionContent, DataContent(samples[k])).Some?
  }

  /** Everything the script would create is present. */
  ghost predicate Seeded(db: Database)
    reads db
  {
    && FindBy(db.admins, AdminRole, SUPER_ADMIN).Some?
    && TagsSeeded(db.tags, DEFAULT_TAGS)
    && BanksSeeded(db.banks, DEFAULT_BANKS)
    && FindBy(db.templates, TemplateName, CAT_TEMPLATE).Some?
    && QuestionsSeeded(db.questions, SAMPLE_QUESTIONS)
  }

  /** The first super admin's id, creating the default admin when there is none.
      `None` when that create hits the unique email, which ends the script. */
  method SeedAdmin(db: Database, hash: Hasher, now: DateTime) returns (adminId: Option<Id>)
    requires db.Valid()
    modifies db`admins, db`nextId
    ensures db.Valid()
    ensures FindBy(old(db.admins), AdminRole, SUPER_ADMIN).Some? ==>
              adminId == Some(old(db.admins)[FindBy(old(db.admins), AdminRole, SUPER_ADMIN).value].id)
    ensures adminId.None? <==>
              FindBy(old(db.admins), AdminRole, SUPER_ADMIN).None? && Lookup(old(db.admins), DEFAULT_EMAIL).Some?
    ensures FindBy(old(db.admins), AdminRole, SUPER_ADMIN).None? && adminId.Some? ==>
              db.admins == old(db.admins) + [DefaultAdmin(old(db.nextId), hash, now)] &&
              db.nextId == old(db.nextId) + 1 && adminId == Some(old(db.nextId))
    ensures FindBy(old(db.admins), AdminRole, SUPER_ADMIN).Some? || adminId.None? ==>
              db.admins == old(db.admins) && db.nextId == old(db.nextId)
    // the id handed on is the first super admin's
    ensures adminId.Some? ==>
              FindBy(db.admins, AdminRole, SUPER_ADMIN).Some? &&
              db.admins[FindBy(db.admins, AdminRole, SUPER_ADMIN).value].id == adminId.value
  {
    var existing := FindBy(db.admins, AdminRole, SUPER_ADMIN);
    if existing.Some? {
      return Some(db.admins[existing.value].id);
    }
    if Lookup(db.admins, DEFAULT_EMAIL).Some? {
      return None;
    }
    var hashedPassword := hash(DEFAULT_PASSWORD);
    var admin := db.InsertAdmin(DEFAULT_USERNAME, DEFAULT_EMAIL, hashedPassword, SUPER_ADMIN, now);
    FindByAppend(old(db.admins), [admin], AdminRole, SUPER_ADMIN);
    assert FindBy([admin], AdminRole, SUPER_ADMIN) == Some(0);
    adminId := Some(admin.id);
  }


  /** The tag upsert loop; an existing tag is left as it is (the update is empty). */
  method SeedTags(db: Database, defs: seq<TagDef>)
    modifies db`tags, db`nextId
    ensures (db.tags, db.nextId) == FindOrCreate(old(db.tags), old(db.nextId), defs, TagName, DefName, MakeTag)
  {
    var n := 0;
    while n < |defs|
      invariant 0 <= n <= |defs|
      invariant (db.tags, db.nextId) == FindOrCreate(old(db.tags), old(db.nextId), defs[..n], TagName, DefName, MakeTag)
    {
      FindOrCreateSnoc(old(db.tags), old(db.nextId), defs, n, TagName, DefName, MakeTag);
      var tag := defs[n];
      var found := FindBy(db.tags, TagName, tag.name);
      if found.None? {
        var id := db.NewId();
        db.tags := db.tags + [Tag(id, tag.name, Some(tag.color))];
      }
      n := n + 1;
    }
    assert defs[..n] == defs;
  }

  /** Every tag the upsert loop adds is a default tag with its colour, and none repeats
      an earlier name. */
  lemma SeededTagsAreDefaults(tags: seq<Tag>, nextId: nat, defs: seq<TagDef>)
    ensures var r := FindOrCreate(tags, nextId, defs, TagName, DefName, MakeTag).0;
            (forall j :: |tags| <= j < |r| ==> r[j].color.Some? && TagDef(r[j].name, r[j].color.value) in defs) &&
            (forall i, j :: 0 <= i < j < |r| && |tags| <= j ==> r[i].name != r[j].name)
  {
    var r := FindOrCreate(tags, nextId, defs, TagName, DefName, MakeTag).0;
    FindOrCreateNoRepeat(tags, nextId, defs, TagName, DefName, MakeTag);
    FindOrCreateMakes(tags, nextId, defs, TagName, DefName, MakeTag);
    forall j | |tags| <= j < |r| ensures r[j].color.Some? && TagDef(r[j].name, r[j].color.value) in defs {
      assert |tags| <= j < |FindOrCreate(tags, nextId, defs, TagName, DefName, MakeTag).0|;
      assert exists k :: 0 <= k < |defs| && FindOrCreate(tags, nextId, defs, TagName, DefName, MakeTag).0[j] ==
                                             MakeTag(nextId + (j - |tags|), defs[k]);
      var k :| 0 <= k < |defs| && r[j] == MakeTag(nextId + (j - |tags|), defs[k]);
      assert TagDef(r[j].name, r[j].color.value) == defs[k];
    }
  }

  /** The bank find-or-create loop; a bank's key is its subject, category and subcategory. */
  method SeedBanks(db: Database, defs: seq<BankDef>)
    modifies db`banks, db`nextId
    ensures (db.banks, db.nextId) == FindOrCreate(old(db.banks), old(db.nextId), defs, BankKey, DefKey, MakeBank)
  {
    var n := 0;
    while n < |defs|
      invariant 0 <= n <= |defs|
      invariant (db.banks, db.nextId) == FindOrCreate(old(db.banks), old(db.nextId), defs[..n], BankKey, DefKey, MakeBank)
    {
      FindOrCreateSnoc(old(db.banks), old(db.nextId), defs, n, BankKey, DefKey, MakeBank);
      var bank := defs[n];
      var existingBank := FindBy(db.banks, BankKey, DefKey(bank));
      if existingBank.None? {
        var id := db.NewId();
        db.banks := db.banks + [Bank(id, bank.name, bank.subject, bank.category, None, None, None)];
      }
      n := n + 1;
    }
    assert defs[..n] == defs;
  }

  method SeedTemplate(db: Database)
    modifies db`templates, db`nextId
    ensures FindBy(old(db.templates), TemplateName, CAT_TEMPLATE).Some? ==>
              db.templates == old(db.templates) && db.nextId == old(db.nextId)
    ensures FindBy(old(db.templates), TemplateName, CAT_TEMPLATE).None? ==>
              db.templates == old(db.templates) + [CatTemplate(old(db.nextId))] && db.nextId == old(db.nextId) + 1
    ensures FindBy(db.templates, TemplateName, CAT_TEMPLATE).Some?
  {
    var existingTemplate := FindBy(db.templates, TemplateName, CAT_TEMPLATE);
    if existingTemplate.None? {
      var id := db.NewId();
      var row := CatTemplate(id);
      assert TemplateName(row) == CAT_TEMPLATE;
      db.templates := db.templates + [row];
      FindByAppend(old(db.templates), [row], TemplateName, CAT_TEMPLATE);
      assert FindBy([row], TemplateName, CAT_TEMPLATE) == Some(0);
      }
  }

  /** The link the sample-question loop adds for a new question: to the first bank with
      its subject and category, whatever that bank's subcategory, or none. */
  function LinkOf(q: Question, banks: seq<Bank>): seq<BankQuestion> {
    match FindBy(banks, BankArea, QuestionArea(q.data))
    case None => []
    case Some(b) => [BankQuestion(q.id, banks[b].id)]
  }

  function Links(qs: seq<Question>, banks: seq<Bank>): seq<BankQuestion>
    decreases |qs|
  {
    if qs == [] then [] else Links(qs[..|qs| - 1], banks) + LinkOf(qs[|qs| - 1], banks)
  }

  /** Every question that has a bank in its area is linked to the first such bank. */
  lemma {:induction false} LinksComplete(qs: seq<Question>, banks: seq<Bank>)
    ensures forall j :: 0 <= j < |qs| && FindBy(banks, BankArea, QuestionArea(qs[j].data)).Some? ==>
              BankQuestion(qs[j].id, banks[FindBy(banks, BankArea, QuestionArea(qs[j].data)).value].id)
                in Links(qs, banks)
    decreases |qs|
  {
    if qs != [] {
      var init := qs[..|qs| - 1];
      LinksComplete(init, banks);
      assert Links(qs, banks) == Links(init, banks) + LinkOf(qs[|qs| - 1], banks);
      forall j | 0 <= j < |qs| && FindBy(banks, BankArea, QuestionArea(qs[j].data)).Some?
        ensures BankQuestion(qs[j].id, banks[FindBy(banks, BankArea, QuestionArea(qs[j].data)).value].id)
                  in Links(qs, banks)
      {
        if j < |init| {
          assert qs[j] == init[j];
        }
      }
    }
  }

  /** Every link is the one link of some question, so there is at most one per question. */
  lemma {:induction false} LinksSound(qs: seq<Question>, banks: seq<Bank>)
    ensures |Links(qs, banks)| <= |qs|
    ensures forall l :: l in Links(qs, banks) ==>
              exists j :: 0 <= j < |qs| && LinkOf(qs[j], banks) == [l]
    decreases |qs|
  {
    if qs != [] {
      var init := qs[..|qs| - 1];
      LinksSound(init, banks);
      var last := LinkOf(qs[|qs| - 1], banks);
      assert Links(qs, banks) == Links(init, banks) + last;
      forall l | l in Links(qs, banks) ensures exists j :: 0 <= j < |qs| && LinkOf(qs[j], banks) == [l] {
        if l in last {
          assert LinkOf(qs[|qs| - 1], banks) == [l];
        } else {
          var j :| 0 <= j < |init| && LinkOf(init[j], banks) == [l];
          assert LinkOf(qs[j], banks) == [l];
        }
      }
    }
  }

  lemma LinksSnoc(qs: seq<Question>, q: Question, banks: seq<Bank>)
    ensures Links(qs + [q], banks) == Links(qs, banks) + LinkOf(q, banks)
  {
    assert (qs + [q])[..|qs|] == qs;
  }

  /** The links of the questions from `base` on, after the loop adds at most one question. */
  lemma AddedLinks(before: seq<Question>, after: seq<Question>, base: nat, banks: seq<Bank>)
    requires base <= |before| && before <= after && |after| <= |before| + 1
    ensures Links(after[base..], banks) ==
            Links(before[base..], banks) + if |after| == |before| then [] else LinkOf(after[|before|], banks)
  {
    if |after| != |before| {
      assert after[base..] == before[base..] + [after[|before|]];
      LinksSnoc(before[base..], after[|before|], banks);
    } else {
      assert after == before;
    }
  }

  /** One pass of the sample question loop. */
  method AddSampleQuestion(db: Database, questionData: QuestionData, adminId: Id)
    modifies db`questions, db`bankQuestions, db`nextId
    ensures (db.questions, db.nextId) ==
            FindOrCreateStep((old(db.questions), old(db.nextId)), questionData, QuestionContent, DataContent,
                             MakeQuestion(adminId, db.defaultStats))
    ensures old(db.questions) <= db.questions && |db.questions| <= |old(db.questions)| + 1
    ensures db.bankQuestions == old(db.bankQuestions) +
              if |db.questions| == |old(db.questions)| then [] else LinkOf(db.questions[|old(db.questions)|], db.banks)
  {
    var existingQuestion := FindBy(db.questions, QuestionContent, questionData.content);
    if existingQuestion.None? {
      var id := db.NewId();
      var question := Question(id, questionData, adminId, db.defaultStats);
      db.questions := db.questions + [question];
      var bank := FindBy(db.banks, BankArea, QuestionArea(questionData));
      if bank.Some? {
        db.bankQuestions := db.bankQuestions + [BankQuestion(question.id, db.banks[bank.value].id)];
      }
    }
  }

  /** The sample question loop: each missing question is created for `adminId` and then
      linked by `LinkOf`. */
  method SeedQuestions(db: Database, samples: seq<QuestionData>, adminId: Id)
    modifies db`questions, db`bankQuestions, db`nextId
    ensures (db.questions, db.nextId) ==
            FindOrCreate(old(db.questions), old(db.nextId), samples, QuestionContent, DataContent,
                         MakeQuestion(adminId, db.defaultStats))
    ensures old(db.questions) <= db.questions
    ensures db.bankQuestions == old(db.bankQuestions) + Links(db.questions[|old(db.questions)|..], db.banks)
  {
    var n := 0;
    while n < |samples|
      invariant 0 <= n <= |samples|
      invariant (db.questions, db.nextId) ==
                FindOrCreate(old(db.questions), old(db.nextId), samples[..n], QuestionContent, DataContent,
                             MakeQuestion(adminId, db.defaultStats))
      invariant old(db.questions) <= db.questions
      invariant db.bankQuestions == old(db.bankQuestions) + Links(db.questions[|old(db.questions)|..], db.banks)
    {
      FindOrCreateSnoc(old(db.questions), old(db.nextId), samples, n, QuestionContent, DataContent,
                       MakeQuestion(adminId, db.defaultStats));
      ghost var before := db.questions;
      AddSampleQuestion(db, samples[n], adminId);
      AddedLinks(before, db.questions, |old(db.questions)|, db.banks);
      n := n + 1;
    }
    assert samples[..n] == samples;
  }

  /** What the tag step guarantees about the store: it only appends, all the tags are
      then present, and when they already were it changes nothing. */
  lemma TagStepFacts(tags: seq<Tag>, nextId: nat, defs: seq<TagDef>)
    ensures var r := FindOrCreate(tags, nextId, defs, TagName, DefName, MakeTag);
            tags <= r.0 && nextId <= r.1 && TagsSeeded(r.0, defs) && (TagsSeeded(tags, defs) ==> r == (tags, nextId))
  {
    FindOrCreateGrows(tags, nextId, defs, TagName, DefName, MakeTag);
    FindOrCreatePresent(tags, nextId, defs, TagName, DefName, MakeTag);
    if TagsSeeded(tags, defs) {
      FindOrCreateNoop(tags, nextId, defs, TagName, DefName, MakeTag);
    }
  }

  lemma BankStepFacts(banks: seq<Bank>, nextId: nat, defs: seq<BankDef>)
    ensures var r := FindOrCreate(banks, nextId, defs, BankKey, DefKey, MakeBank);
            banks <= r.0 && nextId <= r.1 && BanksSeeded(r.0, defs) && (BanksSeeded(banks, defs) ==> r == (banks, nextId))
  {
    FindOrCreateGrows(banks, nextId, defs, BankKey, DefKey, MakeBank);
    FindOrCreatePresent(banks, nextId, defs, BankKey, DefKey, MakeBank);
    if BanksSeeded(banks, defs) {
      FindOrCreateNoop(banks, nextId, defs, BankKey, DefKey, MakeBank);
    }
  }

  lemma QuestionStepFacts(questions: seq<Question>, nextId: nat, samples: seq<QuestionData>,
                          adminId: Id, stats: QuestionStats)
    ensures var r := FindOrCreate(questions, nextId, samples, QuestionContent, DataContent,
                                  MakeQuestion(adminId, stats));
            questions <= r.0 && nextId <= r.1 && QuestionsSeeded(r.0, samples) &&
            (QuestionsSeeded(questions, samples) ==> r == (questions, nextId))
  {
    var make := MakeQuestion(adminId, stats);
    FindOrCreateGrows(questions, nextId, samples, QuestionContent, DataContent, make);
    FindOrCreatePresent(questions, nextId, samples, QuestionContent, DataContent, make);
    if QuestionsSeeded(questions, samples) {
      FindOrCreateNoop(questions, nextId, samples, QuestionContent, DataContent, make);
    }
  }

  /** The template step as the rest of the script sees it: it only appends, the template is then
      present, and when it already was it changes nothing. */
  method SeedTemplateStep(db: Database)
    modifies db`templates, db`nextId
    ensures old(db.nextId) <= db.nextId && old(db.templates) <= db.templates
    ensures FindBy(db.templates, TemplateName, CAT_TEMPLATE).Some?
    ensures FindBy(old(db.templates), TemplateName, CAT_TEMPLATE).Some? ==>
              db.templates == old(db.templates) && db.nextId == old(db.nextId)
  {
    SeedTemplate(db);
  }

  method SeedTagsStep(db: Database, defs: seq<TagDef>)
    modifies db`tags, db`nextId
    ensures old(db.nextId) <= db.nextId && old(db.tags) <= db.tags && TagsSeeded(db.tags, defs)
    ensures TagsSeeded(old(db.tags), defs) ==> db.tags == old(db.tags) && db.nextId == old(db.nextId)
  {
    TagStepFacts(db.tags, db.nextId, defs);
    SeedTags(db, defs);
  }

  method SeedBanksStep(db: Database, defs: seq<BankDef>)
    modifies db`banks, db`nextId
    ensures old(db.nextId) <= db.nextId && old(db.banks) <= db.banks && BanksSeeded(db.banks, defs)
    ensures BanksSeeded(old(db.banks), defs) ==> db.banks == old(db.banks) && db.nextId == old(db.nextId)
  {
    BankStepFacts(db.banks, db.nextId, defs);
    SeedBanks(db, defs);
  }

  /** The sample question step as the rest of the script sees it: it only appends, the
      samples are then present, and when they already were it changes nothing. */
  method SeedQuestionsStep(db: Database, samples: seq<QuestionData>, adminId: Id)
    modifies db`questions, db`bankQuestions, db`nextId
    ensures old(db.nextId) <= db.nextId
    ensures old(db.questions) <= db.questions && old(db.bankQuestions) <= db.bankQuestions
    ensures QuestionsSeeded(db.questions, samples)
    ensures QuestionsSeeded(old(db.questions), samples) ==>
              db.questions == old(db.questions) && db.bankQuestions == old(db.bankQuestions) &&
              db.nextId == old(db.nextId)
  {
    QuestionStepFacts(db.questions, db.nextId, samples, adminId, db.defaultStats);
    SeedQuestions(db, samples, adminId);
    if db.questions == old(db.questions) {
      assert db.questions[|old(db.questions)|..] == [];
    }
  }

  /** The tag and bank steps. */
  method SeedTaxonomy(db: Database, tags: seq<TagDef>, banks: seq<BankDef>)
    modifies db`nextId, db`tags, db`banks
    ensures old(db.nextId) <= db.nextId && old(db.tags) <= db.tags && old(db.banks) <= db.banks
    ensures TagsSeeded(db.tags, tags) && BanksSeeded(db.banks, banks)
    ensures TagsSeeded(old(db.tags), tags) && BanksSeeded(old(db.banks), banks) ==>
              db.nextId == old(db.nextId) && db.tags == old(db.tags) && db.banks == old(db.banks)
  {
    SeedTagsStep(db, tags);
    SeedBanksStep(db, banks);
  }

  /** The template and sample question steps. */
  method SeedExamContent(db: Database, adminId: Id, samples: seq<QuestionData>)
    modifies db`nextId, db`templates, db`questions, db`bankQuestions
    ensures old(db.nextId) <= db.nextId && old(db.templates) <= db.templates
    ensures old(db.questions) <= db.questions && old(db.bankQuestions) <= db.bankQuestions
    ensures FindBy(db.templates, TemplateName, CAT_TEMPLATE).Some? && QuestionsSeeded(db.questions, samples)
    ensures FindBy(old(db.templates), TemplateName, CAT_TEMPLATE).Some? && QuestionsSeeded(old(db.questions), samples) ==>
              db.nextId == old(db.nextId) && db.templates == old(db.templates) &&
              db.questions == old(db.questions) && db.bankQuestions == old(db.bankQuestions)
  {
    SeedTemplateStep(db);
    SeedQuestionsStep(db, samples, adminId);
  }

  /** Everything after the admin step, for the given tags, banks and sample questions. */
  method SeedContent(db: Database, adminId: Id, tags: seq<TagDef>, banks: seq<BankDef>, samples: seq<QuestionData>)
    modifies db`nextId, db`tags, db`banks, db`templates, db`questions, db`bankQuestions
    ensures old(db.nextId) <= db.nextId
    ensures old(db.tags) <= db.tags && old(db.banks) <= db.banks && old(db.templates) <= db.templates &&
            old(db.questions) <= db.questions && old(db.bankQuestions) <= db.bankQuestions
    ensures TagsSeeded(db.tags, tags) && BanksSeeded(db.banks, banks) && QuestionsSeeded(db.questions, samples)
    ensures FindBy(db.templates, TemplateName, CAT_TEMPLATE).Some?
    ensures TagsSeeded(old(db.tags), tags) && BanksSeeded(old(db.banks), banks) &&
            QuestionsSeeded(old(db.questions), samples) &&
            FindBy(old(db.templates), TemplateName, CAT_TEMPLATE).Some? ==>
              db.nextId == old(db.nextId) && db.tags == old(db.tags) && db.banks == old(db.banks) &&
              db.templates == old(db.templates) && db.questions == old(db.questions) &&
              db.bankQuestions == old(db.bankQuestions)
  {
    SeedTaxonomy(db, tags, banks);
    SeedExamContent(db, adminId, samples);
  }

  /** Everything after the admin step, on a store that has a super admin. */
  method SeedAfterAdmin(db: Database, adminId: Id)
    requires db.Valid() && FindBy(db.admins, AdminRole, SUPER_ADMIN).Some?
    modifies db`nextId, db`tags, db`banks, db`templates, db`questions, db`bankQuestions
    ensures db.Valid() && Seeded(db)
    ensures old(db.tags) <= db.tags && old(db.banks) <= db.banks && old(db.templates) <= db.templates &&
            old(db.questions) <= db.questions && old(db.bankQuestions) <= db.bankQuestions
    ensures old(Seeded(db)) ==> unchanged(db)
  {
    ghost var id1 := db.nextId;
    SeedContent(db, adminId, DEFAULT_TAGS, DEFAULT_BANKS, SAMPLE_QUESTIONS);
    AdminTableOkGrows(db.admins, id1, db.nextId);
  }

  /** The whole script. `false` when it stops at the admin step, before any write. */
  method RunSeed(db: Database, hash: Hasher, now: DateTime) returns (ok: bool)
    requires db.Valid()
    modifies db`admins, db`nextId, db`tags, db`banks, db`templates, db`questions, db`bankQuestions
    ensures db.Valid()
    ensures !ok <==>
              FindBy(old(db.admins), AdminRole, SUPER_ADMIN).None? && Lookup(old(db.admins), DEFAULT_EMAIL).Some?
    ensures !ok ==> unchanged(db)
    ensures ok ==> Seeded(db)
    // the script only adds rows
    ensures old(db.admins) <= db.admins && old(db.tags) <= db.tags && old(db.banks) <= db.banks &&
            old(db.templates) <= db.templates && old(db.questions) <= db.questions &&
            old(db.bankQuestions) <= db.bankQuestions
    // running it again on what it produced changes nothing
    ensures old(Seeded(db)) ==> unchanged(db)
  {
    var adminId := SeedAdmin(db, hash, now);
    if adminId.None? {
      return false;
    }
    SeedAfterAdmin(db, adminId.value);
    ok := true;
  }
}
