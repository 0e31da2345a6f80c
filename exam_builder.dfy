/** The exam-management test builder: a form of sections, each with questions and their
    options, checked against a schema before submission; submitting posts every question
    to the question route, one request at a time, in section order. */
module ExamBuilder {
  import opened Common

  datatype OptionForm = OptionForm(text: string, image: Option<string>)

  /** A question as the form holds it; the optional fields are `None` when unset. */
  datatype QuestionForm = QuestionForm(
    content: string, questionType: string, options: Option<seq<OptionForm>>, correctAnswer: string,
    explanation: Option<string>, subject: string, difficulty: string, tags: Option<seq<string>>,
    bank: Option<string>, questionImage: Option<string>)

  /** `sectionTime` comes from a number input read with `valueAsNumber`, so `NaN` is possible. */
  datatype SectionForm = SectionForm(title: string, sectionTime: Num, allowQuestionSwitch: bool,
                                     questions: seq<QuestionForm>)

  datatype TestForm = TestForm(title: string, allowSectionSwitch: bool, sections: seq<SectionForm>)

  const QUESTION_TYPES: set<string> := {"MCQ", "TRUE_FALSE", "NUMERICAL", "DESCRIPTIVE"}
  const DIFFICULTIES: set<string> := {"EASY", "MEDIUM", "HARD"}

  // The schema. Lengths are counted in characters.

  predicate OptionValid(o: OptionForm) {
    |o.text| >= 1
  }

  predicate QuestionValid(q: QuestionForm) {
    && |q.content| >= 5
    && q.questionType in QUESTION_TYPES
    && (q.options.Some? ==> forall i :: 0 <= i < |q.options.value| ==> OptionValid(q.options.value[i]))
    && |q.subject| >= 2
    && q.difficulty in DIFFICULTIES
  }

  /** A whole number of minutes from 1 to 180 (a `NaN` is not a number to the schema). */
  predicate SectionTimeValid(t: Num) {
    IsInteger(t) && 1.0 <= t.value <= 180.0
  }

  predicate SectionValid(s: SectionForm) {
    && |s.title| >= 2
    && SectionTimeValid(s.sectionTime)
    && |s.questions| >= 1
    && forall i :: 0 <= i < |s.questions| ==> QuestionValid(s.questions[i])
  }

  /** An empty list of sections is allowed. */
  predicate TestValid(f: TestForm) {
    |f.title| >= 3 && forall i :: 0 <= i < |f.sections| ==> SectionValid(f.sections[i])
  }

  const DEFAULT_FORM := TestForm("", true, [SectionForm("Section 1", Finite(60.0), true, [])])

  /** The form as first shown, and as `reset()` restores it, does not pass the schema: it
      has no title, and its one section has no question. */
  lemma DefaultFormInvalid()
    ensures !TestValid(DEFAULT_FORM)
    ensures !SectionValid(DEFAULT_FORM.sections[0]) && SectionTimeValid(DEFAULT_FORM.sections[0].sectionTime)
  {
    assert IsInteger(Finite(60.0)) by {
      assert (60.0).Floor == 60;
    }
  }

  /** `sections.map(sec => Number(sec.sectionTime) || 0).reduce((a, b) => a + b, 0)`. */
  function TotalTime(sections: seq<SectionForm>): real
    decreases |sections|
  {
    if sections == [] then 0.0
    else TotalTime(sections[..|sections| - 1]) + OrZero(sections[|sections| - 1].sectionTime)
  }

  lemma {:induction false} TotalTimeAppend(a: seq<SectionForm>, b: seq<SectionForm>)
    ensures TotalTime(a + b) == TotalTime(a) + TotalTime(b)
    decreases |b|
  {
    if b == [] {
      assert a + b == a;
    } else {
      assert (a + b)[..|a + b| - 1] == a + b[..|b| - 1];
      TotalTimeAppend(a, b[..|b| - 1]);
    }
  }

  /** In a form that passes the schema every section counts for 1 to 180 minutes. */
  lemma {:induction false} ValidTotalTime(sections: seq<SectionForm>)
    requires forall i :: 0 <= i < |sections| ==> SectionValid(sections[i])
    ensures |sections| as real <= TotalTime(sections) <= 180.0 * |sections| as real
    decreases |sections|
  {
    if sections != [] {
      ValidTotalTime(sections[..|sections| - 1]);
    }
  }

  /** `watch(base + '.questionType') || 'MCQ'` */
  function EffectiveType(q: QuestionForm): string {
    if q.questionType == "" then "MCQ" else q.questionType
  }

  const TRUE_FALSE_OPTIONS := [OptionForm("True", Some("")), OptionForm("False", Some(""))]

  function OptionCount(q: QuestionForm): nat {
    if q.options.Some? then |q.options.value| else 0
  }

  /** The TRUE_FALSE effect: a true/false question with fewer than two options gets
      exactly "True" and "False"; any other question is left as it is. */
  function AutoFilled(q: QuestionForm): (r: QuestionForm)
    ensures EffectiveType(q) == "TRUE_FALSE" && OptionCount(q) < 2 ==> r == q.(options := Some(TRUE_FALSE_OPTIONS))
    ensures !(EffectiveType(q) == "TRUE_FALSE" && OptionCount(q) < 2) ==> r == q
  {
    if EffectiveType(q) == "TRUE_FALSE" && OptionCount(q) < 2 then q.(options := Some(TRUE_FALSE_OPTIONS)) else q
  }

  /** The effect settles after one run, and afterwards every true/false question has at
      least two options. */
  lemma AutoFillSettles(q: QuestionForm)
    ensures AutoFilled(AutoFilled(q)) == AutoFilled(q)
    ensures EffectiveType(AutoFilled(q)) == "TRUE_FALSE" ==> OptionCount(AutoFilled(q)) >= 2
  {
  }

  /** What "+ Add Question" appends. */
  const NEW_QUESTION := QuestionForm("", "MCQ", Some([]), "", Some(""), "", "EASY", Some([]), Some(""), Some(""))

  /** The new question does not pass the schema until its text and subject are filled in. */
  lemma NewQuestionNeedsEditing()
    ensures !QuestionValid(NEW_QUESTION)
    ensures forall c, s :: |c| >= 5 && |s| >= 2 ==> QuestionValid(NEW_QUESTION.(content := c, subject := s))
  {
  }

  /** What "+ Add Section" appends when there are `count` sections. */
  function NewSection(count: nat): (s: SectionForm)
    ensures s.title == "Section " + NatToString(count + 1)
    ensures s.sectionTime == Finite(60.0) && s.allowQuestionSwitch && s.questions == []
  {
    SectionForm("Section " + NatToString(count + 1), Finite(60.0), true, [])
  }

  /** One request body: the question's fields, its section's, the test's and the status. */
  datatype QuestionPost = QuestionPost(question: QuestionForm, section: string, sectionTime: Num,
                                       allowQuestionSwitch: bool, allowSectionSwitch: bool, examTitle: string,
                                       totalTime: real, status: string)

  function PostFor(f: TestForm, s: SectionForm, q: QuestionForm): QuestionPost {
    QuestionPost(q, s.title, s.sectionTime, s.allowQuestionSwitch, f.allowSectionSwitch, f.title,
                 TotalTime(f.sections), "PUBLISHED")
  }

  function SectionPosts(f: TestForm, s: SectionForm): (r: seq<QuestionPost>)
    ensures |r| == |s.questions|
    ensures forall j :: 0 <= j < |r| ==> r[j] == PostFor(f, s, s.questions[j])
  {
    seq(|s.questions|, j requires 0 <= j < |s.questions| => PostFor(f, s, s.questions[j]))
  }

  /** Every request of a submission, section by section, each section's questions in order. */
  function Posts(f: TestForm, sections: seq<SectionForm>): seq<QuestionPost>
    decreases |sections|
  {
    if sections == [] then []
    else Posts(f, sections[..|sections| - 1]) + SectionPosts(f, sections[|sections| - 1])
  }

  function QuestionCount(sections: seq<SectionForm>): nat
    decreases |sections|
  {
    if sections == [] then 0
    else QuestionCount(sections[..|sections| - 1]) + |sections[|sections| - 1].questions|
  }

  /** There is one request per question. */
  lemma {:induction false} PostsPerQuestion(f: TestForm, sections: seq<SectionForm>)
    ensures |Posts(f, sections)| == QuestionCount(sections)
    decreases |sections|
  {
    if sections != [] {
      PostsPerQuestion(f, sections[..|sections| - 1]);
    }
  }

  /** The requests of the first sections come first. */
  lemma {:induction false} PostsPrefix(f: TestForm, sections: seq<SectionForm>, n: nat)
    requires n <= |sections|
    ensures Posts(f, sections[..n]) <= Posts(f, sections)
    decreases |sections| - n
  {
    if n < |sections| {
      PostsPrefix(f, sections, n + 1);
      assert sections[..n + 1][..n] == sections[..n];
    } else {
      assert sections[..n] == sections;
    }
  }

  /** `send(p)`: whether the request and reading its JSON reply both return; `false` stands
      for a throw, which ends the submission. The reply's status is not looked at. */
  type Sender = QuestionPost -> bool

  /** The requests that get sent: all of them, or up to and including the first that throws. */
  function Attempted(posts: seq<QuestionPost>, send: Sender): (r: seq<QuestionPost>)
    ensures r <= posts
    decreases |posts|
  {
    if posts == [] then []
    else [posts[0]] + (if send(posts[0]) then Attempted(posts[1..], send) else [])
  }

  predicate AllReturn(posts: seq<QuestionPost>, send: Sender) {
    forall i :: 0 <= i < |posts| ==> send(posts[i])
  }

  lemma {:induction false} AttemptedAll(posts: seq<QuestionPost>, send: Sender)
    requires AllReturn(posts, send)
    ensures Attempted(posts, send) == posts
    decreases |posts|
  {
    if posts != [] {
      AttemptedAll(posts[1..], send);
    }
  }

  lemma {:induction false} AttemptedStops(sent: seq<QuestionPost>, p: QuestionPost, rest: seq<QuestionPost>,
                                         send: Sender)
    requires AllReturn(sent, send) && !send(p)
    ensures Attempted(sent + [p] + rest, send) == sent + [p]
    decreases |sent|
  {
    var all := sent + [p] + rest;
    if sent == [] {
      assert all[0] == p;
    } else {
      assert all[1..] == sent[1..] + [p] + rest;
      AttemptedStops(sent[1..], p, rest, send);
    }
  }

  /** A submission sends every request exactly when none throws; otherwise it stops right
      after the first that does, and has sent only requests that returned before it. */
  lemma {:induction false} AttemptedIsLongestPrefix(posts: seq<QuestionPost>, send: Sender)
    ensures AllReturn(posts, send) ==> Attempted(posts, send) == posts
    ensures !AllReturn(posts, send) ==>
              var r := Attempted(posts, send);
              r != [] && !send(r[|r| - 1]) && AllReturn(r[..|r| - 1], send)
    decreases |posts|
  {
    if AllReturn(posts, send) {
      AttemptedAll(posts, send);
    } else if send(posts[0]) {
      AttemptedIsLongestPrefix(posts[1..], send);
      assert !AllReturn(posts[1..], send) by {
        var k :| 0 <= k < |posts| && !send(posts[k]);
        assert posts[1..][k - 1] == posts[k];
      }
      var r' := Attempted(posts[1..], send);
      assert ([posts[0]] + r')[..|r'|] == [posts[0]] + r'[..|r'| - 1];
    }
  }

  /** The requests of the sections before `i` and of section `i` open the submission. */
  lemma {:induction false} PostsThrough(f: TestForm, i: nat)
    requires i < |f.sections|
    ensures Posts(f, f.sections[..i]) + SectionPosts(f, f.sections[i]) <= Posts(f, f.sections)
  {
    PostsPrefix(f, f.sections, i + 1);
    assert f.sections[..i + 1][..i] == f.sections[..i];
  }

  /** A submission whose `j`-th request in section `i` is the first to throw has sent the
      requests before it and that one. */
  lemma StopsAt(f: TestForm, i: nat, j: nat, send: Sender)
    requires i < |f.sections| && j < |f.sections[i].questions|
    requires AllReturn(Posts(f, f.sections[..i]) + SectionPosts(f, f.sections[i])[..j], send)
    requires !send(PostFor(f, f.sections[i], f.sections[i].questions[j]))
    ensures Attempted(Posts(f, f.sections), send) ==
            Posts(f, f.sections[..i]) + SectionPosts(f, f.sections[i])[..j + 1]
    ensures !AllReturn(Posts(f, f.sections), send)
  {
    var done := Posts(f, f.sections[..i]);
    var section := SectionPosts(f, f.sections[i]);
    var post := section[j];
    var all := Posts(f, f.sections);
    PostsThrough(f, i);
    assert section[..j + 1] == section[..j] + [post];
    var sent := done + section[..j];
    assert |sent| < |all| && all[..|sent| + 1] == sent + [post] by {
      assert (done + section)[..|sent| + 1] == sent + [post];
    }
    var rest := all[|sent| + 1..];
    assert all == sent + [post] + rest;
    AttemptedStops(sent, post, rest, send);
    assert all[|sent|] == post;
  }

  class FormBuilder {
    var form: TestForm
    var submitting: bool

    constructor ()
      ensures form == DEFAULT_FORM && !submitting
    {
      form := DEFAULT_FORM;
      submitting := false;
    }

    /** "+ Add Section": a section named after its position, 60 minutes, question switch on
        and no questions; the total time grows by 60. */
    method AppendSection()
      modifies this`form
      ensures form == old(form).(sections := old(form).sections + [NewSection(|old(form).sections|)])
      ensures TotalTime(form.sections) == TotalTime(old(form).sections) + 60.0
    {
      var count := |form.sections|;
      form := form.(sections := form.sections + [SectionForm("Section " + NatToString(count + 1), Finite(60.0),
                                                              true, [])]);
      TotalTimeAppend(old(form).sections, [NewSection(count)]);
      assert [NewSection(count)][..0] == [];
    }

    function Question(s: nat, q: nat): QuestionForm
      reads this
      requires s < |form.sections| && q < |form.sections[s].questions|
    {
      form.sections[s].questions[q]
    }

    /** The form with question `qi` of section `si` replaced. */
    static function WithQuestion(f: TestForm, si: nat, qi: nat, q: QuestionForm): (r: TestForm)
      requires si < |f.sections| && qi < |f.sections[si].questions|
      ensures r.title == f.title && r.allowSectionSwitch == f.allowSectionSwitch
      ensures |r.sections| == |f.sections|
      ensures forall i :: 0 <= i < |f.sections| && i != si ==> r.sections[i] == f.sections[i]
      ensures r.sections[si] == f.sections[si].(questions := f.sections[si].questions[qi := q])
    {
      var s := f.sections[si];
      f.(sections := f.sections[si := s.(questions := s.questions[qi := q])])
    }

    /** "+ Add Question" in section `si`. */
    method AppendQuestion(si: nat)
      requires si < |form.sections|
      modifies this`form
      ensures var s := old(form).sections[si];
              form == old(form).(sections := old(form).sections[si := s.(questions := s.questions + [NEW_QUESTION])])
    {
      var s := form.sections[si];
      form := form.(sections := form.sections[si := s.(questions := s.questions + [NEW_QUESTION])]);
    }

    /** A question's remove button. */
    method RemoveQuestion(si: nat, qi: nat)
      requires si < |form.sections| && qi < |form.sections[si].questions|
      modifies this`form
      ensures var s := old(form).sections[si];
              form == old(form).(sections := old(form).sections[si := s.(questions := RemoveAt(s.questions, qi))])
    {
      var s := form.sections[si];
      form := form.(sections := form.sections[si := s.(questions := RemoveAt(s.questions, qi))]);
    }

    /** The TRUE_FALSE effect for one question. */
    method AutoFill(si: nat, qi: nat)
      requires si < |form.sections| && qi < |form.sections[si].questions|
      modifies this`form
      ensures form == WithQuestion(old(form), si, qi, AutoFilled(old(Question(si, qi))))
    {
      form := WithQuestion(form, si, qi, AutoFilled(Question(si, qi)));
    }

    /** "+ Option", which is only shown for an MCQ question: an empty option at the end. */
    method AddOption(si: nat, qi: nat)
      requires si < |form.sections| && qi < |form.sections[si].questions|
      requires EffectiveType(Question(si, qi)) == "MCQ"
      modifies this`form
      ensures var q := old(Question(si, qi));
              form == WithQuestion(old(form), si, qi,
                                   q.(options := Some(q.options.GetOr([]) + [OptionForm("", Some(""))])))
    {
      var q := Question(si, qi);
      form := WithQuestion(form, si, qi, q.(options := Some(q.options.GetOr([]) + [OptionForm("", Some(""))])));
    }

    /** An option's remove button, which is only shown for an MCQ question. */
    method RemoveOption(si: nat, qi: nat, oi: nat)
      requires si < |form.sections| && qi < |form.sections[si].questions|
      requires EffectiveType(Question(si, qi)) == "MCQ"
      requires Question(si, qi).options.Some? && oi < |Question(si, qi).options.value|
      modifies this`form
      ensures var q := old(Question(si, qi));
              form == WithQuestion(old(form), si, qi, q.(options := Some(RemoveAt(q.options.value, oi))))
    {
      var q := Question(si, qi);
      form := WithQuestion(form, si, qi, q.(options := Some(RemoveAt(q.options.value, oi))));
    }

    /** "Create Test". A form the schema rejects is not submitted. Otherwise every question is
        posted in order until one request throws; when none does the count reported is the
        number of questions and the form is reset. */
    method Submit(send: Sender) returns (sent: seq<QuestionPost>, created: Option<nat>)
      modifies this`form, this`submitting
      ensures TestValid(old(form)) ==> !submitting
      ensures !TestValid(old(form)) ==> sent == [] && created.None? && form == old(form) &&
                                        submitting == old(submitting)
      ensures TestValid(old(form)) ==> sent == Attempted(Posts(old(form), old(form).sections), send)
      ensures created.Some? <==> TestValid(old(form)) && AllReturn(Posts(old(form), old(form).sections), send)
      ensures created.Some? ==> created.value == QuestionCount(old(form).sections) && form == DEFAULT_FORM
      ensures created.None? ==> form == old(form)
    {
      if !TestValid(form) {
        return [], None;
      }
      submitting := true;
      var data := form;
      var all := Posts(data, data.sections);
      sent := [];
      var i := 0;
      while i < |data.sections|
        invariant 0 <= i <= |data.sections| && form == data
        invariant sent == Posts(data, data.sections[..i]) && AllReturn(sent, send)
      {
        var section := data.sections[i];
        var j := 0;
        while j < |section.questions|
          invariant 0 <= j <= |section.questions| && form == data
          invariant sent == Posts(data, data.sections[..i]) + SectionPosts(data, section)[..j]
          invariant AllReturn(sent, send)
        {
          var post := PostFor(data, section, section.questions[j]);
          assert SectionPosts(data, section)[..j + 1] == SectionPosts(data, section)[..j] + [post];
          if !send(post) {
            StopsAt(data, i, j, send);
            sent := sent + [post];
            submitting := false;
            return sent, None;
          }
          sent := sent + [post];
          j := j + 1;
        }
        assert SectionPosts(data, section)[..j] == SectionPosts(data, section);
        assert data.sections[..i + 1][..i] == data.sections[..i];
        i := i + 1;
      }
      assert data.sections[..i] == data.sections;
      AttemptedAll(all, send);
      PostsPerQuestion(data, data.sections);
      created := Some(|sent|);
      form := DEFAULT_FORM;
      submitting := false;
    }
  }
}
