/** The test-creator form: sections, each with a name, a duration, a lock switch and
    its questions. Every handler copies the `sections` array and hands the copy to
    React, but the copy holds the same section objects and, inside them, the same
    `questions` arrays, which adding or editing a question changes in place. The
    arrays are modelled as objects for that reason. */
module TestCreator {
  import opened Common

  datatype CreatorQuestion = CreatorQuestion(question: string, options: seq<string>, answer: string)

  /** What "Add Question" pushes: an empty question with four empty options. */
  const BLANK_QUESTION := CreatorQuestion("", ["", "", "", ""], "")

  /** A section's `questions` array. */
  class QuestionList {
    var items: seq<CreatorQuestion>

    constructor ()
      ensures items == []
    {
      items := [];
    }
  }

  /** `duration` is what `parseInt` gave, so it may be `NaN`. */
  datatype Section = Section(name: string, duration: Num, isLocked: bool, questions: QuestionList)

  /** `Partial<Section>` as the inputs send it: a name, a duration or a lock state. */
  datatype SectionPatch = SectionPatch(name: Option<string>, duration: Option<Num>, isLocked: Option<bool>)

  /** `{ ...section, ...updated }` */
  function PatchSection(s: Section, p: SectionPatch): (r: Section)
    ensures r.questions == s.questions
    ensures r.name == (if p.name.Some? then p.name.value else s.name)
    ensures r.duration == (if p.duration.Some? then p.duration.value else s.duration)
    ensures r.isLocked == (if p.isLocked.Some? then p.isLocked.value else s.isLocked)
  {
    Section(p.name.GetOr(s.name), p.duration.GetOr(s.duration), p.isLocked.GetOr(s.isLocked), s.questions)
  }

  /** `Partial<Question>`: the text, the options or the answer. */
  datatype QuestionPatch = QuestionPatch(question: Option<string>, options: Option<seq<string>>,
                                         answer: Option<string>)

  function PatchQuestion(q: CreatorQuestion, p: QuestionPatch): (r: CreatorQuestion)
    ensures r.question == (if p.question.Some? then p.question.value else q.question)
    ensures r.options == (if p.options.Some? then p.options.value else q.options)
    ensures r.answer == (if p.answer.Some? then p.answer.value else q.answer)
  {
    CreatorQuestion(p.question.GetOr(q.question), p.options.GetOr(q.options), p.answer.GetOr(q.answer))
  }

  /** An option input's change: a copy of the options with one position replaced. */
  function WithOption(options: seq<string>, i: nat, text: string): (r: seq<string>)
    requires i < |options|
    ensures |r| == |options| && r[i] == text
    ensures forall j :: 0 <= j < |options| && j != i ==> r[j] == options[j]
  {
    options[i := text]
  }

  class Creator {
    var exam: string
    var testType: string
    var sections: seq<Section>
    var startTime: string
    var endTime: string

    ghost function Lists(): set<QuestionList>
      reads this
    {
      set i | 0 <= i < |sections| :: sections[i].questions
    }

    /** No two sections share a questions array. */
    ghost predicate Valid()
      reads this
    {
      forall i, j :: 0 <= i < j < |sections| ==> sections[i].questions != sections[j].questions
    }

    /** The questions of each section, as the form shows them. */
    ghost function Contents(): seq<seq<CreatorQuestion>>
      reads this, Lists()
    {
      seq(|sections|, i requires 0 <= i < |sections| reads this, Lists() => sections[i].questions.items)
    }

    /** The first render: no sections. A prop left out takes its destructuring default
        (exam '', test type 'Full-Length'); the times start empty when not truthy. */
    constructor (defaultExam: Option<string>, defaultTestType: Option<string>, defaultStartTime: Option<string>,
                 defaultEndTime: Option<string>)
      ensures Valid() && sections == []
      ensures exam == (if defaultExam.Some? then defaultExam.value else "")
      ensures testType == (if defaultTestType.Some? then defaultTestType.value else "Full-Length")
      ensures startTime == (if Truthy(defaultStartTime) then defaultStartTime.value else "")
      ensures endTime == (if Truthy(defaultEndTime) then defaultEndTime.value else "")
    {
      exam := defaultExam.GetOr("");
      testType := defaultTestType.GetOr("Full-Length");
      sections := [];
      startTime := if Truthy(defaultStartTime) then defaultStartTime.value else "";
      endTime := if Truthy(defaultEndTime) then defaultEndTime.value else "";
    }

    /** `addSection`: one new section with an empty name, duration 0, unlocked and a new,
        empty questions array; the others stay. */
    method AddSection()
      requires Valid()
      modifies this`sections
      ensures Valid()
      ensures |sections| == |old(sections)| + 1 && sections[..|old(sections)|] == old(sections)
      ensures var s := sections[|old(sections)|];
              s.name == "" && s.duration == Finite(0.0) && !s.isLocked && fresh(s.questions) && s.questions.items == []
      ensures Contents() == old(Contents()) + [[]]
    {
      var questions := new QuestionList();
      sections := sections + [Section("", Finite(0.0), false, questions)];
    }

    /** `removeSection(index)`: the section at `index` goes, when there is one. */
    method RemoveSection(index: nat)
      requires Valid()
      modifies this`sections
      ensures Valid()
      ensures sections == Splice(old(sections), index)
      ensures Contents() == Splice(old(Contents()), index)
    {
      sections := Splice(sections, index);
    }

    /** `updateSection(index, updated)`: only the given fields of that section change,
        and it keeps its questions array. */
    method UpdateSection(index: nat, updated: SectionPatch)
      requires Valid() && index < |sections|
      modifies this`sections
      ensures Valid()
      ensures sections == old(sections)[index := PatchSection(old(sections)[index], updated)]
      ensures Contents() == old(Contents())
    {
      sections := sections[index := PatchSection(sections[index], updated)];
    }

    /** `addQuestion(sectionIndex)`: a blank question is pushed onto that section's array.
        The `sections` array is the same as before, so the previous state holds the new
        question as well; no other section changes. */
    method AddQuestion(sectionIndex: nat)
      requires Valid() && sectionIndex < |sections|
      modifies sections[sectionIndex].questions
      ensures Valid() && sections == old(sections)
      ensures old(sections)[sectionIndex].questions.items == old(sections[sectionIndex].questions.items) + [BLANK_QUESTION]
      ensures Contents() == old(Contents())[sectionIndex := old(Contents())[sectionIndex] + [BLANK_QUESTION]]
    {
      var questions := sections[sectionIndex].questions;
      questions.items := questions.items + [BLANK_QUESTION];
    }

    /** `updateQuestion(sectionIndex, questionIndex, updated)`: the fields are merged into that
        one question, in the shared array. */
    method UpdateQuestion(sectionIndex: nat, questionIndex: nat, updated: QuestionPatch)
      requires Valid() && sectionIndex < |sections| && questionIndex < |sections[sectionIndex].questions.items|
      modifies sections[sectionIndex].questions
      ensures Valid() && sections == old(sections)
      ensures var before := old(Contents())[sectionIndex];
              Contents() == old(Contents())[sectionIndex :=
                before[questionIndex := PatchQuestion(before[questionIndex], updated)]]
    {
      var questions := sections[sectionIndex].questions;
      questions.items := questions.items[questionIndex := PatchQuestion(questions.items[questionIndex], updated)];
    }

    /** An option input: exactly one option position of that question changes. */
    method EditOption(sectionIndex: nat, questionIndex: nat, optionIndex: nat, text: string)
      requires Valid() && sectionIndex < |sections| && questionIndex < |sections[sectionIndex].questions.items|
      requires optionIndex < |sections[sectionIndex].questions.items[questionIndex].options|
      modifies sections[sectionIndex].questions
      ensures Valid() && sections == old(sections)
      ensures var before := old(Contents())[sectionIndex];
              var q := before[questionIndex];
              Contents() == old(Contents())[sectionIndex :=
                before[questionIndex := q.(options := WithOption(q.options, optionIndex, text))]]
    {
      var q := sections[sectionIndex].questions.items[questionIndex];
      var updatedOptions := WithOption(q.options, optionIndex, text);
      UpdateQuestion(sectionIndex, questionIndex, QuestionPatch(None, Some(updatedOptions), None));
    }
  }
}
