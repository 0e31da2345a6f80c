/** The "Create New Test" page: test details, a list of sections and three settings.
    Adding or removing a section replaces the `sections` array with a copy, but
    changing a section field assigns into the section object itself, which the
    previous array holds too; sections are modelled as objects for that reason. */
module CreateTestPage {
  import opened Common

  const EXAMS := ["CAT", "XAT", "CMAT", "SNAP", "NMAT"]
  const TEST_TYPES := ["Full-Length", "Sectional", "Topic-wise", "Custom"]
  const EXAMS_ROUTE := "/admin/dashboard/exams"

  /** One section; the two numbers are what `Number(input)` gave, so `NaN` is possible. */
  class PageSection {
    var name: string
    var timeLimit: Num
    var numQuestions: Num
    var lock: bool

    constructor (name: string, timeLimit: Num, numQuestions: Num, lock: bool)
      ensures this.name == name && this.timeLimit == timeLimit && this.numQuestions == numQuestions
      ensures this.lock == lock
    {
      this.name, this.timeLimit, this.numQuestions, this.lock := name, timeLimit, numQuestions, lock;
    }
  }

  /** A section's fields at one moment, as the payload carries them. */
  datatype SectionValues = SectionValues(name: string, timeLimit: Num, numQuestions: Num, lock: bool)

  /** `handleSectionChange(index, key, value)`: the key and the value it gets. */
  datatype SectionChange = Name(name: string) | TimeLimit(minutes: Num) | NumQuestions(count: Num) | Lock(on: bool)

  /** The section after one change: only the named key differs. */
  function Changed(v: SectionValues, c: SectionChange): (r: SectionValues)
    ensures c.Name? ==> r == v.(name := c.name)
    ensures c.TimeLimit? ==> r == v.(timeLimit := c.minutes)
    ensures c.NumQuestions? ==> r == v.(numQuestions := c.count)
    ensures c.Lock? ==> r == v.(lock := c.on)
  {
    match c
    case Name(x) => v.(name := x)
    case TimeLimit(x) => v.(timeLimit := x)
    case NumQuestions(x) => v.(numQuestions := x)
    case Lock(x) => v.(lock := x)
  }

  datatype Settings = Settings(showSolutions: bool, shuffleQuestions: bool, shuffleOptions: bool)

  datatype TestPayload = TestPayload(testName: string, exam: string, testType: string, startDate: string,
                                     endDate: string, sections: seq<SectionValues>, settings: Settings)

  class TestPage {
    var testName: string
    var exam: string
    var testType: string
    var startDate: string
    var endDate: string
    var sections: seq<PageSection>
    var settings: Settings

    ghost function Objects(): set<PageSection>
      reads this
    {
      set i | 0 <= i < |sections| :: sections[i]
    }

    /** At least one section, and no section object listed twice. */
    ghost predicate Valid()
      reads this
    {
      |sections| >= 1 &&
      forall i, j :: 0 <= i < j < |sections| ==> sections[i] != sections[j]
    }

    function Values(): (r: seq<SectionValues>)
      reads this, Objects()
      ensures |r| == |sections|
    {
      seq(|sections|, i requires 0 <= i < |sections| reads this, Objects() =>
        SectionValues(sections[i].name, sections[i].timeLimit, sections[i].numQuestions, sections[i].lock))
    }

    /** The first render: one section with 60 minutes and 20 questions, exam CAT, a
        full-length test, solutions shown and nothing shuffled. */
    constructor ()
      ensures Valid() && fresh(Objects())
      ensures Values() == [SectionValues("", Finite(60.0), Finite(20.0), false)]
      ensures testName == "" && exam == "CAT" && testType == "Full-Length" && startDate == "" && endDate == ""
      ensures settings == Settings(true, false, false)
    {
      var first := new PageSection("", Finite(60.0), Finite(20.0), false);
      testName, exam, testType, startDate, endDate := "", "CAT", "Full-Length", "", "";
      sections := [first];
      settings := Settings(true, false, false);
    }

    /** `handleAddSection`: a new section with 30 minutes and 10 questions at the end. */
    method AddSection()
      requires Valid()
      modifies this`sections
      ensures Valid()
      ensures |sections| == |old(sections)| + 1 && sections[..|old(sections)|] == old(sections)
      ensures fresh(sections[|old(sections)|])
      ensures Values() == old(Values()) + [SectionValues("", Finite(30.0), Finite(10.0), false)]
    {
      var section := new PageSection("", Finite(30.0), Finite(10.0), false);
      sections := sections + [section];
    }

    /** `handleRemoveSection(index)`, from a section's remove button, which is only shown
        while there is more than one section. */
    method RemoveSection(index: nat)
      requires Valid() && |sections| > 1 && index < |sections|
      modifies this`sections
      ensures Valid()
      ensures sections == RemoveAt(old(sections), index)
      ensures Values() == RemoveAt(old(Values()), index)
    {
      sections := Splice(sections, index);
    }

    /** `handleSectionChange(index, key, value)`: the section object itself is assigned to,
        so the array (old or new) is the same and only that section's one key differs. */
    method ChangeSection(index: nat, change: SectionChange)
      requires Valid() && index < |sections|
      modifies sections[index]
      ensures Valid() && sections == old(sections)
      ensures Values() == old(Values())[index := Changed(old(Values())[index], change)]
    {
      var section := sections[index];
      match change
      case Name(x) => section.name := x;
      case TimeLimit(x) => section.timeLimit := x;
      case NumQuestions(x) => section.numQuestions := x;
      case Lock(x) => section.lock := x;
    }

    /** `handleSubmit`: the payload it logs (the form's fields, the sections as they are now,
        the three settings) and the route it navigates to; no request is sent. */
    method Submit() returns (payload: TestPayload, route: string)
      ensures route == EXAMS_ROUTE
      ensures payload.testName == testName && payload.exam == exam && payload.testType == testType
      ensures payload.startDate == startDate && payload.endDate == endDate && payload.settings == settings
      ensures |payload.sections| == |sections|
      ensures forall i :: 0 <= i < |sections| ==>
                payload.sections[i] ==
                SectionValues(sections[i].name, sections[i].timeLimit, sections[i].numQuestions, sections[i].lock)
    {
      payload := TestPayload(testName, exam, testType, startDate, endDate, Values(), settings);
      route := EXAMS_ROUTE;
    }
  }
}
