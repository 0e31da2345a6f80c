/** The dashboard's test builder: exam, test type, dates and a list of sections whose
    counts are kept as the strings the number inputs give. As on the create-test page,
    a field change assigns into the section object that the previous array also holds. */
module DashboardBuilder {
  import opened Common

  const EXAM_NAMES := ["CAT", "XAT", "NMAT", "CMAT", "SNAP"]
  const TEST_TYPES := ["Full Length", "Sectional", "Topic-wise", "Custom"]

  class BuilderSection {
    var name: string
    var numQuestions: string
    var timeMinutes: string
    var isLocked: bool

    /** The section every add makes: empty fields, unlocked. */
    constructor ()
      ensures name == "" && numQuestions == "" && timeMinutes == "" && !isLocked
    {
      name, numQuestions, timeMinutes, isLocked := "", "", "", false;
    }
  }

  datatype SectionValues = SectionValues(name: string, numQuestions: string, timeMinutes: string, isLocked: bool)

  const EMPTY_SECTION := SectionValues("", "", "", false)

  /** `handleSectionChange(index, field, value)`: the field and its new value. */
  datatype SectionChange = Name(name: string) | NumQuestions(count: string) | TimeMinutes(minutes: string)
                         | IsLocked(on: bool)

  function Changed(v: SectionValues, c: SectionChange): (r: SectionValues)
    ensures c.Name? ==> r == v.(name := c.name)
    ensures c.NumQuestions? ==> r == v.(numQuestions := c.count)
    ensures c.TimeMinutes? ==> r == v.(timeMinutes := c.minutes)
    ensures c.IsLocked? ==> r == v.(isLocked := c.on)
  {
    match c
    case Name(x) => v.(name := x)
    case NumQuestions(x) => v.(numQuestions := x)
    case TimeMinutes(x) => v.(timeMinutes := x)
    case IsLocked(x) => v.(isLocked := x)
  }

  /** The lock button: `handleSectionChange(index, 'isLocked', !section.isLocked)`. */
  function Toggled(v: SectionValues): (r: SectionValues)
    ensures r.isLocked != v.isLocked && r == v.(isLocked := r.isLocked)
  {
    Changed(v, IsLocked(!v.isLocked))
  }

  /** Two clicks on the lock button put the section back as it was. */
  lemma ToggleTwiceRestores(v: SectionValues)
    ensures Toggled(Toggled(v)) == v
  {
  }

  datatype BuilderPayload = BuilderPayload(examName: string, testType: string, startDate: string, endDate: string,
                                           sections: seq<SectionValues>)

  class Builder {
    var examName: string
    var testType: string
    var startDate: string
    var endDate: string
    var sections: seq<BuilderSection>

    ghost function Objects(): set<BuilderSection>
      reads this
    {
      set i | 0 <= i < |sections| :: sections[i]
    }

    /** At least one section, and no section object listed twice. */
    ghost predicate Valid()
      reads this
    {
      |sections| >= 1 &&
      forall i, j :: 0 <= i < j < |sections| ==> sections[i] != sections[j]
    }

    function Values(): (r: seq<SectionValues>)
      reads this, Objects()
      ensures |r| == |sections|
    {
      seq(|sections|, i requires 0 <= i < |sections| reads this, Objects() =>
        SectionValues(sections[i].name, sections[i].numQuestions, sections[i].timeMinutes, sections[i].isLocked))
    }

    /** The first render: exam CAT, a full-length test and one empty section. */
    constructor ()
      ensures Valid() && fresh(Objects())
      ensures Values() == [EMPTY_SECTION]
      ensures examName == "CAT" && testType == "Full Length" && startDate == "" && endDate == ""
    {
      var first := new BuilderSection();
      examName, testType, startDate, endDate := "CAT", "Full Length", "", "";
      sections := [first];
    }

    /** `handleAddSection`: one more empty section at the end. */
    method AddSection()
      requires Valid()
      modifies this`sections
      ensures Valid()
      ensures |sections| == |old(sections)| + 1 && sections[..|old(sections)|] == old(sections)
      ensures fresh(sections[|old(sections)|])
      ensures Values() == old(Values()) + [EMPTY_SECTION]
    {
      var section := new BuilderSection();
      sections := sections + [section];
    }

    /** `handleRemoveSection(index)`, from a remove button, which is only shown while there
        is more than one section. */
    method RemoveSection(index: nat)
      requires Valid() && |sections| > 1 && index < |sections|
      modifies this`sections
      ensures Valid()
      ensures sections == RemoveAt(old(sections), index)
      ensures Values() == RemoveAt(old(Values()), index)
    {
      sections := Splice(sections, index);
    }

    /** `handleSectionChange(index, field, value)`, in place. */
    method ChangeSection(index: nat, change: SectionChange)
      requires Valid() && index < |sections|
      modifies sections[index]
      ensures Valid() && sections == old(sections)
      ensures Values() == old(Values())[index := Changed(old(Values())[index], change)]
    {
      var section := sections[index];
      match change
      case Name(x) => section.name := x;
      case NumQuestions(x) => section.numQuestions := x;
      case TimeMinutes(x) => section.timeMinutes := x;
      case IsLocked(x) => section.isLocked := x;
    }

    /** The lock button of section `index`. */
    method ToggleLock(index: nat)
      requires Valid() && index < |sections|
      modifies sections[index]
      ensures Valid() && sections == old(sections)
      ensures Values() == old(Values())[index := Toggled(old(Values())[index])]
    {
      ChangeSection(index, IsLocked(!sections[index].isLocked));
    }

    /** `handleSubmit`: the payload it logs; nothing is sent. */
    method Submit() returns (payload: BuilderPayload)
      ensures payload.examName == examName && payload.testType == testType
      ensures payload.startDate == startDate && payload.endDate == endDate
      ensures |payload.sections| == |sections|
      ensures forall i :: 0 <= i < |sections| ==>
                payload.sections[i] ==
                SectionValues(sections[i].name, sections[i].numQuestions, sections[i].timeMinutes, sections[i].isLocked)
    {
      payload := BuilderPayload(examName, testType, startDate, endDate, Values());
    }
  }
}
