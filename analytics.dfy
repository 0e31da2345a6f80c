/** GET /api/questions/analytics: the usage statistics of one question, for staff. */
module QuestionAnalytics {
  import opened Common
  import opened Http
  import opened Auth
  import opened Db

  const ID_REQUIRED := "Question ID required"
  const NOT_FOUND := "Question not found"

  /** `questionId` is the query parameter when it is truthy. */
  function QuestionStatsGet(questions: seq<Question>, token: Option<string>, decode: Decoder,
                            questionId: Option<Id>)
    : (r: Response<QuestionStats>)
    ensures var gate := Gate(token, decode, STAFF_ROLES);
            gate.Refused? ==> r == Refusal(gate)
    ensures var gate := Gate(token, decode, STAFF_ROLES);
            gate.Admitted? && questionId.None? ==> r == Fail(400, ID_REQUIRED)
    ensures var gate := Gate(token, decode, STAFF_ROLES);
            gate.Admitted? && questionId.Some? ==>
              (r == Fail(404, NOT_FOUND) <==> forall i :: 0 <= i < |questions| ==> questions[i].id != questionId.value)
    ensures r.status == 200 ==>
              Gate(token, decode, STAFF_ROLES).Admitted? && questionId.Some? && r.body.Data? && r.cookies == [] &&
              exists i :: 0 <= i < |questions| && questions[i].id == questionId.value && questions[i].stats == r.body.data
  {
    var gate := Gate(token, decode, STAFF_ROLES);
    if gate.Refused? then Refusal(gate)
    else if questionId.None? then Fail(400, ID_REQUIRED)
    else match FindBy(questions, QuestionId, questionId.value)
      case None => Fail(404, NOT_FOUND)
      case Some(i) =>
        assert questions[i].id == questionId.value;
        Json(200, questions[i].stats)
  }

  /** With ids unique, a 200 carries the statistics of the one question with that id, and
      every id in the table gets one. */
  lemma StatsOfTheQuestion(questions: seq<Question>, token: Option<string>, decode: Decoder, i: nat)
    requires forall a, b :: 0 <= a < b < |questions| ==> questions[a].id != questions[b].id
    requires i < |questions| && Gate(token, decode, STAFF_ROLES).Admitted?
    ensures QuestionStatsGet(questions, token, decode, Some(questions[i].id)) == Json(200, questions[i].stats)
  {
    assert QuestionId(questions[i]) == questions[i].id;
  }
}
