/** POST /api/questions/bulk: create many questions in one transaction, each attributed
    to the signed-in staff member and with its options defaulting to none. Either every
    question is written or, when one create throws (the store refuses the row, or the
    token's id names no admin), none is. */
module BulkQuestions {
  import opened Common
  import opened Http
  import opened Auth
  import opened Db

  /** The JSON body: `questions` is `None` when the field is missing. */
  datatype BulkRequest = BulkRequest(questions: Option<seq<QuestionData>>)

  datatype BulkReply = BulkReply(message: string, count: nat)

  /** `{ ...q, options: q.options ?? [] }`; the attribution is set on the row. */
  function Prepared(d: QuestionData): (r: QuestionData)
    ensures r.options.Some?
    ensures r.options.value == if d.options.Some? then d.options.value else []
    ensures r == d.(options := r.options)
  {
    d.(options := Some(d.options.GetOr([])))
  }

  /** The rows the transaction writes, with the ids the store hands out in order. */
  function BulkRows(items: seq<QuestionData>, nextId: nat, author: Id, stats: QuestionStats): (r: seq<Question>)
    ensures |r| == |items|
    ensures forall k :: 0 <= k < |items| ==> r[k] == Question(nextId + k, Prepared(items[k]), author, stats)
  {
    seq(|items|, k requires 0 <= k < |items| => Question(nextId + k, Prepared(items[k]), author, stats))
  }

  /** Whether the store refuses one of the creates, which rolls the transaction back. */
  predicate AnyRefused(items: seq<QuestionData>, refuses: Refuses) {
    exists k :: 0 <= k < |items| && refuses(NewQuestion(Prepared(items[k])))
  }

  /** Whether some create of the transaction throws: the store refuses its row, or its
      `createdById` names no admin. An empty array runs no create at all. */
  predicate AnyFails(admins: seq<Admin>, author: Id, items: seq<QuestionData>, refuses: Refuses) {
    (|items| > 0 && !HasAdmin(admins, author)) || AnyRefused(items, refuses)
  }

  /** The POST on the question table and counter, against the admin table the creator
      must be in. `body` is `None` when it is not JSON. */
  function BulkPost(questions: seq<Question>, nextId: nat, admins: seq<Admin>, gate: Admission,
                    body: Option<BulkRequest>, refuses: Refuses, stats: QuestionStats)
    : (seq<Question>, nat, Response<BulkReply>)
  {
    if gate.Refused? then (questions, nextId, Refusal(gate))
    else if body.None? || body.value.questions.None? ||
            AnyFails(admins, gate.claims.id, body.value.questions.value, refuses) then
      (questions, nextId, Fail(500, INTERNAL_ERROR))
    else
      var items := body.value.questions.value;
      (questions + BulkRows(items, nextId, gate.claims.id, stats), nextId + |items|,
       Json(201, BulkReply("Bulk questions created", |items|)))
  }

  method CreateQuestions(db: Database, token: Option<string>, decode: Decoder, body: Option<BulkRequest>,
                         refuses: Refuses)
    returns (res: Response<BulkReply>)
    modifies db`questions, db`nextId
    ensures (db.questions, db.nextId, res) ==
            BulkPost(old(db.questions), old(db.nextId), db.admins, Gate(token, decode, STAFF_ROLES), body,
                     refuses, db.defaultStats)
  {
    var gate := Gate(token, decode, STAFF_ROLES);
    if gate.Refused? {
      return Refusal(gate);
    }
    if body.None? || body.value.questions.None? {
      return Fail(500, INTERNAL_ERROR);
    }
    var items := body.value.questions.value;
    var author := FindBy(db.admins, AdminId, gate.claims.id);
    if |items| > 0 && author.None? {
      return Fail(500, INTERNAL_ERROR);
    }
    if exists k :: 0 <= k < |items| && refuses(NewQuestion(Prepared(items[k]))) {
      return Fail(500, INTERNAL_ERROR);
    }
    var created := BulkRows(items, db.nextId, gate.claims.id, db.defaultStats);
    db.questions := db.questions + created;
    db.nextId := db.nextId + |items|;
    res := Json(201, BulkReply("Bulk questions created", |created|));
  }

  /** All or nothing: the answer is 201 exactly when the staff gate admits, the body has a
      `questions` array, the token's id names an admin (unless the array is empty) and the
      store accepts every one of them; then the table gains one
      row per item, in order, each with the item's fields, options defaulted, the caller as
      author and fresh ids, and the count is the number of items. Otherwise nothing is
      written. */
  lemma BulkIsAllOrNothing(questions: seq<Question>, nextId: nat, admins: seq<Admin>, token: Option<string>,
                           decode: Decoder, body: Option<BulkRequest>, refuses: Refuses, stats: QuestionStats)
    ensures var gate := Gate(token, decode, STAFF_ROLES);
            var (questions', nextId', res) := BulkPost(questions, nextId, admins, gate, body, refuses, stats);
            && (res.status == 201 <==>
                  gate.Admitted? && body.Some? && body.value.questions.Some? &&
                  (|body.value.questions.value| > 0 ==> HasAdmin(admins, gate.claims.id)) &&
                  forall k :: 0 <= k < |body.value.questions.value| ==>
                    !refuses(NewQuestion(Prepared(body.value.questions.value[k]))))
            && (res.status != 201 ==> questions' == questions && nextId' == nextId)
            && (res.status == 201 ==>
                  var items := body.value.questions.value;
                  && res == Json(201, BulkReply("Bulk questions created", |items|))
                  && |questions'| == |questions| + |items| && questions'[..|questions|] == questions
                  && nextId' == nextId + |items|
                  && forall k :: 0 <= k < |items| ==>
                       var q := questions'[|questions| + k];
                       q.id == nextId + k && q.createdById == gate.claims.id &&
                       q.data == Prepared(items[k]) && q.stats == stats)
  {
    var gate := Gate(token, decode, STAFF_ROLES);
    var (questions', nextId', res) := BulkPost(questions, nextId, admins, gate, body, refuses, stats);
    if res.status == 201 {
      var items := body.value.questions.value;
      var rows := BulkRows(items, nextId, gate.claims.id, stats);
      assert questions' == questions + rows;
      assert questions'[..|questions|] == questions;
      forall k | 0 <= k < |items| ensures questions'[|questions| + k] == rows[k] {
      }
    }
  }

  /** A table whose ids are all below the counter keeps ids unique and below the counter
      after any bulk POST. */
  lemma BulkKeepsIdsFresh(questions: seq<Question>, nextId: nat, admins: seq<Admin>, gate: Admission,
                          body: Option<BulkRequest>, refuses: Refuses, stats: QuestionStats)
    requires forall i :: 0 <= i < |questions| ==> questions[i].id < nextId
    requires forall i, j :: 0 <= i < j < |questions| ==> questions[i].id != questions[j].id
    ensures var (questions', nextId', _) := BulkPost(questions, nextId, admins, gate, body, refuses, stats);
            && (forall i :: 0 <= i < |questions'| ==> questions'[i].id < nextId')
            && (forall i, j :: 0 <= i < j < |questions'| ==> questions'[i].id != questions'[j].id)
  {
    var (questions', nextId', _) := BulkPost(questions, nextId, admins, gate, body, refuses, stats);
    if questions' != questions {
      var items := body.value.questions.value;
      var rows := BulkRows(items, nextId, gate.claims.id, stats);
      assert questions' == questions + rows;
      forall i | 0 <= i < |questions'| ensures questions'[i].id < nextId' {
        if i >= |questions| {
          assert questions'[i] == rows[i - |questions|];
        }
      }
      forall i, j | 0 <= i < j < |questions'| ensures questions'[i].id != questions'[j].id {
        if j >= |questions| {
          assert questions'[j] == rows[j - |questions|];
          if i >= |questions| {
            assert questions'[i] == rows[i - |questions|];
          }
        }
      }
    }
  }

  /** Defaulting the options twice is defaulting them once. */
  lemma PreparedIdempotent(d: QuestionData)
    ensures Prepared(Prepared(d)) == Prepared(d)
  {
  }
}
