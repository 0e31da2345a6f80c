/** /api/question-banks. POST creates a bank from the JSON body; GET lists the banks,
    with their question links, filtered by subject when one is given. Both run the
    staff gate first. */
module QuestionBanks {
  import opened Common
  import opened Http
  import opened Auth
  import opened Db

  /** The JSON body's fields; the optional ones are `None` when absent. */
  datatype BankRequest = BankRequest(name: string, subject: string, category: string,
                                     subcategory: Option<string>, description: Option<string>,
                                     color: Option<string>)

  datatype CreatedBank = CreatedBank(message: string, bank: Bank)

  /** The row `questionBank.create` writes. */
  function NewBankRow(id: Id, req: BankRequest): Bank {
    Bank(id, req.name, req.subject, req.category, req.subcategory, req.description, req.color)
  }

  /** The POST on the bank table and counter. `body` is `None` when it is not JSON. */
  function BankPost(banks: seq<Bank>, nextId: nat, gate: Admission, body: Option<BankRequest>, refuses: Refuses)
    : (seq<Bank>, nat, Response<CreatedBank>)
  {
    if gate.Refused? then (banks, nextId, Refusal(gate))
    else if body.None? || refuses(NewBank(NewBankRow(nextId, body.value))) then
      (banks, nextId, Fail(500, INTERNAL_ERROR))
    else
      var bank := NewBankRow(nextId, body.value);
      (banks + [bank], nextId + 1, Json(201, CreatedBank("Question bank created", bank)))
  }

  method CreateBank(db: Database, token: Option<string>, decode: Decoder, body: Option<BankRequest>,
                    refuses: Refuses)
    returns (res: Response<CreatedBank>)
    modifies db`banks, db`nextId
    ensures (db.banks, db.nextId, res) ==
            BankPost(old(db.banks), old(db.nextId), Gate(token, decode, STAFF_ROLES), body, refuses)
  {
    var gate := Gate(token, decode, STAFF_ROLES);
    if gate.Refused? {
      return Refusal(gate);
    }
    if body.None? || refuses(NewBank(NewBankRow(db.nextId, body.value))) {
      return Fail(500, INTERNAL_ERROR);
    }
    var req := body.value;
    var id := db.NewId();
    var bank := Bank(id, req.name, req.subject, req.category, req.subcategory, req.description, req.color);
    db.banks := db.banks + [bank];
    res := Json(201, CreatedBank("Question bank created", bank));
  }

  /** A bank in the listing, with its question links (`include: { questions: true }`). */
  datatype ListedBank = ListedBank(bank: Bank, questions: seq<BankQuestion>)

  /** The GET filter: a truthy `subject` must match. */
  predicate Shown(b: Bank, subject: Option<string>) {
    !Truthy(subject) || b.subject == subject.value
  }

  /** The banks the GET lists for a `subject` parameter, in table order. */
  function ShownBanks(banks: seq<Bank>, subject: Option<string>): seq<Bank> {
    Filter(banks, (b: Bank) => Shown(b, subject))
  }

  function BankLinks(links: seq<BankQuestion>, id: Id): (r: seq<BankQuestion>)
    ensures forall i :: 0 <= i < |r| ==> r[i].questionBankId == id && r[i] in links
    ensures forall i :: 0 <= i < |links| && links[i].questionBankId == id ==> links[i] in r
  {
    Filter(links, (l: BankQuestion) => l.questionBankId == id)
  }

  function ListedBanks(listed: seq<ListedBank>): seq<Bank> {
    seq(|listed|, i requires 0 <= i < |listed| => listed[i].bank)
  }

  /** `subject` filters an enum column: a value outside the enumeration makes `findMany`
      throw, which the catch answers with 500. */
  method ListBanks(db: Database, token: Option<string>, decode: Decoder, enums: Enums, subject: Option<string>)
    returns (res: Response<seq<ListedBank>>)
    ensures Gate(token, decode, STAFF_ROLES).Refused? ==> res == Refusal(Gate(token, decode, STAFF_ROLES))
    ensures Gate(token, decode, STAFF_ROLES).Admitted? && !EnumFilterOk(subject, enums.subjects) ==>
              res == Fail(500, INTERNAL_ERROR)
    ensures Gate(token, decode, STAFF_ROLES).Admitted? && EnumFilterOk(subject, enums.subjects) ==>
              && res.status == 200 && res.body.Data? && res.cookies == []
              && ListedBanks(res.body.data) == Filter(db.banks, (b: Bank) => Shown(b, subject))
              && forall i :: 0 <= i < |res.body.data| ==>
                   res.body.data[i].questions == BankLinks(db.bankQuestions, res.body.data[i].bank.id)
  {
    var gate := Gate(token, decode, STAFF_ROLES);
    if gate.Refused? {
      return Refusal(gate);
    }
    if Truthy(subject) && subject.value !in enums.subjects {
      return Fail(500, INTERNAL_ERROR);
    }
    var banks := Filter(db.banks, (b: Bank) => Shown(b, subject));
    var links := db.bankQuestions;
    var listed := seq(|banks|, i requires 0 <= i < |banks| => ListedBank(banks[i], BankLinks(links, banks[i].id)));
    assert ListedBanks(listed) == banks;
    res := Json(200, listed);
  }

  /** A bank the POST creates is listed by the GET with no subject or with its own, and every
      bank listed before is still listed. The list equation fixes the new bank last, which
      holds for the model's table order; the membership clauses hold whatever order the
      store returns. */
  lemma CreatedBankIsListed(banks: seq<Bank>, nextId: nat, token: Option<string>, decode: Decoder,
                            body: Option<BankRequest>, refuses: Refuses, subject: Option<string>)
    requires BankPost(banks, nextId, Gate(token, decode, STAFF_ROLES), body, refuses).2.status == 201
    requires !Truthy(subject) || subject.value == body.value.subject
    ensures var (banks', _, res) := BankPost(banks, nextId, Gate(token, decode, STAFF_ROLES), body, refuses);
            && res.body.Data?
            && res.body.data.bank in ShownBanks(banks', subject)
            && (forall b :: b in ShownBanks(banks, subject) ==> b in ShownBanks(banks', subject))
            && ShownBanks(banks', subject) == ShownBanks(banks, subject) + [res.body.data.bank]
  {
    var bank := NewBankRow(nextId, body.value);
    FilterAppend(banks, [bank], (b: Bank) => Shown(b, subject));
    assert Filter([bank], (b: Bank) => Shown(b, subject)) == [bank];
  }

  /** A POST that does not answer 201 leaves the table and the counter as they were; one that
      does adds exactly the requested bank under the next id. */
  lemma BankPostAddsOneBank(banks: seq<Bank>, nextId: nat, token: Option<string>, decode: Decoder,
                            body: Option<BankRequest>, refuses: Refuses)
    ensures var (banks', nextId', res) := BankPost(banks, nextId, Gate(token, decode, STAFF_ROLES), body, refuses);
            && (res.status == 201 <==> Gate(token, decode, STAFF_ROLES).Admitted? && body.Some? &&
                                       !refuses(NewBank(NewBankRow(nextId, body.value))))
            && (res.status != 201 ==> banks' == banks && nextId' == nextId)
            && (res.status == 201 ==>
                  && banks' == banks + [res.body.data.bank] && nextId' == nextId + 1
                  && res.body.data == CreatedBank("Question bank created", res.body.data.bank)
                  && var b := res.body.data.bank;
                     b.id == nextId && b.name == body.value.name && b.subject == body.value.subject &&
                     b.category == body.value.category && b.subcategory == body.value.subcategory &&
                     b.description == body.value.description && b.color == body.value.color)
  {
  }
}
