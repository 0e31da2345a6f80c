/** GET /api/audit-logs: the 100 newest audit entries, each with the username and email
    of the account it names, looked up in the admin or the student table according to
    its `userType`. The route checks no session. */
module AuditLogs {
  import opened Common
  import opened Http
  import opened Db

  const PAGE_SIZE: nat := 100

  /** `orderBy: { createdAt: "desc" }`: `a` goes before the first entry that is not newer
      than it, so entries with equal times keep their table order. */
  function Insert(a: Audit, sorted: seq<Audit>): (r: seq<Audit>)
    ensures multiset(r) == multiset(sorted) + multiset{a}
    ensures |r| == |sorted| + 1
    decreases |sorted|
  {
    if sorted == [] || NotAfter(sorted[0].createdAt, a.createdAt) then [a] + sorted
    else
      assert sorted == [sorted[0]] + sorted[1..];
      [sorted[0]] + Insert(a, sorted[1..])
  }

  /** The table, newest first (a stable sort). */
  function NewestFirst(audits: seq<Audit>): (r: seq<Audit>)
    ensures multiset(r) == multiset(audits)
    ensures |r| == |audits|
    decreases |audits|
  {
    if audits == [] then []
    else
      assert audits == [audits[0]] + audits[1..];
      Insert(audits[0], NewestFirst(audits[1..]))
  }

  predicate Descending(logs: seq<Audit>) {
    forall i, j :: 0 <= i < j < |logs| ==> NotAfter(logs[j].createdAt, logs[i].createdAt)
  }

  lemma NotAfterTotal(a: DateTime, b: DateTime)
    ensures NotAfter(a, b) || NotAfter(b, a)
  {
  }

  lemma NotAfterTransitive(a: DateTime, b: DateTime, c: DateTime)
    requires NotAfter(a, b) && NotAfter(b, c)
    ensures NotAfter(a, c)
  {
  }

  /** Every entry of a descending sequence, and any entry not newer than its head, is not
      newer than that head. */
  lemma InsertUnderHead(a: Audit, sorted: seq<Audit>)
    requires Descending(sorted) && sorted != [] && NotAfter(a.createdAt, sorted[0].createdAt)
    ensures forall x :: x in multiset(Insert(a, sorted[1..])) ==> NotAfter(x.createdAt, sorted[0].createdAt)
  {
    forall x | x in multiset(Insert(a, sorted[1..])) ensures NotAfter(x.createdAt, sorted[0].createdAt) {
      assert x in multiset(sorted[1..]) + multiset{a};
      if x != a {
        assert x in sorted[1..];
        var k :| 0 <= k < |sorted[1..]| && sorted[1..][k] == x;
        assert sorted[k + 1] == x;
      }
    }
  }

  /** An entry not older than every entry of a descending sequence can go in front of it. */
  lemma ConsDescending(x: Audit, rest: seq<Audit>)
    requires Descending(rest)
    requires forall k :: 0 <= k < |rest| ==> NotAfter(rest[k].createdAt, x.createdAt)
    ensures Descending([x] + rest)
  {
    var r := [x] + rest;
    forall i, j | 0 <= i < j < |r| ensures NotAfter(r[j].createdAt, r[i].createdAt) {
      assert r[j] == rest[j - 1];
      if i > 0 {
        assert r[i] == rest[i - 1];
      }
    }
  }

  lemma {:induction false} InsertDescending(a: Audit, sorted: seq<Audit>)
    requires Descending(sorted)
    ensures Descending(Insert(a, sorted))
    decreases |sorted|
  {
    if sorted == [] || NotAfter(sorted[0].createdAt, a.createdAt) {
      forall k | 0 <= k < |sorted| ensures NotAfter(sorted[k].createdAt, a.createdAt) {
        if k > 0 {
          NotAfterTransitive(sorted[k].createdAt, sorted[0].createdAt, a.createdAt);
        }
      }
      ConsDescending(a, sorted);
    } else {
      InsertDescending(a, sorted[1..]);
      var rest := Insert(a, sorted[1..]);
      NotAfterTotal(sorted[0].createdAt, a.createdAt);
      InsertUnderHead(a, sorted);
      forall k | 0 <= k < |rest| ensures NotAfter(rest[k].createdAt, sorted[0].createdAt) {
        assert rest[k] in multiset(rest);
      }
      ConsDescending(sorted[0], rest);
    }
  }

  lemma {:induction false} NewestFirstDescending(audits: seq<Audit>)
    ensures Descending(NewestFirst(audits))
    decreases |audits|
  {
    if audits != [] {
      NewestFirstDescending(audits[1..]);
      InsertDescending(audits[0], NewestFirst(audits[1..]));
    }
  }

  /** An entry with the account details of its user (`null` here is `None`). */
  datatype LogWithUser = LogWithUser(log: Audit, username: Option<string>, email: Option<string>)

  /** The lookup for one entry: only an entry with a user id and a `userType` of
      "admin" or "student" is looked up, and only in that table. */
  function WithUser(log: Audit, admins: seq<Admin>, students: seq<Student>): (r: LogWithUser)
    ensures r.log == log
    ensures r.username.Some? <==> r.email.Some?
    ensures log.userId.None? || log.userType !in {"admin", "student"} ==> r.username.None?
    ensures log.userId.Some? && log.userType == "admin" ==>
              (r.username.Some? <==> exists i :: 0 <= i < |admins| && admins[i].id == log.userId.value)
    ensures log.userId.Some? && log.userType == "student" ==>
              (r.username.Some? <==> exists i :: 0 <= i < |students| && students[i].id == log.userId.value)
  {
    if log.userId.Some? && log.userType == "admin" then
      match FindBy(admins, AdminId, log.userId.value)
      case None => LogWithUser(log, None, None)
      case Some(i) =>
        assert admins[i].id == log.userId.value;
        LogWithUser(log, Some(admins[i].username), Some(admins[i].email))
    else if log.userId.Some? && log.userType == "student" then
      match FindBy(students, StudentId, log.userId.value)
      case None => LogWithUser(log, None, None)
      case Some(i) =>
        assert students[i].id == log.userId.value;
        LogWithUser(log, Some(students[i].username), Some(students[i].email))
    else LogWithUser(log, None, None)
  }

  function Take<T>(s: seq<T>, n: nat): (r: seq<T>)
    ensures |r| == if |s| < n then |s| else n
    ensures r <= s
  {
    if |s| <= n then s else s[..n]
  }

  function AuditLogsGet(audits: seq<Audit>, admins: seq<Admin>, students: seq<Student>)
    : (res: Response<seq<LogWithUser>>)
    ensures res.status == 200 && res.body.Data? && res.cookies == []
    ensures |res.body.data| == if |audits| < PAGE_SIZE then |audits| else PAGE_SIZE
  {
    var logs := Take(NewestFirst(audits), PAGE_SIZE);
    Json(200, seq(|logs|, i requires 0 <= i < |logs| => WithUser(logs[i], admins, students)))
  }

  /** The listing is the newest entries, newest first, at most 100 and all of them when
      there are fewer; each entry keeps every field of its log and is joined to its own
      user; no entry left out is newer than one listed. */
  lemma AuditLogsAreTheNewest(audits: seq<Audit>, admins: seq<Admin>, students: seq<Student>)
    ensures var out := AuditLogsGet(audits, admins, students).body.data;
            var sorted := NewestFirst(audits);
            && (forall i :: 0 <= i < |out| ==> out[i] == WithUser(sorted[i], admins, students))
            && (forall i, j :: 0 <= i < j < |out| ==> NotAfter(out[j].log.createdAt, out[i].log.createdAt))
            && (forall i, j :: 0 <= i < |out| <= j < |sorted| ==> NotAfter(sorted[j].createdAt, out[i].log.createdAt))
            && multiset(sorted) == multiset(audits)
            && (|audits| <= PAGE_SIZE ==> multiset(seq(|out|, i requires 0 <= i < |out| => out[i].log)) == multiset(audits))
  {
    var sorted := NewestFirst(audits);
    NewestFirstDescending(audits);
    var out := AuditLogsGet(audits, admins, students).body.data;
    if |audits| <= PAGE_SIZE {
      assert seq(|out|, i requires 0 <= i < |out| => out[i].log) == sorted;
    }
  }
}
