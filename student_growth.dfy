/** GET /api/student-growth: for the current month and the six before it, the month's
    `MM` label and the number of students whose account was created in it. The route
    checks no session. */
module StudentGrowth {
  import opened Common
  import opened Http
  import opened Db

  const MONTHS: nat := 7

  /** A month as a count of months since January of year 0. */
  function MonthIndex(year: nat, month: nat): int {
    year * 12 + month - 1
  }

  /** The year and month `back` months before `now`: `d.setMonth(d.getMonth() - back)`
      read back through `getFullYear` and `getMonth`. */
  function MonthsBack(now: DateTime, back: nat): (r: (nat, nat))
    requires 1 <= now.month <= 12 && now.year >= 1 && back < MONTHS
    ensures 1 <= r.1 <= 12
    ensures MonthIndex(r.0, r.1) == MonthIndex(now.year, now.month) - back
  {
    var total := now.year * 12 + now.month - 1 - back;
    (total / 12, total % 12 + 1)
  }

  /** `${year}-${String(month).padStart(2, '0')}` */
  function MonthKey(year: nat, month: nat): string {
    NatToString(year) + "-" + PadStart(NatToString(month), 2, '0')
  }

  /** Key `i`: the month `6 - i` months back. */
  function KeyAt(now: DateTime, i: nat): string
    requires 1 <= now.month <= 12 && now.year >= 1 && i < MONTHS
  {
    var ym := MonthsBack(now, MONTHS - 1 - i);
    MonthKey(ym.0, ym.1)
  }

  /** The seven keys, oldest first. */
  function Keys(now: DateTime): (r: seq<string>)
    requires 1 <= now.month <= 12 && now.year >= 1
    ensures |r| == MONTHS
    ensures forall i :: 0 <= i < MONTHS ==> r[i] == KeyAt(now, i)
  {
    seq(MONTHS, i requires 0 <= i < MONTHS => KeyAt(now, i))
  }

  /** `createdAt.toISOString().slice(0, 7)`: the year in four digits, then the month. */
  function IsoMonth(d: DateTime): string {
    PadStart(NatToString(d.year), 4, '0') + "-" + PadStart(NatToString(d.month), 2, '0')
  }

  /** `s.slice(n)` */
  function Drop(s: string, n: nat): string {
    if |s| <= n then [] else s[n..]
  }

  datatype GrowthPoint = GrowthPoint(date: string, students: nat)

  function CreatedIn(students: seq<Student>, key: string): (r: seq<Student>)
    ensures forall i :: 0 <= i < |r| ==> r[i] in students && IsoMonth(r[i].createdAt) == key
    ensures forall i :: 0 <= i < |students| && IsoMonth(students[i].createdAt) == key ==> students[i] in r
  {
    Filter(students, (s: Student) => IsoMonth(s.createdAt) == key)
  }

  /** `now` is `new Date()`. */
  function GrowthGet(students: seq<Student>, now: DateTime): (res: Response<seq<GrowthPoint>>)
    requires 1 <= now.month <= 12 && now.year >= 1
    ensures res.status == 200 && res.body.Data? && res.cookies == []
    ensures |res.body.data| == MONTHS
    ensures forall i :: 0 <= i < MONTHS ==>
              res.body.data[i] == GrowthPoint(Drop(Keys(now)[i], 5), |CreatedIn(students, Keys(now)[i])|)
  {
    var months := Keys(now);
    Json(200, seq(|months|, i requires 0 <= i < |months| =>
      GrowthPoint(Drop(months[i], 5), |CreatedIn(students, months[i])|)))
  }

  /** A month index names one year and month. */
  lemma MonthIndexInjective(y1: nat, m1: nat, y2: nat, m2: nat)
    requires 1 <= m1 <= 12 && 1 <= m2 <= 12 && MonthIndex(y1, m1) == MonthIndex(y2, m2)
    ensures y1 == y2 && m1 == m2
  {
  }

  /** The last key is the current month, and each key is the month after the one before. */
  lemma KeysAreConsecutiveMonths(now: DateTime, i: nat)
    requires 1 <= now.month <= 12 && now.year >= 1 && i < MONTHS
    ensures MonthsBack(now, 0) == (now.year, now.month)
    ensures Keys(now)[MONTHS - 1] == MonthKey(now.year, now.month)
    ensures i + 1 < MONTHS ==>
              var (y, m) := MonthsBack(now, MONTHS - 1 - i);
              MonthsBack(now, MONTHS - 2 - i) == if m < 12 then (y, m + 1) else (y + 1, 1)
  {
    var now0 := MonthsBack(now, 0);
    MonthIndexInjective(now0.0, now0.1, now.year, now.month);
    if i + 1 < MONTHS {
      var (y, m) := MonthsBack(now, MONTHS - 1 - i);
      var next := MonthsBack(now, MONTHS - 2 - i);
      if m < 12 {
        MonthIndexInjective(next.0, next.1, y, m + 1);
      } else {
        MonthIndexInjective(next.0, next.1, y + 1, 1);
      }
    }
  }

  /** Zeros in front of a digit string do not change its value. */
  lemma {:induction false} LeadingZeros(k: nat, s: string)
    requires forall i :: 0 <= i < |s| ==> IsDigit(s[i])
    ensures forall i :: 0 <= i < |Repeat('0', k) + s| ==> IsDigit((Repeat('0', k) + s)[i])
    ensures DigitsValue(Repeat('0', k) + s) == DigitsValue(s)
    decreases k + |s|
  {
    var z := Repeat('0', k);
    if s == [] {
      assert z + s == z;
      if k > 0 {
        assert z[..k - 1] == Repeat('0', k - 1);
        LeadingZeros(k - 1, []);
        assert Repeat('0', k - 1) + [] == Repeat('0', k - 1);
      }
    } else {
      var init := s[..|s| - 1];
      LeadingZeros(k, init);
      assert (z + s)[..|z + s| - 1] == z + init;
    }
  }

  /** Padding a decimal string keeps its value, so the padded strings of two numbers are
      equal only when the numbers are. */
  lemma PaddedDigitsValue(n: nat, width: nat)
    ensures forall i :: 0 <= i < |PadStart(NatToString(n), width, '0')| ==> IsDigit(PadStart(NatToString(n), width, '0')[i])
    ensures DigitsValue(PadStart(NatToString(n), width, '0')) == n
  {
    var s := NatToString(n);
    NatToStringRoundTrip(n);
    if |s| < width {
      LeadingZeros(width - |s|, s);
    }
  }

  /** Numbers below 10000 have at most four digits. */
  lemma DigitCount(n: nat)
    ensures n < 10 ==> |NatToString(n)| == 1
    ensures 10 <= n < 100 ==> |NatToString(n)| == 2
    ensures 100 <= n < 1000 ==> |NatToString(n)| == 3
    ensures 1000 <= n < 10000 ==> |NatToString(n)| == 4
  {
    if n >= 10 {
      DigitCount(n / 10);
    }
  }

  /** For four-digit years a key is `YYYY-MM`, its `date` label is the two-digit month,
      and a student is counted under it exactly when the account was created in that
      year and month. */
  lemma KeyMeansMonth(y: nat, m: nat, d: DateTime)
    requires 1000 <= y <= 9999 && 1 <= m <= 12
    requires d.year <= 9999 && 1 <= d.month <= 12
    ensures |MonthKey(y, m)| == 7
    ensures Drop(MonthKey(y, m), 5) == PadStart(NatToString(m), 2, '0')
    ensures IsoMonth(d) == MonthKey(y, m) <==> d.year == y && d.month == m
  {
    DigitCount(y);
    DigitCount(m);
    DigitCount(d.month);
    DigitCount(d.year);
    var key := MonthKey(y, m);
    var ys := NatToString(y);
    var ms := PadStart(NatToString(m), 2, '0');
    assert key[5..] == ms;
    if IsoMonth(d) == key {
      var dy := PadStart(NatToString(d.year), 4, '0');
      var dm := PadStart(NatToString(d.month), 2, '0');
      assert IsoMonth(d)[..4] == dy && key[..4] == ys && IsoMonth(d)[5..] == dm;
      PaddedDigitsValue(d.year, 4);
      PaddedDigitsValue(y, 4);
      PaddedDigitsValue(d.month, 2);
      PaddedDigitsValue(m, 2);
    }
  }
}
