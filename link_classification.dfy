/**
 * Link strength between two numbers (`utils/link-classification.ts`): the
 * call records exchanged by the pair are gathered from the raw rows, summed
 * into frequency, duration and day metrics, combined into a score and
 * classified as a primary, secondary or weak link.
 */
module LinkClassification {
  import opened Common
  import opened Text
  import opened Rows
  import opened FieldLookup
  import opened Sorting
  import NetworkData

  const CallerFields: seq<string> := ["caller_num", "caller", "calling_number", "from_number", "a_number"]
  const CalleeFields: seq<string> := ["callee_num", "callee", "called_number", "to_number", "b_number"]
  const DateFields: seq<string> := ["date", "call_date", "timestamp", "datetime"]
  const DurationFields: seq<string> := ["duration", "call_duration", "dur", "length"]

  datatype CallKind = Call | Sms

  /** A call record; its timestamp repeats its date. */
  datatype CallRecord = CallRecord(date: string, duration: int, kind: CallKind, timestamp: string)

  /** The record a row contributes to the pair `{a, b}`, if its raw caller and callee are exactly that pair
      (lines 165-189); `now` is the ISO timestamp used when the row has no date. */
  function RecordBetween(a: string, b: string, row: Row, now: string): (r: Option<CallRecord>)
    ensures r.Some? ==> (r.value.kind == Call <==> r.value.duration > 0)
    ensures r.Some? ==> r.value.timestamp == r.value.date
  {
    var caller := FieldValue(SpaceNonAlnum, row, CallerFields);
    var callee := FieldValue(SpaceNonAlnum, row, CalleeFields);
    if caller.None? || callee.None? then None
    else if !((caller.value == a && callee.value == b) || (caller.value == b && callee.value == a)) then None
    else
      var date := FieldValue(SpaceNonAlnum, row, DateFields).GetOr(now);
      var duration := ParseIntOrZero(FieldValue(SpaceNonAlnum, row, DurationFields).GetOr("0"));
      Some(CallRecord(date, duration, if duration > 0 then Call else Sms, date))
  }

  /** The records of the pair among `rows`, in row order. */
  function CallsBetween(a: string, b: string, rows: seq<Row>, now: string): (r: seq<CallRecord>)
    ensures |r| <= |rows|
    decreases |rows|
  {
    if rows == [] then []
    else
      var prefix := CallsBetween(a, b, rows[..|rows| - 1], now);
      match RecordBetween(a, b, rows[|rows| - 1], now)
      case None => prefix
      case Some(c) => prefix + [c]
  }

  /** `findCallsBetweenNodes`: the `forEach` that pushes every record of the pair. */
  method FindCallsBetweenNodes(a: string, b: string, callData: seq<Row>, now: string) returns (calls: seq<CallRecord>)
    ensures calls == CallsBetween(a, b, callData, now)
  {
    calls := [];
    var i := 0;
    while i < |callData|
      invariant 0 <= i <= |callData|
      invariant calls == CallsBetween(a, b, callData[..i], now)
    {
      assert callData[..i + 1][..i] == callData[..i];
      var record := callData[i];
      var caller := FieldValue(SpaceNonAlnum, record, CallerFields);
      var callee := FieldValue(SpaceNonAlnum, record, CalleeFields);
      if caller.Some? && callee.Some? {
        if (caller.value == a && callee.value == b) || (caller.value == b && callee.value == a) {
          var date := FieldValue(SpaceNonAlnum, record, DateFields).GetOr(now);
          var durationStr := FieldValue(SpaceNonAlnum, record, DurationFields).GetOr("0");
          var duration := ParseIntOrZero(durationStr);
          calls := calls + [CallRecord(date, duration, if duration > 0 then Call else Sms, date)];
        }
      }
      i := i + 1;
    }
    assert callData[..|callData|] == callData;
  }

  /** The pair is unordered: which end is the source does not matter. */
  lemma {:induction false} CallsBetweenSymmetric(a: string, b: string, rows: seq<Row>, now: string)
    ensures CallsBetween(a, b, rows, now) == CallsBetween(b, a, rows, now)
    decreases |rows|
  {
    if rows != [] {
      CallsBetweenSymmetric(a, b, rows[..|rows| - 1], now);
      assert RecordBetween(a, b, rows[|rows| - 1], now) == RecordBetween(b, a, rows[|rows| - 1], now);
    }
  }

  // ----- Link strength -----

  datatype LinkClass = Primary | Secondary | Weak

  datatype LinkStrength = LinkStrength(callFrequency: nat, totalDuration: int, averageDuration: real,
                                       uniqueDays: nat, timeSpread: Option<int>, strengthScore: int,
                                       classification: LinkClass)

  /** `date.split('T')[0]`: the calendar day of an ISO timestamp. */
  function DayOf(date: string): string {
    Split(date, 'T')[0]
  }

  function Days(calls: seq<CallRecord>): (r: seq<string>)
    ensures |r| == |calls| && forall i :: 0 <= i < |calls| ==> r[i] == DayOf(calls[i].date)
  {
    seq(|calls|, i requires 0 <= i < |calls| => DayOf(calls[i].date))
  }

  function TotalDuration(calls: seq<CallRecord>): int
    decreases |calls|
  {
    if calls == [] then 0 else TotalDuration(calls[..|calls| - 1]) + calls[|calls| - 1].duration
  }

  /** `Math.ceil(n / d)` for a positive divisor. */
  function CeilDiv(n: int, d: int): (q: int)
    requires d > 0
    ensures d * (q - 1) < n <= d * q
  {
    -((-n) / d)
  }

  const MillisecondsPerDay: int := 1000 * 60 * 60 * 24

  /** Lines 57-58 for two day keys: whole days from `first` to `last`; `dateMs` is `new Date(day).getTime()`,
      `None` when a day does not parse (the spread is then `NaN`). */
  function DaySpread(first: string, last: string, dateMs: string -> Option<int>): Option<int> {
    match (dateMs(last), dateMs(first))
    case (Some(l), Some(f)) => Some(CeilDiv(l - f, MillisecondsPerDay))
    case _ => None
  }

  /** Lines 56-59: the spread from the earliest to the latest day in string order, 1 for a single day. */
  function TimeSpread(days: seq<string>, dateMs: string -> Option<int>): Option<int> {
    LexLeIsTotalOrder();
    var sorted := SortBy(days, Id, LexLe);
    if |sorted| > 1 then DaySpread(sorted[0], sorted[|sorted| - 1], dateMs) else Some(1)
  }

  /** The spread runs from the least to the greatest day in string order, and is 1 without two days. */
  lemma TimeSpreadSpec(days: seq<string>, dateMs: string -> Option<int>)
    ensures |days| <= 1 ==> TimeSpread(days, dateMs) == Some(1)
    ensures |days| > 1 ==> (exists lo, hi :: lo in Elements(days) && hi in Elements(days) && Bounds(lo, hi, Elements(days)) &&
                                             TimeSpread(days, dateMs) == DaySpread(lo, hi, dateMs))
  {
    LexLeIsTotalOrder();
    var sorted := SortBy(days, Id, LexLe);
    if |days| > 1 {
      SortedEnds(days, sorted);
    }
  }

  /** The first and the last of the sorted days are days, and every day lies between them. */
  lemma SortedEnds(days: seq<string>, sorted: seq<string>)
    requires SortedBy(sorted, Id, LexLe) && multiset(sorted) == multiset(days) && |sorted| > 0
    ensures sorted[0] in Elements(days) && sorted[|sorted| - 1] in Elements(days)
    ensures Bounds(sorted[0], sorted[|sorted| - 1], Elements(days))
  {
    LexLeIsTotalOrder();
    assert sorted[0] in multiset(days) && sorted[|sorted| - 1] in multiset(days);
    forall d | d in Elements(days) ensures LexLe(sorted[0], d) && LexLe(d, sorted[|sorted| - 1]) {
      assert d in multiset(sorted);
      var i :| 0 <= i < |sorted| && sorted[i] == d;
      SortedFirstLeast(sorted, Id, LexLe, i);
    }
  }

  /** Every day of `days` lies between `lo` and `hi` in string order. */
  predicate Bounds(lo: string, hi: string, days: set<string>) {
    forall d :: d in days ==> LexLe(lo, d) && LexLe(d, hi)
  }

  /** `Math.min(x, 1)` */
  function Min1(x: real): real { if x < 1.0 then x else 1.0 }

  /** `Math.round`: halves round up. */
  function Round(x: real): int { (x + 0.5).Floor }

  /** The regularity part of the score: days with contact per week of spread, capped at one. */
  function TemporalScore(uniqueDays: nat, timeSpread: Option<int>): (r: real)
    ensures 0.0 <= r <= 1.0
  {
    if timeSpread.Some? && timeSpread.value > 7 then Min1(uniqueDays as real / (timeSpread.value as real / 7.0))
    else Min1(uniqueDays as real / 7.0)
  }

  /** The five normalised metrics weighted 30/20/15/20/15 and scaled to a percentage. */
  function CompositeScoreWith(frequency: nat, totalDuration: int, averageDuration: real, uniqueDays: nat,
                              temporal: real): int
  {
    var frequencyScore := Min1(frequency as real / 50.0);
    var durationScore := Min1(totalDuration as real / 3600.0);
    var avgDurationScore := Min1(averageDuration / 300.0);
    var consistencyScore := if uniqueDays > 1 then Min1(frequency as real / uniqueDays as real / 5.0) else 0.0;
    Round((frequencyScore * 0.3 + durationScore * 0.2 + avgDurationScore * 0.15
           + consistencyScore * 0.2 + temporal * 0.15) * 100.0)
  }

  /** `calculateCompositeScore` as written: without a spread of more than a week the temporal part is
      `uniqueDays / 7` with no cap. */
  function CompositeScoreAsWritten(frequency: nat, totalDuration: int, averageDuration: real, uniqueDays: nat,
                                   timeSpread: Option<int>): int
  {
    var temporal := if timeSpread.Some? && timeSpread.value > 7
      then Min1(uniqueDays as real / (timeSpread.value as real / 7.0))
      else uniqueDays as real / 7.0;
    CompositeScoreWith(frequency, totalDuration, averageDuration, uniqueDays, temporal)
  }

  /** Fifty five-minute calls on eight dates at most seven days apart score 102. */
  lemma CompositeScoreExceeds100()
    ensures CompositeScoreAsWritten(50, 15000, 300.0, 8, Some(7)) == 102
  {
    assert Min1(50 as real / 50.0) == 1.0;
    assert Min1(15000 as real / 3600.0) == 1.0;
    assert Min1(300.0 / 300.0) == 1.0;
    assert Min1(50 as real / 8 as real / 5.0) == 1.0;
    var x := (1.0 * 0.3 + 1.0 * 0.2 + 1.0 * 0.15 + 1.0 * 0.2 + (8 as real / 7.0) * 0.15) * 100.0;
    assert x == 85.0 + 120.0 / 7.0;
    assert 102.0 <= x + 0.5 < 103.0;
  }

  /** The uncapped part also changes classes: sixteen five-minute calls on eight dates at most seven days
      apart score 70, a primary link, where the capped score is 68, a secondary one. */
  lemma UncappedScorePromotes()
    ensures CompositeScoreAsWritten(16, 4800, 300.0, 8, Some(7)) == 70
    ensures CompositeScore(16, 4800, 300.0, 8, Some(7)) == 68
    ensures ClassifyLink(70, 16, 8) == Primary && ClassifyLink(68, 16, 8) == Secondary
  {
    assert Min1(16 as real / 50.0) == 0.32;
    assert Min1(4800 as real / 3600.0) == 1.0;
    assert Min1(300.0 / 300.0) == 1.0;
    assert Min1(16 as real / 8 as real / 5.0) == 0.4;
    assert TemporalScore(8, Some(7)) == 1.0;
    var base := 0.32 * 0.3 + 1.0 * 0.2 + 1.0 * 0.15 + 0.4 * 0.2;
    assert (base + (8 as real / 7.0) * 0.15) * 100.0 + 0.5 == 52.6 + 120.0 / 7.0 + 0.5;
    assert (base + 1.0 * 0.15) * 100.0 + 0.5 == 68.1;
  }

  /** The composite score with every part capped at one, as the 0-100 range intends; with non-negative
      durations it is a percentage. */
  function CompositeScore(frequency: nat, totalDuration: int, averageDuration: real, uniqueDays: nat,
                          timeSpread: Option<int>): (score: int)
    ensures totalDuration >= 0 && averageDuration >= 0.0 ==> 0 <= score <= 100
  {
    var t := TemporalScore(uniqueDays, timeSpread);
    assert totalDuration >= 0 && averageDuration >= 0.0 ==>
      0.0 <= Min1(frequency as real / 50.0) <= 1.0 && 0.0 <= Min1(totalDuration as real / 3600.0) <= 1.0 &&
      0.0 <= Min1(averageDuration / 300.0) <= 1.0;
    assert uniqueDays > 1 ==> 0.0 <= Min1(frequency as real / uniqueDays as real / 5.0) <= 1.0;
    CompositeScoreWith(frequency, totalDuration, averageDuration, uniqueDays, t)
  }

  /** `classifyLink` */
  function ClassifyLink(score: int, frequency: nat, uniqueDays: nat): LinkClass {
    if score >= 70 || (frequency >= 20 && uniqueDays >= 5) then Primary
    else if score >= 30 || (frequency >= 5 && uniqueDays >= 2) then Secondary
    else Weak
  }

  function Rank(c: LinkClass): nat {
    match c
    case Weak => 0
    case Secondary => 1
    case Primary => 2
  }

  /** A higher score, more calls or more days never weaken a link. */
  lemma ClassifyLinkMonotone(s1: int, f1: nat, d1: nat, s2: int, f2: nat, d2: nat)
    requires s1 <= s2 && f1 <= f2 && d1 <= d2
    ensures Rank(ClassifyLink(s1, f1, d1)) <= Rank(ClassifyLink(s2, f2, d2))
  {
  }

  /** The distinct calendar days of the records: the set built at line 52. */
  function DaySet(calls: seq<CallRecord>): set<string> {
    set i | 0 <= i < |calls| :: DayOf(calls[i].date)
  }

  /** The deduplicated day keys are exactly the days of the records, each once. */
  lemma DaysDedupe(calls: seq<CallRecord>)
    ensures Elements(Dedupe(Days(calls))) == DaySet(calls)
    ensures |Dedupe(Days(calls))| == |DaySet(calls)|
  {
    var d := Dedupe(Days(calls));
    forall x ensures x in d <==> x in DaySet(calls) {
      if x in Days(calls) {
        var i :| 0 <= i < |calls| && Days(calls)[i] == x;
        assert DayOf(calls[i].date) == x;
      }
      if x in DaySet(calls) {
        var i :| 0 <= i < |calls| && DayOf(calls[i].date) == x;
        assert Days(calls)[i] == x;
      }
    }
    assert Elements(d) == DaySet(calls);
    DistinctCardinality(d);
  }

  /** `calculateLinkStrength`: no records give the all-zero weak link; otherwise the count, the summed and
      mean duration, the number of distinct days, the spread and the score as `calculateCompositeScore`
      computes it, classified by `classifyLink`. */
  function CalculateLinkStrength(calls: seq<CallRecord>, dateMs: string -> Option<int>): (r: LinkStrength)
    ensures |calls| == 0 ==> r == LinkStrength(0, 0, 0.0, 0, Some(0), 0, Weak)
    ensures r.callFrequency == |calls| && r.totalDuration == TotalDuration(calls)
    ensures |calls| > 0 ==> r.averageDuration == r.totalDuration as real / |calls| as real
    ensures r.uniqueDays == |DaySet(calls)| && r.uniqueDays <= |calls|
    ensures |calls| > 0 ==> r.uniqueDays >= 1
    ensures |calls| > 0 ==> r.strengthScore == CompositeScoreAsWritten(|calls|, r.totalDuration, r.averageDuration, r.uniqueDays, r.timeSpread)
    ensures r.classification == ClassifyLink(r.strengthScore, r.callFrequency, r.uniqueDays)
  {
    if |calls| == 0 then LinkStrength(0, 0, 0.0, 0, Some(0), 0, Weak)
    else
      var frequency := |calls|;
      var total := TotalDuration(calls);
      var average := total as real / frequency as real;
      var days := Dedupe(Days(calls));
      DaysDedupe(calls);
      assert DayOf(calls[0].date) in Days(calls);
      var spread := TimeSpread(days, dateMs);
      var score := CompositeScoreAsWritten(frequency, total, average, |days|, spread);
      LinkStrength(frequency, total, average, |days|, spread, score, ClassifyLink(score, frequency, |days|))
  }

  /** A single day of contact has spread 1; otherwise the spread runs from the earliest to the latest day. */
  lemma LinkTimeSpread(calls: seq<CallRecord>, dateMs: string -> Option<int>)
    ensures var r := CalculateLinkStrength(calls, dateMs);
      |calls| > 0 && r.uniqueDays == 1 ==> r.timeSpread == Some(1)
    ensures var r := CalculateLinkStrength(calls, dateMs);
      r.uniqueDays > 1 ==> (exists lo, hi :: lo in DaySet(calls) && hi in DaySet(calls) && Bounds(lo, hi, DaySet(calls)) &&
                                              r.timeSpread == DaySpread(lo, hi, dateMs))
  {
    if |calls| > 0 {
      var days := Dedupe(Days(calls));
      DaysDedupe(calls);
      TimeSpreadSpec(days, dateMs);
    }
  }

  lemma {:induction false} TotalDurationAppend(a: seq<CallRecord>, b: seq<CallRecord>)
    ensures TotalDuration(a + b) == TotalDuration(a) + TotalDuration(b)
    decreases |b|
  {
    if b == [] {
      assert a + b == a;
    } else {
      assert (a + b)[..|a + b| - 1] == a + b[..|b| - 1];
      TotalDurationAppend(a, b[..|b| - 1]);
    }
  }

  /** The summed duration does not depend on the order of the records. */
  lemma {:induction false} TotalDurationPermutation(c1: seq<CallRecord>, c2: seq<CallRecord>)
    requires multiset(c1) == multiset(c2)
    ensures TotalDuration(c1) == TotalDuration(c2)
    decreases |c1|
  {
    assert |c1| == |multiset(c1)| == |multiset(c2)| == |c2|;
    if c1 != [] {
      var n := |c1| - 1;
      var x := c1[n];
      assert x in multiset(c2);
      var j :| 0 <= j < |c2| && c2[j] == x;
      var rest := c2[..j] + c2[j + 1..];
      RemoveOne(c1, c2, j);
      TotalDurationPermutation(c1[..n], rest);
      assert c2 == (c2[..j] + [x]) + c2[j + 1..];
      TotalDurationAppend(c2[..j] + [x], c2[j + 1..]);
      TotalDurationAppend(c2[..j], [x]);
      TotalDurationAppend(c2[..j], c2[j + 1..]);
      assert [x][..0] == [];
    }
  }

  /** Taking the last record of `c1` out of `c2` at `j` leaves permutations of each other. */
  lemma RemoveOne(c1: seq<CallRecord>, c2: seq<CallRecord>, j: nat)
    requires multiset(c1) == multiset(c2) && |c1| > 0 && j < |c2| && c2[j] == c1[|c1| - 1]
    ensures multiset(c1[..|c1| - 1]) == multiset(c2[..j] + c2[j + 1..])
  {
    var x := c2[j];
    assert c1 == c1[..|c1| - 1] + [x];
    assert c2 == c2[..j] + [x] + c2[j + 1..];
    assert multiset(c1[..|c1| - 1]) == multiset(c1) - multiset{x};
    assert multiset(c2[..j] + c2[j + 1..]) == multiset(c2) - multiset{x};
  }

  /** Every day of `c1` is a day of `c2` when `c2` holds every record of `c1`. */
  lemma DaySetWithin(c1: seq<CallRecord>, c2: seq<CallRecord>)
    requires multiset(c1) <= multiset(c2)
    ensures DaySet(c1) <= DaySet(c2)
  {
    forall d | d in DaySet(c1) ensures d in DaySet(c2) {
      var i :| 0 <= i < |c1| && DayOf(c1[i].date) == d;
      assert c1[i] in multiset(c2);
      var j :| 0 <= j < |c2| && c2[j] == c1[i];
    }
  }

  /** The order of the records does not matter: the same records in any order give the same link. */
  lemma LinkStrengthOrderFree(c1: seq<CallRecord>, c2: seq<CallRecord>, dateMs: string -> Option<int>)
    requires multiset(c1) == multiset(c2)
    ensures CalculateLinkStrength(c1, dateMs) == CalculateLinkStrength(c2, dateMs)
  {
    assert |c1| == |multiset(c1)| == |multiset(c2)| == |c2|;
    if |c1| > 0 {
      TotalDurationPermutation(c1, c2);
      DaySetWithin(c1, c2);
      DaySetWithin(c2, c1);
      var d1, d2 := Dedupe(Days(c1)), Dedupe(Days(c2));
      DaysDedupe(c1);
      DaysDedupe(c2);
      assert Elements(d1) == Elements(d2);
      forall x ensures x in d1 <==> x in d2 {
        assert x in d1 <==> x in Elements(d1);
        assert x in d2 <==> x in Elements(d2);
      }
      DistinctSameElements(d1, d2);
      SameDays(d1, d2, dateMs);
    }
  }

  /** Two permutations of the same day keys have the same spread. */
  lemma SameDays(d1: seq<string>, d2: seq<string>, dateMs: string -> Option<int>)
    requires multiset(d1) == multiset(d2)
    ensures TimeSpread(d1, dateMs) == TimeSpread(d2, dateMs)
  {
    LexLeIsTotalOrder();
    SortedStringsUnique(SortBy(d1, Id, LexLe), SortBy(d2, Id, LexLe));
  }

  lemma {:induction false} TotalDurationNonNegative(calls: seq<CallRecord>)
    requires forall i :: 0 <= i < |calls| ==> calls[i].duration >= 0
    ensures TotalDuration(calls) >= 0
    decreases |calls|
  {
    if calls != [] { TotalDurationNonNegative(calls[..|calls| - 1]); }
  }

  lemma QuotientNonNegative(x: real, n: real)
    requires x >= 0.0 && n > 0.0
    ensures x / n >= 0.0
  {
  }

  /** With non-negative durations no part of the score is negative, so neither is the score. */
  lemma CompositeScoreWithNonNegative(frequency: nat, totalDuration: int, averageDuration: real, uniqueDays: nat,
                                      temporal: real)
    requires totalDuration >= 0 && averageDuration >= 0.0 && temporal >= 0.0
    ensures CompositeScoreWith(frequency, totalDuration, averageDuration, uniqueDays, temporal) >= 0
  {
    assert uniqueDays > 1 ==> Min1(frequency as real / uniqueDays as real / 5.0) >= 0.0;
  }

  /** When the temporal part cannot exceed one (at most seven days, or a spread of more than a week) the
      score as written is the capped score. */
  lemma CompositeScoreAgrees(frequency: nat, totalDuration: int, averageDuration: real, uniqueDays: nat,
                             timeSpread: Option<int>)
    requires uniqueDays <= 7 || (timeSpread.Some? && timeSpread.value > 7)
    ensures CompositeScoreAsWritten(frequency, totalDuration, averageDuration, uniqueDays, timeSpread)
         == CompositeScore(frequency, totalDuration, averageDuration, uniqueDays, timeSpread)
  {
    if !(timeSpread.Some? && timeSpread.value > 7) {
      assert uniqueDays as real / 7.0 <= 1.0;
    }
  }

  /** As written, with non-negative durations the score is never negative, and it is at most 100 when the
      temporal part cannot exceed one. */
  lemma CompositeScoreAsWrittenRange(frequency: nat, totalDuration: int, averageDuration: real, uniqueDays: nat,
                                     timeSpread: Option<int>)
    requires totalDuration >= 0 && averageDuration >= 0.0
    ensures 0 <= CompositeScoreAsWritten(frequency, totalDuration, averageDuration, uniqueDays, timeSpread)
    ensures uniqueDays <= 7 || (timeSpread.Some? && timeSpread.value > 7) ==>
      CompositeScoreAsWritten(frequency, totalDuration, averageDuration, uniqueDays, timeSpread) <= 100
  {
    var temporal := if timeSpread.Some? && timeSpread.value > 7
      then Min1(uniqueDays as real / (timeSpread.value as real / 7.0))
      else uniqueDays as real / 7.0;
    CompositeScoreWithNonNegative(frequency, totalDuration, averageDuration, uniqueDays, temporal);
    if uniqueDays <= 7 || (timeSpread.Some? && timeSpread.value > 7) {
      CompositeScoreAgrees(frequency, totalDuration, averageDuration, uniqueDays, timeSpread);
    }
  }

  /** Without negative durations a link's score is never negative, and it is at most 100 whenever the
      records fall on at most seven days or spread over more than a week. */
  lemma LinkScoreRange(calls: seq<CallRecord>, dateMs: string -> Option<int>)
    requires forall i :: 0 <= i < |calls| ==> calls[i].duration >= 0
    ensures 0 <= CalculateLinkStrength(calls, dateMs).strengthScore
    ensures var r := CalculateLinkStrength(calls, dateMs);
      r.uniqueDays <= 7 || (r.timeSpread.Some? && r.timeSpread.value > 7) ==> r.strengthScore <= 100
  {
    var r := CalculateLinkStrength(calls, dateMs);
    if |calls| > 0 {
      TotalDurationNonNegative(calls);
      QuotientNonNegative(r.totalDuration as real, |calls| as real);
      CompositeScoreAsWrittenRange(|calls|, r.totalDuration, r.averageDuration, r.uniqueDays, r.timeSpread);
    }
  }

  // ----- Edges -----

  datatype EnhancedEdge = EnhancedEdge(edge: NetworkData.NetworkEdge, linkStrength: LinkStrength, calls: seq<CallRecord>)

  function Enhance(e: NetworkData.NetworkEdge, callData: seq<Row>, now: string, dateMs: string -> Option<int>): EnhancedEdge {
    var calls := CallsBetween(e.source, e.target, callData, now);
    EnhancedEdge(e, CalculateLinkStrength(calls, dateMs), calls)
  }

  /** `classifyNetworkEdges`: every edge, in order, with the records and strength of its pair. */
  function ClassifyNetworkEdges(edges: seq<NetworkData.NetworkEdge>, callData: seq<Row>, now: string,
                                dateMs: string -> Option<int>): (r: seq<EnhancedEdge>)
    ensures |r| == |edges|
    ensures forall i :: 0 <= i < |r| ==> r[i].edge == edges[i] && r[i].linkStrength.callFrequency == |r[i].calls|
  {
    seq(|edges|, i requires 0 <= i < |edges| => Enhance(edges[i], callData, now, dateMs))
  }

  /** Swapping the ends of an edge gives it the same records and the same strength. */
  lemma EnhanceSymmetric(e: NetworkData.NetworkEdge, callData: seq<Row>, now: string, dateMs: string -> Option<int>)
    ensures Enhance(e, callData, now, dateMs).calls == Enhance(e.(source := e.target, target := e.source), callData, now, dateMs).calls
    ensures Enhance(e, callData, now, dateMs).linkStrength == Enhance(e.(source := e.target, target := e.source), callData, now, dateMs).linkStrength
  {
    CallsBetweenSymmetric(e.source, e.target, callData, now);
  }

  /** `getLinkClassificationColor`: red, amber and grey. */
  function LinkClassColor(c: LinkClass): string {
    match c
    case Primary => "#ef4444"
    case Secondary => "#f59e0b"
    case Weak => "#6b7280"
  }

  /** `getLinkClassificationWidth` */
  function LinkClassWidth(c: LinkClass, baseWidth: real): (w: real)
    ensures w >= 1.0
  {
    match c
    case Primary => if baseWidth * 1.5 > 4.0 then baseWidth * 1.5 else 4.0
    case Secondary => if baseWidth * 1.2 > 3.0 then baseWidth * 1.2 else 3.0
    case Weak => if baseWidth * 0.8 > 1.0 then baseWidth * 0.8 else 1.0
  }

  /** For the same base width a stronger link is never drawn thinner. */
  lemma LinkClassWidthOrdered(c1: LinkClass, c2: LinkClass, baseWidth: real)
    requires Rank(c1) <= Rank(c2)
    ensures LinkClassWidth(c1, baseWidth) <= LinkClassWidth(c2, baseWidth)
  {
  }
}
