/**
 * The profile of one selected number (`IndividualInfo`): its interactions
 * in the listings, the direction and kind counters, the contacts and their
 * frequencies, the hour-of-day histogram, the suspicious-pattern flags and
 * the ten most recent interactions, plus the helpers that render them.
 */
module IndividualInfo {
  import opened Common
  import opened Text
  import opened Rows
  import opened Sorting
  import opened FieldLookup
  import opened NetworkGraphUtils
  import FilterPanel
  import LC = LinkClassification

  const DurationFields: seq<string> := ["duration", "duree appel"]
  const DateFields: seq<string> := ["timestamp", "date", "date d\U{00E9}but appel"]
  const Unknown: string := "Unknown"

  const VeryHighVolume: string := "Very high interaction volume"
  const NightActivity: string := "Significant night-time activity"
  const MostlyOutgoing: string := "Primarily makes outgoing calls"

  /** An hour of the day as `Date.getHours` returns it. */
  type Hour = h: int | 0 <= h < 24

  /**
   * What the component learns from `new Date(text)`: the local hour, or nothing for an
   * invalid date, and the time in milliseconds.
   */
  datatype Clock = Clock(hourOf: string -> Option<Hour>, timeOf: string -> int)

  function Found(row: Row, fields: seq<string>): Option<string> {
    FieldValue(SpaceNonAlnum, row, fields)
  }

  /** The filter of lines 77-80: the row names the number as caller or as callee. */
  predicate IsInteraction(phone: string, row: Row) {
    FilterPanel.CallerOf(row) == Some(phone) || FilterPanel.CalleeOf(row) == Some(phone)
  }

  function InteractionOf(phone: string): Row -> bool { (row: Row) => IsInteraction(phone, row) }

  /** What one interaction contributes to the counters. */
  datatype Facts = Facts(outgoing: bool, contact: string, duration: DurationInfo, hour: Option<Hour>, timestamp: int)

  /** Reading one interaction row (lines 91-120 and 131). */
  function RowFacts(phone: string, row: Row, clock: Clock): (f: Facts)
    ensures f.outgoing <==> FilterPanel.CallerOf(row) == Some(phone)
    ensures f.contact != ""
  {
    var outgoing := FilterPanel.CallerOf(row) == Some(phone);
    var other := if outgoing then FilterPanel.CalleeOf(row) else FilterPanel.CallerOf(row);
    var contact := if other.Some? && other.value != "" then other.value else Unknown;
    var date := Found(row, DateFields);
    var dated := date.Some? && date.value != "";
    Facts(outgoing, contact, ParseDuration(Found(row, DurationFields)),
          if dated then clock.hourOf(date.value) else None,
          if dated then clock.timeOf(date.value) else 0)
  }

  function AllFacts(phone: string, rows: seq<Row>, clock: Clock): (fs: seq<Facts>)
    ensures |fs| == |rows| && forall i :: 0 <= i < |rows| ==> fs[i] == RowFacts(phone, rows[i], clock)
  {
    seq(|rows|, i requires 0 <= i < |rows| => RowFacts(phone, rows[i], clock))
  }

  /** Everything the `forEach` of lines 90-121 updates. */
  datatype Tally = Tally(contacts: seq<string>, frequency: map<string, nat>, timePattern: seq<nat>,
                         totalCallDuration: nat, callCount: nat, nightCalls: nat,
                         callsOut: nat, callsIn: nat, smsOut: nat, smsIn: nat)

  /** Position `h` of the histogram stands for the key `HourKey(h)`; all 24 start at zero. */
  function Start(): Tally { Tally([], map[], seq(24, _ => 0), 0, 0, 0, 0, 0, 0, 0) }

  predicate IsNight(h: Hour) { h < 6 || h > 22 }

  /** One iteration of the `forEach`. */
  function Step(t: Tally, f: Facts): (r: Tally)
    requires |t.timePattern| == 24
    ensures |r.timePattern| == 24
  {
    var contacts := if f.contact in t.contacts then t.contacts else t.contacts + [f.contact];
    var seen := if f.contact in t.frequency then t.frequency[f.contact] else 0;
    var timed := !f.duration.isSms && f.duration.seconds > 0;
    Tally(
      contacts,
      t.frequency[f.contact := seen + 1],
      if f.hour.Some? then t.timePattern[f.hour.value := t.timePattern[f.hour.value] + 1] else t.timePattern,
      t.totalCallDuration + (if timed then f.duration.seconds else 0),
      t.callCount + (if timed then 1 else 0),
      t.nightCalls + (if f.hour.Some? && IsNight(f.hour.value) then 1 else 0),
      t.callsOut + (if !f.duration.isSms && f.outgoing then 1 else 0),
      t.callsIn + (if !f.duration.isSms && !f.outgoing then 1 else 0),
      t.smsOut + (if f.duration.isSms && f.outgoing then 1 else 0),
      t.smsIn + (if f.duration.isSms && !f.outgoing then 1 else 0))
  }

  /** The counters after the `forEach` over `fs`. */
  function TallyOf(fs: seq<Facts>): (t: Tally)
    ensures |t.timePattern| == 24
    decreases |fs|
  {
    if fs == [] then Start() else Step(TallyOf(fs[..|fs| - 1]), fs[|fs| - 1])
  }

  /** How many of `fs` satisfy `p`. */
  function Count(fs: seq<Facts>, p: Facts -> bool): (n: nat)
    ensures n <= |fs|
    decreases |fs|
  {
    if fs == [] then 0 else Count(fs[..|fs| - 1], p) + (if p(fs[|fs| - 1]) then 1 else 0)
  }

  function IsCallOut(f: Facts): bool { !f.duration.isSms && f.outgoing }
  function IsCallIn(f: Facts): bool { !f.duration.isSms && !f.outgoing }
  function IsSmsOut(f: Facts): bool { f.duration.isSms && f.outgoing }
  function IsSmsIn(f: Facts): bool { f.duration.isSms && !f.outgoing }
  function IsTimedCall(f: Facts): bool { !f.duration.isSms && f.duration.seconds > 0 }
  function IsDated(f: Facts): bool { f.hour.Some? }
  function IsNightly(f: Facts): bool { f.hour.Some? && IsNight(f.hour.value) }
  function WithContact(c: string): Facts -> bool { (f: Facts) => f.contact == c }

  /** The seconds of the calls with a positive duration. */
  function TimedSeconds(fs: seq<Facts>): nat
    decreases |fs|
  {
    if fs == [] then 0
    else TimedSeconds(fs[..|fs| - 1]) + (if IsTimedCall(fs[|fs| - 1]) then fs[|fs| - 1].duration.seconds else 0)
  }

  function HourSum(tp: seq<nat>): nat
    decreases |tp|
  {
    if tp == [] then 0 else tp[0] + HourSum(tp[1..])
  }

  lemma {:induction false} TotalBump(tp: seq<nat>, h: nat)
    requires h < |tp|
    ensures HourSum(tp[h := tp[h] + 1]) == HourSum(tp) + 1
    decreases h
  {
    if h > 0 {
      TotalBump(tp[1..], h - 1);
      assert tp[h := tp[h] + 1][1..] == tp[1..][h - 1 := tp[1..][h - 1] + 1];
    }
  }

  lemma {:induction false} TotalZero(n: nat)
    ensures HourSum(seq(n, _ => 0)) == 0
    decreases n
  {
    if n > 0 {
      assert seq(n, _ => 0)[1..] == seq(n - 1, _ => 0);
      TotalZero(n - 1);
    }
  }

  /**
   * Each interaction lands in exactly one of the four direction/kind counters; the call
   * duration total and the call count cover exactly the calls with a positive duration; the
   * histogram and the night counter count the dated interactions.
   */
  lemma {:induction false} TallyCounts(fs: seq<Facts>)
    ensures var t := TallyOf(fs);
      && t.callsOut == Count(fs, IsCallOut) && t.callsIn == Count(fs, IsCallIn)
      && t.smsOut == Count(fs, IsSmsOut) && t.smsIn == Count(fs, IsSmsIn)
      && t.callsOut + t.callsIn + t.smsOut + t.smsIn == |fs|
      && t.totalCallDuration == TimedSeconds(fs) && t.callCount == Count(fs, IsTimedCall)
      && HourSum(t.timePattern) == Count(fs, IsDated)
      && t.nightCalls == Count(fs, IsNightly) <= Count(fs, IsDated)
    decreases |fs|
  {
    if fs == [] {
      TotalZero(24);
    } else {
      var p := fs[..|fs| - 1];
      var f := fs[|fs| - 1];
      TallyCounts(p);
      if f.hour.Some? {
        TotalBump(TallyOf(p).timePattern, f.hour.value);
      }
    }
  }

  /** The counterpart of every interaction, in order. */
  function ContactList(fs: seq<Facts>): (s: seq<string>)
    ensures |s| == |fs| && forall i :: 0 <= i < |fs| ==> s[i] == fs[i].contact
  {
    seq(|fs|, i requires 0 <= i < |fs| => fs[i].contact)
  }

  /** The contact set is the distinct counterparts in order of first appearance. */
  lemma {:induction false} TallyContacts(fs: seq<Facts>)
    ensures TallyOf(fs).contacts == Dedupe(ContactList(fs))
    decreases |fs|
  {
    if fs != [] {
      var p := fs[..|fs| - 1];
      TallyContacts(p);
      var s := ContactList(fs);
      assert s[..|s| - 1] == ContactList(p);
    }
  }

  /** The frequency table has one entry per contact, counting its interactions. */
  lemma {:induction false} TallyFrequency(fs: seq<Facts>)
    ensures forall c :: c in TallyOf(fs).frequency <==> c in TallyOf(fs).contacts
    ensures forall c :: c in TallyOf(fs).frequency ==> TallyOf(fs).frequency[c] == Count(fs, WithContact(c)) >= 1
    decreases |fs|
  {
    if fs != [] {
      var p := fs[..|fs| - 1];
      var f := fs[|fs| - 1];
      TallyFrequency(p);
      var t := TallyOf(fs);
      forall c | c in t.frequency ensures t.frequency[c] == Count(fs, WithContact(c)) >= 1 {
        if c !in TallyOf(p).frequency {
          CountAbsent(p, c);
        }
        assert Count(fs, WithContact(c)) == Count(p, WithContact(c)) + (if f.contact == c then 1 else 0);
      }
    }
  }

  /** A contact that never appears counts zero. */
  lemma {:induction false} CountAbsent(fs: seq<Facts>, c: string)
    requires c !in TallyOf(fs).frequency
    ensures Count(fs, WithContact(c)) == 0
    decreases |fs|
  {
    if fs != [] {
      CountAbsent(fs[..|fs| - 1], c);
    }
  }

  /**
   * Object key order: keys that are array indices (canonical decimal numbers below
   * 2^32 - 1) come first in ascending numeric order, then the other keys in insertion order,
   * as section 10.1.11.1 of ECMA-262 (OrdinaryOwnPropertyKeys) prescribes.
   */
  predicate IsArrayIndex(k: string) {
    && |k| >= 1
    && AllRadixDigits(k, 10)
    && (k[0] != '0' || |k| == 1)
    && RadixValue(k, 10) < 4294967295
  }

  function IndexKey(k: string): bool { IsArrayIndex(k) }
  function NamedKey(k: string): bool { !IsArrayIndex(k) }
  function KeyValue(k: string): int { if AllRadixDigits(k, 10) then RadixValue(k, 10) else 0 }

  function OwnKeys(keys: seq<string>): (r: seq<string>)
    ensures multiset(r) == multiset(keys)
  {
    IntOrders();
    FilterSplit(keys, IndexKey, NamedKey);
    SortBy(Filter(keys, IndexKey), KeyValue, IntLe) + Filter(keys, NamedKey)
  }

  /** `HourKey(h)`: `h.toString().padStart(2, '0')`. */
  function HourKey(h: Hour): (k: string)
    ensures |k| == 2 && IsDigit(k[0]) && IsDigit(k[1])
  {
    [DigitChar(h / 10), DigitChar(h % 10)]
  }

  /** The keys of `timePattern` in the order they were created. */
  function HourKeys(): (r: seq<string>)
    ensures |r| == 24 && forall h: Hour :: r[h] == HourKey(h)
  {
    seq(24, (h: int) requires 0 <= h < 24 => HourKey(h))
  }

  /** `Object.entries(stats.timePattern)`: the order of the cells of the 24-hour grid as written. */
  function HourGridAsWritten(): seq<string> {
    OwnKeys(HourKeys())
  }

  /** As written, the grid does not start at midnight: the array-index key "10" comes before "00". */
  lemma HourGridStartsLate()
    ensures |HourGridAsWritten()| > 0 && HourGridAsWritten()[0] != HourKey(0)
  {
    var keys := HourKeys();
    TenIsIndex();
    OwnKeysIndexFirst(keys, 10);
    ZeroZeroIsNamed();
  }

  /** "10" is an array index. */
  lemma TenIsIndex()
    ensures IsArrayIndex(HourKey(10))
  {
    var ten := HourKey(10);
    assert ten == ['1', '0'];
    assert ten[..1] == ['1'];
    assert ten[..1][..0] == [];
    assert RadixValue(ten, 10) == 10;
  }

  /** "00" is not: a leading zero makes it a named key. */
  lemma ZeroZeroIsNamed()
    ensures !IsArrayIndex(HourKey(0))
  {
    assert HourKey(0) == ['0', '0'];
  }

  /** When some key is an array index, the first key in object order is one. */
  lemma OwnKeysIndexFirst(keys: seq<string>, j: nat)
    requires j < |keys| && IsArrayIndex(keys[j])
    ensures |OwnKeys(keys)| > 0 && IsArrayIndex(OwnKeys(keys)[0])
  {
    var indices := Filter(keys, IndexKey);
    assert IndexKey(keys[j]);
    assert keys[j] in indices;
    IntOrders();
    var sorted := SortBy(indices, KeyValue, IntLe);
    assert keys[j] in multiset(indices);
    assert sorted[0] in multiset(sorted);
    assert sorted[0] in indices;
    var k :| 0 <= k < |indices| && indices[k] == sorted[0];
    assert IndexKey(indices[k]);
    assert OwnKeys(keys)[0] == sorted[0];
  }

  /** The grid in hour order, "00" to "23": what the histogram is meant to show. */
  function HourGrid(): (r: seq<string>)
    ensures |r| == 24 && forall h: Hour :: r[h] == HourKey(h)
    ensures r[0] == "00" && r[23] == "23"
  {
    HourKeys()
  }

  /** The three flags of lines 125-128, in their order. */
  function DetectedPatterns(total: nat, nightCalls: nat, callsOut: nat, callsIn: nat): (r: seq<string>)
    ensures VeryHighVolume in r <==> total > 200
    ensures NightActivity in r <==> nightCalls * 4 > total && nightCalls > 10
    ensures MostlyOutgoing in r <==> callsOut > callsIn * 3 && callsOut > 10
    ensures Distinct(r)
  {
    (if total > 200 then [VeryHighVolume] else [])
    + (if (nightCalls as real) > (total as real) / 4.0 && nightCalls > 10 then [NightActivity] else [])
    + (if callsOut > callsIn * 3 && callsOut > 10 then [MostlyOutgoing] else [])
  }

  /** A row with `_timestamp` added. */
  type Stamped = (Row, int)

  function Stamp(x: Stamped): int { x.1 }

  function Stamps(rows: seq<Row>, fs: seq<Facts>): (r: seq<Stamped>)
    requires |rows| == |fs|
    ensures |r| == |rows|
  {
    seq(|rows|, i requires 0 <= i < |rows| => (rows[i], fs[i].timestamp))
  }

  /** `.sort((a, b) => b._timestamp - a._timestamp).slice(0, 10)` */
  function Recent(stamped: seq<Stamped>): (r: seq<Stamped>)
    ensures |r| == if |stamped| < 10 then |stamped| else 10
  {
    IntOrders();
    var sorted := SortBy(stamped, Stamp, IntGe);
    sorted[..if |sorted| < 10 then |sorted| else 10]
  }

  /** The recent activity is newest first, drawn from the interactions, and nothing left out is newer than what is kept. */
  lemma RecentSpec(stamped: seq<Stamped>)
    ensures var r := Recent(stamped);
      && (forall i :: 0 < i < |r| ==> Stamp(r[i - 1]) >= Stamp(r[i]))
      && multiset(r) <= multiset(stamped)
      && (forall x, i :: x in multiset(stamped) - multiset(r) && 0 <= i < |r| ==> Stamp(x) <= Stamp(r[i]))
  {
    IntOrders();
    var sorted := SortBy(stamped, Stamp, IntGe);
    var n := if |sorted| < 10 then |sorted| else 10;
    var r := sorted[..n];
    assert r == Recent(stamped);
    CutMultiset(sorted, n);
    SortedPrefix(sorted, Stamp, IntGe, n);
    forall x, i | x in multiset(stamped) - multiset(r) && 0 <= i < |r| ensures Stamp(x) <= Stamp(r[i]) {
      DroppedNotNewer(sorted, n, x, i);
    }
  }

  /** After the newest-first sort, whatever lies past position `n` is no newer than what lies before it. */
  lemma DroppedNotNewer(sorted: seq<Stamped>, n: nat, x: Stamped, i: nat)
    requires SortedBy(sorted, Stamp, IntGe) && i < n <= |sorted|
    requires x in multiset(sorted[n..])
    ensures Stamp(x) <= Stamp(sorted[i])
  {
    IntOrders();
    var rest := sorted[n..];
    var j :| 0 <= j < |rest| && rest[j] == x;
    SortedPairwise(sorted, Stamp, IntGe, i, n + j);
  }

  /** The entries of `contactFrequency` with their counts, in object key order. */
  function Entries(keys: seq<string>, frequency: map<string, nat>): (r: seq<(string, nat)>)
    ensures |r| == |keys| && forall i :: 0 <= i < |keys| ==> r[i].0 == keys[i]
  {
    seq(|keys|, i requires 0 <= i < |keys| => (keys[i], if keys[i] in frequency then frequency[keys[i]] else 0))
  }

  function Frequency(e: (string, nat)): int { e.1 }

  /** `Object.entries(contactFrequency).sort((a, b) => b[1] - a[1])[0]` */
  function MostFrequent(contacts: seq<string>, frequency: map<string, nat>): Option<(string, nat)> {
    IntOrders();
    var sorted := SortBy(Entries(OwnKeys(contacts), frequency), Frequency, IntGe);
    if sorted == [] then None else Some(sorted[0])
  }

  /** The most frequent contact is one of the contacts, and no contact was met more often. */
  lemma MostFrequentSpec(contacts: seq<string>, frequency: map<string, nat>)
    requires forall c :: c in frequency <==> c in contacts
    ensures MostFrequent(contacts, frequency).None? <==> contacts == []
    ensures MostFrequent(contacts, frequency).Some? ==>
      (var (c, n) := MostFrequent(contacts, frequency).value;
       c in contacts && n == frequency[c] && forall d :: d in frequency ==> frequency[d] <= n)
  {
    IntOrders();
    var keys := OwnKeys(contacts);
    var sorted := SortBy(Entries(keys, frequency), Frequency, IntGe);
    assert MostFrequent(contacts, frequency) == if sorted == [] then None else Some(sorted[0]);
    assert |keys| == |contacts| by { assert |multiset(keys)| == |multiset(contacts)|; }
    if sorted != [] {
      OwnKeysMembers(contacts);
      TopEntry(keys, frequency);
    }
  }

  /** The first entry after the sort names a key with its own count, and no count is larger. */
  lemma TopEntry(keys: seq<string>, frequency: map<string, nat>)
    requires forall c :: c in frequency <==> c in keys
    requires keys != []
    ensures (IntOrders(); var sorted := SortBy(Entries(keys, frequency), Frequency, IntGe);
      sorted[0].0 in keys && sorted[0].1 == frequency[sorted[0].0]
      && forall d :: d in frequency ==> frequency[d] <= sorted[0].1)
  {
    IntOrders();
    var entries := Entries(keys, frequency);
    var sorted := SortBy(entries, Frequency, IntGe);
    assert sorted[0] in multiset(entries);
    var k :| 0 <= k < |entries| && entries[k] == sorted[0];
    assert keys[k] in keys;
    TopEntryIsMax(entries);
    forall d | d in frequency ensures frequency[d] <= sorted[0].1 {
      var j :| 0 <= j < |keys| && keys[j] == d;
      assert entries[j].1 == frequency[d];
    }
  }

  /** The first entry after the descending sort has the largest count. */
  lemma TopEntryIsMax(entries: seq<(string, nat)>)
    requires entries != []
    ensures (IntOrders(); var sorted := SortBy(entries, Frequency, IntGe);
      forall j :: 0 <= j < |entries| ==> entries[j].1 <= sorted[0].1)
  {
    IntOrders();
    var sorted := SortBy(entries, Frequency, IntGe);
    forall j | 0 <= j < |entries| ensures entries[j].1 <= sorted[0].1 {
      assert entries[j] in multiset(sorted);
      var m :| 0 <= m < |sorted| && sorted[m] == entries[j];
      SortedPairwise(sorted, Frequency, IntGe, 0, m);
    }
  }

  /** Reordering the keys loses and adds none. */
  lemma OwnKeysMembers(keys: seq<string>)
    ensures forall k :: k in OwnKeys(keys) <==> k in keys
  {
    IntOrders();
    var sorted := SortBy(Filter(keys, IndexKey), KeyValue, IntLe);
    forall k ensures k in OwnKeys(keys) <==> k in keys {
      assert k in sorted <==> k in multiset(sorted);
      assert k in Filter(keys, IndexKey) <==> k in multiset(Filter(keys, IndexKey));
      if k in keys {
        var i :| 0 <= i < |keys| && keys[i] == k;
      }
      if k in OwnKeys(keys) {
        if k in sorted {
          var i :| 0 <= i < |Filter(keys, IndexKey)| && Filter(keys, IndexKey)[i] == k;
        } else {
          assert k in Filter(keys, NamedKey);
          var i :| 0 <= i < |Filter(keys, NamedKey)| && Filter(keys, NamedKey)[i] == k;
        }
      }
    }
  }

  /** `InteractionStats`. The histogram is by hour, position `h` holding the count of key `HourKey(h)`. */
  datatype InteractionStats = InteractionStats(
    totalInteractions: nat, callsOut: nat, callsIn: nat, smsOut: nat, smsIn: nat,
    uniqueContacts: nat, avgCallDurationSec: real, mostFrequentContact: Option<(string, nat)>,
    timePattern: seq<nat>, detectedPatterns: seq<string>, recentActivity: seq<Stamped>)

  /** The result object of lines 135-144, built from the counters. */
  function Summary(interactions: seq<Row>, fs: seq<Facts>, t: Tally): InteractionStats
    requires |interactions| == |fs|
  {
    InteractionStats(
      |interactions|, t.callsOut, t.callsIn, t.smsOut, t.smsIn, |t.contacts|,
      if t.callCount > 0 then (t.totalCallDuration as real) / (t.callCount as real) else 0.0,
      MostFrequent(t.contacts, t.frequency), t.timePattern,
      DetectedPatterns(|interactions|, t.nightCalls, t.callsOut, t.callsIn),
      Recent(Stamps(interactions, fs)))
  }

  /** The `stats` memo: nothing without a selected number or without listings. */
  function Stats(phone: Option<string>, listings: Option<seq<Row>>, clock: Clock): Option<InteractionStats> {
    if phone.None? || listings.None? then None
    else
      var interactions := Filter(listings.value, InteractionOf(phone.value));
      var fs := AllFacts(phone.value, interactions, clock);
      Some(Summary(interactions, fs, TallyOf(fs)))
  }

  /** What the profile promises about its figures. */
  lemma StatsSpec(phone: Option<string>, listings: Option<seq<Row>>, clock: Clock)
    ensures Stats(phone, listings, clock).None? <==> phone.None? || listings.None?
    ensures Stats(phone, listings, clock).Some? ==>
      (var s := Stats(phone, listings, clock).value;
       var rows := Filter(listings.value, InteractionOf(phone.value));
       && s.totalInteractions == |rows|
       && s.callsOut + s.callsIn + s.smsOut + s.smsIn == s.totalInteractions
       && 1 <= s.uniqueContacts + (if rows == [] then 1 else 0) && s.uniqueContacts <= s.totalInteractions
       && |s.timePattern| == 24 && HourSum(s.timePattern) <= s.totalInteractions
       && |s.recentActivity| <= 10
       && (s.avgCallDurationSec == 0.0 <==> Count(AllFacts(phone.value, rows, clock), IsTimedCall) == 0))
  {
    if phone.Some? && listings.Some? {
      var rows := Filter(listings.value, InteractionOf(phone.value));
      SummaryFigures(rows, AllFacts(phone.value, rows, clock));
    }
  }

  /** The figures of the summary, in terms of the interactions read. */
  lemma SummaryFigures(rows: seq<Row>, fs: seq<Facts>)
    requires |rows| == |fs|
    ensures var s := Summary(rows, fs, TallyOf(fs));
       && s.totalInteractions == |rows|
       && s.callsOut + s.callsIn + s.smsOut + s.smsIn == s.totalInteractions
       && 1 <= s.uniqueContacts + (if rows == [] then 1 else 0) && s.uniqueContacts <= s.totalInteractions
       && |s.timePattern| == 24 && HourSum(s.timePattern) <= s.totalInteractions
       && |s.recentActivity| <= 10
       && (s.avgCallDurationSec == 0.0 <==> Count(fs, IsTimedCall) == 0)
  {
    TallyCounts(fs);
    ContactsBound(fs);
    var t := TallyOf(fs);
    if t.callCount > 0 {
      TimedPositive(fs);
    }
  }

  /** There are at least one and at most as many contacts as interactions. */
  lemma ContactsBound(fs: seq<Facts>)
    ensures |TallyOf(fs).contacts| <= |fs|
    ensures fs != [] ==> |TallyOf(fs).contacts| >= 1
  {
    TallyContacts(fs);
    if fs != [] {
      assert ContactList(fs)[0] in Dedupe(ContactList(fs));
    }
  }

  /** Timed calls last at least a second each. */
  lemma {:induction false} TimedPositive(fs: seq<Facts>)
    ensures TimedSeconds(fs) >= Count(fs, IsTimedCall)
    decreases |fs|
  {
    if fs != [] {
      TimedPositive(fs[..|fs| - 1]);
    }
  }

  /** The callback of the `forEach` (lines 91-120): the counters after one more interaction. */
  method CountInteraction(t: Tally, f: Facts) returns (r: Tally)
    requires |t.timePattern| == 24
    ensures r == Step(t, f)
  {
    var contacts, frequency, timePattern := t.contacts, t.frequency, t.timePattern;
    var totalCallDuration, callCount, nightCalls := t.totalCallDuration, t.callCount, t.nightCalls;
    var callsOut, callsIn, smsOut, smsIn := t.callsOut, t.callsIn, t.smsOut, t.smsIn;
    if f.contact !in contacts {
      contacts := contacts + [f.contact];
    }
    frequency := frequency[f.contact := (if f.contact in frequency then frequency[f.contact] else 0) + 1];
    if f.duration.isSms {
      if f.outgoing { smsOut := smsOut + 1; } else { smsIn := smsIn + 1; }
    } else {
      if f.outgoing { callsOut := callsOut + 1; } else { callsIn := callsIn + 1; }
      if f.duration.seconds > 0 {
        totalCallDuration := totalCallDuration + f.duration.seconds;
        callCount := callCount + 1;
      }
    }
    if f.hour.Some? {
      var h := f.hour.value;
      timePattern := timePattern[h := timePattern[h] + 1];
      if IsNight(h) {
        nightCalls := nightCalls + 1;
      }
    }
    r := Tally(contacts, frequency, timePattern, totalCallDuration, callCount, nightCalls,
               callsOut, callsIn, smsOut, smsIn);
  }

  /** The `forEach` of lines 90-121: the counters updated one interaction at a time. */
  method TallyInteractions(fs: seq<Facts>) returns (t: Tally)
    ensures t == TallyOf(fs)
  {
    t := Start();
    var i := 0;
    while i < |fs|
      invariant 0 <= i <= |fs|
      invariant t == TallyOf(fs[..i])
    {
      TallyNext(fs, i);
      t := CountInteraction(t, fs[i]);
      i := i + 1;
    }
    assert fs[..i] == fs;
  }

  /** The counters after one more interaction. */
  lemma TallyNext(fs: seq<Facts>, i: nat)
    requires i < |fs|
    ensures TallyOf(fs[..i + 1]) == Step(TallyOf(fs[..i]), fs[i])
  {
    assert fs[..i + 1][..i] == fs[..i];
  }

  /** The `stats` memo: select the interactions, read each one, count, then summarise. */
  method ComputeStats(phone: Option<string>, listings: Option<seq<Row>>, clock: Clock)
    returns (r: Option<InteractionStats>)
    ensures r == Stats(phone, listings, clock)
  {
    if phone.None? || listings.None? {
      return None;
    }
    var interactions := Filter(listings.value, InteractionOf(phone.value));
    var fs := AllFacts(phone.value, interactions, clock);
    var t := TallyInteractions(fs);
    r := Some(Summary(interactions, fs, t));
  }

  /** How `formatDuration` words a number of seconds. */
  datatype DurationText = Seconds(s: int) | Minutes(m: int) | HoursMinutes(h: int, m: int)

  function Render(d: DurationText): string {
    match d
    case Seconds(s) => IntToString(s) + "s"
    case Minutes(m) => IntToString(m) + "m"
    case HoursMinutes(h, m) => IntToString(h) + "h " + IntToString(m) + "m"
  }

  /** Every displayed part is below the next unit. */
  predicate PartsBelowSixty(d: DurationText) {
    match d
    case Seconds(s) => s < 60
    case Minutes(m) => m < 60
    case HoursMinutes(_, m) => m < 60
  }

  /** `formatDuration` as written: each branch rounds on its own. */
  function FormatDurationAsWritten(seconds: real): DurationText {
    if seconds < 60.0 then Seconds(LC.Round(seconds))
    else if seconds < 3600.0 then Minutes(LC.Round(seconds / 60.0))
    else
      var hours := (seconds / 3600.0).Floor;
      HoursMinutes(hours, LC.Round((seconds - 3600.0 * hours as real) / 60.0))
  }

  /** 7170 seconds are written "1h 60m": the rounded minutes do not carry into the hours. */
  lemma FormatDurationCarryMissing()
    ensures FormatDurationAsWritten(7170.0) == HoursMinutes(1, 60)
    ensures !PartsBelowSixty(FormatDurationAsWritten(7170.0))
  {
    assert (7170.0 / 3600.0).Floor == 1;
    assert (7170.0 - 3600.0) / 60.0 == 59.5;
  }

  /** `formatDuration` with the rounding carried into the next unit. */
  function FormatDuration(seconds: real): (d: DurationText)
    ensures seconds >= 0.0 ==> PartsBelowSixty(d)
    ensures seconds >= 0.0 && d.HoursMinutes? ==> d.h * 60 + d.m == LC.Round(seconds / 60.0) && 0 <= d.m
  {
    var secs := LC.Round(seconds);
    if secs < 60 then Seconds(secs)
    else
      var mins := LC.Round(seconds / 60.0);
      if mins < 60 then Minutes(mins) else HoursMinutes(mins / 60, mins % 60)
  }

  /** Wherever the written version shows proper parts, the corrected one shows the same text. */
  lemma FormatDurationAgrees(seconds: real)
    requires seconds >= 0.0 && PartsBelowSixty(FormatDurationAsWritten(seconds))
    ensures FormatDuration(seconds) == FormatDurationAsWritten(seconds)
  {
    if seconds >= 60.0 {
      assert LC.Round(seconds) >= 60;
      if seconds >= 3600.0 {
        var hours := (seconds / 3600.0).Floor;
        var x := seconds / 60.0;
        assert (seconds - 3600.0 * hours as real) / 60.0 == x - (60 * hours) as real;
        RoundShift(x, 60 * hours);
        assert hours >= 1;
      }
    }
  }

  /** Rounding commutes with subtracting a whole number. */
  lemma RoundShift(x: real, k: int)
    ensures LC.Round(x - k as real) == LC.Round(x) - k
  {
  }

  /** `getActivityColor`: the band of a histogram cell against the busiest hour. */
  function ActivityBand(value: nat, max: nat): (b: nat)
    ensures b <= 4
    ensures b == 0 <==> max == 0 || value == 0
  {
    if max == 0 || value == 0 then 0
    else
      var intensity := (value as real) / (max as real);
      if intensity <= 0.25 then 1 else if intensity <= 0.5 then 2 else if intensity <= 0.75 then 3 else 4
  }

  function ActivityColor(value: nat, max: nat): string {
    ["bg-muted/50", "bg-green-300", "bg-yellow-300", "bg-orange-300", "bg-red-400"][ActivityBand(value, max)]
  }

  /** A busier hour never gets a cooler colour, and the busiest one is red. */
  lemma ActivityBandMonotone(a: nat, b: nat, max: nat)
    requires a <= b
    ensures ActivityBand(a, max) <= ActivityBand(b, max)
    ensures 0 < max ==> ActivityBand(max, max) == 4
  {
    if max > 0 && a > 0 {
      assert (a as real) / (max as real) <= (b as real) / (max as real);
    }
  }

  /** `Math.max(...Object.values(stats.timePattern), 1)` */
  function MaxActivity(tp: seq<nat>): (m: nat)
    ensures m >= 1 && forall i :: 0 <= i < |tp| ==> tp[i] <= m
    ensures m == 1 || exists i :: 0 <= i < |tp| && tp[i] == m
    decreases |tp|
  {
    if tp == [] then 1
    else
      var rest := MaxActivity(tp[1..]);
      if tp[0] > rest then tp[0] else rest
  }

  /** The "Activity Score" card: the interaction count, capped at 100. */
  function ActivityScore(totalInteractions: nat): (score: nat)
    ensures score <= 100 && score <= totalInteractions
    ensures totalInteractions <= 100 ==> score == totalInteractions
  {
    if totalInteractions < 100 then totalInteractions else 100
  }
}
