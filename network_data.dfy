/**
 * The call-network aggregation (`hooks/useNetworkData.ts`): every listing row
 * is read into a contact between two cleaned numbers, per-number and per-pair
 * counters are accumulated in insertion-ordered maps, and the counters are
 * turned into filtered graph nodes and edges.
 */
module NetworkData {
  import opened Common
  import opened Text
  import opened Rows
  import opened FieldLookup
  import opened NetworkGraphUtils
  import opened Sorting

  const CallerFields: seq<string> := ["caller_num", "caller", "calling_number", "from_number", "source_number",
    "num\U{00E9}ro appelant", "numero appelant", "appelant", "\U{00E9}metteur", "emetteur"]
  const CalleeFields: seq<string> := ["callee_num", "callee", "called_number", "to_number", "destination_number",
    "num\U{00E9}ro appel\U{00E9}", "numero appele", "appel\U{00E9}", "appele", "destinataire", "r\U{00E9}cepteur", "recepteur"]
  const DurationFields: seq<string> := ["duration", "duration_str", "call_duration", "length",
    "dur\U{00E9}e", "duree", "dur\U{00E9}e appel", "duree appel"]
  const ImeiFields: seq<string> := ["imei", "device_id", "imei_caller", "imei_source"]
  const LocationFields: seq<string> := ["location", "caller_location", "source_location", "localisation",
    "localisation num\U{00E9}ro appelant", "localisation numero appelant"]

  datatype InteractionType = All | Calls | Sms

  /** The graph filters; the date range is carried but not applied by this aggregation. */
  datatype Filters = Filters(interactionType: InteractionType, dateStart: string, dateEnd: string,
                             individuals: seq<string>, minInteractions: int)

  /** What one listing row contributes: its cleaned numbers, its duration reading and the device data found on it. */
  datatype Contact = Contact(caller: Option<string>, callee: Option<string>, duration: DurationInfo,
                             imei: Option<string>, location: Option<string>)

  /** `value ? cleanPhoneNumber(value) : null` */
  function Clean(v: Option<string>): (r: Option<string>)
    ensures r.Some? ==> |r.value| >= 7 && AllPhoneChars(r.value)
  {
    if v.None? then None else CleanPhoneNumber(v.value)
  }

  /** Both numbers of a contact are cleaned, and at least one is present. */
  predicate CleanContact(c: Contact) {
    (c.caller.Some? || c.callee.Some?) &&
    (c.caller.Some? ==> AllPhoneChars(c.caller.value)) &&
    (c.callee.Some? ==> AllPhoneChars(c.callee.value))
  }

  /** Reading one row (lines 62-75): rows without any usable number are skipped. */
  function ReadContact(row: Row): (c: Option<Contact>)
    ensures c.Some? ==> CleanContact(c.value)
  {
    var caller := FieldValue(FoldAccents, row, CallerFields);
    var callee := FieldValue(FoldAccents, row, CalleeFields);
    var durationStr := FieldValue(FoldAccents, row, DurationFields);
    var imei := FieldValue(FoldAccents, row, ImeiFields);
    var location := FieldValue(FoldAccents, row, LocationFields);
    if caller.None? && callee.None? then None
    else
      var cleanCaller := Clean(caller);
      var cleanCallee := Clean(callee);
      if cleanCaller.None? && cleanCallee.None? then None
      else Some(Contact(cleanCaller, cleanCallee, ParseDuration(durationStr), imei, location))
  }

  function ReadAll(rows: seq<Row>): (cs: seq<Option<Contact>>)
    ensures |cs| == |rows|
    ensures forall i :: 0 <= i < |cs| ==> cs[i] == ReadContact(rows[i])
  {
    seq(|rows|, i requires 0 <= i < |rows| => ReadContact(rows[i]))
  }

  /** The counters kept for one number. */
  datatype Stats = Stats(calls: nat, sms: nat, totalDuration: nat, contacts: set<string>,
                         imei: Option<string>, location: Option<string>)

  /** The counters kept for one pair of numbers. */
  datatype EdgeStats = EdgeStats(calls: nat, sms: nat, totalDuration: nat)

  /** The two `Map`s of the hook, each with its keys in insertion order. */
  datatype Tally = Tally(stats: map<string, Stats>, phones: seq<string>,
                         edges: map<string, EdgeStats>, edgeKeys: seq<string>)

  const EmptyTally: Tally := Tally(map[], [], map[], [])

  ghost predicate WellFormed(t: Tally) {
    (forall p :: p in t.stats <==> p in t.phones) && Distinct(t.phones) &&
    (forall k :: k in t.edges <==> k in t.edgeKeys) && Distinct(t.edgeKeys)
  }

  function FreshStats(imei: Option<string>, location: Option<string>): Stats {
    Stats(0, 0, 0, {}, imei, location)
  }

  /** One more record for a number: an SMS, or a call adding its seconds. */
  function CountStats(s: Stats, d: DurationInfo): (r: Stats)
    ensures r.calls + r.sms == s.calls + s.sms + 1
    ensures r.contacts == s.contacts && r.imei == s.imei && r.location == s.location
    ensures StatsFigures(r) == AddFigures(StatsFigures(s), Appearance(d))
  {
    if d.isSms then s.(sms := s.sms + 1)
    else s.(calls := s.calls + 1, totalDuration := s.totalDuration + d.seconds)
  }

  function CountEdge(e: EdgeStats, d: DurationInfo): (r: EdgeStats)
    ensures r.calls + r.sms == e.calls + e.sms + 1
  {
    if d.isSms then e.(sms := e.sms + 1)
    else e.(calls := e.calls + 1, totalDuration := e.totalDuration + d.seconds)
  }

  /** Lines 78-83 (and 87-92): when the number `q` is present, create its entry if needed, count the record and note the other party. */
  function Touch(t: Tally, q: Option<string>, d: DurationInfo, other: Option<string>,
                 imei: Option<string>, location: Option<string>): (r: Tally)
    ensures r.edges == t.edges && r.edgeKeys == t.edgeKeys
  {
    if q.None? then t
    else
      var p := q.value;
      var stats := if p in t.stats then t.stats else t.stats[p := FreshStats(imei, location)];
      var phones := if p in t.stats then t.phones else t.phones + [p];
      var s := CountStats(stats[p], d);
      var s' := if other.Some? then s.(contacts := s.contacts + {other.value}) else s;
      t.(stats := stats[p := s'], phones := phones)
  }

  /** Lines 77-93: the entries of both numbers of a row, the caller first. */
  function TouchBoth(t: Tally, k: Contact): (r: Tally)
    ensures r.edges == t.edges && r.edgeKeys == t.edgeKeys
  {
    Touch(Touch(t, k.caller, k.duration, k.callee, k.imei, k.location), k.callee, k.duration, k.caller, None, None)
  }

  /** `[a, b].sort().join('|')` */
  function EdgeKey(a: string, b: string): string {
    Join(SortPair(a, b), "|")
  }

  /** The edge a contact counts toward, when it has both numbers. */
  function EdgeOf(c: Option<Contact>): Option<string> {
    if c.Some? && c.value.caller.Some? && c.value.callee.Some? then
      Some(EdgeKey(c.value.caller.value, c.value.callee.value))
    else None
  }

  /** Lines 95-102: the counter of the pair, created on first use. */
  function CountPair(t: Tally, key: Option<string>, d: DurationInfo): (r: Tally)
    ensures r.stats == t.stats && r.phones == t.phones
  {
    match key
    case None => t
    case Some(key) =>
      var edges := if key in t.edges then t.edges else t.edges[key := EdgeStats(0, 0, 0)];
      var keys := if key in t.edges then t.edgeKeys else t.edgeKeys + [key];
      t.(edges := edges[key := CountEdge(edges[key], d)], edgeKeys := keys)
  }

  /** The effect of one row on the counters (lines 77-102). */
  function Step(t: Tally, c: Option<Contact>): Tally {
    if c.None? then t else CountPair(TouchBoth(t, c.value), EdgeOf(c), c.value.duration)
  }

  /** The counters after the rows read so far. */
  function Aggregate(cs: seq<Option<Contact>>): Tally
    decreases |cs|
  {
    if cs == [] then EmptyTally else Step(Aggregate(cs[..|cs| - 1]), cs[|cs| - 1])
  }

  /** The body of the `forEach` (lines 77-102): the counters of both numbers and of their pair are updated. */
  method Record(t: Tally, c: Option<Contact>) returns (r: Tally)
    ensures r == Step(t, c)
  {
    var stats, phones, edges, edgeKeys := t.stats, t.phones, t.edges, t.edgeKeys;
    if c.Some? {
      var k := c.value;
      if k.caller.Some? {
        var p := k.caller.value;
        if p !in stats {
          stats := stats[p := FreshStats(k.imei, k.location)];
          phones := phones + [p];
        }
        var s := CountStats(stats[p], k.duration);
        if k.callee.Some? {
          s := s.(contacts := s.contacts + {k.callee.value});
        }
        stats := stats[p := s];
      }
      if k.callee.Some? {
        var p := k.callee.value;
        if p !in stats {
          stats := stats[p := FreshStats(None, None)];
          phones := phones + [p];
        }
        var s := CountStats(stats[p], k.duration);
        if k.caller.Some? {
          s := s.(contacts := s.contacts + {k.caller.value});
        }
        stats := stats[p := s];
      }
      if k.caller.Some? && k.callee.Some? {
        var key := EdgeKey(k.caller.value, k.callee.value);
        if key !in edges {
          edges := edges[key := EdgeStats(0, 0, 0)];
          edgeKeys := edgeKeys + [key];
        }
        edges := edges[key := CountEdge(edges[key], k.duration)];
      }
    }
    r := Tally(stats, phones, edges, edgeKeys);
  }

  /** The `forEach` over the listings (lines 59-103). */
  method Tabulate(listings: seq<Row>) returns (t: Tally)
    ensures t == Aggregate(ReadAll(listings))
  {
    ghost var cs := ReadAll(listings);
    t := EmptyTally;
    var i := 0;
    while i < |listings|
      invariant 0 <= i <= |listings|
      invariant t == Aggregate(cs[..i])
    {
      AggregateNext(cs, i);
      t := Record(t, ReadContact(listings[i]));
      i := i + 1;
    }
    assert cs[..|listings|] == cs;
  }

  /** The counters after one more row. */
  lemma AggregateNext(cs: seq<Option<Contact>>, i: nat)
    requires i < |cs|
    ensures Aggregate(cs[..i + 1]) == Step(Aggregate(cs[..i]), cs[i])
  {
    assert cs[..i + 1][..i] == cs[..i];
  }

  // ----- What the counters mean -----

  /** How often `p` appears as a cleaned number of a row: twice for a call from `p` to itself. */
  function Mentions(c: Option<Contact>, p: string): nat {
    if c.None? then 0
    else (if c.value.caller == Some(p) then 1 else 0) + (if c.value.callee == Some(p) then 1 else 0)
  }

  function TotalMentions(cs: seq<Option<Contact>>, p: string): nat
    decreases |cs|
  {
    if cs == [] then 0 else TotalMentions(cs[..|cs| - 1], p) + Mentions(cs[|cs| - 1], p)
  }

  /** The records counted for `p` so far, zero when `p` has no entry. */
  function Counted(t: Tally, p: string): nat {
    if p in t.stats then t.stats[p].calls + t.stats[p].sms else 0
  }

  lemma TouchCounts(t: Tally, q: Option<string>, d: DurationInfo, other: Option<string>,
                    imei: Option<string>, location: Option<string>, p: string)
    ensures var t' := Touch(t, q, d, other, imei, location);
      (p in t'.stats <==> p in t.stats || q == Some(p)) &&
      Counted(t', p) == Counted(t, p) + (if q == Some(p) then 1 else 0)
  {
    var r := Touch(t, q, d, other, imei, location);
    if q.Some? && q.value != p {
      assert q != Some(p);
      assert p in r.stats <==> p in t.stats;
      assert p in t.stats ==> r.stats[p] == t.stats[p];
    } else if q.Some? {
      assert q == Some(p);
    } else {
      assert r == t && q != Some(p);
    }
  }

  lemma StepCounts(t: Tally, c: Option<Contact>, p: string)
    ensures p in Step(t, c).stats <==> p in t.stats || Mentions(c, p) > 0
    ensures Counted(Step(t, c), p) == Counted(t, p) + Mentions(c, p)
  {
    if c.Some? {
      var k := c.value;
      var t1 := Touch(t, k.caller, k.duration, k.callee, k.imei, k.location);
      TouchCounts(t, k.caller, k.duration, k.callee, k.imei, k.location, p);
      TouchCounts(t1, k.callee, k.duration, k.caller, None, None, p);
      assert Step(t, c).stats == TouchBoth(t, k).stats;
    }
  }

  /** Every number of every row has an entry, and its calls plus SMS count exactly its appearances. */
  lemma {:induction false} InteractionCount(cs: seq<Option<Contact>>, p: string)
    ensures p in Aggregate(cs).stats <==> TotalMentions(cs, p) > 0
    ensures Counted(Aggregate(cs), p) == TotalMentions(cs, p)
    decreases |cs|
  {
    if cs != [] {
      InteractionCount(cs[..|cs| - 1], p);
      StepCounts(Aggregate(cs[..|cs| - 1]), cs[|cs| - 1], p);
    }
  }

  // ----- The three counters of a number, and its device data -----

  const NoFigures: EdgeStats := EdgeStats(0, 0, 0)

  /** The counters of `p`, all zero when `p` has no entry. */
  function Figures(t: Tally, p: string): EdgeStats {
    if p in t.stats then StatsFigures(t.stats[p]) else NoFigures
  }

  function StatsFigures(s: Stats): EdgeStats {
    EdgeStats(s.calls, s.sms, s.totalDuration)
  }

  function AddFigures(a: EdgeStats, b: EdgeStats): EdgeStats {
    EdgeStats(a.calls + b.calls, a.sms + b.sms, a.totalDuration + b.totalDuration)
  }

  lemma AddNothing(a: EdgeStats)
    ensures AddFigures(a, NoFigures) == a
  {
    assert NoFigures == EdgeStats(0, 0, 0);
  }

  lemma AddAssociative(x: EdgeStats, y: EdgeStats, z: EdgeStats)
    ensures AddFigures(AddFigures(x, y), z) == AddFigures(x, AddFigures(y, z))
  {
  }

  /** One appearance: an SMS counts one SMS; a call counts one call and its seconds. */
  function Appearance(d: DurationInfo): EdgeStats {
    if d.isSms then EdgeStats(0, 1, 0) else EdgeStats(1, 0, d.seconds)
  }

  /** What a row adds for `p`: one appearance as caller and one as callee. */
  function RowFigures(c: Option<Contact>, p: string): EdgeStats {
    if c.None? then NoFigures
    else
      var once := Appearance(c.value.duration);
      AddFigures(if c.value.caller == Some(p) then once else NoFigures,
                 if c.value.callee == Some(p) then once else NoFigures)
  }

  function SumFigures(cs: seq<Option<Contact>>, p: string): EdgeStats
    decreases |cs|
  {
    if cs == [] then NoFigures else AddFigures(SumFigures(cs[..|cs| - 1], p), RowFigures(cs[|cs| - 1], p))
  }

  lemma TouchFigures(t: Tally, q: Option<string>, d: DurationInfo, other: Option<string>,
                     imei: Option<string>, location: Option<string>, p: string)
    ensures Figures(Touch(t, q, d, other, imei, location), p) ==
      AddFigures(Figures(t, p), if q == Some(p) then Appearance(d) else NoFigures)
  {
    var r := Touch(t, q, d, other, imei, location);
    if q.Some? {
      var x := q.value;
      var stats := if x in t.stats then t.stats else t.stats[x := FreshStats(imei, location)];
      var counted := CountStats(stats[x], d);
      var s' := if other.Some? then counted.(contacts := counted.contacts + {other.value}) else counted;
      assert r.stats == stats[x := s'];
      if x != p {
        assert p in r.stats <==> p in t.stats;
        assert Figures(r, p) == Figures(t, p);
        assert q != Some(p);
        AddNothing(Figures(t, p));
      } else {
        assert q == Some(p);
        assert Figures(t, p) == StatsFigures(stats[x]);
        assert Figures(r, p) == StatsFigures(counted);
        assert Figures(r, p) == AddFigures(Figures(t, p), Appearance(d));
      }
    } else {
      assert q != Some(p);
      AddNothing(Figures(t, p));
    }
  }

  lemma TouchBothFigures(t: Tally, k: Contact, p: string)
    ensures Figures(TouchBoth(t, k), p) == AddFigures(Figures(t, p), RowFigures(Some(k), p))
  {
    var t1 := Touch(t, k.caller, k.duration, k.callee, k.imei, k.location);
    var once := Appearance(k.duration);
    var a := if k.caller == Some(p) then once else NoFigures;
    var b := if k.callee == Some(p) then once else NoFigures;
    TouchFigures(t, k.caller, k.duration, k.callee, k.imei, k.location, p);
    TouchFigures(t1, k.callee, k.duration, k.caller, None, None, p);
    assert RowFigures(Some(k), p) == AddFigures(a, b);
    AddAssociative(Figures(t, p), a, b);
  }

  lemma SameFigures(t: Tally, u: Tally, p: string)
    requires t.stats == u.stats
    ensures Figures(t, p) == Figures(u, p)
  {
  }

  lemma StepFigures(t: Tally, c: Option<Contact>, p: string)
    ensures Figures(Step(t, c), p) == AddFigures(Figures(t, p), RowFigures(c, p))
  {
    if c.Some? {
      TouchBothFigures(t, c.value, p);
      StepStats(t, c.value);
      SameFigures(Step(t, c), TouchBoth(t, c.value), p);
    } else {
      AddNothing(Figures(t, p));
    }
  }

  /**
   * A number's `calls` counts its appearances on rows that are not SMS, its `sms` its appearances
   * on SMS rows, and its `totalDuration` adds the seconds of the calls alone.
   */
  lemma {:induction false} AggregateFigures(cs: seq<Option<Contact>>, p: string)
    ensures Figures(Aggregate(cs), p) == SumFigures(cs, p)
    decreases |cs|
  {
    if cs != [] {
      AggregateFigures(cs[..|cs| - 1], p);
      StepFigures(Aggregate(cs[..|cs| - 1]), cs[|cs| - 1], p);
    }
  }

  lemma AggregateSnoc(cs: seq<Option<Contact>>, c: Option<Contact>)
    ensures Aggregate(cs + [c]) == Step(Aggregate(cs), c)
  {
    assert (cs + [c])[..|cs|] == cs;
  }

  /** Later rows never change the device data of an entry that exists. */
  lemma StepKeepsDevice(t: Tally, c: Option<Contact>, p: string)
    requires p in t.stats
    ensures p in Step(t, c).stats
    ensures Step(t, c).stats[p].imei == t.stats[p].imei && Step(t, c).stats[p].location == t.stats[p].location
  {
    if c.Some? {
      var k := c.value;
      var t1 := Touch(t, k.caller, k.duration, k.callee, k.imei, k.location);
      TouchKeepsDevice(t, k.caller, k.duration, k.callee, k.imei, k.location, p);
      TouchKeepsDevice(t1, k.callee, k.duration, k.caller, None, None, p);
      StepStats(t, k);
    }
  }

  lemma TouchKeepsDevice(t: Tally, q: Option<string>, d: DurationInfo, other: Option<string>,
                         imei: Option<string>, location: Option<string>, p: string)
    requires p in t.stats
    ensures var r := Touch(t, q, d, other, imei, location);
      p in r.stats && r.stats[p].imei == t.stats[p].imei && r.stats[p].location == t.stats[p].location
  {
  }

  /** The row that creates an entry gives it the row's device data when it names `p` as caller, none otherwise. */
  lemma StepCreatesDevice(t: Tally, c: Option<Contact>, p: string)
    requires p !in t.stats && c.Some? && Mentions(c, p) > 0
    ensures p in Step(t, c).stats
    ensures Step(t, c).stats[p].imei == (if c.value.caller == Some(p) then c.value.imei else None)
    ensures Step(t, c).stats[p].location == (if c.value.caller == Some(p) then c.value.location else None)
  {
    assert Step(t, c).stats == TouchBoth(t, c.value).stats;
  }

  lemma {:induction false} DeviceKept(q: seq<Option<Contact>>, post: seq<Option<Contact>>, p: string)
    requires p in Aggregate(q).stats
    ensures p in Aggregate(q + post).stats
    ensures Aggregate(q + post).stats[p].imei == Aggregate(q).stats[p].imei
    ensures Aggregate(q + post).stats[p].location == Aggregate(q).stats[p].location
    decreases |post|
  {
    if post == [] {
      assert q + post == q;
    } else {
      var front := post[..|post| - 1];
      DeviceKept(q, front, p);
      assert q + post == (q + front) + [post[|post| - 1]];
      AggregateSnoc(q + front, post[|post| - 1]);
      StepKeepsDevice(Aggregate(q + front), post[|post| - 1], p);
    }
  }

  /**
   * A number's IMEI and location are those of the first row it appears on when it appears there as
   * caller, and stay absent when it first appears as callee, whatever rows follow.
   */
  lemma FirstCreation(pre: seq<Option<Contact>>, c: Option<Contact>, post: seq<Option<Contact>>, p: string)
    requires TotalMentions(pre, p) == 0 && c.Some? && Mentions(c, p) > 0
    ensures p in Aggregate(pre + [c] + post).stats
    ensures Aggregate(pre + [c] + post).stats[p].imei == (if c.value.caller == Some(p) then c.value.imei else None)
    ensures Aggregate(pre + [c] + post).stats[p].location == (if c.value.caller == Some(p) then c.value.location else None)
  {
    InteractionCount(pre, p);
    AggregateSnoc(pre, c);
    StepCreatesDevice(Aggregate(pre), c, p);
    DeviceKept(pre + [c], post, p);
  }

  /** The keys of both maps are exactly their recorded insertion orders, without repetition. */
  lemma {:induction false} AggregateWellFormed(cs: seq<Option<Contact>>)
    ensures WellFormed(Aggregate(cs))
    decreases |cs|
  {
    if cs != [] {
      AggregateWellFormed(cs[..|cs| - 1]);
      StepWellFormed(Aggregate(cs[..|cs| - 1]), cs[|cs| - 1]);
    }
  }

  lemma TouchWellFormed(t: Tally, q: Option<string>, d: DurationInfo, other: Option<string>,
                        imei: Option<string>, location: Option<string>)
    requires WellFormed(t)
    ensures WellFormed(Touch(t, q, d, other, imei, location))
  {
    if q.Some? && q.value !in t.stats {
      var ps := t.phones + [q.value];
      assert forall i :: 0 <= i < |t.phones| ==> ps[i] == t.phones[i];
    }
  }

  lemma StepWellFormed(t: Tally, c: Option<Contact>)
    requires WellFormed(t)
    ensures WellFormed(Step(t, c))
  {
    if c.Some? {
      var k := c.value;
      var t1 := Touch(t, k.caller, k.duration, k.callee, k.imei, k.location);
      TouchWellFormed(t, k.caller, k.duration, k.callee, k.imei, k.location);
      TouchWellFormed(t1, k.callee, k.duration, k.caller, None, None);
      CountPairWellFormed(TouchBoth(t, k), EdgeOf(c), k.duration);
    }
  }

  lemma CountPairWellFormed(t: Tally, key: Option<string>, d: DurationInfo)
    requires WellFormed(t)
    ensures WellFormed(CountPair(t, key, d))
  {
    if key.Some? && key.value !in t.edges {
      var ks := t.edgeKeys + [key.value];
      assert forall i :: 0 <= i < |t.edgeKeys| ==> ks[i] == t.edgeKeys[i];
    }
  }

  /** Contacts are mutual: whenever `q` is a contact of `p`, `p` has an entry among the contacts of `q`. */
  ghost predicate MutualContacts(t: Tally) {
    forall p, q :: p in t.stats && q in t.stats[p].contacts ==> q in t.stats && p in t.stats[q].contacts
  }

  /** The contacts a row adds to `p`. */
  function Added(c: Contact, p: string): set<string> {
    (if c.caller == Some(p) && c.callee.Some? then {c.callee.value} else {}) +
    (if c.callee == Some(p) && c.caller.Some? then {c.caller.value} else {})
  }

  function ContactsOf(t: Tally, p: string): set<string> {
    if p in t.stats then t.stats[p].contacts else {}
  }

  lemma TouchContacts(t: Tally, q: Option<string>, d: DurationInfo, other: Option<string>,
                      imei: Option<string>, location: Option<string>, p: string)
    ensures ContactsOf(Touch(t, q, d, other, imei, location), p) ==
            ContactsOf(t, p) + (if q == Some(p) && other.Some? then {other.value} else {})
  {
  }

  /** A row changes the number entries only through `TouchBoth`. */
  lemma StepStats(t: Tally, c: Contact)
    ensures Step(t, Some(c)).stats == TouchBoth(t, c).stats
  {
  }

  lemma StepContacts(t: Tally, c: Contact, p: string)
    ensures ContactsOf(Step(t, Some(c)), p) == ContactsOf(t, p) + Added(c, p)
  {
    StepStats(t, c);
    var t1 := Touch(t, c.caller, c.duration, c.callee, c.imei, c.location);
    TouchContacts(t, c.caller, c.duration, c.callee, c.imei, c.location, p);
    TouchContacts(t1, c.callee, c.duration, c.caller, None, None, p);
  }

  /** One pair of the symmetry argument: a contact either was mutual already or was added by this row to both ends. */
  lemma StepMutualPair(t: Tally, c: Contact, p: string, q: string)
    requires MutualContacts(t)
    requires q in ContactsOf(Step(t, Some(c)), p)
    ensures q in Step(t, Some(c)).stats && p in ContactsOf(Step(t, Some(c)), q)
  {
    StepContacts(t, c, p);
    StepContacts(t, c, q);
    StepCounts(t, Some(c), q);
    if q in ContactsOf(t, p) {
      assert p in t.stats && q in t.stats[p].contacts;
      assert p in ContactsOf(t, q);
    } else {
      assert q in Added(c, p);
      assert p in Added(c, q);
    }
  }

  lemma StepMutual(t: Tally, c: Option<Contact>)
    requires MutualContacts(t)
    ensures MutualContacts(Step(t, c))
  {
    if c.Some? {
      var t' := Step(t, c);
      forall p, q | p in t'.stats && q in t'.stats[p].contacts
        ensures q in t'.stats && p in t'.stats[q].contacts
      {
        assert q in ContactsOf(t', p);
        StepMutualPair(t, c.value, p, q);
      }
    }
  }

  /** However the rows arrive, the contact relation the counters record is symmetric. */
  lemma {:induction false} AggregateMutual(cs: seq<Option<Contact>>)
    ensures MutualContacts(Aggregate(cs))
    decreases |cs|
  {
    if cs != [] {
      AggregateMutual(cs[..|cs| - 1]);
      StepMutual(Aggregate(cs[..|cs| - 1]), cs[|cs| - 1]);
    }
  }

  /** Calling and being called count toward the same edge. */
  lemma EdgeKeySymmetric(a: string, b: string)
    ensures EdgeKey(a, b) == EdgeKey(b, a)
  {
    SortPairSymmetric(a, b);
  }

  function EdgeMentions(cs: seq<Option<Contact>>, key: string): nat
    decreases |cs|
  {
    if cs == [] then 0
    else EdgeMentions(cs[..|cs| - 1], key) + (if EdgeOf(cs[|cs| - 1]) == Some(key) then 1 else 0)
  }

  function EdgeCounted(t: Tally, key: string): nat {
    if key in t.edges then t.edges[key].calls + t.edges[key].sms else 0
  }

  /** The counters of a pair, all zero when the pair has no entry. */
  function PairFigures(t: Tally, key: string): EdgeStats {
    if key in t.edges then t.edges[key] else NoFigures
  }

  /** What a row adds to a pair: one appearance when the row joins exactly that pair. */
  function RowPairFigures(c: Option<Contact>, key: string): EdgeStats {
    if EdgeOf(c) == Some(key) then Appearance(c.value.duration) else NoFigures
  }

  function SumPairFigures(cs: seq<Option<Contact>>, key: string): EdgeStats
    decreases |cs|
  {
    if cs == [] then NoFigures else AddFigures(SumPairFigures(cs[..|cs| - 1], key), RowPairFigures(cs[|cs| - 1], key))
  }

  lemma CountEdgeFigures(e: EdgeStats, d: DurationInfo)
    ensures CountEdge(e, d) == AddFigures(e, Appearance(d))
  {
  }

  lemma StepPairFigures(t: Tally, c: Option<Contact>, key: string)
    ensures PairFigures(Step(t, c), key) == AddFigures(PairFigures(t, key), RowPairFigures(c, key))
  {
    if EdgeOf(c) == Some(key) {
      var t1 := TouchBoth(t, c.value);
      var base := if key in t1.edges then t1.edges[key] else EdgeStats(0, 0, 0);
      CountEdgeFigures(base, c.value.duration);
      assert Step(t, c).edges[key] == CountEdge(base, c.value.duration);
    } else {
      assert PairFigures(Step(t, c), key) == PairFigures(t, key);
      AddNothing(PairFigures(t, key));
    }
  }

  /** A pair's `calls` counts its rows that are not SMS, its `sms` its SMS rows, and its `totalDuration` the seconds of its calls. */
  lemma {:induction false} AggregatePairFigures(cs: seq<Option<Contact>>, key: string)
    ensures PairFigures(Aggregate(cs), key) == SumPairFigures(cs, key)
    decreases |cs|
  {
    if cs != [] {
      AggregatePairFigures(cs[..|cs| - 1], key);
      StepPairFigures(Aggregate(cs[..|cs| - 1]), cs[|cs| - 1], key);
    }
  }

  lemma StepEdgeKeys(t: Tally, c: Option<Contact>, key: string)
    ensures key in Step(t, c).edges <==> key in t.edges || EdgeOf(c) == Some(key)
  {
    if c.Some? {
      assert TouchBoth(t, c.value).edges == t.edges;
    }
  }

  lemma EdgeCountedFigures(t: Tally, key: string)
    ensures EdgeCounted(t, key) == PairFigures(t, key).calls + PairFigures(t, key).sms
  {
  }

  /** Each row joining the pair adds one record to its calls and SMS together. */
  lemma {:induction false} SumPairMentions(cs: seq<Option<Contact>>, key: string)
    ensures SumPairFigures(cs, key).calls + SumPairFigures(cs, key).sms == EdgeMentions(cs, key)
    decreases |cs|
  {
    if cs != [] {
      SumPairMentions(cs[..|cs| - 1], key);
      var c := cs[|cs| - 1];
      if EdgeOf(c) == Some(key) {
        assert RowPairFigures(c, key) == Appearance(c.value.duration);
      } else {
        assert RowPairFigures(c, key) == NoFigures;
      }
    }
  }

  /** An edge exists exactly for the pairs seen together on a row, and counts the rows of that pair. */
  lemma {:induction false} EdgeCount(cs: seq<Option<Contact>>, key: string)
    ensures key in Aggregate(cs).edges <==> EdgeMentions(cs, key) > 0
    ensures EdgeCounted(Aggregate(cs), key) == EdgeMentions(cs, key)
    decreases |cs|
  {
    if cs != [] {
      EdgeCount(cs[..|cs| - 1], key);
      StepEdgeKeys(Aggregate(cs[..|cs| - 1]), cs[|cs| - 1], key);
    }
    AggregatePairFigures(cs, key);
    SumPairMentions(cs, key);
    EdgeCountedFigures(Aggregate(cs), key);
  }

  /** A key built from two cleaned numbers splits back into them, in sorted order. */
  lemma EdgeKeySplits(a: string, b: string)
    requires AllPhoneChars(a) && AllPhoneChars(b)
    ensures Split(EdgeKey(a, b), '|') == SortPair(a, b)
  {
    SortPairIs(a, b);
    var parts := SortPair(a, b);
    assert parts == [a, b] || parts == [b, a];
    NoBar(a);
    NoBar(b);
    SplitJoinPair(parts, a, b);
  }

  /** Joining either order of two `|`-free strings splits back into that order. */
  lemma SplitJoinPair(parts: seq<string>, a: string, b: string)
    requires parts == [a, b] || parts == [b, a]
    requires '|' !in a && '|' !in b
    ensures Split(Join(parts, "|"), '|') == parts
  {
    assert forall k :: 0 <= k < |parts| ==> parts[k] == a || parts[k] == b;
    SplitJoin(parts, '|');
  }

  /** A cleaned number holds no `|`. */
  lemma NoBar(s: string)
    requires AllPhoneChars(s)
    ensures '|' !in s
  {
    forall i | 0 <= i < |s| ensures s[i] != '|' {
      assert IsPhoneChar(s[i]);
    }
  }

  /** Both ends of every edge key have an entry of their own. */
  ghost predicate EdgesResolve(t: Tally) {
    forall key :: key in t.edges ==>
      var parts := Split(key, '|');
      |parts| == 2 && parts[0] in t.stats && parts[1] in t.stats
  }

  lemma StepResolves(t: Tally, c: Option<Contact>)
    requires EdgesResolve(t)
    requires c.Some? ==> CleanContact(c.value)
    ensures EdgesResolve(Step(t, c))
  {
    var t' := Step(t, c);
    forall key | key in t'.edges
      ensures var parts := Split(key, '|'); |parts| == 2 && parts[0] in t'.stats && parts[1] in t'.stats
    {
      StepEdgeKeys(t, c, key);
      var parts := Split(key, '|');
      if key in t.edges {
        StepCounts(t, c, parts[0]);
        StepCounts(t, c, parts[1]);
      } else {
        var a, b := c.value.caller.value, c.value.callee.value;
        EdgeKeySplits(a, b);
        SortPairSymmetric(a, b);
        StepCounts(t, c, a);
        StepCounts(t, c, b);
      }
    }
  }

  /** Every edge the rows produce joins two numbers that have entries. */
  lemma {:induction false} AggregateResolves(cs: seq<Option<Contact>>)
    requires forall i :: 0 <= i < |cs| && cs[i].Some? ==> CleanContact(cs[i].value)
    ensures EdgesResolve(Aggregate(cs))
    decreases |cs|
  {
    if cs != [] {
      AggregateResolves(cs[..|cs| - 1]);
      StepResolves(Aggregate(cs[..|cs| - 1]), cs[|cs| - 1]);
    }
  }

  // ----- From counters to the graph -----

  /** The filter of lines 105-111 for one number. */
  predicate Keep(filters: Filters, phone: string, s: Stats) {
    !(filters.minInteractions != 0 && s.calls + s.sms < filters.minInteractions) &&
    !(filters.interactionType == Calls && s.calls == 0) &&
    !(filters.interactionType == Sms && s.sms == 0) &&
    !(|filters.individuals| > 0 && phone !in filters.individuals)
  }

  /** The numbers that pass the filters, in insertion order. */
  function KeptPhones(phones: seq<string>, stats: map<string, Stats>, filters: Filters): (r: seq<string>)
    requires forall p :: p in phones ==> p in stats
    ensures forall p :: p in r <==> p in phones && Keep(filters, p, stats[p])
    ensures forall i :: 0 <= i < |r| ==> r[i] in stats
    ensures Distinct(phones) ==> Distinct(r)
    decreases |phones|
  {
    if phones == [] then []
    else
      var rest := KeptPhones(phones[1..], stats, filters);
      assert forall p :: p in phones[1..] ==> p in phones;
      if Keep(filters, phones[0], stats[phones[0]]) then [phones[0]] + rest else rest
  }

  datatype NodeType = Primary | Secondary | Service

  /** A graph node; its label and phone number repeat its id. */
  datatype NetworkNode = NetworkNode(id: string, interactions: nat, nodeType: NodeType, size: real, color: string,
                                     imei: Option<string>, location: Option<string>, degree: nat)

  /** Lines 115-117: more than ten contacts makes a service number, otherwise more than twenty records a primary one. */
  function NodeTypeOf(total: nat, degree: nat): (ty: NodeType)
    ensures ty == Service <==> degree > 10
    ensures ty == Primary <==> degree <= 10 && total > 20
  {
    var ty := if total > 20 then Primary else Secondary;
    if degree > 10 then Service else ty
  }

  function NodeColor(ty: NodeType): string {
    match ty
    case Primary => "#3B82F6"
    case Secondary => "#10B981"
    case Service => "#F59E0B"
  }

  /** One node (lines 113-131); `logOf(n)` is `Math.log(n + 1)`. */
  function MakeNode(phone: string, s: Stats, logOf: nat -> real): NetworkNode {
    var total := s.calls + s.sms;
    var degree := |s.contacts|;
    var ty := NodeTypeOf(total, degree);
    NetworkNode(phone, total, ty, NodeSize(logOf(total)), NodeColor(ty), s.imei, s.location, degree)
  }

  function MakeNodes(phones: seq<string>, stats: map<string, Stats>, logOf: nat -> real): (r: seq<NetworkNode>)
    requires forall i :: 0 <= i < |phones| ==> phones[i] in stats
    ensures |r| == |phones|
    ensures forall i :: 0 <= i < |r| ==> r[i] == MakeNode(phones[i], stats[phones[i]], logOf)
  {
    seq(|phones|, i requires 0 <= i < |phones| => MakeNode(phones[i], stats[phones[i]], logOf))
  }

  datatype NetworkEdge = NetworkEdge(id: string, source: string, target: string, interactions: nat,
                                     callCount: nat, smsCount: nat, width: real)

  /** `Math.min(8, Math.max(1, total * 0.5))` */
  function EdgeWidth(total: nat): (w: real)
    ensures 1.0 <= w <= 8.0
    ensures 2 <= total <= 16 ==> w == total as real / 2.0
  {
    var half := total as real * 0.5;
    var atLeast := if half > 1.0 then half else 1.0;
    if atLeast < 8.0 then atLeast else 8.0
  }

  /** Line 136: both numbers a key splits into passed the filters. */
  predicate EndsKept(kept: seq<string>, key: string) {
    var parts := Split(key, '|');
    |parts| >= 2 && parts[0] in kept && parts[1] in kept
  }

  /** An edge drawn for its key: both ends passed, and it carries the pair's counts. */
  predicate EdgeDrawn(e: NetworkEdge, edges: map<string, EdgeStats>, kept: seq<string>) {
    var parts := Split(e.id, '|');
    && e.id in edges && |parts| >= 2 && parts[0] in kept && parts[1] in kept
    && e.source == parts[0] && e.target == parts[1]
    && e.callCount == edges[e.id].calls && e.smsCount == edges[e.id].sms
    && e.interactions == e.callCount + e.smsCount
  }

  /** Lines 134-150: an edge per key whose two numbers both passed the filters, in insertion order. */
  function MakeEdges(keys: seq<string>, edges: map<string, EdgeStats>, kept: seq<string>): (r: seq<NetworkEdge>)
    requires forall k :: k in keys ==> k in edges
    ensures forall i :: 0 <= i < |r| ==> r[i].id in keys && EdgeDrawn(r[i], edges, kept)
    ensures |r| <= |keys|
    decreases |keys|
  {
    if keys == [] then []
    else
      var key := keys[0];
      var parts := Split(key, '|');
      var rest := MakeEdges(keys[1..], edges, kept);
      assert forall k :: k in keys[1..] ==> k in keys;
      if EndsKept(kept, key) then
        var e := edges[key];
        var total := e.calls + e.sms;
        [NetworkEdge(key, parts[0], parts[1], total, e.calls, e.sms, EdgeWidth(total))] + rest
      else rest
  }

  function EdgeIds(r: seq<NetworkEdge>): (ids: seq<string>)
    ensures |ids| == |r| && forall i :: 0 <= i < |r| ==> ids[i] == r[i].id
  {
    seq(|r|, i requires 0 <= i < |r| => r[i].id)
  }

  function KeyKept(kept: seq<string>): string -> bool { k => EndsKept(kept, k) }

  /** The edges carry exactly the keys whose two numbers passed, in insertion order. */
  lemma {:induction false} MakeEdgesIds(keys: seq<string>, edges: map<string, EdgeStats>, kept: seq<string>)
    requires forall k :: k in keys ==> k in edges
    ensures EdgeIds(MakeEdges(keys, edges, kept)) == Filter(keys, KeyKept(kept))
    decreases |keys|
  {
    if keys != [] {
      assert forall k :: k in keys[1..] ==> k in keys;
      MakeEdgesIds(keys[1..], edges, kept);
      var r := MakeEdges(keys, edges, kept);
      var rest := MakeEdges(keys[1..], edges, kept);
      var keep := KeyKept(kept);
      assert Filter(keys, keep) == (if keep(keys[0]) then [keys[0]] else []) + Filter(keys[1..], keep);
      if EndsKept(kept, keys[0]) {
        assert r == [r[0]] + rest && r[0].id == keys[0];
        EdgeIdsCons(r[0], rest);
      } else {
        assert r == rest;
      }
    }
  }

  lemma EdgeIdsCons(e: NetworkEdge, rest: seq<NetworkEdge>)
    ensures EdgeIds([e] + rest) == [e.id] + EdgeIds(rest)
  {
  }

  /** Every key whose two numbers both passed the filters gets its edge, and distinct keys give distinct ids. */
  lemma MakeEdgesComplete(keys: seq<string>, edges: map<string, EdgeStats>, kept: seq<string>)
    requires forall k :: k in keys ==> k in edges
    ensures var r := MakeEdges(keys, edges, kept);
      forall k :: k in keys && EndsKept(kept, k) ==> exists i :: 0 <= i < |r| && r[i].id == k
    ensures var r := MakeEdges(keys, edges, kept);
      Distinct(keys) ==> forall i, j :: 0 <= i < j < |r| ==> r[i].id != r[j].id
  {
    var r := MakeEdges(keys, edges, kept);
    var ids := EdgeIds(r);
    MakeEdgesIds(keys, edges, kept);
    forall k | k in keys && EndsKept(kept, k) ensures exists i :: 0 <= i < |r| && r[i].id == k {
      var j :| 0 <= j < |keys| && keys[j] == k;
      assert KeyKept(kept)(keys[j]);
      var i :| 0 <= i < |ids| && ids[i] == k;
      assert r[i].id == k;
    }
    if Distinct(keys) {
      FilterDistinct(keys, KeyKept(kept));
      assert Distinct(ids);
    }
  }

  datatype Graph = Graph(nodes: seq<NetworkNode>, edges: seq<NetworkEdge>)

  /** The graph drawn from the counters. */
  function GraphOf(t: Tally, filters: Filters, logOf: nat -> real): Graph
    requires WellFormed(t)
  {
    var kept := KeptPhones(t.phones, t.stats, filters);
    Graph(MakeNodes(kept, t.stats, logOf), MakeEdges(t.edgeKeys, t.edges, kept))
  }

  /** `useNetworkData`: no listings give an empty graph. */
  function NetworkGraphData(listings: Option<seq<Row>>, filters: Filters, logOf: nat -> real): Graph {
    match listings
    case None => Graph([], [])
    case Some(rows) =>
      AggregateWellFormed(ReadAll(rows));
      GraphOf(Aggregate(ReadAll(rows)), filters, logOf)
  }

  /** The memoised computation of the hook. */
  method UseNetworkData(listings: Option<seq<Row>>, filters: Filters, logOf: nat -> real) returns (g: Graph)
    ensures g == NetworkGraphData(listings, filters, logOf)
  {
    if listings.None? {
      return Graph([], []);
    }
    var t := Tabulate(listings.value);
    AggregateWellFormed(ReadAll(listings.value));
    g := GraphOf(t, filters, logOf);
  }

  /** Every edge of the graph joins two of its nodes. */
  lemma EdgesJoinNodes(listings: Option<seq<Row>>, filters: Filters, logOf: nat -> real, i: nat)
    requires i < |NetworkGraphData(listings, filters, logOf).edges|
    ensures var g := NetworkGraphData(listings, filters, logOf);
      (exists j :: 0 <= j < |g.nodes| && g.nodes[j].id == g.edges[i].source) &&
      (exists j :: 0 <= j < |g.nodes| && g.nodes[j].id == g.edges[i].target)
  {
    var rows := listings.value;
    var t := Aggregate(ReadAll(rows));
    AggregateWellFormed(ReadAll(rows));
    var kept := KeptPhones(t.phones, t.stats, filters);
    var g := NetworkGraphData(listings, filters, logOf);
    var e := g.edges[i];
    var a :| 0 <= a < |kept| && kept[a] == e.source;
    var b :| 0 <= b < |kept| && kept[b] == e.target;
    assert g.nodes[a].id == e.source && g.nodes[b].id == e.target;
  }

  /** Choosing individuals shows only those numbers. */
  lemma IndividualsRestrictNodes(listings: Option<seq<Row>>, filters: Filters, logOf: nat -> real, i: nat)
    requires |filters.individuals| > 0
    requires i < |NetworkGraphData(listings, filters, logOf).nodes|
    ensures NetworkGraphData(listings, filters, logOf).nodes[i].id in filters.individuals
  {
    var rows := listings.value;
    var t := Aggregate(ReadAll(rows));
    AggregateWellFormed(ReadAll(rows));
    var kept := KeptPhones(t.phones, t.stats, filters);
    assert kept[i] in kept;
  }

  /** No number is drawn twice. */
  lemma NodesAreDistinct(listings: Option<seq<Row>>, filters: Filters, logOf: nat -> real)
    ensures var g := NetworkGraphData(listings, filters, logOf);
      forall i, j :: 0 <= i < j < |g.nodes| ==> g.nodes[i].id != g.nodes[j].id
  {
    if listings.Some? {
      AggregateWellFormed(ReadAll(listings.value));
    }
  }

  /** Both numbers of a pair key have entries that pass the filters. */
  predicate PairPasses(t: Tally, filters: Filters, key: string) {
    var parts := Split(key, '|');
    && |parts| >= 2 && parts[0] in t.stats && parts[1] in t.stats
    && Keep(filters, parts[0], t.stats[parts[0]]) && Keep(filters, parts[1], t.stats[parts[1]])
  }

  /** Every pair seen on the rows whose two numbers pass the filters is drawn, and no edge is drawn twice. */
  lemma GraphEdgesComplete(rows: seq<Row>, filters: Filters, logOf: nat -> real)
    ensures var t := Aggregate(ReadAll(rows));
      var g := NetworkGraphData(Some(rows), filters, logOf);
      forall key :: key in t.edges && PairPasses(t, filters, key) ==>
        exists i :: 0 <= i < |g.edges| && g.edges[i].id == key
    ensures var g := NetworkGraphData(Some(rows), filters, logOf);
      forall i, j :: 0 <= i < j < |g.edges| ==> g.edges[i].id != g.edges[j].id
  {
    var t := Aggregate(ReadAll(rows));
    AggregateWellFormed(ReadAll(rows));
    var kept := KeptPhones(t.phones, t.stats, filters);
    MakeEdgesComplete(t.edgeKeys, t.edges, kept);
    forall key | key in t.edges && PairPasses(t, filters, key) ensures key in t.edgeKeys && EndsKept(kept, key) {
    }
  }
}
