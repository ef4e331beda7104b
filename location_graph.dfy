/**
 * The location view of the workbench: listing rows become located points,
 * the points are grouped into one path per caller and each path is put in
 * time order; the workbench filters then select points and regroup them.
 * Dates are read by the browser's `Date` and coordinates by regular
 * expressions and `parseFloat`; both are parameters here.
 */
module LocationGraph {
  import opened Common
  import opened Rows
  import opened FieldLookup
  import opened Sorting
  import NetworkGraphUtils
  import NetworkData

  const CallerFields: seq<string> := [
    "caller_num", "caller", "calling_number", "from_number", "source_number",
    "num\U{00E9}ro appelant", "numero appelant", "appelant", "\U{00E9}metteur", "emetteur",
    "Num\U{00E9}ro Appelant", "Numero Appelant", "Appelant"]

  const LocationFields: seq<string> := [
    "location", "caller_location", "source_location",
    "localisation", "localisation num\U{00E9}ro appelant", "localisation numero appelant",
    "Localisation num\U{00E9}ro appelant", "Localisation numero appelant", "Localisation",
    "Localisation num\U{00E9}ro appelant (Longitude, Latitude)"]

  const DateFields: seq<string> := [
    "timestamp", "date", "call_date", "date_time",
    "date d\U{00E9}but appel", "date debut appel", "Date D\U{00E9}but appel", "Date Debut appel"]

  const DurationFields: seq<string> := [
    "duration", "duration_str", "call_duration", "length",
    "dur\U{00E9}e", "duree", "dur\U{00E9}e appel", "duree appel", "Dur\U{00E9}e appel", "Duree appel"]

  /** `interactionType` of a point: `'call'`, `'sms'`, or absent on pre-processed points, whose spread record carries `type` instead. */
  datatype Kind = Call | Sms | Untyped

  /** The `id` template of a point: `${lat}-${lng}-${index}` or `${caller}_${dateStr}_${index}`. */
  datatype PointId = FromLocation(lat: real, lng: real, index: nat) | FromListing(caller: string, date: string, index: nat)

  /** A located point; `timestamp` is the millisecond value of its `Date`, absent for an invalid date. */
  datatype Point = Point(id: PointId, phoneNumber: string, latitude: real, longitude: real,
                         timestamp: Option<int>, kind: Kind)

  /** A location the back end already extracted (`lat`, `lng`, `timestamp` text). */
  datatype ApiLocation = ApiLocation(lat: real, lng: real, timestamp: string)

  /** The workbench data the view receives. */
  datatype LocationData = LocationData(listings: Option<seq<Row>>, locations: Option<seq<ApiLocation>>)

  /**
   * The browser's date reading: `parseDate` is the component's parser of listing dates (`null` when it
   * gives up), `newDate` is `new Date(text).getTime()` (absent when `NaN`).
   */
  datatype Calendar = Calendar(parseDate: string -> Option<int>, newDate: string -> Option<int>)

  /**
   * What the coordinate pattern numbered `i` (0 to 5, in the component's order) captures in a text, as the
   * two numbers `parseFloat` reads from its groups, or nothing when the pattern does not match.
   */
  type Extractor = (string, nat) -> Option<(real, real)>

  const PatternCount: nat := 6

  predicate InRange(c: (real, real)) {
    -90.0 <= c.0 <= 90.0 && -180.0 <= c.1 <= 180.0
  }

  /** `(latitude, longitude)` from the two captured numbers: longitude first, except in patterns 1 and 3. */
  function Oriented(i: nat, m: (real, real)): (real, real) {
    if i == 1 || i == 3 then (m.0, m.1) else (m.1, m.0)
  }

  /** Pattern `i` matches and its reading lies in range. */
  predicate Accepts(extract: Extractor, s: string, i: nat) {
    extract(s, i).Some? && InRange(Oriented(i, extract(s, i).value))
  }

  /** The patterns from `i` on, tried in order. */
  function CoordinatesFrom(extract: Extractor, s: string, i: nat): (r: Option<(real, real)>)
    ensures r.Some? ==> InRange(r.value)
    ensures r.Some? <==> exists j :: i <= j < PatternCount && Accepts(extract, s, j)
    ensures r.Some? ==> exists j :: (i <= j < PatternCount && Accepts(extract, s, j)
                                     && (forall k :: i <= k < j ==> !Accepts(extract, s, k))
                                     && r.value == Oriented(j, extract(s, j).value))
    decreases PatternCount - i
  {
    if i >= PatternCount then None
    else if Accepts(extract, s, i) then Some(Oriented(i, extract(s, i).value))
    else CoordinatesFrom(extract, s, i + 1)
  }

  /** `parseCoordinates`: the first pattern whose reading is in range, nothing for empty text. */
  function Coordinates(extract: Extractor, s: string): Option<(real, real)> {
    if s == "" then None else CoordinatesFrom(extract, s, 0)
  }

  /** `parseCoordinates`, the loop over the six patterns. */
  method ParseCoordinates(extract: Extractor, s: string) returns (r: Option<(real, real)>)
    ensures r == Coordinates(extract, s)
    ensures r.Some? ==> InRange(r.value)
  {
    if s == "" {
      return None;
    }
    var i := 0;
    while i < PatternCount
      invariant 0 <= i <= PatternCount
      invariant CoordinatesFrom(extract, s, 0) == CoordinatesFrom(extract, s, i)
    {
      CoordinatesStep(extract, s, i);
      var m := extract(s, i);
      if m.Some? {
        var c := Oriented(i, m.value);
        if InRange(c) {
          return Some(c);
        }
      }
      i := i + 1;
    }
    return None;
  }

  /** One pattern tried: its reading when it accepts, else the patterns after it. */
  lemma CoordinatesStep(extract: Extractor, s: string, i: nat)
    requires i < PatternCount
    ensures CoordinatesFrom(extract, s, i) ==
      if Accepts(extract, s, i) then Some(Oriented(i, extract(s, i).value)) else CoordinatesFrom(extract, s, i + 1)
  {
  }

  /** In the comma forms, tried when no labelled form applies, the first number is the longitude. */
  lemma CommaFormLongitudeFirst(extract: Extractor, s: string, lon: real, lat: real)
    requires s != "" && forall k :: 0 <= k < 4 ==> extract(s, k).None?
    requires extract(s, 4) == Some((lon, lat)) && InRange((lat, lon))
    ensures Coordinates(extract, s) == Some((lat, lon))
  {
    assert Accepts(extract, s, 4);
  }

  /** The point a listing row yields at position `index`, if caller, location and date are found and read. */
  function PointOf(row: Row, index: nat, cal: Calendar, extract: Extractor): (r: Option<Point>)
    ensures r.Some? ==> (InRange((r.value.latitude, r.value.longitude)) && r.value.timestamp.Some?
                         && r.value.kind != Untyped)
    ensures (FieldValue(FoldAccents, row, CallerFields).None? || FieldValue(FoldAccents, row, LocationFields).None?
             || FieldValue(FoldAccents, row, DateFields).None?) ==> r.None?
  {
    var caller := FieldValue(FoldAccents, row, CallerFields);
    var location := FieldValue(FoldAccents, row, LocationFields);
    var date := FieldValue(FoldAccents, row, DateFields);
    if caller.None? || location.None? || date.None? then None
    else
      match Coordinates(extract, location.value)
      case None => None
      case Some(c) =>
        var sms := NetworkGraphUtils.ParseDuration(FieldValue(FoldAccents, row, DurationFields)).isSms;
        match cal.parseDate(date.value)
        case None => None
        case Some(t) =>
          Some(Point(FromListing(caller.value, date.value, index), caller.value, c.0, c.1, Some(t),
                     if sms then Sms else Call))
  }

  /** A reader of listing rows: the point the row at a position yields, if any. */
  type Reader = (Row, nat) -> Option<Point>

  function RowReader(cal: Calendar, extract: Extractor): Reader {
    (row: Row, index: nat) => PointOf(row, index, cal, extract)
  }

  /** The points `read` yields from the rows, in row order. */
  function PointsOf(rows: seq<Row>, read: Reader): (r: seq<Point>)
    ensures |r| <= |rows|
    decreases |rows|
  {
    if rows == [] then []
    else
      var n := |rows| - 1;
      PointsOf(rows[..n], read) + (match read(rows[n], n)
                                   case Some(p) => [p]
                                   case None => [])
  }

  /** `processedLocations`: the points of the listing rows, in row order. */
  function ListingPoints(rows: seq<Row>, cal: Calendar, extract: Extractor): seq<Point> {
    PointsOf(rows, RowReader(cal, extract))
  }

  /** A row contributes a point exactly when the reader accepts it. */
  lemma {:induction false} PointsOfMembers(rows: seq<Row>, read: Reader)
    ensures forall i :: 0 <= i < |rows| && read(rows[i], i).Some? ==> read(rows[i], i).value in PointsOf(rows, read)
    ensures forall p :: p in PointsOf(rows, read) ==> exists i :: 0 <= i < |rows| && read(rows[i], i) == Some(p)
    decreases |rows|
  {
    if rows != [] {
      var n := |rows| - 1;
      PointsOfMembers(rows[..n], read);
      assert forall i :: 0 <= i < n ==> rows[..n][i] == rows[i];
    }
  }

  /** The listing points are exactly the points of the rows that have a caller, a place and a date that parse, and each has a date, a type and coordinates in range. */
  lemma ListingPointsSpec(rows: seq<Row>, cal: Calendar, extract: Extractor)
    ensures forall i :: 0 <= i < |rows| && PointOf(rows[i], i, cal, extract).Some? ==>
      PointOf(rows[i], i, cal, extract).value in ListingPoints(rows, cal, extract)
    ensures forall p :: p in ListingPoints(rows, cal, extract) ==>
      (exists i :: 0 <= i < |rows| && PointOf(rows[i], i, cal, extract) == Some(p))
      && InRange((p.latitude, p.longitude)) && p.timestamp.Some? && p.kind != Untyped
  {
    var read := RowReader(cal, extract);
    PointsOfMembers(rows, read);
    forall p | p in ListingPoints(rows, cal, extract)
      ensures InRange((p.latitude, p.longitude)) && p.timestamp.Some? && p.kind != Untyped
    {
      var i :| 0 <= i < |rows| && read(rows[i], i) == Some(p);
      assert PointOf(rows[i], i, cal, extract) == Some(p);
    }
  }

  /** A pre-processed location as a point of the unknown caller. */
  function LocationPoint(loc: ApiLocation, index: nat, cal: Calendar): Point {
    Point(FromLocation(loc.lat, loc.lng, index), "Unknown", loc.lat, loc.lng, cal.newDate(loc.timestamp), Untyped)
  }

  function LocationPoints(locs: seq<ApiLocation>, cal: Calendar): (r: seq<Point>)
    ensures |r| == |locs|
    ensures forall i :: 0 <= i < |r| ==> r[i] == LocationPoint(locs[i], i, cal)
  {
    seq(|locs|, i requires 0 <= i < |locs| => LocationPoint(locs[i], i, cal))
  }

  // ---------------------------------------------------------------------------
  // Paths per caller

  function OnPhone(phone: string): Point -> bool { (p: Point) => p.phoneNumber == phone }

  function OffPhone(phone: string): Point -> bool { (p: Point) => p.phoneNumber != phone }

  function PhoneList(points: seq<Point>): (r: seq<string>)
    ensures |r| == |points| && forall i :: 0 <= i < |points| ==> r[i] == points[i].phoneNumber
  {
    seq(|points|, i requires 0 <= i < |points| => points[i].phoneNumber)
  }

  /** The keys of the paths `Map`, in insertion order: each caller at its first point. */
  function PhoneOrder(points: seq<Point>): (r: seq<string>)
    ensures Distinct(r)
    ensures forall k :: k in r <==> exists i :: 0 <= i < |points| && points[i].phoneNumber == k
  {
    var r := Dedupe(PhoneList(points));
    assert forall k :: k in PhoneList(points) <==> exists i :: 0 <= i < |points| && points[i].phoneNumber == k;
    r
  }

  /** The path of one caller: that caller's points, in list order. */
  function PathOf(points: seq<Point>, phone: string): seq<Point> {
    Filter(points, OnPhone(phone))
  }

  /** The paths `Map` that pushing every point onto its caller's path builds. */
  function PathsOf(points: seq<Point>): map<string, seq<Point>> {
    map k | k in PhoneOrder(points) :: PathOf(points, k)
  }

  /** One `if (!paths.has(key)) paths.set(key, []); paths.get(key)!.push(p)`. */
  method Push(order: seq<string>, paths: map<string, seq<Point>>, p: Point)
    returns (order': seq<string>, paths': map<string, seq<Point>>)
    ensures order' == if p.phoneNumber in paths then order else order + [p.phoneNumber]
    ensures paths' == paths[p.phoneNumber := (if p.phoneNumber in paths then paths[p.phoneNumber] else []) + [p]]
  {
    order', paths' := order, paths;
    if p.phoneNumber !in paths' {
      paths' := paths'[p.phoneNumber := []];
      order' := order' + [p.phoneNumber];
    }
    paths' := paths'[p.phoneNumber := paths'[p.phoneNumber] + [p]];
  }

  /** Appending a point extends its caller's path and no other. */
  lemma PathOfAppend(points: seq<Point>, p: Point, k: string)
    ensures PathOf(points + [p], k) == PathOf(points, k) + (if p.phoneNumber == k then [p] else [])
  {
    FilterAppend(points, [p], OnPhone(k));
    assert Filter([p], OnPhone(k)) == (if p.phoneNumber == k then [p] else []) + Filter([p][1..], OnPhone(k));
  }

  /** Appending a point adds its caller at the end of the order if it is new. */
  lemma PhoneOrderAppend(points: seq<Point>, p: Point)
    ensures PhoneOrder(points + [p]) ==
      if p.phoneNumber in PhoneOrder(points) then PhoneOrder(points) else PhoneOrder(points) + [p.phoneNumber]
  {
    var s := points + [p];
    assert PhoneList(s) == PhoneList(points) + [p.phoneNumber];
    assert PhoneList(s)[..|s| - 1] == PhoneList(points);
  }

  /** A caller without points has an empty path. */
  lemma PathOfAbsent(points: seq<Point>, k: string)
    requires k !in PhoneOrder(points)
    ensures PathOf(points, k) == []
  {
    FilterNone(points, OnPhone(k));
  }

  /** Pushing one more point keeps the order and the paths those of the longer list. */
  lemma PushKeepsPaths(points: seq<Point>, p: Point)
    ensures PhoneOrder(points + [p]) ==
      if p.phoneNumber in PathsOf(points) then PhoneOrder(points) else PhoneOrder(points) + [p.phoneNumber]
    ensures PathsOf(points + [p]) == PathsOf(points)[p.phoneNumber :=
      (if p.phoneNumber in PathsOf(points) then PathsOf(points)[p.phoneNumber] else []) + [p]]
  {
    var s := points + [p];
    PhoneOrderAppend(points, p);
    var before := PathsOf(points);
    var after := PathsOf(s);
    var m := before[p.phoneNumber := (if p.phoneNumber in before then before[p.phoneNumber] else []) + [p]];
    forall k ensures k in after <==> k in m {
      assert k in after <==> k in PhoneOrder(s);
      assert k in before <==> k in PhoneOrder(points);
    }
    forall k | k in m ensures after[k] == m[k] {
      PushPath(points, p, k);
    }
    assert after == m;
  }

  lemma PushPath(points: seq<Point>, p: Point, k: string)
    requires k in PhoneOrder(points + [p])
    ensures PathOf(points + [p], k) == PathsOf(points)[p.phoneNumber :=
      (if p.phoneNumber in PathsOf(points) then PathsOf(points)[p.phoneNumber] else []) + [p]][k]
  {
    PhoneOrderAppend(points, p);
    PathOfAppend(points, p, k);
    if k == p.phoneNumber && k !in PathsOf(points) {
      PathOfAbsent(points, k);
    }
  }

  /** Groups points by caller, as the location view does twice (processing and filtering). */
  method GroupByPhone(points: seq<Point>) returns (order: seq<string>, paths: map<string, seq<Point>>)
    ensures order == PhoneOrder(points) && paths == PathsOf(points)
  {
    order, paths := [], map[];
    var i := 0;
    while i < |points|
      invariant 0 <= i <= |points|
      invariant order == PhoneOrder(points[..i]) && paths == PathsOf(points[..i])
    {
      PushNext(points, i);
      order, paths := Push(order, paths, points[i]);
      i := i + 1;
    }
    assert points[..i] == points;
  }

  /** The order and the paths of one more point of `points`. */
  lemma PushNext(points: seq<Point>, i: nat)
    requires i < |points|
    ensures var p := points[i]; var before := PathsOf(points[..i]);
      && PhoneOrder(points[..i + 1]) ==
           (if p.phoneNumber in before then PhoneOrder(points[..i]) else PhoneOrder(points[..i]) + [p.phoneNumber])
      && PathsOf(points[..i + 1]) ==
           before[p.phoneNumber := (if p.phoneNumber in before then before[p.phoneNumber] else []) + [p]]
  {
    assert points[..i + 1] == points[..i] + [points[i]];
    PushKeepsPaths(points[..i], points[i]);
  }

  /** The timestamp the path sort compares (listing points always have one). */
  function Time(p: Point): int { p.timestamp.GetOr(0) }

  /** A path in time order, as `path.sort((a, b) => a.timestamp - b.timestamp)` leaves it. */
  function TimeOrdered(path: seq<Point>): (r: seq<Point>)
    ensures SortedBy(r, Time, IntLe) && multiset(r) == multiset(path)
  {
    IntOrders();
    SortBy(path, Time, IntLe)
  }

  /** What `processedData` holds: the points, the callers in insertion order and each caller's path. */
  datatype Processed = Processed(points: seq<Point>, order: seq<string>, paths: map<string, seq<Point>>)

  /** `processedData`: pre-processed locations when there are any, else the listing rows, paths sorted by time. */
  function ProcessedData(data: LocationData, cal: Calendar, extract: Extractor): Processed {
    if data.locations.Some? && |data.locations.value| > 0 then FromLocations(data.locations.value, cal)
    else if data.listings.None? then Processed([], [], map[])
    else FromListings(data.listings.value, cal, extract)
  }

  /** The pre-processed locations, all on the unknown caller's path. */
  function FromLocations(locs: seq<ApiLocation>, cal: Calendar): Processed {
    var points := LocationPoints(locs, cal);
    Processed(points, PhoneOrder(points), PathsOf(points))
  }

  /** The listing points, grouped by caller, each path in time order. */
  function FromListings(rows: seq<Row>, cal: Calendar, extract: Extractor): Processed {
    var points := ListingPoints(rows, cal, extract);
    Processed(points, PhoneOrder(points), map k | k in PhoneOrder(points) :: TimeOrdered(PathOf(points, k)))
  }

  /** Non-empty pre-processed locations bypass the listings entirely, and all belong to the unknown caller. */
  lemma PreprocessedBypass(locs: seq<ApiLocation>, a: Option<seq<Row>>, b: Option<seq<Row>>, cal: Calendar,
                           extract: Extractor)
    requires |locs| > 0
    ensures ProcessedData(LocationData(a, Some(locs)), cal, extract) == ProcessedData(LocationData(b, Some(locs)), cal, extract)
    ensures var d := ProcessedData(LocationData(a, Some(locs)), cal, extract);
      d.order == ["Unknown"] && d.paths == map["Unknown" := d.points] && |d.points| == |locs|
  {
    var points := LocationPoints(locs, cal);
    SingleCaller(points, "Unknown");
  }

  /** Points that all belong to one caller make a single path holding all of them. */
  lemma SingleCaller(points: seq<Point>, k: string)
    requires |points| > 0 && forall i :: 0 <= i < |points| ==> points[i].phoneNumber == k
    ensures PhoneOrder(points) == [k] && PathsOf(points) == map[k := points]
  {
    SingleCallerOrder(points, k);
    FilterKeepsAll(points, OnPhone(k));
  }

  lemma {:induction false} SingleCallerOrder(points: seq<Point>, k: string)
    requires |points| > 0 && forall i :: 0 <= i < |points| ==> points[i].phoneNumber == k
    ensures PhoneOrder(points) == [k]
    decreases |points|
  {
    var n := |points| - 1;
    assert points == points[..n] + [points[n]];
    PhoneOrderAppend(points[..n], points[n]);
    if n > 0 {
      SingleCallerOrder(points[..n], k);
    }
  }

  /** `processedData` for the listing rows: one loop pushes each point into the list and into its caller's path. */
  method ProcessListings(rows: seq<Row>, cal: Calendar, extract: Extractor) returns (d: Processed)
    ensures d.points == ListingPoints(rows, cal, extract) && d.order == PhoneOrder(d.points)
    ensures forall k :: k in d.paths <==> k in d.order
    ensures forall k :: k in d.paths ==> d.paths[k] == PathOf(d.points, k)
  {
    var points: seq<Point> := [];
    var order: seq<string> := [];
    var paths: map<string, seq<Point>> := map[];
    var i := 0;
    while i < |rows|
      invariant 0 <= i <= |rows|
      invariant points == PointsOf(rows[..i], RowReader(cal, extract))
      invariant order == PhoneOrder(points) && paths == PathsOf(points)
    {
      assert rows[..i + 1][..i] == rows[..i];
      var p := RowReader(cal, extract)(rows[i], i);
      if p.Some? {
        PushKeepsPaths(points, p.value);
        points := points + [p.value];
        order, paths := Push(order, paths, p.value);
      }
      i := i + 1;
    }
    assert rows[..i] == rows;
    d := Processed(points, order, paths);
  }

  /** `pathsByIndividual.forEach(path => path.sort(...))`: every path put in time order, in place. */
  method SortPaths(d: Processed) returns (e: Processed)
    requires forall k :: k in d.paths <==> k in d.order
    ensures e.points == d.points && e.order == d.order && e.paths.Keys == d.paths.Keys
    ensures forall k :: k in e.paths ==> e.paths[k] == TimeOrdered(d.paths[k])
  {
    var paths := d.paths;
    var j := 0;
    while j < |d.order|
      invariant 0 <= j <= |d.order|
      invariant paths.Keys == d.paths.Keys
      invariant forall i :: 0 <= i < j ==> paths[d.order[i]] == TimeOrdered(d.paths[d.order[i]])
    {
      var k := d.order[j];
      paths := paths[k := TimeOrdered(d.paths[k])];
      j := j + 1;
    }
    forall k | k in paths ensures paths[k] == TimeOrdered(d.paths[k]) {
      var i :| 0 <= i < |d.order| && d.order[i] == k;
    }
    e := Processed(d.points, d.order, paths);
  }

  /** The `processedData` memo. */
  method ComputeProcessedData(data: LocationData, cal: Calendar, extract: Extractor) returns (d: Processed)
    ensures d == ProcessedData(data, cal, extract)
  {
    if data.locations.Some? && |data.locations.value| > 0 {
      var points := LocationPoints(data.locations.value, cal);
      var order, paths := GroupByPhone(points);
      return Processed(points, order, paths);
    }
    if data.listings.None? {
      return Processed([], [], map[]);
    }
    d := ProcessListingRows(data.listings.value, cal, extract);
  }

  /** The listing branch of `processedData`: extract and group, then sort every path. */
  method ProcessListingRows(rows: seq<Row>, cal: Calendar, extract: Extractor) returns (d: Processed)
    ensures d == FromListings(rows, cal, extract)
  {
    var grouped := ProcessListings(rows, cal, extract);
    d := SortPaths(grouped);
    SortedPathsAre(grouped.points, grouped.order, grouped.paths, d.paths);
  }

  /** Sorting every grouped path gives the time-ordered path of every caller. */
  lemma SortedPathsAre(points: seq<Point>, order: seq<string>, paths: map<string, seq<Point>>,
                       sorted: map<string, seq<Point>>)
    requires (forall k :: k in paths <==> k in order) && sorted.Keys == paths.Keys
    requires forall k :: k in paths ==> paths[k] == PathOf(points, k)
    requires forall k :: k in paths ==> sorted[k] == TimeOrdered(paths[k])
    ensures sorted == map k | k in order :: TimeOrdered(PathOf(points, k))
  {
    var spec := map k | k in order :: TimeOrdered(PathOf(points, k));
    assert sorted.Keys == spec.Keys;
    forall k | k in sorted ensures sorted[k] == spec[k] {
      assert sorted[k] == TimeOrdered(paths[k]);
    }
  }

  /** The total length of the paths of `keys`. */
  function PathLengths(keys: seq<string>, points: seq<Point>): nat
    decreases |keys|
  {
    if keys == [] then 0 else |PathOf(points, keys[0])| + PathLengths(keys[1..], points)
  }

  lemma {:induction false} PathLengthsEmpty(keys: seq<string>)
    ensures PathLengths(keys, []) == 0
    decreases |keys|
  {
    if keys != [] {
      PathLengthsEmpty(keys[1..]);
    }
  }

  /** One more point lengthens exactly one path among distinct callers, if its caller is one of them. */
  lemma {:induction false} PathLengthsAppend(keys: seq<string>, points: seq<Point>, p: Point)
    requires Distinct(keys)
    ensures PathLengths(keys, points + [p]) == PathLengths(keys, points) + (if p.phoneNumber in keys then 1 else 0)
    decreases |keys|
  {
    if keys != [] {
      PathOfAppend(points, p, keys[0]);
      PathLengthsAppend(keys[1..], points, p);
      assert p.phoneNumber in keys <==> p.phoneNumber == keys[0] || p.phoneNumber in keys[1..];
    }
  }

  /** Paths over distinct callers that cover every point add up to the number of points. */
  lemma {:induction false} PathLengthsCover(keys: seq<string>, points: seq<Point>)
    requires Distinct(keys)
    requires forall i :: 0 <= i < |points| ==> points[i].phoneNumber in keys
    ensures PathLengths(keys, points) == |points|
    decreases |points|
  {
    if points == [] {
      PathLengthsEmpty(keys);
    } else {
      var n := |points| - 1;
      PathLengthsCover(keys, points[..n]);
      assert points == points[..n] + [points[n]];
      PathLengthsAppend(keys, points[..n], points[n]);
    }
  }

  /** Every kept point is in exactly one path: the paths' lengths add up to the number of points. */
  lemma PathsPartitionPoints(points: seq<Point>)
    ensures PathLengths(PhoneOrder(points), points) == |points|
  {
    PathLengthsCover(PhoneOrder(points), points);
  }

  /** After processing, each caller's path holds that caller's points, in time order for listing data. */
  lemma ProcessedPathsSpec(rows: seq<Row>, cal: Calendar, extract: Extractor)
    ensures var d := ProcessedData(LocationData(Some(rows), None), cal, extract);
      && PathLengths(d.order, d.points) == |d.points|
      && forall k :: k in d.paths ==>
        SortedBy(d.paths[k], Time, IntLe) && multiset(d.paths[k]) == multiset(PathOf(d.points, k))
        && forall i :: 0 <= i < |d.paths[k]| ==> d.paths[k][i].phoneNumber == k
  {
    var d := ProcessedData(LocationData(Some(rows), None), cal, extract);
    PathsPartitionPoints(d.points);
    forall k, i | k in d.paths && 0 <= i < |d.paths[k]| ensures d.paths[k][i].phoneNumber == k {
      assert d.paths[k][i] in multiset(PathOf(d.points, k));
    }
  }

  // ---------------------------------------------------------------------------
  // Filtering

  /** The filters the view reads. */
  datatype LocationFilters = LocationFilters(interactionType: NetworkData.InteractionType, start: string, end: string,
                                             individuals: seq<string>)

  /** The text a filter compares: the workbench's `"calls"`/`"sms"`. */
  function FilterText(t: NetworkData.InteractionType): string {
    match t
    case All => "all"
    case Calls => "calls"
    case Sms => "sms"
  }

  /** The text a point carries: `'call'`/`'sms'`, none on pre-processed points. */
  function KindText(k: Kind): Option<string> {
    match k
    case Call => Some("call")
    case Sms => Some("sms")
    case Untyped => None
  }

  /** `location.timestamp < new Date(bound)`: false as soon as either date is invalid. */
  predicate Before(a: Option<int>, b: Option<int>) { a.Some? && b.Some? && a.value < b.value }

  /** The date and individual tests of the filter, which the two type tests below share. */
  predicate InWindow(f: LocationFilters, cal: Calendar, p: Point) {
    && !(f.start != "" && Before(p.timestamp, cal.newDate(f.start)))
    && !(f.end != "" && Before(cal.newDate(f.end), p.timestamp))
    && !(|f.individuals| > 0 && p.phoneNumber !in f.individuals)
  }

  /** The filter as written: the type test compares `'call'` with `"calls"`. */
  predicate KeepsAsWritten(f: LocationFilters, cal: Calendar, p: Point) {
    && !(f.interactionType != NetworkData.All && KindText(p.kind) != Some(FilterText(f.interactionType)))
    && InWindow(f, cal, p)
  }

  /** The test `filteredData` runs on each point. */
  function KeptAsWritten(f: LocationFilters, cal: Calendar): Point -> bool { p => KeepsAsWritten(f, cal, p) }

  /** With the calls filter on, the test as written keeps no point at all. */
  lemma CallsFilterDropsEverything(f: LocationFilters, cal: Calendar, points: seq<Point>)
    requires f.interactionType == NetworkData.Calls
    ensures Filter(points, p => KeepsAsWritten(f, cal, p)) == []
  {
    forall i | 0 <= i < |points| ensures !KeepsAsWritten(f, cal, points[i]) {
      assert KindText(points[i].kind) != Some("calls");
    }
    FilterNone(points, p => KeepsAsWritten(f, cal, p));
  }

  /** The type test as evidently intended: `"calls"` selects call points and `"sms"` SMS points. */
  predicate TypeMatches(t: NetworkData.InteractionType, k: Kind) {
    match t
    case All => true
    case Calls => k == Call
    case Sms => k == Sms
  }

  /** The filter with the corrected type test. */
  predicate Keeps(f: LocationFilters, cal: Calendar, p: Point) {
    TypeMatches(f.interactionType, p.kind) && InWindow(f, cal, p)
  }

  /** The corrected test keeps a call point under the calls filter exactly when its date and caller pass, and agrees with the written one on the other types. */
  lemma KeepsSpec(f: LocationFilters, cal: Calendar, p: Point)
    ensures f.interactionType == NetworkData.Calls && p.kind == Call ==> (Keeps(f, cal, p) <==> InWindow(f, cal, p))
    ensures f.interactionType != NetworkData.Calls ==> (Keeps(f, cal, p) <==> KeepsAsWritten(f, cal, p))
    ensures Keeps(f, cal, p) && f.start != "" && cal.newDate(f.start).Some? && p.timestamp.Some? ==>
      p.timestamp.value >= cal.newDate(f.start).value
    ensures Keeps(f, cal, p) && |f.individuals| > 0 ==> p.phoneNumber in f.individuals
  {
  }

  /** What `filteredData` holds: the kept points and their grouping by caller. */
  datatype Filtered = Filtered(locations: seq<Point>, order: seq<string>, paths: map<string, seq<Point>>)

  /** The `filteredData` memo: keep the points the filter as written accepts, then group them by caller in list order. */
  method FilteredData(f: LocationFilters, cal: Calendar, points: seq<Point>) returns (r: Filtered)
    ensures r.locations == Filter(points, KeptAsWritten(f, cal))
    ensures r.order == PhoneOrder(r.locations) && r.paths == PathsOf(r.locations)
  {
    var kept := Filter(points, KeptAsWritten(f, cal));
    var order, paths := GroupByPhone(kept);
    r := Filtered(kept, order, paths);
  }

  /**
   * What `filteredData` shows: every kept point passes the filter as written and every point that
   * passes is kept; each caller's path is exactly that caller's kept points, in list order, and the
   * paths add up to the kept points. Under the calls filter no path is left.
   */
  lemma FilteredPathsSpec(f: LocationFilters, cal: Calendar, points: seq<Point>)
    ensures var kept := Filter(points, KeptAsWritten(f, cal));
      && (forall p :: p in kept <==> p in points && KeepsAsWritten(f, cal, p))
      && PathLengths(PhoneOrder(kept), kept) == |kept|
      && (forall k :: k in PathsOf(kept) ==> PathsOf(kept)[k] == Filter(kept, OnPhone(k)) && |PathsOf(kept)[k]| > 0)
      && (f.interactionType == NetworkData.Calls ==> PathsOf(kept) == map[])
  {
    var kept := Filter(points, KeptAsWritten(f, cal));
    FilterMembers(points, KeptAsWritten(f, cal));
    GroupedPaths(kept);
    if f.interactionType == NetworkData.Calls {
      CallsFilterDropsEverything(f, cal, points);
      NoPaths(kept);
    }
  }

  lemma FilterMembers(points: seq<Point>, keep: Point -> bool)
    ensures forall p :: p in Filter(points, keep) <==> p in points && keep(p)
  {
    var kept := Filter(points, keep);
    forall p | p in kept ensures p in points && keep(p) {
      var i :| 0 <= i < |kept| && kept[i] == p;
    }
    forall p | p in points && keep(p) ensures p in kept {
      var i :| 0 <= i < |points| && points[i] == p;
    }
  }

  lemma GroupedPaths(kept: seq<Point>)
    ensures PathLengths(PhoneOrder(kept), kept) == |kept|
    ensures forall k :: k in PathsOf(kept) ==> PathsOf(kept)[k] == Filter(kept, OnPhone(k)) && |PathsOf(kept)[k]| > 0
  {
    PathsPartitionPoints(kept);
    forall k | k in PathsOf(kept) ensures |PathsOf(kept)[k]| > 0 {
      var i :| 0 <= i < |kept| && kept[i].phoneNumber == k;
    }
  }

  lemma NoPaths(kept: seq<Point>)
    requires kept == []
    ensures PathsOf(kept) == map[]
  {
    assert PhoneOrder(kept) == [] by {
      forall k | k in PhoneOrder(kept) ensures false { }
    }
  }

  // ---------------------------------------------------------------------------
  // Selecting a caller

  /** What `onIndividualSelect` receives: the caller, its kept point count, and its latest timestamp. */
  datatype Report = Report(id: string, phoneNumber: string, interactions: nat, locations: nat, lastSeen: Option<int>)

  /**
   * `Math.max(...timestamps)` over a non-empty list of millisecond values. An invalid date is NaN,
   * which makes the maximum NaN, written `None`.
   */
  function LatestTime(ps: seq<Point>): (r: Option<int>)
    requires ps != []
    ensures r.Some? <==> forall i :: 0 <= i < |ps| ==> ps[i].timestamp.Some?
    ensures r.Some? ==> (forall i :: 0 <= i < |ps| ==> ps[i].timestamp.value <= r.value)
                        && exists i :: 0 <= i < |ps| && ps[i].timestamp == r
    decreases |ps|
  {
    if |ps| == 1 then ps[0].timestamp
    else
      var rest := LatestTime(ps[1..]);
      assert forall i :: 1 <= i < |ps| ==> ps[i] == ps[1..][i - 1];
      if ps[0].timestamp.None? || rest.None? then None
      else if ps[0].timestamp.value >= rest.value then ps[0].timestamp
      else rest
  }

  /** `setSelectedIndividual`: clicking the highlighted caller clears the highlight; any other caller takes it. */
  function ToggleIndividual(selected: Option<string>, phone: string): (r: Option<string>)
    ensures r.None? <==> selected == Some(phone)
    ensures r.Some? ==> r.value == phone
  {
    if selected == Some(phone) then None else Some(phone)
  }

  /** Two clicks on a caller restore the highlight, unless another caller was highlighted before. */
  lemma ToggleIndividualTwice(selected: Option<string>, phone: string)
    ensures selected.None? || selected == Some(phone) <==>
      ToggleIndividual(ToggleIndividual(selected, phone), phone) == selected
  {
  }

  /**
   * The report of a click: nothing when the caller has no kept point; otherwise the number of the
   * caller's kept points, twice, and the latest of their timestamps.
   */
  function IndividualReport(filtered: seq<Point>, phone: string): (r: Option<Report>)
    ensures r.None? <==> forall i :: 0 <= i < |filtered| ==> filtered[i].phoneNumber != phone
    ensures r.Some? ==> var mine := Filter(filtered, OnPhone(phone));
      && mine != []
      && r.value.id == phone && r.value.phoneNumber == phone
      && r.value.interactions == |mine| && r.value.locations == |mine|
      && r.value.lastSeen == LatestTime(mine)
  {
    var mine := Filter(filtered, OnPhone(phone));
    if mine == [] then
      assert forall i :: 0 <= i < |filtered| ==> !OnPhone(phone)(filtered[i]);
      None
    else
      assert OnPhone(phone)(mine[0]) && mine[0] in filtered;
      Some(Report(phone, phone, |mine|, |mine|, LatestTime(mine)))
  }

  /**
   * The reported time is the greatest timestamp among the caller's kept points, when all of them
   * are valid dates, and it is one of those timestamps.
   */
  lemma ReportedLatest(filtered: seq<Point>, phone: string)
    requires IndividualReport(filtered, phone).Some?
    ensures var rep := IndividualReport(filtered, phone).value;
      && (rep.lastSeen.Some? <==> forall p :: p in filtered && p.phoneNumber == phone ==> p.timestamp.Some?)
      && (rep.lastSeen.Some? ==>
            && (forall p :: p in filtered && p.phoneNumber == phone ==> p.timestamp.value <= rep.lastSeen.value)
            && exists p :: p in filtered && p.phoneNumber == phone && p.timestamp == rep.lastSeen)
  {
    var mine := Filter(filtered, OnPhone(phone));
    var rep := IndividualReport(filtered, phone).value;
    forall p | p in filtered && p.phoneNumber == phone ensures p in mine {
      var i :| 0 <= i < |filtered| && filtered[i] == p;
      assert OnPhone(phone)(filtered[i]);
    }
    forall i | 0 <= i < |mine| ensures mine[i] in filtered && mine[i].phoneNumber == phone {
      assert OnPhone(phone)(mine[i]);
    }
    if rep.lastSeen.Some? {
      var i :| 0 <= i < |mine| && mine[i].timestamp == rep.lastSeen;
      assert mine[i] in filtered && mine[i].phoneNumber == phone;
    }
  }

  /** The caller highlighted on the map. */
  class Highlight {
    var selected: Option<string>

    constructor ()
      ensures selected == None
    {
      selected := None;
    }

    /**
     * `handleIndividualClick` on the kept points: the highlight toggles, and the caller is reported
     * to the workbench when it has kept points.
     */
    method HandleIndividualClick(phone: string, filtered: seq<Point>) returns (reported: Option<Report>)
      modifies this
      ensures selected == ToggleIndividual(old(selected), phone)
      ensures reported == IndividualReport(filtered, phone)
    {
      selected := if selected == Some(phone) then None else Some(phone);
      var mine := Filter(filtered, OnPhone(phone));
      if |mine| > 0 {
        reported := Some(Report(phone, phone, |mine|, |mine|, LatestTime(mine)));
      } else {
        reported := None;
      }
    }
  }

  // ---------------------------------------------------------------------------
  // Per-caller figures and colours

  datatype IndividualStats = IndividualStats(total: nat, calls: nat, sms: nat)

  function OfKind(k: Kind): Point -> bool { (p: Point) => p.kind == k }

  /** `getIndividualStats`: the caller's kept points, and how many of them are calls and SMS. */
  function GetIndividualStats(filtered: seq<Point>, phone: string): IndividualStats {
    var locations := Filter(filtered, OnPhone(phone));
    IndividualStats(|locations|, |Filter(locations, OfKind(Call))|, |Filter(locations, OfKind(Sms))|)
  }

  /** Calls and SMS never exceed the total; they make it up exactly when every point has a type, as listing points do. */
  lemma IndividualStatsSum(filtered: seq<Point>, phone: string)
    ensures var st := GetIndividualStats(filtered, phone);
      && st.calls + st.sms <= st.total
      && ((forall i :: 0 <= i < |filtered| ==> filtered[i].kind != Untyped) ==> st.total == st.calls + st.sms)
  {
    var locations := Filter(filtered, OnPhone(phone));
    FilterDisjointCount(locations, OfKind(Call), OfKind(Sms));
    if forall i :: 0 <= i < |filtered| ==> filtered[i].kind != Untyped {
      forall i | 0 <= i < |locations| ensures OfKind(Call)(locations[i]) || OfKind(Sms)(locations[i]) {
        assert locations[i] in filtered;
      }
    }
  }

  const Colors: seq<string> := ["#FF6B6B", "#4ECDC4", "#45B7D1", "#96CEB4", "#FFEAA7", "#DDA0DD", "#98D8C8",
                                "#F7DC6F", "#BB8FCE", "#85C1E9"]

  /** `generateColor(index)`: the palette entry at `index % 10`. */
  function GenerateColor(index: nat): (c: string)
    ensures c in Colors
  {
    Colors[index % |Colors|]
  }

  /** The palette repeats every ten callers, and the first ten callers get ten different colours. */
  lemma GenerateColorCycle(i: nat, j: nat)
    ensures GenerateColor(i) == GenerateColor(i + 10)
    ensures i < j < 10 ==> GenerateColor(i) != GenerateColor(j)
  {
    assert (i + 10) % 10 == i % 10;
  }
}
