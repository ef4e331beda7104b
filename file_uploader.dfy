/**
 * The workbook intake of the workbench (`FileUploader.tsx`): recognising the
 * operator layout of a workbook from its sheet names, checking that every
 * required sheet is there, extracting subscriber and listing rows, combining
 * the results of every dropped file and staging dropped files by name.
 *
 * Reading the spreadsheet itself is outside the model: a workbook is its list
 * of sheet names plus the rows `sheet_to_json` yields for each sheet name.
 */
module FileUploader {
  import opened Common
  import opened Text
  import opened Rows
  import opened Sorting

  // ----- Sheet names -----

  /** Deletes every character outside `[a-z0-9]`. */
  function KeepLowerAlnum(s: string): (r: string)
    ensures |r| <= |s|
    ensures forall i :: 0 <= i < |r| ==> IsLowerAlnum(r[i])
    decreases |s|
  {
    if s == [] then []
    else (if IsLowerAlnum(s[0]) then [s[0]] else []) + KeepLowerAlnum(s[1..])
  }

  /** The sheet-name normaliser: lower-case, then drop everything but `[a-z0-9]`, accented letters included. */
  function SheetKey(s: string): (r: string)
    ensures forall i :: 0 <= i < |r| ==> IsLowerAlnum(r[i])
  {
    KeepLowerAlnum(ToLower(s))
  }

  lemma {:induction false} KeepLowerAlnumFixed(s: string)
    requires forall i :: 0 <= i < |s| ==> IsLowerAlnum(s[i])
    ensures KeepLowerAlnum(s) == s
    decreases |s|
  {
    if s != [] {
      KeepLowerAlnumFixed(s[1..]);
    }
  }

  /** Normalising a normalised name changes nothing. */
  lemma SheetKeyIdempotent(s: string)
    ensures SheetKey(SheetKey(s)) == SheetKey(s)
  {
    var k := SheetKey(s);
    assert ToLower(k) == k;
    KeepLowerAlnumFixed(k);
  }

  /** Normalising works character by character, so it distributes over concatenation. */
  lemma {:induction false} KeepLowerAlnumAppend(a: string, b: string)
    ensures KeepLowerAlnum(a + b) == KeepLowerAlnum(a) + KeepLowerAlnum(b)
    decreases |a|
  {
    if a == [] {
      assert a + b == b;
    } else {
      assert (a + b)[1..] == a[1..] + b;
      KeepLowerAlnumAppend(a[1..], b);
    }
  }

  /** The accented letter disappears instead of being folded: "Abonné" and "Abonne" differ. */
  lemma AccentsVanish()
    ensures SheetKey(Abonne) == "abonn"
    ensures SheetKey("Abonne") == "abonne"
  {
    AccentDropped();
    PlainKept("Abonne", "abonne");
  }

  /** "Abonné" lower-cases to "abonn" and the `é`, which the filter removes. */
  lemma AccentDropped()
    ensures SheetKey(Abonne) == "abonn"
  {
    var e := "\U{00E9}";
    assert ToLower(Abonne) == "abonn" + e;
    KeepLowerAlnumAppend("abonn", e);
    PlainKept("abonn", "abonn");
    assert KeepLowerAlnum(e) == KeepLowerAlnum(e[1..]);
  }

  /** A name whose lower-case form is already `[a-z0-9]` keeps that form. */
  lemma PlainKept(s: string, k: string)
    requires ToLower(s) == k
    requires forall i :: 0 <= i < |k| ==> IsLowerAlnum(k[i])
    ensures SheetKey(s) == k
  {
    KeepLowerAlnumFixed(k);
  }

  const Abonne := "Abonn\U{00E9}"
  const Listing := "Listing"
  const ListingAppel := "Listing Appel"
  const ListingSms := "Listing SMS"
  /** The key of the alias table, with upper-case `IMEI`. */
  const ImeiPartageAlias := "IMEI partag\U{00E9}"
  /** The required sheet of the shared-IMEI layout, spelled `Imei`. */
  const ImeiPartage := "Imei partag\U{00E9}"
  const FreqCellule := "Fr\U{00E9}quence par cellule"
  const FreqCorrespondant := "Fr\U{00E9}quence Correspondant"
  const FreqDuree := "Fr\U{00E9}quence par Dur\U{00E9}e appel"
  const FreqImei := "Fr\U{00E9}quence par IMEI"
  const Identification := "Identification des abonn\U{00E9}s"

  /** `SHEET_ALTERNATIVES[required] || []`: the table is looked up by the exact required name. */
  function Alternatives(required: string): seq<string> {
    if required == Abonne then ["Abonne", "Abonn\U{00E9}s", "Abonnes", "Subscribers", "Subscriber"]
    else if required == Listing then ["Listings", "Communications", "Calls", "Call_List"]
    else if required == ListingAppel then ["Listing_Appel", "Call Listing"]
    else if required == ListingSms then ["Listing_SMS", "SMS Listing"]
    else if required == ImeiPartageAlias then ["IMEI partag\U{00E9}", "Shared IMEI"]
    else if required == FreqCellule then ["Frequence par cellule", "Cell Frequency", "Cellule"]
    else if required == FreqCorrespondant then ["Frequence Correspondant", "Correspondent Frequency"]
    else if required == FreqDuree then ["Frequence par Duree appel", "Call Duration Frequency"]
    else if required == FreqImei then ["Frequence par IMEI", "IMEI Frequency"]
    else if required == Identification then ["Identification des abonnes", "Subscriber Identification"]
    else []
  }

  /** The first position at or after `k` whose name normalises to `key`, or -1. */
  function FindIndexFrom(names: seq<string>, key: string, k: nat): (r: int)
    requires k <= |names|
    ensures r == -1 || (k <= r < |names| && SheetKey(names[r]) == key)
    ensures forall j :: k <= j < |names| && (r == -1 || j < r) ==> SheetKey(names[j]) != key
    decreases |names| - k
  {
    if k == |names| then -1
    else if SheetKey(names[k]) == key then k
    else FindIndexFrom(names, key, k + 1)
  }

  /** `sheetNames.find(name => normalize(name) === key)` */
  function FindName(names: seq<string>, key: string): (r: Option<string>)
    ensures r.None? <==> forall j :: 0 <= j < |names| ==> SheetKey(names[j]) != key
    ensures r.Some? ==> r.value in names && SheetKey(r.value) == key
    ensures r.Some? ==>
      exists i :: 0 <= i < |names| && r.value == names[i] && forall j :: 0 <= j < i ==> SheetKey(names[j]) != key
  {
    var i := FindIndexFrom(names, key, 0);
    if i < 0 then None else Some(names[i])
  }

  /** A `find` result that `if (...)` accepts: found and not the empty string. */
  predicate Hit(o: Option<string>) { o.Some? && o.value != "" }

  /** The alias loop: the first alias, in list order, that some sheet name matches. */
  function FindAlternative(names: seq<string>, alts: seq<string>): (r: Option<string>)
    ensures r.Some? ==> r.value in names && r.value != ""
    ensures r.Some? ==> exists k :: 0 <= k < |alts| && SheetKey(r.value) == SheetKey(alts[k])
    decreases |alts|
  {
    if alts == [] then None
    else
      var found := FindName(names, SheetKey(alts[0]));
      if Hit(found) then found
      else
        var r := FindAlternative(names, alts[1..]);
        assert r.Some? ==> exists k :: 1 <= k < |alts| && SheetKey(r.value) == SheetKey(alts[k]);
        r
  }

  /** `findSheetMatch`: an exact normalised match first, then the aliases of the required name. */
  function FindSheetMatch(names: seq<string>, required: string): (r: Option<string>)
    ensures r.Some? ==> r.value in names && r.value != ""
    ensures r.Some? ==> (SheetKey(r.value) == SheetKey(required)
      || exists k :: 0 <= k < |Alternatives(required)| && SheetKey(r.value) == SheetKey(Alternatives(required)[k]))
  {
    var exact := FindName(names, SheetKey(required));
    if Hit(exact) then exact else FindAlternative(names, Alternatives(required))
  }

  /** Some sheet name normalises to `key` (`FindName` states both directions). */
  predicate Named(names: seq<string>, key: string) {
    FindName(names, key).Some?
  }

  /** The position of the first alias at or after `k` that some sheet name matches, or -1. */
  function FirstNamedAlias(names: seq<string>, alts: seq<string>, k: nat): (r: int)
    requires k <= |alts|
    ensures r == -1 || (k <= r < |alts| && Named(names, SheetKey(alts[r])))
    ensures forall j :: k <= j < |alts| && (r == -1 || j < r) ==> !Named(names, SheetKey(alts[j]))
    decreases |alts| - k
  {
    if k == |alts| then -1
    else if Named(names, SheetKey(alts[k])) then k
    else FirstNamedAlias(names, alts, k + 1)
  }

  /** The alias loop returns the first sheet matching the first alias, in list order, that any sheet matches. */
  lemma {:induction false} AliasOrder(names: seq<string>, alts: seq<string>, k: nat)
    requires "" !in names && k <= |alts|
    ensures FindAlternative(names, alts[k..]) ==
      var r := FirstNamedAlias(names, alts, k);
      if r < 0 then None else FindName(names, SheetKey(alts[r]))
    decreases |alts| - k
  {
    if k < |alts| {
      assert alts[k..][0] == alts[k];
      assert alts[k..][1..] == alts[k + 1..];
      var found := FindName(names, SheetKey(alts[k]));
      if found.Some? {
        assert found.value in names;
      } else {
        AliasOrder(names, alts, k + 1);
      }
    }
  }

  /**
   * With non-empty sheet names, `findSheetMatch` returns the first sheet that
   * matches the required name exactly, and only when there is none the first
   * sheet matching the first alias that any sheet matches; otherwise nothing.
   */
  lemma FindSheetMatchSpec(names: seq<string>, required: string)
    requires "" !in names
    ensures FindSheetMatch(names, required) ==
      if Named(names, SheetKey(required)) then FindName(names, SheetKey(required))
      else
        var r := FirstNamedAlias(names, Alternatives(required), 0);
        if r < 0 then None else FindName(names, SheetKey(Alternatives(required)[r]))
  {
    var exact := FindName(names, SheetKey(required));
    if exact.Some? {
      assert exact.value in names;
    }
    AliasOrder(names, Alternatives(required), 0);
    assert Alternatives(required)[0..] == Alternatives(required);
  }

  // ----- SMS listings -----

  const NumeroA := "Num\U{00E9}ro A"
  const NumeroB := "Num\U{00E9}ro B"
  const SmsSender := "Num\U{00E9}ro \U{00E9}metteur"
  const SmsReceiver := "Num\U{00E9}ro r\U{00E9}cepteur"
  const SmsDate := "Date SMS"
  const SmsLocation := "Localisation num\U{00E9}ro Destination (Longitude, Latitude)"
  const SmsImei := "IMEI num\U{00E9}ro r\U{00E9}cepteur"

  /** The keys of a row `normalizeSmsData` builds, in literal order. */
  const SmsRowKeys: seq<string> := [NumeroA, NumeroB, "Date", "Heure", "Localisation", "IMEI", "Type"]

  /**
   * One SMS row renamed to the call-listing columns. `sheet_to_json` is asked for
   * formatted text, so `Date SMS` is never a `Date` object: the date is copied and
   * `Heure` is always empty.
   */
  function NormalizeSmsRow(row: Row): (r: Row)
    ensures Keys(r) == SmsRowKeys && UniqueKeys(r)
    ensures Get(r, "Type") == Str("SMS")
    ensures Get(r, NumeroA) == Get(row, SmsSender)
    ensures Get(r, NumeroB) == Get(row, SmsReceiver)
    ensures Get(r, "Date") == Get(row, SmsDate)
    ensures Get(r, "Heure") == Str("")
  {
    var r := [ (NumeroA, Get(row, SmsSender)),
               (NumeroB, Get(row, SmsReceiver)),
               ("Date", Get(row, SmsDate)),
               ("Heure", Str("")),
               ("Localisation", Get(row, SmsLocation)),
               ("IMEI", Get(row, SmsImei)),
               ("Type", Str("SMS")) ];
    assert Keys(r) == SmsRowKeys;
    SmsKeysUnique(r);
    GetAt(r, 0);
    GetAt(r, 1);
    GetAt(r, 2);
    GetAt(r, 3);
    GetAt(r, 6);
    r
  }

  /** The renamed columns are seven different keys. */
  lemma SmsKeysUnique(r: Row)
    requires Keys(r) == SmsRowKeys
    ensures UniqueKeys(r)
  {
    forall i, j | 0 <= i < j < |r| ensures r[i].0 != r[j].0 {
      assert r[i].0 == SmsRowKeys[i] && r[j].0 == SmsRowKeys[j];
    }
  }

  /** `normalizeSmsData`: one renamed row per input row, in order. */
  function NormalizeSmsData(rows: seq<Row>): (r: seq<Row>)
    ensures |r| == |rows|
    ensures forall i :: 0 <= i < |rows| ==> r[i] == NormalizeSmsRow(rows[i])
  {
    seq(|rows|, i requires 0 <= i < |rows| => NormalizeSmsRow(rows[i]))
  }

  // ----- Layouts -----

  /** A sheet feeding one of the two outputs, possibly through the SMS renaming. */
  datatype Mapping = Mapping(sheet: string, sms: bool)

  /** The two detector shapes of the configuration table. */
  datatype Detector =
    | CallAndSmsListings   // both "Listing Appel" and "Listing SMS" are found
    | AnyListing           // "Listing" is found

  datatype Layout = Layout(
    id: string, name: string, detector: Detector, required: seq<string>,
    subscribers: seq<Mapping>, listings: seq<Mapping>)

  const Orange := Layout(
    "TYPE_2_CALL_SMS", "Orange Listing ", CallAndSmsListings,
    [Abonne, ListingAppel, ListingSms, FreqCellule, FreqCorrespondant, FreqDuree, FreqImei, Identification],
    [Mapping(Abonne, false)], [Mapping(ListingAppel, false), Mapping(ListingSms, true)])

  const Mtn := Layout(
    "TYPE_1_STANDARD", "MTN Listing", AnyListing,
    [Abonne, Listing, FreqCellule, FreqCorrespondant, FreqDuree, FreqImei, Identification],
    [Mapping(Abonne, false)], [Mapping(Listing, false)])

  const SharedImei := Layout(
    "TYPE_3_SHARED_IMEI", "IMEI Listing", AnyListing,
    [ImeiPartage, Listing, FreqCellule, FreqCorrespondant, Identification],
    [Mapping(ImeiPartage, false)], [Mapping(Listing, false)])

  /** `FILE_STRUCTURE_CONFIGS`, in the order detection tries them. */
  const Layouts: seq<Layout> := [Orange, Mtn, SharedImei]

  /** `findSheetMatch` over one workbook's sheet names, as a function value, so that the layout lemmas need not unfold it. */
  function Matcher(names: seq<string>): string -> Option<string> {
    required => FindSheetMatch(names, required)
  }

  predicate Detects(d: Detector, find: string -> Option<string>) {
    match d
    case CallAndSmsListings => find(ListingAppel).Some? && find(ListingSms).Some?
    case AnyListing => find(Listing).Some?
  }

  function FirstDetected(find: string -> Option<string>, layouts: seq<Layout>): (r: Option<Layout>)
    ensures r.Some? ==> r.value in layouts && Detects(r.value.detector, find)
    ensures r.None? <==> forall i :: 0 <= i < |layouts| ==> !Detects(layouts[i].detector, find)
    decreases |layouts|
  {
    if layouts == [] then None
    else if Detects(layouts[0].detector, find) then Some(layouts[0])
    else FirstDetected(find, layouts[1..])
  }

  /** `FILE_STRUCTURE_CONFIGS.find(c => c.detector(sheetNames))` */
  function Detect(find: string -> Option<string>): Option<Layout> {
    FirstDetected(find, Layouts)
  }

  /**
   * The call-and-SMS layout is tried first, the standard one second, and the
   * shared-IMEI layout is never chosen: its detector is the standard one's.
   */
  lemma DetectChoice(find: string -> Option<string>)
    ensures Detect(find) == Some(Orange) <==> Detects(CallAndSmsListings, find)
    ensures Detect(find) == Some(Mtn) <==> !Detects(CallAndSmsListings, find) && Detects(AnyListing, find)
    ensures Detect(find) == None <==> !Detects(CallAndSmsListings, find) && !Detects(AnyListing, find)
    ensures Detect(find) != Some(SharedImei)
  {
    assert Layouts[1..] == [Mtn, SharedImei];
    assert Layouts[1..][1..] == [SharedImei];
    assert |Mtn.name| != |SharedImei.name|;
    if Detects(CallAndSmsListings, find) {
      assert Detect(find) == Some(Orange);
    } else if Detects(AnyListing, find) {
      assert FirstDetected(find, Layouts[1..]) == Some(Mtn);
    } else {
      assert FirstDetected(find, Layouts[1..][1..]) == None;
    }
  }

  // ----- One workbook -----

  /** A workbook: its sheet names and, per sheet name, the rows `sheet_to_json` yields. */
  datatype Workbook = Workbook(sheetNames: seq<string>, sheetRows: string -> seq<Row>)

  datatype ExcelData = ExcelData(subscribers: seq<Row>, listings: seq<Row>)

  /** What `validateAndParseWorkbook` returns. */
  datatype Parsed = Parsed(data: Option<ExcelData>, missingSheets: seq<string>, fileType: string)

  const Unrecognized := "File structure not recognized."
  const UnknownStructure := "Unknown Structure"

  /** The required sheets that `find` does not match, in required order. */
  function Missing(find: string -> Option<string>, required: seq<string>): (r: seq<string>)
    ensures |r| <= |required|
    decreases |required|
  {
    if required == [] then []
    else
      var last := required[|required| - 1];
      Missing(find, required[..|required| - 1]) + (if find(last).Some? then [] else [last])
  }

  /** `foundSheets`: each matched required sheet to the sheet name that matched it. */
  function FoundSheets(find: string -> Option<string>, required: seq<string>): map<string, string>
    decreases |required|
  {
    if required == [] then map[]
    else
      var last := required[|required| - 1];
      var m := FoundSheets(find, required[..|required| - 1]);
      if find(last).Some? then m[last := find(last).value] else m
  }

  /** The rows one mapping contributes: the sheet's rows, through the SMS renaming when asked. */
  function MappedRows(wb: Workbook, found: map<string, string>, m: Mapping): seq<Row> {
    if m.sheet in found && found[m.sheet] != "" then
      var rows := wb.sheetRows(found[m.sheet]);
      if m.sms then NormalizeSmsData(rows) else rows
    else []
  }

  /** The rows of a list of mappings, concatenated in mapping order. */
  function Collect(wb: Workbook, found: map<string, string>, ms: seq<Mapping>): seq<Row>
    decreases |ms|
  {
    if ms == [] then [] else Collect(wb, found, ms[..|ms| - 1]) + MappedRows(wb, found, ms[|ms| - 1])
  }

  /** `validateAndParseWorkbook` as a value, given the workbook's sheet matcher. */
  function ParseWith(wb: Workbook, find: string -> Option<string>): Parsed {
    match Detect(find)
    case None => Parsed(None, [Unrecognized], UnknownStructure)
    case Some(layout) =>
      var missing := Missing(find, layout.required);
      if |missing| > 0 then Parsed(None, missing, layout.name)
      else
        var found := FoundSheets(find, layout.required);
        Parsed(Some(ExcelData(Collect(wb, found, layout.subscribers), Collect(wb, found, layout.listings))), [], layout.name)
  }

  /** `validateAndParseWorkbook` as a value. */
  function ParseWorkbook(wb: Workbook): Parsed {
    ParseWith(wb, Matcher(wb.sheetNames))
  }

  /** `validateAndParseWorkbook`: detection, a loop over the required sheets, then a loop over the mappings. */
  method ValidateAndParseWorkbook(wb: Workbook) returns (r: Parsed)
    ensures r == ParseWorkbook(wb)
  {
    var names := wb.sheetNames;
    var find := Matcher(names);
    var config := Detect(find);
    if config.None? {
      return Parsed(None, [Unrecognized], UnknownStructure);
    }
    var layout := config.value;
    var missingSheets, foundSheets := CheckRequired(names, layout.required);
    if |missingSheets| > 0 {
      return Parsed(None, missingSheets, layout.name);
    }
    var subscribers := CollectRows(wb, foundSheets, layout.subscribers);
    var listings := CollectRows(wb, foundSheets, layout.listings);
    r := Parsed(Some(ExcelData(subscribers, listings)), [], layout.name);
  }

  /** The loop over the required sheets: each is either recorded with its match or listed as missing. */
  method CheckRequired(names: seq<string>, required: seq<string>) returns (missingSheets: seq<string>, foundSheets: map<string, string>)
    ensures missingSheets == Missing(Matcher(names), required)
    ensures foundSheets == FoundSheets(Matcher(names), required)
  {
    var find := Matcher(names);
    missingSheets := [];
    foundSheets := map[];
    var i := 0;
    while i < |required|
      invariant 0 <= i <= |required|
      invariant missingSheets == Missing(find, required[..i])
      invariant foundSheets == FoundSheets(find, required[..i])
    {
      assert required[..i + 1][..i] == required[..i];
      var requiredSheet := required[i];
      var match_ := FindSheetMatch(names, requiredSheet);
      assert match_ == find(requiredSheet);
      if match_.Some? {
        foundSheets := foundSheets[requiredSheet := match_.value];
      } else {
        missingSheets := missingSheets + [requiredSheet];
      }
      i := i + 1;
    }
    assert required[..i] == required;
  }

  /** The inner mapping loop: pushes each mapped sheet's rows onto the output. */
  method CollectRows(wb: Workbook, found: map<string, string>, ms: seq<Mapping>) returns (rows: seq<Row>)
    ensures rows == Collect(wb, found, ms)
  {
    rows := [];
    var j := 0;
    while j < |ms|
      invariant 0 <= j <= |ms|
      invariant rows == Collect(wb, found, ms[..j])
    {
      assert ms[..j + 1][..j] == ms[..j];
      var mapping := ms[j];
      if mapping.sheet in found && found[mapping.sheet] != "" {
        var sheetData := wb.sheetRows(found[mapping.sheet]);
        var processed := if mapping.sms then NormalizeSmsData(sheetData) else sheetData;
        rows := rows + processed;
      }
      j := j + 1;
    }
    assert ms[..j] == ms;
  }

  /** Missing sheets are listed in required order: the list of a concatenation is the concatenation of the lists. */
  lemma {:induction false} MissingAppend(find: string -> Option<string>, a: seq<string>, b: seq<string>)
    ensures Missing(find, a + b) == Missing(find, a) + Missing(find, b)
    decreases |b|
  {
    if b == [] {
      assert a + b == a;
    } else {
      var b' := b[..|b| - 1];
      assert (a + b)[..|a + b| - 1] == a + b';
      assert (a + b)[|a + b| - 1] == b[|b| - 1];
      MissingAppend(find, a, b');
    }
  }

  /** A name is listed as missing exactly when it is required and not matched. */
  lemma {:induction false} MissingMembers(find: string -> Option<string>, required: seq<string>, x: string)
    ensures x in Missing(find, required) <==> x in required && find(x).None?
    decreases |required|
  {
    if required != [] {
      var p := required[..|required| - 1];
      MissingMembers(find, p, x);
      assert required == p + [required[|required| - 1]];
    }
  }

  /** `foundSheets` holds exactly the matched required sheets, each with its match. */
  lemma {:induction false} FoundSheetsEntries(find: string -> Option<string>, required: seq<string>, x: string)
    ensures x in FoundSheets(find, required) <==> x in required && find(x).Some?
    ensures x in FoundSheets(find, required) ==> FoundSheets(find, required)[x] == find(x).value
    decreases |required|
  {
    if required != [] {
      var p := required[..|required| - 1];
      FoundSheetsEntries(find, p, x);
      assert required == p + [required[|required| - 1]];
    }
  }

  /** An unrecognised workbook yields no data, the one fixed message, and the unknown file type. */
  lemma UnknownWorkbook(wb: Workbook, find: string -> Option<string>)
    ensures ParseWith(wb, find).fileType == UnknownStructure <==> Detect(find).None?
    ensures Detect(find).None? ==>
      ParseWith(wb, find).data.None? && ParseWith(wb, find).missingSheets == [Unrecognized]
  {
    DetectChoice(find);
    assert |UnknownStructure| != |Orange.name| && |UnknownStructure| != |Mtn.name|;
  }

  /**
   * A recognised workbook yields data exactly when every required sheet is
   * matched; otherwise the missing list names exactly the unmatched ones.
   */
  lemma RecognisedWorkbook(wb: Workbook, find: string -> Option<string>, x: string)
    requires Detect(find).Some?
    ensures var layout := Detect(find).value;
      && ParseWith(wb, find).fileType == layout.name
      && (ParseWith(wb, find).data.Some? <==> forall k :: 0 <= k < |layout.required| ==> find(layout.required[k]).Some?)
      && (ParseWith(wb, find).data.Some? <==> ParseWith(wb, find).missingSheets == [])
      && (ParseWith(wb, find).data.None? ==>
           (x in ParseWith(wb, find).missingSheets <==> x in layout.required && find(x).None?))
  {
    var layout := Detect(find).value;
    MissingMembers(find, layout.required, x);
    forall k | 0 <= k < |layout.required|
      ensures find(layout.required[k]).None? ==> |Missing(find, layout.required)| > 0
    {
      MissingMembers(find, layout.required, layout.required[k]);
    }
    if |Missing(find, layout.required)| > 0 {
      var y := Missing(find, layout.required)[0];
      MissingMembers(find, layout.required, y);
    }
  }

  lemma CollectPair(wb: Workbook, found: map<string, string>, m1: Mapping, m2: Mapping)
    ensures Collect(wb, found, [m1]) == MappedRows(wb, found, m1)
    ensures Collect(wb, found, [m1, m2]) == MappedRows(wb, found, m1) + MappedRows(wb, found, m2)
  {
    assert [m1][..0] == [];
    assert [m1, m2][..1] == [m1];
  }

  /** What a workbook whose required sheets are all matched yields: the mapped rows of its layout. */
  lemma ParsedData(wb: Workbook, find: string -> Option<string>)
    requires Detect(find).Some? && ParseWith(wb, find).data.Some?
    ensures var layout := Detect(find).value;
      var found := FoundSheets(find, layout.required);
      ParseWith(wb, find).data.value == ExcelData(Collect(wb, found, layout.subscribers), Collect(wb, found, layout.listings))
  {
  }

  /**
   * A parsed call-and-SMS workbook: the subscribers are the subscriber sheet's
   * rows, the listings the call sheet's rows followed by the renamed SMS rows.
   */
  lemma OrangeData(wb: Workbook, find: string -> Option<string>)
    requires forall x :: find(x).Some? ==> find(x).value != ""
    requires Detect(find) == Some(Orange) && ParseWith(wb, find).data.Some?
    ensures find(Abonne).Some? && find(ListingAppel).Some? && find(ListingSms).Some?
    ensures ParseWith(wb, find).data.value.subscribers == wb.sheetRows(find(Abonne).value)
    ensures ParseWith(wb, find).data.value.listings ==
      wb.sheetRows(find(ListingAppel).value) + NormalizeSmsData(wb.sheetRows(find(ListingSms).value))
  {
    var found := FoundSheets(find, Orange.required);
    ParsedData(wb, find);
    RecognisedWorkbook(wb, find, Abonne);
    assert Orange.required[0] == Abonne && Orange.required[1] == ListingAppel && Orange.required[2] == ListingSms;
    assert find(Orange.required[0]).Some? && find(Orange.required[1]).Some? && find(Orange.required[2]).Some?;
    FoundSheetsEntries(find, Orange.required, Abonne);
    FoundSheetsEntries(find, Orange.required, ListingAppel);
    FoundSheetsEntries(find, Orange.required, ListingSms);
    CollectPair(wb, found, Mapping(Abonne, false), Mapping(ListingAppel, false));
    CollectPair(wb, found, Mapping(ListingAppel, false), Mapping(ListingSms, true));
  }

  /** A parsed standard workbook: the subscriber sheet's rows and the listing sheet's rows, unchanged. */
  lemma MtnData(wb: Workbook, find: string -> Option<string>)
    requires forall x :: find(x).Some? ==> find(x).value != ""
    requires Detect(find) == Some(Mtn) && ParseWith(wb, find).data.Some?
    ensures find(Abonne).Some? && find(Listing).Some?
    ensures ParseWith(wb, find).data.value.subscribers == wb.sheetRows(find(Abonne).value)
    ensures ParseWith(wb, find).data.value.listings == wb.sheetRows(find(Listing).value)
  {
    var found := FoundSheets(find, Mtn.required);
    ParsedData(wb, find);
    RecognisedWorkbook(wb, find, Abonne);
    assert Mtn.required[0] == Abonne && Mtn.required[1] == Listing;
    assert find(Mtn.required[0]).Some? && find(Mtn.required[1]).Some?;
    FoundSheetsEntries(find, Mtn.required, Abonne);
    FoundSheetsEntries(find, Mtn.required, Listing);
    CollectPair(wb, found, Mapping(Abonne, false), Mapping(Listing, false));
    CollectPair(wb, found, Mapping(Listing, false), Mapping(Abonne, false));
  }

  /** Every workbook's matcher yields only non-empty sheet names, as the two lemmas above assume. */
  lemma MatcherNonEmpty(names: seq<string>)
    ensures forall x :: Matcher(names)(x).Some? ==> Matcher(names)(x).value != ""
  {
  }

  // ----- All dropped files -----

  /** One workbook of a file: a plain workbook, or one member of a ZIP archive. */
  datatype NamedWorkbook = NamedWorkbook(name: string, workbook: Workbook)

  /** What reading a dropped file gives: its workbooks, or the message of the error it raised. */
  datatype Contents = Unreadable(message: string) | Workbooks(entries: seq<NamedWorkbook>)

  datatype StagedFile = StagedFile(name: string, contents: Contents)

  datatype FileStatus = FileStatus(
    id: string, fileName: string, success: bool, fileType: string,
    sheetsFound: seq<string>, sheetsMissing: seq<string>, error: Option<string>)

  /** The statuses and the combined data gathered so far. */
  datatype Batch = Batch(statuses: seq<FileStatus>, combined: ExcelData)

  const EmptyBatch := Batch([], ExcelData([], []))

  const ReadError := "Read Error"

  /** One workbook's status, and its rows appended to the combined data when it parsed. */
  function AddWorkbook(b: Batch, fileName: string, w: NamedWorkbook): (r: Batch)
    ensures |r.statuses| == |b.statuses| + 1
  {
    var p := ParseWorkbook(w.workbook);
    var id := fileName + "-" + w.name;
    match p.data
    case Some(data) =>
      Batch(b.statuses + [FileStatus(id, w.name, true, p.fileType, w.workbook.sheetNames, [], None)],
            ExcelData(b.combined.subscribers + data.subscribers, b.combined.listings + data.listings))
    case None =>
      Batch(b.statuses + [FileStatus(id, w.name, false, p.fileType, w.workbook.sheetNames, p.missingSheets, None)], b.combined)
  }

  function AddWorkbooks(b: Batch, fileName: string, ws: seq<NamedWorkbook>): (r: Batch)
    ensures |r.statuses| == |b.statuses| + |ws|
    decreases |ws|
  {
    if ws == [] then b else AddWorkbook(AddWorkbooks(b, fileName, ws[..|ws| - 1]), fileName, ws[|ws| - 1])
  }

  /** One file: a single failure status when it could not be read, else one status per workbook. */
  function AddFile(b: Batch, f: StagedFile): Batch {
    match f.contents
    case Unreadable(message) =>
      Batch(b.statuses + [FileStatus(f.name, f.name, false, ReadError, [], [], Some(message))], b.combined)
    case Workbooks(ws) => AddWorkbooks(b, f.name, ws)
  }

  function Gather(files: seq<StagedFile>): Batch
    decreases |files|
  {
    if files == [] then EmptyBatch else AddFile(Gather(files[..|files| - 1]), files[|files| - 1])
  }

  function StatusName(s: FileStatus): string { s.fileName }

  /** The state `processAllFiles` leaves behind. */
  datatype Processed = Processed(statuses: seq<FileStatus>, parsedData: Option<ExcelData>, analysisName: string, reportError: bool)

  /**
   * `processAllFiles` as a value: `None` when no file is staged (nothing
   * happens); `stamp` is the current date as `toLocaleString` prints it.
   */
  function ProcessAll(files: seq<StagedFile>, analysisName: string, stamp: string): Option<Processed> {
    if files == [] then None
    else
      var b := Gather(files);
      LexLeIsTotalOrder();
      var statuses := SortBy(b.statuses, StatusName, LexLe);
      if |b.combined.listings| > 0 then
        Some(Processed(statuses, Some(b.combined), if analysisName == "" then "Analysis - " + stamp else analysisName, false))
      else Some(Processed(statuses, None, analysisName, true))
  }

  /** One pass of the workbook loop: validate the workbook, record its status and, when it parsed, add its rows. */
  method AddWorkbookStep(b: Batch, fileName: string, w: NamedWorkbook) returns (r: Batch)
    ensures r == AddWorkbook(b, fileName, w)
  {
    var p := ValidateAndParseWorkbook(w.workbook);
    var id := fileName + "-" + w.name;
    if p.data.Some? {
      var data := p.data.value;
      r := Batch(b.statuses + [FileStatus(id, w.name, true, p.fileType, w.workbook.sheetNames, [], None)],
                 ExcelData(b.combined.subscribers + data.subscribers, b.combined.listings + data.listings));
    } else {
      r := Batch(b.statuses + [FileStatus(id, w.name, false, p.fileType, w.workbook.sheetNames, p.missingSheets, None)], b.combined);
    }
  }

  lemma AddWorkbooksNext(b: Batch, fileName: string, ws: seq<NamedWorkbook>, j: nat)
    requires j < |ws|
    ensures AddWorkbooks(b, fileName, ws[..j + 1]) == AddWorkbook(AddWorkbooks(b, fileName, ws[..j]), fileName, ws[j])
  {
    assert ws[..j + 1][..j] == ws[..j];
  }

  /** The workbook loop of one readable file. */
  method AddWorkbooksLoop(b: Batch, fileName: string, ws: seq<NamedWorkbook>) returns (r: Batch)
    ensures r == AddWorkbooks(b, fileName, ws)
  {
    r := b;
    var j := 0;
    while j < |ws|
      invariant 0 <= j <= |ws|
      invariant r == AddWorkbooks(b, fileName, ws[..j])
    {
      AddWorkbooksNext(b, fileName, ws, j);
      r := AddWorkbookStep(r, fileName, ws[j]);
      j := j + 1;
    }
    assert ws[..j] == ws;
  }

  /** `processAllFiles`: gathers every file's statuses and rows, sorts the statuses, and decides on the data. */
  method ProcessAllFiles(files: seq<StagedFile>, analysisName: string, stamp: string) returns (r: Option<Processed>)
    ensures r == ProcessAll(files, analysisName, stamp)
  {
    if |files| == 0 {
      return None;
    }
    var b := EmptyBatch;
    var i := 0;
    while i < |files|
      invariant 0 <= i <= |files|
      invariant b == Gather(files[..i])
    {
      assert files[..i + 1][..i] == files[..i];
      var file := files[i];
      match file.contents {
        case Unreadable(message) =>
          b := Batch(b.statuses + [FileStatus(file.name, file.name, false, ReadError, [], [], Some(message))], b.combined);
        case Workbooks(ws) =>
          b := AddWorkbooksLoop(b, file.name, ws);
      }
      i := i + 1;
    }
    assert files[..i] == files;
    LexLeIsTotalOrder();
    var statuses := SortBy(b.statuses, StatusName, LexLe);
    if |b.combined.listings| > 0 {
      var name := if analysisName == "" then "Analysis - " + stamp else analysisName;
      r := Some(Processed(statuses, Some(b.combined), name, false));
    } else {
      r := Some(Processed(statuses, None, analysisName, true));
    }
  }

  /** How many statuses a list of files produces: one per unreadable file, one per workbook otherwise. */
  function StatusCount(files: seq<StagedFile>): nat
    decreases |files|
  {
    if files == [] then 0
    else
      StatusCount(files[..|files| - 1])
        + match files[|files| - 1].contents
          case Unreadable(_) => 1
          case Workbooks(ws) => |ws|
  }

  /**
   * After processing, the statuses are sorted by file name, are a permutation
   * of the gathered ones (one per workbook or unreadable file), and the error
   * is reported exactly when no listing row was extracted.
   */
  lemma {:induction false} ProcessedStatuses(files: seq<StagedFile>, analysisName: string, stamp: string)
    requires files != []
    ensures var r := ProcessAll(files, analysisName, stamp);
      r.Some?
      && SortedBy(r.value.statuses, StatusName, LexLe)
      && multiset(r.value.statuses) == multiset(Gather(files).statuses)
      && |r.value.statuses| == StatusCount(files)
      && (r.value.reportError <==> |Gather(files).combined.listings| == 0)
      && (r.value.parsedData.Some? ==> r.value.parsedData.value == Gather(files).combined)
  {
    GatherCount(files);
  }

  lemma {:induction false} GatherCount(files: seq<StagedFile>)
    ensures |Gather(files).statuses| == StatusCount(files)
    decreases |files|
  {
    if files != [] {
      GatherCount(files[..|files| - 1]);
    }
  }

  /** Every workbook of the list fails to parse (or the file cannot be read at all). */
  predicate NothingParses(files: seq<StagedFile>) {
    forall i :: 0 <= i < |files| ==> match files[i].contents
      case Unreadable(_) => true
      case Workbooks(ws) => forall j :: 0 <= j < |ws| ==> ParseWorkbook(ws[j].workbook).data.None?
  }

  lemma {:induction false} AddWorkbooksKeepsData(b: Batch, fileName: string, ws: seq<NamedWorkbook>)
    requires forall j :: 0 <= j < |ws| ==> ParseWorkbook(ws[j].workbook).data.None?
    ensures AddWorkbooks(b, fileName, ws).combined == b.combined
    decreases |ws|
  {
    if ws != [] {
      AddWorkbooksKeepsData(b, fileName, ws[..|ws| - 1]);
    }
  }

  /** When nothing parses, no data is combined and the error callback fires. */
  lemma {:induction false} NothingParsesReportsError(files: seq<StagedFile>, analysisName: string, stamp: string)
    requires files != [] && NothingParses(files)
    ensures Gather(files).combined == ExcelData([], [])
    ensures ProcessAll(files, analysisName, stamp).value.reportError
    ensures ProcessAll(files, analysisName, stamp).value.parsedData.None?
    decreases |files|
  {
    var p := files[..|files| - 1];
    assert NothingParses(p) by {
      forall i | 0 <= i < |p| ensures p[i] == files[i] { }
    }
    if p != [] {
      NothingParsesReportsError(p, analysisName, stamp);
    }
    var last := files[|files| - 1];
    if last.contents.Workbooks? {
      AddWorkbooksKeepsData(Gather(p), last.name, last.contents.entries);
    }
  }

  // ----- Staging and starting -----

  function Names(files: seq<StagedFile>): set<string> {
    set i | 0 <= i < |files| :: files[i].name
  }

  /** The dropped files whose names are not in `taken`, in drop order. */
  function KeepNew(taken: set<string>, dropped: seq<StagedFile>): (r: seq<StagedFile>)
    ensures forall i :: 0 <= i < |r| ==> r[i].name !in taken
    ensures |r| <= |dropped|
    decreases |dropped|
  {
    if dropped == [] then []
    else (if dropped[0].name in taken then [] else [dropped[0]]) + KeepNew(taken, dropped[1..])
  }

  /** `onDrop`: the staged files, followed by the dropped ones whose names were not staged yet. */
  function OnDrop(staged: seq<StagedFile>, dropped: seq<StagedFile>): (r: seq<StagedFile>)
    ensures |r| >= |staged| && r[..|staged|] == staged
  {
    if dropped == [] then staged else staged + KeepNew(Names(staged), dropped)
  }

  lemma {:induction false} KeepNewNames(taken: set<string>, dropped: seq<StagedFile>)
    ensures Names(KeepNew(taken, dropped)) == Names(dropped) - taken
    decreases |dropped|
  {
    if dropped != [] {
      KeepNewNames(taken, dropped[1..]);
      var head := if dropped[0].name in taken then [] else [dropped[0]];
      var tail := KeepNew(taken, dropped[1..]);
      assert KeepNew(taken, dropped) == head + tail;
      NamesAppend(head, tail);
      NamesAppend([dropped[0]], dropped[1..]);
      assert dropped == [dropped[0]] + dropped[1..];
      assert Names([dropped[0]]) == {dropped[0].name};
    }
  }

  /** The names of two lists of files put together are the names of each. */
  lemma NamesAppend(a: seq<StagedFile>, b: seq<StagedFile>)
    ensures Names(a + b) == Names(a) + Names(b)
  {
    var ab := a + b;
    forall x | x in Names(ab) ensures x in Names(a) + Names(b) {
      var i :| 0 <= i < |ab| && ab[i].name == x;
      if i >= |a| { assert b[i - |a|].name == x; } else { assert a[i].name == x; }
    }
    forall x | x in Names(a) + Names(b) ensures x in Names(ab) {
      if x in Names(a) {
        var i :| 0 <= i < |a| && a[i].name == x;
        assert ab[i].name == x;
      } else {
        var i :| 0 <= i < |b| && b[i].name == x;
        assert ab[|a| + i].name == x;
      }
    }
  }

  /** Every added file has a name that was not staged, and every dropped name ends up staged. */
  lemma OnDropNames(staged: seq<StagedFile>, dropped: seq<StagedFile>)
    ensures Names(OnDrop(staged, dropped)) == Names(staged) + Names(dropped)
    ensures forall i :: |staged| <= i < |OnDrop(staged, dropped)| ==> OnDrop(staged, dropped)[i].name !in Names(staged)
  {
    if dropped != [] {
      var added := KeepNew(Names(staged), dropped);
      KeepNewNames(Names(staged), dropped);
      NamesAppend(staged, added);
    }
  }

  /** Dropping the same files twice stages them once. */
  lemma OnDropIdempotent(staged: seq<StagedFile>, dropped: seq<StagedFile>)
    ensures OnDrop(OnDrop(staged, dropped), dropped) == OnDrop(staged, dropped)
  {
    if dropped != [] {
      var once := OnDrop(staged, dropped);
      OnDropNames(staged, dropped);
      KeepNewNone(Names(once), dropped);
    }
  }

  lemma {:induction false} KeepNewNone(taken: set<string>, dropped: seq<StagedFile>)
    requires Names(dropped) <= taken
    ensures KeepNew(taken, dropped) == []
    decreases |dropped|
  {
    if dropped != [] {
      assert dropped[0].name in Names(dropped);
      assert Names(dropped[1..]) <= Names(dropped) by {
        forall x | x in Names(dropped[1..]) ensures x in Names(dropped) {
          var i :| 0 <= i < |dropped[1..]| && dropped[1..][i].name == x;
          assert dropped[i + 1].name == x;
        }
      }
      KeepNewNone(taken, dropped[1..]);
    }
  }

  /** `handleStartAnalysis`: hands over the data and the trimmed name, when both are there. */
  function StartAnalysis(parsed: Option<ExcelData>, analysisName: string): (r: Option<(ExcelData, string)>)
    ensures r.Some? <==> parsed.Some? && !AllSpace(analysisName)
    ensures r.Some? ==> (r.value.0 == parsed.value && r.value.1 != ""
      && !IsSpace(r.value.1[0]) && !IsSpace(r.value.1[|r.value.1| - 1]))
  {
    TrimEmpty(analysisName);
    if parsed.Some? && Trim(analysisName) != "" then Some((parsed.value, Trim(analysisName))) else None
  }
}
