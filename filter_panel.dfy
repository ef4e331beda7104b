/**
 * The workbench filter panel: the filter object it edits, its reset values,
 * the link-type toggle, the list of contacts offered for the whitelist and
 * the label of the duration slider.
 */
module FilterPanel {
  import opened Common
  import opened Text
  import opened Rows
  import opened Sorting
  import opened FieldLookup
  import LC = LinkClassification
  import NetworkGraph
  import NetworkData

  datatype DateRange = DateRange(start: string, end: string)

  datatype DurationRange = DurationRange(min: int, max: int)

  /** `WorkbenchFilters`: every criterion the panel edits. */
  datatype WorkbenchFilters = WorkbenchFilters(
    interactionType: NetworkData.InteractionType,
    dateRange: DateRange,
    individuals: seq<string>,
    minInteractions: int,
    contactWhitelist: seq<string>,
    durationRange: DurationRange,
    linkTypes: seq<LC.LinkClass>,
    minStrengthScore: int,
    showWeakLinks: bool)

  /** The keys of `WorkbenchFilters`. */
  datatype FilterKey =
    | InteractionTypeKey | DateRangeKey | IndividualsKey | MinInteractionsKey | ContactWhitelistKey
    | DurationRangeKey | LinkTypesKey | MinStrengthScoreKey | ShowWeakLinksKey

  /** A key paired with a value of that key's type: the two arguments of `updateFilter`. */
  datatype FilterUpdate =
    | SetInteractionType(interactionType: NetworkData.InteractionType)
    | SetDateRange(dateRange: DateRange)
    | SetIndividuals(individuals: seq<string>)
    | SetMinInteractions(minInteractions: int)
    | SetContactWhitelist(contactWhitelist: seq<string>)
    | SetDurationRange(durationRange: DurationRange)
    | SetLinkTypes(linkTypes: seq<LC.LinkClass>)
    | SetMinStrengthScore(minStrengthScore: int)
    | SetShowWeakLinks(showWeakLinks: bool)
  {
    function Key(): FilterKey {
      match this
      case SetInteractionType(_) => InteractionTypeKey
      case SetDateRange(_) => DateRangeKey
      case SetIndividuals(_) => IndividualsKey
      case SetMinInteractions(_) => MinInteractionsKey
      case SetContactWhitelist(_) => ContactWhitelistKey
      case SetDurationRange(_) => DurationRangeKey
      case SetLinkTypes(_) => LinkTypesKey
      case SetMinStrengthScore(_) => MinStrengthScoreKey
      case SetShowWeakLinks(_) => ShowWeakLinksKey
    }
  }

  /** The filter object holds the value of `u` under `u`'s key. */
  predicate Holds(f: WorkbenchFilters, u: FilterUpdate) {
    match u
    case SetInteractionType(v) => f.interactionType == v
    case SetDateRange(v) => f.dateRange == v
    case SetIndividuals(v) => f.individuals == v
    case SetMinInteractions(v) => f.minInteractions == v
    case SetContactWhitelist(v) => f.contactWhitelist == v
    case SetDurationRange(v) => f.durationRange == v
    case SetLinkTypes(v) => f.linkTypes == v
    case SetMinStrengthScore(v) => f.minStrengthScore == v
    case SetShowWeakLinks(v) => f.showWeakLinks == v
  }

  /** `f` and `g` agree on every key other than `k`. */
  predicate SameExcept(f: WorkbenchFilters, g: WorkbenchFilters, k: FilterKey) {
    && (k != InteractionTypeKey ==> f.interactionType == g.interactionType)
    && (k != DateRangeKey ==> f.dateRange == g.dateRange)
    && (k != IndividualsKey ==> f.individuals == g.individuals)
    && (k != MinInteractionsKey ==> f.minInteractions == g.minInteractions)
    && (k != ContactWhitelistKey ==> f.contactWhitelist == g.contactWhitelist)
    && (k != DurationRangeKey ==> f.durationRange == g.durationRange)
    && (k != LinkTypesKey ==> f.linkTypes == g.linkTypes)
    && (k != MinStrengthScoreKey ==> f.minStrengthScore == g.minStrengthScore)
    && (k != ShowWeakLinksKey ==> f.showWeakLinks == g.showWeakLinks)
  }

  /** `updateFilter(key, value)`: the object spread `{ ...filters, [key]: value }`. */
  function UpdateFilter(f: WorkbenchFilters, u: FilterUpdate): (r: WorkbenchFilters)
    ensures Holds(r, u) && SameExcept(f, r, u.Key())
  {
    match u
    case SetInteractionType(v) => f.(interactionType := v)
    case SetDateRange(v) => f.(dateRange := v)
    case SetIndividuals(v) => f.(individuals := v)
    case SetMinInteractions(v) => f.(minInteractions := v)
    case SetContactWhitelist(v) => f.(contactWhitelist := v)
    case SetDurationRange(v) => f.(durationRange := v)
    case SetLinkTypes(v) => f.(linkTypes := v)
    case SetMinStrengthScore(v) => f.(minStrengthScore := v)
    case SetShowWeakLinks(v) => f.(showWeakLinks := v)
  }

  /** Agreeing everywhere but at `k`, and at `k` too, is equality. */
  lemma SameEverywhere(f: WorkbenchFilters, g: WorkbenchFilters, u: FilterUpdate)
    requires SameExcept(f, g, u.Key()) && Holds(f, u) && Holds(g, u)
    ensures f == g
  {
  }

  /** Writing the value a key already holds changes nothing. */
  lemma UpdateUnchanged(f: WorkbenchFilters, u: FilterUpdate)
    requires Holds(f, u)
    ensures UpdateFilter(f, u) == f
  {
    SameEverywhere(UpdateFilter(f, u), f, u);
  }

  /** Of two updates to the same key, the later one wins. */
  lemma UpdateLastWins(f: WorkbenchFilters, u: FilterUpdate, v: FilterUpdate)
    requires u.Key() == v.Key()
    ensures UpdateFilter(UpdateFilter(f, u), v) == UpdateFilter(f, v)
  {
    SameEverywhere(UpdateFilter(UpdateFilter(f, u), v), UpdateFilter(f, v), v);
  }

  /** Updates to different keys commute. */
  lemma UpdatesCommute(f: WorkbenchFilters, u: FilterUpdate, v: FilterUpdate)
    requires u.Key() != v.Key()
    ensures UpdateFilter(UpdateFilter(f, u), v) == UpdateFilter(UpdateFilter(f, v), u)
  {
    var a := UpdateFilter(UpdateFilter(f, u), v);
    var b := UpdateFilter(UpdateFilter(f, v), u);
    assert Holds(a, u) && Holds(b, u);
    SameEverywhere(a, b, u);
  }

  /** The object `resetFilters` hands back. */
  const DefaultFilters: WorkbenchFilters := WorkbenchFilters(
    NetworkData.All, DateRange("", ""), [], 0, [], DurationRange(0, 3600),
    [LC.Primary, LC.Secondary, LC.Weak], 0, true)

  /** The link filters the graph reads from the panel's object. */
  function GraphFilters(f: WorkbenchFilters): NetworkGraph.LinkFilters {
    NetworkGraph.LinkFilters(Some(f.linkTypes), Some(f.minStrengthScore), Some(f.showWeakLinks))
  }

  /** After a reset the graph draws every link whose score is not negative. */
  lemma ResetShowsEveryLink(edges: seq<NetworkGraph.Edge>)
    requires forall i :: 0 <= i < |edges| ==> edges[i].linkStrength.strengthScore >= 0
    ensures NetworkGraph.FilteredEdges(GraphFilters(DefaultFilters), edges) == edges
  {
    var f := GraphFilters(DefaultFilters);
    forall i | 0 <= i < |edges| ensures NetworkGraph.PassesFilter(f)(edges[i]) {
      var c := edges[i].linkStrength.classification;
      assert c == DefaultFilters.linkTypes[0] || c == DefaultFilters.linkTypes[1] || c == DefaultFilters.linkTypes[2];
    }
    FilterKeepsAll(edges, NetworkGraph.PassesFilter(f));
  }

  function IsNot(t: LC.LinkClass): LC.LinkClass -> bool { (c: LC.LinkClass) => c != t }

  /** The new `linkTypes` of `handleLinkTypeToggle`: remove every copy of a present type, append an absent one. */
  function ToggleLinkType(types: seq<LC.LinkClass>, t: LC.LinkClass): (r: seq<LC.LinkClass>)
    ensures t in r <==> t !in types
    ensures forall i :: 0 <= i < |types| && types[i] != t ==> types[i] in r
    ensures forall i :: 0 <= i < |r| && r[i] != t ==> r[i] in types
  {
    if t in types then Filter(types, IsNot(t)) else types + [t]
  }

  /** Toggling a type twice gives back the same set of types. */
  lemma ToggleTwiceSameSet(types: seq<LC.LinkClass>, t: LC.LinkClass, c: LC.LinkClass)
    ensures c in ToggleLinkType(ToggleLinkType(types, t), t) <==> c in types
  {
    var once := ToggleLinkType(types, t);
    var twice := ToggleLinkType(once, t);
    if c != t {
      if c in types {
        var i :| 0 <= i < |types| && types[i] == c;
        assert c in once;
        var j :| 0 <= j < |once| && once[j] == c;
        assert c in twice;
      }
      if c in twice {
        var i :| 0 <= i < |twice| && twice[i] == c;
        assert c in once;
        var j :| 0 <= j < |once| && once[j] == c;
      }
    }
  }

  /** Toggling an absent type twice gives back the very same list. */
  lemma ToggleAbsentTwice(types: seq<LC.LinkClass>, t: LC.LinkClass)
    requires t !in types
    ensures ToggleLinkType(ToggleLinkType(types, t), t) == types
  {
    FilterAppend(types, [t], IsNot(t));
    FilterKeepsAll(types, IsNot(t));
    assert Filter([t], IsNot(t)) == [];
  }

  /** `handleLinkTypeToggle(t)`: toggles `t` and leaves every other filter as it was. */
  function HandleLinkTypeToggle(f: WorkbenchFilters, t: LC.LinkClass): (r: WorkbenchFilters)
    ensures SameExcept(f, r, LinkTypesKey)
    ensures t in r.linkTypes <==> t !in f.linkTypes
    ensures forall c :: c != t ==> (c in r.linkTypes <==> c in f.linkTypes)
  {
    var types := ToggleLinkType(f.linkTypes, t);
    forall c | c != t ensures c in types <==> c in f.linkTypes {
      if c in types {
        var i :| 0 <= i < |types| && types[i] == c;
      }
      if c in f.linkTypes {
        var i :| 0 <= i < |f.linkTypes| && f.linkTypes[i] == c;
      }
    }
    UpdateFilter(f, SetLinkTypes(types))
  }

  /** Hiding a type from the panel hides every link of that class from the graph. */
  lemma ToggledOffHidden(f: WorkbenchFilters, t: LC.LinkClass, edges: seq<NetworkGraph.Edge>, i: nat)
    requires t in f.linkTypes
    requires i < |NetworkGraph.FilteredEdges(GraphFilters(HandleLinkTypeToggle(f, t)), edges)|
    ensures NetworkGraph.FilteredEdges(GraphFilters(HandleLinkTypeToggle(f, t)), edges)[i].linkStrength.classification != t
  {
  }

  const CallerFields: seq<string> := ["caller_num", "caller", "calling_number", "from_number"]
  const CalleeFields: seq<string> := ["callee_num", "callee", "called_number", "to_number"]

  /** The caller found in a row, with the panel's own key normaliser. */
  function CallerOf(row: Row): Option<string> { FieldValue(SpaceNonAlnum, row, CallerFields) }

  function CalleeOf(row: Row): Option<string> { FieldValue(SpaceNonAlnum, row, CalleeFields) }

  /** `if (value) contacts.add(value)` on a set kept in insertion order. */
  function AddFound(contacts: seq<string>, o: Option<string>): (r: seq<string>)
    ensures Distinct(contacts) ==> Distinct(r)
    ensures forall x :: x in r <==> x in contacts || (o.Some? && o.value != "" && x == o.value)
  {
    if o.Some? && o.value != "" && o.value !in contacts then contacts + [o.value] else contacts
  }

  /** The contact set after the `forEach` over `rows`, with `caller` and `callee` finding the two parties of a row. */
  function Contacts(rows: seq<Row>, caller: Row -> Option<string>, callee: Row -> Option<string>): seq<string>
    decreases |rows|
  {
    if rows == [] then []
    else
      var row := rows[|rows| - 1];
      AddFound(AddFound(Contacts(rows[..|rows| - 1], caller, callee), caller(row)), callee(row))
  }

  /** Does `row` name `x` as its caller or its callee? */
  predicate Names(row: Row, x: string, caller: Row -> Option<string>, callee: Row -> Option<string>) {
    x != "" && (caller(row) == Some(x) || callee(row) == Some(x))
  }

  /** The set holds each contact once, and exactly the callers and callees of the rows. */
  lemma {:induction false} ContactsSpec(rows: seq<Row>, caller: Row -> Option<string>, callee: Row -> Option<string>)
    ensures Distinct(Contacts(rows, caller, callee))
    ensures forall x :: x in Contacts(rows, caller, callee) <==>
      exists i :: 0 <= i < |rows| && Names(rows[i], x, caller, callee)
    decreases |rows|
  {
    if rows != [] {
      var p := rows[..|rows| - 1];
      ContactsSpec(p, caller, callee);
      assert rows == p + [rows[|rows| - 1]];
      forall x
        ensures x in Contacts(rows, caller, callee) <==> exists i :: 0 <= i < |rows| && Names(rows[i], x, caller, callee)
      {
        ContactsLast(rows, x, caller, callee);
        NamedSomewhere(p, rows[|rows| - 1], x, caller, callee);
      }
    }
  }

  /** After the last row, `x` is a contact exactly when it was one before or the last row names it. */
  lemma ContactsLast(rows: seq<Row>, x: string, caller: Row -> Option<string>, callee: Row -> Option<string>)
    requires rows != []
    ensures x in Contacts(rows, caller, callee) <==>
      x in Contacts(rows[..|rows| - 1], caller, callee) || Names(rows[|rows| - 1], x, caller, callee)
  {
  }

  /** A row of `p + [r]` names `x` exactly when a row of `p` does or `r` does. */
  lemma NamedSomewhere(p: seq<Row>, r: Row, x: string, caller: Row -> Option<string>, callee: Row -> Option<string>)
    ensures (exists i :: 0 <= i < |p + [r]| && Names((p + [r])[i], x, caller, callee)) <==>
      (exists i :: 0 <= i < |p| && Names(p[i], x, caller, callee)) || Names(r, x, caller, callee)
  {
    var rows := p + [r];
    if Names(r, x, caller, callee) {
      assert rows[|p|] == r;
    }
    if exists i :: 0 <= i < |p| && Names(p[i], x, caller, callee) {
      var i :| 0 <= i < |p| && Names(p[i], x, caller, callee);
      assert rows[i] == p[i];
    }
    if exists i :: 0 <= i < |rows| && Names(rows[i], x, caller, callee) {
      var i :| 0 <= i < |rows| && Names(rows[i], x, caller, callee);
      if i < |p| {
        assert p[i] == rows[i];
      }
    }
  }

  /** `contactOptions` as a value: the sorted contact set, nothing without listings. */
  function ContactOptions(listings: Option<seq<Row>>): seq<string> {
    match listings
    case None => []
    case Some(rows) =>
      LexLeIsTotalOrder();
      SortBy(Contacts(rows, CallerOf, CalleeOf), Id, LexLe)
  }

  /** The options are sorted, duplicate-free and exactly the callers and callees of the listings. */
  lemma ContactOptionsSpec(listings: Option<seq<Row>>)
    ensures listings.None? ==> ContactOptions(listings) == []
    ensures SortedBy(ContactOptions(listings), Id, LexLe)
    ensures Distinct(ContactOptions(listings))
    ensures forall x :: x in ContactOptions(listings) <==>
      (listings.Some? && exists i :: 0 <= i < |listings.value| && Names(listings.value[i], x, CallerOf, CalleeOf))
  {
    if listings.Some? {
      var c := Contacts(listings.value, CallerOf, CalleeOf);
      ContactsSpec(listings.value, CallerOf, CalleeOf);
      var r := ContactOptions(listings);
      assert multiset(r) == multiset(c);
      PermutationDistinct(c, r);
      forall x ensures x in r <==> x in c {
        assert x in r <==> x in multiset(r);
        assert x in c <==> x in multiset(c);
      }
    }
  }

  /** A contact offered by the panel is never the empty string. */
  lemma ContactNonEmpty(listings: Option<seq<Row>>, i: nat)
    requires i < |ContactOptions(listings)|
    ensures ContactOptions(listings)[i] != ""
  {
    ContactOptionsSpec(listings);
    var x := ContactOptions(listings)[i];
    assert x in ContactOptions(listings);
  }

  /** `contactOptions`: fills the set row by row, then sorts it. */
  method ComputeContactOptions(listings: Option<seq<Row>>) returns (r: seq<string>)
    ensures r == ContactOptions(listings)
  {
    if listings.None? {
      return [];
    }
    var rows := listings.value;
    var contacts: seq<string> := [];
    var i := 0;
    while i < |rows|
      invariant 0 <= i <= |rows|
      invariant contacts == Contacts(rows[..i], CallerOf, CalleeOf)
    {
      assert rows[..i + 1][..i] == rows[..i];
      var caller := FindFieldValue(KeyNormalizer(SpaceNonAlnum), rows[i], CallerFields);
      var callee := FindFieldValue(KeyNormalizer(SpaceNonAlnum), rows[i], CalleeFields);
      if caller.Some? && caller.value != "" && caller.value !in contacts {
        contacts := contacts + [caller.value];
      }
      if callee.Some? && callee.value != "" && callee.value !in contacts {
        contacts := contacts + [callee.value];
      }
      i := i + 1;
    }
    assert rows[..i] == rows;
    LexLeIsTotalOrder();
    r := SortBy(contacts, Id, LexLe);
  }

  /** JavaScript's `%`: the remainder takes the sign of the dividend. */
  function JsRem(a: int, b: int): int
    requires b > 0
  {
    if a >= 0 then a % b else -((-a) % b)
  }

  /** The slider label: `Math.floor(max / 60)` minutes and `max % 60` seconds. */
  function DurationParts(max: int): (r: (int, int))
    ensures max >= 0 ==> 0 <= r.1 < 60 && r.0 * 60 + r.1 == max
    ensures 0 <= max <= 3600 ==> 0 <= r.0 <= 60
  {
    (max / 60, JsRem(max, 60))
  }

  function DurationLabel(max: int): string {
    var (m, s) := DurationParts(max);
    "Up to " + IntToString(m) + "m " + IntToString(s) + "s"
  }
}
