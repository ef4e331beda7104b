/**
 * The memoised views of the network canvas (`NetworkGraph.tsx`): which
 * classified links pass the link filters, which numbers are drawn, which
 * links join drawn numbers, the link statistics, and the selection a click
 * toggles together with the neighbourhood it highlights. The force
 * simulation, zoom and drawing are not modelled.
 */
module NetworkGraph {
  import opened Common
  import opened Text
  import opened Rows
  import NetworkData
  import LC = LinkClassification

  type Edge = LC.EnhancedEdge
  type Node = NetworkData.NetworkNode

  function Source(e: Edge): string { e.edge.source }
  function Target(e: Edge): string { e.edge.target }

  // ----- Classified links -----

  /** `enhancedEdges`: nothing without listings, otherwise every link with its records and strength. */
  function EnhancedEdges(listings: Option<seq<Row>>, edges: seq<NetworkData.NetworkEdge>, now: string,
                         dateMs: string -> Option<int>): (r: seq<Edge>)
    ensures listings.Some? ==> |r| == |edges|
    ensures |r| == 0 || |r| == |edges|
    ensures forall i :: 0 <= i < |r| && i < |edges| ==> r[i].edge == edges[i]
  {
    if listings.None? || |edges| == 0 then [] else LC.ClassifyNetworkEdges(edges, listings.value, now, dateMs)
  }

  /** The link filters; a field left undefined takes its default. */
  datatype LinkFilters = LinkFilters(linkTypes: Option<seq<LC.LinkClass>>, minStrengthScore: Option<int>,
                                     showWeakLinks: Option<bool>)

  const AllLinkTypes: seq<LC.LinkClass> := [LC.Primary, LC.Secondary, LC.Weak]

  /** Does a link pass the filters (lines 58-81)? */
  predicate Passes(f: LinkFilters, e: Edge) {
    var types := f.linkTypes.GetOr(AllLinkTypes);
    var minScore := f.minStrengthScore.GetOr(0);
    var showWeak := f.showWeakLinks.GetOr(true);
    e.linkStrength.classification in types
    && e.linkStrength.strengthScore >= minScore
    && !(!showWeak && e.linkStrength.classification == LC.Weak)
  }

  function PassesFilter(f: LinkFilters): Edge -> bool { (e: Edge) => Passes(f, e) }

  /** `filteredEnhancedEdges` */
  function FilteredEdges(f: LinkFilters, edges: seq<Edge>): (r: seq<Edge>)
    ensures forall i :: 0 <= i < |r| ==> r[i] in edges && Passes(f, r[i])
    ensures forall i :: 0 <= i < |edges| && Passes(f, edges[i]) ==> edges[i] in r
  {
    Filter(edges, PassesFilter(f))
  }

  /** With every filter left at its default, every link with a non-negative score passes. */
  lemma DefaultFiltersKeepAll(edges: seq<Edge>)
    requires forall i :: 0 <= i < |edges| ==> edges[i].linkStrength.strengthScore >= 0
    ensures FilteredEdges(LinkFilters(None, None, None), edges) == edges
  {
    var f := LinkFilters(None, None, None);
    forall i | 0 <= i < |edges| ensures PassesFilter(f)(edges[i]) {
      var c := edges[i].linkStrength.classification;
      assert c == AllLinkTypes[0] || c == AllLinkTypes[1] || c == AllLinkTypes[2];
    }
    FilterKeepsAll(edges, PassesFilter(f));
  }

  /** Hiding weak links removes every weak link, whatever the other filters say. */
  lemma HiddenWeakLinks(f: LinkFilters, edges: seq<Edge>, i: nat)
    requires f.showWeakLinks == Some(false)
    requires i < |FilteredEdges(f, edges)|
    ensures FilteredEdges(f, edges)[i].linkStrength.classification != LC.Weak
  {
  }

  // ----- Drawn numbers -----

  /** Does the search keep a number? A blank term keeps every number; otherwise the lower-cased term must occur. */
  predicate Matches(searchTerm: string, n: Node) {
    AllSpace(searchTerm) || Contains(ToLower(n.id), ToLower(searchTerm))
  }

  function MatchesSearch(searchTerm: string): Node -> bool { (n: Node) => Matches(searchTerm, n) }

  /** The ids at either end of some link. */
  function Endpoints(edges: seq<Edge>): (r: set<string>)
    ensures forall x :: x in r <==> exists i :: 0 <= i < |edges| && (Source(edges[i]) == x || Target(edges[i]) == x)
  {
    (set i | 0 <= i < |edges| :: Source(edges[i])) + (set i | 0 <= i < |edges| :: Target(edges[i]))
  }

  /** The `forEach` that fills `connectedNodeIds` with both ends of every filtered link. */
  method CollectEndpoints(edges: seq<Edge>) returns (ids: set<string>)
    ensures ids == Endpoints(edges)
  {
    ids := {};
    var i := 0;
    while i < |edges|
      invariant 0 <= i <= |edges|
      invariant ids == Endpoints(edges[..i])
    {
      assert edges[..i + 1][..i] == edges[..i];
      ids := ids + {Source(edges[i]), Target(edges[i])};
      i := i + 1;
    }
    assert edges[..i] == edges;
  }

  function HasId(ids: set<string>): Node -> bool { (n: Node) => n.id in ids }

  /** `visibleNodes` as a value. */
  function VisibleNodes(nodes: seq<Node>, searchTerm: string, filtered: seq<Edge>): seq<Node> {
    var searched := Filter(nodes, MatchesSearch(searchTerm));
    if |filtered| > 0 then Filter(searched, HasId(Endpoints(filtered))) else searched
  }

  /** `visibleNodes`: the search filter, then, when some link passes, only the ends of passing links. */
  method ComputeVisibleNodes(nodes: seq<Node>, searchTerm: string, filtered: seq<Edge>) returns (r: seq<Node>)
    ensures r == VisibleNodes(nodes, searchTerm, filtered)
  {
    TrimEmpty(searchTerm);
    var searched := nodes;
    if Trim(searchTerm) != "" {
      searched := Filter(nodes, MatchesSearch(searchTerm));
    } else {
      FilterKeepsAll(nodes, MatchesSearch(searchTerm));
    }
    var connected := CollectEndpoints(filtered);
    if |filtered| > 0 {
      return Filter(searched, HasId(connected));
    }
    return searched;
  }

  /**
   * When some link passes, a number is drawn exactly when the search keeps it
   * and it ends a passing link; otherwise exactly when the search keeps it.
   */
  lemma VisibleNodesSpec(nodes: seq<Node>, searchTerm: string, filtered: seq<Edge>, i: nat)
    requires i < |nodes|
    ensures nodes[i] in VisibleNodes(nodes, searchTerm, filtered) <==>
      Matches(searchTerm, nodes[i]) && (|filtered| > 0 ==> nodes[i].id in Endpoints(filtered))
  {
    var searched := Filter(nodes, MatchesSearch(searchTerm));
    if Matches(searchTerm, nodes[i]) {
      assert MatchesSearch(searchTerm)(nodes[i]);
      assert nodes[i] in searched;
      var k :| 0 <= k < |searched| && searched[k] == nodes[i];
      if |filtered| > 0 && nodes[i].id in Endpoints(filtered) {
        assert HasId(Endpoints(filtered))(searched[k]);
      }
    }
  }

  // ----- Drawn links -----

  function Ids(nodes: seq<Node>): set<string> {
    set i | 0 <= i < |nodes| :: nodes[i].id
  }

  function BetweenVisible(ids: set<string>): Edge -> bool { (e: Edge) => Source(e) in ids && Target(e) in ids }

  /** `visibleEdges`: the filtered links both of whose ends are drawn. */
  function VisibleEdges(filtered: seq<Edge>, visible: seq<Node>): (r: seq<Edge>)
    ensures |r| <= |filtered|
    ensures forall i :: 0 <= i < |r| ==> r[i] in filtered && Source(r[i]) in Ids(visible) && Target(r[i]) in Ids(visible)
  {
    Filter(filtered, BetweenVisible(Ids(visible)))
  }

  /** When some link passes, every passing link that the search does not cut is drawn. */
  lemma PassingLinksDrawn(nodes: seq<Node>, filtered: seq<Edge>, i: nat)
    requires i < |filtered|
    requires exists a :: 0 <= a < |nodes| && nodes[a].id == Source(filtered[i])
    requires exists b :: 0 <= b < |nodes| && nodes[b].id == Target(filtered[i])
    ensures filtered[i] in VisibleEdges(filtered, VisibleNodes(nodes, "", filtered))
  {
    var e := filtered[i];
    var visible := VisibleNodes(nodes, "", filtered);
    var a :| 0 <= a < |nodes| && nodes[a].id == Source(e);
    var b :| 0 <= b < |nodes| && nodes[b].id == Target(e);
    assert Source(e) in Endpoints(filtered) && Target(e) in Endpoints(filtered);
    assert AllSpace("");
    VisibleNodesSpec(nodes, "", filtered, a);
    VisibleNodesSpec(nodes, "", filtered, b);
    var ka :| 0 <= ka < |visible| && visible[ka] == nodes[a];
    var kb :| 0 <= kb < |visible| && visible[kb] == nodes[b];
    assert Source(e) in Ids(visible) && Target(e) in Ids(visible);
    assert BetweenVisible(Ids(visible))(e);
  }

  // ----- Statistics -----

  datatype LinkStats = LinkStats(total: nat, primary: nat, secondary: nat, weak: nat, avgStrength: int)

  function OfClass(c: LC.LinkClass): Edge -> bool { (e: Edge) => e.linkStrength.classification == c }

  function ScoreSum(edges: seq<Edge>): int
    decreases |edges|
  {
    if edges == [] then 0 else edges[0].linkStrength.strengthScore + ScoreSum(edges[1..])
  }

  /** `linkStats` (lines 118-127): counts per class and the rounded mean score. */
  function Stats(edges: seq<Edge>): LinkStats {
    LinkStats(|edges|, |Filter(edges, OfClass(LC.Primary))|, |Filter(edges, OfClass(LC.Secondary))|,
              |Filter(edges, OfClass(LC.Weak))|,
              if |edges| > 0 then LC.Round(ScoreSum(edges) as real / |edges| as real) else 0)
  }

  /** Every link is counted in exactly one class. */
  lemma {:induction false} ClassesPartition(edges: seq<Edge>)
    ensures Stats(edges).primary + Stats(edges).secondary + Stats(edges).weak == Stats(edges).total
    decreases |edges|
  {
    if edges != [] {
      ClassesPartition(edges[1..]);
    }
  }

  lemma {:induction false} ScoreSumBounds(edges: seq<Edge>)
    requires forall i :: 0 <= i < |edges| ==> 0 <= edges[i].linkStrength.strengthScore <= 100
    ensures 0 <= ScoreSum(edges) <= 100 * |edges|
    decreases |edges|
  {
    if edges != [] {
      ScoreSumBounds(edges[1..]);
    }
  }

  lemma MeanBounds(sum: int, n: nat)
    requires n > 0 && 0 <= sum <= 100 * n
    ensures 0.0 <= sum as real / n as real <= 100.0
  {
    assert sum as real <= 100.0 * n as real;
  }

  /** With scores between 0 and 100 the mean strength is too, and with no links it is 0. */
  lemma AverageStrengthRange(edges: seq<Edge>)
    requires forall i :: 0 <= i < |edges| ==> 0 <= edges[i].linkStrength.strengthScore <= 100
    ensures 0 <= Stats(edges).avgStrength <= 100
  {
    if |edges| > 0 {
      ScoreSumBounds(edges);
      MeanBounds(ScoreSum(edges), |edges|);
    }
  }

  // ----- Selection -----

  /** Clicking the selected node deselects it; clicking any other node selects that one. */
  function Toggle(selected: Option<Node>, clicked: Node): (r: Option<Node>)
    ensures r.None? <==> selected.Some? && selected.value.id == clicked.id
    ensures r.Some? ==> r.value == clicked
  {
    if selected.Some? && selected.value.id == clicked.id then None else Some(clicked)
  }

  /** Two clicks on the same node from no selection leave nothing selected. */
  lemma ToggleTwice(selected: Option<Node>, clicked: Node)
    requires selected.None? || selected.value.id != clicked.id
    ensures Toggle(Toggle(selected, clicked), clicked) == None
  {
  }

  /** The selection state of the canvas. */
  class Canvas {
    var selected: Option<Node>
    var showDetails: bool
    var detailsX: int
    var detailsY: int

    constructor ()
      ensures selected == None && !showDetails && detailsX == 0 && detailsY == 0
    {
      selected := None;
      showDetails := false;
      detailsX := 0;
      detailsY := 0;
    }

    /**
     * `handleNodeClick`: nothing happens without the container's box;
     * otherwise the selection toggles, the details open at the click point
     * relative to the box and the clicked individual is reported, or the
     * details close.
     */
    method HandleNodeClick(clicked: Node, rect: Option<(int, int)>, clientX: int, clientY: int)
      returns (reported: Option<Node>)
      modifies this
      ensures rect.None? ==> (selected == old(selected) && showDetails == old(showDetails)
        && detailsX == old(detailsX) && detailsY == old(detailsY) && reported.None?)
      ensures rect.Some? ==> (selected == Toggle(old(selected), clicked) && showDetails == selected.Some?
        && reported == selected)
      ensures rect.Some? && selected.Some? ==> detailsX == clientX - rect.value.0 && detailsY == clientY - rect.value.1
      ensures rect.Some? && selected.None? ==> detailsX == old(detailsX) && detailsY == old(detailsY)
    {
      if rect.None? {
        return None;
      }
      var newSelected := if selected.Some? && selected.value.id == clicked.id then None else Some(clicked);
      selected := newSelected;
      if newSelected.Some? {
        detailsX := clientX - rect.value.0;
        detailsY := clientY - rect.value.1;
        showDetails := true;
        reported := newSelected;
      } else {
        showDetails := false;
        reported := None;
      }
    }
  }

  /** `connectedNodeIds` as a value: the selected id and every id sharing a drawn link with it. */
  function Neighbourhood(selected: Option<Node>, edges: seq<Edge>): (r: set<string>)
    ensures selected.None? ==> r == {}
    ensures selected.Some? ==> selected.value.id in r
  {
    if selected.None? then {}
    else
      var id := selected.value.id;
      {id} + (set i | 0 <= i < |edges| && Source(edges[i]) == id :: Target(edges[i]))
           + (set i | 0 <= i < |edges| && Target(edges[i]) == id :: Source(edges[i]))
  }

  /** Does a link join `a` and `b`, in either direction? */
  predicate Linked(edges: seq<Edge>, a: string, b: string) {
    exists i :: 0 <= i < |edges| && ((Source(edges[i]) == a && Target(edges[i]) == b) || (Source(edges[i]) == b && Target(edges[i]) == a))
  }

  /** Another number is highlighted exactly when a drawn link joins it to the selected one, so highlighting is symmetric. */
  lemma NeighbourhoodSpec(selected: Node, edges: seq<Edge>, x: string)
    requires x != selected.id
    ensures x in Neighbourhood(Some(selected), edges) <==> Linked(edges, selected.id, x)
  {
    var id := selected.id;
    if Linked(edges, id, x) {
      var i :| 0 <= i < |edges| && ((Source(edges[i]) == id && Target(edges[i]) == x) || (Source(edges[i]) == x && Target(edges[i]) == id));
      if Source(edges[i]) == id {
        assert x in (set j | 0 <= j < |edges| && Source(edges[j]) == id :: Target(edges[j]));
      } else {
        assert x in (set j | 0 <= j < |edges| && Target(edges[j]) == id :: Source(edges[j]));
      }
    }
  }

  /** `connectedNodeIds`: starts from the selected id and adds the other end of each drawn link touching it. */
  method ConnectedNodeIds(selected: Option<Node>, edges: seq<Edge>) returns (connected: set<string>)
    ensures connected == Neighbourhood(selected, edges)
  {
    if selected.None? {
      return {};
    }
    var id := selected.value.id;
    connected := {id};
    var i := 0;
    while i < |edges|
      invariant 0 <= i <= |edges|
      invariant connected == {id} + (set j | 0 <= j < i && Source(edges[j]) == id :: Target(edges[j]))
                                  + (set j | 0 <= j < i && Target(edges[j]) == id :: Source(edges[j]))
    {
      var sourceId := Source(edges[i]);
      var targetId := Target(edges[i]);
      if sourceId == id {
        connected := connected + {targetId};
      }
      if targetId == id {
        connected := connected + {sourceId};
      }
      i := i + 1;
    }
  }
}
