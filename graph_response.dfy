/**
 * The graph endpoints of the back end: the paths a Cypher query returns are
 * flattened into a list of nodes, each listed once in order of first
 * appearance, and a list of relationships, each listed every time a path
 * crosses it. The database session is outside the model; the records it
 * yields are the input.
 */
module GraphResponse {
  import opened Common

  /** A property value as the driver hands it over; `DateTime` is a Neo4j temporal value. */
  datatype PropValue = Null | Bool(b: bool) | Int(n: int) | Str(s: string) | DateTime(moment: int)

  /** A property dictionary, keys in insertion order. */
  type Props = seq<(string, PropValue)>

  predicate UniqueKeys(d: Props) {
    forall i, j :: 0 <= i < j < |d| ==> d[i].0 != d[j].0
  }

  /** `d[key] = value`: overwrite in place when the key is there, append otherwise. */
  function Assign(d: Props, key: string, value: PropValue): (r: Props)
    ensures (exists i :: 0 <= i < |d| && d[i].0 == key) ==> |r| == |d|
    ensures (forall i :: 0 <= i < |d| ==> d[i].0 != key) ==> r == d + [(key, value)]
    decreases |d|
  {
    if d == [] then [(key, value)]
    else if d[0].0 == key then [(key, value)] + d[1..]
    else [d[0]] + Assign(d[1..], key, value)
  }

  /** The value `convert_properties` stores: a temporal value becomes its ISO text, anything else stays. */
  function Converted(v: PropValue, isoformat: int -> string): PropValue {
    if v.DateTime? then Str(isoformat(v.moment)) else v
  }

  /** What `convert_properties` builds, one assignment per entry. */
  function ConvertedProps(props: Props, isoformat: int -> string): Props
    decreases |props|
  {
    if props == [] then []
    else
      var n := |props| - 1;
      Assign(ConvertedProps(props[..n], isoformat), props[n].0, Converted(props[n].1, isoformat))
  }

  /** `convert_properties`: the loop over `props.items()`; `isoformat` is `value.to_native().isoformat()`. */
  method ConvertProperties(props: Props, isoformat: int -> string) returns (converted: Props)
    ensures converted == ConvertedProps(props, isoformat)
  {
    converted := [];
    var i := 0;
    while i < |props|
      invariant 0 <= i <= |props|
      invariant converted == ConvertedProps(props[..i], isoformat)
    {
      assert props[..i + 1][..i] == props[..i];
      var (key, value) := props[i];
      if value.DateTime? {
        converted := Assign(converted, key, Str(isoformat(value.moment)));
      } else {
        converted := Assign(converted, key, value);
      }
      i := i + 1;
    }
    assert props[..i] == props;
  }

  /** A dictionary's conversion keeps its keys in order and changes only the temporal values, into their ISO text. */
  lemma ConvertedPropsSpec(props: Props, isoformat: int -> string)
    requires UniqueKeys(props)
    ensures var c := ConvertedProps(props, isoformat);
      && |c| == |props|
      && forall i :: 0 <= i < |props| ==> (&& c[i].0 == props[i].0
                                           && (props[i].1.DateTime? ==> c[i].1 == Str(isoformat(props[i].1.moment)))
                                           && (!props[i].1.DateTime? ==> c[i].1 == props[i].1))
  {
    ConvertedEntries(props, isoformat);
  }

  /** Every entry converted where it stands. */
  function ConvertEach(props: Props, isoformat: int -> string): (r: Props)
    ensures |r| == |props| && forall i :: 0 <= i < |props| ==> r[i] == (props[i].0, Converted(props[i].1, isoformat))
  {
    seq(|props|, i requires 0 <= i < |props| => (props[i].0, Converted(props[i].1, isoformat)))
  }

  /** With distinct keys every assignment appends, so the conversion converts each entry where it stands. */
  lemma {:induction false} ConvertedEntries(props: Props, isoformat: int -> string)
    requires UniqueKeys(props)
    ensures ConvertedProps(props, isoformat) == ConvertEach(props, isoformat)
    decreases |props|
  {
    if props != [] {
      var n := |props| - 1;
      var p := props[..n];
      UniquePrefix(props, n);
      ConvertedEntries(p, isoformat);
      var c := ConvertEach(p, isoformat);
      forall i | 0 <= i < |c| ensures c[i].0 != props[n].0 {
        assert c[i].0 == p[i].0 == props[i].0;
      }
      assert ConvertEach(props, isoformat) == c + [(props[n].0, Converted(props[n].1, isoformat))];
    }
  }

  lemma UniquePrefix(props: Props, n: nat)
    requires UniqueKeys(props) && n <= |props|
    ensures UniqueKeys(props[..n])
  {
    var p := props[..n];
    forall i, j | 0 <= i < j < |p| ensures p[i].0 != p[j].0 { assert p[i] == props[i] && p[j] == props[j]; }
  }

  /** A node on a path: its element id, its labels in iteration order, its properties. */
  datatype GraphNode = GraphNode(elementId: string, labels: seq<string>, props: Props)

  /** A relationship: its id, the ids of its start and end nodes, its type, its properties. */
  datatype Relationship = Relationship(elementId: string, start: string, end: string, relType: string, props: Props)

  datatype Path = Path(nodes: seq<GraphNode>, relationships: seq<Relationship>)

  /** A result record; `p` is absent when the record has no such field. */
  datatype QueryRecord = QueryRecord(p: Option<Path>)

  /** The response models. */
  datatype Node = Node(id: string, labelName: string, properties: Props)
  datatype Edge = Edge(id: string, source: string, target: string, labelName: string, properties: Props)
  datatype Graph = Graph(nodes: seq<Node>, edges: seq<Edge>)

  /** What an endpoint answers: the graph, or an HTTP error status with its detail. */
  datatype Response = Success(graph: Graph) | Failure(status: nat, detail: string)

  function NodesOf(r: QueryRecord): seq<GraphNode> { if r.p.Some? then r.p.value.nodes else [] }

  function RelationshipsOf(r: QueryRecord): seq<Relationship> { if r.p.Some? then r.p.value.relationships else [] }

  /** Every node of every path, in traversal order, repeats included. */
  function AllNodes(records: seq<QueryRecord>): seq<GraphNode>
    decreases |records|
  {
    if records == [] then [] else AllNodes(records[..|records| - 1]) + NodesOf(records[|records| - 1])
  }

  /** Every relationship of every path, in traversal order, repeats included. */
  function AllRelationships(records: seq<QueryRecord>): seq<Relationship>
    decreases |records|
  {
    if records == [] then [] else AllRelationships(records[..|records| - 1]) + RelationshipsOf(records[|records| - 1])
  }

  /** The element ids of a sequence of path nodes. */
  function IdSet(nodes: seq<GraphNode>): set<string>
    decreases |nodes|
  {
    if nodes == [] then {} else IdSet(nodes[..|nodes| - 1]) + {nodes[|nodes| - 1].elementId}
  }

  lemma {:induction false} IdSetMembers(nodes: seq<GraphNode>, id: string)
    ensures id in IdSet(nodes) <==> exists k :: 0 <= k < |nodes| && nodes[k].elementId == id
    decreases |nodes|
  {
    if nodes != [] {
      var n := |nodes| - 1;
      IdSetMembers(nodes[..n], id);
      if id in IdSet(nodes[..n]) {
        var k :| 0 <= k < n && nodes[..n][k].elementId == id;
        assert nodes[k].elementId == id;
      }
      if exists k :: 0 <= k < |nodes| && nodes[k].elementId == id {
        var k :| 0 <= k < |nodes| && nodes[k].elementId == id;
        if k < n {
          assert nodes[..n][k] == nodes[k];
        }
      }
    }
  }

  /** The state of the node loop: still running, the nodes emitted so far, the ids in `node_ids`. */
  datatype Scan = Scan(ok: bool, nodes: seq<Node>, ids: set<string>)

  const Start := Scan(true, [], {})

  /** `Node(id=..., label=list(node.labels)[0], properties=...)`; the label is read only when there is one. */
  function ToNode(n: GraphNode, isoformat: int -> string): Node
    requires n.labels != []
  {
    Node(n.elementId, n.labels[0], ConvertedProps(n.props, isoformat))
  }

  /** `node` is what the response makes of the path node `g`. */
  predicate ConvertedFrom(node: Node, g: GraphNode, isoformat: int -> string) {
    g.labels != [] && node == ToNode(g, isoformat)
  }

  /**
   * One node of a path: skipped when its id is already in `node_ids`; otherwise emitted, unless
   * it has no label, where `list(node.labels)[0]` raises and the request fails.
   */
  function Step(s: Scan, n: GraphNode, isoformat: int -> string): Scan {
    if !s.ok || n.elementId in s.ids then s
    else if n.labels == [] then s.(ok := false)
    else Scan(true, s.nodes + [ToNode(n, isoformat)], s.ids + {n.elementId})
  }

  function Run(s: Scan, nodes: seq<GraphNode>, isoformat: int -> string): Scan
    decreases |nodes|
  {
    if nodes == [] then s else Step(Run(s, nodes[..|nodes| - 1], isoformat), nodes[|nodes| - 1], isoformat)
  }

  lemma {:induction false} RunAppend(s: Scan, a: seq<GraphNode>, b: seq<GraphNode>, isoformat: int -> string)
    ensures Run(s, a + b, isoformat) == Run(Run(s, a, isoformat), b, isoformat)
    decreases |b|
  {
    if b == [] {
      assert a + b == a;
    } else {
      var n := |b| - 1;
      assert (a + b)[..|a + b| - 1] == a + b[..n];
      RunAppend(s, a, b[..n], isoformat);
    }
  }

  /** A failure is final. */
  lemma {:induction false} RunStopped(s: Scan, nodes: seq<GraphNode>, isoformat: int -> string)
    requires !s.ok
    ensures Run(s, nodes, isoformat) == s
    decreases |nodes|
  {
    if nodes != [] {
      RunStopped(s, nodes[..|nodes| - 1], isoformat);
    }
  }

  /** The emitted nodes carry distinct ids, and their ids are exactly `node_ids`. */
  predicate IdsListed(r: Scan) {
    && (forall i, j :: 0 <= i < j < |r.nodes| ==> r.nodes[i].id != r.nodes[j].id)
    && (forall j :: 0 <= j < |r.nodes| ==> r.nodes[j].id in r.ids)
    && (forall id :: id in r.ids ==> exists j :: 0 <= j < |r.nodes| && r.nodes[j].id == id)
  }

  /** The position of the first node with id `id`, or `|nodes|` when no node has it. */
  function FirstIndex(nodes: seq<GraphNode>, id: string): (k: nat)
    ensures k <= |nodes|
    ensures k < |nodes| ==> nodes[k].elementId == id && FirstOfId(nodes, k)
    ensures k == |nodes| ==> forall j :: 0 <= j < |nodes| ==> nodes[j].elementId != id
    decreases |nodes|
  {
    if nodes == [] then 0
    else if nodes[0].elementId == id then 0
    else 1 + FirstIndex(nodes[1..], id)
  }

  /** The first node with some id is the one `FirstIndex` finds. */
  lemma FirstIndexAt(nodes: seq<GraphNode>, i: nat)
    requires i < |nodes| && FirstOfId(nodes, i)
    ensures FirstIndex(nodes, nodes[i].elementId) == i
  {
  }

  /**
   * The emitted nodes follow the order in which their ids were first met, and each is the
   * conversion of the first node met with its id.
   */
  predicate FirstMet(r: Scan, met: seq<GraphNode>, isoformat: int -> string) {
    && (forall j :: 0 <= j < |r.nodes| ==>
          FirstIndex(met, r.nodes[j].id) < |met| && ConvertedFrom(r.nodes[j], met[FirstIndex(met, r.nodes[j].id)], isoformat))
    && (forall i, j :: 0 <= i < j < |r.nodes| ==> FirstIndex(met, r.nodes[i].id) < FirstIndex(met, r.nodes[j].id))
  }

  lemma StepIdsListed(p: Scan, x: GraphNode, isoformat: int -> string)
    requires IdsListed(p)
    ensures IdsListed(Step(p, x, isoformat))
  {
    var r := Step(p, x, isoformat);
    if r.nodes != p.nodes {
      forall id | id in r.ids ensures exists j :: 0 <= j < |r.nodes| && r.nodes[j].id == id {
        if id in p.ids {
          var j :| 0 <= j < |p.nodes| && p.nodes[j].id == id;
          assert r.nodes[j] == p.nodes[j];
        } else {
          assert r.nodes[|p.nodes|].id == id;
        }
      }
    }
  }

  /** A first sighting stays the first once more nodes are met. */
  lemma FirstIndexSnoc(met: seq<GraphNode>, x: GraphNode, id: string)
    requires FirstIndex(met, id) < |met|
    ensures FirstIndex(met + [x], id) == FirstIndex(met, id)
  {
    var k := FirstIndex(met, id);
    var all := met + [x];
    assert forall i :: 0 <= i <= k ==> all[i] == met[i];
    FirstIndexAt(all, k);
  }

  lemma StepFirstMet(p: Scan, met: seq<GraphNode>, x: GraphNode, isoformat: int -> string)
    requires FirstMet(p, met, isoformat) && (p.ok ==> p.ids == IdSet(met))
    ensures FirstMet(Step(p, x, isoformat), met + [x], isoformat)
  {
    var r := Step(p, x, isoformat);
    var all := met + [x];
    forall j | 0 <= j < |p.nodes|
      ensures FirstIndex(all, p.nodes[j].id) == FirstIndex(met, p.nodes[j].id)
      ensures all[FirstIndex(met, p.nodes[j].id)] == met[FirstIndex(met, p.nodes[j].id)]
    {
      FirstIndexSnoc(met, x, p.nodes[j].id);
    }
    if r.nodes != p.nodes {
      IdSetMembers(met, x.elementId);
      assert forall i :: 0 <= i < |met| ==> all[i] == met[i];
      assert all[|met|] == x;
      FirstIndexAt(all, |met|);
      assert r.nodes == p.nodes + [ToNode(x, isoformat)];
    }
  }

  /** While the loop runs, `node_ids` holds the ids met so far. */
  lemma StepIds(p: Scan, met: seq<GraphNode>, x: GraphNode, isoformat: int -> string)
    requires p.ok ==> p.ids == IdSet(met)
    ensures Step(p, x, isoformat).ok ==> Step(p, x, isoformat).ids == IdSet(met + [x])
  {
    assert (met + [x])[..|met|] == met;
  }

  /**
   * While the loop has not failed, `node_ids` holds exactly the ids met so far, and the emitted
   * nodes carry each of those ids once, in order of first sighting, each converted from the
   * first node met with its id.
   */
  lemma {:induction false} RunSpec(nodes: seq<GraphNode>, isoformat: int -> string)
    ensures var r := Run(Start, nodes, isoformat);
      && IdsListed(r) && FirstMet(r, nodes, isoformat)
      && (r.ok ==> r.ids == IdSet(nodes))
    decreases |nodes|
  {
    if nodes != [] {
      var n := |nodes| - 1;
      var p := Run(Start, nodes[..n], isoformat);
      RunSpec(nodes[..n], isoformat);
      assert nodes[..n] + [nodes[n]] == nodes;
      assert Run(Start, nodes, isoformat) == Step(p, nodes[n], isoformat);
      StepIdsListed(p, nodes[n], isoformat);
      StepFirstMet(p, nodes[..n], nodes[n], isoformat);
      StepIds(p, nodes[..n], nodes[n], isoformat);
    }
  }

  /** While the loop has not failed, `node_ids` holds exactly the ids met so far. */
  lemma RunIds(nodes: seq<GraphNode>, isoformat: int -> string)
    ensures Run(Start, nodes, isoformat).ok ==> Run(Start, nodes, isoformat).ids == IdSet(nodes)
  {
    RunSpec(nodes, isoformat);
  }

  /** Some node has no label and is the first with its id. */
  predicate FirstUnlabelled(nodes: seq<GraphNode>) {
    exists i :: 0 <= i < |nodes| && nodes[i].labels == [] && FirstOfId(nodes, i)
  }

  lemma FirstUnlabelledAppend(seen: seq<GraphNode>, x: GraphNode)
    ensures FirstUnlabelled(seen + [x]) <==> FirstUnlabelled(seen) || (x.labels == [] && x.elementId !in IdSet(seen))
  {
    var all := seen + [x];
    IdSetMembers(seen, x.elementId);
    forall i | 0 <= i < |seen| ensures FirstOfId(seen, i) <==> FirstOfId(all, i) {
      assert forall j :: 0 <= j <= i ==> all[j] == seen[j];
    }
    assert FirstOfId(all, |seen|) <==> x.elementId !in IdSet(seen) by {
      assert forall k :: 0 <= k < |seen| ==> all[k] == seen[k];
    }
    if FirstUnlabelled(all) {
      var i :| 0 <= i < |all| && all[i].labels == [] && FirstOfId(all, i);
      if i < |seen| {
        assert seen[i] == all[i];
      }
    }
    if FirstUnlabelled(seen) {
      var i :| 0 <= i < |seen| && seen[i].labels == [] && FirstOfId(seen, i);
      assert all[i] == seen[i];
    }
  }

  /**
   * The loop fails exactly when some node has no label and no earlier node shares its id, so that
   * it is the first node with that id.
   */
  lemma {:induction false} RunFails(nodes: seq<GraphNode>, isoformat: int -> string)
    ensures !Run(Start, nodes, isoformat).ok <==> FirstUnlabelled(nodes)
    decreases |nodes|
  {
    if nodes != [] {
      var n := |nodes| - 1;
      RunFails(nodes[..n], isoformat);
      RunIds(nodes[..n], isoformat);
      FirstUnlabelledAppend(nodes[..n], nodes[n]);
      assert nodes[..n] + [nodes[n]] == nodes;
    }
  }

  /** No node before position `i` has the id of the node at `i`. */
  predicate FirstOfId(nodes: seq<GraphNode>, i: nat)
    requires i < |nodes|
  {
    forall j :: 0 <= j < i ==> nodes[j].elementId != nodes[i].elementId
  }

  function ToEdge(e: Relationship, isoformat: int -> string): Edge {
    Edge(e.elementId, e.start, e.end, e.relType, ConvertedProps(e.props, isoformat))
  }

  function ResponseEdges(rels: seq<Relationship>, isoformat: int -> string): (r: seq<Edge>)
    ensures |r| == |rels| && forall i :: 0 <= i < |rels| ==> r[i] == ToEdge(rels[i], isoformat)
  {
    seq(|rels|, i requires 0 <= i < |rels| => ToEdge(rels[i], isoformat))
  }

  const ServerError := Failure(500, "Internal Server Error")

  /** The outcome of `format_graph_response`: the graph, or the server error an unlabelled node raises. */
  function FormatGraph(records: seq<QueryRecord>, isoformat: int -> string): Response {
    var s := Run(Start, AllNodes(records), isoformat);
    if s.ok then Success(Graph(s.nodes, ResponseEdges(AllRelationships(records), isoformat))) else ServerError
  }

  /** The inner loop over `path.nodes`: append every node not yet seen and remember its id. */
  method AddNodes(nodes: seq<Node>, nodeIds: set<string>, path: seq<GraphNode>, isoformat: int -> string)
    returns (ok: bool, nodes': seq<Node>, nodeIds': set<string>)
    ensures Scan(ok, nodes', nodeIds') == Run(Scan(true, nodes, nodeIds), path, isoformat)
  {
    nodes', nodeIds' := nodes, nodeIds;
    var j := 0;
    while j < |path|
      invariant 0 <= j <= |path|
      invariant Scan(true, nodes', nodeIds') == Run(Scan(true, nodes, nodeIds), path[..j], isoformat)
    {
      var node := path[j];
      assert path[..j + 1][..j] == path[..j];
      if node.elementId !in nodeIds' {
        if node.labels == [] {
          var failed := Scan(false, nodes', nodeIds');
          RunAppend(Scan(true, nodes, nodeIds), path[..j + 1], path[j + 1..], isoformat);
          RunStopped(failed, path[j + 1..], isoformat);
          assert path[..j + 1] + path[j + 1..] == path;
          return false, nodes', nodeIds';
        }
        nodes' := nodes' + [Node(node.elementId, node.labels[0], ConvertedProps(node.props, isoformat))];
        nodeIds' := nodeIds' + {node.elementId};
      }
      j := j + 1;
    }
    assert path[..j] == path;
    return true, nodes', nodeIds';
  }

  /** The inner loop over `path.relationships`: every relationship becomes an edge, appended in order. */
  method AddEdges(edges: seq<Edge>, before: seq<Relationship>, rels: seq<Relationship>, isoformat: int -> string)
    returns (edges': seq<Edge>)
    requires edges == ResponseEdges(before, isoformat)
    ensures edges' == ResponseEdges(before + rels, isoformat)
  {
    edges' := edges;
    var j := 0;
    while j < |rels|
      invariant 0 <= j <= |rels|
      invariant edges' == ResponseEdges(before + rels[..j], isoformat)
    {
      var e := rels[j];
      assert before + rels[..j + 1] == (before + rels[..j]) + [e];
      edges' := edges' + [Edge(e.elementId, e.start, e.end, e.relType, ConvertedProps(e.props, isoformat))];
      j := j + 1;
    }
    assert rels[..j] == rels;
  }

  /** `format_graph_response`: one pass over the records, nodes deduplicated by id, edges all kept. */
  method FormatGraphResponse(records: seq<QueryRecord>, isoformat: int -> string) returns (r: Response)
    ensures r == FormatGraph(records, isoformat)
  {
    var nodes: seq<Node> := [];
    var edges: seq<Edge> := [];
    var nodeIds: set<string> := {};
    var i := 0;
    while i < |records|
      invariant 0 <= i <= |records|
      invariant Scan(true, nodes, nodeIds) == Run(Start, AllNodes(records[..i]), isoformat)
      invariant edges == ResponseEdges(AllRelationships(records[..i]), isoformat)
    {
      assert records[..i + 1][..i] == records[..i];
      var path := records[i].p;
      assert AllNodes(records[..i + 1]) == AllNodes(records[..i]) + NodesOf(records[i]);
      assert AllRelationships(records[..i + 1]) == AllRelationships(records[..i]) + RelationshipsOf(records[i]);
      if path.None? {
        assert AllNodes(records[..i + 1]) == AllNodes(records[..i]);
        assert AllRelationships(records[..i + 1]) == AllRelationships(records[..i]);
        i := i + 1;
        continue;
      }
      RunAppend(Start, AllNodes(records[..i]), path.value.nodes, isoformat);
      var ok;
      ok, nodes, nodeIds := AddNodes(nodes, nodeIds, path.value.nodes, isoformat);
      if !ok {
        FailureStays(records, i + 1, isoformat);
        return ServerError;
      }
      edges := AddEdges(edges, AllRelationships(records[..i]), path.value.relationships, isoformat);
      i := i + 1;
    }
    assert records[..i] == records;
    r := Success(Graph(nodes, edges));
  }

  /** Once the node loop has failed on a prefix of the records, the whole response is the server error. */
  lemma {:induction false} FailureStays(records: seq<QueryRecord>, i: nat, isoformat: int -> string)
    requires i <= |records|
    requires !Run(Start, AllNodes(records[..i]), isoformat).ok
    ensures FormatGraph(records, isoformat) == ServerError
    decreases |records| - i
  {
    if i == |records| {
      assert records[..i] == records;
    } else {
      assert records[..i + 1][..i] == records[..i];
      var s := Run(Start, AllNodes(records[..i]), isoformat);
      RunAppend(Start, AllNodes(records[..i]), NodesOf(records[i]), isoformat);
      RunStopped(s, NodesOf(records[i]), isoformat);
      FailureStays(records, i + 1, isoformat);
    }
  }

  /** A record without a path changes nothing. */
  lemma PathlessRecordIgnored(records: seq<QueryRecord>, isoformat: int -> string)
    ensures FormatGraph(records + [QueryRecord(None)], isoformat) == FormatGraph(records, isoformat)
  {
    var rs := records + [QueryRecord(None)];
    assert rs[..|rs| - 1] == records && rs[|rs| - 1] == QueryRecord(None);
    assert AllNodes(rs) == AllNodes(records) + NodesOf(QueryRecord(None)) == AllNodes(records);
    assert AllRelationships(rs) == AllRelationships(records) + RelationshipsOf(QueryRecord(None)) == AllRelationships(records);
  }

  /** The response is the server error exactly when the first node met with some id has no label. */
  lemma FormatGraphFails(records: seq<QueryRecord>, isoformat: int -> string)
    ensures FormatGraph(records, isoformat).Failure? <==> FirstUnlabelled(AllNodes(records))
    ensures FormatGraph(records, isoformat).Failure? ==> FormatGraph(records, isoformat) == ServerError
  {
    RunFails(AllNodes(records), isoformat);
  }

  /**
   * A successful response lists every node of every path exactly once, in order of first
   * appearance, each converted from the first node met with its id under its first label; and
   * every relationship once per crossing, in order.
   */
  lemma FormatGraphSpec(records: seq<QueryRecord>, isoformat: int -> string)
    requires FormatGraph(records, isoformat).Success?
    ensures var nodes := AllNodes(records);
      var rels := AllRelationships(records);
      var g := FormatGraph(records, isoformat).graph;
      && (forall i, j :: 0 <= i < j < |g.nodes| ==> g.nodes[i].id != g.nodes[j].id)
      && (forall k :: 0 <= k < |nodes| ==> exists j :: 0 <= j < |g.nodes| && g.nodes[j].id == nodes[k].elementId)
      && (forall i, j :: 0 <= i < j < |g.nodes| ==> FirstIndex(nodes, g.nodes[i].id) < FirstIndex(nodes, g.nodes[j].id))
      && (forall j :: 0 <= j < |g.nodes| ==>
            FirstIndex(nodes, g.nodes[j].id) < |nodes| && ConvertedFrom(g.nodes[j], nodes[FirstIndex(nodes, g.nodes[j].id)], isoformat))
      && |g.edges| == |rels|
      && (forall i :: 0 <= i < |rels| ==> g.edges[i] == ToEdge(rels[i], isoformat))
  {
    var nodes := AllNodes(records);
    var s := Run(Start, nodes, isoformat);
    RunOrder(nodes, isoformat);
    RunCovers(nodes, isoformat);
    assert FormatGraph(records, isoformat).graph == Graph(s.nodes, ResponseEdges(AllRelationships(records), isoformat));
  }

  /** The emitted nodes: distinct ids in order of first sighting, each from the first node met with its id. */
  lemma RunOrder(nodes: seq<GraphNode>, isoformat: int -> string)
    ensures var s := Run(Start, nodes, isoformat);
      && (forall i, j :: 0 <= i < j < |s.nodes| ==> s.nodes[i].id != s.nodes[j].id)
      && (forall i, j :: 0 <= i < j < |s.nodes| ==> FirstIndex(nodes, s.nodes[i].id) < FirstIndex(nodes, s.nodes[j].id))
      && (forall j :: 0 <= j < |s.nodes| ==>
            FirstIndex(nodes, s.nodes[j].id) < |nodes| && ConvertedFrom(s.nodes[j], nodes[FirstIndex(nodes, s.nodes[j].id)], isoformat))
  {
    RunSpec(nodes, isoformat);
  }

  /** A run that has not failed emits a node for every id it met. */
  lemma RunCovers(nodes: seq<GraphNode>, isoformat: int -> string)
    requires Run(Start, nodes, isoformat).ok
    ensures var s := Run(Start, nodes, isoformat);
      forall k :: 0 <= k < |nodes| ==> exists j :: 0 <= j < |s.nodes| && s.nodes[j].id == nodes[k].elementId
  {
    var s := Run(Start, nodes, isoformat);
    RunSpec(nodes, isoformat);
    forall k | 0 <= k < |nodes| ensures exists j :: 0 <= j < |s.nodes| && s.nodes[j].id == nodes[k].elementId {
      var id := nodes[k].elementId;
      IdSetMembers(nodes, id);
      assert id in s.ids;
    }
  }

  // ---------------------------------------------------------------------------
  // The endpoints; the Cypher query and its session are outside the model, its records are the input.

  /** `GET /full`: no records give the empty graph. */
  function FullGraph(records: seq<QueryRecord>, isoformat: int -> string): (r: Response)
    ensures records == [] ==> r == Success(Graph([], []))
    ensures records != [] ==> r == FormatGraph(records, isoformat)
  {
    if records == [] then Success(Graph([], [])) else FormatGraph(records, isoformat)
  }

  /** `GET /search`: no records mean the subscriber is unknown. */
  function SearchSubscriber(records: seq<QueryRecord>, isoformat: int -> string): (r: Response)
    ensures records == [] ==> r == Failure(404, "Subscriber not found")
    ensures records != [] ==> r == FormatGraph(records, isoformat)
  {
    if records == [] then Failure(404, "Subscriber not found") else FormatGraph(records, isoformat)
  }

  /** `GET /shortest-path`: no records mean the two subscribers are not connected. */
  function ShortestPath(records: seq<QueryRecord>, isoformat: int -> string): (r: Response)
    ensures records == [] ==> r == Failure(404, "No path found between the specified subscribers")
    ensures records != [] ==> r == FormatGraph(records, isoformat)
  {
    if records == [] then Failure(404, "No path found between the specified subscribers") else FormatGraph(records, isoformat)
  }

  /**
   * The three endpoints agree on every non-empty answer, and a 404 comes only from an empty one:
   * formatting never yields a 404, and formatting no records gives the same empty graph as `/full`.
   */
  lemma EndpointsAgree(records: seq<QueryRecord>, isoformat: int -> string)
    ensures FormatGraph([], isoformat) == FullGraph([], isoformat)
    ensures SearchSubscriber(records, isoformat).Failure? && SearchSubscriber(records, isoformat).status == 404
      <==> records == []
    ensures ShortestPath(records, isoformat).Failure? && ShortestPath(records, isoformat).status == 404
      <==> records == []
    ensures records != [] ==> FullGraph(records, isoformat) == SearchSubscriber(records, isoformat) == ShortestPath(records, isoformat)
  {
    assert AllNodes([]) == [] && AllRelationships([]) == [];
    assert Run(Start, [], isoformat) == Start;
  }
}
