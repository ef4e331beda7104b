/**
 * The floating panel shown for the selected node of the call network: the
 * links that touch the node, their call and SMS totals, and where the panel
 * is placed next to the pointer.
 */
module NodeDetails {
  import opened Common
  import opened NetworkData

  /** `(typeof edge.source === 'object' ? edge.source.id : edge.source) === id`, and the same for the target. */
  predicate Touches(id: string, e: NetworkEdge) {
    e.source == id || e.target == id
  }

  function TouchesNode(id: string): NetworkEdge -> bool { (e: NetworkEdge) => Touches(id, e) }

  function Untouched(id: string): NetworkEdge -> bool { (e: NetworkEdge) => !Touches(id, e) }

  /** `connectedEdges`: the links of `edges` that start or end at `id`, in their original order. */
  function ConnectedEdges(id: string, edges: seq<NetworkEdge>): (r: seq<NetworkEdge>)
    ensures forall i :: 0 <= i < |r| ==> r[i] in edges && Touches(id, r[i])
    ensures forall i :: 0 <= i < |edges| && Touches(id, edges[i]) ==> edges[i] in r
  {
    Filter(edges, TouchesNode(id))
  }

  /** `edges.reduce((sum, edge) => sum + count(edge), 0)` */
  function SumOf(edges: seq<NetworkEdge>, count: NetworkEdge -> nat): nat
    decreases |edges|
  {
    if edges == [] then 0 else count(edges[0]) + SumOf(edges[1..], count)
  }

  function CallCount(e: NetworkEdge): nat { e.callCount }

  function SmsCount(e: NetworkEdge): nat { e.smsCount }

  /** Summing distributes over concatenation. */
  lemma {:induction false} SumAppend(a: seq<NetworkEdge>, b: seq<NetworkEdge>, count: NetworkEdge -> nat)
    ensures SumOf(a + b, count) == SumOf(a, count) + SumOf(b, count)
    decreases |a|
  {
    if a == [] {
      assert a + b == b;
    } else {
      assert (a + b)[0] == a[0];
      assert (a + b)[1..] == a[1..] + b;
      SumAppend(a[1..], b, count);
    }
  }

  /** The links touching a node and the others split every total in two. */
  lemma {:induction false} SumSplits(id: string, edges: seq<NetworkEdge>, count: NetworkEdge -> nat)
    ensures SumOf(edges, count) == SumOf(Filter(edges, TouchesNode(id)), count) + SumOf(Filter(edges, Untouched(id)), count)
    decreases |edges|
  {
    if edges != [] {
      SumSplits(id, edges[1..], count);
      var rest := Filter(edges[1..], TouchesNode(id));
      var others := Filter(edges[1..], Untouched(id));
      if Touches(id, edges[0]) {
        assert Filter(edges, TouchesNode(id)) == [edges[0]] + rest;
        assert Filter(edges, Untouched(id)) == others;
        assert ([edges[0]] + rest)[1..] == rest;
      } else {
        assert Filter(edges, TouchesNode(id)) == rest;
        assert Filter(edges, Untouched(id)) == [edges[0]] + others;
        assert ([edges[0]] + others)[1..] == others;
      }
    }
  }

  /** What the panel shows: the three figures and the panel's corner. */
  datatype Panel = Panel(connectedEdges: seq<NetworkEdge>, totalCalls: nat, totalSms: nat, links: nat,
                         left: real, top: real)

  /** `left: Math.min(position.x + 20, window.innerWidth - 340)` */
  function PanelLeft(x: real, innerWidth: real): (left: real)
    ensures left <= x + 20.0 && left <= innerWidth - 340.0
    ensures left == x + 20.0 || left == innerWidth - 340.0
  {
    if x + 20.0 < innerWidth - 340.0 then x + 20.0 else innerWidth - 340.0
  }

  /** `top: Math.max(position.y - 100, 20)` */
  function PanelTop(y: real): (top: real)
    ensures top >= 20.0 && top >= y - 100.0
    ensures top == 20.0 || top == y - 100.0
  {
    if y - 100.0 > 20.0 then y - 100.0 else 20.0
  }

  /** The component: nothing without a node, otherwise the figures computed from `edges`. */
  function Details(node: Option<NetworkNode>, edges: seq<NetworkEdge>, x: real, y: real, innerWidth: real): (r: Option<Panel>)
    ensures r.None? <==> node.None?
    ensures r.Some? ==> (r.value.links == |r.value.connectedEdges| && r.value.top >= 20.0
                         && r.value.left <= innerWidth - 340.0)
  {
    match node
    case None => None
    case Some(n) =>
      var connected := ConnectedEdges(n.id, edges);
      Some(Panel(connected, SumOf(connected, CallCount), SumOf(connected, SmsCount), |connected|,
                 PanelLeft(x, innerWidth), PanelTop(y)))
  }

  /** The panel's totals never exceed the totals of the whole graph, and they are zero for a node without links. */
  lemma DetailsTotals(n: NetworkNode, edges: seq<NetworkEdge>, x: real, y: real, innerWidth: real)
    ensures var p := Details(Some(n), edges, x, y, innerWidth).value;
      && p.totalCalls <= SumOf(edges, CallCount)
      && p.totalSms <= SumOf(edges, SmsCount)
      && p.links <= |edges|
      && ((forall i :: 0 <= i < |edges| ==> !Touches(n.id, edges[i])) ==> p.totalCalls == 0 && p.totalSms == 0 && p.links == 0)
  {
    SumSplits(n.id, edges, CallCount);
    SumSplits(n.id, edges, SmsCount);
  }
}
