/** The service catalogue and the initial one-service routes. */
module Catalogue {
  import opened Types
  import opened Costs

  /** A required vertex with its demand and service cost. */
  datatype RequiredNode = RequiredNode(vertex: int, demand: int, cost: int)

  /** A required edge or arc (u, v) with its transport cost, demand and
      service cost; the transport cost is not kept in the catalogue. */
  datatype RequiredLink = RequiredLink(u: int, v: int, transportCost: int, demand: int, cost: int)

  /** Builds the catalogue: nodes first, then edges, then arcs, numbered
      1, 2, ... in that order. */
  method PrepareClients(nodes: seq<RequiredNode>, edges: seq<RequiredLink>, arcs: seq<RequiredLink>)
    returns (clients: seq<Client>)
    ensures |clients| == |nodes| + |edges| + |arcs|
    ensures forall k :: 0 <= k < |clients| ==> clients[k].id == k + 1
    ensures forall k :: 0 <= k < |nodes| ==>
      clients[k] == Client(Node, k + 1, nodes[k].vertex, nodes[k].vertex, nodes[k].demand, nodes[k].cost)
    ensures forall k :: 0 <= k < |edges| ==>
      var l := edges[k];
      clients[|nodes| + k] == Client(Edge, |nodes| + k + 1, l.u, l.v, l.demand, l.cost)
    ensures forall k :: 0 <= k < |arcs| ==>
      var l := arcs[k];
      clients[|nodes| + |edges| + k] == Client(Arc, |nodes| + |edges| + k + 1, l.u, l.v, l.demand, l.cost)
  {
    clients := [];
    var id := 1;
    var k := 0;
    while k < |nodes|
      invariant 0 <= k <= |nodes|
      invariant |clients| == k && id == k + 1
      invariant forall t :: 0 <= t < |clients| ==> clients[t].id == t + 1
      invariant forall t :: 0 <= t < k ==>
        clients[t] == Client(Node, t + 1, nodes[t].vertex, nodes[t].vertex, nodes[t].demand, nodes[t].cost)
    {
      var n := nodes[k];
      clients := clients + [Client(Node, id, n.vertex, n.vertex, n.demand, n.cost)];
      id := id + 1;
      k := k + 1;
    }
    k := 0;
    while k < |edges|
      invariant 0 <= k <= |edges|
      invariant |clients| == |nodes| + k && id == |nodes| + k + 1
      invariant forall t :: 0 <= t < |clients| ==> clients[t].id == t + 1
      invariant forall t :: 0 <= t < |nodes| ==>
        clients[t] == Client(Node, t + 1, nodes[t].vertex, nodes[t].vertex, nodes[t].demand, nodes[t].cost)
      invariant forall t :: 0 <= t < k ==>
        clients[|nodes| + t] == Client(Edge, |nodes| + t + 1, edges[t].u, edges[t].v, edges[t].demand, edges[t].cost)
    {
      var l := edges[k];
      clients := clients + [Client(Edge, id, l.u, l.v, l.demand, l.cost)];
      id := id + 1;
      k := k + 1;
    }
    k := 0;
    while k < |arcs|
      invariant 0 <= k <= |arcs|
      invariant |clients| == |nodes| + |edges| + k && id == |nodes| + |edges| + k + 1
      invariant forall t :: 0 <= t < |clients| ==> clients[t].id == t + 1
      invariant forall t :: 0 <= t < |nodes| ==>
        clients[t] == Client(Node, t + 1, nodes[t].vertex, nodes[t].vertex, nodes[t].demand, nodes[t].cost)
      invariant forall t :: 0 <= t < |edges| ==>
        clients[|nodes| + t] == Client(Edge, |nodes| + t + 1, edges[t].u, edges[t].v, edges[t].demand, edges[t].cost)
      invariant forall t :: 0 <= t < k ==>
        clients[|nodes| + |edges| + t] == Client(Arc, |nodes| + |edges| + t + 1, arcs[t].u, arcs[t].v, arcs[t].demand, arcs[t].cost)
    {
      var l := arcs[k];
      clients := clients + [Client(Arc, id, l.u, l.v, l.demand, l.cost)];
      id := id + 1;
      k := k + 1;
    }
  }

  /** The route that serves one client alone: depot, the client's two
      endpoints, depot. */
  function InitialRoute(c: Client, dep: int): Route
  {
    Route([c], c.demand, {KeyOf(c)}, [dep, c.origin, c.dest, dep])
  }

  /** One route per client, in catalogue order. */
  method InitialRoutes(clients: seq<Client>, dep: int) returns (routes: seq<Route>)
    ensures |routes| == |clients|
    ensures forall k :: 0 <= k < |clients| ==> routes[k] == InitialRoute(clients[k], dep)
  {
    routes := [];
    var k := 0;
    while k < |clients|
      invariant 0 <= k <= |clients|
      invariant |routes| == k
      invariant forall t :: 0 <= t < k ==> routes[t] == InitialRoute(clients[t], dep)
    {
      var c := clients[k];
      routes := routes + [InitialRoute(c, dep)];
      k := k + 1;
    }
  }

  /** A single-client route is well formed, holds exactly that client's
      demand and service, and costs the round trip through its endpoints
      plus the client's service cost. */
  lemma InitialRouteFacts(d: Matrix, c: Client, dep: int)
    requires Square(d) && 0 <= dep < |d| && 0 <= c.origin < |d| && 0 <= c.dest < |d|
    ensures WellFormed(InitialRoute(c, dep), dep)
    ensures Measurable(d, InitialRoute(c, dep))
    ensures RouteCost(d, InitialRoute(c, dep)) == d[dep][c.origin] + d[c.origin][c.dest] + d[c.dest][dep] + c.cost
  {
    var s := InitialRoute(c, dep).stops;
    assert Interior(s) == [c.origin, c.dest];
    assert s[1..] == [c.origin, c.dest, dep] && s[1..][1..] == [c.dest, dep] && s[1..][1..][1..] == [dep];
    assert TransportCost(d, [dep]) == 0;
    assert TransportCost(d, [c.dest, dep]) == d[c.dest][dep];
    assert TransportCost(d, [c.origin, c.dest, dep]) == d[c.origin][c.dest] + d[c.dest][dep];
    assert ServiceCost([c]) == c.cost;
  }

  /** Routes built from a catalogue with distinct ids never share a service,
      and together they hold every service of the catalogue. */
  lemma {:induction false} InitialRoutesPartition(clients: seq<Client>, dep: int, routes: seq<Route>)
    requires forall a, b :: 0 <= a < b < |clients| ==> clients[a].id != clients[b].id
    requires |routes| == |clients|
    requires forall k :: 0 <= k < |clients| ==> routes[k] == InitialRoute(clients[k], dep)
    ensures PairwiseDisjoint(routes)
    ensures AllServices(routes) == Keys(clients)
    decreases |clients|
  {
    if clients != [] {
      var n := |clients| - 1;
      InitialRoutesPartition(clients[..n], dep, routes[..n]);
      assert routes[..|routes| - 1] == routes[..n];
      KeysSnoc(clients[..n], clients[n]);
      assert clients == clients[..n] + [clients[n]];
    }
  }

  lemma KeysSnoc(cs: seq<Client>, c: Client)
    ensures Keys(cs + [c]) == Keys(cs) + {KeyOf(c)}
  {
    ClientsConcat(cs, [c]);
    assert [c][1..] == [];
  }
}
