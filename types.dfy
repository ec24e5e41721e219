/** Entities shared by every stage of the route builder: service records,
    routes and the distance matrix. */
module Types {

  datatype Option<T> = None | Some(value: T)

  /** The three kinds of required service: a node, an (undirected) edge and
      a (directed) arc. */
  datatype Kind = Node | Edge | Arc

  /** One record of the service catalogue: its kind, its id, the two graph
      vertices it joins (equal for a node), its demand and its service cost. */
  datatype Client = Client(kind: Kind, id: int, origin: int, dest: int, demand: int, cost: int)

  /** The pair a route keeps in its set of services. */
  type ServiceKey = (Kind, int)

  function KeyOf(c: Client): ServiceKey
  {
    (c.kind, c.id)
  }

  /** A route: its clients in service order, the cached total demand, the set
      of service keys it holds and its depot-to-depot stop sequence. */
  datatype Route = Route(clients: seq<Client>, demand: int, services: set<ServiceKey>, stops: seq<int>)

  /** Shortest-path distances between vertices, looked up as d[u][v]. */
  type Matrix = seq<seq<int>>

  predicate Square(d: Matrix)
  {
    forall u :: 0 <= u < |d| ==> |d[u]| == |d|
  }

  /** Every stop is a vertex the matrix knows about. */
  predicate ValidStops(d: Matrix, s: seq<int>)
  {
    forall k :: 0 <= k < |s| ==> 0 <= s[k] < |d|
  }

  /** What every stage needs of a route in order to look up its costs: a
      stop sequence with a first and a second-to-last stop, all of them
      vertices of the matrix. */
  predicate Measurable(d: Matrix, r: Route)
  {
    |r.stops| >= 2 && ValidStops(d, r.stops)
  }

  /** The stops strictly between the first and the last one. */
  function Interior(s: seq<int>): seq<int>
    requires |s| >= 2
  {
    s[1..|s| - 1]
  }

  function DemandSum(cs: seq<Client>): int
  {
    if cs == [] then 0 else cs[0].demand + DemandSum(cs[1..])
  }

  function Keys(cs: seq<Client>): set<ServiceKey>
  {
    if cs == [] then {} else {KeyOf(cs[0])} + Keys(cs[1..])
  }

  /** The multiset of vertices a route must visit to perform its clients. */
  function Endpoints(cs: seq<Client>): multiset<int>
  {
    if cs == [] then multiset{} else multiset{cs[0].origin, cs[0].dest} + Endpoints(cs[1..])
  }

  /** A route whose cached fields agree with its clients and whose stop
      sequence leaves from and returns to the depot, visiting in between
      exactly the endpoints of its clients. */
  predicate WellFormed(r: Route, dep: int)
  {
    && |r.stops| >= 2
    && r.stops[0] == dep
    && r.stops[|r.stops| - 1] == dep
    && r.demand == DemandSum(r.clients)
    && r.services == Keys(r.clients)
    && multiset(Interior(r.stops)) == Endpoints(r.clients)
  }

  /** No two routes share a service. */
  predicate PairwiseDisjoint(rs: seq<Route>)
  {
    forall a, b :: 0 <= a < b < |rs| ==> rs[a].services !! rs[b].services
  }

  lemma {:induction false} ClientsConcat(a: seq<Client>, b: seq<Client>)
    ensures DemandSum(a + b) == DemandSum(a) + DemandSum(b)
    ensures Keys(a + b) == Keys(a) + Keys(b)
    ensures Endpoints(a + b) == Endpoints(a) + Endpoints(b)
  {
    if a != [] {
      assert (a + b)[1..] == a[1..] + b;
      ClientsConcat(a[1..], b);
    } else {
      assert a + b == b;
    }
  }
}
