/** Route costs: transport and service cost of a route, the
    Clarke-Wright saving of joining two routes, and the totals over a
    collection of routes that the builder must keep or improve. */
module Costs {
  import opened Types

  /** Sum of d[s[k]][s[k+1]] over consecutive stops, left to right. */
  function TransportCost(d: Matrix, s: seq<int>): int
    requires Square(d) && ValidStops(d, s)
  {
    if |s| < 2 then 0 else d[s[0]][s[1]] + TransportCost(d, s[1..])
  }

  /** Sum of the service costs of the clients. */
  function ServiceCost(cs: seq<Client>): int
  {
    if cs == [] then 0 else cs[0].cost + ServiceCost(cs[1..])
  }

  /** Transport along the stop sequence plus the service cost of the clients. */
  function RouteCost(d: Matrix, r: Route): int
    requires Square(d) && ValidStops(d, r.stops)
  {
    TransportCost(d, r.stops) + ServiceCost(r.clients)
  }

  predicate AllMeasurable(d: Matrix, rs: seq<Route>)
  {
    forall k :: 0 <= k < |rs| ==> Measurable(d, rs[k])
  }

  /** The global cost of a solution: the sum of its route costs. */
  function TotalCost(d: Matrix, rs: seq<Route>): int
    requires Square(d) && AllMeasurable(d, rs)
  {
    if rs == [] then 0 else TotalCost(d, rs[..|rs| - 1]) + RouteCost(d, rs[|rs| - 1])
  }

  /** The clients of every route, route after route. */
  function AllClients(rs: seq<Route>): seq<Client>
  {
    if rs == [] then [] else AllClients(rs[..|rs| - 1]) + rs[|rs| - 1].clients
  }

  /** The union of the routes' service sets. */
  function AllServices(rs: seq<Route>): set<ServiceKey>
  {
    if rs == [] then {} else AllServices(rs[..|rs| - 1]) + rs[|rs| - 1].services
  }

  /** The sum of the routes' cached demands. */
  function DemandTotal(rs: seq<Route>): int
  {
    if rs == [] then 0 else DemandTotal(rs[..|rs| - 1]) + rs[|rs| - 1].demand
  }

  /** Clarke-Wright saving of going from `last` straight to `first` instead
      of passing through the depot in between. */
  function Saving(d: Matrix, dep: int, last: int, first: int): int
    requires Square(d) && 0 <= dep < |d| && 0 <= last < |d| && 0 <= first < |d|
  {
    d[last][dep] + d[dep][first] - d[last][first]
  }

  /** The saving of appending route b after route a: a's last stop before the
      depot against b's first stop after it. */
  function RouteSaving(d: Matrix, dep: int, a: Route, b: Route): int
    requires Square(d) && 0 <= dep < |d| && Measurable(d, a) && Measurable(d, b)
  {
    Saving(d, dep, a.stops[|a.stops| - 2], b.stops[1])
  }

  /** Ceiling of a / b for a positive divisor (Dafny's division floors here). */
  function CeilDiv(a: int, b: int): int
    requires b > 0
  {
    -((-a) / b)
  }

  /** The bound ceil(total demand / capacity) at which merging stops. */
  function MinRoutes(rs: seq<Route>, cap: int): int
    requires cap > 0
  {
    CeilDiv(DemandTotal(rs), cap)
  }

  // ---------------------------------------------------------------------
  // Properties of the cost functions

  /** Transport cost splits at a concatenation point. */
  lemma {:induction false} TransportConcat(d: Matrix, a: seq<int>, b: seq<int>)
    requires Square(d) && ValidStops(d, a) && ValidStops(d, b) && a != [] && b != []
    ensures ValidStops(d, a + b)
    ensures TransportCost(d, a + b) == TransportCost(d, a) + d[a[|a| - 1]][b[0]] + TransportCost(d, b)
  {
    if |a| == 1 {
      assert (a + b)[1..] == b;
    } else {
      assert (a + b)[1..] == a[1..] + b;
      TransportConcat(d, a[1..], b);
    }
  }

  /** With non-negative distances a route never has negative transport cost. */
  lemma {:induction false} TransportNonNegative(d: Matrix, s: seq<int>)
    requires Square(d) && ValidStops(d, s)
    requires forall u, v :: 0 <= u < |d| && 0 <= v < |d| ==> d[u][v] >= 0
    ensures TransportCost(d, s) >= 0
  {
    if |s| >= 2 {
      TransportNonNegative(d, s[1..]);
    }
  }

  lemma {:induction false} ServiceCostConcat(a: seq<Client>, b: seq<Client>)
    ensures ServiceCost(a + b) == ServiceCost(a) + ServiceCost(b)
  {
    if a != [] {
      assert (a + b)[1..] == a[1..] + b;
      ServiceCostConcat(a[1..], b);
    } else {
      assert a + b == b;
    }
  }

  /** The saving of a pair is exactly what serving b right after a, in one
      depot-to-depot sequence, saves over the two separate sequences. */
  lemma SavingIsJoinGain(d: Matrix, dep: int, sa: seq<int>, sb: seq<int>)
    requires Square(d) && 0 <= dep < |d|
    requires |sa| >= 2 && |sb| >= 2 && ValidStops(d, sa) && ValidStops(d, sb)
    requires sa[|sa| - 1] == dep && sb[0] == dep
    ensures ValidStops(d, sa[..|sa| - 1] + sb[1..])
    ensures TransportCost(d, sa) + TransportCost(d, sb) - TransportCost(d, sa[..|sa| - 1] + sb[1..])
            == Saving(d, dep, sa[|sa| - 2], sb[1])
  {
    var head, tail := sa[..|sa| - 1], sb[1..];
    var last, first := sa[|sa| - 2], sb[1];
    TransportLastEdge(d, sa);
    assert TransportCost(d, sa) == TransportCost(d, head) + d[last][dep];
    assert TransportCost(d, sb) == d[dep][first] + TransportCost(d, tail);
    assert head[|head| - 1] == last && tail[0] == first;
    TransportConcat(d, head, tail);
    assert TransportCost(d, head + tail) == TransportCost(d, head) + d[last][first] + TransportCost(d, tail);
  }

  /** The last hop of a sequence can be split off its transport cost. */
  lemma TransportLastEdge(d: Matrix, s: seq<int>)
    requires Square(d) && ValidStops(d, s) && |s| >= 2
    ensures ValidStops(d, s[..|s| - 1])
    ensures TransportCost(d, s) == TransportCost(d, s[..|s| - 1]) + d[s[|s| - 2]][s[|s| - 1]]
  {
    var head := s[..|s| - 1];
    assert ValidStops(d, head) && ValidStops(d, [s[|s| - 1]]);
    assert s == head + [s[|s| - 1]];
    TransportConcat(d, head, [s[|s| - 1]]);
  }

  /** CeilDiv is the ceiling: the least q with q * b >= a. */
  lemma CeilDivIsCeiling(a: int, b: int)
    requires b > 0
    ensures CeilDiv(a, b) * b >= a
    ensures (CeilDiv(a, b) - 1) * b < a
  {
    var q, r := (-a) / b, (-a) % b;
    assert -a == q * b + r && 0 <= r < b;
    assert CeilDiv(a, b) * b == -(q * b);
    assert (CeilDiv(a, b) - 1) * b == -(q * b) - b;
  }

  lemma {:induction false} DemandTotalBound(rs: seq<Route>, cap: int)
    requires forall r :: r in rs ==> r.demand <= cap
    ensures DemandTotal(rs) <= |rs| * cap
  {
    if rs != [] {
      var init := rs[..|rs| - 1];
      assert forall r :: r in init ==> r in rs;
      DemandTotalBound(init, cap);
      assert |rs| * cap == |init| * cap + cap;
    }
  }

  /** ceil(total demand / capacity) really is a lower bound on the number of
      routes of any solution whose routes all fit in the capacity. */
  lemma MinRoutesIsLowerBound(rs: seq<Route>, cap: int)
    requires cap > 0
    requires forall r :: r in rs ==> r.demand <= cap
    ensures |rs| >= MinRoutes(rs, cap)
  {
    DemandTotalBound(rs, cap);
    CeilDivIsCeiling(DemandTotal(rs), cap);
    var c, n := MinRoutes(rs, cap), |rs|;
    assert (c - 1 - n) * cap == (c - 1) * cap - n * cap;
    NonNegativeProduct(c - 1 - n, cap);
  }

  lemma NonNegativeProduct(x: int, y: int)
    requires y > 0
    ensures x >= 0 ==> x * y >= 0
  {
  }

  // ---------------------------------------------------------------------
  // Running totals over a collection of routes

  /** What the builder's invariants track of a collection of routes: how
      many there are, their clients, their services, their demand and their
      cost. */
  datatype Tally = Tally(count: int, clients: multiset<Client>, services: set<ServiceKey>, demand: int, cost: int)

  function Add(a: Tally, b: Tally): Tally
  {
    Tally(a.count + b.count, a.clients + b.clients, a.services + b.services, a.demand + b.demand, a.cost + b.cost)
  }

  function RouteTally(d: Matrix, r: Route): Tally
    requires Square(d) && ValidStops(d, r.stops)
  {
    Tally(1, multiset(r.clients), r.services, r.demand, RouteCost(d, r))
  }

  /** The tally of a sequence of routes. */
  ghost function SeqTally(d: Matrix, rs: seq<Route>): Tally
    requires Square(d) && AllMeasurable(d, rs)
  {
    Tally(|rs|, multiset(AllClients(rs)), AllServices(rs), DemandTotal(rs), TotalCost(d, rs))
  }

  lemma AddSwap(x: Tally, y: Tally, z: Tally)
    ensures Add(x, Add(y, z)) == Add(y, Add(x, z))
  {
    assert x.clients + (y.clients + z.clients) == y.clients + (x.clients + z.clients);
    assert x.services + (y.services + z.services) == y.services + (x.services + z.services);
  }

  lemma AddAssoc(x: Tally, y: Tally, z: Tally)
    ensures Add(Add(x, y), z) == Add(x, Add(y, z))
  {
    assert (x.clients + y.clients) + z.clients == x.clients + (y.clients + z.clients);
    assert (x.services + y.services) + z.services == x.services + (y.services + z.services);
  }

  lemma SeqTallySnoc(d: Matrix, rs: seq<Route>, r: Route)
    requires Square(d) && AllMeasurable(d, rs) && Measurable(d, r)
    ensures AllMeasurable(d, rs + [r])
    ensures SeqTally(d, rs + [r]) == Add(SeqTally(d, rs), RouteTally(d, r))
  {
    var rs' := rs + [r];
    assert rs'[..|rs|] == rs;
    assert AllClients(rs') == AllClients(rs) + r.clients;
  }

  /** The tally of a non-empty sequence is that of all its routes but the
      last, plus the last. */
  lemma SeqTallyLast(d: Matrix, rs: seq<Route>)
    requires Square(d) && AllMeasurable(d, rs) && rs != []
    ensures AllMeasurable(d, rs[..|rs| - 1])
    ensures SeqTally(d, rs) == Add(SeqTally(d, rs[..|rs| - 1]), RouteTally(d, rs[|rs| - 1]))
  {
    assert AllMeasurable(d, rs[..|rs| - 1]);
  }

  lemma {:induction false} SeqTallyConcat(d: Matrix, a: seq<Route>, b: seq<Route>)
    requires Square(d) && AllMeasurable(d, a) && AllMeasurable(d, b)
    ensures AllMeasurable(d, a + b)
    ensures SeqTally(d, a + b) == Add(SeqTally(d, a), SeqTally(d, b))
    decreases |b|
  {
    if b == [] {
      assert a + b == a;
    } else {
      var init, last := b[..|b| - 1], b[|b| - 1];
      assert AllMeasurable(d, init) && Measurable(d, last);
      SeqTallyConcat(d, a, init);
      assert a + b == (a + init) + [last];
      SeqTallySnoc(d, a + init, last);
      assert b == init + [last];
      SeqTallySnoc(d, init, last);
      AddAssoc(SeqTally(d, a), SeqTally(d, init), RouteTally(d, last));
    }
  }

  /** The ids 0 .. n-1. */
  function Range(n: int): (ids: set<int>)
    ensures forall k :: k in ids <==> 0 <= k < n
    ensures |ids| == if n <= 0 then 0 else n
    decreases n
  {
    if n <= 0 then {} else Range(n - 1) + {n - 1}
  }

  const Zero := Tally(0, multiset{}, {}, 0, 0)

  /** The tally of the routes of map m whose ids lie in `ids` and below n. */
  ghost function TallyBelow(d: Matrix, m: map<int, Route>, ids: set<int>, n: int): Tally
    requires Square(d) && forall k :: k in ids && k < n ==> k in m && ValidStops(d, m[k].stops)
    decreases n
  {
    if n <= 0 then Zero
    else Add(TallyBelow(d, m, ids, n - 1), if n - 1 in ids then RouteTally(d, m[n - 1]) else Zero)
  }

  /** Two maps and id sets that agree below n have the same tally. */
  lemma {:induction false} TallyAgree(d: Matrix, m: map<int, Route>, ids: set<int>, m': map<int, Route>, ids': set<int>, n: int)
    requires Square(d) && forall k :: k in ids && k < n ==> k in m && ValidStops(d, m[k].stops)
    requires forall k :: k < n ==> (k in ids <==> k in ids')
    requires forall k :: k in ids && k < n ==> k in m' && m'[k] == m[k]
    ensures TallyBelow(d, m', ids', n) == TallyBelow(d, m, ids, n)
    decreases n
  {
    if n > 0 {
      TallyAgree(d, m, ids, m', ids', n - 1);
    }
  }

  /** Taking one id out of the set takes its route out of the tally. */
  lemma {:induction false} TallyRemove(d: Matrix, m: map<int, Route>, ids: set<int>, n: int, x: int)
    requires Square(d) && forall k :: k in ids && k < n ==> k in m && ValidStops(d, m[k].stops)
    requires x in ids && 0 <= x < n
    ensures TallyBelow(d, m, ids, n) == Add(TallyBelow(d, m, ids - {x}, n), RouteTally(d, m[x]))
    decreases n - x
  {
    if x == n - 1 {
      TallyAgree(d, m, ids, m, ids - {x}, n - 1);
      AddZero(TallyBelow(d, m, ids - {x}, n - 1));
    } else {
      TallyRemove(d, m, ids, n - 1, x);
      TallyRemoveStep(d, m, ids, n, x);
    }
  }

  lemma TallyRemoveStep(d: Matrix, m: map<int, Route>, ids: set<int>, n: int, x: int)
    requires Square(d) && forall k :: k in ids && k < n ==> k in m && ValidStops(d, m[k].stops)
    requires x in ids && 0 <= x < n - 1
    requires TallyBelow(d, m, ids, n - 1) == Add(TallyBelow(d, m, ids - {x}, n - 1), RouteTally(d, m[x]))
    ensures TallyBelow(d, m, ids, n) == Add(TallyBelow(d, m, ids - {x}, n), RouteTally(d, m[x]))
  {
    var a, t := TallyBelow(d, m, ids - {x}, n - 1), RouteTally(d, m[x]);
    var r := if n - 1 in ids then RouteTally(d, m[n - 1]) else Zero;
    assert (n - 1 in ids - {x}) == (n - 1 in ids);
    AddRotate(a, t, r);
  }

  lemma AddZero(a: Tally)
    ensures Add(a, Zero) == a
  {
    assert a.clients + multiset{} == a.clients;
    assert a.services + {} == a.services;
  }

  lemma AddRotate(a: Tally, x: Tally, r: Tally)
    ensures Add(Add(a, x), r) == Add(Add(a, r), x)
  {
    assert (a.clients + x.clients) + r.clients == (a.clients + r.clients) + x.clients;
    assert (a.services + x.services) + r.services == (a.services + r.services) + x.services;
  }

  lemma AddCommute(x: Tally, y: Tally)
    ensures Add(x, y) == Add(y, x)
  {
    assert x.clients + y.clients == y.clients + x.clients;
    assert x.services + y.services == y.services + x.services;
  }

  /** The tally of the first n routes of a map built from a sequence is the
      tally of that sequence's prefix. */
  lemma {:induction false} TallyOfPrefix(d: Matrix, rs: seq<Route>, m: map<int, Route>, n: int)
    requires Square(d) && AllMeasurable(d, rs) && 0 <= n <= |rs|
    requires forall k :: 0 <= k < |rs| ==> k in m && m[k] == rs[k]
    ensures AllMeasurable(d, rs[..n])
    ensures TallyBelow(d, m, Range(|rs|), n) == SeqTally(d, rs[..n])
    decreases n
  {
    assert AllMeasurable(d, rs[..n]);
    if n > 0 {
      TallyOfPrefix(d, rs, m, n - 1);
      assert rs[..n] == rs[..n - 1] + [rs[n - 1]];
      SeqTallySnoc(d, rs[..n - 1], rs[n - 1]);
    }
  }
}
