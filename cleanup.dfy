/** Dropping the routes that serve no client. */
module Cleanup {
  import opened Types
  import opened Costs

  /** The routes of rs that serve at least one client, in their order. */
  function NonEmpty(rs: seq<Route>): seq<Route>
  {
    if rs == [] then []
    else NonEmpty(rs[..|rs| - 1]) + (if rs[|rs| - 1].clients == [] then [] else [rs[|rs| - 1]])
  }

  /** Walks the routes once and keeps those with clients. */
  method RemoveEmptyRoutes(routes: seq<Route>) returns (out: seq<Route>)
    ensures out == NonEmpty(routes)
  {
    out := [];
    var k := 0;
    while k < |routes|
      invariant 0 <= k <= |routes|
      invariant out == NonEmpty(routes[..k])
    {
      assert routes[..k + 1][..k] == routes[..k];
      var r := routes[k];
      if r.clients != [] {
        out := out + [r];
      }
      k := k + 1;
    }
    assert routes[..k] == routes;
  }

  /** A route is kept exactly when it is one of rs and serves a client. */
  lemma {:induction false} NonEmptyMembers(rs: seq<Route>)
    ensures forall r :: r in NonEmpty(rs) <==> r in rs && r.clients != []
  {
    if rs != [] {
      var init, last := rs[..|rs| - 1], rs[|rs| - 1];
      NonEmptyMembers(init);
      assert rs == init + [last];
    }
  }

  /** Filtering a concatenation filters each part: the kept routes stay in
      their relative order. */
  lemma {:induction false} NonEmptyConcat(a: seq<Route>, b: seq<Route>)
    ensures NonEmpty(a + b) == NonEmpty(a) + NonEmpty(b)
    decreases |b|
  {
    if b == [] {
      assert a + b == a;
    } else {
      var init, last := b[..|b| - 1], b[|b| - 1];
      assert (a + b)[..|a + b| - 1] == a + init;
      assert b[..|b| - 1] == init;
      NonEmptyConcat(a, init);
    }
  }

  /** Routes that all serve a client are kept as they are; in particular
      filtering twice is filtering once. */
  lemma {:induction false} NonEmptyKeepsAll(rs: seq<Route>)
    requires forall k :: 0 <= k < |rs| ==> rs[k].clients != []
    ensures NonEmpty(rs) == rs
  {
    if rs != [] {
      NonEmptyKeepsAll(rs[..|rs| - 1]);
    }
  }

  lemma NonEmptyIdempotent(rs: seq<Route>)
    ensures NonEmpty(NonEmpty(rs)) == NonEmpty(rs)
  {
    var out := NonEmpty(rs);
    NonEmptyMembers(rs);
    forall k | 0 <= k < |out|
      ensures out[k].clients != []
    {
      assert out[k] in out;
    }
    NonEmptyKeepsAll(out);
  }

  /** No client is lost or repeated: the kept routes list the same clients
      in the same order. */
  lemma {:induction false} NonEmptyClients(rs: seq<Route>)
    ensures AllClients(NonEmpty(rs)) == AllClients(rs)
  {
    if rs != [] {
      var init, last := rs[..|rs| - 1], rs[|rs| - 1];
      NonEmptyClients(init);
      if last.clients != [] {
        var out := NonEmpty(init) + [last];
        assert out[..|out| - 1] == NonEmpty(init);
        assert NonEmpty(rs) == out;
        assert AllClients(out) == AllClients(NonEmpty(init)) + last.clients;
      } else {
        assert NonEmpty(rs) == NonEmpty(init) + [] == NonEmpty(init);
        assert AllClients(rs) == AllClients(init) + [] == AllClients(init);
      }
    }
  }

  /** For well-formed routes, whose services come from their clients, the
      services are kept too. */
  lemma {:induction false} NonEmptyServices(rs: seq<Route>, dep: int)
    requires forall k :: 0 <= k < |rs| ==> WellFormed(rs[k], dep)
    ensures AllServices(NonEmpty(rs)) == AllServices(rs)
  {
    if rs != [] {
      var init, last := rs[..|rs| - 1], rs[|rs| - 1];
      assert forall k :: 0 <= k < |init| ==> init[k] == rs[k];
      NonEmptyServices(init, dep);
      if last.clients != [] {
        var out := NonEmpty(init) + [last];
        assert out[..|out| - 1] == NonEmpty(init);
        assert NonEmpty(rs) == out;
        assert AllServices(out) == AllServices(NonEmpty(init)) + last.services;
      } else {
        assert WellFormed(last, dep);
        assert last.services == Keys([]) == {};
        assert NonEmpty(rs) == NonEmpty(init) + [] == NonEmpty(init);
      }
    }
  }

  /** For well-formed routes, whose demand is the sum over their clients,
      the total demand is kept too. */
  lemma {:induction false} NonEmptyDemand(rs: seq<Route>, dep: int)
    requires forall k :: 0 <= k < |rs| ==> WellFormed(rs[k], dep)
    ensures DemandTotal(NonEmpty(rs)) == DemandTotal(rs)
  {
    if rs != [] {
      var init, last := rs[..|rs| - 1], rs[|rs| - 1];
      assert forall k :: 0 <= k < |init| ==> init[k] == rs[k];
      NonEmptyDemand(init, dep);
      if last.clients != [] {
        var out := NonEmpty(init) + [last];
        assert out[..|out| - 1] == NonEmpty(init);
        assert NonEmpty(rs) == out;
        assert DemandTotal(out) == DemandTotal(NonEmpty(init)) + last.demand;
      } else {
        assert WellFormed(last, dep);
        assert last.demand == DemandSum([]) == 0;
        assert NonEmpty(rs) == NonEmpty(init) + [] == NonEmpty(init);
      }
    }
  }

  /** With non-negative distances dropping routes never raises the total
      cost. */
  lemma {:induction false} NonEmptyCost(d: Matrix, rs: seq<Route>)
    requires Square(d) && AllMeasurable(d, rs)
    requires forall u, v :: 0 <= u < |d| && 0 <= v < |d| ==> d[u][v] >= 0
    ensures AllMeasurable(d, NonEmpty(rs))
    ensures TotalCost(d, NonEmpty(rs)) <= TotalCost(d, rs)
  {
    if rs != [] {
      var init, last := rs[..|rs| - 1], rs[|rs| - 1];
      assert AllMeasurable(d, init) && Measurable(d, last);
      NonEmptyCost(d, init);
      if last.clients != [] {
        var out := NonEmpty(init) + [last];
        assert out[..|out| - 1] == NonEmpty(init);
        assert AllMeasurable(d, out);
        assert NonEmpty(rs) == out;
        assert TotalCost(d, out) == TotalCost(d, NonEmpty(init)) + RouteCost(d, last);
      } else {
        TransportNonNegative(d, last.stops);
        assert NonEmpty(rs) == NonEmpty(init) + [] == NonEmpty(init);
        assert RouteCost(d, last) >= 0;
      }
    }
  }
}
