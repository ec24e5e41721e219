/** The savings merge: pop the pair with the largest saving, merge the two
    routes under a fresh id when they fit together and one of the four ways
    of joining them gains enough, push the savings of the new route, and stop
    at the lower bound on the number of routes. */
module HeapMerge {
  import opened Types
  import opened Costs
  import opened Sequences
  import opened SavingsQueue
  import opened TwoOpt

  // ---------------------------------------------------------------------
  // Joining two routes

  /** The four ways of joining stop sequences si and sj: i then j, i then j
      reversed, i reversed then j, both reversed. A reversed route is its
      interior reversed between depot stops. */
  function Candidates(si: seq<int>, sj: seq<int>, dep: int): (cs: seq<seq<int>>)
    requires |si| >= 2 && |sj| >= 2
    ensures |cs| == 4
  {
    [ si[..|si| - 1] + sj[1..],
      si[..|si| - 1] + Reverse(Interior(sj)) + [dep],
      [dep] + Reverse(Interior(si)) + sj[1..],
      [dep] + Reverse(Interior(si)) + Reverse(Interior(sj)) + [dep] ]
  }

  predicate DepotEnded(s: seq<int>, dep: int)
  {
    |s| >= 1 && s[0] == dep && s[|s| - 1] == dep
  }

  /** The shape every candidate has: a first stop, the interiors of both
      routes (each possibly reversed), a last stop. */
  lemma CandidateShape(si: seq<int>, sj: seq<int>, dep: int, k: int)
    requires |si| >= 2 && |sj| >= 2 && 0 <= k < 4
    ensures Candidates(si, sj, dep)[k] ==
      [if k <= 1 then si[0] else dep]
      + (if k <= 1 then Interior(si) else Reverse(Interior(si)))
      + (if k % 2 == 0 then Interior(sj) else Reverse(Interior(sj)))
      + [if k % 2 == 0 then sj[|sj| - 1] else dep]
  {
    assert si[..|si| - 1] == [si[0]] + Interior(si);
    assert sj[1..] == Interior(sj) + [sj[|sj| - 1]];
  }

  /** Every candidate is a valid stop sequence that visits in between its
      ends exactly the interior stops of both routes, and starts and ends at
      the depot whenever both routes do. */
  lemma CandidateFacts(d: Matrix, si: seq<int>, sj: seq<int>, dep: int, k: int)
    requires Square(d) && 0 <= dep < |d| && |si| >= 2 && |sj| >= 2
    requires ValidStops(d, si) && ValidStops(d, sj) && 0 <= k < 4
    ensures |Candidates(si, sj, dep)[k]| >= 2
    ensures ValidStops(d, Candidates(si, sj, dep)[k])
    ensures multiset(Interior(Candidates(si, sj, dep)[k])) == multiset(Interior(si)) + multiset(Interior(sj))
    ensures DepotEnded(si, dep) && DepotEnded(sj, dep) ==> DepotEnded(Candidates(si, sj, dep)[k], dep)
  {
    var ii, ij := Interior(si), Interior(sj);
    var first := if k <= 1 then si[0] else dep;
    var x := if k <= 1 then ii else Reverse(ii);
    var y := if k % 2 == 0 then ij else Reverse(ij);
    var last := if k % 2 == 0 then sj[|sj| - 1] else dep;
    CandidateShape(si, sj, dep, k);
    assert Candidates(si, sj, dep)[k] == [first] + x + y + [last];
    ReverseMultiset(ii);
    ReverseMultiset(ij);
    ValidInterior(d, si, k > 1);
    ValidInterior(d, sj, k % 2 == 1);
    Framed(d, first, x, y, last);
  }

  /** The interior of valid stops, reversed or not, is valid and has the
      same stops. */
  lemma ValidInterior(d: Matrix, s: seq<int>, rev: bool)
    requires |s| >= 2 && ValidStops(d, s)
    ensures ValidStops(d, if rev then Reverse(Interior(s)) else Interior(s))
  {
    var ii := Interior(s);
    assert ValidStops(d, ii);
    forall t | 0 <= t < |ii| ensures 0 <= Reverse(ii)[t] < |d| { ReverseAt(ii, t); }
  }

  lemma Framed(d: Matrix, first: int, x: seq<int>, y: seq<int>, last: int)
    requires 0 <= first < |d| && 0 <= last < |d| && ValidStops(d, x) && ValidStops(d, y)
    ensures var c := [first] + x + y + [last];
      && |c| >= 2 && ValidStops(d, c) && c[0] == first && c[|c| - 1] == last
      && multiset(Interior(c)) == multiset(x) + multiset(y)
  {
    var c := [first] + x + y + [last];
    assert Interior(c) == x + y;
  }

  /** Every candidate is a valid stop sequence with a first and a last stop. */
  predicate AllValid(d: Matrix, cs: seq<seq<int>>)
  {
    forall k :: 0 <= k < |cs| ==> |cs[k]| >= 2 && ValidStops(d, cs[k])
  }

  lemma CandidatesValid(d: Matrix, si: seq<int>, sj: seq<int>, dep: int)
    requires Square(d) && 0 <= dep < |d| && |si| >= 2 && |sj| >= 2
    requires ValidStops(d, si) && ValidStops(d, sj)
    ensures AllValid(d, Candidates(si, sj, dep))
  {
    forall k | 0 <= k < 4
      ensures |Candidates(si, sj, dep)[k]| >= 2 && ValidStops(d, Candidates(si, sj, dep)[k])
    {
      CandidateFacts(d, si, sj, dep, k);
    }
  }

  /** Old transport minus new transport; the service cost of the two routes
      is the same before and after and cancels out. */
  function JoinGain(d: Matrix, si: seq<int>, sj: seq<int>, c: seq<int>): int
    requires Square(d) && ValidStops(d, si) && ValidStops(d, sj) && ValidStops(d, c)
  {
    TransportCost(d, si) + TransportCost(d, sj) - TransportCost(d, c)
  }

  /** Serving j right after i through the first candidate gains exactly the
      saving of the pair (i, j). */
  lemma FirstCandidateGain(d: Matrix, si: seq<int>, sj: seq<int>, dep: int)
    requires Square(d) && 0 <= dep < |d| && |si| >= 2 && |sj| >= 2
    requires ValidStops(d, si) && ValidStops(d, sj)
    requires si[|si| - 1] == dep && sj[0] == dep
    ensures ValidStops(d, Candidates(si, sj, dep)[0])
    ensures JoinGain(d, si, sj, Candidates(si, sj, dep)[0]) == Saving(d, dep, si[|si| - 2], sj[1])
  {
    SavingIsJoinGain(d, dep, si, sj);
  }

  /** Some depot-ended candidate gains at least minGain. */
  ghost predicate Improves(d: Matrix, dep: int, a: Route, b: Route, minGain: int)
    requires Square(d) && 0 <= dep < |d| && Measurable(d, a) && Measurable(d, b)
  {
    CandidatesValid(d, a.stops, b.stops, dep);
    ImprovesFrom(d, dep, a.stops, b.stops, Candidates(a.stops, b.stops, dep), minGain, 0)
  }

  /** Some depot-ended candidate among cs[k..] gains at least minGain. */
  ghost predicate ImprovesFrom(d: Matrix, dep: int, si: seq<int>, sj: seq<int>, cs: seq<seq<int>>, minGain: int, k: nat)
    requires Square(d) && ValidStops(d, si) && ValidStops(d, sj) && AllValid(d, cs)
    decreases |cs| - k
  {
    k < |cs| && ((DepotEnded(cs[k], dep) && JoinGain(d, si, sj, cs[k]) >= minGain) || ImprovesFrom(d, dep, si, sj, cs, minGain, k + 1))
  }

  lemma {:induction false} ImprovesFromExists(d: Matrix, dep: int, si: seq<int>, sj: seq<int>, cs: seq<seq<int>>, minGain: int, k: nat)
    requires Square(d) && ValidStops(d, si) && ValidStops(d, sj) && AllValid(d, cs)
    ensures ImprovesFrom(d, dep, si, sj, cs, minGain, k) <==>
      exists t :: k <= t < |cs| && DepotEnded(cs[t], dep) && JoinGain(d, si, sj, cs[t]) >= minGain
    decreases |cs| - k
  {
    if k < |cs| {
      ImprovesFromExists(d, dep, si, sj, cs, minGain, k + 1);
    }
  }

  /** The pair (a, b) passes every test of the merge: capacity, disjoint
      services, client count and gain. */
  ghost predicate Mergeable(d: Matrix, dep: int, cap: int, maxClients: int, minGain: int, a: Route, b: Route)
    requires Square(d) && 0 <= dep < |d| && Measurable(d, a) && Measurable(d, b)
  {
    && a.demand + b.demand <= cap
    && a.services !! b.services
    && |a.clients| + |b.clients| <= maxClients
    && Improves(d, dep, a, b, minGain)
  }

  /** The candidate of cs that starts and ends at the depot and gains most
      over the stop sequences si and sj, the first one among equals, with its
      gain; None when no candidate starts and ends at the depot. svc is the
      service cost of both routes, counted on both sides. */
  method BestCandidate(d: Matrix, dep: int, si: seq<int>, sj: seq<int>, svc: int, cs: seq<seq<int>>)
    returns (best: Option<seq<int>>, bestGain: int, ghost idx: int)
    requires Square(d) && ValidStops(d, si) && ValidStops(d, sj) && AllValid(d, cs)
    ensures best.None? <==> forall k :: 0 <= k < |cs| ==> !DepotEnded(cs[k], dep)
    ensures best.Some? ==> 0 <= idx < |cs| && best.value == cs[idx] && DepotEnded(cs[idx], dep)
    ensures best.Some? ==> bestGain == JoinGain(d, si, sj, cs[idx])
    ensures best.Some? ==> forall k :: 0 <= k < |cs| && DepotEnded(cs[k], dep) ==> JoinGain(d, si, sj, cs[k]) <= bestGain
    ensures best.Some? ==> forall k :: 0 <= k < idx && DepotEnded(cs[k], dep) ==> JoinGain(d, si, sj, cs[k]) < bestGain
  {
    best, bestGain, idx := None, 0, -1;
    var k := 0;
    while k < |cs|
      invariant 0 <= k <= |cs|
      invariant best.None? <==> forall t :: 0 <= t < k ==> !DepotEnded(cs[t], dep)
      invariant best.Some? ==> 0 <= idx < k && best.value == cs[idx] && DepotEnded(cs[idx], dep)
      invariant best.Some? ==> bestGain == JoinGain(d, si, sj, cs[idx])
      invariant best.Some? ==> forall t :: 0 <= t < k && DepotEnded(cs[t], dep) ==> JoinGain(d, si, sj, cs[t]) <= bestGain
      invariant best.Some? ==> forall t :: 0 <= t < idx && DepotEnded(cs[t], dep) ==> JoinGain(d, si, sj, cs[t]) < bestGain
    {
      var s := cs[k];
      if s[0] == dep && s[|s| - 1] == dep {
        var newCost := TransportCost(d, s) + svc;
        var oldCost := TransportCost(d, si) + TransportCost(d, sj) + svc;
        var gain := oldCost - newCost;
        if best.None? || gain > bestGain {
          best, bestGain, idx := Some(s), gain, k;
        }
      }
      k := k + 1;
    }
  }

  /** What the merge reads off BestCandidate: some candidate gains at least
      minGain exactly when there is a best one and its gain reaches minGain. */
  lemma BestDecides(d: Matrix, dep: int, ri: Route, rj: Route, minGain: int,
                    best: Option<seq<int>>, bestGain: int, idx: int)
    requires Square(d) && 0 <= dep < |d| && Measurable(d, ri) && Measurable(d, rj)
    requires AllValid(d, Candidates(ri.stops, rj.stops, dep))
    requires best.None? <==> forall k :: 0 <= k < 4 ==> !DepotEnded(Candidates(ri.stops, rj.stops, dep)[k], dep)
    requires best.Some? ==> 0 <= idx < 4 && DepotEnded(Candidates(ri.stops, rj.stops, dep)[idx], dep)
    requires best.Some? ==> bestGain == JoinGain(d, ri.stops, rj.stops, Candidates(ri.stops, rj.stops, dep)[idx])
    requires best.Some? ==> forall k :: 0 <= k < 4 && DepotEnded(Candidates(ri.stops, rj.stops, dep)[k], dep) ==>
      JoinGain(d, ri.stops, rj.stops, Candidates(ri.stops, rj.stops, dep)[k]) <= bestGain
    ensures Improves(d, dep, ri, rj, minGain) <==> best.Some? && bestGain >= minGain
  {
    ImprovesFromExists(d, dep, ri.stops, rj.stops, Candidates(ri.stops, rj.stops, dep), minGain, 0);
  }

  /** Candidate k is the one the merge joins along: it starts and ends at the
      depot, no depot-ended candidate gains more, and every earlier
      depot-ended candidate gains strictly less. */
  ghost predicate BestJoin(d: Matrix, dep: int, a: Route, b: Route, k: int)
    requires Square(d) && 0 <= dep < |d| && Measurable(d, a) && Measurable(d, b)
  {
    CandidatesValid(d, a.stops, b.stops, dep);
    var cs := Candidates(a.stops, b.stops, dep);
    && 0 <= k < 4
    && DepotEnded(cs[k], dep)
    && (forall t :: 0 <= t < 4 && DepotEnded(cs[t], dep) ==>
          JoinGain(d, a.stops, b.stops, cs[t]) <= JoinGain(d, a.stops, b.stops, cs[k]))
    && (forall t :: 0 <= t < k && DepotEnded(cs[t], dep) ==>
          JoinGain(d, a.stops, b.stops, cs[t]) < JoinGain(d, a.stops, b.stops, cs[k]))
  }

  /** The candidate the merge joins along is determined by the two routes. */
  lemma BestJoinUnique(d: Matrix, dep: int, a: Route, b: Route, k1: int, k2: int)
    requires Square(d) && 0 <= dep < |d| && Measurable(d, a) && Measurable(d, b)
    requires BestJoin(d, dep, a, b, k1) && BestJoin(d, dep, a, b, k2)
    ensures k1 == k2
  {
  }

  // ---------------------------------------------------------------------
  // The merged route

  /** The route serving ri's clients and then rj's along the given stops. */
  function Merged(ri: Route, rj: Route, stops: seq<int>): Route
  {
    Route(ri.clients + rj.clients, ri.demand + rj.demand, ri.services + rj.services, stops)
  }

  /** A tally after `merges` merges that together gained `gained`. */
  function Reduced(t: Tally, merges: int, gained: int): Tally
  {
    t.(count := t.count - merges, cost := t.cost - gained)
  }

  /** The merged route holds what the two routes held, as one route, and
      costs their costs less the gain of its stop sequence. */
  lemma MergedTally(d: Matrix, ri: Route, rj: Route, c: seq<int>)
    requires Square(d) && ValidStops(d, ri.stops) && ValidStops(d, rj.stops) && ValidStops(d, c)
    ensures RouteTally(d, Merged(ri, rj, c)) == Reduced(Add(RouteTally(d, ri), RouteTally(d, rj)), 1, JoinGain(d, ri.stops, rj.stops, c))
  {
    ServiceCostConcat(ri.clients, rj.clients);
  }

  /** Merging two well-formed routes along any candidate gives a well-formed
      route. */
  lemma MergedWellFormed(d: Matrix, dep: int, ri: Route, rj: Route, k: int)
    requires Square(d) && 0 <= dep < |d| && Measurable(d, ri) && Measurable(d, rj) && 0 <= k < 4
    requires WellFormed(ri, dep) && WellFormed(rj, dep)
    ensures WellFormed(Merged(ri, rj, Candidates(ri.stops, rj.stops, dep)[k]), dep)
  {
    assert DepotEnded(ri.stops, dep) && DepotEnded(rj.stops, dep);
    CandidateFacts(d, ri.stops, rj.stops, dep, k);
    MergedAlongWellFormed(dep, ri, rj, Candidates(ri.stops, rj.stops, dep)[k]);
  }

  /** Merging two well-formed routes along a depot-to-depot sequence that
      visits exactly both interiors gives a well-formed route. */
  lemma MergedAlongWellFormed(dep: int, ri: Route, rj: Route, c: seq<int>)
    requires WellFormed(ri, dep) && WellFormed(rj, dep)
    requires DepotEnded(c, dep) && |c| >= 2
    requires multiset(Interior(c)) == multiset(Interior(ri.stops)) + multiset(Interior(rj.stops))
    ensures WellFormed(Merged(ri, rj, c), dep)
  {
    ClientsConcat(ri.clients, rj.clients);
  }

  lemma MergeAlgebra(rest: Tally, a: Tally, b: Tally, g: int)
    ensures Add(rest, Reduced(Add(a, b), 1, g)) == Reduced(Add(Add(rest, b), a), 1, g)
  {
    assert rest.clients + (a.clients + b.clients) == (rest.clients + b.clients) + a.clients;
    assert rest.services + (a.services + b.services) == (rest.services + b.services) + a.services;
  }

  // ---------------------------------------------------------------------
  // The savings list

  /** The entries of the initial savings list: every pair i < j of routes
      that fit together, with the saving of serving j after i, negated. */
  ghost predicate InitialEntry(d: Matrix, dep: int, cap: int, routes: seq<Route>, e: Entry)
    requires Square(d) && 0 <= dep < |d| && AllMeasurable(d, routes)
  {
    && 0 <= e.i < e.j < |routes|
    && routes[e.i].demand + routes[e.j].demand <= cap
    && e.negSaving == -RouteSaving(d, dep, routes[e.i], routes[e.j])
  }

  /** Builds the savings list of the initial routes. */
  method InitialSavings(routes: seq<Route>, d: Matrix, dep: int, cap: int) returns (q: seq<Entry>)
    requires Square(d) && 0 <= dep < |d| && AllMeasurable(d, routes)
    ensures Sorted(q)
    ensures forall e :: e in q <==> InitialEntry(d, dep, cap, routes, e)
    ensures forall e :: multiset(q)[e] == if InitialEntry(d, dep, cap, routes, e) then 1 else 0
  {
    q := [];
    var n := |routes|;
    var i := 0;
    while i < n
      invariant 0 <= i <= n
      invariant Sorted(q) && CountedBelow(d, dep, cap, routes, q, i, 0)
    {
      var j := i + 1;
      RowOpens(d, dep, cap, routes, q, i);
      while j < n
        invariant i + 1 <= j <= n
        invariant Sorted(q) && CountedBelow(d, dep, cap, routes, q, i, j)
      {
        if routes[i].demand + routes[j].demand <= cap {
          var endI := routes[i].stops[|routes[i].stops| - 2];
          var startJ := routes[j].stops[1];
          var saving := d[endI][dep] + d[dep][startJ] - d[endI][startJ];
          assert saving == RouteSaving(d, dep, routes[i], routes[j]);
          InsertSorted(q, Entry(-saving, i, j));
          CountTake(d, dep, cap, routes, q, i, j, saving);
          q := Insert(q, Entry(-saving, i, j));
        } else {
          CountSkip(d, dep, cap, routes, q, i, j);
        }
        j := j + 1;
      }
      RowCloses(d, dep, cap, routes, q, i, j);
      i := i + 1;
    }
    forall e ensures e in q <==> InitialEntry(d, dep, cap, routes, e) {
      assert e in q <==> e in multiset(q);
    }
  }

  /** q holds once each initial entry of a pair before (i, j) in scan order,
      and nothing else. */
  ghost predicate CountedBelow(d: Matrix, dep: int, cap: int, routes: seq<Route>, q: seq<Entry>, i: int, j: int)
    requires Square(d) && 0 <= dep < |d| && AllMeasurable(d, routes)
  {
    forall e :: multiset(q)[e] == if InitialEntry(d, dep, cap, routes, e) && (e.i < i || (e.i == i && e.j < j)) then 1 else 0
  }

  lemma RowOpens(d: Matrix, dep: int, cap: int, routes: seq<Route>, q: seq<Entry>, i: int)
    requires Square(d) && 0 <= dep < |d| && AllMeasurable(d, routes)
    requires CountedBelow(d, dep, cap, routes, q, i, 0)
    ensures CountedBelow(d, dep, cap, routes, q, i, i + 1)
  {
  }

  lemma RowCloses(d: Matrix, dep: int, cap: int, routes: seq<Route>, q: seq<Entry>, i: int, j: int)
    requires Square(d) && 0 <= dep < |d| && AllMeasurable(d, routes) && j >= |routes|
    requires CountedBelow(d, dep, cap, routes, q, i, j)
    ensures CountedBelow(d, dep, cap, routes, q, i + 1, 0)
  {
  }

  /** A pair (i, j) whose demand fits adds its entry. */
  lemma CountTake(d: Matrix, dep: int, cap: int, routes: seq<Route>, q: seq<Entry>, i: int, j: int, saving: int)
    requires Square(d) && 0 <= dep < |d| && AllMeasurable(d, routes) && 0 <= i < j < |routes|
    requires CountedBelow(d, dep, cap, routes, q, i, j)
    requires routes[i].demand + routes[j].demand <= cap && saving == RouteSaving(d, dep, routes[i], routes[j])
    ensures CountedBelow(d, dep, cap, routes, Insert(q, Entry(-saving, i, j)), i, j + 1)
  {
    var e0 := Entry(-saving, i, j);
    var q' := Insert(q, e0);
    forall e
      ensures multiset(q')[e] == if InitialEntry(d, dep, cap, routes, e) && (e.i < i || (e.i == i && e.j < j + 1)) then 1 else 0
    {
      if e == e0 {
        assert multiset(q)[e] == 0;
      }
    }
  }

  /** A pair (i, j) whose demand does not fit adds nothing. */
  lemma CountSkip(d: Matrix, dep: int, cap: int, routes: seq<Route>, q: seq<Entry>, i: int, j: int)
    requires Square(d) && 0 <= dep < |d| && AllMeasurable(d, routes) && 0 <= i < j < |routes|
    requires CountedBelow(d, dep, cap, routes, q, i, j)
    requires routes[i].demand + routes[j].demand > cap
    ensures CountedBelow(d, dep, cap, routes, q, i, j + 1)
  {
  }

  /** The entries pushed for the new route n: (n, k) and (k, n) for every
      other active route k, each with its own saving, negated. */
  ghost predicate PushedEntry(d: Matrix, dep: int, m: map<int, Route>, active: set<int>, n: int, e: Entry)
    requires Square(d) && 0 <= dep < |d| && n in m && Measurable(d, m[n])
    requires forall k :: k in active && 0 <= k < n ==> k in m && Measurable(d, m[k])
  {
    || (e.i == n && e.j in active && 0 <= e.j < n && e.negSaving == -RouteSaving(d, dep, m[n], m[e.j]))
    || (e.j == n && e.i in active && 0 <= e.i < n && e.negSaving == -RouteSaving(d, dep, m[e.i], m[n]))
  }

  /** The pushed entries whose other route has an id below k. */
  ghost predicate PushedBelow(d: Matrix, dep: int, m: map<int, Route>, active: set<int>, n: int, k: int, e: Entry)
    requires Square(d) && 0 <= dep < |d| && n in m && Measurable(d, m[n])
    requires forall k :: k in active && 0 <= k < n ==> k in m && Measurable(d, m[k])
  {
    PushedEntry(d, dep, m, active, n, e) && (if e.i == n then e.j else e.i) < k
  }

  /** Pushes the savings between the new route n and every other active
      route, whose ids are all below n. */
  method PushSavings(q0: seq<Entry>, d: Matrix, dep: int, m: map<int, Route>, active: set<int>, n: int)
    returns (q: seq<Entry>)
    requires Square(d) && 0 <= dep < |d| && n in m && Measurable(d, m[n])
    requires forall k :: k in active && 0 <= k < n ==> k in m && Measurable(d, m[k])
    requires Sorted(q0)
    ensures Sorted(q)
    ensures forall e :: e in q <==> e in q0 || PushedEntry(d, dep, m, active, n, e)
    ensures forall e :: multiset(q)[e] == multiset(q0)[e] + if PushedEntry(d, dep, m, active, n, e) then 1 else 0
  {
    q := q0;
    var k := 0;
    while k < n
      invariant Sorted(q)
      invariant forall e :: multiset(q)[e] == multiset(q0)[e] + if PushedBelow(d, dep, m, active, n, k, e) then 1 else 0
    {
      if k in active {
        var added, other := m[n], m[k];
        var endNew := added.stops[|added.stops| - 2];
        var startK := other.stops[1];
        var saving1 := d[endNew][dep] + d[dep][startK] - d[endNew][startK];
        var endK := other.stops[|other.stops| - 2];
        var startNew := added.stops[1];
        var saving2 := d[endK][dep] + d[dep][startNew] - d[endK][startNew];
        var q1 := Insert(q, Entry(-saving1, n, k));
        var q2 := Insert(q1, Entry(-saving2, k, n));
        InsertSorted(q, Entry(-saving1, n, k));
        InsertSorted(q1, Entry(-saving2, k, n));
        PushStep(q0, q, q1, q2, d, dep, m, active, n, k, saving1, saving2);
        q := q2;
      } else {
        PushSkip(q0, q, d, dep, m, active, n, k);
      }
      k := k + 1;
    }
    PushDone(q0, q, d, dep, m, active, n, k);
  }

  /** An inactive id k pushes nothing. */
  lemma PushSkip(q0: seq<Entry>, q: seq<Entry>, d: Matrix, dep: int, m: map<int, Route>, active: set<int>, n: int, k: int)
    requires Square(d) && 0 <= dep < |d| && n in m && Measurable(d, m[n])
    requires forall k :: k in active && 0 <= k < n ==> k in m && Measurable(d, m[k])
    requires k !in active
    requires forall e :: multiset(q)[e] == multiset(q0)[e] + if PushedBelow(d, dep, m, active, n, k, e) then 1 else 0
    ensures forall e :: multiset(q)[e] == multiset(q0)[e] + if PushedBelow(d, dep, m, active, n, k + 1, e) then 1 else 0
  {
    forall e ensures PushedBelow(d, dep, m, active, n, k + 1, e) <==> PushedBelow(d, dep, m, active, n, k, e) {
    }
  }

  /** Once every id below n is walked, the pushed entries are all there. */
  lemma PushDone(q0: seq<Entry>, q: seq<Entry>, d: Matrix, dep: int, m: map<int, Route>, active: set<int>, n: int, k: int)
    requires Square(d) && 0 <= dep < |d| && n in m && Measurable(d, m[n])
    requires forall k :: k in active && 0 <= k < n ==> k in m && Measurable(d, m[k])
    requires k >= n
    requires forall e :: multiset(q)[e] == multiset(q0)[e] + if PushedBelow(d, dep, m, active, n, k, e) then 1 else 0
    ensures forall e :: e in q <==> e in q0 || PushedEntry(d, dep, m, active, n, e)
    ensures forall e :: multiset(q)[e] == multiset(q0)[e] + if PushedEntry(d, dep, m, active, n, e) then 1 else 0
  {
    assert forall e :: PushedBelow(d, dep, m, active, n, k, e) <==> PushedEntry(d, dep, m, active, n, e);
    forall e ensures e in q <==> e in q0 || PushedEntry(d, dep, m, active, n, e) {
      assert e in q <==> e in multiset(q);
      assert e in q0 <==> e in multiset(q0);
    }
  }

  lemma PushStep(q0: seq<Entry>, q: seq<Entry>, q1: seq<Entry>, q2: seq<Entry>, d: Matrix, dep: int,
                 m: map<int, Route>, active: set<int>, n: int, k: int, saving1: int, saving2: int)
    requires Square(d) && 0 <= dep < |d| && n in m && Measurable(d, m[n])
    requires forall k :: k in active && 0 <= k < n ==> k in m && Measurable(d, m[k])
    requires k in active && 0 <= k < n
    requires saving1 == RouteSaving(d, dep, m[n], m[k]) && saving2 == RouteSaving(d, dep, m[k], m[n])
    requires q1 == Insert(q, Entry(-saving1, n, k)) && q2 == Insert(q1, Entry(-saving2, k, n))
    requires forall e :: multiset(q)[e] == multiset(q0)[e] + if PushedBelow(d, dep, m, active, n, k, e) then 1 else 0
    ensures forall e :: multiset(q2)[e] == multiset(q0)[e] + if PushedBelow(d, dep, m, active, n, k + 1, e) then 1 else 0
  {
    var e1, e2 := Entry(-saving1, n, k), Entry(-saving2, k, n);
    assert multiset(q2) == multiset(q) + multiset{e1} + multiset{e2};
    forall e
      ensures multiset(q2)[e] == multiset(q0)[e] + if PushedBelow(d, dep, m, active, n, k + 1, e) then 1 else 0
    {
      if e == e1 || e == e2 {
        assert e1 != e2;
        assert PushedBelow(d, dep, m, active, n, k + 1, e) && !PushedBelow(d, dep, m, active, n, k, e);
      } else {
        assert PushedBelow(d, dep, m, active, n, k + 1, e) <==> PushedBelow(d, dep, m, active, n, k, e);
      }
    }
  }

  // ---------------------------------------------------------------------
  // The state of the merge loop

  /** Route ids: the map holds every id below nextId (retired routes stay in
      it), so nextId is one more than its largest key; active ids are some of
      them, and every route in the map can be measured. */
  ghost predicate IdsOk(d: Matrix, m: map<int, Route>, active: set<int>, nextId: int)
  {
    && Square(d)
    && (forall k :: k in m <==> 0 <= k < nextId)
    && (forall k :: k in active ==> 0 <= k < nextId)
    && (forall k :: k in m ==> Measurable(d, m[k]))
  }

  /** The queue is in pop order and never pairs a route with itself. */
  ghost predicate QueueOk(q: seq<Entry>)
  {
    Sorted(q) && forall e :: e in q ==> e.i != e.j
  }

  /** The active routes hold the clients, services and demand of the input,
      one route fewer per merge, at the input's cost less the gains made. */
  ghost predicate Conserved(d: Matrix, routes: seq<Route>, m: map<int, Route>, active: set<int>, nextId: int,
                            merges: int, gained: int)
    requires IdsOk(d, m, active, nextId) && AllMeasurable(d, routes)
  {
    TallyBelow(d, m, active, nextId) == Reduced(SeqTally(d, routes), merges, gained)
  }

  /** What the active routes keep of the input's properties: if every input
      route fits, every active route fits; if every input route is well
      formed, so is every active one; if no two input routes share a service,
      no two active routes do. */
  ghost predicate Kept(routes: seq<Route>, dep: int, cap: int, m: map<int, Route>, active: set<int>)
    requires forall k :: k in active ==> k in m
  {
    && ((forall r :: r in routes ==> r.demand <= cap) ==> forall k :: k in active ==> m[k].demand <= cap)
    && ((forall r :: r in routes ==> WellFormed(r, dep)) ==> forall k :: k in active ==> WellFormed(m[k], dep))
    && (PairwiseDisjoint(routes) ==> forall x, y :: x in active && y in active && x != y ==> m[x].services !! m[y].services)
  }

  /** If no input route has more than maxClients clients, no active route
      has. */
  ghost predicate CountKept(routes: seq<Route>, maxClients: int, m: map<int, Route>, active: set<int>)
    requires forall k :: k in active ==> k in m
  {
    (forall r :: r in routes ==> |r.clients| <= maxClients) ==> forall k :: k in active ==> |m[k].clients| <= maxClients
  }

  /** Every pair x < y of active routes that could be merged still has its
      entry in the queue. */
  ghost predicate Pending(d: Matrix, dep: int, cap: int, maxClients: int, minGain: int,
                          m: map<int, Route>, active: set<int>, q: seq<Entry>)
    requires Square(d) && 0 <= dep < |d| && forall k :: k in active ==> k in m && Measurable(d, m[k])
  {
    forall x, y :: x in active && y in active && x < y && Mergeable(d, dep, cap, maxClients, minGain, m[x], m[y]) ==>
      Entry(-RouteSaving(d, dep, m[x], m[y]), x, y) in q
  }

  /** The state before the first pop: every input route active under its
      index, the initial savings list in the queue. */
  lemma InitState(d: Matrix, dep: int, cap: int, maxClients: int, minGain: int,
                  routes: seq<Route>, q: seq<Entry>, m: map<int, Route>)
    requires Square(d) && 0 <= dep < |d| && AllMeasurable(d, routes)
    requires Sorted(q) && forall e :: e in q <==> InitialEntry(d, dep, cap, routes, e)
    requires forall k :: k in m <==> 0 <= k < |routes|
    requires forall k :: 0 <= k < |routes| ==> m[k] == routes[k]
    ensures IdsOk(d, m, Range(|routes|), |routes|)
    ensures QueueOk(q)
    ensures Conserved(d, routes, m, Range(|routes|), |routes|, 0, 0)
    ensures Kept(routes, dep, cap, m, Range(|routes|))
    ensures CountKept(routes, maxClients, m, Range(|routes|))
    ensures Pending(d, dep, cap, maxClients, minGain, m, Range(|routes|), q)
  {
    TallyOfPrefix(d, routes, m, |routes|);
    assert routes[..|routes|] == routes;
    InitKept(d, dep, cap, routes, m);
    InitCountKept(routes, maxClients, m);
    InitPending(d, dep, cap, maxClients, minGain, routes, q, m);
  }

  lemma InitPending(d: Matrix, dep: int, cap: int, maxClients: int, minGain: int,
                    routes: seq<Route>, q: seq<Entry>, m: map<int, Route>)
    requires Square(d) && 0 <= dep < |d| && AllMeasurable(d, routes)
    requires forall e :: InitialEntry(d, dep, cap, routes, e) ==> e in q
    requires forall k :: k in m <==> 0 <= k < |routes|
    requires forall k :: 0 <= k < |routes| ==> m[k] == routes[k]
    ensures IdsOk(d, m, Range(|routes|), |routes|)
    ensures Pending(d, dep, cap, maxClients, minGain, m, Range(|routes|), q)
  {
    var active := Range(|routes|);
    forall x, y | x in active && y in active && x < y && Mergeable(d, dep, cap, maxClients, minGain, m[x], m[y])
      ensures Entry(-RouteSaving(d, dep, m[x], m[y]), x, y) in q
    {
      assert InitialEntry(d, dep, cap, routes, Entry(-RouteSaving(d, dep, m[x], m[y]), x, y));
    }
  }

  lemma InitKept(d: Matrix, dep: int, cap: int, routes: seq<Route>, m: map<int, Route>)
    requires forall k :: k in m <==> 0 <= k < |routes|
    requires forall k :: 0 <= k < |routes| ==> m[k] == routes[k]
    ensures Kept(routes, dep, cap, m, Range(|routes|))
  {
    var active := Range(|routes|);
    if PairwiseDisjoint(routes) {
      forall x, y | x in active && y in active && x != y
        ensures m[x].services !! m[y].services
      {
        if y < x {
          assert routes[y].services !! routes[x].services;
        }
      }
    }
    if forall r :: r in routes ==> r.demand <= cap {
      forall k | k in active ensures m[k].demand <= cap {
        assert routes[k] in routes;
      }
    }
    if forall r :: r in routes ==> WellFormed(r, dep) {
      forall k | k in active ensures WellFormed(m[k], dep) {
        assert routes[k] in routes;
      }
    }
  }

  lemma InitCountKept(routes: seq<Route>, maxClients: int, m: map<int, Route>)
    requires forall k :: k in m <==> 0 <= k < |routes|
    requires forall k :: 0 <= k < |routes| ==> m[k] == routes[k]
    ensures CountKept(routes, maxClients, m, Range(|routes|))
  {
    if forall r :: r in routes ==> |r.clients| <= maxClients {
      forall k | k in Range(|routes|) ensures |m[k].clients| <= maxClients {
        assert routes[k] in routes;
      }
    }
  }

  /** A merge of two routes with at most maxClients clients together keeps
      every active route within maxClients. */
  lemma MergeCountKept(routes: seq<Route>, maxClients: int, m: map<int, Route>, active: set<int>,
                       nextId: int, i: int, j: int, r: Route)
    requires (forall k :: k in active ==> k in m) && CountKept(routes, maxClients, m, active)
    requires i in active && j in active && r.clients == m[i].clients + m[j].clients
    requires |m[i].clients| + |m[j].clients| <= maxClients
    ensures CountKept(routes, maxClients, m[nextId := r], active - {i} - {j} + {nextId})
  {
  }

  /** Dropping the popped entry keeps the queue's promises when that entry
      names a retired route or a pair that cannot be merged. */
  lemma SkipKeeps(d: Matrix, dep: int, cap: int, maxClients: int, minGain: int,
                  m: map<int, Route>, active: set<int>, nextId: int, q0: seq<Entry>)
    requires IdsOk(d, m, active, nextId) && 0 <= dep < |d|
    requires QueueOk(q0) && q0 != [] && Pending(d, dep, cap, maxClients, minGain, m, active, q0)
    requires q0[0].i in active && q0[0].j in active ==>
      !Mergeable(d, dep, cap, maxClients, minGain, m[q0[0].i], m[q0[0].j])
    ensures QueueOk(q0[1..]) && Pending(d, dep, cap, maxClients, minGain, m, active, q0[1..])
  {
    assert q0 == [q0[0]] + q0[1..];
    forall x, y | x in active && y in active && x < y && Mergeable(d, dep, cap, maxClients, minGain, m[x], m[y])
      ensures Entry(-RouteSaving(d, dep, m[x], m[y]), x, y) in q0[1..]
    {
      var e := Entry(-RouteSaving(d, dep, m[x], m[y]), x, y);
      assert e in q0;
      assert e != q0[0];
    }
  }

  /** The merge keeps the ids in order: the new route takes nextId. */
  lemma MergeIds(d: Matrix, m: map<int, Route>, active: set<int>, nextId: int, i: int, j: int, r: Route)
    requires IdsOk(d, m, active, nextId) && Measurable(d, r) && i in active
    ensures IdsOk(d, m[nextId := r], active - {i} - {j} + {nextId}, nextId + 1)
  {
  }

  lemma CardMerge(active: set<int>, i: int, j: int, n: int)
    requires i in active && j in active && i != j && n !in active
    ensures |active - {i} - {j} + {n}| == |active| - 1
  {
    var a1 := active - {i};
    assert active == a1 + {i};
    var a2 := a1 - {j};
    assert a1 == a2 + {j};
  }

  /** The merge takes the two routes out of the tally and puts the merged
      one in: one route fewer, the gain taken off the cost. */
  lemma MergeTally(d: Matrix, m: map<int, Route>, active: set<int>, n: int, i: int, j: int, c: seq<int>)
    requires Square(d) && forall k :: k in active && k < n ==> k in m && ValidStops(d, m[k].stops)
    requires i in active && j in active && i != j && 0 <= i < n && 0 <= j < n && ValidStops(d, c)
    ensures var r := Merged(m[i], m[j], c);
      TallyBelow(d, m[n := r], active - {i} - {j} + {n}, n + 1)
      == Reduced(TallyBelow(d, m, active, n), 1, JoinGain(d, m[i].stops, m[j].stops, c))
  {
    var r := Merged(m[i], m[j], c);
    var m', active' := m[n := r], active - {i} - {j} + {n};
    var rest := active - {i} - {j};
    var g := JoinGain(d, m[i].stops, m[j].stops, c);
    var R := TallyBelow(d, m, rest, n);
    var ti, tj := RouteTally(d, m[i]), RouteTally(d, m[j]);
    assert TallyBelow(d, m, active, n) == Add(Add(R, tj), ti) by {
      TallyRemove(d, m, active, n, i);
      TallyRemove(d, m, active - {i}, n, j);
    }
    assert TallyBelow(d, m', active', n + 1) == Add(R, RouteTally(d, r)) by {
      TallyAgree(d, m, rest, m', active', n);
    }
    assert RouteTally(d, r) == Reduced(Add(ti, tj), 1, g) by {
      MergedTally(d, m[i], m[j], c);
    }
    MergeAlgebra(R, ti, tj, g);
  }

  /** The merged route keeps what the active routes promise. */
  lemma MergeKept(d: Matrix, dep: int, routes: seq<Route>, cap: int, m: map<int, Route>, active: set<int>,
                  nextId: int, i: int, j: int, idx: int)
    requires IdsOk(d, m, active, nextId) && 0 <= dep < |d| && Kept(routes, dep, cap, m, active)
    requires i in active && j in active && i != j && 0 <= idx < 4
    requires m[i].demand + m[j].demand <= cap && m[i].services !! m[j].services
    ensures var r := Merged(m[i], m[j], Candidates(m[i].stops, m[j].stops, dep)[idx]);
      Kept(routes, dep, cap, m[nextId := r], active - {i} - {j} + {nextId})
  {
    var r := Merged(m[i], m[j], Candidates(m[i].stops, m[j].stops, dep)[idx]);
    var m', active' := m[nextId := r], active - {i} - {j} + {nextId};
    if forall r :: r in routes ==> WellFormed(r, dep) {
      MergedWellFormed(d, dep, m[i], m[j], idx);
    }
    if PairwiseDisjoint(routes) {
      forall x, y | x in active' && y in active' && x != y
        ensures m'[x].services !! m'[y].services
      {
        if x == nextId {
          assert m[y].services !! m[i].services && m[y].services !! m[j].services;
        } else if y == nextId {
          assert m[x].services !! m[i].services && m[x].services !! m[j].services;
        }
      }
    }
  }

  /** After the pushes every pair that could be merged has its entry: old
      pairs keep theirs, pairs with the new route n got a fresh one. */
  lemma MergePending(d: Matrix, dep: int, cap: int, maxClients: int, minGain: int,
                     m: map<int, Route>, active: set<int>, n: int, i: int, j: int,
                     q0: seq<Entry>, r: Route, q: seq<Entry>)
    requires Square(d) && 0 <= dep < |d| && Measurable(d, r)
    requires forall k :: k in active ==> k in m && Measurable(d, m[k]) && k < n
    requires q0 != [] && q0[0].i == i && q0[0].j == j && Pending(d, dep, cap, maxClients, minGain, m, active, q0)
    requires forall e :: e in q0[1..] ==> e in q
    requires forall x :: x in active && x != i && x != j ==> Entry(-RouteSaving(d, dep, m[x], r), x, n) in q
    ensures Pending(d, dep, cap, maxClients, minGain, m[n := r], active - {i} - {j} + {n}, q)
  {
    var m', active' := m[n := r], active - {i} - {j} + {n};
    PendingRest(d, dep, cap, maxClients, minGain, m, active, i, q0, q);
    forall x, y | x in active' && y in active' && x < y && Mergeable(d, dep, cap, maxClients, minGain, m'[x], m'[y])
      ensures Entry(-RouteSaving(d, dep, m'[x], m'[y]), x, y) in q
    {
      assert x != n && x in active && x != i && x != j && m'[x] == m[x];
      if y == n {
        assert m'[y] == r;
      } else {
        assert y in active && y != i && m'[y] == m[y];
      }
    }
  }

  /** The pairs that do not involve the popped route i keep their entries. */
  lemma PendingRest(d: Matrix, dep: int, cap: int, maxClients: int, minGain: int,
                    m: map<int, Route>, active: set<int>, i: int, q0: seq<Entry>, q: seq<Entry>)
    requires Square(d) && 0 <= dep < |d|
    requires forall k :: k in active ==> k in m && Measurable(d, m[k])
    requires q0 != [] && q0[0].i == i && Pending(d, dep, cap, maxClients, minGain, m, active, q0)
    requires forall e :: e in q0[1..] ==> e in q
    ensures forall x, y :: x in active && y in active && x != i && x < y && Mergeable(d, dep, cap, maxClients, minGain, m[x], m[y]) ==>
      Entry(-RouteSaving(d, dep, m[x], m[y]), x, y) in q
  {
    forall x, y | x in active && y in active && x != i && x < y && Mergeable(d, dep, cap, maxClients, minGain, m[x], m[y])
      ensures Entry(-RouteSaving(d, dep, m[x], m[y]), x, y) in q
    {
      var e := Entry(-RouteSaving(d, dep, m[x], m[y]), x, y);
      assert e in q0 && e != q0[0];
      assert q0 == [q0[0]] + q0[1..];
    }
  }

  /** The pushes keep the queue free of self-pairs. */
  lemma PushQueueOk(d: Matrix, dep: int, m: map<int, Route>, active: set<int>, n: int, q0: seq<Entry>, q: seq<Entry>)
    requires Square(d) && 0 <= dep < |d| && n in m && Measurable(d, m[n])
    requires forall k :: k in active && 0 <= k < n ==> k in m && Measurable(d, m[k])
    requires QueueOk(q0) && Sorted(q)
    requires forall e :: e in q <==> e in q0 || PushedEntry(d, dep, m, active, n, e)
    ensures QueueOk(q)
  {
  }

  // ---------------------------------------------------------------------
  // The merge

  /** Same routes, clients, services and demand; no higher cost. */
  ghost predicate Dominated(a: Tally, b: Tally)
  {
    a.count == b.count && a.clients == b.clients && a.services == b.services && a.demand == b.demand && a.cost <= b.cost
  }

  /** One more route on each side keeps the domination. */
  lemma DominatedAdd(a: Tally, b: Tally, x: Tally, y: Tally)
    requires Dominated(a, b) && Dominated(x, y)
    ensures Dominated(Add(a, x), Add(b, y))
  {
  }

  /** A route before and after 2-opt: same clients, services and demand, no
      higher cost. */
  lemma RewrittenTally(d: Matrix, r: Route, r': Route)
    requires Square(d) && ValidStops(d, r.stops) && Rewritten(d, PolishPasses, r, r')
    ensures Dominated(RouteTally(d, r'), RouteTally(d, r))
  {
  }

  /** pre lists the active routes with ids below k, in ascending id order,
      and ids their ids. */
  ghost predicate Listed(m: map<int, Route>, active: set<int>, k: int, pre: seq<Route>, ids: seq<int>)
    requires forall x :: x in active && x < k ==> x in m
  {
    && |pre| == |ids|
    && (forall a :: 0 <= a < |ids| ==> ids[a] in active && ids[a] < k && pre[a] == m[ids[a]])
    && (forall a, b :: 0 <= a < b < |ids| ==> ids[a] < ids[b])
    && (forall x :: x in active && x < k ==> x in ids)
  }

  /** Listing id k: it goes last if it is active. */
  lemma ListedStep(m: map<int, Route>, active: set<int>, k: int, pre: seq<Route>, ids: seq<int>)
    requires (forall x :: x in active && x < k + 1 ==> x in m) && Listed(m, active, k, pre, ids)
    ensures k in active ==> Listed(m, active, k + 1, pre + [m[k]], ids + [k])
    ensures k !in active ==> Listed(m, active, k + 1, pre, ids)
  {
    SnocMembers(ids, k);
  }

  /** Listing id k adds its route to the tally when it is active. */
  lemma ListedTallyStep(d: Matrix, m: map<int, Route>, active: set<int>, k: int, pre: seq<Route>, pre': seq<Route>)
    requires Square(d) && forall x :: x in active && x < k + 1 ==> x in m && ValidStops(d, m[x].stops)
    requires 0 <= k && (k in active ==> k in m && Measurable(d, m[k]))
    requires AllMeasurable(d, pre) && SeqTally(d, pre) == TallyBelow(d, m, active, k)
    requires pre' == if k in active then pre + [m[k]] else pre
    ensures AllMeasurable(d, pre') && SeqTally(d, pre') == TallyBelow(d, m, active, k + 1)
  {
    if k in active {
      SeqTallySnoc(d, pre, m[k]);
    } else {
      AddZero(TallyBelow(d, m, active, k));
    }
  }

  /** Routes rewritten one by one have the tally of the originals, at a cost
      no higher. */
  lemma {:induction false} RewrittenSeqTally(d: Matrix, pre: seq<Route>, out: seq<Route>)
    requires Square(d) && AllMeasurable(d, pre) && AllMeasurable(d, out) && |pre| == |out|
    requires forall a :: 0 <= a < |pre| ==> Rewritten(d, PolishPasses, pre[a], out[a])
    ensures Dominated(SeqTally(d, out), SeqTally(d, pre))
    decreases |pre|
  {
    var n := |pre|;
    if n > 0 {
      var pre', out' := pre[..n - 1], out[..n - 1];
      SeqTallyLast(d, pre);
      SeqTallyLast(d, out);
      RewrittenSeqTally(d, pre', out');
      RewrittenTally(d, pre[n - 1], out[n - 1]);
      DominatedAdd(SeqTally(d, out'), SeqTally(d, pre'), RouteTally(d, out[n - 1]), RouteTally(d, pre[n - 1]));
    }
  }

  /** The pass limit of the 2-opt run on the merged routes. */
  const PolishPasses := 10

  /** 2-opt with ten passes at most on a route with at most
      MaxStopsFor2Opt stops; longer routes are left as they are. */
  method Polish(d: Matrix, r: Route) returns (r': Route)
    requires Square(d) && Measurable(d, r)
    ensures Measurable(d, r') && Rewritten(d, PolishPasses, r, r')
  {
    r' := r;
    if |r.stops| <= MaxStopsFor2Opt {
      var best, _, _ := TwoOpt.TwoOpt(r.stops, d, PolishPasses);
      r' := r.(stops := best);
    } else {
      SameFrameRefl(r.stops);
    }
  }

  /** The routes still active, in ascending id order, each with 2-opt
      applied (ten passes at most) when it has at most MaxStopsFor2Opt
      stops. `pre` holds the same routes before 2-opt and `ids` their ids. */
  method FinalRoutes(d: Matrix, m: map<int, Route>, active: set<int>, nextId: int)
    returns (out: seq<Route>, ghost pre: seq<Route>, ghost ids: seq<int>)
    requires IdsOk(d, m, active, nextId) && 0 <= nextId
    ensures |out| == |pre| == |ids| && AllMeasurable(d, out) && AllMeasurable(d, pre)
    ensures forall a :: 0 <= a < |ids| ==> ids[a] in active && ids[a] in m && pre[a] == m[ids[a]] && Rewritten(d, PolishPasses, pre[a], out[a])
    ensures forall a, b :: 0 <= a < b < |ids| ==> ids[a] < ids[b]
    ensures forall x :: x in active ==> x in ids
    ensures Dominated(SeqTally(d, out), TallyBelow(d, m, active, nextId))
  {
    out, pre, ids := [], [], [];
    ListStart(d, m, active, nextId);
    var k := 0;
    while k < nextId
      invariant 0 <= k <= nextId && ListState(d, m, active, nextId, k, out, pre, ids)
    {
      out, pre, ids := ListOne(d, m, active, nextId, k, out, pre, ids);
      k := k + 1;
    }
    ListDone(d, m, active, nextId, out, pre, ids);
  }

  /** Where FinalRoutes stands before id k: the active routes below k are
      listed, before and after 2-opt, and pre has their tally. */
  ghost predicate ListState(d: Matrix, m: map<int, Route>, active: set<int>, nextId: int, k: int,
                            out: seq<Route>, pre: seq<Route>, ids: seq<int>)
    requires IdsOk(d, m, active, nextId) && 0 <= k <= nextId
  {
    && Listed(m, active, k, pre, ids)
    && |out| == |pre| && AllMeasurable(d, out) && AllMeasurable(d, pre)
    && (forall a :: 0 <= a < |pre| ==> Rewritten(d, PolishPasses, pre[a], out[a]))
    && SeqTally(d, pre) == TallyBelow(d, m, active, k)
  }

  /** Lists id k, polishing its route, when it is active. */
  method ListOne(d: Matrix, m: map<int, Route>, active: set<int>, nextId: int, k: int,
                 out0: seq<Route>, ghost pre0: seq<Route>, ghost ids0: seq<int>)
    returns (out: seq<Route>, ghost pre: seq<Route>, ghost ids: seq<int>)
    requires IdsOk(d, m, active, nextId) && 0 <= k < nextId
    requires ListState(d, m, active, nextId, k, out0, pre0, ids0)
    ensures ListState(d, m, active, nextId, k + 1, out, pre, ids)
  {
    out, pre, ids := out0, pre0, ids0;
    ListedStep(m, active, k, pre, ids);
    if k in active {
      var r := m[k];
      var r' := Polish(d, r);
      out, pre, ids := out + [r'], pre + [r], ids + [k];
    }
    ListedTallyStep(d, m, active, k, pre0, pre);
  }

  lemma ListStart(d: Matrix, m: map<int, Route>, active: set<int>, nextId: int)
    requires IdsOk(d, m, active, nextId) && 0 <= nextId
    ensures ListState(d, m, active, nextId, 0, [], [], [])
  {
    assert TallyBelow(d, m, active, 0) == Zero;
  }

  lemma ListDone(d: Matrix, m: map<int, Route>, active: set<int>, nextId: int,
                 out: seq<Route>, pre: seq<Route>, ids: seq<int>)
    requires IdsOk(d, m, active, nextId) && 0 <= nextId
    requires ListState(d, m, active, nextId, nextId, out, pre, ids)
    ensures |out| == |pre| == |ids| && AllMeasurable(d, out) && AllMeasurable(d, pre)
    ensures forall a :: 0 <= a < |ids| ==> ids[a] in active && ids[a] in m && pre[a] == m[ids[a]] && Rewritten(d, PolishPasses, pre[a], out[a])
    ensures forall a, b :: 0 <= a < b < |ids| ==> ids[a] < ids[b]
    ensures forall x :: x in active ==> x in ids
    ensures Dominated(SeqTally(d, out), TallyBelow(d, m, active, nextId))
  {
    RewrittenSeqTally(d, pre, out);
  }


  /** One merge keeps the queue's promises: the queue stays in order without
      self-pairs, and every pair that could be merged has its entry. */
  lemma MergeQueue(d: Matrix, dep: int, cap: int, maxClients: int, minGain: int,
                   m: map<int, Route>, active: set<int>, n: int,
                   q0: seq<Entry>, q: seq<Entry>, i: int, j: int, r: Route)
    requires 0 <= dep < |d| && IdsOk(d, m, active, n)
    requires QueueOk(q0) && q0 != [] && q0[0].i == i && q0[0].j == j
    requires Pending(d, dep, cap, maxClients, minGain, m, active, q0)
    requires IdsOk(d, m[n := r], active - {i} - {j} + {n}, n + 1)
    requires Sorted(q) && forall e :: e in q <==> e in q0[1..] || PushedEntry(d, dep, m[n := r], active - {i} - {j} + {n}, n, e)
    ensures QueueOk(q)
    ensures Pending(d, dep, cap, maxClients, minGain, m[n := r], active - {i} - {j} + {n}, q)
  {
    var m', active' := m[n := r], active - {i} - {j} + {n};
    assert QueueOk(q0[1..]) by {
      assert forall e :: e in q0[1..] ==> e in q0;
    }
    PushQueueOk(d, dep, m', active', n, q0[1..], q);
    forall x | x in active && x != i && x != j
      ensures Entry(-RouteSaving(d, dep, m[x], r), x, n) in q
    {
      assert x in active' && m'[x] == m[x] && m'[n] == r;
      assert PushedEntry(d, dep, m', active', n, Entry(-RouteSaving(d, dep, m[x], r), x, n));
    }
    MergePending(d, dep, cap, maxClients, minGain, m, active, n, i, j, q0, r, q);
  }

  /** n times g, as a sum, so that the loop's bound on the gains stays
      linear. */
  function Scaled(n: int, g: int): int
    decreases n
  {
    if n <= 0 then 0 else Scaled(n - 1, g) + g
  }

  lemma {:induction false} ScaledIsProduct(n: int, g: int)
    requires n >= 0
    ensures Scaled(n, g) == n * g
    decreases n
  {
    if n > 0 {
      ScaledIsProduct(n - 1, g);
    }
  }

  /** One merge keeps the count: the new route n replaces i and j, one merge
      more, gain more gained. */
  lemma MergeCount(d: Matrix, routes: seq<Route>, m: map<int, Route>, active: set<int>, n: int,
                   merges: int, gained: int, minGain: int, i: int, j: int, c: seq<int>, gain: int)
    requires AllMeasurable(d, routes) && IdsOk(d, m, active, n)
    requires Conserved(d, routes, m, active, n, merges, gained) && 0 <= merges && gained >= Scaled(merges, minGain)
    requires i in active && j in active && i != j && ValidStops(d, c) && |c| >= 2
    requires gain == JoinGain(d, m[i].stops, m[j].stops, c) && gain >= minGain
    ensures IdsOk(d, m[n := Merged(m[i], m[j], c)], active - {i} - {j} + {n}, n + 1)
    ensures |active - {i} - {j} + {n}| == |active| - 1
    ensures gained + gain >= Scaled(merges + 1, minGain)
    ensures Conserved(d, routes, m[n := Merged(m[i], m[j], c)], active - {i} - {j} + {n}, n + 1, merges + 1, gained + gain)
  {
    assert Scaled(merges + 1, minGain) == Scaled(merges, minGain) + minGain;
    CardMerge(active, i, j, n);
    MergeIds(d, m, active, n, i, j, Merged(m[i], m[j], c));
    MergeConserved(d, routes, m, active, n, merges, gained, i, j, c, gain);
  }

  /** The conservation part of MergeCount. */
  lemma MergeConserved(d: Matrix, routes: seq<Route>, m: map<int, Route>, active: set<int>, n: int,
                       merges: int, gained: int, i: int, j: int, c: seq<int>, gain: int)
    requires AllMeasurable(d, routes) && IdsOk(d, m, active, n)
    requires i in active && j in active && i != j && ValidStops(d, c)
    requires IdsOk(d, m[n := Merged(m[i], m[j], c)], active - {i} - {j} + {n}, n + 1)
    requires Conserved(d, routes, m, active, n, merges, gained)
    requires gain == JoinGain(d, m[i].stops, m[j].stops, c)
    ensures Conserved(d, routes, m[n := Merged(m[i], m[j], c)], active - {i} - {j} + {n}, n + 1, merges + 1, gained + gain)
  {
    MergeTally(d, m, active, n, i, j, c);
  }

  /** Everything the merge loop keeps: the ids, the queue, the counts, the
      conservation of clients, services, demand and cost, the lower bound on
      the number of routes once a merge has happened, what the active routes
      keep of the input (capacity, form, disjointness, client count), and the
      pending entries. */
  ghost predicate MergeState(d: Matrix, dep: int, cap: int, maxClients: int, minGain: int,
                             routes: seq<Route>, minR: int, m: map<int, Route>, active: set<int>,
                             nextId: int, q: seq<Entry>, merges: int, gained: int)
    requires Square(d) && 0 <= dep < |d| && AllMeasurable(d, routes)
  {
    && IdsOk(d, m, active, nextId) && nextId >= |routes|
    && QueueOk(q)
    && 0 <= merges && |active| == |routes| - merges && gained >= Scaled(merges, minGain)
    && Conserved(d, routes, m, active, nextId, merges, gained)
    && (merges == 0 || |active| >= minR)
    && Kept(routes, dep, cap, m, active)
    && CountKept(routes, maxClients, m, active)
    && Pending(d, dep, cap, maxClients, minGain, m, active, q)
  }

  /** Popping an entry that cannot be merged keeps the state. */
  lemma SkipState(d: Matrix, dep: int, cap: int, maxClients: int, minGain: int,
                  routes: seq<Route>, minR: int, m: map<int, Route>, active: set<int>,
                  nextId: int, q0: seq<Entry>, merges: int, gained: int)
    requires Square(d) && 0 <= dep < |d| && AllMeasurable(d, routes)
    requires MergeState(d, dep, cap, maxClients, minGain, routes, minR, m, active, nextId, q0, merges, gained)
    requires q0 != [] && (q0[0].i in active && q0[0].j in active ==>
      !Mergeable(d, dep, cap, maxClients, minGain, m[q0[0].i], m[q0[0].j]))
    ensures MergeState(d, dep, cap, maxClients, minGain, routes, minR, m, active, nextId, q0[1..], merges, gained)
  {
    SkipKeeps(d, dep, cap, maxClients, minGain, m, active, nextId, q0);
  }

  /** Before a merge of i and j into r: the ids of the state after it are
      in order. */
  lemma MergeStart(d: Matrix, dep: int, cap: int, maxClients: int, minGain: int,
                   routes: seq<Route>, minR: int, m: map<int, Route>, active: set<int>,
                   nextId: int, q0: seq<Entry>, merges: int, gained: int,
                   i: int, j: int, idx: int, r: Route)
    requires Square(d) && 0 <= dep < |d| && AllMeasurable(d, routes)
    requires MergeState(d, dep, cap, maxClients, minGain, routes, minR, m, active, nextId, q0, merges, gained)
    requires q0 != [] && q0[0].i == i && q0[0].j == j && i in active && j in active && 0 <= idx < 4
    requires r == Merged(m[i], m[j], Candidates(m[i].stops, m[j].stops, dep)[idx])
    ensures i != j
    ensures IdsOk(d, m[nextId := r], active - {i} - {j} + {nextId}, nextId + 1)
  {
    assert q0[0] in q0;
    CandidateFacts(d, m[i].stops, m[j].stops, dep, idx);
    MergeIds(d, m, active, nextId, i, j, r);
  }

  /** After the merge of i and j into r under id n, and the pushes of r's
      savings, the state holds again, with one merge more and bestGain more
      gained. */
  lemma MergeFinish(d: Matrix, dep: int, cap: int, maxClients: int, minGain: int,
                    routes: seq<Route>, minR: int, m: map<int, Route>, active: set<int>,
                    n: int, q0: seq<Entry>, merges: int, gained: int,
                    i: int, j: int, idx: int, bestGain: int, r: Route,
                    m': map<int, Route>, active': set<int>, tail: seq<Entry>, q: seq<Entry>,
                    nextId': int, merges': int, gained': int)
    requires Square(d) && 0 <= dep < |d| && AllMeasurable(d, routes)
    requires MergeState(d, dep, cap, maxClients, minGain, routes, minR, m, active, n, q0, merges, gained)
    requires |active| > minR
    requires q0 != [] && q0[0].i == i && q0[0].j == j && tail == q0[1..]
    requires i in active && j in active && i != j && 0 <= idx < 4
    requires m[i].demand + m[j].demand <= cap && m[i].services !! m[j].services
    requires |m[i].clients| + |m[j].clients| <= maxClients
    requires AllValid(d, Candidates(m[i].stops, m[j].stops, dep))
    requires bestGain == JoinGain(d, m[i].stops, m[j].stops, Candidates(m[i].stops, m[j].stops, dep)[idx])
    requires bestGain >= minGain
    requires r == Merged(m[i], m[j], Candidates(m[i].stops, m[j].stops, dep)[idx])
    requires m' == m[n := r] && active' == active - {i} - {j} + {n}
    requires IdsOk(d, m', active', n + 1)
    requires Sorted(q) && forall e :: e in q <==> e in tail || PushedEntry(d, dep, m', active', n, e)
    requires nextId' == n + 1 && merges' == merges + 1 && gained' == gained + bestGain
    ensures MergeState(d, dep, cap, maxClients, minGain, routes, minR, m', active', nextId', q, merges', gained')
  {
    var c := Candidates(m[i].stops, m[j].stops, dep)[idx];
    MergeCount(d, routes, m, active, n, merges, gained, minGain, i, j, c, bestGain);
    MergeKept(d, dep, routes, cap, m, active, n, i, j, idx);
    MergeCountKept(routes, maxClients, m, active, n, i, j, r);
    MergeQueue(d, dep, cap, maxClients, minGain, m, active, n, q0, q, i, j, r);
  }

  /** At the end the output holds the active routes' clients, services and
      demand, as many routes as are active, and costs no more than they do. */
  lemma FinishTally(d: Matrix, routes: seq<Route>, m: map<int, Route>, active: set<int>, nextId: int,
                    merges: int, gained: int, out: seq<Route>)
    requires AllMeasurable(d, routes) && IdsOk(d, m, active, nextId) && AllMeasurable(d, out)
    requires Conserved(d, routes, m, active, nextId, merges, gained)
    requires Dominated(SeqTally(d, out), TallyBelow(d, m, active, nextId))
    ensures multiset(AllClients(out)) == multiset(AllClients(routes))
    ensures AllServices(out) == AllServices(routes)
    ensures DemandTotal(out) == DemandTotal(routes)
    ensures |out| == |routes| - merges
    ensures TotalCost(d, out) <= TotalCost(d, routes) - gained
  {
  }

  /** Each merge gains at least minGain, so the output costs at least
      minGain less than the input per route saved. */
  lemma GainFloor(d: Matrix, routes: seq<Route>, out: seq<Route>, merges: int, gained: int, minGain: int)
    requires Square(d) && AllMeasurable(d, routes) && AllMeasurable(d, out)
    requires TotalCost(d, out) <= TotalCost(d, routes) - gained && |out| == |routes| - merges
    requires gained >= Scaled(merges, minGain)
    ensures SavesPerMerge(d, routes, out, minGain)
  {
    assert |routes| - |out| == merges;
  }

  /** The routes `out` cost at least minGain less than `routes` per route
      fewer: TotalCost(out) + (|routes| - |out|) * minGain <= TotalCost(routes),
      the product written as Scaled (see ScaledIsProduct). */
  ghost predicate SavesPerMerge(d: Matrix, routes: seq<Route>, out: seq<Route>, minGain: int)
    requires Square(d) && AllMeasurable(d, routes) && AllMeasurable(d, out)
  {
    TotalCost(d, out) + Scaled(|routes| - |out|, minGain) <= TotalCost(d, routes)
  }

  /** The output routes are the active ones after 2-opt, which keeps the
      demand: if the active routes fit, so do the output routes. */
  lemma FinishFits(d: Matrix, dep: int, cap: int, routes: seq<Route>, m: map<int, Route>, active: set<int>,
                   out: seq<Route>, pre: seq<Route>, ids: seq<int>)
    requires Square(d) && (forall k :: k in active ==> k in m) && Kept(routes, dep, cap, m, active)
    requires |out| == |pre| == |ids| && AllMeasurable(d, pre)
    requires forall a :: 0 <= a < |ids| ==> ids[a] in active && pre[a] == m[ids[a]] && Rewritten(d, PolishPasses, pre[a], out[a])
    ensures (forall r :: r in routes ==> r.demand <= cap) ==> forall r :: r in out ==> r.demand <= cap
  {
    if forall r :: r in routes ==> r.demand <= cap {
      forall r | r in out
        ensures r.demand <= cap
      {
        var a :| 0 <= a < |out| && out[a] == r;
        var k := ids[a];
        assert k in active && pre[a] == m[k] && Rewritten(d, PolishPasses, pre[a], out[a]);
        assert m[k].demand <= cap;
      }
    }
  }

  /** 2-opt keeps routes well formed, so the output is well formed when the
      active routes are. */
  lemma FinishWellFormed(d: Matrix, dep: int, cap: int, routes: seq<Route>, m: map<int, Route>, active: set<int>,
                         out: seq<Route>, pre: seq<Route>, ids: seq<int>)
    requires Square(d) && (forall k :: k in active ==> k in m) && Kept(routes, dep, cap, m, active)
    requires |out| == |pre| == |ids| && AllMeasurable(d, pre)
    requires forall a :: 0 <= a < |ids| ==> ids[a] in active && pre[a] == m[ids[a]] && Rewritten(d, PolishPasses, pre[a], out[a])
    ensures (forall r :: r in routes ==> WellFormed(r, dep)) ==> forall r :: r in out ==> WellFormed(r, dep)
  {
    if forall r :: r in routes ==> WellFormed(r, dep) {
      forall r | r in out
        ensures WellFormed(r, dep)
      {
        var a :| 0 <= a < |out| && out[a] == r;
        var k := ids[a];
        assert k in active && pre[a] == m[k] && Rewritten(d, PolishPasses, pre[a], out[a]);
        assert WellFormed(m[k], dep);
        RewrittenKeepsWellFormed(d, PolishPasses, pre[a], out[a], dep);
      }
    }
  }

  /** The output routes are distinct active routes after 2-opt, which keeps
      the services, so no two share a service when no two inputs do. */
  lemma FinishDisjoint(d: Matrix, dep: int, cap: int, routes: seq<Route>, m: map<int, Route>, active: set<int>,
                       out: seq<Route>, pre: seq<Route>, ids: seq<int>)
    requires Square(d) && (forall k :: k in active ==> k in m) && Kept(routes, dep, cap, m, active)
    requires |out| == |pre| == |ids| && AllMeasurable(d, pre)
    requires forall a :: 0 <= a < |ids| ==> ids[a] in active && pre[a] == m[ids[a]] && Rewritten(d, PolishPasses, pre[a], out[a])
    requires forall a, b :: 0 <= a < b < |ids| ==> ids[a] < ids[b]
    ensures PairwiseDisjoint(routes) ==> PairwiseDisjoint(out)
  {
    if PairwiseDisjoint(routes) {
      forall a, b | 0 <= a < b < |out|
        ensures out[a].services !! out[b].services
      {
        assert ids[a] != ids[b];
        assert Rewritten(d, PolishPasses, pre[a], out[a]) && Rewritten(d, PolishPasses, pre[b], out[b]);
      }
    }
  }

  /** 2-opt does not touch the clients, so the output keeps the client
      count bound of the active routes. */
  lemma FinishCountKept(d: Matrix, routes: seq<Route>, maxClients: int, m: map<int, Route>, active: set<int>,
                        out: seq<Route>, pre: seq<Route>, ids: seq<int>)
    requires Square(d) && (forall k :: k in active ==> k in m) && CountKept(routes, maxClients, m, active)
    requires |out| == |pre| == |ids| && AllMeasurable(d, pre)
    requires forall a :: 0 <= a < |ids| ==> ids[a] in active && pre[a] == m[ids[a]] && Rewritten(d, PolishPasses, pre[a], out[a])
    ensures (forall r :: r in routes ==> |r.clients| <= maxClients) ==> forall r :: r in out ==> |r.clients| <= maxClients
  {
    if forall r :: r in routes ==> |r.clients| <= maxClients {
      forall r | r in out
        ensures |r.clients| <= maxClients
      {
        var a :| 0 <= a < |out| && out[a] == r;
        var k := ids[a];
        assert k in active && pre[a] == m[k] && Rewritten(d, PolishPasses, pre[a], out[a]);
        assert |m[k].clients| <= maxClients;
      }
    }
  }

  /** When the loop stops with more routes than the lower bound, the queue
      ran empty, so no two active routes can be merged. */
  lemma FinishConverged(d: Matrix, dep: int, cap: int, maxClients: int, minGain: int,
                        m: map<int, Route>, active: set<int>, pre: seq<Route>, ids: seq<int>)
    requires Square(d) && 0 <= dep < |d| && forall k :: k in active ==> k in m && Measurable(d, m[k])
    requires Pending(d, dep, cap, maxClients, minGain, m, active, [])
    requires |pre| == |ids| && forall a :: 0 <= a < |ids| ==> ids[a] in active && pre[a] == m[ids[a]]
    requires forall a, b :: 0 <= a < b < |ids| ==> ids[a] < ids[b]
    ensures forall a, b :: 0 <= a < b < |pre| ==> !Mergeable(d, dep, cap, maxClients, minGain, pre[a], pre[b])
  {
    forall a, b | 0 <= a < b < |pre|
      ensures !Mergeable(d, dep, cap, maxClients, minGain, pre[a], pre[b])
    {
      assert ids[a] < ids[b];
    }
  }

  /** One round of the merge loop: pops the entry with the largest saving
      and either drops it or merges its two routes into a new one. */
  method PopStep(d: Matrix, dep: int, cap: int, maxClients: int, minGain: int,
                 routes: seq<Route>, minR: int, m0: map<int, Route>, active0: set<int>, nextId0: int,
                 q0: seq<Entry>, ghost merges0: int, ghost gained0: int)
    returns (m: map<int, Route>, active: set<int>, nextId: int, q: seq<Entry>, ghost merges: int, ghost gained: int)
    requires Square(d) && 0 <= dep < |d| && AllMeasurable(d, routes)
    requires MergeState(d, dep, cap, maxClients, minGain, routes, minR, m0, active0, nextId0, q0, merges0, gained0)
    requires q0 != [] && |active0| > minR
    ensures MergeState(d, dep, cap, maxClients, minGain, routes, minR, m, active, nextId, q, merges, gained)
    ensures |active| < |active0| || (active == active0 && |q| < |q0|)
    ensures var i, j := q0[0].i, q0[0].j;
      if i in active0 && j in active0 && Mergeable(d, dep, cap, maxClients, minGain, m0[i], m0[j])
      then active == active0 - {i} - {j} + {nextId0} && nextId == nextId0 + 1
        && (exists k :: BestJoin(d, dep, m0[i], m0[j], k)
             && m == m0[nextId0 := Merged(m0[i], m0[j], Candidates(m0[i].stops, m0[j].stops, dep)[k])])
        && (forall e :: multiset(q)[e] == multiset(q0[1..])[e] + if PushedEntry(d, dep, m, active, nextId0, e) then 1 else 0)
      else m == m0 && active == active0 && nextId == nextId0 && q == q0[1..]
  {
    var e := q0[0];
    var i, j := e.i, e.j;
    m, active, nextId, q, merges, gained := m0, active0, nextId0, q0[1..], merges0, gained0;
    if i !in active0 || j !in active0 {
      SkipState(d, dep, cap, maxClients, minGain, routes, minR, m0, active0, nextId0, q0, merges0, gained0);
      return;
    }
    var ri, rj := m0[i], m0[j];
    if ri.demand + rj.demand > cap || !(ri.services !! rj.services) || |ri.clients| + |rj.clients| > maxClients {
      SkipState(d, dep, cap, maxClients, minGain, routes, minR, m0, active0, nextId0, q0, merges0, gained0);
      return;
    }
    var cs := Candidates(ri.stops, rj.stops, dep);
    CandidatesValid(d, ri.stops, rj.stops, dep);
    var best, bestGain, idx := BestCandidate(d, dep, ri.stops, rj.stops, ServiceCost(ri.clients + rj.clients), cs);
    BestDecides(d, dep, ri, rj, minGain, best, bestGain, idx);
    if bestGain < minGain || best.None? {
      SkipState(d, dep, cap, maxClients, minGain, routes, minR, m0, active0, nextId0, q0, merges0, gained0);
      return;
    }
    assert BestJoin(d, dep, ri, rj, idx);
    m, active, nextId, q, merges, gained :=
      MergePair(d, dep, cap, maxClients, minGain, routes, minR, m0, active0, nextId0, q0, merges0, gained0,
                i, j, idx, best.value, bestGain);
  }

  /** The merge of the popped pair (i, j) along the candidate `stops` of
      gain bestGain: the new route takes the next id, i and j retire, and the
      savings of the new route with every active one are pushed. */
  method MergePair(d: Matrix, dep: int, cap: int, maxClients: int, minGain: int,
                   routes: seq<Route>, minR: int, m0: map<int, Route>, active0: set<int>, nextId0: int,
                   q0: seq<Entry>, ghost merges0: int, ghost gained0: int,
                   i: int, j: int, ghost idx: int, stops: seq<int>, bestGain: int)
    returns (m: map<int, Route>, active: set<int>, nextId: int, q: seq<Entry>, ghost merges: int, ghost gained: int)
    requires Square(d) && 0 <= dep < |d| && AllMeasurable(d, routes)
    requires MergeState(d, dep, cap, maxClients, minGain, routes, minR, m0, active0, nextId0, q0, merges0, gained0)
    requires |active0| > minR
    requires q0 != [] && q0[0].i == i && q0[0].j == j && i in active0 && j in active0 && 0 <= idx < 4
    requires m0[i].demand + m0[j].demand <= cap && m0[i].services !! m0[j].services
    requires |m0[i].clients| + |m0[j].clients| <= maxClients
    requires AllValid(d, Candidates(m0[i].stops, m0[j].stops, dep))
    requires stops == Candidates(m0[i].stops, m0[j].stops, dep)[idx]
    requires bestGain == JoinGain(d, m0[i].stops, m0[j].stops, stops) && bestGain >= minGain
    ensures nextId == nextId0 + 1 && merges == merges0 + 1 && gained == gained0 + bestGain
    ensures m == m0[nextId0 := Merged(m0[i], m0[j], stops)]
    ensures active == active0 - {i} - {j} + {nextId0}
    ensures MergeState(d, dep, cap, maxClients, minGain, routes, minR, m, active, nextId, q, merges, gained)
    ensures forall e :: multiset(q)[e] == multiset(q0[1..])[e] + if PushedEntry(d, dep, m, active, nextId0, e) then 1 else 0
  {
    var merged := Merged(m0[i], m0[j], stops);
    MergeStart(d, dep, cap, maxClients, minGain, routes, minR, m0, active0, nextId0, q0, merges0, gained0, i, j, idx, merged);
    // the new id is one more than the largest key of the map
    var newId := nextId0;
    active := active0 - {i} - {j} + {newId};
    m := m0[newId := merged];
    nextId := nextId0 + 1;
    q := PushSavings(q0[1..], d, dep, m, active, newId);
    merges, gained := merges0 + 1, gained0 + bestGain;
    MergeFinish(d, dep, cap, maxClients, minGain, routes, minR, m0, active0, newId, q0, merges0, gained0,
                i, j, idx, bestGain, merged, m, active, q0[1..], q, nextId, merges, gained);
  }

  /** The savings merge. Starting from one route per input route (ids
      0 .. |routes|-1), it pops entries until the queue is empty or no more
      than ceil(total demand / cap) routes are active; an entry is skipped
      when either route has been retired, the two do not fit together, share
      a service, have more than maxClients clients together, or no candidate
      gains at least minGain; otherwise the two routes are retired and the
      merged route is added under the next id with its savings pushed. The
      result is the active routes after 2-opt, in ascending id order; `pre`
      holds the same active routes before 2-opt, so the convergence clause is
      about the active routes at the end of the loop, lower id first. */
  method MergeWithHeap(routes: seq<Route>, d: Matrix, dep: int, cap: int, minGain: int, maxClients: int)
    returns (out: seq<Route>, ghost pre: seq<Route>)
    requires Square(d) && 0 <= dep < |d| && AllMeasurable(d, routes) && cap > 0
    ensures AllMeasurable(d, out)
    ensures multiset(AllClients(out)) == multiset(AllClients(routes))
    ensures AllServices(out) == AllServices(routes)
    ensures DemandTotal(out) == DemandTotal(routes)
    ensures |out| <= |routes|
    ensures SavesPerMerge(d, routes, out, minGain)
    ensures |out| < |routes| ==> |out| >= MinRoutes(routes, cap)
    ensures (forall r :: r in routes ==> r.demand <= cap) ==> forall r :: r in out ==> r.demand <= cap
    ensures (forall r :: r in routes ==> WellFormed(r, dep)) ==> forall r :: r in out ==> WellFormed(r, dep)
    ensures PairwiseDisjoint(routes) ==> PairwiseDisjoint(out)
    ensures (forall r :: r in routes ==> |r.clients| <= maxClients) ==> forall r :: r in out ==> |r.clients| <= maxClients
    ensures |pre| == |out| && AllMeasurable(d, pre)
    ensures forall k :: 0 <= k < |out| ==> Rewritten(d, PolishPasses, pre[k], out[k])
    ensures |out| > MinRoutes(routes, cap) ==>
      forall a, b :: 0 <= a < b < |pre| ==> !Mergeable(d, dep, cap, maxClients, minGain, pre[a], pre[b])
  {
    var q := InitialSavings(routes, d, dep, cap);
    var active := Range(|routes|);
    var m := map k | 0 <= k < |routes| :: routes[k];
    var nextId := |routes|;
    var minR := CeilDiv(DemandTotal(routes), cap);
    ghost var merges, gained := 0, 0;
    InitState(d, dep, cap, maxClients, minGain, routes, q, m);

    while q != [] && |active| > minR
      invariant MergeState(d, dep, cap, maxClients, minGain, routes, minR, m, active, nextId, q, merges, gained)
      decreases |active|, |q|
    {
      m, active, nextId, q, merges, gained :=
        PopStep(d, dep, cap, maxClients, minGain, routes, minR, m, active, nextId, q, merges, gained);
    }

    ghost var ids;
    out, pre, ids := FinalRoutes(d, m, active, nextId);
    FinishTally(d, routes, m, active, nextId, merges, gained, out);
    FinishFits(d, dep, cap, routes, m, active, out, pre, ids);
    FinishWellFormed(d, dep, cap, routes, m, active, out, pre, ids);
    FinishDisjoint(d, dep, cap, routes, m, active, out, pre, ids);
    FinishCountKept(d, routes, maxClients, m, active, out, pre, ids);
    if |active| > minR {
      FinishConverged(d, dep, cap, maxClients, minGain, m, active, pre, ids);
    }
    GainFloor(d, routes, out, merges, gained, minGain);
  }
}
