/** Re-merging after the construction: each pass looks at every pair of
    routes and every way of joining them, takes the joining that gains most,
    replaces the two routes by the joined one, and passes repeat until no
    joining gains anything. */
module Remerge {
  import opened Types
  import opened Costs
  import opened HeapMerge

  /** The pair chosen by a pass: routes a < b, joined along `stops`. */
  datatype Choice = Choice(a: int, b: int, stops: seq<int>)

  /** The gain of joining rs[a] and rs[b] along their k-th candidate. */
  function PairGain(d: Matrix, dep: int, rs: seq<Route>, a: int, b: int, k: int): int
    requires Square(d) && 0 <= dep < |d| && AllMeasurable(d, rs)
    requires 0 <= a < |rs| && 0 <= b < |rs| && 0 <= k < 4
  {
    CandidatesValid(d, rs[a].stops, rs[b].stops, dep);
    JoinGain(d, rs[a].stops, rs[b].stops, Candidates(rs[a].stops, rs[b].stops, dep)[k])
  }

  /** A pass may take candidate k of the pair a < b: the two routes fit
      together, share no service, the candidate starts and ends at the
      depot, and it gains more than zero and more than minGain. */
  ghost predicate Eligible(d: Matrix, dep: int, cap: int, minGain: int, rs: seq<Route>, a: int, b: int, k: int)
    requires Square(d) && 0 <= dep < |d| && AllMeasurable(d, rs)
  {
    && 0 <= a < b < |rs| && 0 <= k < 4
    && rs[a].demand + rs[b].demand <= cap
    && rs[a].services !! rs[b].services
    && DepotEnded(Candidates(rs[a].stops, rs[b].stops, dep)[k], dep)
    && PairGain(d, dep, rs, a, b, k) > 0
    && PairGain(d, dep, rs, a, b, k) > minGain
  }

  /** No pair of rs can be joined with a gain. */
  ghost predicate Converged(d: Matrix, dep: int, cap: int, minGain: int, rs: seq<Route>)
    requires Square(d) && 0 <= dep < |d| && AllMeasurable(d, rs)
  {
    forall a, b, k :: !Eligible(d, dep, cap, minGain, rs, a, b, k)
  }

  /** The order in which a pass looks at (pair, candidate) triples. */
  predicate Before(a: int, b: int, k: int, i: int, j: int, l: int)
  {
    a < i || (a == i && (b < j || (b == j && k < l)))
  }

  /** What a pass knows when it reaches triple (i, j, l): best is the first
      eligible triple before it with the largest gain, or None (and a best
      gain of 0) when none is eligible. */
  ghost predicate BestSoFar(d: Matrix, dep: int, cap: int, minGain: int, rs: seq<Route>,
                            i: int, j: int, l: int, best: Option<Choice>, bestGain: int, k: int)
    requires Square(d) && 0 <= dep < |d| && AllMeasurable(d, rs)
  {
    && (best.None? ==>
          && bestGain == 0
          && forall a, b, c :: Before(a, b, c, i, j, l) ==> !Eligible(d, dep, cap, minGain, rs, a, b, c))
    && (best.Some? ==>
          && Eligible(d, dep, cap, minGain, rs, best.value.a, best.value.b, k)
          && Before(best.value.a, best.value.b, k, i, j, l)
          && best.value.stops == Candidates(rs[best.value.a].stops, rs[best.value.b].stops, dep)[k]
          && bestGain == PairGain(d, dep, rs, best.value.a, best.value.b, k)
          && (forall a, b, c :: Before(a, b, c, i, j, l) && Eligible(d, dep, cap, minGain, rs, a, b, c) ==>
                PairGain(d, dep, rs, a, b, c) <= bestGain)
          && (forall a, b, c :: Before(a, b, c, best.value.a, best.value.b, k) && Eligible(d, dep, cap, minGain, rs, a, b, c) ==>
                PairGain(d, dep, rs, a, b, c) < bestGain))
  }

  /** Moving past triples none of which is eligible keeps what the pass
      knows. */
  lemma BestMove(d: Matrix, dep: int, cap: int, minGain: int, rs: seq<Route>,
                 i: int, j: int, l: int, i': int, j': int, l': int, best: Option<Choice>, bestGain: int, k: int)
    requires Square(d) && 0 <= dep < |d| && AllMeasurable(d, rs)
    requires BestSoFar(d, dep, cap, minGain, rs, i, j, l, best, bestGain, k)
    requires forall a, b, c :: Eligible(d, dep, cap, minGain, rs, a, b, c) ==>
      (Before(a, b, c, i, j, l) <==> Before(a, b, c, i', j', l'))
    ensures BestSoFar(d, dep, cap, minGain, rs, i', j', l', best, bestGain, k)
  {
  }

  /** A pass starts knowing nothing. */
  lemma BestStart(d: Matrix, dep: int, cap: int, minGain: int, rs: seq<Route>)
    requires Square(d) && 0 <= dep < |d| && AllMeasurable(d, rs)
    ensures BestSoFar(d, dep, cap, minGain, rs, 0, 0, 0, None, 0, 0)
  {
  }

  /** A candidate that is not eligible, or gains no more than the best so
      far, leaves the best as it is. */
  lemma BestKeep(d: Matrix, dep: int, cap: int, minGain: int, rs: seq<Route>,
                 i: int, j: int, l: int, best: Option<Choice>, bestGain: int, k: int)
    requires Square(d) && 0 <= dep < |d| && AllMeasurable(d, rs)
    requires BestSoFar(d, dep, cap, minGain, rs, i, j, l, best, bestGain, k)
    requires 0 <= l < 4
    requires Eligible(d, dep, cap, minGain, rs, i, j, l) ==> PairGain(d, dep, rs, i, j, l) <= bestGain
    ensures BestSoFar(d, dep, cap, minGain, rs, i, j, l + 1, best, bestGain, k)
  {
  }

  /** An eligible candidate gaining more than the best so far becomes the
      best. */
  lemma BestTake(d: Matrix, dep: int, cap: int, minGain: int, rs: seq<Route>,
                 i: int, j: int, l: int, best: Option<Choice>, bestGain: int, k: int, gain: int)
    requires Square(d) && 0 <= dep < |d| && AllMeasurable(d, rs)
    requires BestSoFar(d, dep, cap, minGain, rs, i, j, l, best, bestGain, k)
    requires Eligible(d, dep, cap, minGain, rs, i, j, l)
    requires gain == PairGain(d, dep, rs, i, j, l) && gain > bestGain
    ensures BestSoFar(d, dep, cap, minGain, rs, i, j, l + 1,
                      Some(Choice(i, j, Candidates(rs[i].stops, rs[j].stops, dep)[l])), gain, l)
  {
  }

  /** After the four candidates of a pair, or none when the pair cannot be
      joined, the pass goes on with the next pair. */
  lemma BestNextPair(d: Matrix, dep: int, cap: int, minGain: int, rs: seq<Route>,
                     i: int, j: int, l: int, best: Option<Choice>, bestGain: int, k: int)
    requires Square(d) && 0 <= dep < |d| && AllMeasurable(d, rs)
    requires BestSoFar(d, dep, cap, minGain, rs, i, j, l, best, bestGain, k)
    requires l == 4 || (l == 0 && forall c :: !Eligible(d, dep, cap, minGain, rs, i, j, c))
    ensures BestSoFar(d, dep, cap, minGain, rs, i, j + 1, 0, best, bestGain, k)
  {
    forall a, b, c | Eligible(d, dep, cap, minGain, rs, a, b, c)
      ensures Before(a, b, c, i, j, l) <==> Before(a, b, c, i, j + 1, 0)
    {
    }
    BestMove(d, dep, cap, minGain, rs, i, j, l, i, j + 1, 0, best, bestGain, k);
  }

  /** Route i is only paired with later routes. */
  lemma BestRowStart(d: Matrix, dep: int, cap: int, minGain: int, rs: seq<Route>,
                     i: int, best: Option<Choice>, bestGain: int, k: int)
    requires Square(d) && 0 <= dep < |d| && AllMeasurable(d, rs)
    requires BestSoFar(d, dep, cap, minGain, rs, i, 0, 0, best, bestGain, k)
    ensures BestSoFar(d, dep, cap, minGain, rs, i, i + 1, 0, best, bestGain, k)
  {
    forall a, b, c | Eligible(d, dep, cap, minGain, rs, a, b, c)
      ensures Before(a, b, c, i, 0, 0) <==> Before(a, b, c, i, i + 1, 0)
    {
    }
    BestMove(d, dep, cap, minGain, rs, i, 0, 0, i, i + 1, 0, best, bestGain, k);
  }

  /** After the last pair of route i comes route i + 1. */
  lemma BestRowEnd(d: Matrix, dep: int, cap: int, minGain: int, rs: seq<Route>,
                   i: int, j: int, best: Option<Choice>, bestGain: int, k: int)
    requires Square(d) && 0 <= dep < |d| && AllMeasurable(d, rs)
    requires BestSoFar(d, dep, cap, minGain, rs, i, j, 0, best, bestGain, k) && j >= |rs|
    ensures BestSoFar(d, dep, cap, minGain, rs, i + 1, 0, 0, best, bestGain, k)
  {
    forall a, b, c | Eligible(d, dep, cap, minGain, rs, a, b, c)
      ensures Before(a, b, c, i, j, 0) <==> Before(a, b, c, i + 1, 0, 0)
    {
    }
    BestMove(d, dep, cap, minGain, rs, i, j, 0, i + 1, 0, 0, best, bestGain, k);
  }

  /** After the last route the pass knows the whole answer. */
  lemma BestDone(d: Matrix, dep: int, cap: int, minGain: int, rs: seq<Route>,
                 best: Option<Choice>, bestGain: int, k: int)
    requires Square(d) && 0 <= dep < |d| && AllMeasurable(d, rs)
    requires BestSoFar(d, dep, cap, minGain, rs, |rs|, 0, 0, best, bestGain, k)
    ensures best.None? <==> Converged(d, dep, cap, minGain, rs)
    ensures best.Some? ==> forall a, b, c :: Eligible(d, dep, cap, minGain, rs, a, b, c) ==>
      PairGain(d, dep, rs, a, b, c) <= bestGain
  {
    assert forall a, b, c :: Eligible(d, dep, cap, minGain, rs, a, b, c) ==> Before(a, b, c, |rs|, 0, 0);
  }

  /** The candidates of one pair i < j that fit together and share no
      service: those starting and ending at the depot are compared with the
      best so far. */
  method ScanPair(d: Matrix, dep: int, cap: int, minGain: int, rs: seq<Route>, i: int, j: int,
                  best0: Option<Choice>, bestGain0: int, ghost k0: int)
    returns (best: Option<Choice>, bestGain: int, ghost k: int)
    requires Square(d) && 0 <= dep < |d| && AllMeasurable(d, rs) && 0 <= i < j < |rs|
    requires rs[i].demand + rs[j].demand <= cap && rs[i].services !! rs[j].services
    requires BestSoFar(d, dep, cap, minGain, rs, i, j, 0, best0, bestGain0, k0)
    ensures BestSoFar(d, dep, cap, minGain, rs, i, j, 4, best, bestGain, k)
  {
    best, bestGain, k := best0, bestGain0, k0;
    var r1, r2 := rs[i], rs[j];
    var seqs := Candidates(r1.stops, r2.stops, dep);
    CandidatesValid(d, r1.stops, r2.stops, dep);
    var svc := ServiceCost(r1.clients + r2.clients);
    var oldCost := TransportCost(d, r1.stops) + TransportCost(d, r2.stops) + svc;
    var l := 0;
    while l < |seqs|
      invariant 0 <= l <= 4
      invariant BestSoFar(d, dep, cap, minGain, rs, i, j, l, best, bestGain, k)
    {
      best, bestGain, k := TryCandidate(d, dep, cap, minGain, rs, i, j, l, seqs[l], svc, oldCost, best, bestGain, k);
      l := l + 1;
    }
  }

  /** Candidate l of the pair i < j, s, replaces the best so far when it
      starts and ends at the depot and gains more than the best so far and
      more than minGain. */
  method TryCandidate(d: Matrix, dep: int, cap: int, minGain: int, rs: seq<Route>, i: int, j: int, l: int,
                      s: seq<int>, svc: int, oldCost: int, best0: Option<Choice>, bestGain0: int, ghost k0: int)
    returns (best: Option<Choice>, bestGain: int, ghost k: int)
    requires Square(d) && 0 <= dep < |d| && AllMeasurable(d, rs) && 0 <= i < j < |rs| && 0 <= l < 4
    requires rs[i].demand + rs[j].demand <= cap && rs[i].services !! rs[j].services
    requires AllValid(d, Candidates(rs[i].stops, rs[j].stops, dep))
    requires s == Candidates(rs[i].stops, rs[j].stops, dep)[l]
    requires oldCost == TransportCost(d, rs[i].stops) + TransportCost(d, rs[j].stops) + svc
    requires BestSoFar(d, dep, cap, minGain, rs, i, j, l, best0, bestGain0, k0)
    ensures BestSoFar(d, dep, cap, minGain, rs, i, j, l + 1, best, bestGain, k)
  {
    best, bestGain, k := best0, bestGain0, k0;
    var gain := 0;
    var ended := s[0] == dep && s[|s| - 1] == dep;
    if ended {
      var newCost := TransportCost(d, s) + svc;
      gain := oldCost - newCost;
      assert gain == PairGain(d, dep, rs, i, j, l);
    }
    if ended && gain > bestGain && gain > minGain {
      BestTake(d, dep, cap, minGain, rs, i, j, l, best, bestGain, k, gain);
      best, bestGain, k := Some(Choice(i, j, s)), gain, l;
    } else {
      BestKeep(d, dep, cap, minGain, rs, i, j, l, best, bestGain, k);
    }
  }

  /** One pass: every pair i < j of routes that fit together and share no
      service, every candidate starting and ending at the depot; a candidate
      replaces the best so far when it gains more than it and more than
      minGain, the best gain starting at 0. Among equal gains the first
      found stays. */
  method BestPair(d: Matrix, dep: int, cap: int, minGain: int, rs: seq<Route>)
    returns (best: Option<Choice>, bestGain: int, ghost k: int)
    requires Square(d) && 0 <= dep < |d| && AllMeasurable(d, rs)
    ensures best.None? <==> Converged(d, dep, cap, minGain, rs)
    ensures best.None? ==> bestGain == 0
    ensures best.Some? ==> Eligible(d, dep, cap, minGain, rs, best.value.a, best.value.b, k)
    ensures best.Some? ==> best.value.stops == Candidates(rs[best.value.a].stops, rs[best.value.b].stops, dep)[k]
    ensures best.Some? ==> bestGain == PairGain(d, dep, rs, best.value.a, best.value.b, k)
    ensures best.Some? ==> forall a, b, c :: Eligible(d, dep, cap, minGain, rs, a, b, c) ==>
      PairGain(d, dep, rs, a, b, c) <= bestGain
    ensures best.Some? ==> forall a, b, c ::
      Before(a, b, c, best.value.a, best.value.b, k) && Eligible(d, dep, cap, minGain, rs, a, b, c) ==>
        PairGain(d, dep, rs, a, b, c) < bestGain
  {
    best, bestGain, k := None, 0, 0;
    BestStart(d, dep, cap, minGain, rs);
    var n := |rs|;
    var i := 0;
    while i < n
      invariant 0 <= i <= n
      invariant BestSoFar(d, dep, cap, minGain, rs, i, 0, 0, best, bestGain, k)
    {
      BestRowStart(d, dep, cap, minGain, rs, i, best, bestGain, k);
      var j := i + 1;
      while j < n
        invariant i + 1 <= j <= n
        invariant BestSoFar(d, dep, cap, minGain, rs, i, j, 0, best, bestGain, k)
      {
        if rs[i].demand + rs[j].demand <= cap && rs[i].services !! rs[j].services {
          best, bestGain, k := ScanPair(d, dep, cap, minGain, rs, i, j, best, bestGain, k);
          BestNextPair(d, dep, cap, minGain, rs, i, j, 4, best, bestGain, k);
        } else {
          BestNextPair(d, dep, cap, minGain, rs, i, j, 0, best, bestGain, k);
        }
        j := j + 1;
      }
      BestRowEnd(d, dep, cap, minGain, rs, i, j, best, bestGain, k);
      i := i + 1;
    }
    BestDone(d, dep, cap, minGain, rs, best, bestGain, k);
  }

  // ---------------------------------------------------------------------
  // Replacing the pair by the joined route

  /** rs without its routes i and j, the others in order. */
  function RemovePair(rs: seq<Route>, i: int, j: int): (r: seq<Route>)
    requires 0 <= i < j < |rs|
    ensures |r| == |rs| - 2
    ensures forall t :: 0 <= t < |r| ==> r[t] == rs[if t < i then t else if t < j - 1 then t + 1 else t + 2]
  {
    rs[..i] + rs[i + 1..j] + rs[j + 1..]
  }

  /** Every route left by RemovePair is one of rs other than i and j, and
      every route of rs other than i and j is left. */
  lemma RemovePairMembers(rs: seq<Route>, i: int, j: int)
    requires 0 <= i < j < |rs|
    ensures forall t :: 0 <= t < |rs| && t != i && t != j ==> rs[t] in RemovePair(rs, i, j)
    ensures forall r :: r in RemovePair(rs, i, j) ==> exists t :: 0 <= t < |rs| && t != i && t != j && rs[t] == r
  {
    var r := RemovePair(rs, i, j);
    forall t | 0 <= t < |rs| && t != i && t != j
      ensures rs[t] in r
    {
      var u := if t < i then t else if t < j then t - 1 else t - 2;
      assert r[u] == rs[t];
    }
    forall x | x in r
      ensures exists t :: 0 <= t < |rs| && t != i && t != j && rs[t] == x
    {
      var u :| 0 <= u < |r| && r[u] == x;
      var t := if u < i then u else if u < j - 1 then u + 1 else u + 2;
      assert rs[t] == x;
    }
  }

  lemma SeqTallyOne(d: Matrix, r: Route)
    requires Square(d) && Measurable(d, r)
    ensures AllMeasurable(d, [r]) && SeqTally(d, [r]) == RouteTally(d, r)
  {
    SeqTallySnoc(d, [], r);
    assert [] + [r] == [r];
    AddCommute(Zero, RouteTally(d, r));
    AddZero(RouteTally(d, r));
  }

  /** Taking route i out of rs takes its tally out. */
  lemma SeqTallyRemoveAt(d: Matrix, rs: seq<Route>, i: int)
    requires Square(d) && AllMeasurable(d, rs) && 0 <= i < |rs|
    ensures AllMeasurable(d, rs[..i] + rs[i + 1..])
    ensures SeqTally(d, rs) == Add(SeqTally(d, rs[..i] + rs[i + 1..]), RouteTally(d, rs[i]))
  {
    var a, x, b := rs[..i], rs[i], rs[i + 1..];
    assert AllMeasurable(d, a) && AllMeasurable(d, b) && Measurable(d, x);
    assert rs == a + ([x] + b);
    SeqTallyOne(d, x);
    SeqTallyConcat(d, [x], b);
    SeqTallyConcat(d, a, [x] + b);
    SeqTallyConcat(d, a, b);
    AddSwap(SeqTally(d, a), RouteTally(d, x), SeqTally(d, b));
    AddCommute(RouteTally(d, x), Add(SeqTally(d, a), SeqTally(d, b)));
  }

  /** Taking routes i and j out of rs takes their tallies out. */
  lemma RemovePairTally(d: Matrix, rs: seq<Route>, i: int, j: int)
    requires Square(d) && AllMeasurable(d, rs) && 0 <= i < j < |rs|
    ensures AllMeasurable(d, RemovePair(rs, i, j))
    ensures SeqTally(d, rs) == Add(Add(SeqTally(d, RemovePair(rs, i, j)), RouteTally(d, rs[j])), RouteTally(d, rs[i]))
  {
    var rs1 := rs[..i] + rs[i + 1..];
    SeqTallyRemoveAt(d, rs, i);
    RemoveTwice(rs, i, j);
    SeqTallyRemoveAt(d, rs1, j - 1);
  }

  /** Removing i, then the route that was j, is RemovePair. */
  lemma RemoveTwice(rs: seq<Route>, i: int, j: int)
    requires 0 <= i < j < |rs|
    ensures (rs[..i] + rs[i + 1..])[j - 1] == rs[j]
    ensures (rs[..i] + rs[i + 1..])[..j - 1] + (rs[..i] + rs[i + 1..])[j..] == RemovePair(rs, i, j)
  {
    var rs1 := rs[..i] + rs[i + 1..];
    assert rs1[..j - 1] == rs[..i] + rs[i + 1..j];
    assert rs1[j..] == rs[j + 1..];
  }

  /** One round of the re-merge: the routes are one fewer and cost exactly
      the gain less, so strictly less. */
  lemma JoinedCheaper(d: Matrix, dep: int, cap: int, minGain: int, rs: seq<Route>, i: int, j: int, k: int, rs': seq<Route>)
    requires Square(d) && 0 <= dep < |d| && AllMeasurable(d, rs)
    requires Eligible(d, dep, cap, minGain, rs, i, j, k)
    requires rs' == RemovePair(rs, i, j) + [Merged(rs[i], rs[j], Candidates(rs[i].stops, rs[j].stops, dep)[k])]
    ensures AllMeasurable(d, rs') && |rs'| == |rs| - 1
    ensures TotalCost(d, rs') == TotalCost(d, rs) - PairGain(d, dep, rs, i, j, k)
    ensures TotalCost(d, rs') < TotalCost(d, rs)
  {
    CandidatesValid(d, rs[i].stops, rs[j].stops, dep);
    JoinedTally(d, dep, rs, i, j, Candidates(rs[i].stops, rs[j].stops, dep)[k], PairGain(d, dep, rs, i, j, k), rs');
  }

  /** What the routes keep of the input's properties: if every input route
      fits, every route fits; if every input route is well formed, so is
      every route; if no two input routes share a service, no two routes
      do. */
  ghost predicate KeptSeq(routes: seq<Route>, dep: int, cap: int, rs: seq<Route>)
  {
    && ((forall r :: r in routes ==> r.demand <= cap) ==> forall r :: r in rs ==> r.demand <= cap)
    && ((forall r :: r in routes ==> WellFormed(r, dep)) ==> forall r :: r in rs ==> WellFormed(r, dep))
    && (PairwiseDisjoint(routes) ==> PairwiseDisjoint(rs))
  }

  /** The state of the re-merge after `merges` merges that gained `gained`
      together: the routes hold the input's clients, services and demand,
      one route fewer per merge, at the input's cost less the gains, each
      gain above 0 and above minGain, and they keep the input's
      properties. */
  ghost predicate RemergeState(d: Matrix, dep: int, cap: int, minGain: int, routes: seq<Route>,
                               rs: seq<Route>, merges: int, gained: int)
    requires Square(d) && AllMeasurable(d, routes)
  {
    && AllMeasurable(d, rs)
    && 0 <= merges && |rs| == |routes| - merges
    && SeqTally(d, rs) == Reduced(SeqTally(d, routes), merges, gained)
    && gained >= Scaled(merges, 1) && gained >= Scaled(merges, minGain + 1)
    && KeptSeq(routes, dep, cap, rs)
  }

  lemma RemergeStart(d: Matrix, dep: int, cap: int, minGain: int, routes: seq<Route>)
    requires Square(d) && AllMeasurable(d, routes)
    ensures RemergeState(d, dep, cap, minGain, routes, routes, 0, 0)
  {
    assert Reduced(SeqTally(d, routes), 0, 0) == SeqTally(d, routes);
  }

  /** The joined route keeps the properties the pair had. */
  lemma JoinedKeeps(d: Matrix, dep: int, cap: int, minGain: int, routes: seq<Route>, rs: seq<Route>,
                    i: int, j: int, k: int, stops: seq<int>, rs': seq<Route>)
    requires Square(d) && 0 <= dep < |d| && AllMeasurable(d, rs) && KeptSeq(routes, dep, cap, rs)
    requires Eligible(d, dep, cap, minGain, rs, i, j, k)
    requires stops == Candidates(rs[i].stops, rs[j].stops, dep)[k]
    requires rs' == RemovePair(rs, i, j) + [Merged(rs[i], rs[j], stops)]
    ensures KeptSeq(routes, dep, cap, rs')
  {
    var rest, r := RemovePair(rs, i, j), Merged(rs[i], rs[j], stops);
    RemovePairMembers(rs, i, j);
    assert forall x :: x in rs' <==> x in rest || x == r;
    if forall x :: x in routes ==> WellFormed(x, dep) {
      MergedWellFormed(d, dep, rs[i], rs[j], k);
    }
    if PairwiseDisjoint(routes) {
      JoinedDisjoint(rs, i, j, stops, rs');
    }
  }

  /** If no two routes share a service, joining two of them keeps it so. */
  lemma JoinedDisjoint(rs: seq<Route>, i: int, j: int, stops: seq<int>, rs': seq<Route>)
    requires 0 <= i < j < |rs| && PairwiseDisjoint(rs)
    requires rs' == RemovePair(rs, i, j) + [Merged(rs[i], rs[j], stops)]
    ensures PairwiseDisjoint(rs')
  {
    var n := |rs| - 2;
    forall a, b | 0 <= a < b < |rs'|
      ensures rs'[a].services !! rs'[b].services
    {
      var ta := if a < i then a else if a < j - 1 then a + 1 else a + 2;
      assert rs'[a] == rs[ta] && ta != i && ta != j;
      if b < n {
        var tb := if b < i then b else if b < j - 1 then b + 1 else b + 2;
        assert rs'[b] == rs[tb] && ta < tb;
      } else {
        assert rs'[b].services == rs[i].services + rs[j].services;
        if ta < i {
          assert rs[ta].services !! rs[i].services && rs[ta].services !! rs[j].services;
        } else if ta < j {
          assert rs[i].services !! rs[ta].services && rs[ta].services !! rs[j].services;
        } else {
          assert rs[i].services !! rs[ta].services && rs[j].services !! rs[ta].services;
        }
      }
    }
  }

  /** Replacing the pair by the joined route takes one route and the gain
      off the tally. */
  lemma JoinedTally(d: Matrix, dep: int, rs: seq<Route>, i: int, j: int, stops: seq<int>, gain: int, rs': seq<Route>)
    requires Square(d) && 0 <= dep < |d| && AllMeasurable(d, rs) && 0 <= i < j < |rs|
    requires |stops| >= 2 && ValidStops(d, stops)
    requires gain == JoinGain(d, rs[i].stops, rs[j].stops, stops)
    requires rs' == RemovePair(rs, i, j) + [Merged(rs[i], rs[j], stops)]
    ensures AllMeasurable(d, rs')
    ensures SeqTally(d, rs') == Reduced(SeqTally(d, rs), 1, gain)
  {
    var rest, r := RemovePair(rs, i, j), Merged(rs[i], rs[j], stops);
    RemovePairTally(d, rs, i, j);
    MergedTally(d, rs[i], rs[j], stops);
    SeqTallySnoc(d, rest, r);
    MergeAlgebra(SeqTally(d, rest), RouteTally(d, rs[i]), RouteTally(d, rs[j]), gain);
  }

  /** Joining the pair keeps the state, with one merge more and the gain
      added. */
  lemma RemergeStep(d: Matrix, dep: int, cap: int, minGain: int, routes: seq<Route>, rs: seq<Route>,
                    merges: int, gained: int, i: int, j: int, k: int, stops: seq<int>, gain: int,
                    rs': seq<Route>, merges': int, gained': int)
    requires Square(d) && 0 <= dep < |d| && AllMeasurable(d, routes)
    requires RemergeState(d, dep, cap, minGain, routes, rs, merges, gained)
    requires Eligible(d, dep, cap, minGain, rs, i, j, k)
    requires stops == Candidates(rs[i].stops, rs[j].stops, dep)[k]
    requires gain == PairGain(d, dep, rs, i, j, k)
    requires rs' == RemovePair(rs, i, j) + [Merged(rs[i], rs[j], stops)]
    requires merges' == merges + 1 && gained' == gained + gain
    ensures RemergeState(d, dep, cap, minGain, routes, rs', merges', gained')
  {
    CandidatesValid(d, rs[i].stops, rs[j].stops, dep);
    JoinedKeeps(d, dep, cap, minGain, routes, rs, i, j, k, stops, rs');
    StateStep(d, dep, cap, minGain, routes, rs, merges, gained, i, j, stops, gain, rs', merges', gained');
  }

  /** The arithmetic of one merge: the tally loses one route and the gain,
      and the gain counts towards both floors. */
  lemma StateStep(d: Matrix, dep: int, cap: int, minGain: int, routes: seq<Route>, rs: seq<Route>,
                  merges: int, gained: int, i: int, j: int, stops: seq<int>, gain: int,
                  rs': seq<Route>, merges': int, gained': int)
    requires Square(d) && 0 <= dep < |d| && AllMeasurable(d, routes)
    requires RemergeState(d, dep, cap, minGain, routes, rs, merges, gained)
    requires 0 <= i < j < |rs| && |stops| >= 2 && ValidStops(d, stops)
    requires gain == JoinGain(d, rs[i].stops, rs[j].stops, stops) && gain > 0 && gain > minGain
    requires rs' == RemovePair(rs, i, j) + [Merged(rs[i], rs[j], stops)]
    requires KeptSeq(routes, dep, cap, rs')
    requires merges' == merges + 1 && gained' == gained + gain
    ensures RemergeState(d, dep, cap, minGain, routes, rs', merges', gained')
  {
    JoinedTally(d, dep, rs, i, j, stops, gain, rs');
    assert Scaled(merges', 1) == Scaled(merges, 1) + 1;
    assert Scaled(merges', minGain + 1) == Scaled(merges, minGain + 1) + minGain + 1;
  }

  /** At the end the routes hold the input's clients, services and demand,
      and cost at least max(1, minGain + 1) less per route saved. */
  lemma RemergeFinish(d: Matrix, dep: int, cap: int, minGain: int, routes: seq<Route>,
                      rs: seq<Route>, merges: int, gained: int)
    requires Square(d) && AllMeasurable(d, routes)
    requires RemergeState(d, dep, cap, minGain, routes, rs, merges, gained)
    ensures multiset(AllClients(rs)) == multiset(AllClients(routes))
    ensures AllServices(rs) == AllServices(routes)
    ensures DemandTotal(rs) == DemandTotal(routes)
    ensures SavesPerMerge(d, routes, rs, 1)
    ensures SavesPerMerge(d, routes, rs, minGain + 1)
    ensures |rs| <= |routes|
    ensures (forall r :: r in routes ==> r.demand <= cap) ==> forall r :: r in rs ==> r.demand <= cap
    ensures (forall r :: r in routes ==> WellFormed(r, dep)) ==> forall r :: r in rs ==> WellFormed(r, dep)
    ensures PairwiseDisjoint(routes) ==> PairwiseDisjoint(rs)
  {
    GainFloor(d, routes, rs, merges, gained, 1);
    GainFloor(d, routes, rs, merges, gained, minGain + 1);
  }

  /** The re-merge: passes repeat while one joins a pair. Gains are
      integers, so "more than minGain" is "at least minGain + 1". */
  method Remerge(routes: seq<Route>, cap: int, d: Matrix, dep: int, minGain: int) returns (rs: seq<Route>)
    requires Square(d) && 0 <= dep < |d| && AllMeasurable(d, routes)
    ensures AllMeasurable(d, rs)
    ensures multiset(AllClients(rs)) == multiset(AllClients(routes))
    ensures AllServices(rs) == AllServices(routes)
    ensures DemandTotal(rs) == DemandTotal(routes)
    ensures |rs| <= |routes|
    ensures SavesPerMerge(d, routes, rs, 1)
    ensures SavesPerMerge(d, routes, rs, minGain + 1)
    ensures Converged(d, dep, cap, minGain, rs)
    ensures (forall r :: r in routes ==> r.demand <= cap) ==> forall r :: r in rs ==> r.demand <= cap
    ensures (forall r :: r in routes ==> WellFormed(r, dep)) ==> forall r :: r in rs ==> WellFormed(r, dep)
    ensures PairwiseDisjoint(routes) ==> PairwiseDisjoint(rs)
  {
    rs := routes;
    ghost var merges, gained := 0, 0;
    RemergeStart(d, dep, cap, minGain, routes);
    var changed := true;
    while changed
      invariant RemergeState(d, dep, cap, minGain, routes, rs, merges, gained)
      invariant !changed ==> Converged(d, dep, cap, minGain, rs)
      decreases |rs| + (if changed then 1 else 0)
    {
      changed := false;
      var best, bestGain, k := BestPair(d, dep, cap, minGain, rs);
      if best.Some? {
        var i, j := best.value.a, best.value.b;
        var joined := Merged(rs[i], rs[j], best.value.stops);
        ghost var rs0, merges0, gained0 := rs, merges, gained;
        rs := RemovePair(rs, i, j) + [joined];
        merges, gained := merges + 1, gained + bestGain;
        RemergeStep(d, dep, cap, minGain, routes, rs0, merges0, gained0, i, j, k, best.value.stops, bestGain,
                    rs, merges, gained);
        changed := true;
      }
    }
    RemergeFinish(d, dep, cap, minGain, routes, rs, merges, gained);
  }
}
