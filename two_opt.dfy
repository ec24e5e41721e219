/** Intra-route 2-opt: reversing a segment of the stop sequence when that
    shortens it, keeping the depot stops and the last hop in place. */
module TwoOpt {
  import opened Types
  import opened Costs
  import opened Sequences

  /** Routes with more stops than this are left as they are. */
  const MaxStopsFor2Opt := 20

  /** s with the segment s[i..j] reversed. */
  function ReverseSegment(s: seq<int>, i: int, j: int): seq<int>
    requires 0 <= i <= j <= |s|
  {
    s[..i] + Reverse(s[i..j]) + s[j..]
  }

  /** The move leaves s outside [i, j) alone and mirrors it inside. */
  lemma ReverseSegmentAt(s: seq<int>, i: int, j: int, k: int)
    requires 0 <= i <= j <= |s| && 0 <= k < |s|
    ensures |ReverseSegment(s, i, j)| == |s|
    ensures ReverseSegment(s, i, j)[k] == if i <= k < j then s[i + j - 1 - k] else s[k]
  {
    if i <= k < j {
      ReverseAt(s[i..j], k - i);
    }
  }

  /** The reversals a pass tries: the segment [i, j) starts after the first
      stop, holds at least two stops and leaves the last two stops alone. */
  predicate IsMove(s: seq<int>, i: int, j: int)
  {
    1 <= i && i + 2 <= j && j <= |s| - 2
  }

  /** The transport cost of s after the move (i, j). */
  function MoveCost(d: Matrix, s: seq<int>, i: int, j: int): int
    requires Square(d) && ValidStops(d, s) && IsMove(s, i, j)
  {
    MoveKeepsFrame(s, i, j);
    SameFrameValid(d, s, ReverseSegment(s, i, j));
    TransportCost(d, ReverseSegment(s, i, j))
  }

  /** No move (i, j) makes s cheaper: 2-opt has nothing left to do. */
  ghost predicate LocallyOptimal(d: Matrix, s: seq<int>)
    requires Square(d) && ValidStops(d, s)
  {
    forall i, j :: IsMove(s, i, j) ==> MoveCost(d, s, i, j) >= TransportCost(d, s)
  }

  /** What 2-opt with at most maxIter passes makes of s: with no pass
      allowed s stays as it is; otherwise t is locally optimal, or each of
      the maxIter passes improved the cost, by one unit at least. */
  ghost predicate TwoOptOutcome(d: Matrix, maxIter: int, s: seq<int>, t: seq<int>)
    requires Square(d) && ValidStops(d, s) && ValidStops(d, t)
  {
    && (maxIter <= 0 ==> t == s)
    && (maxIter > 0 ==> LocallyOptimal(d, t) || TransportCost(d, t) <= TransportCost(d, s) - maxIter)
  }

  /** t is a rearrangement of s that keeps its first stop and its last two
      stops in place. */
  ghost predicate SameFrame(s: seq<int>, t: seq<int>)
  {
    && |t| == |s|
    && multiset(t) == multiset(s)
    && forall k :: 0 <= k < |s| && (k == 0 || k >= |s| - 2) ==> t[k] == s[k]
  }

  lemma SameFrameRefl(s: seq<int>)
    ensures SameFrame(s, s)
  {
  }

  lemma SameFrameTrans(s: seq<int>, t: seq<int>, u: seq<int>)
    requires SameFrame(s, t) && SameFrame(t, u)
    ensures SameFrame(s, u)
  {
  }

  /** A rearrangement of valid stops is made of valid stops. */
  lemma SameFrameValid(d: Matrix, s: seq<int>, t: seq<int>)
    requires ValidStops(d, s) && SameFrame(s, t)
    ensures ValidStops(d, t)
  {
    forall k | 0 <= k < |t|
      ensures 0 <= t[k] < |d|
    {
      assert t[k] in multiset(s);
      var m :| 0 <= m < |s| && s[m] == t[k];
    }
  }

  /** Every move keeps the frame. */
  lemma MoveKeepsFrame(s: seq<int>, i: int, j: int)
    requires IsMove(s, i, j)
    ensures SameFrame(s, ReverseSegment(s, i, j))
  {
    var t := ReverseSegment(s, i, j);
    ReverseMultiset(s[i..j]);
    assert s == s[..i] + s[i..j] + s[j..];
    assert t[0] == s[0];
    assert t[|s| - 2..] == s[|s| - 2..] by {
      assert t[j..] == s[j..];
    }
    forall k | 0 <= k < |s| && (k == 0 || k >= |s| - 2)
      ensures t[k] == s[k]
    {
      if k > 0 {
        assert t[k] == t[|s| - 2..][k - (|s| - 2)];
      }
    }
  }

  /** A rearrangement that keeps the frame keeps a route well formed: the
      depot stays at both ends and the interior keeps its stops. */
  lemma SameFrameKeepsWellFormed(r: Route, t: seq<int>, dep: int)
    requires WellFormed(r, dep) && SameFrame(r.stops, t)
    ensures WellFormed(r.(stops := t), dep)
  {
    FrameInterior(r.stops, t);
  }

  lemma FrameInterior(s: seq<int>, t: seq<int>)
    requires |s| >= 2 && SameFrame(s, t)
    ensures t[0] == s[0] && t[|t| - 1] == s[|s| - 1]
    ensures multiset(Interior(t)) == multiset(Interior(s))
  {
    var n := |s|;
    assert s == [s[0]] + Interior(s) + [s[n - 1]];
    assert t == [t[0]] + Interior(t) + [t[n - 1]];
    assert t[0] == s[0] && t[n - 1] == s[n - 1];
    assert multiset(s) == multiset{s[0]} + multiset(Interior(s)) + multiset{s[n - 1]};
    assert multiset(t) == multiset{s[0]} + multiset(Interior(t)) + multiset{s[n - 1]};
    forall x
      ensures multiset(Interior(t))[x] == multiset(Interior(s))[x]
    {
      assert multiset(t)[x] == multiset(s)[x];
    }
  }

  /** 2-opt with the best improvement of a pass: every pass tries each move
      on the sequence at the start of the pass and keeps the cheapest
      candidate that is strictly below the best so far; passes repeat while
      one improved, at most maxIter times. `passes` counts the passes run.
      A run that stops before maxIter passes ends locally optimal. */
  method TwoOpt(s0: seq<int>, d: Matrix, maxIter: int) returns (best: seq<int>, bestCost: int, ghost passes: nat)
    requires Square(d) && ValidStops(d, s0)
    ensures SameFrame(s0, best) && ValidStops(d, best)
    ensures bestCost == TransportCost(d, best)
    ensures bestCost <= TransportCost(d, s0)
    ensures best != s0 ==> bestCost < TransportCost(d, s0)
    ensures passes <= if maxIter < 0 then 0 else maxIter
    ensures passes > 0 ==> bestCost <= TransportCost(d, s0) - (passes - 1)
    ensures maxIter <= 0 ==> best == s0
    ensures passes < maxIter ==> LocallyOptimal(d, best)
    ensures TwoOptOutcome(d, maxIter, s0, best)
  {
    var s := s0;
    best := s0;
    bestCost := TransportCost(d, s0);
    var iter := 0;
    var improved := true;
    SameFrameRefl(s0);
    while improved && iter < maxIter
      invariant s == best && SameFrame(s0, best) && ValidStops(d, best)
      invariant bestCost == TransportCost(d, best) <= TransportCost(d, s0)
      invariant best != s0 ==> bestCost < TransportCost(d, s0)
      invariant 0 <= iter && (maxIter <= 0 ==> iter == 0) && (maxIter > 0 ==> iter <= maxIter)
      invariant improved || iter > 0
      invariant iter == 0 ==> best == s0
      invariant bestCost <= TransportCost(d, s0) - (if improved then iter else iter - 1)
      invariant !improved ==> LocallyOptimal(d, best)
      decreases maxIter - iter
    {
      iter := iter + 1;
      best, bestCost, improved := Pass(d, s0, s, bestCost);
      s := best;
    }
    passes := iter;
  }

  /** The move (a, b) costs c and every move before it, in the order a pass
      scans them, costs strictly more: a pass that only takes a move strictly
      below its best so far ends on the first of the cheapest moves. */
  ghost predicate FirstCheapest(d: Matrix, s: seq<int>, a: int, b: int, c: int)
    requires Square(d) && ValidStops(d, s)
  {
    && IsMove(s, a, b) && MoveCost(d, s, a, b) == c
    && forall a', b' :: IsMove(s, a', b') && (a' < a || (a' == a && b' < b)) ==> MoveCost(d, s, a', b') > c
  }

  /** Where a pass over the moves of s stands before the move (i, j): best
      and bestCost are the cheapest of s and the moves tried so far, found
      strictly below the earlier best; improved says a move was taken. */
  ghost predicate PassState(d: Matrix, s0: seq<int>, s: seq<int>, i: int, j: int,
                            best: seq<int>, bestCost: int, improved: bool)
    requires Square(d) && ValidStops(d, s)
  {
    && SameFrame(s0, best) && ValidStops(d, best)
    && bestCost == TransportCost(d, best) <= TransportCost(d, s)
    && (improved <==> bestCost < TransportCost(d, s))
    && (!improved ==> best == s)
    && (improved ==> exists a, b :: FirstCheapest(d, s, a, b, bestCost) && best == ReverseSegment(s, a, b))
    && forall a, b :: IsMove(s, a, b) && (a < i || (a == i && b < j)) ==> MoveCost(d, s, a, b) >= bestCost
  }

  /** One pass: the cheapest of s and all its moves, the first cheapest move
      in scan order when one is cheaper than s; improved exactly then. */
  method Pass(d: Matrix, s0: seq<int>, s: seq<int>, cost: int) returns (best: seq<int>, bestCost: int, improved: bool)
    requires Square(d) && ValidStops(d, s) && SameFrame(s0, s) && cost == TransportCost(d, s)
    ensures SameFrame(s0, best) && ValidStops(d, best)
    ensures bestCost == TransportCost(d, best) <= cost
    ensures improved <==> bestCost < cost
    ensures !improved ==> best == s
    ensures improved ==> exists a, b :: FirstCheapest(d, s, a, b, bestCost) && best == ReverseSegment(s, a, b)
    ensures forall a, b :: IsMove(s, a, b) ==> MoveCost(d, s, a, b) >= bestCost
    ensures !improved ==> LocallyOptimal(d, best)
  {
    best, bestCost, improved := s, cost, false;
    var i := 1;
    while i < |s| - 2
      invariant 1 <= i && PassState(d, s0, s, i, 0, best, bestCost, improved)
    {
      best, bestCost, improved := ScanRow(d, s0, s, i, best, bestCost, improved);
      i := i + 1;
    }
  }

  /** Tries the moves (i, j) of one row, j from i + 1 up, skipping j == i + 1. */
  method ScanRow(d: Matrix, s0: seq<int>, s: seq<int>, i: int, best0: seq<int>, bestCost0: int, improved0: bool)
    returns (best: seq<int>, bestCost: int, improved: bool)
    requires Square(d) && ValidStops(d, s) && SameFrame(s0, s) && 1 <= i
    requires PassState(d, s0, s, i, 0, best0, bestCost0, improved0)
    ensures PassState(d, s0, s, i + 1, 0, best, bestCost, improved)
  {
    best, bestCost, improved := best0, bestCost0, improved0;
    var j := i + 1;
    RowStart(d, s0, s, i, best, bestCost, improved);
    while j < |s| - 1
      invariant i + 1 <= j && PassState(d, s0, s, i, j, best, bestCost, improved)
    {
      if j - i != 1 {
        var cand := ReverseSegment(s, i, j);
        MoveKeepsFrame(s, i, j);
        SameFrameTrans(s0, s, cand);
        SameFrameValid(d, s, cand);
        var c := TransportCost(d, cand);
        if c < bestCost {
          TakeMove(d, s0, s, i, j, best, bestCost, improved);
          best, bestCost, improved := cand, c, true;
        } else {
          KeepBest(d, s0, s, i, j, best, bestCost, improved);
        }
      } else {
        KeepBest(d, s0, s, i, j, best, bestCost, improved);
      }
      j := j + 1;
    }
    RowEnd(d, s0, s, i, j, best, bestCost, improved);
  }

  lemma RowStart(d: Matrix, s0: seq<int>, s: seq<int>, i: int, best: seq<int>, bestCost: int, improved: bool)
    requires Square(d) && ValidStops(d, s) && PassState(d, s0, s, i, 0, best, bestCost, improved)
    ensures PassState(d, s0, s, i, i + 1, best, bestCost, improved)
  {
  }

  lemma RowEnd(d: Matrix, s0: seq<int>, s: seq<int>, i: int, j: int, best: seq<int>, bestCost: int, improved: bool)
    requires Square(d) && ValidStops(d, s) && j >= |s| - 1 && PassState(d, s0, s, i, j, best, bestCost, improved)
    ensures PassState(d, s0, s, i + 1, 0, best, bestCost, improved)
  {
  }

  /** A move no cheaper than the best so far, or no move at all, leaves
      the best as it is. */
  lemma KeepBest(d: Matrix, s0: seq<int>, s: seq<int>, i: int, j: int, best: seq<int>, bestCost: int, improved: bool)
    requires Square(d) && ValidStops(d, s) && PassState(d, s0, s, i, j, best, bestCost, improved)
    requires IsMove(s, i, j) ==> MoveCost(d, s, i, j) >= bestCost
    ensures PassState(d, s0, s, i, j + 1, best, bestCost, improved)
  {
  }

  /** A move cheaper than the best so far becomes the best. */
  lemma TakeMove(d: Matrix, s0: seq<int>, s: seq<int>, i: int, j: int, best: seq<int>, bestCost: int, improved: bool)
    requires Square(d) && ValidStops(d, s) && SameFrame(s0, s) && PassState(d, s0, s, i, j, best, bestCost, improved)
    requires IsMove(s, i, j) && MoveCost(d, s, i, j) < bestCost
    ensures SameFrame(s0, ReverseSegment(s, i, j)) && ValidStops(d, ReverseSegment(s, i, j))
    ensures PassState(d, s0, s, i, j + 1, ReverseSegment(s, i, j), MoveCost(d, s, i, j), true)
  {
    var cand := ReverseSegment(s, i, j);
    MoveKeepsFrame(s, i, j);
    SameFrameTrans(s0, s, cand);
    SameFrameValid(d, s, cand);
    assert FirstCheapest(d, s, i, j, MoveCost(d, s, i, j));
  }

  /** Applies 2-opt to the stop sequence of every route with at most
      MaxStopsFor2Opt stops, in place; nothing but those sequences changes. */
  method ApplyTwoOptAll(routes: array<Route>, d: Matrix, maxIter: int)
    requires Square(d)
    requires forall k :: 0 <= k < routes.Length ==> ValidStops(d, routes[k].stops)
    modifies routes
    ensures forall k :: 0 <= k < routes.Length ==> Rewritten(d, maxIter, old(routes[k]), routes[k])
    ensures forall k :: 0 <= k < routes.Length && maxIter <= 0 ==> routes[k] == old(routes[k])
  {
    var k := 0;
    while k < routes.Length
      invariant 0 <= k <= routes.Length
      invariant forall t :: 0 <= t < k ==> Rewritten(d, maxIter, old(routes[t]), routes[t])
      invariant forall t :: 0 <= t < k && maxIter <= 0 ==> routes[t] == old(routes[t])
      invariant forall t :: k <= t < routes.Length ==> routes[t] == old(routes[t])
    {
      var r := routes[k];
      if |r.stops| <= MaxStopsFor2Opt {
        var best, _, _ := TwoOpt(r.stops, d, maxIter);
        routes[k] := r.(stops := best);
      } else {
        SameFrameRefl(r.stops);
      }
      k := k + 1;
    }
  }

  /** What 2-opt with at most maxIter passes does to a route: only its stop
      sequence changes, only when it is short enough, within the frame, never
      at a higher cost, and a short route ends as TwoOptOutcome says. */
  ghost predicate Rewritten(d: Matrix, maxIter: int, r: Route, r': Route)
    requires Square(d) && ValidStops(d, r.stops)
  {
    && r'.clients == r.clients && r'.demand == r.demand && r'.services == r.services
    && (|r.stops| > MaxStopsFor2Opt ==> r'.stops == r.stops)
    && SameFrame(r.stops, r'.stops) && ValidStops(d, r'.stops)
    && RouteCost(d, r') <= RouteCost(d, r)
    && (|r.stops| <= MaxStopsFor2Opt ==> TwoOptOutcome(d, maxIter, r.stops, r'.stops))
  }

  /** 2-opt keeps a well-formed route well formed and its cost from going up. */
  lemma RewrittenKeepsWellFormed(d: Matrix, maxIter: int, r: Route, r': Route, dep: int)
    requires Square(d) && ValidStops(d, r.stops) && Rewritten(d, maxIter, r, r') && WellFormed(r, dep)
    ensures WellFormed(r', dep)
  {
    SameFrameKeepsWellFormed(r, r'.stops, dep);
    assert r' == r.(stops := r'.stops);
  }
}
