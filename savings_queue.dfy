/** The savings list: entries (-saving, i, j) kept as a min-priority queue,
    ordered lexicographically the way tuples compare, so that the entry
    popped first carries the largest saving. The queue is a sorted sequence;
    how a binary heap lays it out in memory is not modelled. */
module SavingsQueue {

  datatype Entry = Entry(negSaving: int, i: int, j: int)

  /** Lexicographic order on (negSaving, i, j). */
  predicate Le(a: Entry, b: Entry)
  {
    || a.negSaving < b.negSaving
    || (a.negSaving == b.negSaving && (a.i < b.i || (a.i == b.i && a.j <= b.j)))
  }

  predicate Sorted(q: seq<Entry>)
  {
    forall a, b :: 0 <= a < b < |q| ==> Le(q[a], q[b])
  }

  /** Push: the entry goes where the order puts it. */
  function Insert(q: seq<Entry>, e: Entry): (r: seq<Entry>)
    ensures multiset(r) == multiset(q) + multiset{e}
  {
    if q == [] then [e]
    else if Le(e, q[0]) then [e] + q
    else
      assert q == [q[0]] + q[1..];
      [q[0]] + Insert(q[1..], e)
  }

  /** Pushing keeps the queue in order. */
  lemma {:induction false} InsertSorted(q: seq<Entry>, e: Entry)
    requires Sorted(q)
    ensures Sorted(Insert(q, e))
  {
    if q != [] && !Le(e, q[0]) {
      var rest := Insert(q[1..], e);
      InsertSorted(q[1..], e);
      forall x | x in rest
        ensures Le(q[0], x)
      {
        assert x in multiset(rest);
        if x != e {
          assert x in q[1..];
        }
      }
    }
  }

  /** After a push the queue holds the old entries and the new one. */
  lemma InsertMembers(q: seq<Entry>, e: Entry)
    ensures forall x :: x in Insert(q, e) <==> x in q || x == e
  {
    forall x
      ensures x in Insert(q, e) <==> x in q || x == e
    {
      assert x in Insert(q, e) <==> x in multiset(Insert(q, e));
    }
  }

  /** The entry popped first is below every other entry, so the saving it
      carries is the largest in the queue. */
  lemma PopIsBest(q: seq<Entry>, e: Entry)
    requires Sorted(q) && q != [] && e in q
    ensures Le(q[0], e)
    ensures -q[0].negSaving >= -e.negSaving
  {
  }

  /** A sorted queue is determined by its contents: the order in which the
      entries were pushed does not matter. */
  lemma {:induction false} SortedUnique(p: seq<Entry>, q: seq<Entry>)
    requires Sorted(p) && Sorted(q) && multiset(p) == multiset(q)
    ensures p == q
  {
    if p != [] {
      assert p[0] in multiset(q);
      assert p[0] in q;
      assert q != [];
      assert q[0] in multiset(p);
      assert q[0] in p;
      LeAntisymmetric(p[0], q[0]);
      assert p == [p[0]] + p[1..] && q == [q[0]] + q[1..];
      assert multiset(p) == multiset{p[0]} + multiset(p[1..]);
      assert multiset(q) == multiset{p[0]} + multiset(q[1..]);
      assert multiset(p[1..]) == multiset(p) - multiset{p[0]};
      SortedUnique(p[1..], q[1..]);
    } else {
      assert |q| == |multiset(q)| == 0;
    }
  }

  lemma LeAntisymmetric(a: Entry, b: Entry)
    requires Le(a, b) && Le(b, a)
    ensures a == b
  {
  }
}
