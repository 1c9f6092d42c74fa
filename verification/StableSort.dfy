/** A stable sort by a total preorder, as a language's own sort is specified. */
module StableSort {

  ghost predicate TotalPreorder<T(!new)>(leq: (T, T) -> bool) {
    && (forall a, b :: leq(a, b) || leq(b, a))
    && (forall a, b, c :: leq(a, b) && leq(b, c) ==> leq(a, c))
  }

  function Insert<T>(sorted: seq<T>, x: T, leq: (T, T) -> bool): (r: seq<T>)
    ensures multiset(r) == multiset(sorted) + multiset{x} && |r| == |sorted| + 1
  {
    if sorted == [] then [x]
    else if leq(sorted[|sorted| - 1], x) then sorted + [x]
    else
      assert sorted == sorted[..|sorted| - 1] + [sorted[|sorted| - 1]];
      Insert(sorted[..|sorted| - 1], x, leq) + [sorted[|sorted| - 1]]
  }

  function Sort<T>(s: seq<T>, leq: (T, T) -> bool): (r: seq<T>)
    ensures multiset(r) == multiset(s) && |r| == |s|
  {
    if s == [] then []
    else
      assert s == s[..|s| - 1] + [s[|s| - 1]];
      Insert(Sort(s[..|s| - 1], leq), s[|s| - 1], leq)
  }

  ghost predicate Ordered<T>(s: seq<T>, leq: (T, T) -> bool) {
    forall i, j :: 0 <= i < j < |s| ==> leq(s[i], s[j])
  }

  lemma {:induction false} InsertOrders<T(!new)>(sorted: seq<T>, x: T, leq: (T, T) -> bool)
    requires TotalPreorder(leq) && Ordered(sorted, leq)
    ensures Ordered(Insert(sorted, x, leq), leq)
  {
    if sorted != [] {
      var front, last := sorted[..|sorted| - 1], sorted[|sorted| - 1];
      if leq(last, x) {
        forall i | 0 <= i < |sorted| ensures leq(sorted[i], x) {
          assert i == |sorted| - 1 || leq(sorted[i], last);
        }
      } else {
        InsertOrders(front, x, leq);
        var r := Insert(front, x, leq);
        forall i | 0 <= i < |r| ensures leq(r[i], last) {
          assert r[i] in multiset(r);
          assert r[i] == x || r[i] in multiset(front);
          if r[i] in multiset(front) {
            var k :| 0 <= k < |front| && front[k] == r[i];
            assert front[k] == sorted[k];
          }
        }
      }
    }
  }

  lemma {:induction false} SortOrders<T(!new)>(s: seq<T>, leq: (T, T) -> bool)
    requires TotalPreorder(leq)
    ensures Ordered(Sort(s, leq), leq)
  {
    if s != [] {
      SortOrders(s[..|s| - 1], leq);
      InsertOrders(Sort(s[..|s| - 1], leq), s[|s| - 1], leq);
    }
  }

  /** The elements of one tie, in the order they come. */
  function Tied<T>(s: seq<T>, x: T, leq: (T, T) -> bool): seq<T> {
    if s == [] then []
    else
      var last := s[|s| - 1];
      Tied(s[..|s| - 1], x, leq) + (if leq(last, x) && leq(x, last) then [last] else [])
  }

  /** What an element at the end adds to a tie. */
  function TiesWith<T>(y: T, x: T, leq: (T, T) -> bool): seq<T> {
    if leq(y, x) && leq(x, y) then [y] else []
  }

  lemma TiedLast<T>(s: seq<T>, y: T, x: T, leq: (T, T) -> bool)
    ensures Tied(s + [y], x, leq) == Tied(s, x, leq) + TiesWith(y, x, leq)
  {
    assert (s + [y])[..|s|] == s;
  }

  lemma OneTiesAtMost<T(!new)>(a: T, b: T, x: T, leq: (T, T) -> bool)
    requires TotalPreorder(leq) && !leq(a, b)
    ensures TiesWith(a, x, leq) == [] || TiesWith(b, x, leq) == []
  {
  }

  lemma EitherOrder<T>(front: seq<T>, a: seq<T>, b: seq<T>)
    requires a == [] || b == []
    ensures front + a + b == front + b + a
  {
  }

  lemma InsertsAtTheEnd<T(!new)>(sorted: seq<T>, y: T, x: T, leq: (T, T) -> bool)
    requires sorted == [] || leq(sorted[|sorted| - 1], y)
    ensures Tied(Insert(sorted, y, leq), x, leq) == Tied(sorted, x, leq) + TiesWith(y, x, leq)
  {
    assert Insert(sorted, y, leq) == sorted + [y];
    TiedLast(sorted, y, x, leq);
  }

  lemma InsertsInFront<T(!new)>(front: seq<T>, last: T, y: T, x: T, leq: (T, T) -> bool)
    requires !leq(last, y)
    ensures Tied(Insert(front + [last], y, leq), x, leq) == Tied(Insert(front, y, leq), x, leq) + TiesWith(last, x, leq)
  {
    assert (front + [last])[..|front|] == front;
    TiedLast(Insert(front, y, leq), last, x, leq);
  }

  lemma {:induction false} InsertIsStable<T(!new)>(sorted: seq<T>, y: T, x: T, leq: (T, T) -> bool)
    requires TotalPreorder(leq)
    ensures Tied(Insert(sorted, y, leq), x, leq) == Tied(sorted, x, leq) + TiesWith(y, x, leq)
    decreases |sorted|
  {
    if sorted == [] || leq(sorted[|sorted| - 1], y) {
      InsertsAtTheEnd(sorted, y, x, leq);
    } else {
      var front, last := sorted[..|sorted| - 1], sorted[|sorted| - 1];
      assert sorted == front + [last];
      InsertIsStable(front, y, x, leq);
      InsertsInFront(front, last, y, x, leq);
      TiedLast(front, last, x, leq);
      OneTiesAtMost(last, y, x, leq);
      EitherOrder(Tied(front, x, leq), TiesWith(y, x, leq), TiesWith(last, x, leq));
    }
  }

  /** Elements that tie keep the order they came in. */
  lemma {:induction false} SortIsStable<T(!new)>(s: seq<T>, x: T, leq: (T, T) -> bool)
    requires TotalPreorder(leq)
    ensures Tied(Sort(s, leq), x, leq) == Tied(s, x, leq)
  {
    if s != [] {
      var front, last := s[..|s| - 1], s[|s| - 1];
      SortIsStable(front, x, leq);
      InsertIsStable(Sort(front, leq), last, x, leq);
    }
  }
}
