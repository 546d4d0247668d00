/** `Edge2D`: an undirected edge between two `Point2D`s whose endpoints are
    stored in `Point2D.COMPARATOR` order. */
module Edges {
  import opened Wrappers
  import opened Points

  /** The two stored endpoints; equality is that of both endpoints, as in
      `Edge2D.equals`. */
  datatype Edge2D = Edge2D(a: Point2D, b: Point2D)

  /** The `Edge2D(a, b)` constructor. The comparator dereferences both
      arguments, so a null endpoint throws. */
  function NewEdge(a: Option<Point2D>, b: Option<Point2D>): (r: Result<Edge2D>)
    ensures r.Success? <==> a.Some? && b.Some?
    ensures r.Failure? ==> r.error == NullPointerException
    ensures r.Success? ==> Compare(r.value.a, r.value.b) <= 0
    ensures r.Success? ==> multiset{r.value.a, r.value.b} == multiset{a.value, b.value}
    ensures r.Success? && Compare(a.value, b.value) <= 0 ==> r.value == Edge2D(a.value, b.value)
  {
    if a.None? || b.None? then
      Failure(NullPointerException)
    else
      var swap := Compare(a.value, b.value) > 0;
      Success(Edge2D(if swap then b.value else a.value, if swap then a.value else b.value))
  }

  /** The edge does not depend on the order of its endpoints. */
  lemma EdgeIsUndirected(a: Option<Point2D>, b: Option<Point2D>)
    ensures NewEdge(a, b) == NewEdge(b, a)
  {
    if a.Some? && b.Some? {
      CompareIsTotalOrder(a.value, b.value, b.value);
    }
  }

  /** Two edges are equal exactly when they join the same two points. */
  lemma EdgeEquality(a: Point2D, b: Point2D, c: Point2D, d: Point2D)
    ensures NewEdge(Some(a), Some(b)) == NewEdge(Some(c), Some(d))
            <==> multiset{a, b} == multiset{c, d}
  {
    var e, f := NewEdge(Some(a), Some(b)).value, NewEdge(Some(c), Some(d)).value;
    if multiset{a, b} == multiset{c, d} {
      assert (a == c && b == d) || (a == d && b == c) by {
        assert a in multiset{c, d};
        if a == c {
          assert multiset{a, b} - multiset{a} == multiset{c, d} - multiset{c};
        } else {
          assert a == d;
          assert multiset{a, b} - multiset{a} == multiset{c, d} - multiset{d};
        }
      }
      EdgeIsUndirected(Some(c), Some(d));
    }
  }
}
