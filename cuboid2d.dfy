/** `Cuboid2D`: a centre and 8 vertex slots (a slot may be null) in the fixed
    vertex order of the cuboid, plus the 12 edges built from them. */
module Cuboids2D {
  import opened Wrappers
  import opened Points
  import opened Edges

  const VertexCount: nat := 8

  /** The fields `equals` and `hashCode` look at. The other fields of the Java
      class (`v1` .. `v8`, the edges, the two counts) are functions of these:
      `vK` is `vertices[K - 1]`. */
  datatype Cuboid2D = Cuboid2D(center: Point2D, vertices: seq<Option<Point2D>>)

  predicate Valid(c: Cuboid2D)
  {
    |c.vertices| == VertexCount
  }

  /** Vertex indices of the 12 edges in the order the constructor builds them:
      front ring 1-2-3-4, back ring 5-6-7-8, then the connectors 1-5, 2-6,
      3-7, 4-8 (0-based here). */
  const EdgeEnds: seq<(nat, nat)> :=
    [(0, 1), (1, 2), (2, 3), (3, 0),
     (4, 5), (5, 6), (6, 7), (7, 4),
     (0, 4), (1, 5), (2, 6), (3, 7)]

  predicate AllPresent(vertices: seq<Option<Point2D>>)
  {
    forall i :: 0 <= i < |vertices| ==> vertices[i].Some?
  }

  /** Whether building edge `k` from `vertices` dereferences a null. */
  predicate EdgeHasNull(vertices: seq<Option<Point2D>>, k: nat)
    requires |vertices| == VertexCount && k < |EdgeEnds|
  {
    vertices[EdgeEnds[k].0].None? || vertices[EdgeEnds[k].1].None?
  }

  /** Every vertex is an endpoint of some edge. */
  lemma EveryVertexOnAnEdge(i: nat)
    requires i < VertexCount
    ensures exists k :: 0 <= k < |EdgeEnds| && (EdgeEnds[k].0 == i || EdgeEnds[k].1 == i)
  {
    assert EdgeEnds[if i < 4 then i else i - 4 + 4].0 == i;
  }

  /** The `Cuboid2D(center, vertices)` constructor. It checks the vertex count,
      then builds the 12 edges; `Edge2D` dereferences both endpoints, so, as
      written, a null vertex makes construction fail. */
  function NewCuboid2D(center: Point2D, vertices: seq<Option<Point2D>>): (r: Result<Cuboid2D>)
    ensures |vertices| != VertexCount ==> r == Failure(PreconditionException("Cuboid requires 8 vertices"))
    ensures |vertices| == VertexCount ==> (r.Success? <==> AllPresent(vertices))
    ensures |vertices| == VertexCount && r.Failure? ==> r.error == NullPointerException
    ensures r.Success? ==> r.value == Cuboid2D(center, vertices) && Valid(r.value)
  {
    if |vertices| != VertexCount then
      Failure(PreconditionException("Cuboid requires 8 vertices"))
    else if exists k :: 0 <= k < |EdgeEnds| && EdgeHasNull(vertices, k) then
      Failure(NullPointerException)
    else
      assert AllPresent(vertices) by {
        forall i | 0 <= i < VertexCount
          ensures vertices[i].Some?
        {
          EveryVertexOnAnEdge(i);
          var k :| 0 <= k < |EdgeEnds| && (EdgeEnds[k].0 == i || EdgeEnds[k].1 == i);
          assert !EdgeHasNull(vertices, k);
        }
      }
      Success(Cuboid2D(center, vertices))
  }

  /** `getEdges()`: edge `k` joins the vertices `EdgeEnds[k]`, endpoints in
      comparator order. */
  function GetEdges(c: Cuboid2D): (es: seq<Edge2D>)
    requires Valid(c) && AllPresent(c.vertices)
    ensures |es| == 12
    ensures forall k :: 0 <= k < 12 ==>
              multiset{es[k].a, es[k].b}
              == multiset{c.vertices[EdgeEnds[k].0].value, c.vertices[EdgeEnds[k].1].value}
    ensures forall k :: 0 <= k < 12 ==> Compare(es[k].a, es[k].b) <= 0
  {
    seq(12, k requires 0 <= k < 12 =>
      NewEdge(c.vertices[EdgeEnds[k].0], c.vertices[EdgeEnds[k].1]).value)
  }

  /** `getMissingVertexCount()`: the number of null vertices. */
  function MissingVertexCount(c: Cuboid2D): nat
  {
    CountNone(c.vertices)
  }

  /** `getAvailableVertexCount()`: 8 minus the number of null vertices. */
  function AvailableVertexCount(c: Cuboid2D): int
  {
    VertexCount - CountNone(c.vertices)
  }

  /** The available count is the number of present vertices, and the two
      counts add up to 8. */
  lemma VertexCounts(c: Cuboid2D)
    requires Valid(c)
    ensures AvailableVertexCount(c) == CountSome(c.vertices)
    ensures AvailableVertexCount(c) + MissingVertexCount(c) == VertexCount
    ensures 0 <= MissingVertexCount(c) <= VertexCount
    ensures MissingVertexCount(c) == 0 <==> AllPresent(c.vertices)
  {
    CountNonePlusCountSome(c.vertices);
    CountNoneBounded(c.vertices);
  }

  /** Every successfully built cuboid has all 8 vertices: the null slots the
      class comment allows cannot get past the edge construction. */
  lemma BuiltCuboidHasNoMissingVertex(center: Point2D, vertices: seq<Option<Point2D>>)
    requires NewCuboid2D(center, vertices).Success?
    ensures MissingVertexCount(NewCuboid2D(center, vertices).value) == 0
    ensures AvailableVertexCount(NewCuboid2D(center, vertices).value) == VertexCount
  {
    CountNoneBounded(vertices);
  }
}
