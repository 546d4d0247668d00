/** `Cuboid3D`: the 3D cuboid model of an object, a centre and 8 vertex slots
    in the same order as `Cuboid2D`. */
module Cuboids3D {
  import opened Wrappers
  import opened Points

  const VertexCount: nat := 8

  /** The fields `equals` and `hashCode` look at; `vK` is `vertices[K - 1]`. */
  datatype Cuboid3D = Cuboid3D(center: Point3D, vertices: seq<Option<Point3D>>)

  predicate Valid(c: Cuboid3D)
  {
    |c.vertices| == VertexCount
  }

  predicate AllPresent(vertices: seq<Option<Point3D>>)
  {
    forall i :: 0 <= i < |vertices| ==> vertices[i].Some?
  }

  /** The `Cuboid3D(center, List)` constructor: it checks the count only, so
      null vertices are accepted. */
  function NewCuboid3D(center: Point3D, vertices: seq<Option<Point3D>>): (r: Result<Cuboid3D>)
    ensures r.Success? <==> |vertices| == VertexCount
    ensures r.Failure? ==> r.error == PreconditionException("Cuboid requires 8 vertices")
    ensures r.Success? ==> r.value.center == center && r.value.vertices == vertices
  {
    if |vertices| != VertexCount then
      Failure(PreconditionException("Cuboid requires 8 vertices"))
    else
      Success(Cuboid3D(center, vertices))
  }

  /** The 9-point constructor `Cuboid3D(center, v1, ..., v8)`; `vertices` holds
      its 8 vertex arguments. It passes them through `List.of`, which throws
      on a null element. */
  function NewCuboid3DOfPoints(center: Point3D, vertices: seq<Option<Point3D>>): (r: Result<Cuboid3D>)
    requires |vertices| == VertexCount
    ensures r.Success? <==> AllPresent(vertices)
    ensures r.Failure? ==> r.error == NullPointerException
    ensures r.Success? ==> Valid(r.value) && r.value == Cuboid3D(center, vertices)
  {
    if exists i :: 0 <= i < |vertices| && vertices[i].None? then
      Failure(NullPointerException)
    else
      NewCuboid3D(center, vertices)
  }

  /** Signs of the (width, height, length) offsets of vertices v1 .. v8 in the
      dimensions constructor. */
  const Signs: seq<(real, real, real)> :=
    [( 1.0, -1.0,  1.0), (-1.0, -1.0,  1.0), (-1.0,  1.0,  1.0), ( 1.0,  1.0,  1.0),
     ( 1.0, -1.0, -1.0), (-1.0, -1.0, -1.0), (-1.0,  1.0, -1.0), ( 1.0,  1.0, -1.0)]

  /** The `Cuboid3D(center, width, height, length)` constructor. */
  function FromDimensions(center: Point3D, width: real, height: real, length: real): (c: Cuboid3D)
    ensures Valid(c) && AllPresent(c.vertices) && c.center == center
    ensures forall i :: 0 <= i < VertexCount ==>
              c.vertices[i].value == Point3D(center.x + Signs[i].0 * width / 2.0,
                                             center.y + Signs[i].1 * height / 2.0,
                                             center.z + Signs[i].2 * length / 2.0)
  {
    var w, h, l := width / 2.0, height / 2.0, length / 2.0;
    var vs := [
      Some(Point3D(center.x + w, center.y - h, center.z + l)),
      Some(Point3D(center.x - w, center.y - h, center.z + l)),
      Some(Point3D(center.x - w, center.y + h, center.z + l)),
      Some(Point3D(center.x + w, center.y + h, center.z + l)),
      Some(Point3D(center.x + w, center.y - h, center.z - l)),
      Some(Point3D(center.x - w, center.y - h, center.z - l)),
      Some(Point3D(center.x - w, center.y + h, center.z - l)),
      Some(Point3D(center.x + w, center.y + h, center.z - l))];
    NewCuboid3DOfPoints(center, vs).value
  }

  /** In a dimensions cuboid the back face is the front face moved by
      `-length` along z, and the centre is the mean of the 8 vertices. */
  lemma DimensionsCuboidShape(center: Point3D, width: real, height: real, length: real)
    ensures var c := FromDimensions(center, width, height, length);
            forall i :: 0 <= i < 4 ==>
              c.vertices[i + 4].value.x == c.vertices[i].value.x
              && c.vertices[i + 4].value.y == c.vertices[i].value.y
              && c.vertices[i + 4].value.z == c.vertices[i].value.z - length
    ensures var vs := FromDimensions(center, width, height, length).vertices;
            (vs[0].value.x + vs[1].value.x + vs[2].value.x + vs[3].value.x
             + vs[4].value.x + vs[5].value.x + vs[6].value.x + vs[7].value.x) / 8.0 == center.x
            && (vs[0].value.y + vs[1].value.y + vs[2].value.y + vs[3].value.y
                + vs[4].value.y + vs[5].value.y + vs[6].value.y + vs[7].value.y) / 8.0 == center.y
            && (vs[0].value.z + vs[1].value.z + vs[2].value.z + vs[3].value.z
                + vs[4].value.z + vs[5].value.z + vs[6].value.z + vs[7].value.z) / 8.0 == center.z
  {
  }

  /** `getMissingVertexCount()`: the number of null vertices. */
  function MissingVertexCount(c: Cuboid3D): nat
  {
    CountNone(c.vertices)
  }

  /** `getAvailableVertexCount()`: 8 minus the number of null vertices. */
  function AvailableVertexCount(c: Cuboid3D): int
  {
    VertexCount - CountNone(c.vertices)
  }

  /** The available count is the number of present vertices, and the two
      counts add up to 8. */
  lemma VertexCounts(c: Cuboid3D)
    requires Valid(c)
    ensures AvailableVertexCount(c) == CountSome(c.vertices)
    ensures AvailableVertexCount(c) + MissingVertexCount(c) == VertexCount
    ensures 0 <= MissingVertexCount(c) <= VertexCount
    ensures MissingVertexCount(c) == 0 <==> AllPresent(c.vertices)
  {
    CountNonePlusCountSome(c.vertices);
    CountNoneBounded(c.vertices);
  }
}
