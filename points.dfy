/** Point value types: `Point2D` and `ExPoint` (both subclasses of DJL's `Point`)
    and `Point3D`. Doubles are modelled as reals. */
module Points {

  /** `id.deeplearningutils.modality.cv.output.Point2D`. */
  datatype Point2D = Point2D(x: real, y: real)

  /** `id.deeplearningutils.modality.cv.output.ExPoint`. */
  datatype ExPoint = ExPoint(x: real, y: real)

  /** A reference of static type DJL `Point`, together with its runtime class. */
  datatype Point = AsPoint2D(p2: Point2D) | AsExPoint(ex: ExPoint)

  /** `id.deeplearningutils.modality.cv.output.Point3D`. */
  datatype Point3D = Point3D(x: real, y: real, z: real)

  /** What the no-argument `Point2D()` constructor builds. */
  const DefaultPoint2D: Point2D := Point2D(0.0, 0.0)

  const Int32Modulus: int := 0x1_0000_0000

  function GetX(p: Point): real
  {
    match p
    case AsPoint2D(q) => q.x
    case AsExPoint(q) => q.x
  }

  function GetY(p: Point): real
  {
    match p
    case AsPoint2D(q) => q.y
    case AsExPoint(q) => q.y
  }

  /** `Point2D.COMPARATOR`: -1 when `a.x < b.x`, `Double.compare` of the y
      coordinates when the x coordinates are equal, 1 otherwise. */
  function Compare(a: Point2D, b: Point2D): (r: int)
    ensures r == -1 || r == 0 || r == 1
    ensures r < 0 <==> a.x < b.x || (a.x == b.x && a.y < b.y)
    ensures r == 0 <==> a == b
    ensures r > 0 <==> a.x > b.x || (a.x == b.x && a.y > b.y)
  {
    if a.x < b.x then -1
    else if a.x == b.x then (if a.y < b.y then -1 else if a.y == b.y then 0 else 1)
    else 1
  }

  /** The comparator is a total order: antisymmetric and transitive. */
  lemma CompareIsTotalOrder(a: Point2D, b: Point2D, c: Point2D)
    ensures Compare(a, b) == -Compare(b, a)
    ensures Compare(a, b) <= 0 && Compare(b, c) <= 0 ==> Compare(a, c) <= 0
    ensures Compare(a, b) <= 0 || Compare(b, a) <= 0
  {
  }

  /** The square of `Point2D.distance(p)` (the source takes its square root). */
  function SquaredDistance(a: Point2D, p: Point): (d: real)
    ensures d >= 0.0
    ensures a.x == GetX(p) && a.y == GetY(p) ==> d == 0.0
  {
    var n1 := a.x - GetX(p);
    var n2 := a.y - GetY(p);
    SquareNonNegative(n1);
    SquareNonNegative(n2);
    n1 * n1 + n2 * n2
  }

  /** The square of `ExPoint.distance(p)`. */
  function ExSquaredDistance(a: ExPoint, p: Point): (d: real)
    ensures d >= 0.0
    ensures a.x == GetX(p) && a.y == GetY(p) ==> d == 0.0
  {
    var n1 := a.x - GetX(p);
    var n2 := a.y - GetY(p);
    SquareNonNegative(n1);
    SquareNonNegative(n2);
    n1 * n1 + n2 * n2
  }

  lemma SquareNonNegative(a: real)
    ensures a * a >= 0.0
  {
    if a < 0.0 {
      assert a * a == (-a) * (-a);
    }
  }

  /** Distance is symmetric, between two `Point2D`s and between two `ExPoint`s. */
  lemma DistanceSymmetric(a: Point2D, b: Point2D, e: ExPoint, f: ExPoint)
    ensures SquaredDistance(a, AsPoint2D(b)) == SquaredDistance(b, AsPoint2D(a))
    ensures ExSquaredDistance(e, AsExPoint(f)) == ExSquaredDistance(f, AsExPoint(e))
  {
  }

  /** `Point2D.scaled(s)`: both coordinates multiplied by `s`. */
  function Scaled(p: Point2D, s: real): (r: Point2D)
  {
    Point2D(p.x * s, p.y * s)
  }

  /** Scaling composes multiplicatively, 1 is the identity and scaling
      multiplies squared distances by `s * s`. */
  lemma ScaledProperties(p: Point2D, q: Point2D, s: real, t: real)
    ensures Scaled(Scaled(p, s), t) == Scaled(p, s * t)
    ensures Scaled(p, 1.0) == p
    ensures SquaredDistance(Scaled(p, s), AsPoint2D(Scaled(q, s))) == s * s * SquaredDistance(p, AsPoint2D(q))
  {
    assert (p.x * s - q.x * s) * (p.x * s - q.x * s) == s * s * ((p.x - q.x) * (p.x - q.x));
    assert (p.y * s - q.y * s) * (p.y * s - q.y * s) == s * s * ((p.y - q.y) * (p.y - q.y));
  }

  /** `Point3D.scaled(s)`: all three coordinates multiplied by `s`. */
  function Scaled3(p: Point3D, s: real): (r: Point3D)
  {
    Point3D(p.x * s, p.y * s, p.z * s)
  }

  /** `Point2D.equals` and `ExPoint.equals`: same runtime class and equal
      coordinates. */
  function Equals(a: Point, b: Point): (r: bool)
    ensures r <==> a == b
    ensures a.AsExPoint? != b.AsExPoint? ==> !r
  {
    a.AsPoint2D? == b.AsPoint2D? && GetX(a) == GetX(b) && GetY(a) == GetY(b)
  }

  /** Java's `int` arithmetic: the value reduced to [-2^31, 2^31). */
  function WrapInt32(v: int): (r: int)
    ensures -Int32Modulus / 2 <= r < Int32Modulus / 2
    ensures (r - v) % Int32Modulus == 0
  {
    var m := v % Int32Modulus;
    if m >= Int32Modulus / 2 then m - Int32Modulus else m
  }

  /** `Objects.hash(getX(), getY())` for both point classes, i.e.
      `31 * (31 * 1 + h(x)) + h(y)` in `int` arithmetic, where `doubleHash`
      stands for `Double.hashCode`. */
  function HashCode(p: Point, doubleHash: real -> int): int
  {
    WrapInt32(31 * (31 + doubleHash(GetX(p))) + doubleHash(GetY(p)))
  }

  /** `hashCode` is consistent with `equals`; an `ExPoint` and a `Point2D` with
      the same coordinates hash alike but are never equal. */
  lemma HashConsistentWithEquals(a: Point, b: Point, doubleHash: real -> int)
    ensures Equals(a, b) ==> HashCode(a, doubleHash) == HashCode(b, doubleHash)
    ensures a.AsExPoint? && b.AsPoint2D? && GetX(a) == GetX(b) && GetY(a) == GetY(b)
            ==> !Equals(a, b) && HashCode(a, doubleHash) == HashCode(b, doubleHash)
  {
  }
}
