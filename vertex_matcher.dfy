/** `CuboidVertexMatcher`: groups the vertex candidates of the 8 belief maps
    around the detected cuboid centres. Each candidate goes to its nearest
    centre; per centre and vertex role the nearest assigned candidate wins.
    Distances are compared as squared distances, which orders them the same
    way as `Point2D.distance`. */
module VertexMatcher {
  import opened Wrappers
  import opened Points
  import opened OpenCv

  const VertexCount: nat := 8

  /** `Integer.MAX_VALUE`, the initial minimum distance. */
  const IntMaxValue: real := 2147483647.0
  const MaxDistanceSq: real := IntMaxValue * IntMaxValue

  /** The matcher's three fields; `vectorField` is the `VectorField` lambda. */
  datatype Matcher = Matcher(centerPoints: seq<Point2D>, verticesLists: seq<seq<Point2D>>,
                             vectorField: (int, Point2D) -> Vector2f)

  /** The constructor: there must be one candidate list per cuboid vertex.
      The check is made without a message of its own, so the failure here
      carries an empty one in place of the library's default text. */
  function NewMatcher(centerPoints: seq<Point2D>, verticesLists: seq<seq<Point2D>>,
                      vectorField: (int, Point2D) -> Vector2f): (r: Result<Matcher>)
    ensures r.Success? <==> |verticesLists| == VertexCount
    ensures r.Failure? ==> r.error.PreconditionException?
    ensures r.Success? ==> r.value.centerPoints == centerPoints && r.value.verticesLists == verticesLists
                           && r.value.vectorField == vectorField
  {
    if |verticesLists| != VertexCount then
      Failure(PreconditionException(""))
    else
      Success(Matcher(centerPoints, verticesLists, vectorField))
  }

  /** The local `VertexCandidate` record, with the squared distance. */
  datatype Candidate = Candidate(vertex: Point2D, distance: real)

  /** `vertex.distance(center)`, squared. */
  function Dist(vertex: Point2D, center: Point2D): real
  {
    SquaredDistance(vertex, AsPoint2D(center))
  }

  /** Index and squared distance of the centre `vertex` is assigned to when
      only the first `n` centres are scanned: -1 and the initial minimum when
      none is strictly closer than it. */
  function NearestUpTo(centers: seq<Point2D>, vertex: Point2D, n: nat): (r: (int, real))
    requires n <= |centers|
    ensures -1 <= r.0 < n
    ensures r.0 == -1 ==> r.1 == MaxDistanceSq
    ensures r.0 != -1 ==> r.1 == Dist(vertex, centers[r.0])
  {
    if n == 0 then (-1, MaxDistanceSq)
    else
      var prev := NearestUpTo(centers, vertex, n - 1);
      var d := Dist(vertex, centers[n - 1]);
      if d < prev.1 then (n - 1, d) else prev
  }

  function Nearest(centers: seq<Point2D>, vertex: Point2D): (r: (int, real))
    ensures -1 <= r.0 < |centers|
  {
    NearestUpTo(centers, vertex, |centers|)
  }

  /** The assignment is to a centre at minimal distance, ties going to the
      lowest index; no centre is chosen exactly when every distance is at
      least `Integer.MAX_VALUE` (in particular when there are no centres). */
  lemma {:induction false} NearestIsFirstMinimum(centers: seq<Point2D>, vertex: Point2D, n: nat)
    requires n <= |centers|
    ensures var r := NearestUpTo(centers, vertex, n);
            r.0 == -1 <==> forall i :: 0 <= i < n ==> Dist(vertex, centers[i]) >= MaxDistanceSq
    ensures var r := NearestUpTo(centers, vertex, n);
            r.0 != -1 ==> r.1 < MaxDistanceSq
                          && (forall i :: 0 <= i < n ==> r.1 <= Dist(vertex, centers[i]))
                          && (forall i :: 0 <= i < r.0 ==> r.1 < Dist(vertex, centers[i]))
  {
    if n > 0 {
      NearestIsFirstMinimum(centers, vertex, n - 1);
    }
  }

  /** The candidates of `vertices[..n]` assigned to centre `c`, in list
      order, each with its distance to `c`: what `candidatesMap[c]` holds
      after `n` vertices of one role. */
  function AssignedUpTo(centers: seq<Point2D>, vertices: seq<Point2D>, c: nat, n: nat): (r: seq<Candidate>)
    requires n <= |vertices|
    ensures |r| <= n
  {
    if n == 0 then []
    else
      var near := Nearest(centers, vertices[n - 1]);
      AssignedUpTo(centers, vertices, c, n - 1)
      + (if near.0 == c then [Candidate(vertices[n - 1], near.1)] else [])
  }

  function Assigned(centers: seq<Point2D>, vertices: seq<Point2D>, c: nat): seq<Candidate>
  {
    AssignedUpTo(centers, vertices, c, |vertices|)
  }

  /** A candidate is assigned to `c` exactly when `c` is its nearest centre,
      and it carries its distance to `c`; a candidate with no nearest centre
      is assigned nowhere. */
  lemma {:induction false} AssignedMembers(centers: seq<Point2D>, vertices: seq<Point2D>, c: nat, n: nat)
    requires c < |centers| && n <= |vertices|
    ensures forall cand :: cand in AssignedUpTo(centers, vertices, c, n) ==>
              exists t :: 0 <= t < n && cand.vertex == vertices[t]
                          && Nearest(centers, vertices[t]).0 == c
                          && cand.distance == Dist(vertices[t], centers[c])
    ensures forall t :: 0 <= t < n && Nearest(centers, vertices[t]).0 == c ==>
              Candidate(vertices[t], Dist(vertices[t], centers[c])) in AssignedUpTo(centers, vertices, c, n)
  {
    if n > 0 {
      AssignedMembers(centers, vertices, c, n - 1);
      var prev := AssignedUpTo(centers, vertices, c, n - 1);
      var r := AssignedUpTo(centers, vertices, c, n);
      forall cand | cand in r
        ensures exists t :: 0 <= t < n && cand.vertex == vertices[t]
                            && Nearest(centers, vertices[t]).0 == c
                            && cand.distance == Dist(vertices[t], centers[c])
      {
        if cand !in prev {
          assert cand.vertex == vertices[n - 1];
        }
      }
    }
  }

  /** The candidate the `best` loop keeps among `cs[..n]`: the first one of
      minimal distance. */
  function BestUpTo(cs: seq<Candidate>, n: nat): (b: Candidate)
    requires 1 <= n <= |cs|
  {
    if n == 1 then cs[0]
    else
      var prev := BestUpTo(cs, n - 1);
      if cs[n - 1].distance < prev.distance then cs[n - 1] else prev
  }

  /** The kept candidate is one of the candidates, no other is closer and
      every earlier one is strictly farther. */
  lemma {:induction false} BestIsFirstMinimum(cs: seq<Candidate>, n: nat)
    requires 1 <= n <= |cs|
    ensures exists j :: 0 <= j < n && BestUpTo(cs, n) == cs[j]
                        && (forall i :: 0 <= i < j ==> cs[i].distance > cs[j].distance)
    ensures forall i :: 0 <= i < n ==> BestUpTo(cs, n).distance <= cs[i].distance
  {
    if n == 1 {
      assert BestUpTo(cs, n) == cs[0];
    } else {
      BestIsFirstMinimum(cs, n - 1);
      var j :| 0 <= j < n - 1 && BestUpTo(cs, n - 1) == cs[j]
               && (forall i :: 0 <= i < j ==> cs[i].distance > cs[j].distance);
      if cs[n - 1].distance < BestUpTo(cs, n - 1).distance {
        assert BestUpTo(cs, n) == cs[n - 1];
      } else {
        assert BestUpTo(cs, n) == cs[j];
      }
    }
  }

  /** Slot `k` of centre `c` in the result: null without an assigned
      candidate, else the vertex of the best one. */
  function Slot(centers: seq<Point2D>, lists: seq<seq<Point2D>>, k: nat, c: nat): Option<Point2D>
    requires k < |lists|
  {
    var cs := Assigned(centers, lists[k], c);
    if cs == [] then None else Some(BestUpTo(cs, |cs|).vertex)
  }

  /** Slot `k` of centre `c` is null exactly when no candidate of role `k` is
      nearest to `c`; otherwise it holds a candidate of role `k` (never one
      of another role) that is nearest to `c` and no farther from `c` than
      any other candidate of role `k` nearest to `c`. */
  lemma SlotProperties(centers: seq<Point2D>, lists: seq<seq<Point2D>>, k: nat, c: nat)
    requires k < |lists| && c < |centers|
    ensures var s := Slot(centers, lists, k, c);
            s.None? <==> forall t :: 0 <= t < |lists[k]| ==> Nearest(centers, lists[k][t]).0 != c
    ensures var s := Slot(centers, lists, k, c);
            s.Some? ==> s.value in lists[k] && Nearest(centers, s.value).0 == c
                        && forall t :: 0 <= t < |lists[k]| && Nearest(centers, lists[k][t]).0 == c ==>
                             Dist(s.value, centers[c]) <= Dist(lists[k][t], centers[c])
  {
    var vs := lists[k];
    var cs := Assigned(centers, vs, c);
    AssignedMembers(centers, vs, c, |vs|);
    if cs != [] {
      BestIsFirstMinimum(cs, |cs|);
      var b := BestUpTo(cs, |cs|);
      assert b in cs;
      var t0 :| 0 <= t0 < |vs| && b.vertex == vs[t0] && Nearest(centers, vs[t0]).0 == c
                && b.distance == Dist(vs[t0], centers[c]);
      forall t | 0 <= t < |vs| && Nearest(centers, vs[t]).0 == c
        ensures Dist(b.vertex, centers[c]) <= Dist(vs[t], centers[c])
      {
        var cand := Candidate(vs[t], Dist(vs[t], centers[c]));
        assert cand in cs;
        var i :| 0 <= i < |cs| && cs[i] == cand;
      }
    }
  }

  /** `cuboidsMap`: for every centre, its 8 slots in vertex order. */
  function Cuboids(centers: seq<Point2D>, lists: seq<seq<Point2D>>): (r: seq<seq<Option<Point2D>>>)
    requires |lists| == VertexCount
    ensures |r| == |centers| && forall c :: 0 <= c < |r| ==> |r[c]| == VertexCount
  {
    seq(|centers|, c requires 0 <= c < |centers| =>
      seq(VertexCount, k requires 0 <= k < VertexCount => Slot(centers, lists, k, c)))
  }

  /** The collision message of the `toMap` merge function. */
  const CollisionMessage: string := "Collision between center point indices"

  /** The first `n` entries of `Collectors.toMap` into a `LinkedHashMap`:
      entries in key order, failing on the first key seen twice. */
  function ToLinkedMapUpTo<V>(keys: seq<Point2D>, values: seq<V>, n: nat): (r: Result<seq<(Point2D, V)>>)
    requires |keys| == |values| && n <= |keys|
    ensures r.Success? <==> forall i, j :: 0 <= i < j < n ==> keys[i] != keys[j]
    ensures r.Failure? ==> r.error == RuntimeException(CollisionMessage)
    ensures r.Success? ==> |r.value| == n && forall i :: 0 <= i < n ==> r.value[i] == (keys[i], values[i])
  {
    if n == 0 then Success([])
    else
      var prev := ToLinkedMapUpTo(keys, values, n - 1);
      if prev.Failure? then prev
      else if keys[n - 1] in keys[..n - 1] then Failure(RuntimeException(CollisionMessage))
      else Success(prev.value + [(keys[n - 1], values[n - 1])])
  }

  function ToLinkedMap<V>(keys: seq<Point2D>, values: seq<V>): Result<seq<(Point2D, V)>>
    requires |keys| == |values|
  {
    ToLinkedMapUpTo(keys, values, |keys|)
  }

  /** What `match()` returns, as the ordered entries of the map. */
  function MatchResult(centers: seq<Point2D>, lists: seq<seq<Point2D>>): Result<seq<(Point2D, seq<Option<Point2D>>)>>
    requires |lists| == VertexCount
  {
    ToLinkedMap(centers, Cuboids(centers, lists))
  }

  /** The scan over all centres for one candidate (the innermost loop of
      `match()`). The direction vectors are read as in the source but play
      no part in the result. */
  method NearestCenter(m: Matcher, k: nat, vertex: Point2D) returns (id: int, minDistance: real)
    ensures (id, minDistance) == Nearest(m.centerPoints, vertex)
  {
    var centers := m.centerPoints;
    minDistance := MaxDistanceSq;
    id := -1;
    for i := 0 to |centers|
      invariant (id, minDistance) == NearestUpTo(centers, vertex, i)
    {
      var center := centers[i];
      var affinityVec := m.vectorField(k, vertex);
      var vec := Vector2f(center.x - vertex.x, center.y - vertex.y);
      var distance := Dist(vertex, center);
      if distance < minDistance {
        id := i;
        minDistance := distance;
      }
    }
  }

  /** The `best` loop over one centre's candidates. */
  method SelectBest(candidates: seq<Candidate>) returns (best: Candidate)
    requires candidates != []
    ensures best == BestUpTo(candidates, |candidates|)
  {
    best := candidates[0];
    for t := 0 to |candidates|
      invariant best == BestUpTo(candidates, if t == 0 then 1 else t)
    {
      var c := candidates[t];
      if c.distance < best.distance {
        best := c;
      }
    }
  }

  /** The loop over the candidates of role `k`: each is appended to the
      buffer of its nearest centre, if any. */
  method AssignRole(m: Matcher, k: nat, candidatesMap: array<seq<Candidate>>)
    requires k < |m.verticesLists| && candidatesMap.Length == |m.centerPoints|
    requires forall c :: 0 <= c < candidatesMap.Length ==> candidatesMap[c] == []
    modifies candidatesMap
    ensures forall c :: 0 <= c < candidatesMap.Length ==>
              candidatesMap[c] == Assigned(m.centerPoints, m.verticesLists[k], c)
  {
    var vertices := m.verticesLists[k];
    for t := 0 to |vertices|
      invariant forall c :: 0 <= c < candidatesMap.Length ==>
                  candidatesMap[c] == AssignedUpTo(m.centerPoints, vertices, c, t)
    {
      var vertex := vertices[t];
      var candidateCenterPointId, minDistance := NearestCenter(m, k, vertex);
      if candidateCenterPointId != -1 {
        candidatesMap[candidateCenterPointId] :=
          candidatesMap[candidateCenterPointId] + [Candidate(vertex, minDistance)];
      }
    }
  }

  /** The loop over the centres after role `k`: each centre gets its slot
      `k` and its buffer is cleared. */
  method CollectRole(m: Matcher, k: nat, cuboidsMap: array<seq<Option<Point2D>>>,
                     candidatesMap: array<seq<Candidate>>)
    requires k < |m.verticesLists|
    requires cuboidsMap.Length == candidatesMap.Length == |m.centerPoints|
    requires forall c :: 0 <= c < candidatesMap.Length ==>
               candidatesMap[c] == Assigned(m.centerPoints, m.verticesLists[k], c)
    modifies cuboidsMap, candidatesMap
    ensures forall c :: 0 <= c < candidatesMap.Length ==> candidatesMap[c] == []
    ensures forall c :: 0 <= c < cuboidsMap.Length ==>
              cuboidsMap[c] == old(cuboidsMap[c]) + [Slot(m.centerPoints, m.verticesLists, k, c)]
  {
    for i := 0 to cuboidsMap.Length
      invariant forall c :: 0 <= c < i ==> candidatesMap[c] == []
      invariant forall c :: 0 <= c < i ==>
                  cuboidsMap[c] == old(cuboidsMap[c]) + [Slot(m.centerPoints, m.verticesLists, k, c)]
      invariant forall c :: i <= c < cuboidsMap.Length ==>
                  candidatesMap[c] == Assigned(m.centerPoints, m.verticesLists[k], c)
                  && cuboidsMap[c] == old(cuboidsMap[c])
    {
      var candidates := candidatesMap[i];
      if candidates == [] {
        cuboidsMap[i] := cuboidsMap[i] + [None];
      } else {
        var best := SelectBest(candidates);
        cuboidsMap[i] := cuboidsMap[i] + [Some(best.vertex)];
      }
      candidatesMap[i] := [];
    }
  }

  /** `match()`: for every role, the nearest-centre assignment and the
      best candidate per centre; then the keyed result. */
  method Match(m: Matcher) returns (r: Result<seq<(Point2D, seq<Option<Point2D>>)>>)
    requires |m.verticesLists| == VertexCount
    ensures r == MatchResult(m.centerPoints, m.verticesLists)
  {
    var n := |m.centerPoints|;
    var cuboidsMap := new seq<Option<Point2D>>[n](_ => []);
    var candidatesMap := new seq<Candidate>[n](_ => []);
    for k := 0 to VertexCount
      invariant forall c :: 0 <= c < n ==> candidatesMap[c] == []
      invariant forall c :: 0 <= c < n ==> |cuboidsMap[c]| == k
      invariant forall c, j :: 0 <= c < n && 0 <= j < k ==>
                  cuboidsMap[c][j] == Slot(m.centerPoints, m.verticesLists, j, c)
    {
      AssignRole(m, k, candidatesMap);
      CollectRole(m, k, cuboidsMap, candidatesMap);
    }
    var cuboids := cuboidsMap[..];
    var expected := Cuboids(m.centerPoints, m.verticesLists);
    forall c | 0 <= c < n
      ensures cuboids[c] == expected[c]
    {
      assert forall j :: 0 <= j < VertexCount ==> cuboids[c][j] == expected[c][j];
    }
    assert cuboids == expected;
    r := ToLinkedMap(m.centerPoints, cuboids);
  }

  /** The matcher's unit test: two centres, three candidates of role 1 and
      two of role 7. */
  const ExampleCenters: seq<Point2D> := [Point2D(25.0, 25.0), Point2D(65.0, 65.0)]
  const ExampleLists: seq<seq<Point2D>> :=
    [[], [Point2D(21.0, 21.0), Point2D(22.0, 22.0), Point2D(65.0, 61.0)], [], [], [], [], [],
     [Point2D(30.0, 30.0), Point2D(60.0, 60.0)]]

  /** Nearest centre of `v` among the two example centres, given its squared
      distances `d0` and `d1` to them. */
  lemma NearestExample(v: Point2D, d0: real, d1: real)
    requires Dist(v, ExampleCenters[0]) == d0 && Dist(v, ExampleCenters[1]) == d1
    requires d0 < MaxDistanceSq && d1 < MaxDistanceSq
    ensures Nearest(ExampleCenters, v) == if d1 < d0 then (1, d1) else (0, d0)
  {
    assert NearestUpTo(ExampleCenters, v, 0) == (-1, MaxDistanceSq);
    assert NearestUpTo(ExampleCenters, v, 1) == (0, d0);
  }

  /** The expected result of that test: (22,22) and (30,30) go to the first
      centre, (65,61) and (60,60) to the second, every other slot is null. */
  lemma MatchExample()
    ensures MatchResult(ExampleCenters, ExampleLists)
            == Success([(Point2D(25.0, 25.0), [None, Some(Point2D(22.0, 22.0)), None, None, None, None, None, Some(Point2D(30.0, 30.0))]),
                        (Point2D(65.0, 65.0), [None, Some(Point2D(65.0, 61.0)), None, None, None, None, None, Some(Point2D(60.0, 60.0))])])
  {
    var cs, ls := ExampleCenters, ExampleLists;
    NearestExample(Point2D(21.0, 21.0), 32.0, 3872.0);
    NearestExample(Point2D(22.0, 22.0), 18.0, 3698.0);
    NearestExample(Point2D(30.0, 30.0), 50.0, 2450.0);
    NearestExample(Point2D(65.0, 61.0), 2896.0, 16.0);
    NearestExample(Point2D(60.0, 60.0), 2450.0, 50.0);
    assert ls[1][0] == Point2D(21.0, 21.0) && ls[1][1] == Point2D(22.0, 22.0) && ls[1][2] == Point2D(65.0, 61.0);
    assert ls[7][0] == Point2D(30.0, 30.0) && ls[7][1] == Point2D(60.0, 60.0);
    assert AssignedUpTo(cs, ls[1], 0, 1) == [Candidate(Point2D(21.0, 21.0), 32.0)];
    assert AssignedUpTo(cs, ls[1], 0, 2) == [Candidate(Point2D(21.0, 21.0), 32.0), Candidate(Point2D(22.0, 22.0), 18.0)];
    assert Assigned(cs, ls[1], 0) == [Candidate(Point2D(21.0, 21.0), 32.0), Candidate(Point2D(22.0, 22.0), 18.0)];
    assert AssignedUpTo(cs, ls[1], 1, 2) == [];
    assert Assigned(cs, ls[1], 1) == [Candidate(Point2D(65.0, 61.0), 16.0)];
    assert AssignedUpTo(cs, ls[7], 0, 1) == [Candidate(Point2D(30.0, 30.0), 50.0)];
    assert Assigned(cs, ls[7], 0) == [Candidate(Point2D(30.0, 30.0), 50.0)];
    assert AssignedUpTo(cs, ls[7], 1, 1) == [];
    assert Assigned(cs, ls[7], 1) == [Candidate(Point2D(60.0, 60.0), 50.0)];
    assert Slot(cs, ls, 1, 0) == Some(Point2D(22.0, 22.0)) by {
      var a := Assigned(cs, ls[1], 0);
      assert BestUpTo(a, 1) == a[0];
    }
    forall k, c | 0 <= k < VertexCount && k != 1 && k != 7 && 0 <= c < 2
      ensures Slot(cs, ls, k, c) == None
    {
      assert ls[k] == [];
    }
    var table := Cuboids(cs, ls);
    assert cs[0] != cs[1];
    var r := MatchResult(cs, ls);
    assert r.Success? && |r.value| == 2;
    assert r.value[0] == (cs[0], table[0]) && r.value[1] == (cs[1], table[1]);
    assert r.value == [r.value[0], r.value[1]];
    assert table[0] == [None, Some(Point2D(22.0, 22.0)), None, None, None, None, None, Some(Point2D(30.0, 30.0))];
    assert table[1] == [None, Some(Point2D(65.0, 61.0)), None, None, None, None, None, Some(Point2D(60.0, 60.0))];
  }
}
