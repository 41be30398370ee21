/**
 The line test (a 2D ray cast): scan a collection of shapes for contacts with
 the segment from a start point to an end point, build one contact set per
 shape that was hit, order the contacts and the sets by proximity to the start,
 and hand the sets to a continuation until it asks to stop.

 The exact geometry (segment against circle, segment against segment, edge
 normals) and vector normalisation are external and given as `Primitives`.
 The result buffer that the library keeps between calls is started empty on
 every call and returned, so its final contents can be stated.
 */
module LineTests {
  import opened Vectors
  import opened Options
  import opened Shapes
  import opened ContactSets
  import opened Sequences

  /** How far the cast start is pulled back along the direction of the line, so
      that a cast from a point of contact still finds that contact. */
  const CastMargin: real := 0.01

  /** The external geometry the line test calls. */
  datatype Primitives = Primitives(
    unit: Vector -> Vector,                               // Vector.Unit
    circlePoints: (Segment, Vector, real) -> seq<Vector>, // points where a segment crosses a circle (centre, radius)
    linePoint: (Segment, Segment) -> Option<Vector>,      // the point where two segments cross, if any
    normal: Segment -> Vector)                            // the outward normal of a polygon edge

  /** One call of the continuation: the set, its index and the number of sets. */
  datatype Call = Call(contacts: IntersectionSet, index: nat, max: nat)

  /** The unit direction of the line. */
  function Direction(prims: Primitives, start: Vector, end: Vector): Vector
  {
    prims.unit(Sub(end, start))
  }

  /** The start pulled back by the margin. */
  function CastStart(prims: Primitives, start: Vector, end: Vector): Vector
  {
    Sub(start, Scale(Direction(prims, start, end), CastMargin))
  }

  /** The segment actually tested against the shapes. */
  function Probe(prims: Primitives, start: Vector, end: Vector): Segment
  {
    Segment(CastStart(prims, start, end), end)
  }

  /** Contacts with a circle: every crossing point, in order, each with the
      normal pointing from the circle's centre through the point. */
  function CircleContacts(prims: Primitives, points: seq<Vector>, position: Vector): seq<Intersection>
  {
    if points == [] then []
    else
      var p := points[|points| - 1];
      CircleContacts(prims, points[..|points| - 1], position) + [Intersection(p, prims.unit(Sub(p, position)))]
  }

  lemma {:induction false} CircleContactsPointwise(prims: Primitives, points: seq<Vector>, position: Vector)
    ensures |CircleContacts(prims, points, position)| == |points|
    ensures forall k :: 0 <= k < |points| ==>
      CircleContacts(prims, points, position)[k] == Intersection(points[k], prims.unit(Sub(points[k], position)))
    decreases |points|
  {
    if points != [] {
      CircleContactsPointwise(prims, points[..|points| - 1], position);
    }
  }

  /** Contacts with a polygon: one per edge the probe crosses, in edge order,
      with that edge's normal. */
  function PolygonContacts(prims: Primitives, line: Segment, edges: seq<Segment>): seq<Intersection>
  {
    if edges == [] then []
    else
      var e := edges[|edges| - 1];
      var rest := PolygonContacts(prims, line, edges[..|edges| - 1]);
      match prims.linePoint(line, e)
      case Some(p) => rest + [Intersection(p, prims.normal(e))]
      case None => rest
  }

  /** The probe crosses the edge. */
  function Crossed(prims: Primitives, line: Segment): Segment -> bool
  {
    (e: Segment) => prims.linePoint(line, e).Some?
  }

  /** The contact with a crossed edge: the crossing point and the edge's normal
      (the point is only meaningful for an edge that is crossed). */
  function EdgeContact(prims: Primitives, line: Segment): Segment -> Intersection
  {
    (e: Segment) => match prims.linePoint(line, e)
      case Some(p) => Intersection(p, prims.normal(e))
      case None => Intersection(Zero, prims.normal(e))
  }

  /** The polygon contacts are exactly one per crossed edge, in edge order. */
  lemma {:induction false} PolygonContactsAreCrossedEdges(prims: Primitives, line: Segment, edges: seq<Segment>)
    ensures PolygonContacts(prims, line, edges) == Map(Filter(edges, Crossed(prims, line)), EdgeContact(prims, line))
    decreases |edges|
  {
    if edges != [] {
      var n := |edges| - 1;
      PolygonContactsAreCrossedEdges(prims, line, edges[..n]);
      assert edges == edges[..n] + [edges[n]];
      FilterSnoc(edges[..n], edges[n], Crossed(prims, line));
      MapSnoc(Filter(edges[..n], Crossed(prims, line)), edges[n], EdgeContact(prims, line));
    }
  }

  /** Every polygon contact comes from a crossed edge and carries its normal,
      and there is none exactly when no edge is crossed. */
  lemma {:induction false} PolygonContactsFromEdges(prims: Primitives, line: Segment, edges: seq<Segment>)
    ensures |PolygonContacts(prims, line, edges)| <= |edges|
    ensures |PolygonContacts(prims, line, edges)| == 0 <==> forall j :: 0 <= j < |edges| ==> prims.linePoint(line, edges[j]).None?
    ensures forall k :: 0 <= k < |PolygonContacts(prims, line, edges)| ==>
      exists j :: 0 <= j < |edges| && prims.linePoint(line, edges[j]) == Some(PolygonContacts(prims, line, edges)[k].point)
                 && PolygonContacts(prims, line, edges)[k].normal == prims.normal(edges[j])
    decreases |edges|
  {
    if edges != [] {
      var n := |edges| - 1;
      PolygonContactsFromEdges(prims, line, edges[..n]);
      assert forall j :: 0 <= j < n ==> edges[..n][j] == edges[j];
      var r, rest := PolygonContacts(prims, line, edges), PolygonContacts(prims, line, edges[..n]);
      forall k | 0 <= k < |r|
        ensures exists j :: 0 <= j < |edges| && prims.linePoint(line, edges[j]) == Some(r[k].point) && r[k].normal == prims.normal(edges[j])
      {
        if k < |rest| {
          assert r[k] == rest[k];
          var j :| 0 <= j < n && prims.linePoint(line, edges[..n][j]) == Some(rest[k].point) && rest[k].normal == prims.normal(edges[..n][j]);
          assert edges[..n][j] == edges[j];
        } else {
          assert prims.linePoint(line, edges[n]) == Some(r[k].point) && r[k].normal == prims.normal(edges[n]);
        }
      }
    }
  }

  /** The contacts of the probe with one shape, by kind; a shape of any other
      kind has none. */
  function RawContacts(prims: Primitives, line: Segment, other: Shape): seq<Intersection>
  {
    match other.kind
    case Circle(position, radius) => CircleContacts(prims, prims.circlePoints(line, position, radius), position)
    case ConvexPolygon(lines) => PolygonContacts(prims, line, lines)
    case OtherKind => []
  }

  /** The contact-collecting part of the per-shape visit. */
  method ContactsOf(prims: Primitives, line: Segment, other: Shape) returns (contacts: seq<Intersection>)
    ensures contacts == RawContacts(prims, line, other)
  {
    contacts := [];
    match other.kind {
      case Circle(position, radius) =>
        var res := prims.circlePoints(line, position, radius);
        if |res| > 0 {
          for i := 0 to |res|
            invariant contacts == CircleContacts(prims, res[..i], position)
          {
            assert res[..i + 1][..i] == res[..i];
            contacts := contacts + [Intersection(res[i], prims.unit(Sub(res[i], position)))];
          }
          assert res[..|res|] == res;
        }
      case ConvexPolygon(lines) =>
        for i := 0 to |lines|
          invariant contacts == PolygonContacts(prims, line, lines[..i])
        {
          assert lines[..i + 1][..i] == lines[..i];
          var hit := prims.linePoint(line, lines[i]);
          if hit.Some? {
            contacts := contacts + [Intersection(hit.value, prims.normal(lines[i]))];
          }
        }
        assert lines[..|lines|] == lines;
      case OtherKind =>
    }
  }

  /** The sum of the contact points. */
  function SumPoints(s: seq<Intersection>): Vector
  {
    if s == [] then Zero else Add(SumPoints(s[..|s| - 1]), s[|s| - 1].point)
  }

  /** The arithmetic mean of the contact points. */
  function Mean(s: seq<Intersection>): Vector
    requires |s| > 0
  {
    Vector(SumPoints(s).x / |s| as real, SumPoints(s).y / |s| as real)
  }

  lemma {:induction false} SumPointsAppend(u: seq<Intersection>, v: seq<Intersection>)
    ensures SumPoints(u + v) == Add(SumPoints(u), SumPoints(v))
    decreases |v|
  {
    if v == [] {
      assert u + v == u;
    } else {
      var n := |v| - 1;
      assert (u + v)[..|u + v| - 1] == u + v[..n];
      SumPointsAppend(u, v[..n]);
    }
  }

  /** The sum, and so the mean, does not depend on the order of the contacts. */
  lemma {:induction false} SumPointsPermutation(a: seq<Intersection>, b: seq<Intersection>)
    requires multiset(a) == multiset(b)
    ensures SumPoints(a) == SumPoints(b)
    decreases |a|
  {
    if |a| > 0 {
      var n := |a| - 1;
      var j := PermutationSplit(a, b);
      SumPointsPermutation(a[..n], b[..j] + b[j + 1..]);
      assert b == b[..j] + [b[j]] + b[j + 1..];
      SumPointsAppend(b[..j] + [b[j]], b[j + 1..]);
      SumPointsAppend(b[..j], [b[j]]);
      SumPointsAppend(b[..j], b[j + 1..]);
      assert SumPoints([b[j]]) == Add(Zero, b[j].point) by {
        assert [b[j]][..0] == [];
      }
    } else {
      assert b == [];
    }
  }

  lemma MeanPermutation(a: seq<Intersection>, b: seq<Intersection>)
    requires |a| > 0 && multiset(a) == multiset(b)
    ensures |b| > 0 && Mean(a) == Mean(b)
  {
    assert |multiset(a)| == |multiset(b)|;
    SumPointsPermutation(a, b);
  }

  /** Center accumulates the points, then divides each coordinate by the count. */
  method CenterOf(contacts: seq<Intersection>) returns (center: Vector)
    requires |contacts| > 0
    ensures center == Mean(contacts)
  {
    center := Zero;
    for i := 0 to |contacts|
      invariant center == SumPoints(contacts[..i])
    {
      assert contacts[..i + 1][..i] == contacts[..i];
      center := Add(center, contacts[i].point);
    }
    assert contacts[..|contacts|] == contacts;
    center := center.(x := center.x / |contacts| as real);
    center := center.(y := center.y / |contacts| as real);
  }

  /** Contacts are ordered by squared distance to the given point. */
  function PointKey(origin: Vector): Intersection -> real
  {
    (c: Intersection) => DistanceSquared(c.point, origin)
  }

  /** Sets are ordered by the squared distance of their first contact to the
      given point (every set built has a first contact). */
  function SetKey(origin: Vector): IntersectionSet -> real
  {
    (cs: IntersectionSet) => if |cs.intersections| > 0 then DistanceSquared(cs.intersections[0].point, origin) else 0.0
  }

  /** What the line test promises of every set it produces. */
  ghost predicate IsHit(cs: IntersectionSet, prims: Primitives, start: Vector, end: Vector, calling: Option<Shape>)
  {
    && cs.otherShape.Some? && cs.otherShape != calling
    && |cs.intersections| > 0
    && multiset(cs.intersections) == multiset(RawContacts(prims, Probe(prims, start, end), cs.otherShape.value))
    && cs.center == Mean(cs.intersections)
    && SortedBy(cs.intersections, PointKey(start))
    && cs.mtv == Sub(Sub(cs.intersections[0].point, start), Scale(Direction(prims, start, end), CastMargin))
  }

  /** A shape counts as hit when it is not the calling shape and the probe has
      at least one contact with it. */
  function HitBy(prims: Primitives, line: Segment, calling: Option<Shape>): Shape -> bool
  {
    (s: Shape) => Some(s) != calling && |RawContacts(prims, line, s)| > 0
  }

  /** The OtherShape values the sets should carry: the hit shapes, in visiting
      order. */
  function HitShapes(prims: Primitives, line: Segment, shapes: seq<Shape>, calling: Option<Shape>): seq<Option<Shape>>
  {
    Map(Filter(shapes, HitBy(prims, line, calling)), (s: Shape) => Some(s))
  }

  /** Visiting one more shape adds it to the hit shapes exactly when it is hit. */
  lemma HitShapesSnoc(prims: Primitives, line: Segment, shapes: seq<Shape>, other: Shape, calling: Option<Shape>)
    ensures HitShapes(prims, line, shapes + [other], calling)
         == if HitBy(prims, line, calling)(other) then HitShapes(prims, line, shapes, calling) + [Some(other)]
            else HitShapes(prims, line, shapes, calling)
  {
    FilterSnoc(shapes, other, HitBy(prims, line, calling));
    MapSnoc(Filter(shapes, HitBy(prims, line, calling)), other, (s: Shape) => Some(s));
  }

  function OtherShape(cs: IntersectionSet): Option<Shape>
  {
    cs.otherShape
  }

  /** The continuation was called on sets 0, 1, 2, ... in order, with the number
      of sets, and no more after the first call that returned false. */
  ghost predicate ContinuationCalls(calls: seq<Call>, sets: seq<IntersectionSet>, f: (IntersectionSet, int, int) -> bool)
  {
    && |calls| <= |sets|
    && (forall k :: 0 <= k < |calls| ==> calls[k] == Call(sets[k], k, |sets|))
    && (forall k :: 0 <= k < |calls| - 1 ==> f(sets[k], k, |sets|))
    && (|calls| < |sets| ==> |calls| > 0 && !f(sets[|calls| - 1], |calls| - 1, |sets|))
  }

  /** The per-shape visit: skip the calling shape; otherwise collect the contacts
      and, if there are any, build the set (centre from the contacts as found,
      contacts sorted by distance to the original start, MTV from the nearest). */
  method VisitShape(prims: Primitives, start: Vector, end: Vector, other: Shape, calling: Option<Shape>)
    returns (found: bool, cs: IntersectionSet)
    ensures found <==> Some(other) != calling && |RawContacts(prims, Probe(prims, start, end), other)| > 0
    ensures found ==> IsHit(cs, prims, start, end, calling) && cs.otherShape == Some(other)
  {
    found := false;
    cs := NewIntersectionSet();
    if Some(other) == calling {
      return;
    }
    var vu := Direction(prims, start, end);
    var contacts := ContactsOf(prims, Probe(prims, start, end), other);
    if |contacts| > 0 {
      var center := CenterOf(contacts);
      var sorted := SortBy(contacts, PointKey(start));
      MeanPermutation(contacts, sorted);
      var mtv := Sub(Sub(sorted[0].point, start), Scale(vu, CastMargin));
      cs := IntersectionSet(sorted, center, mtv, Some(other));
      found := true;
    }
  }

  /** The scan over the shapes: every visit that finds contacts appends its
      set to the buffer, which starts empty. */
  method ScanShapes(prims: Primitives, start: Vector, end: Vector, testAgainst: seq<Shape>, calling: Option<Shape>)
    returns (buffer: seq<IntersectionSet>)
    ensures forall k :: 0 <= k < |buffer| ==> IsHit(buffer[k], prims, start, end, calling)
    ensures Map(buffer, OtherShape) == HitShapes(prims, Probe(prims, start, end), testAgainst, calling)
  {
    ghost var line := Probe(prims, start, end);
    buffer := [];
    for i := 0 to |testAgainst|
      invariant forall k :: 0 <= k < |buffer| ==> IsHit(buffer[k], prims, start, end, calling)
      invariant Map(buffer, OtherShape) == HitShapes(prims, line, testAgainst[..i], calling)
    {
      var other := testAgainst[i];
      assert testAgainst[..i + 1] == testAgainst[..i] + [other];
      HitShapesSnoc(prims, line, testAgainst[..i], other, calling);
      var found, cs := VisitShape(prims, start, end, other, calling);
      if found {
        MapSnoc(buffer, cs, OtherShape);
        AppendHit(buffer, cs, prims, start, end, calling);
        buffer := buffer + [cs];
      }
    }
    assert testAgainst[..|testAgainst|] == testAgainst;
  }

  lemma AppendHit(buffer: seq<IntersectionSet>, cs: IntersectionSet,
                  prims: Primitives, start: Vector, end: Vector, calling: Option<Shape>)
    requires forall k :: 0 <= k < |buffer| ==> IsHit(buffer[k], prims, start, end, calling)
    requires IsHit(cs, prims, start, end, calling)
    ensures forall k :: 0 <= k < |buffer + [cs]| ==> IsHit((buffer + [cs])[k], prims, start, end, calling)
  {
  }

  /** Reordering the sets keeps what is promised of each and which shapes they
      are for. */
  lemma HitsPermutation(buffer: seq<IntersectionSet>, sets: seq<IntersectionSet>,
                        prims: Primitives, start: Vector, end: Vector, calling: Option<Shape>)
    requires multiset(sets) == multiset(buffer)
    requires forall k :: 0 <= k < |buffer| ==> IsHit(buffer[k], prims, start, end, calling)
    ensures forall k :: 0 <= k < |sets| ==> IsHit(sets[k], prims, start, end, calling)
    ensures multiset(Map(sets, OtherShape)) == multiset(Map(buffer, OtherShape))
    ensures |sets| == |buffer|
  {
    MapPermutation(sets, buffer, OtherShape);
    forall k | 0 <= k < |sets|
      ensures IsHit(sets[k], prims, start, end, calling)
    {
      assert sets[k] in multiset(buffer);
    }
    assert |multiset(sets)| == |multiset(buffer)|;
  }

  /** Hands the sets to the continuation in order until it returns false. */
  method Notify(sets: seq<IntersectionSet>, f: (IntersectionSet, int, int) -> bool) returns (calls: seq<Call>)
    ensures ContinuationCalls(calls, sets, f)
  {
    calls := [];
    for i := 0 to |sets|
      invariant |calls| == i
      invariant forall k :: 0 <= k < i ==> calls[k] == Call(sets[k], k, |sets|)
      invariant forall k :: 0 <= k < i ==> f(sets[k], k, |sets|)
    {
      calls := calls + [Call(sets[i], i, |sets|)];
      if !f(sets[i], i, |sets|) {
        break;
      }
    }
  }

  /** The line test. Returns whether any shape was hit, the result buffer as it
      is left, and the calls made to the continuation (none when there is no
      continuation). */
  method LineTest(prims: Primitives, start: Vector, end: Vector, testAgainst: seq<Shape>,
                  calling: Option<Shape>, onIntersect: Option<(IntersectionSet, int, int) -> bool>)
    returns (hit: bool, sets: seq<IntersectionSet>, calls: seq<Call>)
    ensures hit <==> |sets| > 0
    ensures hit <==> exists k :: 0 <= k < |testAgainst| && Some(testAgainst[k]) != calling
                                 && |RawContacts(prims, Probe(prims, start, end), testAgainst[k])| > 0
    ensures forall k :: 0 <= k < |sets| ==> IsHit(sets[k], prims, start, end, calling)
    ensures multiset(Map(sets, OtherShape)) == multiset(HitShapes(prims, Probe(prims, start, end), testAgainst, calling))
    ensures SortedBy(sets, SetKey(CastStart(prims, start, end)))
    ensures onIntersect.None? ==> calls == []
    ensures onIntersect.Some? ==> ContinuationCalls(calls, sets, onIntersect.value)
  {
    var line := Probe(prims, start, end);
    var buffer := ScanShapes(prims, start, end, testAgainst, calling);
    FilterNonEmpty(testAgainst, HitBy(prims, line, calling));
    sets := SortBy(buffer, SetKey(line.start));
    HitsPermutation(buffer, sets, prims, start, end, calling);
    calls := [];
    if onIntersect.Some? {
      calls := Notify(sets, onIntersect.value);
    }
    hit := |sets| > 0;
  }
}
