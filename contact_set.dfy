/**
 Contact manifolds: single points of contact and the set of contacts found
 against one other shape, with the queries for its extreme points and for its
 spread along an axis.
 */
module ContactSets {
  import opened Vectors
  import opened Options
  import opened Shapes

  /** One point of contact against a line or surface. */
  datatype Intersection = Intersection(point: Vector, normal: Vector)

  /** The contacts between the caller and one other shape. */
  datatype IntersectionSet = IntersectionSet(
    intersections: seq<Intersection>,
    center: Vector,
    mtv: Vector,
    otherShape: Option<Shape>)

  /** The zero-valued manifold. */
  function NewIntersectionSet(): (r: IntersectionSet)
    ensures IsEmpty(r) && r.center == Zero && r.mtv == Zero && r.otherShape == None
  {
    IntersectionSet([], Zero, Zero, None)
  }

  /** No points of contact. */
  predicate IsEmpty(cs: IntersectionSet)
  {
    |cs.intersections| == 0
  }

  datatype Axis = X | Y

  function Coord(p: Vector, axis: Axis): real
  {
    match axis
    case X => p.x
    case Y => p.y
  }

  /** Contact `k` has the least coordinate on `axis`, and every earlier contact's
      coordinate is strictly greater (ties go to the earliest). */
  ghost predicate FirstMinAt(s: seq<Intersection>, axis: Axis, k: int)
  {
    && 0 <= k < |s|
    && (forall j :: 0 <= j < |s| ==> Coord(s[k].point, axis) <= Coord(s[j].point, axis))
    && (forall j :: 0 <= j < k ==> Coord(s[j].point, axis) > Coord(s[k].point, axis))
  }

  /** Contact `k` has the greatest coordinate on `axis`, the earliest such. */
  ghost predicate FirstMaxAt(s: seq<Intersection>, axis: Axis, k: int)
  {
    && 0 <= k < |s|
    && (forall j :: 0 <= j < |s| ==> Coord(s[k].point, axis) >= Coord(s[j].point, axis))
    && (forall j :: 0 <= j < k ==> Coord(s[j].point, axis) < Coord(s[k].point, axis))
  }

  method LeftmostPoint(cs: IntersectionSet) returns (left: Vector)
    ensures IsEmpty(cs) ==> left == Zero
    ensures !IsEmpty(cs) ==> exists k :: FirstMinAt(cs.intersections, X, k) && left == cs.intersections[k].point
  {
    var s := cs.intersections;
    left := Zero;
    var found := false;
    ghost var at := 0;
    for i := 0 to |s|
      invariant found <==> i > 0
      invariant !found ==> left == Zero
      invariant found ==> 0 <= at < i && left == s[at].point
      invariant found ==> forall j :: 0 <= j < i ==> left.x <= s[j].point.x
      invariant found ==> forall j :: 0 <= j < at ==> s[j].point.x > left.x
    {
      if !found || s[i].point.x < left.x {
        left := s[i].point;
        found := true;
        at := i;
      }
    }
    if found {
      assert FirstMinAt(s, X, at);
    }
  }

  method RightmostPoint(cs: IntersectionSet) returns (right: Vector)
    ensures IsEmpty(cs) ==> right == Zero
    ensures !IsEmpty(cs) ==> exists k :: FirstMaxAt(cs.intersections, X, k) && right == cs.intersections[k].point
  {
    var s := cs.intersections;
    right := Zero;
    var found := false;
    ghost var at := 0;
    for i := 0 to |s|
      invariant found <==> i > 0
      invariant !found ==> right == Zero
      invariant found ==> 0 <= at < i && right == s[at].point
      invariant found ==> forall j :: 0 <= j < i ==> right.x >= s[j].point.x
      invariant found ==> forall j :: 0 <= j < at ==> s[j].point.x < right.x
    {
      if !found || s[i].point.x > right.x {
        right := s[i].point;
        found := true;
        at := i;
      }
    }
    if found {
      assert FirstMaxAt(s, X, at);
    }
  }

  /** Top is the least Y (screen coordinates grow downwards). */
  method TopmostPoint(cs: IntersectionSet) returns (top: Vector)
    ensures IsEmpty(cs) ==> top == Zero
    ensures !IsEmpty(cs) ==> exists k :: FirstMinAt(cs.intersections, Y, k) && top == cs.intersections[k].point
  {
    var s := cs.intersections;
    top := Zero;
    var found := false;
    ghost var at := 0;
    for i := 0 to |s|
      invariant found <==> i > 0
      invariant !found ==> top == Zero
      invariant found ==> 0 <= at < i && top == s[at].point
      invariant found ==> forall j :: 0 <= j < i ==> top.y <= s[j].point.y
      invariant found ==> forall j :: 0 <= j < at ==> s[j].point.y > top.y
    {
      if !found || s[i].point.y < top.y {
        top := s[i].point;
        found := true;
        at := i;
      }
    }
    if found {
      assert FirstMinAt(s, Y, at);
    }
  }

  method BottommostPoint(cs: IntersectionSet) returns (bottom: Vector)
    ensures IsEmpty(cs) ==> bottom == Zero
    ensures !IsEmpty(cs) ==> exists k :: FirstMaxAt(cs.intersections, Y, k) && bottom == cs.intersections[k].point
  {
    var s := cs.intersections;
    bottom := Zero;
    var found := false;
    ghost var at := 0;
    for i := 0 to |s|
      invariant found <==> i > 0
      invariant !found ==> bottom == Zero
      invariant found ==> 0 <= at < i && bottom == s[at].point
      invariant found ==> forall j :: 0 <= j < i ==> bottom.y >= s[j].point.y
      invariant found ==> forall j :: 0 <= j < at ==> s[j].point.y < bottom.y
    {
      if !found || s[i].point.y > bottom.y {
        bottom := s[i].point;
        found := true;
        at := i;
      }
    }
    if found {
      assert FirstMaxAt(s, Y, at);
    }
  }

  /** The largest finite float64, used as the starting extremes of Distance. */
  const MaxFloat64: real := 179769313486231570814527423731704356798070567525844996598917476803157260780028538760589558632766878171540458953514382464234321326889464182768467546703537516986049910576551282076245490090389328944075868508455133942304583236903222948165808559332123348274797826204144723168738177180919299881250404026184124858368.0

  /** Every contact projects onto the axis within the finite float64 range,
      as every finite float64 does. */
  ghost predicate InFloatRange(axis: Vector, s: seq<Intersection>)
  {
    forall j :: 0 <= j < |s| ==> -MaxFloat64 <= Dot(axis, s[j].point) <= MaxFloat64
  }

  /** The least projection of the contacts onto the axis. */
  function MinProjection(axis: Vector, s: seq<Intersection>): (m: real)
    requires |s| > 0
    ensures exists k :: 0 <= k < |s| && m == Dot(axis, s[k].point)
    ensures forall j :: 0 <= j < |s| ==> m <= Dot(axis, s[j].point)
  {
    if |s| == 1 then Dot(axis, s[0].point)
    else
      var rest := MinProjection(axis, s[..|s| - 1]);
      var d := Dot(axis, s[|s| - 1].point);
      assert forall j :: 0 <= j < |s| - 1 ==> s[j] == s[..|s| - 1][j];
      if d < rest then d else rest
  }

  /** The greatest projection of the contacts onto the axis. */
  function MaxProjection(axis: Vector, s: seq<Intersection>): (m: real)
    requires |s| > 0
    ensures exists k :: 0 <= k < |s| && m == Dot(axis, s[k].point)
    ensures forall j :: 0 <= j < |s| ==> m >= Dot(axis, s[j].point)
  {
    if |s| == 1 then Dot(axis, s[0].point)
    else
      var rest := MaxProjection(axis, s[..|s| - 1]);
      var d := Dot(axis, s[|s| - 1].point);
      assert forall j :: 0 <= j < |s| - 1 ==> s[j] == s[..|s| - 1][j];
      if d > rest then d else rest
  }

  /** The spread of the contacts along the axis. */
  function Spread(axis: Vector, s: seq<Intersection>): real
    requires |s| > 0
  {
    MaxProjection(axis, s) - MinProjection(axis, s)
  }

  /** Distance normalises the axis (with the external `unit`) and returns the
      spread of the contacts along it, starting from the float64 extremes. On an
      empty found the seeds are returned unchanged: their difference. */
  method Distance(cs: IntersectionSet, alongAxis: Vector, unit: Vector -> Vector) returns (r: real)
    ensures IsEmpty(cs) ==> r == -MaxFloat64 - MaxFloat64
    ensures !IsEmpty(cs) && InFloatRange(unit(alongAxis), cs.intersections) ==>
      r == Spread(unit(alongAxis), cs.intersections)
  {
    var axis := unit(alongAxis);
    var s := cs.intersections;
    var top, bottom := MaxFloat64, -MaxFloat64;
    for i := 0 to |s|
      invariant i == 0 ==> top == MaxFloat64 && bottom == -MaxFloat64
      invariant i > 0 ==> top == MinReal(MaxFloat64, MinProjection(axis, s[..i]))
      invariant i > 0 ==> bottom == MaxReal(-MaxFloat64, MaxProjection(axis, s[..i]))
    {
      var d := Dot(axis, s[i].point);
      ProjectionsExtend(axis, s, i);
      if i > 0 {
        ExtremesRegroup(MaxFloat64, MinProjection(axis, s[..i]), MaxProjection(axis, s[..i]), d);
      }
      top := MinReal(top, d);
      bottom := MaxReal(bottom, d);
    }
    assert s[..|s|] == s;
    if |s| > 0 && InFloatRange(axis, s) {
      SeedsInert(axis, s);
    }
    r := bottom - top;
  }

  /** Folding one more value into a seeded extreme can be done in either order. */
  lemma ExtremesRegroup(seed: real, lo: real, hi: real, d: real)
    ensures MinReal(MinReal(seed, lo), d) == MinReal(seed, MinReal(lo, d))
    ensures MaxReal(MaxReal(-seed, hi), d) == MaxReal(-seed, MaxReal(hi, d))
  {
  }

  /** Taking one more contact into account moves each extreme to include it. */
  lemma ProjectionsExtend(axis: Vector, s: seq<Intersection>, i: nat)
    requires i < |s|
    ensures i == 0 ==> MinProjection(axis, s[..i + 1]) == Dot(axis, s[i].point) == MaxProjection(axis, s[..i + 1])
    ensures i > 0 ==> MinProjection(axis, s[..i + 1]) == MinReal(MinProjection(axis, s[..i]), Dot(axis, s[i].point))
    ensures i > 0 ==> MaxProjection(axis, s[..i + 1]) == MaxReal(MaxProjection(axis, s[..i]), Dot(axis, s[i].point))
  {
    assert s[..i + 1][..i] == s[..i];
  }

  /** Within the float64 range the starting extremes never win. */
  lemma SeedsInert(axis: Vector, s: seq<Intersection>)
    requires |s| > 0 && InFloatRange(axis, s)
    ensures MinReal(MaxFloat64, MinProjection(axis, s)) == MinProjection(axis, s)
    ensures MaxReal(-MaxFloat64, MaxProjection(axis, s)) == MaxProjection(axis, s)
  {
    var k :| 0 <= k < |s| && MinProjection(axis, s) == Dot(axis, s[k].point);
    var l :| 0 <= l < |s| && MaxProjection(axis, s) == Dot(axis, s[l].point);
  }

  lemma SpreadNonNegative(axis: Vector, s: seq<Intersection>)
    requires |s| > 0
    ensures Spread(axis, s) >= 0.0
  {
  }

  /** The spread depends only on which contacts there are, not on their order. */
  lemma {:induction false} SpreadPermutationInvariant(axis: Vector, a: seq<Intersection>, b: seq<Intersection>)
    requires |a| > 0 && multiset(a) == multiset(b)
    ensures |b| > 0 && Spread(axis, a) == Spread(axis, b)
  {
    assert a[0] in multiset(b);
    ExtremesInclude(axis, a, b);
    ExtremesInclude(axis, b, a);
  }

  /** When every contact of `a` is a contact of `b`, the extremes of `b` enclose
      those of `a`. */
  lemma ExtremesInclude(axis: Vector, a: seq<Intersection>, b: seq<Intersection>)
    requires |a| > 0 && |b| > 0 && multiset(a) <= multiset(b)
    ensures MinProjection(axis, b) <= MinProjection(axis, a)
    ensures MaxProjection(axis, b) >= MaxProjection(axis, a)
  {
    var k :| 0 <= k < |a| && MinProjection(axis, a) == Dot(axis, a[k].point);
    assert a[k] in multiset(b);
    var j :| 0 <= j < |b| && b[j] == a[k];
    var l :| 0 <= l < |a| && MaxProjection(axis, a) == Dot(axis, a[l].point);
    assert a[l] in multiset(b);
    var m :| 0 <= m < |b| && b[m] == a[l];
  }
}
