/**
 Axis-aligned bounding boxes of shapes: extent accessors, translation, the
 overlap test used by the broad phase, and the mapping of a box to the range of
 grid cells it covers. The owning space is represented only by its cell size,
 passed in explicitly.
 */
module Boxes {
  import opened Vectors

  datatype Bounds = Bounds(min: Vector, max: Vector)

  /** The all-zero Bounds, the Go zero value, returned for "no overlap". */
  const EmptyBounds: Bounds := Bounds(Zero, Zero)

  /** The range of grid cells covered by a box: each corner coordinate divided by
      the cell size of its axis and rounded down. */
  function ToCellSpace(b: Bounds, cellWidth: int, cellHeight: int): (r: (int, int, int, int))
    requires cellWidth > 0 && cellHeight > 0
    ensures FloorOf(b.min.x, cellWidth, r.0) && FloorOf(b.min.y, cellHeight, r.1)
    ensures FloorOf(b.max.x, cellWidth, r.2) && FloorOf(b.max.y, cellHeight, r.3)
  {
    CellOf(b.min.x, cellWidth);
    CellOf(b.min.y, cellHeight);
    CellOf(b.max.x, cellWidth);
    CellOf(b.max.y, cellHeight);
    ((b.min.x / cellWidth as real).Floor, (b.min.y / cellHeight as real).Floor,
     (b.max.x / cellWidth as real).Floor, (b.max.y / cellHeight as real).Floor)
  }

  /** `k` is the index of the cell of size `size` holding coordinate `c`. */
  predicate FloorOf(c: real, size: int, k: int)
    requires size > 0
  {
    (k * size) as real <= c < ((k + 1) * size) as real
  }

  /** Rounding the quotient down gives the cell holding the coordinate. */
  lemma CellOf(c: real, size: int)
    requires size > 0
    ensures FloorOf(c, size, (c / size as real).Floor)
  {
    var s, q := size as real, c / size as real;
    var k := q.Floor;
    assert k as real <= q < k as real + 1.0;
    assert c == q * s;
    assert (k * size) as real == k as real * s;
    assert ((k + 1) * size) as real == (k as real + 1.0) * s;
    assert k as real * s <= q * s;
    assert q * s < (k as real + 1.0) * s;
    assert (k * size) as real <= c;
    calc {
      c;
    ==
      q * s;
    <
      (k as real + 1.0) * s;
    ==
      ((k + 1) * size) as real;
    }
  }

  /** A box whose corners are ordered covers a non-empty cell range. */
  lemma {:induction false} ToCellSpaceOrdered(b: Bounds, cellWidth: int, cellHeight: int)
    requires cellWidth > 0 && cellHeight > 0
    requires b.min.x <= b.max.x && b.min.y <= b.max.y
    ensures var r := ToCellSpace(b, cellWidth, cellHeight); r.0 <= r.2 && r.1 <= r.3
  {
    var r := ToCellSpace(b, cellWidth, cellHeight);
    FloorMonotone(b.min.x, b.max.x, cellWidth, r.0, r.2);
    FloorMonotone(b.min.y, b.max.y, cellHeight, r.1, r.3);
  }

  lemma FloorMonotone(c: real, d: real, size: int, k: int, l: int)
    requires size > 0 && c <= d && FloorOf(c, size, k) && FloorOf(d, size, l)
    ensures k <= l
  {
    if k > l {
      assert (k * size) as real >= ((l + 1) * size) as real by {
        assert k >= l + 1;
        MulMonotone(l + 1, k, size);
      }
    }
  }

  lemma MulMonotone(a: int, b: int, size: int)
    requires a <= b && size > 0
    ensures a * size <= b * size
  {
  }

  /** The midpoint of the box. */
  function Center(b: Bounds): (r: Vector)
    ensures r.x == (b.min.x + b.max.x) / 2.0 && r.y == (b.min.y + b.max.y) / 2.0
  {
    Add(b.min, Scale(Sub(b.max, b.min), 0.5))
  }

  function Width(b: Bounds): real
  {
    b.max.x - b.min.x
  }

  function Height(b: Bounds): real
  {
    b.max.y - b.min.y
  }

  /** The box translated by (x, y). */
  function Moved(b: Bounds, x: real, y: real): (r: Bounds)
    ensures Width(r) == Width(b) && Height(r) == Height(b)
    ensures Center(r) == Add(Center(b), Vector(x, y))
  {
    Bounds(Vector(b.min.x + x, b.min.y + y), Vector(b.max.x + x, b.max.y + y))
  }

  /** Move works on its own copy of the box, one coordinate at a time. */
  method Move(b: Bounds, x: real, y: real) returns (r: Bounds)
    ensures r == Moved(b, x, y)
  {
    r := b;
    r := r.(min := r.min.(x := r.min.x + x));
    r := r.(min := r.min.(y := r.min.y + y));
    r := r.(max := r.max.(x := r.max.x + x));
    r := r.(max := r.max.(y := r.max.y + y));
  }

  /** MoveVec is Move by the components of a vector; the receiver stays as it was
      (Bounds is a value here). */
  method MoveVec(b: Bounds, v: Vector) returns (r: Bounds)
    ensures r == Moved(b, v.x, v.y)
  {
    r := Move(b, v.x, v.y);
  }

  lemma MovedZeroIsIdentity(b: Bounds)
    ensures Moved(b, 0.0, 0.0) == b
  {
  }

  /** Moving back by the same amount restores the box. */
  lemma MovedInverse(b: Bounds, x: real, y: real)
    ensures Moved(Moved(b, x, y), -x, -y) == b
  {
  }

  /** The two boxes are apart on some axis (touching is not apart). */
  predicate Disjoint(b: Bounds, other: Bounds)
  {
    other.max.x < b.min.x || other.min.x > b.max.x || other.max.y < b.min.y || other.min.y > b.max.y
  }

  /** The overlap descriptor of two boxes: the zero Bounds when they are apart;
      otherwise Min holds the smaller Max corner and Max the larger Min corner,
      per axis (an inverted box, not a rectangle). */
  function OverlapDescriptor(b: Bounds, other: Bounds): (r: Bounds)
    ensures Disjoint(b, other) ==> r == EmptyBounds
    ensures !Disjoint(b, other) ==>
      && r.min.x <= other.max.x && r.min.x <= b.max.x && (r.min.x == other.max.x || r.min.x == b.max.x)
      && r.min.y <= other.max.y && r.min.y <= b.max.y && (r.min.y == other.max.y || r.min.y == b.max.y)
      && r.max.x >= other.min.x && r.max.x >= b.min.x && (r.max.x == other.min.x || r.max.x == b.min.x)
      && r.max.y >= other.min.y && r.max.y >= b.min.y && (r.max.y == other.min.y || r.max.y == b.min.y)
  {
    if Disjoint(b, other) then EmptyBounds
    else Bounds(Vector(MinReal(other.max.x, b.max.x), MinReal(other.max.y, b.max.y)),
                Vector(MaxReal(other.min.x, b.min.x), MaxReal(other.min.y, b.min.y)))
  }

  /** Intersection fills the descriptor one field at a time. */
  method Intersection(b: Bounds, other: Bounds) returns (overlap: Bounds)
    ensures overlap == OverlapDescriptor(b, other)
  {
    overlap := EmptyBounds;
    if other.max.x < b.min.x || other.min.x > b.max.x || other.max.y < b.min.y || other.min.y > b.max.y {
      return;
    }
    overlap := overlap.(min := overlap.min.(x := MinReal(other.max.x, b.max.x)));
    overlap := overlap.(max := overlap.max.(x := MaxReal(other.min.x, b.min.x)));
    overlap := overlap.(min := overlap.min.(y := MinReal(other.max.y, b.max.y)));
    overlap := overlap.(max := overlap.max.(y := MaxReal(other.min.y, b.min.y)));
  }

  /** Emptiness exactly as the library writes it: the second term subtracts the
      Min corner's X from the Max corner's Y. */
  predicate IsEmpty(b: Bounds)
  {
    b.max.x - b.min.x == 0.0 && b.max.y - b.min.x == 0.0
  }

  /** Emptiness with the evidently intended per-axis second term. */
  predicate IsEmptyCorrected(b: Bounds)
  {
    b.max.x - b.min.x == 0.0 && b.max.y - b.min.y == 0.0
  }

  method IsIntersecting(b: Bounds, other: Bounds) returns (r: bool)
    ensures r <==> !IsEmpty(OverlapDescriptor(b, other))
    ensures Disjoint(b, other) ==> !r
  {
    var bounds := Intersection(b, other);
    r := !IsEmpty(bounds);
  }

  /** The overlap descriptor does not depend on the order of the two boxes. */
  lemma OverlapDescriptorSymmetric(a: Bounds, b: Bounds)
    ensures OverlapDescriptor(a, b) == OverlapDescriptor(b, a)
  {
  }

  /** Hence the intersection test is symmetric. */
  lemma IsIntersectingSymmetric(a: Bounds, b: Bounds)
    ensures !IsEmpty(OverlapDescriptor(a, b)) <==> !IsEmpty(OverlapDescriptor(b, a))
  {
    OverlapDescriptorSymmetric(a, b);
  }

  /** Boxes apart on an axis yield the zero descriptor, which is empty in both
      the written and the corrected sense. */
  lemma DisjointIsEmpty(a: Bounds, b: Bounds)
    requires Disjoint(a, b)
    ensures IsEmpty(OverlapDescriptor(a, b)) && IsEmptyCorrected(OverlapDescriptor(a, b))
  {
  }

  /** Boxes that overlap with positive extent on both axes are intersecting,
      under either reading of emptiness. */
  lemma ProperOverlapIntersects(a: Bounds, b: Bounds)
    requires a.min.x < a.max.x && a.min.y < a.max.y && b.min.x < b.max.x && b.min.y < b.max.y
    requires a.min.x < b.max.x && b.min.x < a.max.x && a.min.y < b.max.y && b.min.y < a.max.y
    ensures !IsEmpty(OverlapDescriptor(a, b)) && !IsEmptyCorrected(OverlapDescriptor(a, b))
  {
  }

  /** [0,0]-[10,10] meets [5,5]-[15,15] and misses [20,20]-[30,30]. */
  lemma IntersectingExamples()
    ensures !IsEmpty(OverlapDescriptor(Bounds(Vector(0.0, 0.0), Vector(10.0, 10.0)),
                                       Bounds(Vector(5.0, 5.0), Vector(15.0, 15.0))))
    ensures IsEmpty(OverlapDescriptor(Bounds(Vector(0.0, 0.0), Vector(10.0, 10.0)),
                                      Bounds(Vector(20.0, 20.0), Vector(30.0, 30.0))))
  {
  }

  /** The box with X and Y exchanged. */
  function Transposed(b: Bounds): Bounds
  {
    Bounds(Vector(b.min.y, b.min.x), Vector(b.max.y, b.max.x))
  }

  /** As written, the test is not invariant under exchanging the axes: [0,0]-[3,7]
      and [3,3]-[10,10] share the edge x = 3 from y = 3 to y = 7 and are reported
      as not intersecting, while the transposed pair is reported as intersecting. */
  lemma IsEmptyMixesAxes()
    ensures var a, b := Bounds(Vector(0.0, 0.0), Vector(3.0, 7.0)), Bounds(Vector(3.0, 3.0), Vector(10.0, 10.0));
      && IsEmpty(OverlapDescriptor(a, b))
      && !IsEmpty(OverlapDescriptor(Transposed(a), Transposed(b)))
  {
  }

  /** With the corrected emptiness the test treats the two axes alike. */
  lemma {:induction false} CorrectedIsTransposeInvariant(a: Bounds, b: Bounds)
    ensures IsEmptyCorrected(OverlapDescriptor(a, b)) <==> IsEmptyCorrected(OverlapDescriptor(Transposed(a), Transposed(b)))
  {
    assert Disjoint(a, b) <==> Disjoint(Transposed(a), Transposed(b));
    var d, t := OverlapDescriptor(a, b), OverlapDescriptor(Transposed(a), Transposed(b));
    if !Disjoint(a, b) {
      assert t == Transposed(d);
    }
  }
}
