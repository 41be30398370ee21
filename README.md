# resolv collision core in Dafny

This project models the computational core of resolv, a small 2D collision
library for games. It covers four source files:

- `bounds.go`: axis-aligned bounding boxes. It has the extent accessors, the
  translation `Move`/`MoveVec`, the overlap test `Intersection`/`IsIntersecting`/`IsEmpty`,
  and the mapping `toCellSpace` from a box to the grid cells it covers.
- `projection.go`: one-dimensional projections used by the separating-axis test.
  The operations are `Overlap`, `IsOverlapping` and `IsInside`.
- `contact_set.go`: contact points (`Intersection`) and contact manifolds
  (`IntersectionSet`). It has the four extreme-point scans, `IsEmpty`, and
  `Distance`, the spread of the contacts along an axis.
- `utils.go`: the generic map-backed `Set[E]`, the shape-ID slice lookup
  `idInSet`, and `LineTest`. `LineTest` is the ray cast: it scans shapes, builds
  one contact set per hit shape, sorts the contacts and the sets by proximity,
  and feeds the sets to a continuation until it returns false.

Go's `float64` is modelled as `real`. The modules are:

- `Boxes` for `bounds.go`, `Projections` for `projection.go` and `ContactSets`
  for `contact_set.go`.
- `GenericSets` (`Set[E]` and `idInSet`) and `LineTests` (`LineTest`) for
  `utils.go`.
- Supporting modules: `Vectors` (the vector library), `Shapes` (the shapes
  `LineTest` visits), `Options` (optional values) and `Sequences` (Go's
  `sort.Slice` and the list operations the proofs use).

How the code's form carries over:

- `Set[E]` mutates a map in place, so it is a class. Its field is a `set<E>`,
  and `Add`, `Remove`, `Clear` and `Combine` reassign that field in loops. `Set`
  calls `Clear` and then `Combine`.
- The extreme-point scans, `Distance`, `idInSet`, the centre accumulation and
  the scan of `LineTest` are methods with loops. Each is proved against a
  specification.
- `Move` and `Intersection` update a local copy one field at a time. They are
  methods proved equal to the functions `Moved` and `OverlapDescriptor`.
- Projections and the pure accessors are functions.

`Intersection` puts the smaller of the two Max corners in Min and the larger
of the two Min corners in Max (`bounds.go:69-73`), so an overlap comes out as an
inverted box. `Boxes.OverlapDescriptor` states exactly that.

`Width` and `Height` are plain accessors. `Boxes.Moved` and the lemmas about it
state their properties. `Projections.IsOverlapping` and `Projections.IsInside` are
single comparisons; their lemmas state the algebra. `ContactSets.IsEmpty` is
used in the contracts of the extreme-point scans and of `Distance`, and
`GenericSets.Set.Contains` is membership in the set field.

## Model

| member | source | states |
|---|---|---|
| `Projections.Overlap` | projection.go:17-19 | the overlap is at most each of `a.Max - b.Min` and `b.Max - a.Min`, and equals one of them (their minimum) |
| `Projections.IsOverlapping` | projection.go:12-14 | overlapping means a positive overlap amount (its meaning as an order on the bounds is `IsOverlappingMeansStrictInterleave`) |
| `Projections.IsInside` | projection.go:22-24 | inside means `Min >= other.Min` and `Max <= other.Max` |
| `Projections.OverlapSymmetric` | projection.go:17-19 | `Overlap(a, b) == Overlap(b, a)` |
| `Projections.IsOverlappingMeansStrictInterleave` | projection.go:12-19 | overlapping holds iff `b.Min < a.Max` and `a.Min < b.Max`, so touching intervals do not overlap |
| `Projections.IsInsideOrder` | projection.go:22-24 | containment is reflexive, and containment both ways means equal intervals |
| `Projections.InsideImpliesOverlapping` | projection.go:12-24 | a non-degenerate interval inside another overlaps it, by at least its own length |
| `Projections.Examples` | projection.go:12-24 | [0,5] and [5,10] have overlap 0 and are not overlapping; [2,4] is inside [0,10] but not the reverse |
| `Boxes.ToCellSpace` | bounds.go:15-23 | each result is the cell index holding the corner coordinate: `k*size <= c < (k+1)*size` |
| `Boxes.ToCellSpaceOrdered` | bounds.go:15-23 | with ordered corners and positive cell sizes, minX <= maxX and minY <= maxY |
| `Boxes.Center` | bounds.go:26-28 | the centre is the midpoint `(Min + Max) / 2` on each axis |
| `Boxes.Width` | bounds.go:30-32 | the width is `Max.X - Min.X` |
| `Boxes.Height` | bounds.go:35-37 | the height is `Max.Y - Min.Y` |
| `Boxes.Moved` | bounds.go:41-47 | translation keeps width and height and shifts the centre by (x, y) |
| `Boxes.Move` | bounds.go:41-47 | the field-by-field update of the copy yields `Moved(b, x, y)` |
| `Boxes.MoveVec` | bounds.go:50-52 | equals `Move(v.X, v.Y)`; the box passed in is a value and stays unchanged |
| `Boxes.MovedZeroIsIdentity` | bounds.go:41-47 | `Move(0, 0)` is the identity |
| `Boxes.MovedInverse` | bounds.go:41-47 | moving by (x, y) and then by (-x, -y) restores the box |
| `Boxes.OverlapDescriptor` | bounds.go:61-77 | zero Bounds when the boxes are apart on an axis; otherwise Min is the per-axis minimum of the Max corners and Max the per-axis maximum of the Min corners |
| `Boxes.Intersection` | bounds.go:61-77 | the early return and the four field assignments yield `OverlapDescriptor(b, other)` |
| `Boxes.IsEmpty` | bounds.go:80-82 | as written: the X extent is zero and `Max.Y - Min.X` is zero (see Findings) |
| `Boxes.IsIntersecting` | bounds.go:55-58 | true iff the overlap descriptor is not empty; false for boxes apart on an axis |
| `Boxes.OverlapDescriptorSymmetric` | bounds.go:61-77 | `Intersection(a, b) == Intersection(b, a)` |
| `Boxes.IsIntersectingSymmetric` | bounds.go:55-58 | the intersection test is symmetric |
| `Boxes.DisjointIsEmpty` | bounds.go:63-67 | boxes apart on an axis give the zero descriptor, which is empty |
| `Boxes.ProperOverlapIntersects` | bounds.go:55-82 | proper boxes that overlap with positive extent on both axes are intersecting |
| `Boxes.IntersectingExamples` | bounds.go:55-82 | [0,0]-[10,10] meets [5,5]-[15,15] and misses [20,20]-[30,30] |
| `Boxes.IsEmptyMixesAxes` | bounds.go:80-82 | as written, the test gives different answers for a pair of boxes and for the same pair with X and Y exchanged |
| `Boxes.CorrectedIsTransposeInvariant` | bounds.go:80-82 | with `Max.Y - Min.Y` in the second term, emptiness of the descriptor is unchanged by exchanging X and Y |
| `ContactSets.NewIntersectionSet` | contact_set.go:24-26 | the new manifold has no contacts and zero Center, MTV and OtherShape |
| `ContactSets.IsEmpty` | contact_set.go:109-111 | a set is empty iff it has no contacts |
| `ContactSets.LeftmostPoint` | contact_set.go:28-46 | zero vector on an empty set; otherwise a contact point with the least X, and the earliest such point |
| `ContactSets.RightmostPoint` | contact_set.go:48-66 | zero vector on an empty set; otherwise a contact point with the greatest X, and the earliest such point |
| `ContactSets.TopmostPoint` | contact_set.go:68-86 | zero vector on an empty set; otherwise a contact point with the least Y, and the earliest such point |
| `ContactSets.BottommostPoint` | contact_set.go:88-106 | zero vector on an empty set; otherwise a contact point with the greatest Y, and the earliest such point |
| `ContactSets.MinProjection` | contact_set.go:116-121 | the least projection is the projection of some contact and is at most every projection |
| `ContactSets.MaxProjection` | contact_set.go:116-121 | the greatest projection is the projection of some contact and is at least every projection |
| `ContactSets.Distance` | contact_set.go:113-123 | on a non-empty set, the result is the max projection minus the min projection onto the unit axis; on an empty set, the difference of the two seeds |
| `ContactSets.SpreadNonNegative` | contact_set.go:113-123 | the spread is never negative |
| `ContactSets.SpreadPermutationInvariant` | contact_set.go:113-123 | reordering the contacts does not change the spread |
| `GenericSets.Set.constructor` | utils.go:12-15 | a new set is empty |
| `GenericSets.Set.Add` | utils.go:30-35 | afterwards every given element is in the set, and no other element changes membership |
| `GenericSets.Set.Remove` | utils.go:50-55 | afterwards no given element is in the set, and every other element keeps its membership |
| `GenericSets.Set.Contains` | utils.go:44-48 | an element is contained iff it is in the set's contents |
| `GenericSets.Set.Clear` | utils.go:57-62 | afterwards the set is empty |
| `GenericSets.Set.Combine` | utils.go:37-42 | afterwards the set is the union of its old contents and the other set's, also when the other set is itself |
| `GenericSets.Set.Set` | utils.go:24-28 | afterwards the set holds exactly the other set's old contents; when the other set is the receiver itself, it ends up empty |
| `GenericSets.Set.Clone` | utils.go:17-22 | returns a fresh set with equal contents; the receiver is unchanged |
| `GenericSets.Set.ForEach` | utils.go:64-71 | `f` is called on distinct elements of the set; every call but the last returned true; either the last call returned false or every element was visited |
| `GenericSets.IdInSet` | utils.go:78-85 | true iff the ID occurs in the slice |
| `Sequences.SortBy` | utils.go:170-172 | the result is sorted by the key and is a permutation of the input (as `sort.Slice` gives, with no order promised among equal keys) |
| `LineTests.Direction` | utils.go:108-109 | the unit vector from the start towards the end |
| `LineTests.CastStart` | utils.go:108-110 | the start pulled back by 0.01 along the direction |
| `LineTests.Probe` | utils.go:108-112 | the tested segment runs from the pulled-back start to the end |
| `LineTests.CircleContactsPointwise` | utils.go:130-141 | one contact per crossing point, in order, each with the normal from the circle's centre through the point |
| `LineTests.PolygonContactsAreCrossedEdges` | utils.go:143-154 | the contacts are exactly one per crossed edge, in edge order, each the crossing point with that edge's normal |
| `LineTests.PolygonContactsFromEdges` | utils.go:143-154 | no more contacts than edges; every contact is the crossing point of some edge and carries that edge's normal; there are no contacts iff no edge is crossed |
| `LineTests.ContactsOf` | utils.go:126-156 | the per-kind loops collect exactly the shape's contacts; a shape of an unknown kind has none |
| `LineTests.CenterOf` | utils.go:162-167 | the accumulated and divided centre is the arithmetic mean of the contact points |
| `LineTests.SumPointsPermutation` | utils.go:162-172 | the sum of the points does not depend on their order |
| `LineTests.MeanPermutation` | utils.go:158-172 | sorting the contacts after computing the centre leaves it the mean of the sorted contacts |
| `Sequences.FilterNonEmpty` | utils.go:118-198 | the shapes kept by the hit test are non-empty iff some shape passes it, which gives `LineTest`'s return value: some set is built iff some shape other than the calling one has a contact |
| `LineTests.VisitShape` | utils.go:118-182 | the calling shape is skipped; a set is produced iff the shape has contacts, and it has non-empty contacts (a permutation of the shape's) sorted by squared distance to the original start, the centre as their mean, the shape as OtherShape, and the MTV from the nearest contact less the margin |
| `LineTests.HitShapesSnoc` | utils.go:118-182 | visiting one more shape appends it to the hit shapes exactly when it is not the calling shape and has a contact |
| `LineTests.ScanShapes` | utils.go:114-182 | the buffer holds one such set per hit shape, in visiting order |
| `LineTests.HitsPermutation` | utils.go:184-187 | reordering the sets keeps each set's properties and which shapes the sets are for |
| `LineTests.Notify` | utils.go:189-196 | the continuation gets sets 0, 1, 2, … with the number of sets, and no call follows the first that returns false |
| `LineTests.LineTest` | utils.go:106-200 | returns true iff some set was produced, iff some non-calling shape has a contact; no set is for the calling shape; each set has the properties above; there is one set per hit shape; the sets are sorted by the squared distance of their first contact to the margin-adjusted start; the continuation is called as `Notify` states, or not at all when it is nil |

## Findings

| source | as written | input that shows it | evidently intended | confidence | as-written member | corrected member |
|---|---|---|---|---|---|---|
| bounds.go:81 | `IsEmpty` tests `b.Max.Y - b.Min.X == 0`, mixing the Y of one corner with the X of the other | boxes [0,0]-[3,7] and [3,3]-[10,10] share the edge x = 3 from y = 3 to y = 7; `IsIntersecting` says false, yet for the same boxes with X and Y exchanged it says true | `b.Max.Y - b.Min.Y == 0`, so that the test treats both axes alike | medium; not executed | `Boxes.IsEmptyMixesAxes` | `Boxes.CorrectedIsTransposeInvariant` |

`Boxes.IsEmpty` and `Boxes.IsIntersecting` keep the behaviour as written,
because that is what the library does. `Boxes.IsEmptyCorrected` is the intended
predicate. Its property is proved in `Boxes.CorrectedIsTransposeInvariant`, and
`Boxes.DisjointIsEmpty` and `Boxes.ProperOverlapIntersects` hold for both readings.

## Left out

- Floating point: values are exact reals. Rounding, NaN, infinities, and the
  range of `int(math.Floor(...))` in `toCellSpace` are not modelled.
- ContactSets.Distance: the result is stated only when every projection lies
  within the finite float64 range, as every finite float64 does. On an empty set
  the model returns `-2 * MaxFloat64`, while Go's float arithmetic overflows
  that difference to negative infinity.
- `Vector.Unit()` (a square root), `IntersectionPointsCircle`,
  `IntersectionPointsLine` and `Normal()` live in files that are not part of
  this model. They are the fields of `LineTests.Primitives` and a function
  parameter of `Distance`. The line built by `newCollidingLine` is a plain
  `Segment`.
- `ConvexPolygon.Lines()` is not modelled. A polygon carries its edge list,
  already in world space, in `Shapes.ShapeKind.ConvexPolygon`. The computation
  of the edges from the polygon's own points and transform is left out.
- Shape identity and type switching: a shape is a datatype with an ID and a
  kind tag (circle, convex polygon, other). Interface equality with the calling
  shape becomes value equality, and a nil calling shape is `None`.
- `ShapeIterator` is a sequence of shapes visited in order. Its early exit is
  never used by `LineTest`, whose visitor always returns true.
- `Bounds` does not carry its `space` back-reference. `toCellSpace` takes the
  cell width and height as positive parameters instead. So Go's nil-`space`
  panic in `toCellSpace` is not modelled. That panic happens, for example, on the
  zero `Bounds` that `Intersection` returns (bounds.go:63).
- The package-level buffer `intersectionSets`: each `LineTest` call starts from
  an empty buffer and returns its final contents. The re-entrancy and
  concurrency hazard of sharing that buffer is not modelled.
- The package-level buffer `cellSelectionForEachIDSet` is not modelled;
  `IdInSet` takes the slice as a parameter.
- The continuation and the `ForEach` visitor are pure functions. Their side
  effects are not modelled; the calls they receive are returned as a trace.
- Go map iteration order is an arbitrary choice (`:|`). `sort.Slice` is modelled
  by an insertion sort, and its contracts promise only sortedness and permutation.
- The unused counter `i` in `LineTest`.
- The sort key of the contact sets treats a set without contacts as distance 0.
  Such a set never reaches the sort, because only sets with contacts are appended.
