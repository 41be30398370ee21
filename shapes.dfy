/**
 The shapes a line test visits: the circle and convex polygon kinds it
 dispatches on, and every other kind, which it skips.
 */
module Shapes {
  import opened Vectors

  /** What kind of shape a shape is; the library dispatches on the concrete
      type. Polygon edges are given already in world space. */
  datatype ShapeKind = Circle(position: Vector, radius: real) | ConvexPolygon(lines: seq<Segment>) | OtherKind

  /** A shape with a stable identity. */
  datatype Shape = Shape(id: nat, kind: ShapeKind)
}
