/**
 * Shape records of the drawing page, the point-in-shape test used to pick a
 * shape for dragging, and the mapping of a shape to the vector primitive it is
 * drawn as. Coordinates are exact reals; every square root in the page's
 * circle hit-test and circle drawing is replaced by a comparison of squares.
 */
module Geometry {
  import opened Wrappers

  /** The `type` field of a shape. `Other` stands for any string outside the four tools. */
  datatype ShapeKind = Rectangle | Circle | Triangle | Square | Other(name: string)

  /** A shape record: origin, signed extents (the drag vector) and fill colour. */
  datatype Shape = Shape(kind: ShapeKind, x: real, y: real, width: real, height: real, color: string)

  datatype Point = Point(x: real, y: real)

  /**
   * The vector primitive a shape is drawn as. A circle carries the SQUARE of
   * its radius; a triangle is a polygon with three vertices.
   */
  datatype Primitive =
    | SvgRect(x: real, y: real, width: real, height: real)
    | SvgCircle(cx: real, cy: real, radiusSq: real)
    | SvgPolygon(a: Point, b: Point, c: Point)

  function Abs(v: real): real { if v < 0.0 then -v else v }
  function Min(a: real, b: real): real { if a <= b then a else b }
  function Max(a: real, b: real): real { if a <= b then b else a }
  function Sq(v: real): real { v * v }

  /** The point lies in the closed axis-aligned rectangle drawn for `r`. */
  predicate InRect(r: Primitive, px: real, py: real)
    requires r.SvgRect?
  {
    r.x <= px <= r.x + r.width && r.y <= py <= r.y + r.height
  }

  /**
   * Whether the point (px, py) hits shape `s`: rectangles and squares by the
   * box from the raw origin spanning the absolute extents, circles by the
   * distance to the origin against the length of the drag vector, triangles
   * by the bounding box of their three vertices, anything else never.
   */
  predicate Contains(px: real, py: real, s: Shape): (r: bool)
    ensures (s.kind == Rectangle || s.kind == Square) && r ==> s.x <= px && s.y <= py
    ensures s.kind == Triangle ==>
      (r <==> Min(s.x, s.x + s.width) <= px <= Max(s.x, s.x + s.width) &&
              Min(s.y, s.y - s.height) <= py <= Max(s.y, s.y - s.height))
  {
    match s.kind
    case Rectangle | Square =>
      px >= s.x && px <= s.x + Abs(s.width) && py >= s.y && py <= s.y + Abs(s.height)
    case Circle =>
      Sq(px - s.x) + Sq(py - s.y) <= Sq(s.width) + Sq(s.height)
    case Triangle =>
      var minX := Min(Min(s.x, s.x + s.width), s.x + s.width / 2.0);
      var maxX := Max(Max(s.x, s.x + s.width), s.x + s.width / 2.0);
      var minY := Min(Min(s.y, s.y - s.height), s.y);
      var maxY := Max(Max(s.y, s.y - s.height), s.y);
      px >= minX && px <= maxX && py >= minY && py <= maxY
    case Other(_) => false
  }

  /**
   * The primitive a shape is drawn as, or None for an unknown type. A
   * rectangle is normalised to the box spanned by its two drag corners; a
   * square keeps the raw origin and takes the shorter absolute extent as its
   * side; a circle is centred on the origin with the drag vector as radius; a
   * triangle has its base from the origin along the width and its apex over
   * the middle of the base, `height` above it.
   */
  function Render(s: Shape): (r: Option<Primitive>)
    ensures r.None? <==> s.kind.Other?
    ensures s.kind == Rectangle ==>
      r.Some? && r.value.SvgRect? && r.value.width >= 0.0 && r.value.height >= 0.0 &&
      r.value.x == Min(s.x, s.x + s.width) && r.value.x + r.value.width == Max(s.x, s.x + s.width) &&
      r.value.y == Min(s.y, s.y + s.height) && r.value.y + r.value.height == Max(s.y, s.y + s.height)
    ensures s.kind == Square ==>
      r.Some? && r.value.SvgRect? && r.value.x == s.x && r.value.y == s.y &&
      r.value.width == r.value.height && 0.0 <= r.value.width &&
      r.value.width <= Abs(s.width) && r.value.width <= Abs(s.height) &&
      (r.value.width == Abs(s.width) || r.value.width == Abs(s.height))
    ensures s.kind == Circle ==>
      r.Some? && r.value.SvgCircle? && r.value.cx == s.x && r.value.cy == s.y &&
      r.value.radiusSq == Sq(s.width) + Sq(s.height) && r.value.radiusSq >= 0.0
    ensures s.kind == Triangle ==>
      r.Some? && r.value.SvgPolygon? && r.value.a == Point(s.x, s.y) &&
      r.value.b.y == r.value.a.y && r.value.b.x - r.value.a.x == s.width &&
      r.value.c.x == (r.value.a.x + r.value.b.x) / 2.0 && r.value.a.y - r.value.c.y == s.height
  {
    match s.kind
    case Rectangle =>
      Some(SvgRect(Min(s.x, s.x + s.width), Min(s.y, s.y + s.height), Abs(s.width), Abs(s.height)))
    case Circle =>
      Some(SvgCircle(s.x, s.y, Sq(s.width) + Sq(s.height)))
    case Triangle =>
      Some(SvgPolygon(Point(s.x, s.y), Point(s.x + s.width, s.y), Point(s.x + s.width / 2.0, s.y - s.height)))
    case Square =>
      var side := Min(Abs(s.width), Abs(s.height));
      Some(SvgRect(s.x, s.y, side, side))
    case Other(_) => None
  }

  /** The primitives drawn for a list of shapes, in list order. */
  function RenderAll(ss: seq<Shape>): (r: seq<Option<Primitive>>)
    ensures |r| == |ss|
    ensures forall i :: 0 <= i < |ss| ==> r[i] == Render(ss[i])
  {
    if ss == [] then [] else [Render(ss[0])] + RenderAll(ss[1..])
  }

  /**
   * The lowest index at or after `from` whose shape contains the point, or
   * None when no shape from `from` on contains it.
   */
  function FirstHitFrom(ss: seq<Shape>, px: real, py: real, from: nat): (r: Option<nat>)
    requires from <= |ss|
    ensures r.Some? ==>
      from <= r.value < |ss| && Contains(px, py, ss[r.value]) &&
      forall j :: from <= j < r.value ==> !Contains(px, py, ss[j])
    ensures r.None? ==> forall j :: from <= j < |ss| ==> !Contains(px, py, ss[j])
    decreases |ss| - from
  {
    if from == |ss| then None
    else if Contains(px, py, ss[from]) then Some(from)
    else FirstHitFrom(ss, px, py, from + 1)
  }

  /** The index `findIndex` reports for the point: the lowest shape that contains it. */
  function FirstHit(ss: seq<Shape>, px: real, py: real): (r: Option<nat>)
    ensures r.Some? ==>
      r.value < |ss| && Contains(px, py, ss[r.value]) &&
      forall j :: 0 <= j < r.value ==> !Contains(px, py, ss[j])
    ensures r.None? <==> forall j :: 0 <= j < |ss| ==> !Contains(px, py, ss[j])
  {
    FirstHitFrom(ss, px, py, 0)
  }

  // ---------------------------------------------------------------------------
  // Hit-testing against rendering

  /** A circle contains its centre, and every point of its rim. */
  lemma CircleContainsCentreAndRim(s: Shape)
    requires s.kind == Circle
    ensures Contains(s.x, s.y, s)
    ensures Contains(s.x + s.width, s.y + s.height, s)
    ensures forall px, py :: Sq(px - s.x) + Sq(py - s.y) == Sq(s.width) + Sq(s.height) ==> Contains(px, py, s)
  {
  }

  /** The circle hit-test is exactly the closed disc that is drawn. */
  lemma CircleHitIsRenderedDisc(s: Shape, px: real, py: real)
    requires s.kind == Circle
    ensures Render(s).Some? && Render(s).value.SvgCircle?
    ensures Contains(px, py, s) <==>
      Sq(px - Render(s).value.cx) + Sq(py - Render(s).value.cy) <= Render(s).value.radiusSq
  {
  }

  /** The triangle's bounding-box test accepts all three drawn vertices. */
  lemma TriangleBoxHoldsVertices(s: Shape)
    requires s.kind == Triangle
    ensures Render(s).Some? && Render(s).value.SvgPolygon?
    ensures Contains(Render(s).value.a.x, Render(s).value.a.y, s)
    ensures Contains(Render(s).value.b.x, Render(s).value.b.y, s)
    ensures Contains(Render(s).value.c.x, Render(s).value.c.y, s)
  {
  }

  /** A shape of unknown type is never hit. */
  lemma UnknownNeverHit(s: Shape, px: real, py: real)
    requires s.kind.Other?
    ensures !Contains(px, py, s)
  {
  }

  /** Every point of a drawn square lies in its hit box. */
  lemma SquareRenderedInsideHitBox(s: Shape, px: real, py: real)
    requires s.kind == Square
    ensures Render(s).Some? && Render(s).value.SvgRect?
    ensures InRect(Render(s).value, px, py) ==> Contains(px, py, s)
  {
  }

  /** A rectangle dragged down and to the right is hit exactly where it is drawn. */
  lemma RectangleHitMatchesRendered(s: Shape, px: real, py: real)
    requires s.kind == Rectangle && s.width >= 0.0 && s.height >= 0.0
    ensures Render(s).Some? && Render(s).value.SvgRect?
    ensures Contains(px, py, s) <==> InRect(Render(s).value, px, py)
  {
  }

  /**
   * A rectangle dragged to the left is drawn to the left of its origin, but
   * hit-tested to the right of it: the centre of the drawn box is not a hit,
   * while its mirror image across the origin is.
   */
  lemma FlippedRectangleMissesItsCentre(s: Shape)
    requires s.kind == Rectangle && s.width < 0.0
    ensures Render(s).Some? && Render(s).value.SvgRect?
    ensures InRect(Render(s).value, s.x + s.width / 2.0, s.y + s.height / 2.0)
    ensures !Contains(s.x + s.width / 2.0, s.y + s.height / 2.0, s)
    ensures Contains(s.x - s.width / 2.0, s.y + Abs(s.height) / 2.0, s)
  {
  }

  /**
   * A square dragged wider than tall is drawn with the shorter side but hit
   * over the whole absolute width: a point right of the drawn square is a hit.
   */
  lemma UnevenSquareHitOutsideDrawn(s: Shape)
    requires s.kind == Square && Abs(s.width) > Abs(s.height)
    ensures Render(s).Some? && Render(s).value.SvgRect?
    ensures !InRect(Render(s).value, s.x + Abs(s.width), s.y)
    ensures Contains(s.x + Abs(s.width), s.y, s)
  {
  }

  /** The same rectangle dragged from the opposite corner. */
  function Flipped(s: Shape): Shape
  {
    s.(x := s.x + s.width, y := s.y + s.height, width := -s.width, height := -s.height)
  }

  /** A rectangle is drawn the same whichever corner the drag started from. */
  lemma RectangleRenderIgnoresDragDirection(s: Shape)
    requires s.kind == Rectangle
    ensures Render(Flipped(s)) == Render(s)
  {
  }
}
