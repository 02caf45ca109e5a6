/**
 The position mapper of the panner-node comparison page: a marker on the
 2D canvas is given in normalised coordinates (the unit square, centre at
 (0.5, 0.5)) and is placed in a 3D room centred on the origin. The room is a
 horizontal plane at ear height, so the vertical coordinate is always 0 and
 the room's height plays no part.

 Coordinates are mathematical reals; floating-point rounding is not modelled.
 */
module Geometry {

  /** A point in world space, as passed to `setPosition(x, y, z)`. */
  datatype Point = Point(x: real, y: real, z: real)

  /** The room extent used for scaling; the page fixes it to the unit cube. */
  datatype Dimensions = Dimensions(width: real, height: real, depth: real)

  /** A canvas marker; only its normalised position matters here. */
  datatype Element = Element(x: real, y: real)

  const Origin := Point(0.0, 0.0, 0.0)

  const UnitRoom := Dimensions(1.0, 1.0, 1.0)

  /** Signed distance from the room's centre along one axis, for a normalised
      canvas coordinate `c`: half the room's extent per unit of canvas. */
  function Offset(c: real, extent: real): real
  {
    (c - 0.5) * extent / 2.0
  }

  /** Canvas position to world position: the canvas x axis becomes world x,
      the canvas y axis becomes world z, and each is scaled by half the
      room's extent along it. Inputs outside the unit square are not clamped. */
  function ToWorld(e: Element, dims: Dimensions): (p: Point)
    ensures p.y == 0.0
    ensures dims.width > 0.0 ==> (p.x < 0.0 <==> e.x < 0.5) && (p.x > 0.0 <==> e.x > 0.5)
    ensures dims.depth > 0.0 ==> (p.z < 0.0 <==> e.y < 0.5) && (p.z > 0.0 <==> e.y > 0.5)
  {
    SignOfOffset(e.x, dims.width);
    SignOfOffset(e.y, dims.depth);
    Point(Offset(e.x, dims.width), 0.0, Offset(e.y, dims.depth))
  }

  /** Scaling by a positive extent keeps the side of the centre. */
  lemma SignOfOffset(c: real, extent: real)
    ensures extent > 0.0 ==> (Offset(c, extent) < 0.0 <==> c < 0.5)
    ensures extent > 0.0 ==> (Offset(c, extent) > 0.0 <==> c > 0.5)
  {
    if extent > 0.0 {
      SignOfProduct(c - 0.5, extent);
    }
  }

  lemma QuotientOfProduct(d: real, w: real)
    requires w != 0.0
    ensures d * w / w == d
  {
    var q := d * w / w;
    assert q * w == d * w;
    assert (q - d) * w == 0.0;
  }

  /** World position back to canvas position, for a room of non-zero extent:
      the inverse against which `ToWorld` is checked. */
  function ToCanvas(p: Point, dims: Dimensions): (e: Element)
    requires dims.width != 0.0 && dims.depth != 0.0
    ensures (e.x - 0.5) * dims.width == 2.0 * p.x
    ensures (e.y - 0.5) * dims.depth == 2.0 * p.z
  {
    QuotientOfProduct(2.0 * p.x, dims.width);
    QuotientOfProduct(2.0 * p.z, dims.depth);
    Element(2.0 * p.x / dims.width + 0.5, 2.0 * p.z / dims.depth + 0.5)
  }

  /** `ToWorld` loses nothing: the canvas position is recovered from the world
      position in any room of non-zero width and depth. */
  lemma CanvasRoundTrip(e: Element, dims: Dimensions)
    requires dims.width != 0.0 && dims.depth != 0.0
    ensures ToCanvas(ToWorld(e, dims), dims) == e
  {
    var p := ToWorld(e, dims);
    QuotientOfProduct(e.x - 0.5, dims.width);
    QuotientOfProduct(e.y - 0.5, dims.depth);
    assert 2.0 * p.x == (e.x - 0.5) * dims.width;
    assert 2.0 * p.z == (e.y - 0.5) * dims.depth;
  }

  /** Every point of the horizontal plane is reached, by exactly the canvas
      position `ToCanvas` gives. */
  lemma WorldRoundTrip(p: Point, dims: Dimensions)
    requires dims.width != 0.0 && dims.depth != 0.0
    requires p.y == 0.0
    ensures ToWorld(ToCanvas(p, dims), dims) == p
  {
  }

  /** The centre of the canvas is the origin of the room, whatever its size. */
  lemma CentreIsOrigin(dims: Dimensions)
    ensures ToWorld(Element(0.5, 0.5), dims) == Origin
  {
  }

  /** The room's height is never used. */
  lemma HeightIgnored(e: Element, dims: Dimensions, h: real)
    ensures ToWorld(e, dims.(height := h)) == ToWorld(e, dims)
  {
  }

  /** The mapping is affine: moving a marker moves its world point by the
      same displacement scaled by half the room extent along each axis. */
  lemma Displacement(e1: Element, e2: Element, dims: Dimensions)
    ensures ToWorld(e1, dims).x - ToWorld(e2, dims).x == (e1.x - e2.x) * dims.width / 2.0
    ensures ToWorld(e1, dims).z - ToWorld(e2, dims).z == (e1.y - e2.y) * dims.depth / 2.0
    ensures ToWorld(e1, dims).y == ToWorld(e2, dims).y
  {
  }

  /** A marker on the canvas lands within a quarter of the room's extent of
      the centre along x; one off the canvas lands beyond it (no clamping). */
  lemma CanvasSpan(e: Element, dims: Dimensions)
    requires dims.width > 0.0
    ensures 0.0 <= e.x <= 1.0 <==> -dims.width / 4.0 <= ToWorld(e, dims).x <= dims.width / 4.0
  {
    var w := dims.width;
    assert ToWorld(e, dims).x == Offset(e.x, w);
    assert Offset(e.x, w) + w / 4.0 == e.x * w / 2.0 by {
      assert (e.x - 0.5) * w == e.x * w - 0.5 * w;
    }
    assert Offset(e.x, w) - w / 4.0 == (e.x - 1.0) * w / 2.0 by {
      assert (e.x - 0.5) * w == (e.x - 1.0) * w + 0.5 * w;
    }
    SignOfProduct(e.x, w);
    SignOfProduct(e.x - 1.0, w);
  }

  /** A positive factor keeps the sign. */
  lemma SignOfProduct(a: real, w: real)
    requires w > 0.0
    ensures a < 0.0 <==> a * w < 0.0
    ensures a > 0.0 <==> a * w > 0.0
  {
    if a < 0.0 {
      assert (-a) * w > 0.0;
    } else if a > 0.0 {
      assert a * w > 0.0;
    }
  }

  /** Worked examples in the page's unit room: the source marker's starting
      place, and one of the listener markers. */
  lemma UnitRoomExamples()
    ensures ToWorld(Element(0.35, 0.5), UnitRoom) == Point(-0.075, 0.0, 0.0)
    ensures ToWorld(Element(0.8, 0.2), UnitRoom) == Point(0.15, 0.0, -0.15)
  {
  }
}
