/**
  Vectors, quaternions, bounding boxes and the screen-to-NDC map shared by
  both revisions of the scene. Coordinates are exact reals: an idealisation
  of the JavaScript doubles.
 */
module Coords {

  datatype Vec2 = Vec2(x: real, y: real)

  datatype Vec3 = Vec3(x: real, y: real, z: real)

  /** A quaternion (x, y, z, w); cannon-es and three.js both start from the identity. */
  datatype Quat = Quat(x: real, y: real, z: real, w: real)

  const Identity: Quat := Quat(0.0, 0.0, 0.0, 1.0)

  /** An axis-aligned bounding box as three.js computes it for a geometry. */
  datatype Box3 = Box3(min: Vec3, max: Vec3)

  function Abs(x: real): (r: real)
    ensures r >= 0.0
    ensures r == x || r == -x
  {
    if x < 0.0 then -x else x
  }

  function Translate(b: Box3, d: Vec3): Box3 {
    Box3(Vec3(b.min.x + d.x, b.min.y + d.y, b.min.z + d.z),
         Vec3(b.max.x + d.x, b.max.y + d.y, b.max.z + d.z))
  }

  /** A pointer position in client pixels lies inside a viewport of this size. */
  predicate InViewport(clientX: real, clientY: real, width: real, height: real) {
    0.0 <= clientX <= width && 0.0 <= clientY <= height
  }

  predicate InNdcSquare(m: Vec2) {
    -1.0 <= m.x <= 1.0 && -1.0 <= m.y <= 1.0
  }

  /**
    `updateMousePosition`: client pixels to normalized device coordinates,
    x growing to the right and y growing upwards (screen y is inverted).
   */
  function ToNdc(clientX: real, clientY: real, width: real, height: real): (m: Vec2)
    requires width > 0.0 && height > 0.0
    ensures FromNdc(m, width, height) == Vec2(clientX, clientY)
  {
    var n := Vec2((clientX / width) * 2.0 - 1.0, -(clientY / height) * 2.0 + 1.0);
    assert (n.x + 1.0) * width == 2.0 * clientX by {
      assert n.x + 1.0 == 2.0 * (clientX / width);
    }
    assert (1.0 - n.y) * height == 2.0 * clientY by {
      assert 1.0 - n.y == 2.0 * (clientY / height);
    }
    n
  }

  /** The inverse map: normalized device coordinates back to client pixels. */
  function FromNdc(m: Vec2, width: real, height: real): Vec2
    requires width > 0.0 && height > 0.0
  {
    Vec2((m.x + 1.0) * width / 2.0, (1.0 - m.y) * height / 2.0)
  }

  lemma NdcRoundTripInverse(m: Vec2, width: real, height: real)
    requires width > 0.0 && height > 0.0
    ensures var p := FromNdc(m, width, height); ToNdc(p.x, p.y, width, height) == m
  {
    var p := FromNdc(m, width, height);
    var u, v := (m.x + 1.0) / 2.0, (1.0 - m.y) / 2.0;
    assert p.x == u * width;
    assert p.y == v * height;
    assert p.x / width == u;
    assert p.y / height == v;
  }

  /** The top-left pixel is NDC (-1, 1) and the bottom-right one is (1, -1). */
  lemma NdcCorners(width: real, height: real)
    requires width > 0.0 && height > 0.0
    ensures ToNdc(0.0, 0.0, width, height) == Vec2(-1.0, 1.0)
    ensures ToNdc(width, height, width, height) == Vec2(1.0, -1.0)
  {
  }

  /** A pointer lands in the NDC square exactly when it is inside the viewport. */
  lemma NdcSquareIffViewport(clientX: real, clientY: real, width: real, height: real)
    requires width > 0.0 && height > 0.0
    ensures InNdcSquare(ToNdc(clientX, clientY, width, height)) <==> InViewport(clientX, clientY, width, height)
  {
    var m := ToNdc(clientX, clientY, width, height);
    assert 0.0 <= clientX <==> 0.0 <= clientX / width;
    assert clientX <= width <==> clientX / width <= 1.0;
    assert 0.0 <= clientY <==> 0.0 <= clientY / height;
    assert clientY <= height <==> clientY / height <= 1.0;
  }

  /**
    A pointer displacement of (dx, dy) pixels is an NDC displacement of
    (2 dx / width, -2 dy / height): the tap thresholds of the pointer handlers
    are fractions of the viewport size, not pixel counts.
   */
  lemma NdcDelta(x0: real, y0: real, x1: real, y1: real, width: real, height: real)
    requires width > 0.0 && height > 0.0
    ensures ToNdc(x1, y1, width, height).x - ToNdc(x0, y0, width, height).x == 2.0 * (x1 - x0) / width
    ensures ToNdc(x1, y1, width, height).y - ToNdc(x0, y0, width, height).y == -2.0 * (y1 - y0) / height
  {
    assert x1 / width - x0 / width == (x1 - x0) / width;
    assert y1 / height - y0 / height == (y1 - y0) / height;
  }
}
