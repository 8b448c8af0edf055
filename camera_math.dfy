/**
 * The camera of the zoom viewer: a translation (x, y) in canvas units and a
 * uniform scale z, and the conversions between screen space (pixels from the
 * container's top-left corner) and canvas space (the image's own coordinates).
 * The transform is anchored at the centre of the container.
 *
 * Numbers are exact reals; a division by the scale needs the scale nonzero.
 * The operators below carry only the facts callers need to stay well defined;
 * the algebraic laws they obey are the lemmas that follow them.
 */
module CameraMath {

  /** A 2D coordinate; its unit depends on the space it lives in. */
  datatype Point = Point(x: real, y: real)

  /** Translation (x, y), applied before scaling, and uniform scale z. */
  datatype Camera = Camera(x: real, y: real, z: real)

  /** The viewport element, reduced to its client width and height. */
  datatype Container = Container(width: real, height: real)

  /** The camera a session starts with: no pan, no zoom. */
  const INITIAL_CAMERA: Camera := Camera(0.0, 0.0, 1.0)

  /** Maps a screen point to the canvas point that the camera shows there. */
  function ScreenToCanvas(p: Point, c: Camera, s: Container): Point
    requires c.z != 0.0
  {
    Point((p.x - s.width / 2.0) / c.z - c.x, (p.y - s.height / 2.0) / c.z - c.y)
  }

  /** Maps a canvas point to the screen point where the camera renders it. */
  function CanvasToScreen(p: Point, c: Camera, s: Container): Point
  {
    Point((p.x + c.x) * c.z + s.width / 2.0, (p.y + c.y) * c.z + s.height / 2.0)
  }

  /** Shifts the translation by a screen-space delta divided by the zoom; the scale stays. */
  function PanCamera(c: Camera, dx: real, dy: real): (r: Camera)
    requires c.z != 0.0
    ensures r.z == c.z
  {
    Camera(c.x - dx / c.z, c.y - dy / c.z, c.z)
  }

  /** The scale after a zoom step of relative size dz, as the handler computes it. */
  function ZoomedScale(z: real, dz: real): real
  {
    z - dz * z
  }

  /**
   * Rescales the camera by 1 - dz and corrects its translation by the
   * difference between where p lands in canvas space under the new scale and
   * under the old one.
   */
  function ZoomCamera(c: Camera, p: Point, dz: real, s: Container): (r: Camera)
    requires c.z != 0.0 && dz != 1.0
    ensures r.z != 0.0
  {
    ZoomedScaleLaw(c.z, dz);
    var zoom := ZoomedScale(c.z, dz);
    var p1 := ScreenToCanvas(p, c, s);
    var p2 := ScreenToCanvas(p, c.(z := zoom), s);
    Camera(c.x + p2.x - p1.x, c.y + p2.y - p1.y, zoom)
  }

  // ---------------------------------------------------------------------
  // Coordinate mapper

  /** One axis of the mapper: dividing out the scale and multiplying it back in are inverse. */
  lemma AxisInverse(screen: real, canvas: real, shift: real, z: real, half: real)
    requires z != 0.0
    ensures (screen - half) / z - shift == canvas <==> (canvas + shift) * z + half == screen
  {
    assert (screen - half) / z * z == screen - half;
    if (canvas + shift) * z + half == screen {
      assert (canvas + shift) * z / z == canvas + shift;
    }
  }

  /** Under a camera with nonzero scale, screen and canvas points correspond one to one. */
  lemma ScreenCanvasCorrespond(p: Point, q: Point, c: Camera, s: Container)
    requires c.z != 0.0
    ensures ScreenToCanvas(p, c, s) == q <==> CanvasToScreen(q, c, s) == p
  {
    AxisInverse(p.x, q.x, c.x, c.z, s.width / 2.0);
    AxisInverse(p.y, q.y, c.y, c.z, s.height / 2.0);
  }

  lemma RoundTripCanvasScreenCanvas(p: Point, c: Camera, s: Container)
    requires c.z != 0.0
    ensures ScreenToCanvas(CanvasToScreen(p, c, s), c, s) == p
  {
    ScreenCanvasCorrespond(CanvasToScreen(p, c, s), p, c, s);
  }

  lemma RoundTripScreenCanvasScreen(p: Point, c: Camera, s: Container)
    requires c.z != 0.0
    ensures CanvasToScreen(ScreenToCanvas(p, c, s), c, s) == p
  {
    ScreenCanvasCorrespond(p, ScreenToCanvas(p, c, s), c, s);
  }

  /** The initial camera puts the canvas origin at the container centre, at unit scale. */
  lemma InitialCameraView(p: Point, s: Container)
    ensures ScreenToCanvas(p, INITIAL_CAMERA, s) == Point(p.x - s.width / 2.0, p.y - s.height / 2.0)
    ensures CanvasToScreen(Point(0.0, 0.0), INITIAL_CAMERA, s) == Point(s.width / 2.0, s.height / 2.0)
  {
  }

  // ---------------------------------------------------------------------
  // Pan operator

  /** One axis of a pan: the rendered coordinate moves by exactly minus the delta. */
  lemma AxisPan(q: real, t: real, d: real, z: real, half: real)
    requires z != 0.0
    ensures (q + (t - d / z)) * z + half == (q + t) * z + half - d
  {
    assert (d / z) * z == d;
    assert (q + (t - d / z)) * z == (q + t) * z - (d / z) * z;
  }

  /** Panning moves every canvas point on screen by exactly (-dx, -dy), at any zoom. */
  lemma PanMovesPicture(c: Camera, dx: real, dy: real, q: Point, s: Container)
    requires c.z != 0.0
    ensures var before := CanvasToScreen(q, c, s);
            CanvasToScreen(q, PanCamera(c, dx, dy), s) == Point(before.x - dx, before.y - dy)
  {
    var r := PanCamera(c, dx, dy);
    assert r.x == c.x - dx / c.z && r.y == c.y - dy / c.z && r.z == c.z;
    var after := CanvasToScreen(q, r, s);
    assert after.x == (q.x + (c.x - dx / c.z)) * c.z + s.width / 2.0;
    assert after.y == (q.y + (c.y - dy / c.z)) * c.z + s.height / 2.0;
    AxisPan(q.x, c.x, dx, c.z, s.width / 2.0);
    AxisPan(q.y, c.y, dy, c.z, s.height / 2.0);
  }

  lemma PanIdentity(c: Camera)
    requires c.z != 0.0
    ensures PanCamera(c, 0.0, 0.0) == c
  {
    assert 0.0 / c.z == 0.0;
  }

  /** Two pans add up to one pan by the sum of their deltas. */
  lemma PanCompose(c: Camera, dx1: real, dy1: real, dx2: real, dy2: real)
    requires c.z != 0.0
    ensures PanCamera(PanCamera(c, dx1, dy1), dx2, dy2) == PanCamera(c, dx1 + dx2, dy1 + dy2)
  {
  }

  /** A pan of 10 pixels moves the translation by 5 canvas units at 2x zoom, by 10 at 1x. */
  lemma PanScaleSensitivity()
    ensures PanCamera(Camera(0.0, 0.0, 2.0), 10.0, 0.0) == Camera(-5.0, 0.0, 2.0)
    ensures PanCamera(Camera(0.0, 0.0, 1.0), 10.0, 0.0) == Camera(-10.0, 0.0, 1.0)
  {
    assert PanCamera(Camera(0.0, 0.0, 2.0), 10.0, 0.0) == Camera(0.0 - 10.0 / 2.0, 0.0 - 0.0 / 2.0, 2.0);
    assert PanCamera(Camera(0.0, 0.0, 1.0), 10.0, 0.0) == Camera(0.0 - 10.0 / 1.0, 0.0 - 0.0 / 1.0, 1.0);
  }

  // ---------------------------------------------------------------------
  // Zoom operator

  /**
   * The new scale is z * (1 - dz); from a positive scale it stays positive
   * exactly when dz < 1, and dz = 1 drives it to the degenerate scale 0.
   */
  lemma ZoomedScaleLaw(z: real, dz: real)
    ensures ZoomedScale(z, dz) == z * (1.0 - dz)
    ensures z > 0.0 ==> (ZoomedScale(z, dz) > 0.0 <==> dz < 1.0)
    ensures ZoomedScale(z, dz) == 0.0 <==> z == 0.0 || dz == 1.0
  {
  }

  /** A zoom multiplies the scale by 1 - dz. */
  lemma ZoomScale(c: Camera, p: Point, dz: real, s: Container)
    requires c.z != 0.0 && dz != 1.0
    ensures ZoomCamera(c, p, dz, s).z == c.z * (1.0 - dz)
  {
    ZoomedScaleLaw(c.z, dz);
  }

  /** The canvas point under p is the same before and after a zoom at p. */
  lemma ZoomKeepsAnchor(c: Camera, p: Point, dz: real, s: Container)
    requires c.z != 0.0 && dz != 1.0
    ensures ScreenToCanvas(p, ZoomCamera(c, p, dz, s), s) == ScreenToCanvas(p, c, s)
  {
  }

  /** The canvas point under the cursor before a zoom is rendered under the cursor after it. */
  lemma ZoomAnchorInvariance(c: Camera, p: Point, dz: real, s: Container)
    requires c.z != 0.0 && dz != 1.0
    ensures CanvasToScreen(ScreenToCanvas(p, c, s), ZoomCamera(c, p, dz, s), s) == p
  {
    var r := ZoomCamera(c, p, dz, s);
    ZoomKeepsAnchor(c, p, dz, s);
    RoundTripScreenCanvasScreen(p, r, s);
  }

  lemma ZoomNoOp(c: Camera, p: Point, s: Container)
    requires c.z != 0.0
    ensures ZoomCamera(c, p, 0.0, s) == c
  {
  }

  /**
   * ZoomCamera is the only camera with the new scale that keeps the canvas
   * point under p fixed.
   */
  lemma ZoomUnique(c: Camera, p: Point, dz: real, s: Container, d: Camera)
    requires c.z != 0.0 && dz != 1.0
    requires d.z == c.z * (1.0 - dz)
    requires ScreenToCanvas(p, d, s) == ScreenToCanvas(p, c, s)
    ensures d == ZoomCamera(c, p, dz, s)
  {
    var r := ZoomCamera(c, p, dz, s);
    ZoomScale(c, p, dz, s);
    ZoomKeepsAnchor(c, p, dz, s);
    assert d.z == r.z;
    assert ScreenToCanvas(p, d, s) == ScreenToCanvas(p, r, s);
  }

  /** Two zoom steps at the same point make one step whose factor is the product of theirs. */
  lemma ZoomCompose(c: Camera, p: Point, dz1: real, dz2: real, s: Container)
    requires c.z != 0.0 && dz1 != 1.0 && dz2 != 1.0
    ensures dz1 + dz2 - dz1 * dz2 != 1.0
    ensures ZoomCamera(ZoomCamera(c, p, dz1, s), p, dz2, s) == ZoomCamera(c, p, dz1 + dz2 - dz1 * dz2, s)
  {
    var dz := dz1 + dz2 - dz1 * dz2;
    assert 1.0 - dz == (1.0 - dz1) * (1.0 - dz2);
    var c1 := ZoomCamera(c, p, dz1, s);
    var c2 := ZoomCamera(c1, p, dz2, s);
    ZoomScale(c, p, dz1, s);
    ZoomScale(c1, p, dz2, s);
    assert c2.z == c.z * (1.0 - dz) by {
      assert c2.z == (c.z * (1.0 - dz1)) * (1.0 - dz2);
    }
    ZoomKeepsAnchor(c, p, dz1, s);
    ZoomKeepsAnchor(c1, p, dz2, s);
    ZoomUnique(c, p, dz, s, c2);
  }

  /** Zooming at the container centre keeps the translation. */
  lemma ZoomAtCentre(c: Camera, dz: real, s: Container)
    requires c.z != 0.0 && dz != 1.0
    ensures var r := ZoomCamera(c, Point(s.width / 2.0, s.height / 2.0), dz, s);
            r.x == c.x && r.y == c.y
  {
  }

  /** Zooming out by half at the centre of a 400x300 container keeps the initial translation. */
  lemma ZoomAtCentreExample()
    ensures ZoomCamera(INITIAL_CAMERA, Point(200.0, 150.0), 0.5, Container(400.0, 300.0)) == Camera(0.0, 0.0, 0.5)
  {
    ZoomAtCentre(INITIAL_CAMERA, 0.5, Container(400.0, 300.0));
  }

  /** Zooming out by half at the top-left corner of a 400x300 container shifts the translation. */
  lemma ZoomAtCornerExample()
    ensures ZoomCamera(INITIAL_CAMERA, Point(0.0, 0.0), 0.5, Container(400.0, 300.0)) == Camera(-200.0, -150.0, 0.5)
  {
    var s := Container(400.0, 300.0);
    assert ScreenToCanvas(Point(0.0, 0.0), INITIAL_CAMERA, s) == Point(-200.0, -150.0);
    assert ScreenToCanvas(Point(0.0, 0.0), Camera(0.0, 0.0, 0.5), s) == Point(-400.0, -300.0);
  }
}
