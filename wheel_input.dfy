/**
 * The wheel handler of the zoom viewer: how one wheel event, with its
 * modifier keys, becomes a zoom or a pan of the camera, and what a session
 * of such events does to the camera when each is applied in turn.
 */
module WheelInput {
  import opened CameraMath

  datatype Option<T> = None | Some(value: T)

  /** The fields of a wheel event the handler reads. */
  datatype WheelEvent = WheelEvent(
    clientX: real, clientY: real,
    deltaX: real, deltaY: real,
    ctrlKey: bool, shiftKey: bool)

  /** The relative zoom step of a ctrl-wheel event: a 400-pixel scroll is a whole step. */
  function ZoomStep(e: WheelEvent): real
  {
    e.deltaY / 400.0
  }

  /** The screen point the event happened at. */
  function Cursor(e: WheelEvent): Point
  {
    Point(e.clientX, e.clientY)
  }

  /** The screen delta an event without ctrl pans by: shift turns vertical scrolling into horizontal panning. */
  function PanDelta(e: WheelEvent): Point
  {
    if e.shiftKey then Point(e.deltaY, 0.0) else Point(e.deltaX, e.deltaY)
  }

  /**
   * The handler is well defined on this input: without a container it does
   * nothing; otherwise it divides by the scale, and a ctrl event with
   * deltaY = 400 would zoom to scale 0.
   */
  predicate CanHandle(c: Camera, e: WheelEvent, container: Option<Container>)
  {
    container.Some? ==> c.z != 0.0 && (e.ctrlKey ==> e.deltaY != 400.0)
  }

  /** The camera after one wheel event; with no container the event is ignored. */
  function HandleWheel(c: Camera, e: WheelEvent, container: Option<Container>): (r: Camera)
    requires CanHandle(c, e, container)
    ensures container.None? ==> r == c
    ensures container.Some? ==> r.z != 0.0
    ensures container.Some? && !e.ctrlKey ==> r.z == c.z
  {
    match container
    case None => c
    case Some(s) =>
      if e.ctrlKey then
        ZoomCamera(c, Cursor(e), ZoomStep(e), s)
      else
        PanCamera(c, PanDelta(e).x, PanDelta(e).y)
  }

  /** The three branches of the handler, in terms of the camera operators. */
  lemma WheelDispatch(c: Camera, e: WheelEvent, s: Container)
    requires CanHandle(c, e, Some(s))
    ensures e.ctrlKey ==> HandleWheel(c, e, Some(s)) == ZoomCamera(c, Cursor(e), e.deltaY / 400.0, s)
    ensures !e.ctrlKey && e.shiftKey ==> HandleWheel(c, e, Some(s)) == PanCamera(c, e.deltaY, 0.0)
    ensures !e.ctrlKey && !e.shiftKey ==> HandleWheel(c, e, Some(s)) == PanCamera(c, e.deltaX, e.deltaY)
  {
  }

  /** With ctrl held, shift makes no difference. */
  lemma CtrlTakesPrecedence(c: Camera, e: WheelEvent, container: Option<Container>)
    requires CanHandle(c, e, container) && e.ctrlKey
    ensures HandleWheel(c, e, container) == HandleWheel(c, e.(shiftKey := !e.shiftKey), container)
  {
  }

  /** A ctrl event multiplies the scale by 1 - deltaY / 400. */
  lemma WheelZoomScale(c: Camera, e: WheelEvent, s: Container)
    requires CanHandle(c, e, Some(s)) && e.ctrlKey
    ensures HandleWheel(c, e, Some(s)).z == c.z * (1.0 - e.deltaY / 400.0)
  {
    ZoomScale(c, Cursor(e), ZoomStep(e), s);
  }

  /** A ctrl event keeps the canvas point under the cursor under the cursor. */
  lemma WheelZoomKeepsAnchor(c: Camera, e: WheelEvent, s: Container)
    requires CanHandle(c, e, Some(s)) && e.ctrlKey
    ensures CanvasToScreen(ScreenToCanvas(Cursor(e), c, s), HandleWheel(c, e, Some(s)), s) == Cursor(e)
  {
    ZoomAnchorInvariance(c, Cursor(e), ZoomStep(e), s);
  }

  /** An event without ctrl moves the whole picture on screen by minus the pan delta. */
  lemma WheelPanMovesPicture(c: Camera, e: WheelEvent, s: Container, q: Point)
    requires CanHandle(c, e, Some(s)) && !e.ctrlKey
    ensures var before := CanvasToScreen(q, c, s);
            CanvasToScreen(q, HandleWheel(c, e, Some(s)), s) == Point(before.x - PanDelta(e).x, before.y - PanDelta(e).y)
  {
    PanMovesPicture(c, PanDelta(e).x, PanDelta(e).y, q, s);
  }

  // ---------------------------------------------------------------------
  // A session: wheel events applied one after another to the camera

  /** One wheel event together with the container as it is when the event arrives. */
  datatype Tick = Tick(event: WheelEvent, container: Option<Container>)

  /** The tick zooms the camera. */
  predicate Zooms(t: Tick)
  {
    t.container.Some? && t.event.ctrlKey
  }

  /** The tick does not zoom to scale 0. */
  predicate NonDegenerate(t: Tick)
  {
    Zooms(t) ==> t.event.deltaY != 400.0
  }

  /** The tick zooms by a factor that keeps a positive scale positive. */
  predicate KeepsPositive(t: Tick)
  {
    Zooms(t) ==> t.event.deltaY < 400.0
  }

  /** The factor one tick multiplies the scale by. */
  function TickFactor(t: Tick): real
  {
    if Zooms(t) then 1.0 - ZoomStep(t.event) else 1.0
  }

  /** The factor a sequence of ticks multiplies the scale by. */
  function ScaleFactor(ticks: seq<Tick>): real
  {
    if ticks == [] then 1.0 else TickFactor(ticks[0]) * ScaleFactor(ticks[1..])
  }

  /** The sum of the pan deltas of the ticks that pan. */
  function TotalPan(ticks: seq<Tick>): Point
  {
    if ticks == [] then Point(0.0, 0.0)
    else
      var rest := TotalPan(ticks[1..]);
      var t := ticks[0];
      if t.container.Some? && !t.event.ctrlKey then
        Point(PanDelta(t.event).x + rest.x, PanDelta(t.event).y + rest.y)
      else rest
  }

  /** The camera after the ticks have been handled in order, starting from c. */
  function Replay(c: Camera, ticks: seq<Tick>): (r: Camera)
    requires c.z != 0.0
    requires forall i :: 0 <= i < |ticks| ==> NonDegenerate(ticks[i])
    ensures r.z != 0.0
    decreases |ticks|
  {
    if ticks == [] then c
    else
      assert NonDegenerate(ticks[0]);
      Replay(HandleWheel(c, ticks[0].event, ticks[0].container), ticks[1..])
  }

  /** The scale after one tick, computed as the zoom handler computes it. */
  function ScaleStep(z: real, t: Tick): real
  {
    if Zooms(t) then ZoomedScale(z, ZoomStep(t.event)) else z
  }

  /** One tick's scale step is a multiplication by its factor. */
  lemma ScaleStepIsFactor(z: real, t: Tick)
    ensures ScaleStep(z, t) == z * TickFactor(t)
  {
    if Zooms(t) {
      ZoomedScaleLaw(z, ZoomStep(t.event));
    }
  }

  /** The scale after the ticks, starting from z, one step at a time. */
  function ScaleAfter(z: real, ticks: seq<Tick>): real
    decreases |ticks|
  {
    if ticks == [] then z else ScaleAfter(ScaleStep(z, ticks[0]), ticks[1..])
  }

  /** Multiplying factor by factor is multiplying by the product. */
  lemma {:induction false} ScaleAfterIsProduct(z: real, ticks: seq<Tick>)
    ensures ScaleAfter(z, ticks) == z * ScaleFactor(ticks)
    decreases |ticks|
  {
    if ticks != [] {
      var f := TickFactor(ticks[0]);
      ScaleStepIsFactor(z, ticks[0]);
      ScaleAfterIsProduct(ScaleStep(z, ticks[0]), ticks[1..]);
      assert (z * f) * ScaleFactor(ticks[1..]) == z * (f * ScaleFactor(ticks[1..]));
    }
  }

  /** No zoom step to scale 0 means a nonzero overall factor. */
  lemma {:induction false} ScaleFactorNonzero(ticks: seq<Tick>)
    requires forall i :: 0 <= i < |ticks| ==> NonDegenerate(ticks[i])
    ensures ScaleFactor(ticks) != 0.0
    decreases |ticks|
  {
    if ticks != [] {
      assert NonDegenerate(ticks[0]);
      ScaleFactorNonzero(ticks[1..]);
    }
  }

  /** Zoom steps that each keep a positive scale positive give a positive overall factor. */
  lemma {:induction false} ScaleFactorPositive(ticks: seq<Tick>)
    requires forall i :: 0 <= i < |ticks| ==> KeepsPositive(ticks[i])
    ensures ScaleFactor(ticks) > 0.0
    decreases |ticks|
  {
    if ticks != [] {
      assert KeepsPositive(ticks[0]);
      assert TickFactor(ticks[0]) > 0.0;
      ScaleFactorPositive(ticks[1..]);
    }
  }

  /** A session multiplies the scale by the product of the zoom factors of its ticks. */
  lemma {:induction false} ReplayScale(c: Camera, ticks: seq<Tick>)
    requires c.z != 0.0
    requires forall i :: 0 <= i < |ticks| ==> NonDegenerate(ticks[i])
    ensures Replay(c, ticks).z == c.z * ScaleFactor(ticks)
  {
    ReplayScaleStepwise(c, ticks);
    ScaleAfterIsProduct(c.z, ticks);
  }

  /** A session's scale is the scale after its ticks' steps. */
  lemma {:induction false} ReplayScaleStepwise(c: Camera, ticks: seq<Tick>)
    requires c.z != 0.0
    requires forall i :: 0 <= i < |ticks| ==> NonDegenerate(ticks[i])
    ensures Replay(c, ticks).z == ScaleAfter(c.z, ticks)
    decreases |ticks|
  {
    if ticks != [] {
      assert NonDegenerate(ticks[0]);
      var c1 := HandleWheel(c, ticks[0].event, ticks[0].container);
      HandleWheelScale(c, ticks[0]);
      ReplayScaleStepwise(c1, ticks[1..]);
    }
  }

  /** Steps that each keep a positive scale positive keep it positive all the way. */
  lemma {:induction false} ScaleAfterPositive(z: real, ticks: seq<Tick>)
    requires z > 0.0
    requires forall i :: 0 <= i < |ticks| ==> KeepsPositive(ticks[i])
    ensures ScaleAfter(z, ticks) > 0.0
    decreases |ticks|
  {
    if ticks != [] {
      assert KeepsPositive(ticks[0]);
      if Zooms(ticks[0]) {
        ZoomedScaleLaw(z, ZoomStep(ticks[0].event));
      }
      ScaleAfterPositive(ScaleStep(z, ticks[0]), ticks[1..]);
    }
  }

  /** A session from a positive scale in which every zoom step has deltaY < 400 keeps a positive scale. */
  lemma ReplayKeepsScalePositive(c: Camera, ticks: seq<Tick>)
    requires c.z > 0.0
    requires forall i :: 0 <= i < |ticks| ==> KeepsPositive(ticks[i])
    ensures forall i :: 0 <= i < |ticks| ==> NonDegenerate(ticks[i])
    ensures Replay(c, ticks).z > 0.0
  {
    ReplayScaleStepwise(c, ticks);
    ScaleAfterPositive(c.z, ticks);
  }

  /** A session without zoom steps pans by the sum of its deltas, divided by the unchanged scale. */
  lemma {:induction false} ReplayPansOnly(c: Camera, ticks: seq<Tick>)
    requires c.z != 0.0
    requires forall i :: 0 <= i < |ticks| ==> !Zooms(ticks[i])
    ensures forall i :: 0 <= i < |ticks| ==> NonDegenerate(ticks[i])
    ensures Replay(c, ticks) == Camera(c.x - TotalPan(ticks).x / c.z, c.y - TotalPan(ticks).y / c.z, c.z)
    decreases |ticks|
  {
    if ticks != [] {
      var t := ticks[0];
      var c1 := HandleWheel(c, t.event, t.container);
      ReplayPansOnly(c1, ticks[1..]);
      assert Replay(c, ticks) == Replay(c1, ticks[1..]);
      var rest := TotalPan(ticks[1..]);
      if t.container.Some? {
        var d := PanDelta(t.event);
        assert TotalPan(ticks) == Point(d.x + rest.x, d.y + rest.y);
        assert c1 == Camera(c.x - d.x / c.z, c.y - d.y / c.z, c.z);
        DivideSum(d.x, rest.x, c.z);
        DivideSum(d.y, rest.y, c.z);
      } else {
        assert TotalPan(ticks) == rest;
      }
    }
  }

  /** The handler moves the scale by exactly one scale step. */
  lemma HandleWheelScale(c: Camera, t: Tick)
    requires c.z != 0.0 && NonDegenerate(t)
    ensures HandleWheel(c, t.event, t.container).z == ScaleStep(c.z, t)
  {
  }

  lemma DivideSum(a: real, b: real, z: real)
    requires z != 0.0
    ensures a / z + b / z == (a + b) / z
  {
  }

  /** Handling a session in two parts is handling it at once. */
  lemma {:induction false} ReplayAppend(c: Camera, a: seq<Tick>, b: seq<Tick>)
    requires c.z != 0.0
    requires forall i :: 0 <= i < |a| ==> NonDegenerate(a[i])
    requires forall i :: 0 <= i < |b| ==> NonDegenerate(b[i])
    ensures forall i :: 0 <= i < |a + b| ==> NonDegenerate((a + b)[i])
    ensures Replay(c, a + b) == Replay(Replay(c, a), b)
    decreases |a|
  {
    if a != [] {
      assert (a + b)[1..] == a[1..] + b;
      var c1 := HandleWheel(c, a[0].event, a[0].container);
      ReplayAppend(c1, a[1..], b);
    } else {
      assert a + b == b;
    }
  }
}
