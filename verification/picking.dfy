/**
  Picking a ball with the mouse (`onMouseDown`): the pointer is mapped to
  the main viewport's normalized device coordinates, a ray is cast from the
  main camera, and the first ball in list order that the ray hits becomes
  the selection shown in the ball-info panel.
 */
module Picking {
  import opened Wrappers
  import opened Geometry
  import opened Scene
  import opened Viewports

  /** The ray the raycaster is set to: normalized device coordinates and the
      camera it is cast from (represented by its position). */
  datatype Ray = Ray(ndcX: real, ndcY: real, origin: Vec3)

  /** A point of the window plane: client coordinates (pixels, y from the
      top) or normalized device coordinates. */
  datatype Point2 = Point2(x: real, y: real)

  /** Normalized device coordinates of a client point, always computed
      against the main viewport. */
  function MainViewportNdc(clientX: real, clientY: real, w: real, h: real): (r: Point2)
    requires 0.0 < w && 0.0 < h
    ensures clientX == w * StripShare ==> r.x == -1.0
    ensures clientX == w ==> r.x == 1.0
    ensures clientY == 0.0 ==> r.y == 1.0
    ensures clientY == h ==> r.y == -1.0
  {
    assert w - w * StripShare == w * MainShare;
    var mainViewportX := w * StripShare;
    Point2(((clientX - mainViewportX) / (w * MainShare)) * 2.0 - 1.0, -(clientY / h) * 2.0 + 1.0)
  }

  /** The client point that has the given normalized device coordinates. */
  function NdcToClient(ndcX: real, ndcY: real, w: real, h: real): Point2 {
    Point2(w * StripShare + (ndcX + 1.0) / 2.0 * (w * MainShare), (1.0 - ndcY) / 2.0 * h)
  }

  lemma DivThenMul(p: real, m: real)
    requires m != 0.0
    ensures (p / m) * m == p
  {
  }
  lemma MulThenDiv(t: real, m: real)
    requires m != 0.0
    ensures (t * m) / m == t
  {
  }
  /** One horizontal client coordinate survives the trip through device
      coordinates, and one device coordinate the trip through client ones. */
  lemma AxisXRoundTrip(v: real, a: real, m: real)
    requires m != 0.0
    ensures a + (((v - a) / m) * 2.0 - 1.0 + 1.0) / 2.0 * m == v
    ensures ((a + (v + 1.0) / 2.0 * m - a) / m) * 2.0 - 1.0 == v
  {
    var t := (v - a) / m;
    DivThenMul(v - a, m);
    assert (t * 2.0 - 1.0 + 1.0) / 2.0 == t;
    var u := (v + 1.0) / 2.0;
    assert a + u * m - a == u * m;
    MulThenDiv(u, m);
    assert (a + u * m - a) / m == u;
    assert (a + (v + 1.0) / 2.0 * m - a) / m == u;
  }
  /** The same for the vertical coordinate, whose axis is flipped. */
  lemma AxisYRoundTrip(v: real, h: real)
    requires h != 0.0
    ensures (1.0 - (-(v / h) * 2.0 + 1.0)) / 2.0 * h == v
    ensures -(((1.0 - v) / 2.0 * h) / h) * 2.0 + 1.0 == v
  {
    var t := v / h;
    DivThenMul(v, h);
    assert (1.0 - (-t * 2.0 + 1.0)) / 2.0 == t;
    var u := (1.0 - v) / 2.0;
    MulThenDiv(u, h);
    assert ((1.0 - v) / 2.0 * h) / h == u;
  }

  /** The mapping is invertible: a client point is recovered from its
      device coordinates ... */
  lemma NdcRoundTrip(clientX: real, clientY: real, w: real, h: real)
    requires 0.0 < w && 0.0 < h
    ensures var ndc := MainViewportNdc(clientX, clientY, w, h);
      NdcToClient(ndc.x, ndc.y, w, h) == Point2(clientX, clientY)
  {
    AxisXRoundTrip(clientX, w * StripShare, w * MainShare);
    AxisYRoundTrip(clientY, h);
  }

  /** ... and device coordinates from the client point they denote. */
  lemma ClientRoundTrip(ndcX: real, ndcY: real, w: real, h: real)
    requires 0.0 < w && 0.0 < h
    ensures var c := NdcToClient(ndcX, ndcY, w, h);
      MainViewportNdc(c.x, c.y, w, h) == Point2(ndcX, ndcY)
  {
    var a, m := w * StripShare, w * MainShare;
    AxisXRoundTrip(ndcX, a, m);
    AxisYRoundTrip(ndcY, h);
    var c := NdcToClient(ndcX, ndcY, w, h);
    assert c.x == a + (ndcX + 1.0) / 2.0 * m;
    assert c.y == (1.0 - ndcY) / 2.0 * h;
  }

  /** For a positive m: 0 <= t <= 1 exactly when 0 <= t * m <= m. */
  lemma ScaleBetween(t: real, m: real)
    requires 0.0 < m
    ensures (0.0 <= t <= 1.0) <==> (0.0 <= t * m <= m)
  {
    if t < 0.0 {
      assert t * m < 0.0;
    } else if t > 1.0 {
      assert (t - 1.0) * m > 0.0;
    } else {
      assert t * m >= 0.0;
      assert (1.0 - t) * m >= 0.0;
    }
  }

  lemma AxisXInRange(v: real, a: real, m: real)
    requires 0.0 < m
    ensures (a <= v <= a + m) <==> (-1.0 <= ((v - a) / m) * 2.0 - 1.0 <= 1.0)
  {
    var t := (v - a) / m;
    DivThenMul(v - a, m);
    ScaleBetween(t, m);
    assert (a <= v <= a + m) <==> (0.0 <= t * m <= m);
    assert (0.0 <= t <= 1.0) <==> (-1.0 <= t * 2.0 - 1.0 <= 1.0);
  }

  lemma AxisYInRange(v: real, h: real)
    requires 0.0 < h
    ensures (0.0 <= v <= h) <==> (-1.0 <= -(v / h) * 2.0 + 1.0 <= 1.0)
  {
    var t := v / h;
    DivThenMul(v, h);
    ScaleBetween(t, h);
    assert (0.0 <= v <= h) <==> (0.0 <= t * h <= h);
    assert (0.0 <= t <= 1.0) <==> (-1.0 <= -t * 2.0 + 1.0 <= 1.0);
  }

  /** A pointer over the main viewport (in client coordinates, y from the
      top) is exactly one whose device coordinates lie in [-1, 1] x [-1, 1]. */
  lemma InMainViewportIffNdcInRange(clientX: real, clientY: real, w: real, h: real)
    requires 0.0 < w && 0.0 < h
    ensures var r := ViewportRect(Main, w, h);
      var ndc := MainViewportNdc(clientX, clientY, w, h);
      (r.x <= clientX <= r.x + r.width && 0.0 <= clientY <= r.height)
      <==> (-1.0 <= ndc.x <= 1.0 && -1.0 <= ndc.y <= 1.0)
  {
    AxisXInRange(clientX, w * StripShare, w * MainShare);
    AxisYInRange(clientY, h);
  }

  /** Index of the first ball in list order that the ray hits, if any. */
  function FirstHit(balls: seq<Ball>, ray: Ray, intersects: (Ray, Ball) -> bool): (r: Option<nat>)
    ensures r.Some? ==>
      r.value < |balls| && intersects(ray, balls[r.value])
      && forall j :: 0 <= j < r.value ==> !intersects(ray, balls[j])
    ensures r.None? ==> forall j :: 0 <= j < |balls| ==> !intersects(ray, balls[j])
  {
    if balls == [] then None
    else if intersects(ray, balls[0]) then Some(0)
    else match FirstHit(balls[1..], ray, intersects)
      case Some(i) => Some(i + 1)
      case None => None
  }

  /** The inspector's `ballInfo`: the name of the selected ball. */
  class BallInfo {
    var name: string

    constructor ()
      ensures name == ""
    {
      name := "";
    }
  }

  /** The name `onMouseDown` leaves selected: that of the first ball hit, or
      the previous selection when no ball is hit. */
  function PickedName(balls: seq<Ball>, ray: Ray, intersects: (Ray, Ball) -> bool, previous: string): (name: string)
    ensures name == previous
      || exists j :: 0 <= j < |balls| && intersects(ray, balls[j]) && name == balls[j].name
  {
    match FirstHit(balls, ray, intersects)
    case Some(i) => balls[i].name
    case None => previous
  }

  /** A selected name always comes from a hit ball; a pick that hits nothing
      changes nothing; the first ball the ray hits is the one selected,
      whatever balls after it share its name. */
  lemma PickedNameFacts(balls: seq<Ball>, ray: Ray, intersects: (Ray, Ball) -> bool, previous: string)
    ensures (forall j :: 0 <= j < |balls| ==> !intersects(ray, balls[j])) ==>
      PickedName(balls, ray, intersects, previous) == previous
    ensures (exists j :: 0 <= j < |balls| && intersects(ray, balls[j])) ==>
      exists j :: 0 <= j < |balls| && intersects(ray, balls[j])
        && PickedName(balls, ray, intersects, previous) == balls[j].name
    ensures forall i ::
      (0 <= i < |balls| && intersects(ray, balls[i]) && forall j :: 0 <= j < i ==> !intersects(ray, balls[j])) ==>
      PickedName(balls, ray, intersects, previous) == balls[i].name
  {
    var r := FirstHit(balls, ray, intersects);
    if r.Some? {
      assert intersects(ray, balls[r.value]);
    }
  }

  /** `onMouseDown`: compute the main-viewport device coordinates, cast from
      the main camera, and select the first ball hit, returning at once; with
      no hit the selection is left as it was. */
  method OnMouseDown(info: BallInfo, balls: seq<Ball>, cameras: Cameras, intersects: (Ray, Ball) -> bool,
                     clientX: real, clientY: real, w: real, h: real)
    requires 0.0 < w && 0.0 < h
    modifies info
    ensures var ndc := MainViewportNdc(clientX, clientY, w, h);
      info.name == PickedName(balls, Ray(ndc.x, ndc.y, cameras.main.position), intersects, old(info.name))
  {
    var ndc := MainViewportNdc(clientX, clientY, w, h);
    var ray := Ray(ndc.x, ndc.y, cameras.main.position);
    var i := 0;
    while i < |balls|
      invariant i <= |balls|
      invariant forall j :: 0 <= j < i ==> !intersects(ray, balls[j])
      invariant info.name == old(info.name)
    {
      if intersects(ray, balls[i]) {
        info.name := balls[i].name;
        return;
      }
      i := i + 1;
    }
  }
}
