/**
  The split of the window into one main viewport and three observer
  viewports (`render`), the cameras' aspect ratios (`onWindowResize`) and the
  main camera's preset cycle (`changeCamera.changeMainCamera`).
  Window sizes are exact reals; pixel rounding is not modelled.
 */
module Viewports {
  import opened Geometry

  /** A viewport or scissor rectangle (x, y, width, height), y measured from
      the bottom of the surface. */
  datatype Rect = Rect(x: real, y: real, width: real, height: real)

  /** The four views, in the order `render` draws them. */
  datatype View = Main | Sub1 | Sub2 | Sub3

  /** Share of the width given to the left observer strip. */
  const StripShare: real := 0.3
  /** Share of the width given to the main viewport. */
  const MainShare: real := 0.7
  /** Share of the height given to each observer viewport. */
  const SubShare: real := 0.33

  predicate WithinSurface(r: Rect, w: real, h: real) {
    0.0 <= r.x && 0.0 <= r.width && r.x + r.width <= w
    && 0.0 <= r.y && 0.0 <= r.height && r.y + r.height <= h
  }

  /** Two rectangles share interior points. */
  predicate Overlap(a: Rect, b: Rect) {
    a.x < b.x + b.width && b.x < a.x + a.width && a.y < b.y + b.height && b.y < a.y + a.height
  }

  /** The rectangle `render` gives each view in a `w` x `h` window. The main
      view takes the right 70% at full height; the observers share the left
      30% strip, stacked from the top, each 33% of the height high. */
  function ViewportRect(v: View, w: real, h: real): (r: Rect)
    requires 0.0 <= w && 0.0 <= h
    ensures WithinSurface(r, w, h)
    ensures v == Main ==> r.x + r.width == w && r.y == 0.0 && r.height == h
    ensures v != Main ==> r.x == 0.0
  {
    match v
    case Main => Rect(w * StripShare, 0.0, w * MainShare, h)
    case Sub1 => Rect(0.0, h * 0.66, w * StripShare, h * SubShare)
    case Sub2 => Rect(0.0, h * 0.33, w * StripShare, h * SubShare)
    case Sub3 => Rect(0.0, 0.0, w * StripShare, h * SubShare)
  }

  /** The observer strip ends where the main viewport begins; the observer
      viewports are stacked with no gap between them, Sub3 at the bottom; no
      two of the four viewports overlap. */
  lemma ViewportsTile(w: real, h: real)
    requires 0.0 <= w && 0.0 <= h
    ensures forall v: View :: v != Main ==> ViewportRect(v, w, h).width == ViewportRect(Main, w, h).x
    ensures ViewportRect(Sub3, w, h).y == 0.0
    ensures ViewportRect(Sub2, w, h).y == ViewportRect(Sub3, w, h).y + ViewportRect(Sub3, w, h).height
    ensures ViewportRect(Sub1, w, h).y == ViewportRect(Sub2, w, h).y + ViewportRect(Sub2, w, h).height
    ensures forall u: View, v: View :: u != v ==> !Overlap(ViewportRect(u, w, h), ViewportRect(v, w, h))
  {
  }

  /** The aspect ratio `onWindowResize` assigns to each view's camera. */
  function Aspect(v: View, w: real, h: real): (r: real)
    requires 0.0 < w && 0.0 < h
    ensures r > 0.0
  {
    if v == Main then (w * MainShare) / h else (w * StripShare) / (h * SubShare)
  }

  /** The aspect set on resize is exactly the width-to-height ratio of the
      rectangle the view is drawn into. */
  lemma AspectMatchesViewport(v: View, w: real, h: real)
    requires 0.0 < w && 0.0 < h
    ensures ViewportRect(v, w, h).height > 0.0
    ensures Aspect(v, w, h) == ViewportRect(v, w, h).width / ViewportRect(v, w, h).height
  {
  }

  /** One step of `render`: the camera drawn and the viewport and scissor rectangles. */
  datatype Pass = Pass(view: View, viewport: Rect, scissor: Rect)

  /** `render`: the four passes in order, each clipped to its own viewport,
      inside the window and pairwise disjoint. */
  function RenderPasses(w: real, h: real): (passes: seq<Pass>)
    requires 0.0 <= w && 0.0 <= h
    ensures |passes| == 4
    ensures passes[0].view == Main && passes[1].view == Sub1
    ensures passes[2].view == Sub2 && passes[3].view == Sub3
    ensures forall i :: 0 <= i < 4 ==> passes[i].viewport == ViewportRect(passes[i].view, w, h)
    ensures forall i :: 0 <= i < 4 ==>
      passes[i].scissor == passes[i].viewport && WithinSurface(passes[i].viewport, w, h)
    ensures forall i, j :: 0 <= i < j < 4 ==> !Overlap(passes[i].viewport, passes[j].viewport)
  {
    ViewportsTile(w, h);
    seq(4, i requires 0 <= i < 4 =>
      var v := [Main, Sub1, Sub2, Sub3][i];
      Pass(v, ViewportRect(v, w, h), ViewportRect(v, w, h)))
  }

  // -----------------------------------------------------------------------
  // Cameras

  /** The preset positions `cameraPositions`. */
  const Presets: seq<Vec3> := [Vec3(-8.0, 25.0, 0.0), Vec3(0.0, 13.5, 0.0), Vec3(0.0, 8.0, 3.0), Vec3(0.0, 3.0, 3.5)]

  /** A perspective camera: the model keeps its position, its aspect ratio
      and the point it was aimed at when created. */
  class Camera {
    var position: Vec3
    var aspect: real
    const target: Vec3

    constructor (aspect: real, position: Vec3, target: Vec3)
      ensures this.aspect == aspect && this.position == position && this.target == target
    {
      this.aspect := aspect;
      this.position := position;
      this.target := target;
    }
  }

  /** The index that follows `num` in the cycle `(num + 1) % 4`. */
  function NextPreset(num: int): (n: int)
    requires 0 <= num < 4
    ensures 0 <= n < 4
    ensures num < 3 ==> n == num + 1
    ensures num == 3 ==> n == 0
  {
    (num + 1) % 4
  }

  /** The index after `k` triggers. */
  function Cycled(num: int, k: nat): int
    requires 0 <= num < 4
  {
    if k == 0 then num else NextPreset(Cycled(num, k - 1))
  }

  /** Advancing the counter of a running total by one advances the total. */
  lemma NextOfTotal(a: nat)
    ensures NextPreset(a % 4) == (a + 1) % 4
  {
    var q := a / 4;
    assert a == 4 * q + a % 4;
    if a % 4 == 3 {
      assert a + 1 == 4 * (q + 1);
    } else {
      assert a + 1 == 4 * q + (a % 4 + 1);
    }
  }

  /** After k triggers the index has advanced by k modulo 4. */
  lemma {:induction false} CycleAdvances(num: int, k: nat)
    requires 0 <= num < 4
    ensures Cycled(num, k) == (num + k) % 4
  {
    if k > 0 {
      var a: nat := num + k - 1;
      assert Cycled(num, k - 1) == a % 4 by {
        CycleAdvances(num, k - 1);
      }
      assert NextPreset(a % 4) == (num + k) % 4 by {
        NextOfTotal(a);
        assert a + 1 == num + k;
      }
    }
  }

  /** Four more triggers always bring the counter back to where it was. */
  lemma FourTriggersReturn(num: int, k: nat)
    requires 0 <= num < 4
    ensures Cycled(num, k + 4) == Cycled(num, k)
  {
    var c0 := Cycled(num, k);
    var c1 := Cycled(num, k + 1);
    var c2 := Cycled(num, k + 2);
    var c3 := Cycled(num, k + 3);
    assert c1 == NextPreset(c0);
    assert c2 == NextPreset(c1);
    assert c3 == NextPreset(c2);
    assert Cycled(num, k + 4) == NextPreset(c3);
  }

  /** The main camera, the three observer cameras and the preset counter `num`. */
  class Cameras {
    const main: Camera
    const sub1: Camera
    const sub2: Camera
    const sub3: Camera
    var num: int

    ghost predicate Valid()
      reads this
    {
      0 <= num < 4
      && main != sub1 && main != sub2 && main != sub3
      && sub1 != sub2 && sub1 != sub3 && sub2 != sub3
    }

    function CameraOf(v: View): Camera
      reads this
    {
      match v
      case Main => main
      case Sub1 => sub1
      case Sub2 => sub2
      case Sub3 => sub3
    }

    /** Scene setup: camera i starts at preset i, each aimed at its own
        target, with the aspect of its viewport; the counter starts at 0. */
    constructor (w: real, h: real)
      requires 0.0 < w && 0.0 < h
      ensures Valid() && num == 0
      ensures main.position == Presets[0] && sub1.position == Presets[1]
      ensures sub2.position == Presets[2] && sub3.position == Presets[3]
      ensures main.target == Vec3(0.0, -5.0, 0.0) && sub1.target == Vec3(0.0, -90.0, 0.0)
      ensures sub2.target == Vec3(0.0, 0.0, 0.0) && sub3.target == Vec3(0.0, -2.0, 0.0)
      ensures forall v: View :: CameraOf(v).aspect == Aspect(v, w, h)
    {
      main := new Camera(Aspect(Main, w, h), Presets[0], Vec3(0.0, -5.0, 0.0));
      sub1 := new Camera(Aspect(Sub1, w, h), Presets[1], Vec3(0.0, -90.0, 0.0));
      sub2 := new Camera(Aspect(Sub2, w, h), Presets[2], Vec3(0.0, 0.0, 0.0));
      sub3 := new Camera(Aspect(Sub3, w, h), Presets[3], Vec3(0.0, -2.0, 0.0));
      num := 0;
    }

    /** `changeMainCamera`: advance the counter and move the main camera to
        that preset; nothing is re-aimed and no other camera moves. */
    method ChangeMainCamera()
      requires Valid()
      modifies this`num, main`position
      ensures Valid()
      ensures num == NextPreset(old(num))
      ensures main.position == Presets[num]
    {
      num := (num + 1) % 4;
      main.position := Presets[num];
    }

    /** `onWindowResize`: every camera takes the aspect of its new viewport;
        no camera moves. */
    method OnWindowResize(w: real, h: real)
      requires Valid() && 0.0 < w && 0.0 < h
      modifies main`aspect, sub1`aspect, sub2`aspect, sub3`aspect
      ensures Valid()
      ensures forall v: View :: CameraOf(v).aspect == Aspect(v, w, h)
      ensures forall v: View :: CameraOf(v).position == old(CameraOf(v).position)
    {
      main.aspect := Aspect(Main, w, h);
      sub1.aspect := Aspect(Sub1, w, h);
      sub2.aspect := Aspect(Sub2, w, h);
      sub3.aspect := Aspect(Sub3, w, h);
    }
  }
}
