/** The camera side of the SDK: `get_view_point`, which decodes the camera
    from values read out of the game, `project_world_to_screen`, which maps a
    world point to the screen, and `is_visible`. The reads themselves are
    parameters; so are the C library's `asin`, `atan2` and `tanf`. */
module View {
  import opened Vectors
  import opened Matrices
  import opened Rotations

  datatype Option<T> = None | Some(value: T)

  /** `Camera`: where the camera stands, its rotation as (pitch, yaw, roll)
      in degrees, and its horizontal field of view in degrees. */
  datatype Camera = Camera(location: Vector3, rotation: Vector3, fov: real)

  /** What `get_view_point` reads: the location, the three doubles of
      `FNRot` (a, b and c) and the field-of-view factor of the player
      controller. */
  datatype ViewReads = ViewReads(location: Vector3, a: real, b: real, c: real, fovFactor: real)

  /** The C library's `asin` and `atan2`, taken as given. */
  datatype InverseTrig = InverseTrig(asin: real -> real, atan2: (real, real) -> real)

  /** The screen centre, from the screen size in pixels: integer halves. */
  function ScreenCentre(width: nat, height: nat): (c: (int, int))
    ensures 0 <= 2 * c.0 <= width <= 2 * c.0 + 1
    ensures 0 <= 2 * c.1 <= height <= 2 * c.1 + 1
  {
    (width / 2, height / 2)
  }

  /** Radians to degrees, the inverse of `Radians`. */
  function Degrees(radians: real): (d: real)
    ensures Radians(d) == radians
  {
    radians * (180.0 / Pi)
  }

  /** `get_view_point`: the pitch is asin(c) and the yaw atan2(-a, b), both
      in degrees (the yaw's two sign flips cancel), the roll stays 0 and the
      field of view is the factor times 90 degrees. */
  function ViewPoint(r: ViewReads, inv: InverseTrig): (cam: Camera)
    ensures cam.location == r.location
    ensures Radians(cam.rotation.x) == inv.asin(r.c)
    ensures Radians(cam.rotation.y) == inv.atan2(-r.a, r.b)
    ensures cam.rotation.z == 0.0
    ensures cam.fov == 90.0 * r.fovFactor
  {
    Camera(r.location,
           Vector3(Degrees(inv.asin(r.c)),
                   (Degrees(inv.atan2(r.a * -1.0, r.b)) * -1.0) * -1.0,
                   0.0),
           r.fovFactor * 90.0)
  }

  /** When asin keeps to its principal range [-π/2, π/2], the pitch lies
      between -90 and 90 degrees. */
  lemma PitchIsARightAngleAtMost(r: ViewReads, inv: InverseTrig)
    requires -Pi / 2.0 <= inv.asin(r.c) <= Pi / 2.0
    ensures -90.0 <= ViewPoint(r, inv).rotation.x <= 90.0
  {
    assert ViewPoint(r, inv).rotation.x == Degrees(inv.asin(r.c));
    assert Degrees(Pi / 2.0) == 90.0;
  }

  /** The depth clamp: a point closer than 1 unit, or behind the camera,
      is treated as being at depth 1. The result is the larger of z and 1. */
  function ClampDepth(z: real): (r: real)
    ensures r >= 1.0 && r >= z
    ensures r == 1.0 || r == z
  {
    if z < 1.0 then 1.0 else z
  }

  /** A displacement from the camera in the camera's axes, the rows of
      `m`: (row 1, row 2, row 0), i.e. (right, up, forward). */
  function Axes(delta: Vector3, m: Matrix): Vector3
  {
    Vector3(Dot(delta, BlockRow(m, 1)), Dot(delta, BlockRow(m, 2)), Dot(delta, BlockRow(m, 0)))
  }

  /** The point in camera space: its displacement from the camera in the
      axes of `to_matrix(rotation)`. */
  function CameraSpace(cam: Camera, world: Vector3, trig: Trig): Vector3
  {
    Axes(Sub(world, cam.location), ToMatrix(cam.rotation, Zero, trig))
  }

  /** tanf(fov·π/360), the tangent of half the field of view. */
  function HalfFovTangent(cam: Camera, trig: Trig): real
  {
    trig.tan(cam.fov * Pi / 360.0)
  }

  /** The perspective divide about the screen centre (cx, cy) of a
      camera-space point t = (right, up, forward): the depth is clamped to
      at least 1, and cx / tan pixels stand for one unit of sideways offset
      at depth 1. Screen y grows downwards, so "up" is subtracted. */
  function PerspectiveDivide(t: Vector3, cx: int, cy: int, tan: real): Vector2
    requires tan != 0.0
  {
    var z := ClampDepth(t.z);
    Vector2(cx as real + t.x * (cx as real / tan) / z,
            cy as real - t.y * (cx as real / tan) / z)
  }

  /** The pure part of `project_world_to_screen`, with the camera, the
      screen centre and the C library's `tanf` given. The C code divides by
      tan(fov/2) whatever it is; where it is 0 the result is not a finite
      number, and the model returns `None`. */
  function Project(cam: Camera, world: Vector3, cx: int, cy: int, trig: Trig): (r: Option<Vector2>)
    ensures r.None? <==> HalfFovTangent(cam, trig) == 0.0
  {
    var tan := HalfFovTangent(cam, trig);
    if tan == 0.0 then None
    else Some(PerspectiveDivide(CameraSpace(cam, world, trig), cx, cy, tan))
  }

  /** The inverse of the perspective divide: the camera-space point at
      depth `depth` that lands on screen point s. */
  function Unproject(s: Vector2, depth: real, cx: int, cy: int, tan: real): Vector3
    requires tan != 0.0 && cx != 0
  {
    var scale := cx as real / tan;
    Vector3((s.x - cx as real) * depth / scale, (cy as real - s.y) * depth / scale, depth)
  }

  /** The divide loses only the depth, and only below 1: unprojecting at
      the clamped depth gives back the right and up coordinates. */
  lemma UnprojectInvertsDivide(t: Vector3, cx: int, cy: int, tan: real)
    requires tan != 0.0 && cx != 0
    ensures Unproject(PerspectiveDivide(t, cx, cy, tan), ClampDepth(t.z), cx, cy, tan)
            == Vector3(t.x, t.y, ClampDepth(t.z))
  {
    var scale := cx as real / tan;
    assert scale != 0.0;
    DivideThenMultiply(t.x, scale, ClampDepth(t.z));
    DivideThenMultiply(t.y, scale, ClampDepth(t.z));
  }

  /** (v·k/z)·z/k == v for nonzero k and z. */
  lemma DivideThenMultiply(v: real, k: real, z: real)
    requires k != 0.0 && z != 0.0
    ensures (v * k / z) * z / k == v
  {
  }

  /** On a screen of nonzero width, a point lands on the centre exactly
      when it lies on the camera's forward axis (no right or up offset). */
  lemma CentredIffOnAxis(t: Vector3, cx: int, cy: int, tan: real)
    requires tan != 0.0 && cx != 0
    ensures PerspectiveDivide(t, cx, cy, tan) == Vector2(cx as real, cy as real) <==> t.x == 0.0 && t.y == 0.0
  {
    var scale := cx as real / tan;
    assert scale != 0.0;
    ZeroIffScaledZero(t.x, scale, ClampDepth(t.z));
    ZeroIffScaledZero(t.y, scale, ClampDepth(t.z));
  }

  /** No sideways offset keeps a point on the centre column, no vertical
      offset on the centre row; on the forward axis it lands on the centre. */
  lemma OnAxisIsCentred(t: Vector3, cx: int, cy: int, tan: real)
    requires tan != 0.0
    ensures t.x == 0.0 ==> PerspectiveDivide(t, cx, cy, tan).x == cx as real
    ensures t.y == 0.0 ==> PerspectiveDivide(t, cx, cy, tan).y == cy as real
    ensures t.x == 0.0 && t.y == 0.0 ==> PerspectiveDivide(t, cx, cy, tan) == Vector2(cx as real, cy as real)
  {
  }

  /** v·k/z is zero exactly when v is, for nonzero k and z. */
  lemma ZeroIffScaledZero(v: real, k: real, z: real)
    requires k != 0.0 && z != 0.0
    ensures v * k / z == 0.0 <==> v == 0.0
  {
    if v != 0.0 {
      assert v * k != 0.0;
    }
  }

  /** On a screen of positive width, with a field of view whose half has a
      positive tangent, a point lands right of the centre exactly when it is
      right of the camera, and above the centre (smaller screen y) exactly
      when it is above the camera. */
  lemma SidesPreserved(t: Vector3, cx: int, cy: int, tan: real)
    requires cx > 0 && tan > 0.0
    ensures var p := PerspectiveDivide(t, cx, cy, tan);
      && (p.x > cx as real <==> t.x > 0.0)
      && (p.y < cy as real <==> t.y > 0.0)
  {
    assert cx as real / tan > 0.0;
    SignOfScaled(t.x, cx as real / tan, ClampDepth(t.z));
    SignOfScaled(t.y, cx as real / tan, ClampDepth(t.z));
  }

  /** v·k/z has the sign of v when k > 0 and z > 0. */
  lemma SignOfScaled(v: real, k: real, z: real)
    requires k > 0.0 && z > 0.0
    ensures v * k / z > 0.0 <==> v > 0.0
  {
    if v > 0.0 {
      assert v * k > 0.0;
    } else {
      assert v * k <= 0.0;
    }
  }

  /** Unprojecting a projected world point at its clamped depth gives back
      its camera-space right and up coordinates. */
  lemma UnprojectInvertsProject(cam: Camera, world: Vector3, cx: int, cy: int, trig: Trig)
    requires HalfFovTangent(cam, trig) != 0.0 && cx != 0
    ensures var t := CameraSpace(cam, world, trig);
      Unproject(Project(cam, world, cx, cy, trig).value, ClampDepth(t.z), cx, cy, HalfFovTangent(cam, trig))
      == Vector3(t.x, t.y, ClampDepth(t.z))
  {
    UnprojectInvertsDivide(CameraSpace(cam, world, trig), cx, cy, HalfFovTangent(cam, trig));
  }

  /** The camera's own location is the origin of camera space. */
  lemma CameraIsOrigin(cam: Camera, trig: Trig)
    ensures CameraSpace(cam, cam.location, trig) == Zero
  {
    assert Sub(cam.location, cam.location) == Zero;
    NoDisplacementNoOffset(ToMatrix(cam.rotation, Zero, trig));
  }

  lemma NoDisplacementNoOffset(m: Matrix)
    ensures Axes(Zero, m) == Zero
  {
  }

  /** The camera's own location lands on the screen centre. */
  lemma CameraLocationIsCentre(cam: Camera, cx: int, cy: int, trig: Trig)
    requires HalfFovTangent(cam, trig) != 0.0
    ensures Project(cam, cam.location, cx, cy, trig) == Some(Vector2(cx as real, cy as real))
  {
    CameraIsOrigin(cam, trig);
    OnAxisIsCentred(Zero, cx, cy, HalfFovTangent(cam, trig));
  }

  /** With zero rotation (sin 0 = 0, cos 0 = 1) the camera looks along world
      X: forward is X, right is Y and up is Z. */
  lemma UnrotatedCameraAxes(cam: Camera, world: Vector3, trig: Trig)
    requires trig.sin(0.0) == 0.0 && trig.cos(0.0) == 1.0
    requires cam.rotation == Zero
    ensures var d := Sub(world, cam.location);
      CameraSpace(cam, world, trig) == Vector3(d.y, d.z, d.x)
  {
    ZeroAnglesIsTranslation(Zero, trig);
    IdentityAxes(Sub(world, cam.location));
  }

  /** The identity block's axes are world X (forward), Y (right) and Z (up). */
  lemma IdentityAxes(d: Vector3)
    ensures Axes(d, TranslationMatrix(Zero)) == Vector3(d.y, d.z, d.x)
  {
  }

  /** An unrotated camera projects the point at displacement v from it as
      the camera-space point (right, up, forward) = (v.y, v.z, v.x). */
  lemma UnrotatedProjection(cam: Camera, v: Vector3, cx: int, cy: int, trig: Trig)
    requires trig.sin(0.0) == 0.0 && trig.cos(0.0) == 1.0
    requires cam.rotation == Zero && HalfFovTangent(cam, trig) != 0.0
    ensures Project(cam, Add(cam.location, v), cx, cy, trig)
            == Some(PerspectiveDivide(Vector3(v.y, v.z, v.x), cx, cy, HalfFovTangent(cam, trig)))
  {
    UnrotatedCameraAxes(cam, Add(cam.location, v), trig);
    SubAdd(cam.location, v);
  }

  /** A point straight ahead of an unrotated camera, along world X, lands on
      the screen centre whatever its distance. */
  lemma PointAheadIsCentred(cam: Camera, distance: real, cx: int, cy: int, trig: Trig)
    requires trig.sin(0.0) == 0.0 && trig.cos(0.0) == 1.0
    requires cam.rotation == Zero && HalfFovTangent(cam, trig) != 0.0
    ensures Project(cam, Add(cam.location, Vector3(distance, 0.0, 0.0)), cx, cy, trig)
            == Some(Vector2(cx as real, cy as real))
  {
    var v := Vector3(distance, 0.0, 0.0);
    UnrotatedProjection(cam, v, cx, cy, trig);
    OnAxisIsCentred(Vector3(0.0, 0.0, distance), cx, cy, HalfFovTangent(cam, trig));
  }

  /** A point straight above an unrotated camera, along world Z, does not
      land on the screen centre: its depth is 0, clamped to 1, and its
      height moves it off the centre. */
  lemma PointAboveIsNotCentred(cam: Camera, height: real, cx: int, cy: int, trig: Trig)
    requires trig.sin(0.0) == 0.0 && trig.cos(0.0) == 1.0
    requires cam.rotation == Zero && HalfFovTangent(cam, trig) != 0.0
    requires cx != 0 && height != 0.0
    ensures Project(cam, Add(cam.location, Vector3(0.0, 0.0, height)), cx, cy, trig)
            != Some(Vector2(cx as real, cy as real))
  {
    var v := Vector3(0.0, 0.0, height);
    UnrotatedProjection(cam, v, cx, cy, trig);
    CentredIffOnAxis(Vector3(0.0, height, 0.0), cx, cy, HalfFovTangent(cam, trig));
  }

  /** A point to the right of an unrotated camera (along world Y), at any
      depth, lands right of the centre and on the centre row, when the
      screen has a positive width and tan(fov/2) is positive. */
  lemma PointRightIsRightOfCentre(cam: Camera, depth: real, right: real, cx: int, cy: int, trig: Trig)
    requires trig.sin(0.0) == 0.0 && trig.cos(0.0) == 1.0
    requires cam.rotation == Zero && HalfFovTangent(cam, trig) != 0.0
    requires cx > 0 && HalfFovTangent(cam, trig) > 0.0 && right > 0.0
    ensures var t := Vector3(right, 0.0, depth);
      var p := PerspectiveDivide(t, cx, cy, HalfFovTangent(cam, trig));
      && Project(cam, Add(cam.location, Vector3(depth, right, 0.0)), cx, cy, trig) == Some(p)
      && p.x > cx as real && p.y == cy as real
  {
    var v := Vector3(depth, right, 0.0);
    UnrotatedProjection(cam, v, cx, cy, trig);
    var t := Vector3(right, 0.0, depth);
    SidesPreserved(t, cx, cy, HalfFovTangent(cam, trig));
    OnAxisIsCentred(t, cx, cy, HalfFovTangent(cam, trig));
  }

  lemma SubAdd(a: Vector3, v: Vector3)
    ensures Sub(Add(a, v), a) == v
  {
  }

  /** `is_visible`'s default tolerance, the `float` literal 0.06f: the
      single-precision value nearest to 0.06, which is 16106127 / 2^28. */
  const DefaultTolerance: real := 0.0599999986588954925537109375

  /** `is_visible`: the mesh was rendered no longer than `tolerance`
      seconds before the current world time. */
  function IsVisible(seconds: real, lastRenderTime: real, tolerance: real): (visible: bool)
    ensures visible <==> lastRenderTime >= seconds - tolerance
  {
    seconds - lastRenderTime <= tolerance
  }

  /** `is_visible(mesh)` called without a tolerance. */
  function IsVisibleByDefault(seconds: real, lastRenderTime: real): bool
  {
    IsVisible(seconds, lastRenderTime, DefaultTolerance)
  }

  /** Because 0.06f is a hair below 0.06, a mesh last rendered exactly 0.06
      seconds ago is not visible by default, while one rendered 0.06f
      seconds ago is. */
  lemma DefaultToleranceIsBelowPointZeroSix(seconds: real)
    ensures !IsVisibleByDefault(seconds, seconds - 0.06)
    ensures IsVisibleByDefault(seconds, seconds - DefaultTolerance)
  {
  }

  /** A mesh rendered at the current time is visible under any tolerance
      that is not negative, and visibility only grows with the tolerance
      and with a later render time. */
  lemma IsVisibleMonotone(seconds: real, lastRenderTime: real, later: real, tolerance: real, wider: real)
    requires lastRenderTime <= later && tolerance <= wider
    ensures 0.0 <= tolerance ==> IsVisible(seconds, seconds, tolerance)
    ensures IsVisible(seconds, lastRenderTime, tolerance) ==> IsVisible(seconds, later, wider)
  {
  }

  /** `cache::local_camera`, which `project_world_to_screen` overwrites with
      a freshly decoded camera before projecting. */
  class ViewCache {
    var localCamera: Camera

    constructor ()
      ensures localCamera == Camera(Zero, Zero, 0.0)
    {
      localCamera := Camera(Zero, Zero, 0.0);
    }

    /** `project_world_to_screen(world)`: refresh the cached camera from
        the reads, then project with it. */
    method ProjectWorldToScreen(world: Vector3, input: ViewReads, inv: InverseTrig, cx: int, cy: int, trig: Trig)
      returns (screen: Option<Vector2>)
      modifies this
      ensures localCamera == ViewPoint(input, inv)
      ensures screen == Project(localCamera, world, cx, cy, trig)
    {
      localCamera := ViewPoint(input, inv);
      screen := Project(localCamera, world, cx, cy, trig);
    }
  }
}
