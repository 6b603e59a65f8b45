/** The closed-form rules of the renderer (web/js/threeVisualizer.js) that the
    stateful model in ThreeVisualizer applies: the camera in orbit terms, the
    Quilt leg timing and angle sequence, the home distance and the image
    extension filter. */
module RendererLogic {
  import opened Strings

  /** The camera position in orbit terms. `Placed(heading, radius, y)` is the
      point (sin(heading)·radius, y, cos(heading)·radius), heading in degrees
      as `atan2(x, z)` reads it back and radius as `sqrt(x² + z²)`.
      `Undefined(y)` is a camera whose x and z have become NaN (the Quilt
      angle step divides by zero when the frame count is 1); its y is kept. */
  datatype Camera = Placed(heading: real, radius: real, y: real) | Undefined(y: real)

  /** A placed camera's heading lies where `atan2` puts it. */
  predicate CameraOk(c: Camera)
  {
    c.Placed? ==> -180.0 < c.heading <= 180.0 && 0.0 <= c.radius
  }

  /** The heading `atan2` reads back from a position set with sin/cos of `h`
      degrees: `h` brought into (-180, 180] by whole turns. */
  function Wrap(h: real): (r: real)
    ensures -180.0 < r <= 180.0
    ensures -180.0 < h <= 180.0 ==> r == h
  {
    var k := ((180.0 - h) / 360.0).Floor;
    h + 360.0 * (k as real)
  }

  /** Whole turns do not change where the camera ends up. */
  lemma WrapTurn(h: real)
    ensures Wrap(h + 360.0) == Wrap(h)
  {
    var k := ((180.0 - h) / 360.0).Floor;
    var x := (180.0 - (h + 360.0)) / 360.0;
    assert x == (180.0 - h) / 360.0 - 1.0;
    assert x.Floor == k - 1;
  }

  /** `camera.position.set(sin(h)·r, y, cos(h)·r)` with the horizontal radius
      r and the height y taken from the current position. */
  function Orbit(c: Camera, h: real): (r: Camera)
    ensures CameraOk(c) ==> CameraOk(r)
    ensures r.y == c.y && r.Placed? == c.Placed?
    ensures c.Placed? ==> r.radius == c.radius && r.heading == Wrap(h)
  {
    match c
    case Placed(_, radius, y) => Placed(Wrap(h), radius, y)
    case Undefined(y) => Undefined(y)
  }

  /** `camera.position.set(0, 0, z)`: on the view axis, heading 0 in front of
      the origin and 180 behind it. */
  function OnViewAxis(z: real): (c: Camera)
    ensures CameraOk(c) && c.y == 0.0 && c.Placed?
    ensures c.radius == if z < 0.0 then -z else z
    ensures c.heading == if z < 0.0 then 180.0 else 0.0
  {
    if z < 0.0 then Placed(180.0, -z, 0.0) else Placed(0.0, z, 0.0)
  }

  /** `BASE_CAMERA_DISTANCE`. */
  const BaseCameraDistance: real := 5.0

  /** `QUILTS_DURATION`: milliseconds per leg. */
  const QuiltsDuration: int := 1000

  /** The distance `resetView` puts the camera at, for the field-of-view
      compensation `compensation` (1 / tan(fov/2)), depth strength `d` and
      Z offset `zOffset`: base distance times the compensation plus half the
      largest displacement 2.5·d plus the offset. */
  function HomeDistance(compensation: real, d: real, zOffset: real): (dist: real)
    ensures dist == 5.0 * compensation + 1.25 * d + zOffset
  {
    var maxDisplacement := 2.5 * d;
    BaseCameraDistance * compensation + maxDisplacement * 0.5 + zOffset
  }

  /** A wider field of view has a smaller compensation, so the camera comes
      home closer: the home distance is strictly increasing in the
      compensation and in the depth strength. */
  lemma HomeDistanceMonotone(c1: real, c2: real, d1: real, d2: real, z: real)
    requires c1 <= c2 && d1 <= d2
    ensures HomeDistance(c1, d1, z) <= HomeDistance(c2, d2, z)
    ensures (c1 < c2 || d1 < d2) ==> HomeDistance(c1, d1, z) < HomeDistance(c2, d2, z)
  {
  }

  /** `Math.min(elapsed / QUILTS_DURATION, 1)`. */
  function Progress(elapsed: int): (p: real)
    ensures p <= 1.0
    ensures elapsed >= 0 ==> 0.0 <= p
    ensures p == 1.0 <==> elapsed >= QuiltsDuration
    ensures elapsed < QuiltsDuration ==> p * (QuiltsDuration as real) == elapsed as real
  {
    var q := (elapsed as real) / (QuiltsDuration as real);
    if q < 1.0 then q else 1.0
  }

  /** One tick of a leg: `current + (target - current) · progress`. */
  function LegStep(current: real, target: real, progress: real): (h: real)
    ensures progress == 1.0 ==> h == target
    ensures progress == 0.0 ==> h == current
  {
    current + (target - current) * progress
  }

  /** While the progress is in [0, 1] a leg never overshoots: the heading
      stays between where the tick started and the target. */
  lemma LegStepBetween(current: real, target: real, progress: real)
    requires 0.0 <= progress <= 1.0
    ensures current <= target ==> current <= LegStep(current, target, progress) <= target
    ensures target <= current ==> target <= LegStep(current, target, progress) <= current
  {
    var d := target - current;
    ScaleWithin(d, progress);
    assert LegStep(current, target, progress) == current + d * progress;
  }

  /** A quantity scaled by a factor in [0, 1] stays between 0 and itself. */
  lemma ScaleWithin(d: real, p: real)
    ensures 0.0 <= p <= 1.0 && 0.0 <= d ==> 0.0 <= d * p <= d
    ensures 0.0 <= p <= 1.0 && d <= 0.0 ==> d <= d * p <= 0.0
  {
    if 0.0 <= p <= 1.0 {
      assert d - d * p == d * (1.0 - p);
    }
  }

  /** `angleStep = (end - start) / (totalFrames - 1)` with start = range/2 and
      end = -range/2. */
  function AngleStep(range: real, n: real): (step: real)
    requires n != 1.0
    ensures step * (n - 1.0) == -range
    ensures range > 0.0 && n > 1.0 ==> step < 0.0
  {
    var half := range / 2.0;
    assert -half - half == -range;
    DivMul(-range, n - 1.0);
    (-half - half) / (n - 1.0)
  }

  /** The heading frame `frame` aims at, for angle range `range` and frame
      count `n`: `range/2 + frame · angleStep`. `None` stands for a target
      that is not a finite number: with n = 1 the step divides by zero, so
      frame 0 aims at NaN (0 · infinity) and later frames at an infinity, and
      either way `sin` and `cos` of it leave the camera's x and z NaN. */
  function TargetHeading(range: real, n: real, frame: int): (r: Option<real>)
    ensures r.None? <==> n == 1.0
  {
    if n == 1.0 then None
    else Some(range / 2.0 + AngleStep(range, n) * (frame as real))
  }

  /** Frame 0 aims at +range/2, the heading `startQuilts` places the camera
      at, so the first leg does not move it. */
  lemma TargetHeadingFirst(range: real, n: real)
    requires n != 1.0
    ensures TargetHeading(range, n, 0) == Some(range / 2.0)
  {
    assert AngleStep(range, n) * (0 as real) == 0.0;
  }

  /** Consecutive frames are one step apart: the sequence is an arithmetic
      progression with step -range/(n - 1). */
  lemma TargetHeadingStep(range: real, n: real, frame: int)
    requires n != 1.0
    ensures TargetHeading(range, n, frame + 1).value - TargetHeading(range, n, frame).value
            == AngleStep(range, n)
  {
    var step := AngleStep(range, n);
    assert step * ((frame + 1) as real) == step * (frame as real) + step;
  }

  /** The last frame of a session of n frames aims at -range/2, so the
      sequence spans its range symmetrically. */
  lemma TargetHeadingLast(range: real, n: real, frame: int)
    requires n != 1.0 && frame as real == n - 1.0
    ensures TargetHeading(range, n, frame) == Some(-range / 2.0)
  {
    assert AngleStep(range, n) * (frame as real) == -range;
  }

  /** For a positive range and more than one frame the headings strictly
      decrease from frame to frame. */
  lemma TargetHeadingDecreasing(range: real, n: real, i: int, j: int)
    requires range > 0.0 && n > 1.0 && i < j
    ensures TargetHeading(range, n, j).value < TargetHeading(range, n, i).value
  {
    var step := AngleStep(range, n);
    assert step * (j as real) - step * (i as real) == step * ((j - i) as real);
    assert step * ((j - i) as real) < 0.0;
  }

  lemma DivMul(x: real, y: real)
    requires y != 0.0
    ensures (x / y) * y == x
  {
  }

  /** The default session (4 frames over 14 degrees) aims at 7, 7/3, -7/3
      and -7 degrees in that order. */
  lemma DefaultSessionHeadings()
    ensures TargetHeading(14.0, 4.0, 0) == Some(7.0)
    ensures TargetHeading(14.0, 4.0, 1) == Some(7.0 / 3.0)
    ensures TargetHeading(14.0, 4.0, 2) == Some(-7.0 / 3.0)
    ensures TargetHeading(14.0, 4.0, 3) == Some(-7.0)
  {
  }

  /** The text after the last '.' of a file name, or the whole name when it
      has none: `filename.slice(filename.lastIndexOf(".") + 1)`. */
  function Extension(filename: string): (ext: string)
    ensures |ext| <= |filename| && ext == filename[|filename| - |ext|..]
    ensures '.' !in ext
    ensures |ext| < |filename| ==> filename[|filename| - |ext| - 1] == '.'
    ensures '.' !in filename ==> ext == filename
  {
    filename[LastIndexOf(filename, '.') + 1..]
  }

  /** The extensions the renderer loads; the comparison is case-sensitive. */
  predicate IsSupportedImage(filename: string)
  {
    var ext := Extension(filename);
    ext == "png" || ext == "jpg" || ext == "jpeg"
  }

  /** A name `stem.ext` has extension `ext` whenever `ext` has no dot, so it is
      loaded exactly when `ext` is one of png, jpg and jpeg. */
  lemma {:induction false} ExtensionOfDotted(stem: string, ext: string)
    requires '.' !in ext
    ensures Extension(stem + "." + ext) == ext
    ensures IsSupportedImage(stem + "." + ext) <==> ext in {"png", "jpg", "jpeg"}
  {
    var f := stem + "." + ext;
    var k := LastIndexOf(f, '.');
    assert f[|stem|] == '.';
    assert forall j :: |stem| < j < |f| ==> f[j] == ext[j - |stem| - 1];
    assert k == |stem|;
    assert f[k + 1..] == ext;
  }

  /** A name without any dot is its own extension, so it is loaded exactly
      when the whole name is "png", "jpg" or "jpeg". */
  lemma UndottedNames(name: string)
    requires '.' !in name
    ensures IsSupportedImage(name) <==> name in {"png", "jpg", "jpeg"}
  {
  }
}
