/** The renderer frame of web/js/threeVisualizer.js: its module-level state,
    the message listener, the first-frame camera reset, the scene rebuild in
    `main`, the attribute-polling frame loop and the Quilt capture session.

    Each operation is written twice, as the source has it and as its
    specification: a pure step function over `RendererState` (`Handle`,
    `Load`, `Frame`, `Tick`, `Start`, `Stop`, `Screenshot`, `ResetHome`), about
    which the properties are proved, and a method of `Visualizer` that updates
    the fields in place and promises the step function's result. */
module ThreeVisualizer {
  import opened Strings
  import opened Protocol
  import opened RendererLogic

  /** A loaded texture and its image's pixel size (positive for any image
      the loader accepts). */
  datatype Texture = Texture(source: ImageParams, width: int, height: int)

  /** What the texture loader does with one request: resolve with a texture,
      or reject (the network or the decoder failed). */
  datatype LoadOutcome = Loaded(texture: Texture) | LoadFailed

  /** The displacement mesh: its two textures, the plane size, the shader
      uniforms the listener keeps current, and its z position. */
  datatype DepthMesh = DepthMesh(reference: Texture, depth: Texture,
                                 planeWidth: real, planeHeight: real,
                                 depthScale: real, dofStrength: real, focusDistance: real,
                                 z: real)

  /** The objects the renderer adds to its scene. */
  datatype SceneObject = CenterPoint | AxesHelper | AmbientLight | CameraNode | MeshNode

  /** The helpers a screenshot leaves out. */
  const Overlays: set<SceneObject> := {CenterPoint, AxesHelper}

  /** What `main` puts in the scene before it loads anything. */
  const BaseScene: set<SceneObject> := {CenterPoint, AxesHelper, AmbientLight, CameraNode}

  /** One captured Quilt frame (the data URL the canvas produced): the camera
      it was rendered from, the canvas side in device pixels and the scene
      objects drawn. */
  datatype Capture = Capture(camera: Camera, pixels: int, drawn: set<SceneObject>)

  /** The message the renderer posts to its parent window. */
  datatype HostMessage = QuiltsComplete(imgs: seq<Capture>, id: Option<string>)

  /** What handling one message leads to besides the state change: nothing,
      a message to the parent window, or a call of `main` (whose loads are
      asynchronous and are modelled by `Load`). */
  datatype Effect =
    | NoEffect
    | Posted(message: HostMessage)
    | Reload(referenceImage: Option<ImageParams>, depthMap: Option<ImageParams>)

  /** What one run of `frameUpdate` ends in. `Rendered` and `Waiting`
      schedule the next frame; `Reloading` has called `main` with the parsed
      attributes; `Stalled` is the `JSON.parse` exception that ends the loop. */
  datatype FrameOutcome =
    | Rendered(posted: Option<HostMessage>)
    | Waiting
    | Reloading(referenceImage: Option<ImageParams>, depthMap: Option<ImageParams>)
    | Stalled

  /** The parameters the listener stores. */
  datatype LiveParams = LiveParams(apiURL: string, depthStrength: real, dofStrength: real,
                                   focusDistance: real, zOffset: real, screenshotSize: real,
                                   quiltsNum: real, quiltsAngleRange: real, fov: real)

  /** The Quilt session variables and whether the orbit controls are enabled.
      `startTime` is a millisecond timestamp; its initial `null` is 0, which
      is what subtraction reads it as. */
  datatype QuiltSession = QuiltSession(active: bool, progress: real, startTime: int, frame: nat,
                                       targetRotation: real, rotating: bool,
                                       screenshots: seq<Capture>, controlsEnabled: bool)

  /** The scene side: the camera, the mesh, what the scene holds, the
      renderer's CSS size, the attribute texts seen last and `needUpdate`. */
  datatype Stage = Stage(camera: Camera, mesh: Option<DepthMesh>, scene: set<SceneObject>,
                         rendererSize: int, lastReferenceImage: Attr, lastDepthMap: Attr,
                         needUpdate: bool)

  datatype RendererState = RendererState(params: LiveParams, session: QuiltSession, stage: Stage)

  /** What the page provides and never changes: `window.devicePixelRatio`
      and the `id` query parameter of the frame's URL. */
  datatype Env = Env(pixelRatio: real, iframeId: Option<string>)

  /** The state after the script's top level has run, for a window whose
      smaller side is `windowSize` CSS pixels. */
  function Initial(windowSize: int): (st: RendererState)
    ensures Ok(st)
    ensures !st.session.active && st.session.controlsEnabled && !st.stage.needUpdate
  {
    RendererState(
      LiveParams("", 1.5, 0.0, 0.0, 0.0, 1024.0, 4.0, 14.0, 7.0),
      QuiltSession(false, 0.0, 0, 0, 0.0, false, [], true),
      Stage(Placed(0.0, 10.0, 0.0), None, {CenterPoint, AxesHelper}, windowSize,
            Malformed(""), Malformed(""), false))
  }

  /** The invariant of the Quilt session: the controls are disabled exactly
      while a session runs and the camera is interpolating between ticks,
      progress never exceeds 1, an idle renderer holds no screenshots, and a
      running session holds one screenshot per completed leg. */
  predicate SessionOk(s: QuiltSession)
  {
    && s.controlsEnabled == !s.active
    && s.rotating == s.active
    && s.progress <= 1.0
    && (!s.active ==> s.screenshots == [])
    && (s.active ==> |s.screenshots| == s.frame)
  }

  /** The mesh's uniforms and position always reflect the stored parameters. */
  predicate MeshInSync(mesh: Option<DepthMesh>, p: LiveParams)
  {
    mesh.Some? ==>
      && mesh.value.depthScale == 5.0 * p.depthStrength
      && mesh.value.dofStrength == p.dofStrength
      && mesh.value.focusDistance == p.focusDistance
      && mesh.value.z == MeshZ(p)
  }

  /** `currentZOffset - (currentDepthStrength * 5 / 2)`: the mesh is pushed
      back by half its largest displacement so the relief straddles z = 0. */
  function MeshZ(p: LiveParams): real
  {
    p.zOffset - p.depthStrength * 5.0 / 2.0
  }

  /** The invariant the renderer keeps between events. */
  predicate Ok(st: RendererState)
  {
    && SessionOk(st.session)
    && MeshInSync(st.stage.mesh, st.params)
    && (MeshNode in st.stage.scene ==> st.stage.mesh.Some?)
    && CameraOk(st.stage.camera)
  }

  /** The drawing-buffer side `renderer.setSize(css, css)` gives the canvas
      (`Math.floor(css * pixelRatio)`). */
  function DrawingBuffer(css: real, pixelRatio: real): int
  {
    (css * pixelRatio).Floor
  }

  /** `resetView(d)` with `compensation` = 1 / tan(fov/2): the camera goes
      onto the view axis at the home distance. */
  function ResetHome(st: RendererState, d: real, compensation: real): (r: RendererState)
    ensures r.params == st.params && r.session == st.session
    ensures r.stage == st.stage.(camera := r.stage.camera)
    ensures r.stage.camera == OnViewAxis(5.0 * compensation + 1.25 * d + st.params.zOffset)
  {
    var dist := HomeDistance(compensation, d, st.params.zOffset);
    st.(stage := st.stage.(camera := OnViewAxis(dist)))
  }

  /** `startQuilts`: a fresh session whose first leg starts now, with the
      camera turned to +range/2 at its current radius and height. */
  function Start(st: RendererState, now: int): (r: RendererState)
    ensures SessionOk(r.session) && r.session.active && r.session.screenshots == []
    ensures r.session.frame == 0 && r.session.startTime == now && r.session.progress == 0.0
    ensures r.session.targetRotation == st.params.quiltsAngleRange / 2.0
    ensures r.stage == st.stage.(camera := Orbit(st.stage.camera, st.params.quiltsAngleRange / 2.0))
    ensures CameraOk(st.stage.camera) ==> CameraOk(r.stage.camera)
    ensures r.params == st.params
  {
    var half := st.params.quiltsAngleRange / 2.0;
    st.(session := st.session.(active := true, progress := 0.0, startTime := now, frame := 0,
                               rotating := true, controlsEnabled := false, screenshots := [],
                               targetRotation := half),
        stage := st.stage.(camera := Orbit(st.stage.camera, half)))
  }

  /** `stopQuilts`: the session ends and the controls come back; the
      screenshots are posted, and emptied, only when there are any. */
  function Stop(st: RendererState, env: Env): (r: (RendererState, Option<HostMessage>))
    ensures r.1.Some? <==> |st.session.screenshots| > 0
    ensures r.1.Some? ==> r.1.value == QuiltsComplete(st.session.screenshots, env.iframeId)
    ensures r.0.session == st.session.(active := false, rotating := false,
                                       controlsEnabled := true, screenshots := [])
    ensures r.0.params == st.params && r.0.stage == st.stage
  {
    var s := st.session.(active := false, rotating := false, controlsEnabled := true);
    if |s.screenshots| > 0 then
      (st.(session := s.(screenshots := [])), Some(QuiltsComplete(s.screenshots, env.iframeId)))
    else
      (st.(session := s), None)
  }

  /** The frame `takeQuiltsScreenshot` captures. */
  function ShotOf(st: RendererState, env: Env): Capture
  {
    Capture(st.stage.camera, DrawingBuffer(st.params.screenshotSize, env.pixelRatio),
            st.stage.scene - Overlays)
  }

  /** `takeQuiltsScreenshot`: one capture is appended, drawn without the
      helpers at the screenshot size; the scene gets its helpers back, and
      the renderer is restored to `setSize(canvas.width, canvas.height)`,
      that is, to the drawing-buffer size of the old CSS size, read as a CSS
      size. */
  function Screenshot(st: RendererState, env: Env): (r: RendererState)
    ensures r.params == st.params
    ensures r.session == st.session.(screenshots := st.session.screenshots + [ShotOf(st, env)])
    ensures r.stage == st.stage.(rendererSize := DrawingBuffer(st.stage.rendererSize as real, env.pixelRatio))
  {
    var shot := ShotOf(st, env);
    st.(session := st.session.(screenshots := st.session.screenshots + [shot]),
        stage := st.stage.(rendererSize := DrawingBuffer(st.stage.rendererSize as real, env.pixelRatio)))
  }

  /** Where one tick of a leg puts the camera: turned part of the way from
      its current heading to `target`, at its radius and height. A NaN target
      leaves the camera's x and z NaN. */
  function LegCamera(c: Camera, target: Option<real>, progress: real): (r: Camera)
    ensures CameraOk(c) ==> CameraOk(r)
    ensures r.y == c.y
    ensures target.None? ==> r.Undefined?
    ensures c.Placed? && target.Some? ==>
              r.Placed? && r.radius == c.radius && r.heading == Wrap(LegStep(c.heading, target.value, progress))
  {
    match target
    case None => Undefined(c.y)
    case Some(t) => if c.Placed? then Orbit(c, LegStep(c.heading, t, progress)) else c
  }

  /** `updateQuilts` at time `now`. */
  function Tick(st: RendererState, env: Env, now: int): (RendererState, Option<HostMessage>)
  {
    var s := st.session;
    if !s.active then (st, None)
    else
      var progress := Progress(now - s.startTime);
      var st1 := st.(session := s.(progress := progress));
      if !s.rotating then (st1, None)
      else
        var target := TargetHeading(st.params.quiltsAngleRange, st.params.quiltsNum, s.frame);
        var st2 := st1.(stage := st1.stage.(camera := LegCamera(st1.stage.camera, target, progress)));
        if progress >= 1.0 then
          var st3 := Screenshot(st2.(session := st2.session.(rotating := false)), env);
          var st4 := st3.(session := st3.session.(frame := s.frame + 1));
          if ((s.frame + 1) as real) < st.params.quiltsNum then
            (st4.(session := st4.session.(progress := 0.0, startTime := now, rotating := true)), None)
          else
            Stop(st4, env)
        else
          (st2, None)
  }

  /** The parameter part of an `update` message: each strength it carries is
      stored and, when there is a mesh, written into its uniforms (a new
      depth strength also moves the mesh's z). */
  function SetStrengths(st: RendererState, ds: Option<real>, dof: Option<real>, focus: Option<real>)
    : RendererState
  {
    var p := st.params.(depthStrength := ds.OrElse(st.params.depthStrength),
                        dofStrength := dof.OrElse(st.params.dofStrength),
                        focusDistance := focus.OrElse(st.params.focusDistance));
    var mesh := match st.stage.mesh
      case None => None
      case Some(m) =>
        var m1 := if ds.Some? then m.(depthScale := 5.0 * p.depthStrength, z := MeshZ(p)) else m;
        var m2 := if dof.Some? then m1.(dofStrength := p.dofStrength) else m1;
        Some(if focus.Some? then m2.(focusDistance := p.focusDistance) else m2);
    st.(params := p, stage := st.stage.(mesh := mesh))
  }

  /** The `toggleQuilts` message. */
  function Toggle(st: RendererState, env: Env, now: int): (RendererState, Effect)
  {
    if !st.session.active then (Start(st, now), NoEffect)
    else
      var (r, posted) := Stop(st, env);
      (r, if posted.Some? then Posted(posted.value) else NoEffect)
  }

  /** The `updateZOffset` message. */
  function SetZOffset(st: RendererState, v: real): RendererState
  {
    var p := st.params.(zOffset := v);
    var mesh := match st.stage.mesh
      case None => None
      case Some(m) => Some(m.(z := MeshZ(p)));
    st.(params := p, stage := st.stage.(mesh := mesh))
  }

  /** The listener's handling of one message at time `now`, with
      `fovCompensation` giving 1 / tan(fov/2) for a field of view. */
  function Handle(st: RendererState, env: Env, msg: Message, now: int,
                  fovCompensation: real -> real): (RendererState, Effect)
  {
    match msg
    case Init(url) => (st.(params := st.params.(apiURL := url)), NoEffect)
    case Update(ref, depth, ds, dof, focus) =>
      (SetStrengths(st, ds, dof, focus), if ref.Some? && depth.Some? then Reload(ref, depth) else NoEffect)
    case ResetView(d) => (ResetHome(st, d, fovCompensation(st.params.fov)), NoEffect)
    case UpdateQuiltsNum(v) => (st.(params := st.params.(quiltsNum := v)), NoEffect)
    case UpdateQuiltsAngleRange(v) => (st.(params := st.params.(quiltsAngleRange := v)), NoEffect)
    case UpdateScreenshotSize(v) => (st.(params := st.params.(screenshotSize := v)), NoEffect)
    case ToggleQuilts => Toggle(st, env, now)
    case UpdateZOffset(v) => (SetZOffset(st, v), NoEffect)
    case UpdateCameraFOV(v) => (st.(params := st.params.(fov := v)), NoEffect)
    case Unrecognised => (st, NoEffect)
  }

  /** `main` loads an image when its descriptor has a non-empty file name
      with a supported extension. */
  predicate Requests(p: Option<ImageParams>)
  {
    p.Some? && p.value.filename != "" && IsSupportedImage(p.value.filename)
  }

  /** The mesh `main` builds: a plane 10 wide whose height keeps the
      reference image's aspect ratio, with the current uniforms. */
  function NewMesh(reference: Texture, depth: Texture, p: LiveParams): (m: DepthMesh)
    requires reference.width != 0
    ensures MeshInSync(Some(m), p)
    ensures m.planeWidth == 10.0
  {
    DepthMesh(reference, depth, 10.0,
              (reference.height as real) / ((reference.width as real) / 10.0),
              5.0 * p.depthStrength, p.dofStrength, p.focusDistance, MeshZ(p))
  }

  /** The end of `main` once both textures are in: the new mesh joins the
      scene, and the camera is sent home only while `needUpdate` is false,
      that is, for the first image after a new pair of attributes. */
  function Rebuilt(st: RendererState, reference: Texture, depth: Texture, compensation: real): RendererState
    requires reference.width != 0
  {
    var m := NewMesh(reference, depth, st.params);
    var built := st.(stage := st.stage.(mesh := Some(m), scene := st.stage.scene + {MeshNode}));
    if !st.stage.needUpdate then ResetHome(built, st.params.depthStrength, compensation) else built
  }

  /** `main(ref, depth)` with the outcomes of its texture loads; the flag says
      whether it ran to its end (a rejected load throws out of it). */
  function Load(st: RendererState, ref: Option<ImageParams>, depth: Option<ImageParams>,
                refLoad: LoadOutcome, depthLoad: LoadOutcome,
                fovCompensation: real -> real): (RendererState, bool)
    requires refLoad.Loaded? ==> refLoad.texture.width > 0
  {
    var st0 := st.(stage := st.stage.(scene := BaseScene));
    if Requests(ref) && refLoad.LoadFailed? then (st0, false)
    else if Requests(depth) && depthLoad.LoadFailed? then (st0, false)
    else
      var st1 :=
        if Requests(ref) && Requests(depth) then
          Rebuilt(st0, refLoad.texture, depthLoad.texture, fovCompensation(st.params.fov))
        else st0;
      (st1.(stage := st1.stage.(needUpdate := true)), true)
  }

  /** One run of `frameUpdate` with the attribute values it reads. */
  function Frame(st: RendererState, env: Env, refAttr: Attr, depthAttr: Attr, now: int)
    : (RendererState, FrameOutcome)
  {
    if refAttr == st.stage.lastReferenceImage && depthAttr == st.stage.lastDepthMap then
      if st.stage.needUpdate then
        if st.session.active then
          var (r, posted) := Tick(st, env, now);
          (r, Rendered(posted))
        else (st, Rendered(None))
      else (st, Waiting)
    else
      var r := st.(stage := st.stage.(needUpdate := false, scene := {},
                                      lastReferenceImage := refAttr, lastDepthMap := depthAttr));
      if Parses(refAttr) && Parses(depthAttr) then
        (r, Reloading(ParsedValue(refAttr), ParsedValue(depthAttr)))
      else (r, Stalled)
  }

  /** `window.onresize`: the canvas becomes the window's smaller side. */
  function Resized(st: RendererState, width: int, height: int): (r: RendererState)
    ensures r.stage.rendererSize <= width && r.stage.rendererSize <= height
    ensures r.stage.rendererSize == width || r.stage.rendererSize == height
    ensures r == st.(stage := st.stage.(rendererSize := r.stage.rendererSize))
  {
    st.(stage := st.stage.(rendererSize := if width < height then width else height))
  }

  // ---------------------------------------------------------------------
  // Properties of the step functions.

  /** Every message keeps the invariant. */
  lemma HandleKeepsOk(st: RendererState, env: Env, msg: Message, now: int,
                      fovCompensation: real -> real)
    requires Ok(st)
    ensures Ok(Handle(st, env, msg, now, fovCompensation).0)
  {
  }

  /** An `update` message stores exactly the parameters it carries, keeps the
      mesh in sync with them, and asks for a reload exactly when it carries
      both images. */
  lemma UpdateMessage(st: RendererState, env: Env, ref: Option<ImageParams>, depth: Option<ImageParams>,
                      ds: Option<real>, dof: Option<real>, focus: Option<real>, now: int,
                      fovCompensation: real -> real)
    requires MeshInSync(st.stage.mesh, st.params)
    ensures var (r, e) := Handle(st, env, Update(ref, depth, ds, dof, focus), now, fovCompensation);
      && r.params == st.params.(depthStrength := ds.OrElse(st.params.depthStrength),
                                dofStrength := dof.OrElse(st.params.dofStrength),
                                focusDistance := focus.OrElse(st.params.focusDistance))
      && MeshInSync(r.stage.mesh, r.params)
      && r.stage.mesh.Some? == st.stage.mesh.Some?
      && r.session == st.session
      && r.stage == st.stage.(mesh := r.stage.mesh)
      && (st.stage.mesh.Some? ==>
            r.stage.mesh.value == st.stage.mesh.value.(depthScale := 5.0 * r.params.depthStrength,
                                                      dofStrength := r.params.dofStrength,
                                                      focusDistance := r.params.focusDistance,
                                                      z := MeshZ(r.params)))
      && (e.Reload? <==> ref.Some? && depth.Some?)
      && (e.Reload? ==> e == Reload(ref, depth))
  {
  }

  /** A Z offset message moves only the mesh's z; nothing else of the scene
      or the session changes. */
  lemma ZOffsetMessage(st: RendererState, env: Env, v: real, now: int, fovCompensation: real -> real)
    requires MeshInSync(st.stage.mesh, st.params)
    ensures var (r, e) := Handle(st, env, UpdateZOffset(v), now, fovCompensation);
      && e == NoEffect && r.session == st.session
      && r.params == st.params.(zOffset := v)
      && (st.stage.mesh.Some? ==> r.stage.mesh == Some(st.stage.mesh.value.(z := v - st.params.depthStrength * 2.5)))
      && (st.stage.mesh.None? ==> r.stage.mesh.None?)
      && r.stage == st.stage.(mesh := r.stage.mesh)
  {
  }

  /** The messages that only store a value: `init` stores the API URL, and
      the frame count, angle range, screenshot size and field-of-view
      messages each store their value; nothing else changes and nothing is
      posted. A message of any other type changes nothing. */
  lemma StoreMessages(st: RendererState, env: Env, msg: Message, now: int, fovCompensation: real -> real)
    requires msg.Init? || msg.UpdateQuiltsNum? || msg.UpdateQuiltsAngleRange?
             || msg.UpdateScreenshotSize? || msg.UpdateCameraFOV? || msg.Unrecognised?
    ensures var (r, e) := Handle(st, env, msg, now, fovCompensation);
      && e == NoEffect && r.session == st.session && r.stage == st.stage
      && r.params == (match msg
                      case Init(url) => st.params.(apiURL := url)
                      case UpdateQuiltsNum(v) => st.params.(quiltsNum := v)
                      case UpdateQuiltsAngleRange(v) => st.params.(quiltsAngleRange := v)
                      case UpdateScreenshotSize(v) => st.params.(screenshotSize := v)
                      case UpdateCameraFOV(v) => st.params.(fov := v)
                      case _ => st.params)
  {
  }

  /** The toggle message starts a session when none runs and otherwise stops
      it, posting exactly the frames captured so far when there are any. */
  lemma ToggleMessage(st: RendererState, env: Env, now: int, fovCompensation: real -> real)
    ensures var (r, e) := Handle(st, env, ToggleQuilts, now, fovCompensation);
      && (!st.session.active ==> r == Start(st, now) && e == NoEffect)
      && (st.session.active ==>
            && !r.session.active && r.session.controlsEnabled && r.session.screenshots == []
            && (e.Posted? <==> |st.session.screenshots| > 0)
            && (e.Posted? ==> e.message == QuiltsComplete(st.session.screenshots, env.iframeId))
            && (!e.Posted? ==> e == NoEffect))
  {
  }

  /** A tick keeps the invariant. */
  lemma TickKeepsOk(st: RendererState, env: Env, now: int)
    requires Ok(st)
    ensures Ok(Tick(st, env, now).0)
  {
    var s := st.session;
    if s.active && s.rotating {
      var progress := Progress(now - s.startTime);
      var target := TargetHeading(st.params.quiltsAngleRange, st.params.quiltsNum, s.frame);
      assert CameraOk(LegCamera(st.stage.camera, target, progress));
    }
  }

  /** Outside a session a tick changes nothing. */
  lemma TickIdle(st: RendererState, env: Env, now: int)
    requires !st.session.active
    ensures Tick(st, env, now) == (st, None)
  {
  }

  /** A tick within the first second of a leg only moves the camera part of
      the way: no frame is captured and nothing is posted. */
  lemma TickMidLeg(st: RendererState, env: Env, now: int)
    requires Ok(st) && st.session.active
    requires now - st.session.startTime < QuiltsDuration
    ensures var (r, posted) := Tick(st, env, now);
      && posted == None
      && r.session == st.session.(progress := r.session.progress)
      && r.session.progress == Progress(now - st.session.startTime) < 1.0
      && r.params == st.params
      && r.stage == st.stage.(camera := LegCamera(st.stage.camera,
           TargetHeading(st.params.quiltsAngleRange, st.params.quiltsNum, st.session.frame),
           r.session.progress))
  {
  }

  /** A tick a full leg after its start lands the camera on the frame's
      target heading and captures exactly one frame from there. The session
      then moves on to the next frame, or, after the last one, ends and posts
      every captured frame in order. */
  lemma TickCompletesLeg(st: RendererState, env: Env, now: int)
    requires Ok(st) && st.session.active
    requires now - st.session.startTime >= QuiltsDuration
    ensures
      var s := st.session;
      var target := TargetHeading(st.params.quiltsAngleRange, st.params.quiltsNum, s.frame);
      var cam := LegCamera(st.stage.camera, target, 1.0);
      var shot := Capture(cam, DrawingBuffer(st.params.screenshotSize, env.pixelRatio),
                          st.stage.scene - Overlays);
      var (r, posted) := Tick(st, env, now);
      && r.stage.camera == cam
      && (target.Some? && st.stage.camera.Placed? ==> cam == Placed(Wrap(target.value), st.stage.camera.radius, st.stage.camera.y))
      && r.params == st.params
      && r.stage == st.stage.(camera := cam,
                              rendererSize := DrawingBuffer(st.stage.rendererSize as real, env.pixelRatio))
      && (((s.frame + 1) as real) < st.params.quiltsNum ==>
            && posted == None
            && r.session == s.(progress := 0.0, startTime := now, frame := s.frame + 1,
                               screenshots := s.screenshots + [shot]))
      && (!(((s.frame + 1) as real) < st.params.quiltsNum) ==>
            && posted == Some(QuiltsComplete(s.screenshots + [shot], env.iframeId))
            && r.session == s.(progress := 1.0, frame := s.frame + 1, active := false,
                               rotating := false, controlsEnabled := true, screenshots := []))
  {
    var s := st.session;
    var target := TargetHeading(st.params.quiltsAngleRange, st.params.quiltsNum, s.frame);
    assert Progress(now - s.startTime) == 1.0;
    if target.Some? && st.stage.camera.Placed? {
      assert LegStep(st.stage.camera.heading, target.value, 1.0) == target.value;
    }
  }

  /** A capture never shows the helpers, and shows everything else the
      scene holds. */
  lemma CaptureHidesHelpers(st: RendererState, env: Env)
    ensures var c := ShotOf(st, env);
      && CenterPoint !in c.drawn && AxesHelper !in c.drawn
      && (forall o :: o in st.stage.scene && o !in Overlays ==> o in c.drawn)
      && c.drawn <= st.stage.scene
  {
  }

  /** A capture restores the renderer's size only at a pixel ratio of 1; at
      a ratio of 2 each capture doubles the canvas side. */
  lemma ScreenshotRestoredSize(st: RendererState, env: Env)
    ensures env.pixelRatio == 1.0 ==> Screenshot(st, env).stage.rendererSize == st.stage.rendererSize
    ensures env.pixelRatio == 2.0 ==> Screenshot(st, env).stage.rendererSize == 2 * st.stage.rendererSize
  {
    var size := st.stage.rendererSize;
    if env.pixelRatio == 2.0 {
      assert (size as real) * 2.0 == (2 * size) as real;
    }
  }

  /** `main` keeps the invariant. */
  lemma LoadKeepsOk(st: RendererState, ref: Option<ImageParams>, depth: Option<ImageParams>,
                    refLoad: LoadOutcome, depthLoad: LoadOutcome, fovCompensation: real -> real)
    requires Ok(st)
    requires refLoad.Loaded? ==> refLoad.texture.width > 0
    ensures Ok(Load(st, ref, depth, refLoad, depthLoad, fovCompensation).0)
  {
  }

  /** What `main` does with its loads: a rejected load of a requested image
      aborts with the base scene and `needUpdate` as it was; otherwise the
      mesh is rebuilt exactly when both images were requested, the camera is
      reset exactly when a mesh is built while `needUpdate` is false, and
      `needUpdate` is set. */
  lemma LoadOutcomes(st: RendererState, ref: Option<ImageParams>, depth: Option<ImageParams>,
                     refLoad: LoadOutcome, depthLoad: LoadOutcome, fovCompensation: real -> real)
    requires refLoad.Loaded? ==> refLoad.texture.width > 0
    ensures var (r, completed) := Load(st, ref, depth, refLoad, depthLoad, fovCompensation);
      var rebuilt := completed && Requests(ref) && Requests(depth);
      && (completed <==> !(Requests(ref) && refLoad.LoadFailed?) && !(Requests(depth) && depthLoad.LoadFailed?))
      && r.params == st.params && r.session == st.session
      && r.stage.needUpdate == (completed || st.stage.needUpdate)
      && r.stage.scene == (if rebuilt then BaseScene + {MeshNode} else BaseScene)
      && r.stage.mesh == (if rebuilt then Some(NewMesh(refLoad.texture, depthLoad.texture, st.params))
                          else st.stage.mesh)
      && r.stage.camera == (if rebuilt && !st.stage.needUpdate
                            then OnViewAxis(HomeDistance(fovCompensation(st.params.fov),
                                                         st.params.depthStrength, st.params.zOffset))
                            else st.stage.camera)
      && r.stage.rendererSize == st.stage.rendererSize
      && r.stage.lastReferenceImage == st.stage.lastReferenceImage
      && r.stage.lastDepthMap == st.stage.lastDepthMap
  {
  }

  /** One frame keeps the invariant. */
  lemma FrameKeepsOk(st: RendererState, env: Env, refAttr: Attr, depthAttr: Attr, now: int)
    requires Ok(st)
    ensures Ok(Frame(st, env, refAttr, depthAttr, now).0)
  {
    if refAttr == st.stage.lastReferenceImage && depthAttr == st.stage.lastDepthMap {
      TickKeepsOk(st, env, now);
    }
  }

  /** A frame that sees new attribute texts records them, empties the scene
      and drops `needUpdate`, and calls `main` exactly when both parse; a
      frame that sees the same texts leaves the scene side alone, and before
      the first load has finished it changes nothing at all. */
  lemma FrameOutcomes(st: RendererState, env: Env, refAttr: Attr, depthAttr: Attr, now: int)
    ensures var (r, out) := Frame(st, env, refAttr, depthAttr, now);
      var changed := refAttr != st.stage.lastReferenceImage || depthAttr != st.stage.lastDepthMap;
      && (changed ==>
            && r.params == st.params && r.session == st.session
            && r.stage == st.stage.(needUpdate := false, scene := {},
                                    lastReferenceImage := refAttr, lastDepthMap := depthAttr)
            && (out.Reloading? <==> Parses(refAttr) && Parses(depthAttr))
            && (!out.Reloading? ==> out == Stalled)
            && (out.Reloading? ==> out == Reloading(ParsedValue(refAttr), ParsedValue(depthAttr))))
      && (!changed && !st.stage.needUpdate ==> r == st && out == Waiting)
      && (!changed && st.stage.needUpdate ==> out.Rendered? && r.params == st.params
                                               && r.stage.scene == st.stage.scene
                                               && r.stage.mesh == st.stage.mesh)
  {
  }

  /** How a fresh renderer starts. The frame loop is not running until the
      host writes the two attributes and posts `update` with both images:
      `main` builds the mesh and sends the camera home, its trailing
      `frameUpdate` sees attributes that differ from the initial "" and runs
      `main` once more (the camera stays home), and from then on every frame
      renders without changing anything. */
  lemma StartUp(windowSize: int, env: Env, r: ImageParams, d: ImageParams,
                ds: real, dof: real, focus: real, reference: Texture, depth: Texture,
                now: int, fovCompensation: real -> real)
    requires Requests(Some(r)) && Requests(Some(d)) && reference.width > 0
    ensures
      var refAttr, depthAttr := Stringified(Some(r)), Stringified(Some(d));
      var (s1, e) := Handle(Initial(windowSize), env, Update(Some(r), Some(d), Some(ds), Some(dof), Some(focus)),
                            now, fovCompensation);
      var (s2, done2) := Load(s1, Some(r), Some(d), Loaded(reference), Loaded(depth), fovCompensation);
      var (s3, out3) := Frame(s2, env, refAttr, depthAttr, now);
      var (s4, done4) := Load(s3, Some(r), Some(d), Loaded(reference), Loaded(depth), fovCompensation);
      var home := OnViewAxis(HomeDistance(fovCompensation(7.0), ds, 0.0));
      && e == Reload(Some(r), Some(d)) && done2 && s2.stage.camera == home
      && out3 == Reloading(Some(r), Some(d))
      && done4 && s4.stage.camera == home && s4.stage.needUpdate
      && s4.stage.mesh == Some(NewMesh(reference, depth, s1.params))
      && s4.stage.scene == BaseScene + {MeshNode}
      && Frame(s4, env, refAttr, depthAttr, now + 1) == (s4, Rendered(None))
  {
    var refAttr, depthAttr := Stringified(Some(r)), Stringified(Some(d));
    var st := Initial(windowSize);
    var msg := Update(Some(r), Some(d), Some(ds), Some(dof), Some(focus));
    UpdateMessage(st, env, Some(r), Some(d), Some(ds), Some(dof), Some(focus), now, fovCompensation);
    var s1 := Handle(st, env, msg, now, fovCompensation).0;
    LoadOutcomes(s1, Some(r), Some(d), Loaded(reference), Loaded(depth), fovCompensation);
    var s2 := Load(s1, Some(r), Some(d), Loaded(reference), Loaded(depth), fovCompensation).0;
    FrameOutcomes(s2, env, refAttr, depthAttr, now);
    var s3 := Frame(s2, env, refAttr, depthAttr, now).0;
    LoadOutcomes(s3, Some(r), Some(d), Loaded(reference), Loaded(depth), fovCompensation);
    var s4 := Load(s3, Some(r), Some(d), Loaded(reference), Loaded(depth), fovCompensation).0;
    assert s4.stage.lastReferenceImage == refAttr && s4.stage.lastDepthMap == depthAttr;
  }

  /** The default session (4 frames over 14 degrees) started at time 0 and
      ticked once a second captures four frames, at headings 7, 7/3, -7/3 and
      -7 around the camera's radius and height, posts them in that order at
      the fourth second, and gives the controls back. */
  lemma {:induction false} DefaultSession(st: RendererState, env: Env, radius: real, y: real)
    requires Ok(st) && !st.session.active
    requires st.params.quiltsNum == 4.0 && st.params.quiltsAngleRange == 14.0
    requires st.stage.camera == Placed(0.0, radius, y) && 0.0 <= radius
    ensures
      var a := Start(st, 0);
      var b := Tick(a, env, 1000).0;
      var c := Tick(b, env, 2000).0;
      var d := Tick(c, env, 3000).0;
      var (e, posted) := Tick(d, env, 4000);
      var px := DrawingBuffer(st.params.screenshotSize, env.pixelRatio);
      var drawn := st.stage.scene - Overlays;
      && posted == Some(QuiltsComplete([Capture(Placed(7.0, radius, y), px, drawn),
                                        Capture(Placed(7.0 / 3.0, radius, y), px, drawn),
                                        Capture(Placed(-7.0 / 3.0, radius, y), px, drawn),
                                        Capture(Placed(-7.0, radius, y), px, drawn)],
                                       env.iframeId))
      && !e.session.active && e.session.controlsEnabled && e.session.screenshots == []
  {
    var px := DrawingBuffer(st.params.screenshotSize, env.pixelRatio);
    var drawn := st.stage.scene - Overlays;
    var c7, c73 := Capture(Placed(7.0, radius, y), px, drawn), Capture(Placed(7.0 / 3.0, radius, y), px, drawn);
    var cm73, cm7 := Capture(Placed(-7.0 / 3.0, radius, y), px, drawn), Capture(Placed(-7.0, radius, y), px, drawn);
    DefaultSessionHeadings();
    var a := Start(st, 0);
    assert a.stage.camera == Placed(7.0, radius, y);
    TickCompletesLeg(a, env, 1000);
    var b := Tick(a, env, 1000).0;
    assert b.session.screenshots == [c7] && b.session.frame == 1 && b.session.startTime == 1000;
    assert b.stage.camera == Placed(7.0, radius, y) && b.stage.scene == st.stage.scene;
    TickCompletesLeg(b, env, 2000);
    var c := Tick(b, env, 2000).0;
    assert c.session.screenshots == [c7, c73] && c.session.frame == 2 && c.session.startTime == 2000;
    assert c.stage.camera == Placed(7.0 / 3.0, radius, y) && c.stage.scene == st.stage.scene;
    TickCompletesLeg(c, env, 3000);
    var d := Tick(c, env, 3000).0;
    assert d.session.screenshots == [c7, c73, cm73] && d.session.frame == 3 && d.session.startTime == 3000;
    assert d.stage.camera == Placed(-7.0 / 3.0, radius, y) && d.stage.scene == st.stage.scene;
    TickCompletesLeg(d, env, 4000);
    assert d.params == st.params;
    assert TargetHeading(d.params.quiltsAngleRange, d.params.quiltsNum, d.session.frame) == Some(-7.0);
    assert ((d.session.frame + 1) as real) == 4.0;
    assert LegCamera(d.stage.camera, Some(-7.0), 1.0) == Placed(-7.0, radius, y);
    var shot := Capture(LegCamera(d.stage.camera, Some(-7.0), 1.0), DrawingBuffer(d.params.screenshotSize, env.pixelRatio), d.stage.scene - Overlays);
    assert shot == cm7;
    assert Tick(d, env, 4000).1 == Some(QuiltsComplete(d.session.screenshots + [shot], env.iframeId));
    assert d.session.screenshots + [shot] == [c7, c73, cm73, cm7];
    assert Tick(d, env, 4000).1 == Some(QuiltsComplete([c7, c73, cm73, cm7], env.iframeId));
  }

  /** A session of a single frame divides by zero: its one capture is taken
      from a camera whose position is not a number, and is posted at once. */
  lemma SingleFrameSession(st: RendererState, env: Env)
    requires Ok(st) && !st.session.active && st.params.quiltsNum == 1.0
    ensures
      var (r, posted) := Tick(Start(st, 0), env, 1000);
      && posted.Some? && |posted.value.imgs| == 1
      && posted.value.imgs[0].camera == Undefined(st.stage.camera.y)
      && !r.session.active
  {
    TickCompletesLeg(Start(st, 0), env, 1000);
  }

  /** Stopping a session after two of four frames posts those two. */
  lemma StopPartway(st: RendererState, env: Env, fovCompensation: real -> real)
    requires Ok(st) && !st.session.active && st.params.quiltsNum == 4.0
    ensures
      var b := Tick(Start(st, 0), env, 1000).0;
      var c := Tick(b, env, 2000).0;
      var (r, e) := Handle(c, env, ToggleQuilts, 2500, fovCompensation);
      && e.Posted? && |e.message.imgs| == 2
      && !r.session.active && r.session.controlsEnabled
  {
    var a := Start(st, 0);
    TickCompletesLeg(a, env, 1000);
    var b := Tick(a, env, 1000).0;
    TickCompletesLeg(b, env, 2000);
  }

  // ---------------------------------------------------------------------
  // The renderer as the source keeps it: module-level variables updated in
  // place, grouped into the listener's parameters, the Quilt session and the
  // scene side.

  class Visualizer {
    var params: LiveParams
    var session: QuiltSession
    var stage: Stage
    const pixelRatio: real
    const iframeId: Option<string>

    function State(): RendererState
      reads this
    {
      RendererState(params, session, stage)
    }

    function Environment(): Env
    {
      Env(pixelRatio, iframeId)
    }

    ghost predicate Valid()
      reads this
    {
      Ok(State())
    }

    /** The script's top level in a window of `windowWidth` × `windowHeight`. */
    constructor (pixelRatio: real, iframeId: Option<string>, windowWidth: int, windowHeight: int)
      ensures Valid()
      ensures State() == Initial(if windowWidth < windowHeight then windowWidth else windowHeight)
      ensures Environment() == Env(pixelRatio, iframeId)
    {
      params := LiveParams("", 1.5, 0.0, 0.0, 0.0, 1024.0, 4.0, 14.0, 7.0);
      session := QuiltSession(false, 0.0, 0, 0, 0.0, false, [], true);
      var size := if windowWidth < windowHeight then windowWidth else windowHeight;
      stage := Stage(Placed(0.0, 10.0, 0.0), None, {CenterPoint, AxesHelper}, size,
                     Malformed(""), Malformed(""), false);
      this.pixelRatio := pixelRatio;
      this.iframeId := iframeId;
    }

    /** `window.onresize`. */
    method OnWindowResize(width: int, height: int)
      requires Valid()
      modifies this`stage
      ensures Valid()
      ensures State() == Resized(old(State()), width, height)
    {
      var size := if width < height then width else height;
      stage := stage.(rendererSize := size);
    }

    /** `resetView`, given the compensation for the camera's field of view. */
    method ResetView(depthStrength: real, compensation: real)
      modifies this`stage
      ensures State() == ResetHome(old(State()), depthStrength, compensation)
    {
      var maxDisplacement := 2.5 * depthStrength;
      var cameraDistance := BaseCameraDistance * compensation + maxDisplacement * 0.5 + params.zOffset;
      stage := stage.(camera := OnViewAxis(cameraDistance));
    }

    /** `startQuilts` at time `now`. */
    method StartQuilts(now: int)
      modifies this`session, this`stage
      ensures State() == Start(old(State()), now)
    {
      session := session.(active := true, progress := 0.0, startTime := now, frame := 0,
                          rotating := true, controlsEnabled := false);
      session := session.(screenshots := []);
      var halfAngleRange := params.quiltsAngleRange / 2.0;
      session := session.(targetRotation := halfAngleRange);
      stage := stage.(camera := Orbit(stage.camera, halfAngleRange));
    }

    /** `stopQuilts`; `posted` is the message sent to the parent window. */
    method StopQuilts() returns (posted: Option<HostMessage>)
      modifies this`session
      ensures (State(), posted) == Stop(old(State()), Environment())
    {
      session := session.(active := false, rotating := false, controlsEnabled := true);
      posted := None;
      if |session.screenshots| > 0 {
        posted := Some(QuiltsComplete(session.screenshots, iframeId));
        session := session.(screenshots := []);
      }
    }

    /** `takeQuiltsScreenshot`. */
    method TakeQuiltsScreenshot()
      modifies this`session, this`stage
      ensures State() == Screenshot(old(State()), Environment())
    {
      var originalSize := DrawingBuffer(stage.rendererSize as real, pixelRatio);
      var hadAxes := AxesHelper in stage.scene;
      var hadCenter := CenterPoint in stage.scene;
      if hadAxes {
        stage := stage.(scene := stage.scene - {AxesHelper});
      }
      if hadCenter {
        stage := stage.(scene := stage.scene - {CenterPoint});
      }
      var shot := Capture(stage.camera, DrawingBuffer(params.screenshotSize, pixelRatio), stage.scene);
      session := session.(screenshots := session.screenshots + [shot]);
      stage := stage.(rendererSize := originalSize);
      if hadAxes {
        stage := stage.(scene := stage.scene + {AxesHelper});
      }
      if hadCenter {
        stage := stage.(scene := stage.scene + {CenterPoint});
      }
      assert shot.drawn == old(stage.scene) - Overlays;
      assert stage.scene == old(stage.scene);
    }

    /** `updateQuilts` at time `now`. */
    method UpdateQuilts(now: int) returns (posted: Option<HostMessage>)
      modifies this`session, this`stage
      ensures (State(), posted) == Tick(old(State()), Environment(), now)
    {
      posted := None;
      if !session.active {
        return;
      }
      var currentTime := now;
      var elapsed := currentTime - session.startTime;
      session := session.(progress := Progress(elapsed));
      if session.rotating {
        var targetRotation := TargetHeading(params.quiltsAngleRange, params.quiltsNum, session.frame);
        stage := stage.(camera := LegCamera(stage.camera, targetRotation, session.progress));
        if session.progress >= 1.0 {
          session := session.(rotating := false);
          TakeQuiltsScreenshot();
          session := session.(frame := session.frame + 1);
          if (session.frame as real) < params.quiltsNum {
            session := session.(progress := 0.0, startTime := currentTime, rotating := true);
          } else {
            posted := StopQuilts();
          }
        }
      }
    }

    /** The `update` message's parameters. */
    method ApplyStrengths(ds: Option<real>, dof: Option<real>, focus: Option<real>)
      modifies this`params, this`stage
      ensures State() == SetStrengths(old(State()), ds, dof, focus)
    {
      if ds.Some? {
        params := params.(depthStrength := ds.value);
        if stage.mesh.Some? {
          var finalZOffset := params.zOffset - params.depthStrength * 5.0 / 2.0;
          stage := stage.(mesh := Some(stage.mesh.value.(depthScale := 5.0 * params.depthStrength,
                                                         z := finalZOffset)));
        }
      }
      if dof.Some? {
        params := params.(dofStrength := dof.value);
        if stage.mesh.Some? {
          stage := stage.(mesh := Some(stage.mesh.value.(dofStrength := params.dofStrength)));
        }
      }
      if focus.Some? {
        params := params.(focusDistance := focus.value);
        if stage.mesh.Some? {
          stage := stage.(mesh := Some(stage.mesh.value.(focusDistance := params.focusDistance)));
        }
      }
    }

    /** The `toggleQuilts` message. */
    method ToggleQuiltsMode(now: int) returns (effect: Effect)
      modifies this`session, this`stage
      ensures (State(), effect) == Toggle(old(State()), Environment(), now)
    {
      effect := NoEffect;
      if !session.active {
        StartQuilts(now);
      } else {
        var posted := StopQuilts();
        if posted.Some? {
          effect := Posted(posted.value);
        }
      }
    }

    /** The `updateZOffset` message. */
    method ApplyZOffset(v: real)
      modifies this`params, this`stage
      ensures State() == SetZOffset(old(State()), v)
    {
      params := params.(zOffset := v);
      if stage.mesh.Some? {
        var finalZOffset := params.zOffset - params.depthStrength * 5.0 / 2.0;
        stage := stage.(mesh := Some(stage.mesh.value.(z := finalZOffset)));
      }
    }

    /** The message listener. */
    method OnMessage(msg: Message, now: int, fovCompensation: real -> real) returns (effect: Effect)
      requires Valid()
      modifies this`params, this`session, this`stage
      ensures Valid()
      ensures (State(), effect) == Handle(old(State()), Environment(), msg, now, fovCompensation)
    {
      HandleKeepsOk(State(), Environment(), msg, now, fovCompensation);
      effect := NoEffect;
      match msg {
        case Init(url) =>
          params := params.(apiURL := url);
        case Update(ref, depth, ds, dof, focus) =>
          ApplyStrengths(ds, dof, focus);
          if ref.Some? && depth.Some? {
            effect := Reload(ref, depth);
          }
        case ResetView(d) =>
          ResetView(d, fovCompensation(params.fov));
        case UpdateQuiltsNum(v) =>
          params := params.(quiltsNum := v);
        case UpdateQuiltsAngleRange(v) =>
          params := params.(quiltsAngleRange := v);
        case UpdateScreenshotSize(v) =>
          params := params.(screenshotSize := v);
        case ToggleQuilts =>
          effect := ToggleQuiltsMode(now);
        case UpdateZOffset(v) =>
          ApplyZOffset(v);
        case UpdateCameraFOV(v) =>
          params := params.(fov := v);
        case Unrecognised =>
      }
    }

    /** The end of `main` once both textures are in. */
    method RebuildMesh(reference: Texture, depth: Texture, compensation: real)
      requires reference.width != 0
      modifies this`stage
      ensures State() == Rebuilt(old(State()), reference, depth, compensation)
    {
      stage := stage.(mesh := Some(NewMesh(reference, depth, params)));
      stage := stage.(scene := stage.scene + {MeshNode});
      if !stage.needUpdate {
        ResetView(params.depthStrength, compensation);
      }
    }

    /** `main` with the outcomes of its two texture loads. */
    method LoadScene(referenceImageParams: Option<ImageParams>, depthMapParams: Option<ImageParams>,
                     referenceLoad: LoadOutcome, depthLoad: LoadOutcome,
                     fovCompensation: real -> real) returns (completed: bool)
      requires Valid()
      requires referenceLoad.Loaded? ==> referenceLoad.texture.width > 0
      modifies this`stage
      ensures Valid()
      ensures (State(), completed) == Load(old(State()), referenceImageParams, depthMapParams,
                                           referenceLoad, depthLoad, fovCompensation)
    {
      LoadKeepsOk(State(), referenceImageParams, depthMapParams, referenceLoad, depthLoad, fovCompensation);
      stage := stage.(scene := BaseScene);
      completed := false;
      var referenceTexture: Option<Texture> := None;
      var depthTexture: Option<Texture> := None;
      if Requests(referenceImageParams) {
        if referenceLoad.LoadFailed? {
          return;
        }
        referenceTexture := Some(referenceLoad.texture);
      }
      if Requests(depthMapParams) {
        if depthLoad.LoadFailed? {
          return;
        }
        depthTexture := Some(depthLoad.texture);
      }
      if referenceTexture.Some? && depthTexture.Some? {
        RebuildMesh(referenceTexture.value, depthTexture.value, fovCompensation(params.fov));
      }
      stage := stage.(needUpdate := true);
      completed := true;
    }

    /** One run of `frameUpdate`, reading the attribute values given. */
    method FrameUpdate(referenceImage: Attr, depthMap: Attr, now: int) returns (outcome: FrameOutcome)
      requires Valid()
      modifies this`session, this`stage
      ensures Valid()
      ensures (State(), outcome) == Frame(old(State()), Environment(), referenceImage, depthMap, now)
    {
      FrameKeepsOk(State(), Environment(), referenceImage, depthMap, now);
      if referenceImage == stage.lastReferenceImage && depthMap == stage.lastDepthMap {
        if stage.needUpdate {
          var posted := None;
          if session.active {
            posted := UpdateQuilts(now);
          }
          outcome := Rendered(posted);
        } else {
          outcome := Waiting;
        }
      } else {
        stage := stage.(needUpdate := false, scene := {});
        stage := stage.(lastReferenceImage := referenceImage, lastDepthMap := depthMap);
        if Parses(stage.lastReferenceImage) && Parses(stage.lastDepthMap) {
          outcome := Reloading(ParsedValue(stage.lastReferenceImage), ParsedValue(stage.lastDepthMap));
        } else {
          outcome := Stalled;
        }
      }
    }
  }
}
