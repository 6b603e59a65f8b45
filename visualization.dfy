/** The host side of web/visualization.js: the node's listener for the
    renderer's `quiltsComplete` message, the control panel's slider defaults,
    callbacks and `updateVisual`, the panel's scale tiers and the node's
    resize clamp. */
module Visualization {
  import opened Strings
  import opened Config
  import opened Protocol
  import ThreeVisualizer
  import RendererLogic

  // ---------------------------------------------------------------------
  // The quiltsComplete listener

  /** A JavaScript value where the listener tests it, with numbers limited to
      integers (a node id is one). */
  datatype JsValue = Undefined | Null | Bool(b: bool) | Num(i: int) | Str(s: string) | Obj

  /** JavaScript truthiness. */
  predicate Truthy(v: JsValue)
  {
    match v
    case Undefined => false
    case Null => false
    case Bool(b) => b
    case Num(i) => i != 0
    case Str(s) => s != ""
    case Obj => true
  }

  /** JavaScript's `String(v)`. */
  function JsString(v: JsValue): string
  {
    match v
    case Undefined => "undefined"
    case Null => "null"
    case Bool(b) => if b then "true" else "false"
    case Num(i) => IntToString(i)
    case Str(s) => s
    case Obj => "[object Object]"
  }

  /** The `id` and `imgs` of a message's `data`; `imgs` is `None` when it is
      missing or falsy, and otherwise the array it holds. */
  datatype QuiltsPayload = QuiltsPayload(id: JsValue, imgs: Option<seq<JsValue>>)

  /** The listener of node `nodeId` acts on a message exactly when its data is
      present, its id and imgs are truthy, and the id prints as the node id. */
  predicate Accepts(nodeId: int, data: Option<QuiltsPayload>)
  {
    && data.Some?
    && Truthy(data.value.id)
    && data.value.imgs.Some?
    && JsString(data.value.id) == IntToString(nodeId)
  }

  /** The frame one entry contributes: a non-empty string whose upload answers
      with a non-empty `name` is kept; anything else is skipped. */
  function Kept(v: JsValue, upload: string -> Option<UploadedFile>): seq<UploadedFile>
  {
    if v.Str? && v.s != "" then
      match upload(v.s)
      case Some(f) => if f.name != "" then [f] else []
      case None => []
    else []
  }

  /** The frames the listener collects from `imgs`, in order. `upload` is the
      `/upload/image` round trip; `None` stands for an upload that threw or
      answered with no object. */
  function Uploaded(imgs: seq<JsValue>, upload: string -> Option<UploadedFile>): seq<UploadedFile>
  {
    if imgs == [] then [] else Uploaded(imgs[..|imgs| - 1], upload) + Kept(imgs[|imgs| - 1], upload)
  }

  /** No entry yields more than one frame, and every frame collected has a
      name. */
  lemma {:induction false} UploadedBounds(imgs: seq<JsValue>, upload: string -> Option<UploadedFile>)
    ensures |Uploaded(imgs, upload)| <= |imgs|
    ensures forall f :: f in Uploaded(imgs, upload) ==> f.name != ""
  {
    if imgs != [] {
      UploadedBounds(imgs[..|imgs| - 1], upload);
    }
  }

  /** The frames of a concatenation are the frames of each part in order, so
      a skipped entry does not disturb the order of the others. */
  lemma {:induction false} UploadedConcat(a: seq<JsValue>, b: seq<JsValue>, upload: string -> Option<UploadedFile>)
    ensures Uploaded(a + b, upload) == Uploaded(a, upload) + Uploaded(b, upload)
    decreases |b|
  {
    if b == [] {
      assert a + b == a;
    } else {
      var b' := b[..|b| - 1];
      assert (a + b)[..|a + b| - 1] == a + b';
      assert (a + b)[|a + b| - 1] == b[|b| - 1];
      UploadedConcat(a, b', upload);
    }
  }

  /** When every entry is a non-empty string whose upload succeeds, the
      listener collects exactly one frame per entry, in the entries' order. */
  lemma {:induction false} UploadedAll(imgs: seq<JsValue>, upload: string -> Option<UploadedFile>)
    requires forall i :: 0 <= i < |imgs| ==> imgs[i].Str? && imgs[i].s != ""
    requires forall i :: 0 <= i < |imgs| ==> upload(imgs[i].s).Some? && upload(imgs[i].s).value.name != ""
    ensures |Uploaded(imgs, upload)| == |imgs|
    ensures forall i :: 0 <= i < |imgs| ==> Uploaded(imgs, upload)[i] == upload(imgs[i].s).value
  {
    if imgs != [] {
      var init := imgs[..|imgs| - 1];
      UploadedAll(init, upload);
    }
  }

  /** Extending the entries by one adds that entry's frame at the end. */
  lemma UploadedPrefix(imgs: seq<JsValue>, i: nat, upload: string -> Option<UploadedFile>)
    requires i < |imgs|
    ensures Uploaded(imgs[..i + 1], upload) == Uploaded(imgs[..i], upload) + Kept(imgs[i], upload)
  {
    assert imgs[..i + 1][..i] == imgs[..i];
  }

  /** The message the renderer posts, as the host's listener receives it:
      the captures arrive as the data URLs `dataUrl` gives them, and a
      missing `id` query parameter arrives as null. */
  function Received(m: ThreeVisualizer.HostMessage, dataUrl: ThreeVisualizer.Capture -> string): QuiltsPayload
  {
    QuiltsPayload(match m.id case Some(s) => Str(s) case None => Null,
                  Some(seq(|m.imgs|, i requires 0 <= i < |m.imgs| => Str(dataUrl(m.imgs[i])))))
  }

  /** A batch from the renderer embedded with `?id=<nodeId>` reaches its own
      node and no other; a renderer whose URL has no id reaches none. */
  lemma RoutedToOwnNode(m: ThreeVisualizer.HostMessage, dataUrl: ThreeVisualizer.Capture -> string,
                        nodeId: int, other: int)
    ensures m.id == Some(IntToString(nodeId)) ==> Accepts(nodeId, Some(Received(m, dataUrl)))
    ensures m.id == Some(IntToString(nodeId)) && other != nodeId ==> !Accepts(other, Some(Received(m, dataUrl)))
    ensures m.id.None? ==> !Accepts(nodeId, Some(Received(m, dataUrl)))
  {
    if m.id == Some(IntToString(nodeId)) && Accepts(other, Some(Received(m, dataUrl))) {
      IntToStringInjective(nodeId, other);
    }
  }

  /** `String()` on both sides makes a numeric id match the node as well,
      except that the numeric id 0 is falsy and is turned away while the
      string "0" is accepted. */
  lemma NumericIds(nodeId: int, imgs: seq<JsValue>)
    ensures Accepts(nodeId, Some(QuiltsPayload(Num(nodeId), Some(imgs)))) <==> nodeId != 0
    ensures Accepts(0, Some(QuiltsPayload(Str("0"), Some(imgs))))
  {
  }

  /** The LiteGraph node: its id, title, size and the `frames` widget's
      images. */
  class Node {
    const id: int
    var title: string
    var frames: seq<UploadedFile>
    var width: real
    var height: real

    constructor (id: int)
      ensures this.id == id && frames == [] && width == NodeMinWidth && height == NodeMinHeight
    {
      this.id := id;
      title := "";
      frames := [];
      width := NodeMinWidth;
      height := NodeMinHeight;
    }

    /** The `quiltsComplete` listener: an accepted message replaces the
        frames with the uploads of its images and retitles the node with
        their count; any other message changes nothing. */
    method OnQuiltsComplete(data: Option<QuiltsPayload>, upload: string -> Option<UploadedFile>)
      modifies this`title, this`frames
      ensures !Accepts(id, data) ==> title == old(title) && frames == old(frames)
      ensures Accepts(id, data) ==> frames == Uploaded(data.value.imgs.value, upload)
      ensures Accepts(id, data) ==> title == "Input #" + NatToString(|frames|)
    {
      if data.None? || !Truthy(data.value.id) || data.value.imgs.None? {
        return;
      }
      var imgs := data.value.imgs.value;
      if JsString(data.value.id) != IntToString(id) {
        return;
      }
      frames := [];
      var i := 0;
      while i < |imgs|
        invariant 0 <= i <= |imgs|
        invariant frames == Uploaded(imgs[..i], upload)
      {
        var base64Image := imgs[i];
        UploadedPrefix(imgs, i, upload);
        if !(base64Image.Str? && base64Image.s != "") {
          i := i + 1;
          continue;
        }
        var file := upload(base64Image.s);
        if file.None? || file.value.name == "" {
          i := i + 1;
          continue;
        }
        frames := frames + [file.value];
        i := i + 1;
      }
      assert imgs[..i] == imgs;
      title := "Input #" + NatToString(|frames|);
    }

    /** `node.onResize`. */
    method OnResize()
      modifies this`width, this`height
      ensures (width, height) == Clamped(old(width), old(height))
    {
      var w, h := width, height;
      if w <= 600.0 {
        w := 600.0;
      }
      if h <= 500.0 {
        h := 500.0;
      }
      if w > 600.0 {
        h := w - 100.0;
      }
      width, height := w, h;
    }
  }

  // ---------------------------------------------------------------------
  // Node size, panel scale, slider defaults

  /** The size `onResize` leaves. */
  function Clamped(w: real, h: real): (real, real)
  {
    var w1 := if w <= 600.0 then 600.0 else w;
    var h1 := if h <= 500.0 then 500.0 else h;
    (w1, if w1 > 600.0 then w1 - 100.0 else h1)
  }

  /** The clamp never goes below the configured minimum size, keeps a width
      above the minimum and gives it the height 100 less, at the minimum
      width keeps any height above the minimum, and is idempotent. */
  lemma ClampedSize(w: real, h: real)
    ensures var (w1, h1) := Clamped(w, h);
      && w1 >= NodeMinWidth && h1 >= NodeMinHeight
      && (w > 600.0 ==> w1 == w && h1 == w - 100.0)
      && (w <= 600.0 ==> w1 == 600.0 && h1 == (if h <= 500.0 then 500.0 else h))
      && Clamped(w1, h1) == (w1, h1)
  {
  }

  /** The scale of the first tier, in order, whose minimum dimension `d`
      reaches, or the default scale. */
  function TierScale(tiers: seq<ScaleTier>, d: int): (s: real)
    ensures s == DefaultPanelScale || exists i :: 0 <= i < |tiers| && tiers[i].scale == s && d >= tiers[i].minDimension
  {
    if tiers == [] then DefaultPanelScale
    else if d >= tiers[0].minDimension then tiers[0].scale
    else TierScale(tiers[1..], d)
  }

  /** The configured tiers: at least 800 pixels 1.25, at least 600 1.0, at
      least 400 0.6, at least 300 0.5, and below 300 the default 0.75, so a
      tiny frame gets a larger panel than a small one. */
  lemma PanelScaleTable(d: int)
    ensures d >= 800 ==> TierScale(PanelScales, d) == 1.25
    ensures 600 <= d < 800 ==> TierScale(PanelScales, d) == 1.0
    ensures 400 <= d < 600 ==> TierScale(PanelScales, d) == 0.6
    ensures 300 <= d < 400 ==> TierScale(PanelScales, d) == 0.5
    ensures d < 300 ==> TierScale(PanelScales, d) == 0.75
  {
    var t := PanelScales;
    if d < 800 {
      assert TierScale(t, d) == TierScale(t[1..], d);
      if d < 600 {
        assert TierScale(t[1..], d) == TierScale(t[2..], d) by { assert t[1..][1..] == t[2..]; }
        if d < 400 {
          assert TierScale(t[2..], d) == TierScale(t[3..], d) by { assert t[2..][1..] == t[3..]; }
          if d < 300 {
            assert TierScale(t[3..], d) == TierScale(t[4..], d) by { assert t[3..][1..] == t[4..]; }
          }
        }
      }
    }
  }

  /** `512 * Math.pow(2, v)` for a whole slider position `v`. */
  function ScreenshotPixels(v: nat): (px: nat)
    ensures px >= 512
  {
    if v == 0 then 512 else 2 * ScreenshotPixels(v - 1)
  }

  /** The screenshot slider's four positions are 512, 1024, 2048 and 4096
      pixels, and the default position is the renderer's initial 1024. */
  lemma ScreenshotSizes()
    ensures ScreenshotPixels(0) == 512 && ScreenshotPixels(1) == 1024
    ensures ScreenshotPixels(2) == 2048 && ScreenshotPixels(3) == 4096
    ensures Defaults["screenshotSize"] == 1.0
    ensures ScreenshotPixels(1) as real == ThreeVisualizer.Initial(0).params.screenshotSize
  {
  }

  /** A higher slider position gives a strictly larger screenshot. */
  lemma {:induction false} ScreenshotPixelsIncreasing(v: nat, w: nat)
    requires v < w
    ensures ScreenshotPixels(v) < ScreenshotPixels(w)
    decreases w
  {
    if v < w - 1 {
      ScreenshotPixelsIncreasing(v, w - 1);
    }
  }

  /** `createSliderControl`'s default: the configured default, else the first
      allowed value (undefined, `None`, for an empty list), else the minimum. */
  function SliderDefault(defaults: map<string, real>, name: string, settings: SliderSettings): Option<real>
  {
    if name in defaults then Some(defaults[name])
    else if settings.values.Some? then
      (if |settings.values.value| > 0 then Some(settings.values.value[0]) else None)
    else Some(settings.min)
  }

  /** Every configured slider starts at its configured default, which lies
      within the slider's range. */
  lemma ConfiguredDefaults(name: string)
    requires name in Sliders
    ensures name in Defaults && SliderDefault(Defaults, name, Sliders[name]) == Some(Defaults[name])
    ensures Sliders[name].min <= Defaults[name] <= Sliders[name].max
  {
  }

  /** A slider without a configured default starts at its first allowed value,
      or at its minimum when it lists none. */
  lemma UnconfiguredDefault(name: string, settings: SliderSettings, values: seq<real>)
    requires name !in Defaults && |values| > 0
    ensures SliderDefault(Defaults, name, settings.(values := Some(values))) == Some(values[0])
    ensures SliderDefault(Defaults, name, settings.(values := None)) == Some(settings.min)
  {
  }

  /** The renderer starts with the panel's default depth strength, Quilt
      count, angle range and field of view, but with 0 for depth of field and
      focus: those start from the panel's 0.5 and 0.95 only once the first
      `update` message arrives. */
  lemma InitialValuesAgree(windowSize: int)
    ensures var p := ThreeVisualizer.Initial(windowSize).params;
      && p.depthStrength == Defaults["depthStrength"]
      && p.quiltsNum == Defaults["quiltsNum"]
      && p.quiltsAngleRange == Defaults["quiltsAngleRange"]
      && p.fov == Defaults["cameraFOV"]
      && p.dofStrength != Defaults["dofStrength"]
      && p.focusDistance != Defaults["focusDistance"]
  {
  }

  // ---------------------------------------------------------------------
  // The control panel

  /** The panel's sliders. */
  datatype Slider = DepthStrength | DofStrength | FocusDistance | ZOffset
                  | QuiltsNum | QuiltsAngleRange | ScreenshotSize

  /** The slider's name in `config.defaults` and `config.sliders`. */
  function Key(s: Slider): string
  {
    match s
    case DepthStrength => "depthStrength"
    case DofStrength => "dofStrength"
    case FocusDistance => "focusDistance"
    case ZOffset => "zOffset"
    case QuiltsNum => "quiltsNum"
    case QuiltsAngleRange => "quiltsAngleRange"
    case ScreenshotSize => "screenshotSize"
  }

  /** The slider's default and reset value. */
  function DefaultOf(s: Slider): (v: real)
    ensures SliderDefault(Defaults, Key(s), Sliders[Key(s)]) == Some(v)
    ensures Sliders[Key(s)].min <= v <= Sliders[Key(s)].max
  {
    ConfiguredDefaults(Key(s));
    Defaults[Key(s)]
  }

  /** The screenshot slider moves in whole steps from 0, so its value is a
      natural number. */
  predicate OnGrid(s: Slider, value: real)
  {
    s == ScreenshotSize ==> value >= 0.0 && value == value.Floor as real
  }

  /** The message `updateVisual` posts for the given images and panel
      values. */
  function VisualUpdate(ref: Option<ImageParams>, depth: Option<ImageParams>,
                        d: real, dof: real, focus: real): Message
  {
    Update(ref, depth, Some(d), Some(dof), Some(focus))
  }

  /** The renderer takes the panel's values from the message: after it, the
      renderer's depth, depth of field and focus are the panel's, its mesh
      matches them, and it reloads exactly when both images are known. */
  lemma UpdateSyncsRenderer(st: ThreeVisualizer.RendererState, env: ThreeVisualizer.Env,
                            ref: Option<ImageParams>, depth: Option<ImageParams>,
                            d: real, dof: real, focus: real, now: int, fovCompensation: real -> real)
    requires ThreeVisualizer.Ok(st)
    ensures var (r, e) := ThreeVisualizer.Handle(st, env, VisualUpdate(ref, depth, d, dof, focus), now, fovCompensation);
      && r.params.depthStrength == d && r.params.dofStrength == dof && r.params.focusDistance == focus
      && ThreeVisualizer.Ok(r)
      && (e.Reload? <==> ref.Some? && depth.Some?)
  {
    ThreeVisualizer.UpdateMessage(st, env, ref, depth, Some(d), Some(dof), Some(focus), now, fovCompensation);
    ThreeVisualizer.HandleKeepsOk(st, env, VisualUpdate(ref, depth, d, dof, focus), now, fovCompensation);
  }

  /** The reset-view button's message sends the renderer's camera home for
      the panel's depth strength: onto the view axis at the home distance,
      with the renderer's parameters, session and the rest of its scene
      untouched. */
  lemma ResetViewSyncsRenderer(st: ThreeVisualizer.RendererState, env: ThreeVisualizer.Env,
                               d: real, now: int, fovCompensation: real -> real)
    requires ThreeVisualizer.Ok(st)
    ensures var (r, e) := ThreeVisualizer.Handle(st, env, ResetView(d), now, fovCompensation);
      && r.stage.camera == RendererLogic.OnViewAxis(
           RendererLogic.HomeDistance(fovCompensation(st.params.fov), d, st.params.zOffset))
      && r.params == st.params && r.session == st.session
      && r.stage == st.stage.(camera := r.stage.camera)
      && ThreeVisualizer.Ok(r)
      && e == ThreeVisualizer.NoEffect
  {
    ThreeVisualizer.HandleKeepsOk(st, env, ResetView(d), now, fovCompensation);
  }

  /** The panel of web/visualization.js's `Visualizer`: the three values it
      owns, the images it showed last, the attributes it wrote on the
      renderer's `visualizer` element, and its scale. */
  class Visualizer {
    var depthStrength: real
    var dofStrength: real
    var focusDistance: real
    var currentReferenceImage: Option<ImageParams>
    var currentDepthMap: Option<ImageParams>
    var referenceAttr: Attr
    var depthAttr: Attr
    var panelScale: real

    constructor ()
      ensures depthStrength == Defaults["depthStrength"] && dofStrength == Defaults["dofStrength"]
      ensures focusDistance == Defaults["focusDistance"]
      ensures currentReferenceImage.None? && currentDepthMap.None?
      ensures referenceAttr == Absent && depthAttr == Absent && panelScale == DefaultPanelScale
    {
      depthStrength := Defaults["depthStrength"];
      dofStrength := Defaults["dofStrength"];
      focusDistance := Defaults["focusDistance"];
      currentReferenceImage := None;
      currentDepthMap := None;
      referenceAttr := Absent;
      depthAttr := Absent;
      panelScale := DefaultPanelScale;
    }

    /** `updateControlPanelScale` for a frame of `width` × `height`. */
    method UpdateControlPanelScale(width: int, height: int)
      modifies this`panelScale
      ensures panelScale == TierScale(PanelScales, if width < height then width else height)
    {
      var minDimension := if width < height then width else height;
      var scale := DefaultPanelScale;
      var i := 0;
      while i < |PanelScales|
        invariant 0 <= i <= |PanelScales|
        invariant TierScale(PanelScales, minDimension) == TierScale(PanelScales[i..], minDimension)
        invariant scale == DefaultPanelScale
      {
        if minDimension >= PanelScales[i].minDimension {
          scale := PanelScales[i].scale;
          break;
        }
        assert PanelScales[i..][1..] == PanelScales[i + 1..];
        i := i + 1;
      }
      panelScale := scale;
    }

    /** `updateVisual`: the images are remembered and written, stringified,
        on the renderer's element, and an `update` carrying the panel's
        values is posted. */
    method UpdateVisual(ref: Option<ImageParams>, depth: Option<ImageParams>) returns (msg: Message)
      modifies this`currentReferenceImage, this`currentDepthMap, this`referenceAttr, this`depthAttr
      ensures currentReferenceImage == ref && currentDepthMap == depth
      ensures referenceAttr == Stringified(ref) && depthAttr == Stringified(depth)
      ensures msg == VisualUpdate(ref, depth, depthStrength, dofStrength, focusDistance)
    {
      currentReferenceImage := ref;
      currentDepthMap := depth;
      referenceAttr := Stringified(ref);
      depthAttr := Stringified(depth);
      msg := Update(ref, depth, Some(depthStrength), Some(dofStrength), Some(focusDistance));
    }

    /** The `onChange` callback of slider `s` with its new value: the panel's
        own sliders store the value and re-send the images; the others post
        their value, the screenshot slider as a pixel size. */
    method OnSliderChange(s: Slider, value: real) returns (msg: Message)
      requires OnGrid(s, value)
      modifies this`depthStrength, this`dofStrength, this`focusDistance
      modifies this`currentReferenceImage, this`currentDepthMap, this`referenceAttr, this`depthAttr
      ensures depthStrength == (if s == DepthStrength then value else old(depthStrength))
      ensures dofStrength == (if s == DofStrength then value else old(dofStrength))
      ensures focusDistance == (if s == FocusDistance then value else old(focusDistance))
      ensures currentReferenceImage == old(currentReferenceImage) && currentDepthMap == old(currentDepthMap)
      ensures s in {DepthStrength, DofStrength, FocusDistance} ==>
        && msg == VisualUpdate(currentReferenceImage, currentDepthMap, depthStrength, dofStrength, focusDistance)
        && referenceAttr == Stringified(currentReferenceImage) && depthAttr == Stringified(currentDepthMap)
      ensures s !in {DepthStrength, DofStrength, FocusDistance} ==>
        referenceAttr == old(referenceAttr) && depthAttr == old(depthAttr)
      ensures s == ZOffset ==> msg == UpdateZOffset(value)
      ensures s == QuiltsNum ==> msg == UpdateQuiltsNum(value)
      ensures s == QuiltsAngleRange ==> msg == UpdateQuiltsAngleRange(value)
      ensures s == ScreenshotSize ==> msg == UpdateScreenshotSize(ScreenshotPixels(value.Floor) as real)
    {
      match s {
        case DepthStrength =>
          depthStrength := value;
          msg := UpdateVisual(currentReferenceImage, currentDepthMap);
        case DofStrength =>
          dofStrength := value;
          msg := UpdateVisual(currentReferenceImage, currentDepthMap);
        case FocusDistance =>
          focusDistance := value;
          msg := UpdateVisual(currentReferenceImage, currentDepthMap);
        case ZOffset =>
          msg := UpdateZOffset(value);
        case QuiltsNum =>
          msg := UpdateQuiltsNum(value);
        case QuiltsAngleRange =>
          msg := UpdateQuiltsAngleRange(value);
        case ScreenshotSize =>
          var size := ScreenshotPixels(value.Floor) as real;
          msg := UpdateScreenshotSize(size);
      }
    }

    /** The reset button of slider `s`: the slider goes back to its default
        and the callback runs with it. */
    method ResetSlider(s: Slider) returns (msg: Message)
      modifies this`depthStrength, this`dofStrength, this`focusDistance
      modifies this`currentReferenceImage, this`currentDepthMap, this`referenceAttr, this`depthAttr
      ensures depthStrength == (if s == DepthStrength then DefaultOf(s) else old(depthStrength))
      ensures dofStrength == (if s == DofStrength then DefaultOf(s) else old(dofStrength))
      ensures focusDistance == (if s == FocusDistance then DefaultOf(s) else old(focusDistance))
      ensures s == ZOffset ==> msg == UpdateZOffset(0.0)
      ensures s == QuiltsNum ==> msg == UpdateQuiltsNum(4.0)
      ensures s == QuiltsAngleRange ==> msg == UpdateQuiltsAngleRange(14.0)
      ensures s == ScreenshotSize ==> msg == UpdateScreenshotSize(1024.0)
      ensures currentReferenceImage == old(currentReferenceImage) && currentDepthMap == old(currentDepthMap)
      ensures s in {DepthStrength, DofStrength, FocusDistance} ==>
        && msg == VisualUpdate(currentReferenceImage, currentDepthMap, depthStrength, dofStrength, focusDistance)
        && referenceAttr == Stringified(currentReferenceImage) && depthAttr == Stringified(currentDepthMap)
      ensures s !in {DepthStrength, DofStrength, FocusDistance} ==>
        referenceAttr == old(referenceAttr) && depthAttr == old(depthAttr)
    {
      var defaultValue := DefaultOf(s);
      msg := OnSliderChange(s, defaultValue);
    }

    /** The reset-view button. */
    method ResetViewButton() returns (msg: Message)
      ensures msg == ResetView(depthStrength)
    {
      msg := ResetView(depthStrength);
    }
  }
}
