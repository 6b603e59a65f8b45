/** The values that cross between the host panel (web/visualization.js), the
    renderer frame (web/js/threeVisualizer.js) and the backend node
    (depthviewer.py). */
module Protocol {
  import opened Strings

  /** The image descriptor the host hands over: the `{filename, subfolder, type}`
      object the backend's UI output holds (depthviewer.py:99-109). */
  datatype ImageParams = ImageParams(filename: string, subfolder: string, kind: string)

  /** An attribute of the renderer's `visualizer` element (`reference_image`,
      `depth_map`), by what `JSON.parse` makes of it: the attribute is absent
      (`getAttribute` gives null, which parses to null), it holds
      `JSON.stringify` of a descriptor or of null, or it holds text that is
      not JSON, such as the initial "" or the "undefined" the host writes
      when it has no image yet. Two attributes are equal as strings exactly
      when they are equal as values of this type. */
  datatype Attr = Absent | Json(params: Option<ImageParams>) | Malformed(text: string)

  /** `JSON.parse` succeeds on the attribute (it throws on malformed text). */
  predicate Parses(a: Attr)
  {
    !a.Malformed?
  }

  /** What `JSON.parse` returns for an attribute it accepts. */
  function ParsedValue(a: Attr): Option<ImageParams>
    requires Parses(a)
  {
    if a.Json? then a.params else None
  }

  /** The attribute text `setAttribute(name, JSON.stringify(v))` leaves when
      `v` is a descriptor or undefined. */
  function Stringified(v: Option<ImageParams>): Attr
  {
    match v
    case Some(p) => Json(Some(p))
    case None => Malformed("undefined")
  }

  /** The messages the host posts to the renderer, one variant per `type`
      the renderer's listener tests (web/js/threeVisualizer.js:29-83);
      `Unrecognised` is any other `type`. Optional fields are the ones the
      listener tests against `undefined` or for truthiness. */
  datatype Message =
    | Init(apiURL: string)
    | Update(referenceImage: Option<ImageParams>, depthMap: Option<ImageParams>,
             depthStrength: Option<real>, dofStrength: Option<real>, focusDistance: Option<real>)
    | ResetView(strength: real)
    | UpdateQuiltsNum(value: real)
    | UpdateQuiltsAngleRange(value: real)
    | UpdateScreenshotSize(value: real)
    | ToggleQuilts
    | UpdateZOffset(value: real)
    | UpdateCameraFOV(value: real)
    | Unrecognised

  /** What the backend's `/upload/image` answers for one uploaded frame, as
      the host stores it in the `frames` widget and the backend reads it back
      (`name`, `subfolder` and an optional `type`). */
  datatype UploadedFile = UploadedFile(name: string, subfolder: string, kind: Option<string>)
}
