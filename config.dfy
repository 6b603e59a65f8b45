/** The constants of web/config.js that the control panel and the node use:
    the panel's scale tiers, the parameter defaults and the slider ranges. */
module Config {
  import opened Strings

  /** One entry of `config.controlPanel.scales`. */
  datatype ScaleTier = ScaleTier(minDimension: int, scale: real)

  /** `config.controlPanel.scales` in its declaration order (large, medium, small, tiny),
      which is the order `Object.entries` walks it. */
  const PanelScales: seq<ScaleTier> :=
    [ScaleTier(800, 1.25), ScaleTier(600, 1.0), ScaleTier(400, 0.6), ScaleTier(300, 0.5)]

  /** `config.controlPanel.defaultScale`. */
  const DefaultPanelScale: real := 0.75

  /** `config.node.minSize`. */
  const NodeMinWidth: real := 600.0
  const NodeMinHeight: real := 500.0

  /** One entry of `config.sliders`; `values` is the optional list of allowed
      values that `createSliderControl` consults when no default is configured. */
  datatype SliderSettings = SliderSettings(min: real, max: real, step: real, values: Option<seq<real>>)

  /** `config.defaults`. */
  const Defaults: map<string, real> := map[
    "depthStrength" := 1.5,
    "dofStrength" := 0.5,
    "focusDistance" := 0.95,
    "zOffset" := 0.0,
    "quiltsNum" := 4.0,
    "quiltsAngleRange" := 14.0,
    "screenshotSize" := 1.0,
    "cameraFOV" := 7.0
  ]

  /** `config.sliders`. */
  const Sliders: map<string, SliderSettings> := map[
    "depthStrength" := SliderSettings(0.0, 2.0, 0.1, None),
    "dofStrength" := SliderSettings(0.0, 1.0, 0.1, None),
    "focusDistance" := SliderSettings(0.0, 1.0, 0.01, None),
    "zOffset" := SliderSettings(-5.0, 5.0, 0.1, None),
    "cameraFOV" := SliderSettings(5.0, 120.0, 1.0, None),
    "quiltsNum" := SliderSettings(1.0, 48.0, 1.0, None),
    "quiltsAngleRange" := SliderSettings(2.0, 180.0, 1.0, None),
    "screenshotSize" := SliderSettings(0.0, 3.0, 1.0, None)
  ]
}
