/** The three built-in crop presets and the lookup by tag. */
module Presets {
  import opened Wrappers
  import opened CropperTypes

  /**
   * `cropperConfigs[tag]`. The key space is the closed tag type, so the
   * lookup is total; every preset is well formed and movable, and none
   * sets a maximum size.
   */
  function Config(t: ConfigTag): (c: CropperConfig)
    ensures WellFormed(c)
    ensures c.stencilProps.movable
    ensures c.maxWidth.None? && c.maxHeight.None?
  {
    match t
    case Default =>
      CropperConfig(
        name := "Default",
        minHeight := 160,
        minWidth := 160,
        maxHeight := None,
        maxWidth := None,
        stencilComponent := None,
        canvas := Size(320, 320),
        stencilSize := Some(Size(320, 320)),
        stencilProps := StencilProps(handlers := None, movable := true, resizable := Some(false), aspectRatio := None))
    case Avatar =>
      CropperConfig(
        name := "avatar",
        minHeight := 160,
        minWidth := 160,
        maxHeight := None,
        maxWidth := None,
        stencilComponent := None,
        canvas := Size(640, 640),
        stencilSize := None,
        stencilProps := StencilProps(handlers := None, movable := true, resizable := None, aspectRatio := Some(1.0)))
    case Cover =>
      CropperConfig(
        name := "cover",
        minHeight := 400,
        minWidth := 1300,
        maxHeight := None,
        maxWidth := None,
        stencilComponent := None,
        canvas := Size(2600, 800),
        stencilSize := Some(Size(1300, 400)),
        stencilProps := StencilProps(handlers := None, movable := true, resizable := Some(true), aspectRatio := None))
  }

  /** The preset constants: minimum, canvas, fixed stencil and stencil flags of each preset. */
  lemma PresetConstants()
    ensures var c := Config(Default);
      c.minWidth == 160 && c.minHeight == 160 && c.canvas == Size(320, 320)
      && c.stencilSize == Some(Size(320, 320))
      && c.stencilProps.resizable == Some(false) && c.stencilProps.aspectRatio.None?
    ensures var c := Config(Avatar);
      c.minWidth == 160 && c.minHeight == 160 && c.canvas == Size(640, 640)
      && c.stencilSize.None?
      && c.stencilProps.resizable.None? && c.stencilProps.aspectRatio == Some(1.0)
    ensures var c := Config(Cover);
      c.minWidth == 1300 && c.minHeight == 400 && c.canvas == Size(2600, 800)
      && c.stencilSize == Some(Size(1300, 400))
      && c.stencilProps.resizable == Some(true) && c.stencilProps.aspectRatio.None?
  {
  }

  /** Each preset carries its own name, so no two tags share a configuration. */
  lemma ConfigInjective(t: ConfigTag, u: ConfigTag)
    ensures Config(t) == Config(u) <==> t == u
  {
  }
}
