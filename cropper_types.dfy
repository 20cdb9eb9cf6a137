/**
 * The crop-preset vocabulary: the closed set of preset names and the
 * shape of one preset's configuration.
 */
module CropperTypes {
  import opened Wrappers

  /** The string-literal union `"avatar" | "cover" | "default"`. */
  datatype ConfigTag = Avatar | Cover | Default

  /** The literal each tag stands for; every literal is non-empty, so `initialConfig || "default"` keeps a given tag. */
  function TagName(t: ConfigTag): (s: string)
    ensures |s| > 0
  {
    match t
    case Avatar => "avatar"
    case Cover => "cover"
    case Default => "default"
  }

  /**
   * Reads a preset name; a string outside the union has no preset
   * (None).
   */
  function ParseTag(s: string): (r: Option<ConfigTag>)
    ensures r.Some? <==> s == "avatar" || s == "cover" || s == "default"
    ensures r.Some? ==> TagName(r.value) == s
  {
    if s == "avatar" then Some(Avatar)
    else if s == "cover" then Some(Cover)
    else if s == "default" then Some(Default)
    else None
  }

  /** Every tag's literal reads back as that tag, so the union is exactly the three tags. */
  lemma TagNameRoundTrip(t: ConfigTag)
    ensures ParseTag(TagName(t)) == Some(t)
  {
  }

  /** Distinct tags have distinct literals. */
  lemma TagNameInjective(t: ConfigTag, u: ConfigTag)
    ensures TagName(t) == TagName(u) <==> t == u
  {
  }

  /** `{ width, height }`, used for `canvas` and `stencilSize`. */
  datatype Size = Size(width: int, height: int)

  /**
   * `stencilProps`. The values of the `handlers` record are `any` in the
   * source; they are modelled as booleans (show or hide a handle).
   */
  datatype StencilProps = StencilProps(
    handlers: Option<map<string, bool>>,
    movable: bool,
    resizable: Option<bool>,
    aspectRatio: Option<real>)

  /** The `CropperConfig` record; `?` fields are `Option`s. */
  datatype CropperConfig = CropperConfig(
    name: string,
    minHeight: int,
    minWidth: int,
    maxHeight: Option<int>,
    maxWidth: Option<int>,
    stencilComponent: Option<string>,
    canvas: Size,
    stencilSize: Option<Size>,
    stencilProps: StencilProps)

  /**
   * Geometric sanity of a preset: positive minimums that fit the canvas,
   * maximums (when set) not below the minimums, a fixed stencil (when
   * set) at least the minimums, a positive aspect ratio (when set).
   */
  predicate WellFormed(c: CropperConfig)
  {
    && 0 < c.minWidth <= c.canvas.width
    && 0 < c.minHeight <= c.canvas.height
    && (c.maxWidth.Some? ==> c.minWidth <= c.maxWidth.value)
    && (c.maxHeight.Some? ==> c.minHeight <= c.maxHeight.value)
    && (c.stencilSize.Some? ==>
          c.minWidth <= c.stencilSize.value.width && c.minHeight <= c.stencilSize.value.height)
    && (c.stencilProps.aspectRatio.Some? ==> c.stencilProps.aspectRatio.value > 0.0)
  }
}
