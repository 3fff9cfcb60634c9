/**
 * Images as the layout sees them: a section image is a base asset, its
 * size, and the ordered list of things drawn onto it.
 */
module Images {
  import opened Wrappers
  import opened Geometry

  /** The flash-module picture every datapack slot is drawn with. */
  const ModuleKey: string := "png/pure_fa_dfm.png"

  /** The two lines `apply_fm_label` writes on a module copy. */
  datatype FmLabel = FmLabel(fmStr: string, fmType: string)

  /** What is pasted: a plain asset, or a module copy, possibly labelled and possibly turned a quarter. */
  datatype Overlay =
    | Asset(key: string)
    | Module(caption: Option<FmLabel>, rotated: bool)

  /**
   * One drawing step on a section: a paste, a text, or a capacity label
   * drawn the way `apply_dp_label` draws it (its box is `DpLabelBox` of the
   * section's size and these offsets).
   */
  datatype Op =
    | Paste(overlay: Overlay, at: Point)
    | Text(text: string, at: Point)
    | DpLabel(text: string, xOffset: int, yOffset: int, right: bool)

  /** A finished chassis or shelf image: the base asset it started from, its size and what was drawn on it. */
  datatype Section = Section(base: string, size: Size, ops: seq<Op>)
}
