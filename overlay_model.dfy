/**
 * The overlay vocabulary shared by the canvas, the overlay item and the
 * style editor: the tagged union of text and image layers, the partial
 * records the components send to the canvas, and the style constants.
 */
module OverlayModel {

  datatype Option<T> = None | Some(value: T)

  datatype FontStyle = Normal | Italic | Bold

  /** A layer on the canvas; `x`, `y` is its committed top-left position. */
  datatype Overlay =
    | TextOverlay(id: string, x: real, y: real, content: string,
                  textColor: Option<string>, fontSize: Option<real>, fontStyle: Option<FontStyle>)
    | ImageOverlay(id: string, x: real, y: real, content: string,
                   opacity: Option<real>, width: Option<real>, height: Option<real>)

  /**
   * A partial overlay: the fields a component asks the canvas to overwrite.
   * `None` is an absent key.
   */
  datatype Update = Update(
    content: Option<string>,
    x: Option<real>,
    y: Option<real>,
    textColor: Option<string>,
    fontSize: Option<real>,
    fontStyle: Option<FontStyle>,
    opacity: Option<real>,
    width: Option<real>,
    height: Option<real>)

  /** The empty partial record `{}`. */
  const NoChange: Update := Update(None, None, None, None, None, None, None, None, None)

  datatype Action = Delete | Duplicate

  /** One `onUpdate(id, updates, action?)` call. */
  datatype Message = Message(id: string, updates: Update, action: Option<Action>)

  // Style constants.
  const FontSizeMin: real := 10.0
  const FontSizeMax: real := 50.0
  const FontSizeDefault: real := 20.0
  const OpacityMin: real := 0.0
  const OpacityMax: real := 1.0
  const OpacityStep: real := 0.01
  const OpacityDefault: real := 1.0
  const Colors: seq<string> := ["#000000", "#FFFFFF", "#FF0000", "#00FF00", "#0000FF"]

  /** A number is truthy when it is present and non-zero. */
  predicate Truthy(v: Option<real>) {
    v.Some? && v.value != 0.0
  }

  /** The numeric `v || fallback`. */
  function Or(v: Option<real>, fallback: real): real {
    if Truthy(v) then v.value else fallback
  }

  /** A key of the spread on the right wins when it is present. */
  function Override<T>(newer: Option<T>, older: T): T {
    if newer.Some? then newer.value else older
  }

  function OverrideOptional<T>(newer: Option<T>, older: Option<T>): Option<T> {
    if newer.Some? then newer else older
  }

  /**
   * `{ ...o, ...u }`: the present keys of `u` overwrite those of `o`.
   * Keys that the variant of `o` does not have are not represented.
   */
  function Merge(o: Overlay, u: Update): (r: Overlay)
    ensures r.id == o.id && r.TextOverlay? == o.TextOverlay?
    ensures r.x == (if u.x.Some? then u.x.value else o.x)
    ensures r.y == (if u.y.Some? then u.y.value else o.y)
    ensures r.content == (if u.content.Some? then u.content.value else o.content)
    ensures r.TextOverlay? ==>
              && r.textColor == (if u.textColor.Some? then u.textColor else o.textColor)
              && r.fontSize == (if u.fontSize.Some? then u.fontSize else o.fontSize)
              && r.fontStyle == (if u.fontStyle.Some? then u.fontStyle else o.fontStyle)
    ensures r.ImageOverlay? ==>
              && r.opacity == (if u.opacity.Some? then u.opacity else o.opacity)
              && r.width == (if u.width.Some? then u.width else o.width)
              && r.height == (if u.height.Some? then u.height else o.height)
  {
    match o
    case TextOverlay(id, x, y, content, textColor, fontSize, fontStyle) =>
      TextOverlay(id, Override(u.x, x), Override(u.y, y), Override(u.content, content),
                  OverrideOptional(u.textColor, textColor),
                  OverrideOptional(u.fontSize, fontSize),
                  OverrideOptional(u.fontStyle, fontStyle))
    case ImageOverlay(id, x, y, content, opacity, width, height) =>
      ImageOverlay(id, Override(u.x, x), Override(u.y, y), Override(u.content, content),
                   OverrideOptional(u.opacity, opacity),
                   OverrideOptional(u.width, width),
                   OverrideOptional(u.height, height))
  }

  /** Merging `{}` changes nothing. */
  lemma MergeNoChange(o: Overlay)
    ensures Merge(o, NoChange) == o
  {
  }

  /** Merging the same partial record twice is the same as merging it once. */
  lemma MergeIdempotent(o: Overlay, u: Update)
    ensures Merge(Merge(o, u), u) == Merge(o, u)
  {
  }

  /** A later merge that sets at least the keys of an earlier one hides the earlier one. */
  lemma MergeLaterWins(o: Overlay, u1: Update, u2: Update)
    requires u1.content.Some? ==> u2.content.Some?
    requires u1.x.Some? ==> u2.x.Some?
    requires u1.y.Some? ==> u2.y.Some?
    requires u1.textColor.Some? ==> u2.textColor.Some?
    requires u1.fontSize.Some? ==> u2.fontSize.Some?
    requires u1.fontStyle.Some? ==> u2.fontStyle.Some?
    requires u1.opacity.Some? ==> u2.opacity.Some?
    requires u1.width.Some? ==> u2.width.Some?
    requires u1.height.Some? ==> u2.height.Some?
    ensures Merge(Merge(o, u1), u2) == Merge(o, u2)
  {
  }
}
