/**
 * The options object handed to the split engine, and `make_options_object`
 * (src/lib.rs, lines 384-469), which fills it key by key from the props.
 * A key the props leave unset is absent from the object, so that the engine
 * falls back to its own default.
 */
module SplitOptions {
  import opened Wrappers
  import opened Tokens
  import opened Props

  /** The value of `minSize`/`maxSize`: one scalar for all panes or one per pane. */
  datatype Limit = Scalar(v: Size) | PerPane(vs: seq<Size>)

  /** The sparse options object: one optional slot per key the component writes. */
  datatype Options = Options(
    sizes: Option<seq<Size>>,
    minSize: Option<Limit>,
    maxSize: Option<Limit>,
    expandToMin: Option<bool>,
    gutterSize: Option<Size>,
    gutterAlign: Option<string>,
    snapOffset: Option<Size>,
    dragInterval: Option<Size>,
    direction: Option<string>,
    cursor: Option<string>,
    gutter: Option<GutterFactory>,
    elementStyle: Option<Opaque>,
    gutterStyle: Option<Opaque>,
    onDrag: Option<Opaque>,
    onDragStart: Option<Opaque>,
    onDragEnd: Option<Opaque>)

  /** `js_sys::Object::new()`: an object with no keys. */
  const EmptyOptions: Options :=
    Options(None, None, None, None, None, None, None, None,
            None, None, None, None, None, None, None, None)

  /** `set_option`: writes the converted value into the key's slot when the
      property is present and leaves the slot as it was otherwise. */
  function SetOption<T, V>(slot: Option<V>, value: Option<T>, convert: T -> V): (r: Option<V>)
    ensures value.None? ==> r == slot
    ensures value.Some? ==> r == Some(convert(value.value))
  {
    match value
    case None => slot
    case Some(v) => Some(convert(v))
  }

  /** The slot of a key whose property is optional and converted by `convert`. */
  function Present<T, V>(value: Option<T>, convert: T -> V): Option<V> {
    match value
    case None => None
    case Some(v) => Some(convert(v))
  }

  /** The `minSize`/`maxSize` slot: the per-pane list when given, else the scalar. */
  function LimitOf(scalar: Option<Size>, list: Option<seq<Size>>): Option<Limit> {
    if list.Some? then Some(PerPane(list.value))
    else if scalar.Some? then Some(Scalar(scalar.value))
    else None
  }

  /** The options object the props describe, key by key. */
  function OptionsOf(p: SplitProps): (o: Options)
    // A per-pane list beats the scalar; the scalar is used only without one.
    ensures p.minSizes.Some? ==> o.minSize == Some(PerPane(p.minSizes.value))
    ensures p.maxSizes.Some? ==> o.maxSize == Some(PerPane(p.maxSizes.value))
    ensures p.minSizes.None? ==> o.minSize == Present(p.minSize, (v: Size) => Scalar(v))
    ensures p.maxSizes.None? ==> o.maxSize == Present(p.maxSize, (v: Size) => Scalar(v))
    ensures o.minSize.None? <==> p.minSize.None? && p.minSizes.None?
    ensures o.maxSize.None? <==> p.maxSize.None? && p.maxSizes.None?
    // Every other key is written exactly when its property is present.
    ensures o.sizes == p.sizes
    ensures o.expandToMin == p.expandToMin && o.gutterSize == p.gutterSize
    ensures o.snapOffset == p.snapOffset && o.dragInterval == p.dragInterval
    ensures o.gutterAlign.None? <==> p.gutterAlign.None?
    ensures o.direction.None? <==> p.direction.None?
    ensures o.cursor.None? <==> p.cursor.None?
    ensures o.elementStyle == p.elementStyle && o.gutterStyle == p.gutterStyle
    ensures o.onDrag == p.onDrag && o.onDragStart == p.onDragStart && o.onDragEnd == p.onDragEnd
    // Enumerations are written as their tokens and read back to the same variant.
    ensures o.gutterAlign.Some? ==> GutterAlignFromToken(o.gutterAlign.value) == p.gutterAlign
    ensures o.direction.Some? ==> DirectionFromToken(o.direction.value) == p.direction
    ensures o.cursor.Some? ==> CursorFromToken(o.cursor.value) == p.cursor
    // The gutter factory is always written.
    ensures o.gutter == Some(p.gutter)
  {
    Options(
      sizes := p.sizes,
      minSize := LimitOf(p.minSize, p.minSizes),
      maxSize := LimitOf(p.maxSize, p.maxSizes),
      expandToMin := p.expandToMin,
      gutterSize := p.gutterSize,
      gutterAlign := Present(p.gutterAlign, GutterAlignToken),
      snapOffset := p.snapOffset,
      dragInterval := p.dragInterval,
      direction := Present(p.direction, DirectionToken),
      cursor := Present(p.cursor, CursorToken),
      gutter := Some(p.gutter),
      elementStyle := p.elementStyle,
      gutterStyle := p.gutterStyle,
      onDrag := p.onDrag,
      onDragStart := p.onDragStart,
      onDragEnd := p.onDragEnd)
  }

  /** `make_options_object`: starts from an empty object and sets the keys in
      the source's order, each through `SetOption`. */
  method MakeOptions(p: SplitProps) returns (o: Options)
    ensures o == OptionsOf(p)
  {
    var id := (v: Size) => v;
    o := EmptyOptions;
    o := o.(sizes := SetOption(o.sizes, p.sizes, (v: seq<Size>) => v));
    if p.minSizes.Some? {
      o := o.(minSize := SetOption(o.minSize, p.minSizes, (v: seq<Size>) => PerPane(v)));
    } else if p.minSize.Some? {
      o := o.(minSize := SetOption(o.minSize, p.minSize, (v: Size) => Scalar(v)));
    }
    if p.maxSizes.Some? {
      o := o.(maxSize := SetOption(o.maxSize, p.maxSizes, (v: seq<Size>) => PerPane(v)));
    } else if p.maxSize.Some? {
      o := o.(maxSize := SetOption(o.maxSize, p.maxSize, (v: Size) => Scalar(v)));
    }
    o := o.(expandToMin := SetOption(o.expandToMin, p.expandToMin, (b: bool) => b));
    o := o.(gutterSize := SetOption(o.gutterSize, p.gutterSize, id));
    o := o.(gutterAlign := SetOption(o.gutterAlign, p.gutterAlign, GutterAlignToken));
    o := o.(snapOffset := SetOption(o.snapOffset, p.snapOffset, id));
    o := o.(dragInterval := SetOption(o.dragInterval, p.dragInterval, id));
    o := o.(direction := SetOption(o.direction, p.direction, DirectionToken));
    o := o.(cursor := SetOption(o.cursor, p.cursor, CursorToken));
    o := o.(gutter := SetOption(o.gutter, Some(p.gutter), (g: GutterFactory) => g));
    o := o.(elementStyle := SetOption(o.elementStyle, p.elementStyle, (f: Opaque) => f));
    o := o.(gutterStyle := SetOption(o.gutterStyle, p.gutterStyle, (f: Opaque) => f));
    o := o.(onDrag := SetOption(o.onDrag, p.onDrag, (f: Opaque) => f));
    o := o.(onDragStart := SetOption(o.onDragStart, p.onDragStart, (f: Opaque) => f));
    o := o.(onDragEnd := SetOption(o.onDragEnd, p.onDragEnd, (f: Opaque) => f));
  }
}
