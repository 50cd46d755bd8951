/**
 * The component's configuration, `SplitProps` (src/lib.rs, lines 10-96), and the
 * fatal conditions under which one of its lifecycle hooks aborts.
 */
module Props {
  import opened Wrappers
  import opened Tokens

  /** A pane size or pixel quantity. The source's `f64` values are only ever
      compared for equality and forwarded, never computed with. */
  type Size = int

  /** A JavaScript value the component forwards unexamined (a callback
      function, a class list); identified only by its identity. */
  datatype Opaque = Opaque(id: nat)

  /** The ways a gutter element is obtained for a pair of panes.
      `DefaultGutter` is the property's default factory, which creates a fresh
      marked element; `CustomGutter` is a caller-supplied function;
      `ReuseGutter` is the adapter installed when the split is recreated,
      which re-styles the gutter already in the DOM. */
  datatype GutterFactory = DefaultGutter | CustomGutter(f: Opaque) | ReuseGutter

  datatype SplitProps = SplitProps(
    classes: Opaque,
    sizes: Option<seq<Size>>,
    minSize: Option<Size>,
    minSizes: Option<seq<Size>>,
    maxSize: Option<Size>,
    maxSizes: Option<seq<Size>>,
    expandToMin: Option<bool>,
    gutterSize: Option<Size>,
    gutterAlign: Option<GutterAlign>,
    snapOffset: Option<Size>,
    dragInterval: Option<Size>,
    direction: Option<Direction>,
    cursor: Option<Cursor>,
    gutter: GutterFactory,
    elementStyle: Option<Opaque>,
    gutterStyle: Option<Opaque>,
    onDrag: Option<Opaque>,
    onDragStart: Option<Opaque>,
    onDragEnd: Option<Opaque>,
    collapsed: Option<nat>)

  /** Why a hook aborted; each is a thrown error or a panic in the source. */
  datatype Fault =
    | DirectionCleared       // the debug log unwraps a direction that changed to None
    | MinSizesLengthChanged  // the new min_sizes list is longer than the old one
    | SizesLengthChanged     // the new sizes list is longer than the old one
    | OldSizesMissing        // new sizes are given but the old props had none
    | NoEngine               // an engine call was needed while the slot was empty
    | NoPreviousSibling      // the gutter adapter was asked about the first child
}
