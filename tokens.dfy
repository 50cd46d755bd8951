/**
 * The three enumerations of the component's properties and the fixed string
 * tokens their `Display` implementations write (src/lib.rs, lines 295-340).
 * Each token function is paired with its inverse, which proves that the
 * tokens of one enumeration are distinct and identify their variant.
 */
module Tokens {
  import opened Wrappers

  datatype GutterAlign = Start | End | Center
  datatype Direction = Vertical | Horizontal
  datatype Cursor = ColResize | RowResize

  /** The token written for a gutter alignment. */
  function GutterAlignToken(a: GutterAlign): (s: string)
    ensures GutterAlignFromToken(s) == Some(a)
  {
    match a
    case Start => "start"
    case End => "end"
    case Center => "center"
  }

  /** Reads a gutter-alignment token back; any other string is no alignment. */
  function GutterAlignFromToken(s: string): Option<GutterAlign> {
    if s == "start" then Some(Start)
    else if s == "end" then Some(End)
    else if s == "center" then Some(Center)
    else None
  }

  /** The token written for a split direction. */
  function DirectionToken(d: Direction): (s: string)
    ensures DirectionFromToken(s) == Some(d)
  {
    match d
    case Vertical => "vertical"
    case Horizontal => "horizontal"
  }

  function DirectionFromToken(s: string): Option<Direction> {
    if s == "vertical" then Some(Vertical)
    else if s == "horizontal" then Some(Horizontal)
    else None
  }

  /** The token written for a drag cursor. */
  function CursorToken(c: Cursor): (s: string)
    ensures CursorFromToken(s) == Some(c)
  {
    match c
    case ColResize => "col-resize"
    case RowResize => "row-resize"
  }

  function CursorFromToken(s: string): Option<Cursor> {
    if s == "col-resize" then Some(ColResize)
    else if s == "row-resize" then Some(RowResize)
    else None
  }

  /** The other direction of the round trips: a string that reads back as a
      variant is exactly that variant's token. */
  lemma TokensAreCanonical(s: string)
    ensures GutterAlignFromToken(s).Some? ==> GutterAlignToken(GutterAlignFromToken(s).value) == s
    ensures DirectionFromToken(s).Some? ==> DirectionToken(DirectionFromToken(s).value) == s
    ensures CursorFromToken(s).Some? ==> CursorToken(CursorFromToken(s).value) == s
  {
  }
}
