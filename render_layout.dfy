/**
 * The GUI side of terminal rendering.  Each visible draw copies the mode, the
 * cursor position and the display offset out of the emulator's render input
 * and lays the visible cells out again from scratch: a line break before every
 * cell in column 0 except the first cell, one glyph per cell that is not a
 * wide-character spacer, and a background in which the selection wins over the
 * cursor, and the cursor over the cell's own colour.
 */
module RenderLayout {
  import opened Wrappers
  import opened Colors

  /** The emulator's mode flags, kept as the mask they are stored in. */
  type TermMode = bv32

  /** A grid position; lines above the screen are negative. */
  datatype Point = Point(line: int, column: nat)

  datatype Flags = Flags(
    wideCharSpacer: bool,
    leadingWideCharSpacer: bool,
    italic: bool,
    boldItalic: bool,
    doubleUnderline: bool,
    underline: bool)

  datatype Cell = Cell(point: Point, c: char, fg: Color, bg: Color, flags: Flags)

  /** One frame of the emulator's output; the selection is the set of points it covers. */
  datatype RenderInput = RenderInput(
    mode: TermMode,
    cursor: Point,
    displayOffset: nat,
    cells: seq<Cell>,
    selection: Option<set<Point>>)

  /** The text format of a glyph; a stroke (always 2 wide) is given by its colour. */
  datatype Format = Format(
    italics: bool,
    color: Color32,
    background: Color32,
    strikethrough: Option<Color32>,
    underline: Option<Color32>)

  /** A layout segment: a line break in the default format, or one glyph. */
  datatype Segment = Newline | Glyph(c: char, format: Format)

  /** The cell is the right half or the leading placeholder of a wide character. */
  predicate Spacer(f: Flags)
  {
    f.wideCharSpacer || f.leadingWideCharSpacer
  }

  predicate Selected(p: Point, selection: Option<set<Point>>)
  {
    selection.Some? && p in selection.value
  }

  /** The background of a cell: its own colour, overwritten at the cursor, overwritten again
    * in the selection. */
  function Background(cell: Cell, cursor: Point, selection: Option<set<Point>>): Color32
  {
    var own := ColorToColor32(cell.bg);
    var atCursor := if cursor == cell.point then ColorToColor32(Named(Cursor)) else own;
    if Selected(cell.point, selection) then DARK_GRAY else atCursor
  }

  function CellFormat(cell: Cell, cursor: Point, selection: Option<set<Point>>): Format
  {
    var color := ColorToColor32(cell.fg);
    Format(
      cell.flags.italic || cell.flags.boldItalic,
      color,
      Background(cell, cursor, selection),
      if cell.flags.doubleUnderline then Some(color) else None,
      if cell.flags.underline then Some(color) else None)
  }

  /** The segments one cell adds: a break if it starts a line and is not the first cell, then
    * its glyph unless it is a spacer. */
  function CellSegments(cell: Cell, cursor: Point, selection: Option<set<Point>>, first: bool): seq<Segment>
  {
    (if cell.point.column == 0 && !first then [Newline] else [])
    + (if Spacer(cell.flags) then [] else [Glyph(cell.c, CellFormat(cell, cursor, selection))])
  }

  /** The layout of a run of cells; `first` says whether the run starts the frame. */
  function Layout(cells: seq<Cell>, cursor: Point, selection: Option<set<Point>>, first: bool): seq<Segment>
  {
    if cells == [] then []
    else CellSegments(cells[0], cursor, selection, first) + Layout(cells[1..], cursor, selection, false)
  }

  /** The characters of the glyph segments, in order. */
  function GlyphText(segments: seq<Segment>): seq<char>
  {
    if segments == [] then []
    else (if segments[0].Glyph? then [segments[0].c] else []) + GlyphText(segments[1..])
  }

  function NewlineCount(segments: seq<Segment>): nat
  {
    if segments == [] then 0
    else (if segments[0].Newline? then 1 else 0) + NewlineCount(segments[1..])
  }

  /** The characters of the cells that are not spacers, in order. */
  function VisibleChars(cells: seq<Cell>): seq<char>
  {
    if cells == [] then []
    else (if Spacer(cells[0].flags) then [] else [cells[0].c]) + VisibleChars(cells[1..])
  }

  /** How many cells sit in column 0. */
  function ColumnZeroCount(cells: seq<Cell>): nat
  {
    if cells == [] then 0
    else (if cells[0].point.column == 0 then 1 else 0) + ColumnZeroCount(cells[1..])
  }

  /** The selection's dark grey wins over the cursor colour, which wins over the cell's own
    * background. */
  lemma BackgroundPriority(cell: Cell, cursor: Point, selection: Option<set<Point>>)
    ensures var bg := Background(cell, cursor, selection);
      && (Selected(cell.point, selection) ==> bg == DARK_GRAY)
      && (!Selected(cell.point, selection) && cell.point == cursor ==> bg == GRAY)
      && (!Selected(cell.point, selection) && cell.point != cursor ==> bg == ColorToColor32(cell.bg))
  {
  }

  lemma {:induction false} GlyphTextAppend(a: seq<Segment>, b: seq<Segment>)
    ensures GlyphText(a + b) == GlyphText(a) + GlyphText(b)
  {
    if a == [] {
      assert a + b == b;
    } else {
      var ab := a + b;
      assert ab[0] == a[0] && ab[1..] == a[1..] + b;
      GlyphTextAppend(a[1..], b);
      var head: seq<char> := if a[0].Glyph? then [a[0].c] else [];
      var x, y := GlyphText(a[1..]), GlyphText(b);
      assert GlyphText(ab) == head + (x + y);
      assert head + (x + y) == head + x + y;
    }
  }

  lemma {:induction false} NewlineCountAppend(a: seq<Segment>, b: seq<Segment>)
    ensures NewlineCount(a + b) == NewlineCount(a) + NewlineCount(b)
  {
    if a == [] {
      assert a + b == b;
    } else {
      var ab := a + b;
      assert ab[0] == a[0] && ab[1..] == a[1..] + b;
      NewlineCountAppend(a[1..], b);
    }
  }

  /** The glyphs of a layout spell out exactly the non-spacer cells, in order: no character is
    * lost, repeated or moved. */
  lemma {:induction false} LayoutKeepsText(cells: seq<Cell>, cursor: Point, selection: Option<set<Point>>, first: bool)
    ensures GlyphText(Layout(cells, cursor, selection, first)) == VisibleChars(cells)
  {
    if cells != [] {
      var head := CellSegments(cells[0], cursor, selection, first);
      GlyphTextAppend(head, Layout(cells[1..], cursor, selection, false));
      LayoutKeepsText(cells[1..], cursor, selection, false);
      var newline: seq<Segment> := if cells[0].point.column == 0 && !first then [Newline] else [];
      var glyph: seq<Segment> := if Spacer(cells[0].flags) then [] else [Glyph(cells[0].c, CellFormat(cells[0], cursor, selection))];
      GlyphTextAppend(newline, glyph);
    }
  }

  /** A run that does not start the frame has one line break per cell in column 0. */
  lemma {:induction false} LayoutBreaksLater(cells: seq<Cell>, cursor: Point, selection: Option<set<Point>>)
    ensures NewlineCount(Layout(cells, cursor, selection, false)) == ColumnZeroCount(cells)
  {
    if cells != [] {
      var head := CellSegments(cells[0], cursor, selection, false);
      NewlineCountAppend(head, Layout(cells[1..], cursor, selection, false));
      LayoutBreaksLater(cells[1..], cursor, selection);
      var newline: seq<Segment> := if cells[0].point.column == 0 then [Newline] else [];
      var glyph: seq<Segment> := if Spacer(cells[0].flags) then [] else [Glyph(cells[0].c, CellFormat(cells[0], cursor, selection))];
      NewlineCountAppend(newline, glyph);
    }
  }

  /** A frame's layout has a line break before every cell in column 0 except the first cell. */
  lemma LayoutBreaks(cells: seq<Cell>, cursor: Point, selection: Option<set<Point>>)
    requires cells != []
    ensures NewlineCount(Layout(cells, cursor, selection, true)) == ColumnZeroCount(cells[1..])
  {
    var head := CellSegments(cells[0], cursor, selection, true);
    NewlineCountAppend(head, Layout(cells[1..], cursor, selection, false));
    LayoutBreaksLater(cells[1..], cursor, selection);
  }

  /** One step of the layout loop, after the segments already appended. */
  lemma LayoutStep(cells: seq<Cell>, k: nat, cursor: Point, selection: Option<set<Point>>, first: bool, done: seq<Segment>)
    requires k < |cells|
    ensures done + Layout(cells[k..], cursor, selection, first)
      == done + CellSegments(cells[k], cursor, selection, first) + Layout(cells[k + 1..], cursor, selection, false)
  {
    assert cells[k..][1..] == cells[k + 1..];
  }

  class TerminalRender {
    var isVisible: bool
    var mode: TermMode
    var layout: seq<Segment>
    /** `(column, line)` of the cursor. */
    var cursorPos: (nat, nat)
    var displayOffset: nat
    /** How many repaints have been requested. */
    var repaints: nat

    constructor ()
      ensures isVisible && mode == 0 && layout == []
      ensures cursorPos == (0, 0) && displayOffset == 0 && repaints == 0
    {
      isVisible := true;
      mode := 0;
      layout := [];
      cursorPos := (0, 0);
      displayOffset := 0;
      repaints := 0;
    }

    /** `draw`: a hidden view ignores the frame.  A cursor on a negative line fails the
      * conversion to an unsigned position after the mode was already copied. */
    method Draw(render: RenderInput) returns (panicked: bool)
      modifies this
      ensures isVisible == old(isVisible)
      ensures !old(isVisible) ==>
        && !panicked
        && mode == old(mode) && layout == old(layout) && cursorPos == old(cursorPos)
        && displayOffset == old(displayOffset) && repaints == old(repaints)
      ensures old(isVisible) && render.cursor.line < 0 ==>
        && panicked
        && mode == render.mode && layout == old(layout) && cursorPos == old(cursorPos)
        && displayOffset == old(displayOffset) && repaints == old(repaints)
      ensures old(isVisible) && render.cursor.line >= 0 ==>
        && !panicked
        && mode == render.mode
        && cursorPos == (render.cursor.column, render.cursor.line as nat)
        && displayOffset == render.displayOffset
        && layout == Layout(render.cells, render.cursor, render.selection, true)
        && repaints == old(repaints) + 1
    {
      panicked := false;
      if !isVisible {
        return;
      }
      mode := render.mode;
      if render.cursor.line < 0 {
        panicked := true;
        return;
      }
      cursorPos := (render.cursor.column, render.cursor.line as nat);
      displayOffset := render.displayOffset;
      layout := [];
      var firstChar := true;
      var cells := render.cells;
      assert cells[0..] == cells;
      for k := 0 to |cells|
        invariant Layout(cells, render.cursor, render.selection, true)
          == layout + Layout(cells[k..], render.cursor, render.selection, firstChar)
        invariant isVisible && mode == render.mode && repaints == old(repaints)
        invariant cursorPos == (render.cursor.column, render.cursor.line as nat)
        invariant displayOffset == render.displayOffset
      {
        LayoutStep(cells, k, render.cursor, render.selection, firstChar, layout);
        AppendCell(cells[k], render.cursor, render.selection, firstChar);
        firstChar := false;
      }
      assert cells[|cells|..] == [];
      assert layout + [] == layout;
      repaints := repaints + 1;
    }

    /** The body of the cell loop: the break before a cell that starts a later line, then the
      * glyph of a cell that is not a spacer. */
    method AppendCell(cell: Cell, cursor: Point, selection: Option<set<Point>>, firstChar: bool)
      modifies this
      ensures layout == old(layout) + CellSegments(cell, cursor, selection, firstChar)
      ensures isVisible == old(isVisible) && mode == old(mode) && cursorPos == old(cursorPos)
      ensures displayOffset == old(displayOffset) && repaints == old(repaints)
    {
      if cell.point.column == 0 && !firstChar {
        layout := layout + [Newline];
      }
      if !Spacer(cell.flags) {
        var color := ColorToColor32(cell.fg);
        var background := ColorToColor32(cell.bg);
        if cursor == cell.point {
          background := ColorToColor32(Named(Cursor));
        }
        if selection.Some? && cell.point in selection.value {
          background := DARK_GRAY;
        }
        var fmt := Format(
          cell.flags.italic || cell.flags.boldItalic,
          color,
          background,
          if cell.flags.doubleUnderline then Some(color) else None,
          if cell.flags.underline then Some(color) else None);
        layout := layout + [Glyph(cell.c, fmt)];
      }
    }
  }
}
