/** The drawing half of GuitarTabCanvas (static/main.js lines 174-283).

    The offscreen 2D context is modelled as a display list: each stroke or
    fillText that leaves a mark on the surface appends one DrawCmd. Colours, fonts
    and line widths are not recorded. As the HTML canvas does, a path point or a
    text position with a non-finite coordinate is ignored, so such a draw call
    appends nothing.
 */
module TabCanvas {
  import opened TabParse
  import opened TabLayout

  datatype DrawCmd =
    | ClearCmd(x: int, y: int, w: int, h: int)
    | FillCmd(x: int, y: int, w: int, h: int)
    | LineCmd(x1: int, y1: int, x2: int, y2: int)
    | TextCmd(text: string, x: int, y: int)

  /** What `beginPath(); moveTo(x1, y1); lineTo(x2, y2); stroke()` leaves on the
      surface: one segment, or nothing when a coordinate is not finite (both points
      are then dropped from the path, or the path is a single point). */
  function SegmentCmds(x1: Num, y1: Num, x2: Num, y2: Num): seq<DrawCmd>
  {
    if x1.Fin? && y1.Fin? && x2.Fin? && y2.Fin? then [LineCmd(x1.v, y1.v, x2.v, y2.v)] else []
  }

  /** What `fillText(text, x, y)` leaves on the surface. */
  function TextCmds(text: string, x: Num, y: Num): seq<DrawCmd>
  {
    if x.Fin? && y.Fin? then [TextCmd(text, x.v, y.v)] else []
  }

  /** A freshly created offscreen 2D context, as a display list. */
  class Context2D {
    var cmds: seq<DrawCmd>

    constructor ()
      ensures cmds == []
    {
      cmds := [];
    }

    method ClearRect(x: int, y: int, w: int, h: int)
      modifies this
      ensures cmds == old(cmds) + [ClearCmd(x, y, w, h)]
    {
      cmds := cmds + [ClearCmd(x, y, w, h)];
    }

    method FillRect(x: int, y: int, w: int, h: int)
      modifies this
      ensures cmds == old(cmds) + [FillCmd(x, y, w, h)]
    {
      cmds := cmds + [FillCmd(x, y, w, h)];
    }

    method StrokeSegment(x1: Num, y1: Num, x2: Num, y2: Num)
      modifies this
      ensures cmds == old(cmds) + SegmentCmds(x1, y1, x2, y2)
    {
      if x1.Fin? && y1.Fin? && x2.Fin? && y2.Fin? {
        cmds := cmds + [LineCmd(x1.v, y1.v, x2.v, y2.v)];
      }
    }

    method FillText(text: string, x: Num, y: Num)
      modifies this
      ensures cmds == old(cmds) + TextCmds(text, x, y)
    {
      if x.Fin? && y.Fin? {
        cmds := cmds + [TextCmd(text, x.v, y.v)];
      }
    }
  }

  /* ---------------- the display list a render produces ---------------- */

  const StringNames: seq<string> := ["E", "B", "G", "D", "A", "E"]
  const TimeSignature: string := "4/4"
  const Tempo: int := 174
  /** `"♩ = " + tempo`. */
  const TempoText: string := "\U{2669} = 174"

  /** Step 2: the first n horizontal staff lines. */
  function StaffLines(width: int, n: int): seq<DrawCmd>
  {
    if n <= 0 then []
    else
      StaffLines(width, n - 1) +
      SegmentCmds(Fin(LeftPad), Fin(StringY(n - 1)), Fin(width - RightPad), Fin(StringY(n - 1)))
  }

  /** Step 3: the first n bar separators, each spanning the staff height. */
  function Bars(spacing: Num, n: int): seq<DrawCmd>
  {
    if n <= 0 then []
    else
      Bars(spacing, n - 1) +
      SegmentCmds(BarX(n - 1, spacing), Fin(StartY), BarX(n - 1, spacing), Fin(StartY + 5 * LineSpacing))
  }

  /** Step 4: the first n string-name labels. */
  function Labels(n: int): seq<DrawCmd>
    requires n <= |StringNames|
  {
    if n <= 0 then []
    else Labels(n - 1) + TextCmds(StringNames[n - 1], Fin(LeftPad - 30), Fin(StringY(n - 1) + 5))
  }

  /** Step 5: the fixed time signature and tempo. */
  function Annotations(): seq<DrawCmd>
  {
    TextCmds(TimeSignature, Fin(LeftPad - 15), Fin(StartY + 2 * LineSpacing)) +
    TextCmds(TempoText, Fin(LeftPad - 10), Fin(StartY - 12))
  }

  /** A rest ('-') or a bar line ('|') inside a tab line draws nothing. */
  predicate IsRest(c: char)
  {
    c == '-' || c == '|'
  }

  /** Step 6, one character: column i of row s. */
  function Glyph(line: string, s: int, i: int, spacing: Num): seq<DrawCmd>
    requires 0 <= i < |line|
  {
    if IsRest(line[i]) then []
    else TextCmds([line[i]], Add(ColumnX(i, spacing), Fin(-2)), Fin(StringY(s) - 5))
  }

  /** Step 6, one row: columns 2 .. n-1 of the line. */
  function RowGlyphs(line: string, s: int, spacing: Num, n: int): seq<DrawCmd>
    requires n <= |line|
  {
    if n <= 2 then [] else RowGlyphs(line, s, spacing, n - 1) + Glyph(line, s, n - 1, spacing)
  }

  /** Step 6: the rows 0 .. n-1 of the tab lines. */
  function Notes(tabLines: seq<string>, spacing: Num, n: int): seq<DrawCmd>
    requires n <= |tabLines|
  {
    if n <= 0 then []
    else
      Notes(tabLines, spacing, n - 1) +
      RowGlyphs(tabLines[n - 1], n - 1, spacing, |tabLines[n - 1]|)
  }

  function Min(a: int, b: int): int
  {
    if a < b then a else b
  }

  /** The whole offscreen surface of one render of `tabData` on a width x height
      canvas: it depends on nothing else. */
  function RenderList(tabData: string, width: int, height: int): seq<DrawCmd>
  {
    RenderLines(ParseTab(tabData), width, height)
  }

  /** The offscreen surface drawn for the recognised tab lines. */
  function RenderLines(tabLines: seq<string>, width: int, height: int): seq<DrawCmd>
  {
    var tabLength := TabLength(tabLines);
    Compose(tabLines, width, height, NoteSpacing(width, tabLength), LastBar(tabLength))
  }

  /** The surface for a given column spacing and last bar index: background,
      staff, bars 0 .. lastBar, labels, annotations, then the notes of the first
      six tab lines. */
  function Compose(tabLines: seq<string>, width: int, height: int, spacing: Num, lastBar: int): seq<DrawCmd>
  {
    [ClearCmd(0, 0, width, height), FillCmd(0, 0, width, height)]
    + StaffLines(width, StaffRows)
    + Bars(spacing, lastBar + 1)
    + Labels(StaffRows)
    + Annotations()
    + Notes(tabLines, spacing, Min(|tabLines|, StaffRows))
  }

  /* ---------------- the component ---------------- */

  /** What the visible canvas shows. On the fallback path the offscreen surface is
      copied onto it; on the WebGL path the surface is uploaded as a texture and
      drawn on a full-viewport quad, whose pixels are not modelled. */
  datatype Frame = Blank | Copied(surface: seq<DrawCmd>) | Textured(surface: seq<DrawCmd>)

  /** Line 280: the visible frame for a surface, by whether WebGL is available. */
  function Composite(surface: seq<DrawCmd>, glAvailable: bool): Frame
  {
    if glAvailable then Textured(surface) else Copied(surface)
  }

  class GuitarTabCanvas {
    var tabData: string
    var width: nat
    var height: nat
    var visible: Frame

    constructor ()
      ensures tabData == "" && width == DefaultWidth && height == DefaultHeight
      ensures visible == Blank
    {
      tabData := "";
      width := DefaultWidth;
      height := DefaultHeight;
      visible := Blank;
    }

    /** Renders only when some tab text was set before the element was attached. */
    method ConnectedCallback(glAvailable: bool)
      modifies this
      ensures tabData == old(tabData) && width == old(width) && height == old(height)
      ensures tabData == "" ==> visible == old(visible)
      ensures tabData != "" ==> visible == Composite(RenderList(tabData, width, height), glAvailable)
    {
      if tabData != "" {
        RenderTab(glAvailable);
      }
    }

    /** Stores the text and re-renders it; nothing of the previous frame survives. */
    method SetTabData(tab: string, glAvailable: bool)
      modifies this
      ensures tabData == tab && width == old(width) && height == old(height)
      ensures visible == Composite(RenderList(tab, width, height), glAvailable)
    {
      tabData := tab;
      RenderTab(glAvailable);
    }

    /** Draws the tab onto a fresh offscreen context, then hands the surface to
        the visible canvas (WebGL when available, a plain copy otherwise). */
    method RenderTab(glAvailable: bool)
      modifies this
      ensures tabData == old(tabData) && width == old(width) && height == old(height)
      ensures visible == Composite(RenderList(tabData, width, height), glAvailable)
    {
      // Steps 1-6: draw on a fresh offscreen context.
      var ctx := DrawOffscreen(tabData, width, height);
      // 7. Hand the surface to the visible canvas.
      if !glAvailable {
        visible := Copied(ctx.cmds);
        return;
      }
      visible := Textured(ctx.cmds);
    }
  }

  /** Steps 1-6 of renderTab: a fresh offscreen context, cleared and filled with
      the background, then the staff, bars, labels, annotations and notes. */
  method DrawOffscreen(tabData: string, width: int, height: int) returns (ctx: Context2D)
    ensures fresh(ctx)
    ensures ctx.cmds == RenderList(tabData, width, height)
  {
    // 1. A fresh, cleared and background-filled offscreen surface.
    ctx := new Context2D();
    ctx.ClearRect(0, 0, width, height);
    ctx.FillRect(0, 0, width, height);
    ghost var drawn := [ClearCmd(0, 0, width, height), FillCmd(0, 0, width, height)];
    assert ctx.cmds == drawn;

    // Tab parsing and layout.
    var tabLines := ParseTab(tabData);
    var nStrings := StringCount(tabLines);
    var tabLength := TabLength(tabLines);
    var noteSpacing := NoteSpacing(width, tabLength);

    // 2. - 6.: staff lines, bars, labels, time signature and tempo, notes.
    DrawStaffLines(ctx, width);
    drawn := drawn + StaffLines(width, StaffRows);
    assert ctx.cmds == drawn;
    DrawBars(ctx, noteSpacing, LastBar(tabLength));
    drawn := drawn + Bars(noteSpacing, LastBar(tabLength) + 1);
    assert ctx.cmds == drawn;
    DrawLabels(ctx);
    drawn := drawn + Labels(StaffRows);
    assert ctx.cmds == drawn;
    DrawAnnotations(ctx);
    drawn := drawn + Annotations();
    assert ctx.cmds == drawn;
    DrawNotes(ctx, tabLines, noteSpacing);
    drawn := drawn + Notes(tabLines, noteSpacing, Min(|tabLines|, StaffRows));
    assert ctx.cmds == drawn == Compose(tabLines, width, height, noteSpacing, LastBar(tabLength));
  }

  /** Step 5 of renderTab: the fixed time signature and tempo. */
  method DrawAnnotations(ctx: Context2D)
    modifies ctx
    ensures ctx.cmds == old(ctx.cmds) + Annotations()
  {
    ctx.FillText(TimeSignature, Fin(LeftPad - 15), Fin(StartY + 2 * LineSpacing));
    ctx.FillText(TempoText, Fin(LeftPad - 10), Fin(StartY - 12));
  }

  /** Step 2 of renderTab: the six staff lines. */
  method DrawStaffLines(ctx: Context2D, width: int)
    modifies ctx
    ensures ctx.cmds == old(ctx.cmds) + StaffLines(width, StaffRows)
  {
    var i := 0;
    while i < StaffRows
      invariant 0 <= i <= StaffRows
      invariant ctx.cmds == old(ctx.cmds) + StaffLines(width, i)
    {
      var y := StartY + i * LineSpacing;
      ctx.StrokeSegment(Fin(LeftPad), Fin(y), Fin(width - RightPad), Fin(y));
      i := i + 1;
    }
  }

  /** Step 3 of renderTab: bar separators 0 .. nBars. */
  method DrawBars(ctx: Context2D, noteSpacing: Num, nBars: int)
    requires nBars >= 0
    modifies ctx
    ensures ctx.cmds == old(ctx.cmds) + Bars(noteSpacing, nBars + 1)
  {
    var b := 0;
    while b <= nBars
      invariant 0 <= b <= nBars + 1
      invariant ctx.cmds == old(ctx.cmds) + Bars(noteSpacing, b)
    {
      var x := Add(Fin(LeftPad), Mul(Fin(b * BarColumns), noteSpacing));
      ctx.StrokeSegment(x, Fin(StartY), x, Fin(StartY + 5 * LineSpacing));
      b := b + 1;
    }
  }

  /** Step 4 of renderTab: the string labels. */
  method DrawLabels(ctx: Context2D)
    modifies ctx
    ensures ctx.cmds == old(ctx.cmds) + Labels(StaffRows)
  {
    var i := 0;
    while i < StaffRows
      invariant 0 <= i <= StaffRows
      invariant ctx.cmds == old(ctx.cmds) + Labels(i)
    {
      ctx.FillText(StringNames[i], Fin(LeftPad - 30), Fin(StartY + i * LineSpacing + 5));
      i := i + 1;
    }
  }

  /** Step 6 of renderTab, one row: every column after the "E|" prefix that is
      not a rest or a bar line. */
  method DrawRow(ctx: Context2D, line: string, s: int, noteSpacing: Num)
    requires |line| >= 2
    modifies ctx
    ensures ctx.cmds == old(ctx.cmds) + RowGlyphs(line, s, noteSpacing, |line|)
  {
    var i := 2;
    while i < |line|
      invariant 2 <= i <= |line|
      invariant ctx.cmds == old(ctx.cmds) + RowGlyphs(line, s, noteSpacing, i)
    {
      var ch := line[i];
      var x := Add(Fin(LeftPad), Mul(Fin(i - 2), noteSpacing));
      var y := StartY + s * LineSpacing;
      ghost var before := ctx.cmds;
      if ch != '-' && ch != '|' {
        ctx.FillText([ch], Add(x, Fin(-2)), Fin(y - 5));
      }
      assert ctx.cmds == before + Glyph(line, s, i, noteSpacing);
      i := i + 1;
    }
  }

  /** Step 6 of renderTab: the note glyphs of the first six tab lines. */
  method DrawNotes(ctx: Context2D, tabLines: seq<string>, noteSpacing: Num)
    requires forall k :: 0 <= k < |tabLines| ==> |tabLines[k]| >= 2
    modifies ctx
    ensures ctx.cmds == old(ctx.cmds) + Notes(tabLines, noteSpacing, Min(|tabLines|, StaffRows))
  {
    var s := 0;
    while s < |tabLines| && s < StaffRows
      invariant 0 <= s <= |tabLines| && s <= StaffRows
      invariant ctx.cmds == old(ctx.cmds) + Notes(tabLines, noteSpacing, s)
    {
      var line := tabLines[s];
      DrawRow(ctx, line, s, noteSpacing);
      NotesStep(tabLines, noteSpacing, s);
      assert ctx.cmds == old(ctx.cmds) + Notes(tabLines, noteSpacing, s + 1);
      s := s + 1;
    }
    assert s == Min(|tabLines|, StaffRows);
  }

  /** One more row of notes is that row's glyphs. */
  lemma NotesStep(tabLines: seq<string>, spacing: Num, s: int)
    requires 0 <= s < |tabLines|
    ensures Notes(tabLines, spacing, s + 1) ==
      Notes(tabLines, spacing, s) + RowGlyphs(tabLines[s], s, spacing, |tabLines[s]|)
  {
  }

  /** Rendering two texts in turn leaves exactly what rendering the second text on
      a fresh component does: no residue of the first. */
  method RerenderLeavesNoResidue(first: string, second: string, glAvailable: bool)
    returns (reused: Frame, fromScratch: Frame)
    ensures reused == fromScratch
    ensures reused == Composite(RenderList(second, DefaultWidth, DefaultHeight), glAvailable)
  {
    ghost var expected := Composite(RenderList(second, DefaultWidth, DefaultHeight), glAvailable);
    var a := new GuitarTabCanvas();
    a.SetTabData(first, glAvailable);
    a.SetTabData(second, glAvailable);
    reused := a.visible;
    assert reused == expected;
    var b := new GuitarTabCanvas();
    b.SetTabData(second, glAvailable);
    fromScratch := b.visible;
    assert fromScratch == expected;
  }
}
