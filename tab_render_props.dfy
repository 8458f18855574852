/** Properties of the display list that one render of GuitarTabCanvas produces
    (static/main.js lines 196-276): the fixed staff, the bars, the fixed labels
    and annotations, and where the note glyphs go. */
module TabRenderProps {
  import opened TabParse
  import opened TabLayout
  import opened TabCanvas

  /* ---------------- one block at a time ---------------- */

  /** The staff lines are horizontal, at y = 40 + 25 i, from x = 60 to width - 30. */
  lemma {:induction false} StaffLinesAt(width: int, n: int)
    requires n >= 0
    ensures |StaffLines(width, n)| == n
    ensures forall i :: 0 <= i < n ==>
      StaffLines(width, n)[i] == LineCmd(LeftPad, StringY(i), width - RightPad, StringY(i))
  {
    if n > 0 {
      StaffLinesAt(width, n - 1);
    }
  }

  /** With a finite spacing, bar b is the vertical segment at x = BarX(b, spacing)
      (60 + 8 b spacing) from y = 40 to y = 165; with a non-finite spacing no bar is drawn at all. */
  lemma {:induction false} BarsAt(spacing: Num, n: int)
    requires n >= 0
    ensures |Bars(spacing, n)| == (if spacing.Fin? then n else 0)
    ensures spacing.Fin? ==> forall b :: 0 <= b < n ==>
      Bars(spacing, n)[b] == LineCmd(BarX(b, spacing).v, StartY, BarX(b, spacing).v, StartY + 5 * LineSpacing)
  {
    if n > 0 {
      BarsAt(spacing, n - 1);
      var x := BarX(n - 1, spacing);
      assert Bars(spacing, n) == Bars(spacing, n - 1) +
        SegmentCmds(x, Fin(StartY), x, Fin(StartY + 5 * LineSpacing));
    }
  }

  /** The string labels E, B, G, D, A, E, left of the staff. */
  lemma LabelsFixed()
    ensures Labels(StaffRows) == [
      TextCmd("E", 30, 45), TextCmd("B", 30, 70), TextCmd("G", 30, 95),
      TextCmd("D", 30, 120), TextCmd("A", 30, 145), TextCmd("E", 30, 170)]
  {
    LabelsAt(StaffRows);
  }

  /** Label i is StringNames[i], at x = 30 and 5 pixels below staff row i. */
  lemma {:induction false} LabelsAt(n: int)
    requires 0 <= n <= |StringNames|
    ensures |Labels(n)| == n
    ensures forall i :: 0 <= i < n ==> Labels(n)[i] == TextCmd(StringNames[i], LeftPad - 30, StringY(i) + 5)
  {
    if n > 0 {
      LabelsAt(n - 1);
    }
  }

  /** cmd is the glyph drawn for column i of row s holding line: i is past the
      "E|" prefix, the character there is neither '-' nor '|', and cmd draws that
      one character at (60 + (i - 2) px - 2, 40 + 25 s - 5). */
  predicate RowGlyphAt(line: string, s: int, px: int, i: int, cmd: DrawCmd)
  {
    2 <= i < |line| && !IsRest(line[i]) &&
    cmd == TextCmd([line[i]], LeftPad + (i - 2) * px - 2, StringY(s) - 5)
  }

  /** cmd is the glyph drawn for column i of tab line s. */
  predicate NoteGlyphAt(tabLines: seq<string>, px: int, s: int, i: int, cmd: DrawCmd)
  {
    0 <= s < |tabLines| && RowGlyphAt(tabLines[s], s, px, i, cmd)
  }

  /** A row draws exactly the glyphs of its columns 2 .. n-1. */
  lemma {:induction false} RowGlyphsMember(line: string, s: int, px: int, n: int, cmd: DrawCmd)
    requires 2 <= n <= |line|
    ensures cmd in RowGlyphs(line, s, Fin(px), n) <==> exists i :: i < n && RowGlyphAt(line, s, px, i, cmd)
  {
    if n > 2 {
      RowGlyphsMember(line, s, px, n - 1, cmd);
      var i := n - 1;
      var g := Glyph(line, s, i, Fin(px));
      assert RowGlyphs(line, s, Fin(px), n) == RowGlyphs(line, s, Fin(px), n - 1) + g;
      assert cmd in g <==> RowGlyphAt(line, s, px, i, cmd);
    }
  }

  /** With a positive spacing, a row's glyphs go strictly left to right, all left of
      column n's position: so the row holds at most one glyph per column, in column
      order. */
  lemma {:induction false} RowGlyphsInOrder(line: string, s: int, px: int, n: int)
    requires px > 0 && n <= |line|
    ensures forall k :: 0 <= k < |RowGlyphs(line, s, Fin(px), n)| ==>
      RowGlyphs(line, s, Fin(px), n)[k].TextCmd? && RowGlyphs(line, s, Fin(px), n)[k].x < LeftPad + (n - 2) * px - 2
    ensures forall j, k :: 0 <= j < k < |RowGlyphs(line, s, Fin(px), n)| ==>
      RowGlyphs(line, s, Fin(px), n)[j].TextCmd? && RowGlyphs(line, s, Fin(px), n)[k].TextCmd? &&
      RowGlyphs(line, s, Fin(px), n)[j].x < RowGlyphs(line, s, Fin(px), n)[k].x
  {
    if n > 2 {
      RowGlyphsInOrder(line, s, px, n - 1);
      var prev := RowGlyphs(line, s, Fin(px), n - 1);
      var g := Glyph(line, s, n - 1, Fin(px));
      var r := prev + g;
      assert RowGlyphs(line, s, Fin(px), n) == r;
      var x := LeftPad + (n - 3) * px - 2;
      assert x < LeftPad + (n - 2) * px - 2 by {
        assert (n - 2) * px == (n - 3) * px + px;
      }
      assert forall k :: 0 <= k < |g| ==> g[k] == TextCmd([line[n - 1]], x, StringY(s) - 5);
      assert forall k :: 0 <= k < |prev| ==> r[k] == prev[k];
      assert forall k :: |prev| <= k < |r| ==> r[k] == g[k - |prev|];
    }
  }

  /** A non-finite spacing draws no glyph at all (every x is Infinity or NaN). */
  lemma {:induction false} RowGlyphsNonFinite(line: string, s: int, n: int)
    requires n <= |line|
    ensures RowGlyphs(line, s, NonFinite, n) == []
  {
    if n > 2 {
      RowGlyphsNonFinite(line, s, n - 1);
    }
  }

  /** Rows 0 .. n-1 draw exactly the glyphs of their columns after the "E|" prefix. */
  lemma NotesMember(tabLines: seq<string>, px: int, n: int, cmd: DrawCmd)
    requires 0 <= n <= |tabLines|
    requires forall k :: 0 <= k < |tabLines| ==> |tabLines[k]| >= 2
    ensures cmd in Notes(tabLines, Fin(px), n) <==> exists s, i :: s < n && NoteGlyphAt(tabLines, px, s, i, cmd)
  {
    if cmd in Notes(tabLines, Fin(px), n) {
      var s, i := NotesSound(tabLines, px, n, cmd);
    }
    forall s, i | s < n && NoteGlyphAt(tabLines, px, s, i, cmd)
      ensures cmd in Notes(tabLines, Fin(px), n)
    {
      NotesComplete(tabLines, px, n, s, i, cmd);
    }
  }

  /** Every command of rows 0 .. n-1 is the glyph of one of their columns. */
  lemma {:induction false} NotesSound(tabLines: seq<string>, px: int, n: int, cmd: DrawCmd)
    returns (s: int, i: int)
    requires 0 <= n <= |tabLines|
    requires forall k :: 0 <= k < |tabLines| ==> |tabLines[k]| >= 2
    requires cmd in Notes(tabLines, Fin(px), n)
    ensures s < n && NoteGlyphAt(tabLines, px, s, i, cmd)
  {
    var line := tabLines[n - 1];
    var prev := Notes(tabLines, Fin(px), n - 1);
    var row := RowGlyphs(line, n - 1, Fin(px), |line|);
    assert Notes(tabLines, Fin(px), n) == prev + row;
    if cmd in prev {
      s, i := NotesSound(tabLines, px, n - 1, cmd);
    } else {
      RowGlyphsMember(line, n - 1, px, |line|, cmd);
      s := n - 1;
      i :| i < |line| && RowGlyphAt(line, n - 1, px, i, cmd);
    }
  }

  /** The glyph of every column of rows 0 .. n-1 is drawn. */
  lemma {:induction false} NotesComplete(tabLines: seq<string>, px: int, n: int, s: int, i: int, cmd: DrawCmd)
    requires 0 <= n <= |tabLines|
    requires forall k :: 0 <= k < |tabLines| ==> |tabLines[k]| >= 2
    requires s < n && NoteGlyphAt(tabLines, px, s, i, cmd)
    ensures cmd in Notes(tabLines, Fin(px), n)
  {
    var line := tabLines[n - 1];
    var prev := Notes(tabLines, Fin(px), n - 1);
    var row := RowGlyphs(line, n - 1, Fin(px), |line|);
    assert Notes(tabLines, Fin(px), n) == prev + row;
    if s == n - 1 {
      RowGlyphsMember(line, n - 1, px, |line|, cmd);
    } else {
      NotesComplete(tabLines, px, n - 1, s, i, cmd);
    }
  }

  lemma {:induction false} NotesNonFinite(tabLines: seq<string>, n: int)
    requires n <= |tabLines|
    ensures Notes(tabLines, NonFinite, n) == []
  {
    if n > 0 {
      var line := tabLines[n - 1];
      NotesNonFinite(tabLines, n - 1);
      RowGlyphsNonFinite(line, n - 1, |line|);
      assert Notes(tabLines, NonFinite, n) == Notes(tabLines, NonFinite, n - 1) + RowGlyphs(line, n - 1, NonFinite, |line|);
    }
  }

  /* ---------------- what a surface shows, block by block ---------------- */

  /** The labels, time signature and tempo every render draws. */
  const FixedTextCmds: seq<DrawCmd> := [
    TextCmd("E", 30, 45), TextCmd("B", 30, 70), TextCmd("G", 30, 95),
    TextCmd("D", 30, 120), TextCmd("A", 30, 145), TextCmd("E", 30, 170),
    TextCmd("4/4", 45, 90), TextCmd(TempoText, 50, 28)]

  lemma FixedTexts()
    ensures Labels(StaffRows) + Annotations() == FixedTextCmds
  {
    LabelsFixed();
  }

  /** r starts by clearing and filling the whole width x height canvas, then
      draws the six horizontal staff lines at y = 40 + 25 i, from x = 60 to
      width - 30. */
  predicate StaffFirst(r: seq<DrawCmd>, width: int, height: int)
  {
    |r| >= 2 + StaffRows &&
    r[0] == ClearCmd(0, 0, width, height) && r[1] == FillCmd(0, 0, width, height) &&
    forall i :: 0 <= i < StaffRows ==>
      r[2 + i] == LineCmd(LeftPad, StringY(i), width - RightPad, StringY(i))
  }

  /** From position start on, r holds count bars: bar b is the vertical segment at
      x = BarX(b, spacing) = 60 + 8 b spacing from y = 40 to y = 165. */
  predicate BarsFrom(r: seq<DrawCmd>, start: int, spacing: Num, count: int)
  {
    0 <= start && start + count <= |r| && (count > 0 ==> spacing.Fin?) &&
    forall b :: 0 <= b < count ==>
      r[start + b] == LineCmd(BarX(b, spacing).v, StartY, BarX(b, spacing).v, StartY + 5 * LineSpacing)
  }

  /** From position start on, r holds the labels, the time signature and the tempo. */
  predicate FixedFrom(r: seq<DrawCmd>, start: int)
  {
    0 <= start && start + 8 <= |r| && r[start..start + 8] == FixedTextCmds
  }

  /** How many bar separators bars 0 .. lastBar leave on the surface: all of them,
      or none when the spacing is not finite. */
  function BarCount(spacing: Num, lastBar: int): int
  {
    if spacing.Fin? then lastBar + 1 else 0
  }

  /** cmd is the glyph of a shown note: column i >= 2 of one of the first six
      tab lines s, holding neither '-' nor '|', drawn as that one character at
      (60 + (i - 2) spacing - 2, 40 + 25 s - 5). No glyph exists for a non-finite
      spacing. */
  ghost predicate IsNoteGlyph(tabLines: seq<string>, spacing: Num, cmd: DrawCmd)
  {
    spacing.Fin? && exists s, i :: s < Min(|tabLines|, StaffRows) && NoteGlyphAt(tabLines, spacing.v, s, i, cmd)
  }

  /* ---------------- the surface for a given layout ---------------- */

  /** The blocks a surface is made of, named (a helper for the lemmas below). */
  lemma ComposeSplit(tabLines: seq<string>, width: int, height: int, spacing: Num, lastBar: int)
    returns (head: seq<DrawCmd>, bars: seq<DrawCmd>, fixed: seq<DrawCmd>, notes: seq<DrawCmd>)
    requires lastBar >= 0
    ensures Compose(tabLines, width, height, spacing, lastBar) == head + bars + fixed + notes
    ensures head == [ClearCmd(0, 0, width, height), FillCmd(0, 0, width, height)] + StaffLines(width, StaffRows)
    ensures |head| == 2 + StaffRows
    ensures bars == Bars(spacing, lastBar + 1) && |bars| == BarCount(spacing, lastBar)
    ensures fixed == FixedTextCmds
    ensures notes == Notes(tabLines, spacing, Min(|tabLines|, StaffRows))
  {
    head := [ClearCmd(0, 0, width, height), FillCmd(0, 0, width, height)] + StaffLines(width, StaffRows);
    bars := Bars(spacing, lastBar + 1);
    fixed := Labels(StaffRows) + Annotations();
    notes := Notes(tabLines, spacing, Min(|tabLines|, StaffRows));
    StaffLinesAt(width, StaffRows);
    BarsAt(spacing, lastBar + 1);
    FixedTexts();
  }

  lemma ComposeStaff(tabLines: seq<string>, width: int, height: int, spacing: Num, lastBar: int)
    requires lastBar >= 0
    ensures StaffFirst(Compose(tabLines, width, height, spacing, lastBar), width, height)
  {
    var head, bars, fixed, notes := ComposeSplit(tabLines, width, height, spacing, lastBar);
    var r := Compose(tabLines, width, height, spacing, lastBar);
    Blocks(head, bars, fixed, notes);
    SliceAt(r, 0, head);
    HeadAt(width, height);
  }

  /** The background and the staff. */
  lemma HeadAt(width: int, height: int)
    ensures StaffFirst([ClearCmd(0, 0, width, height), FillCmd(0, 0, width, height)] + StaffLines(width, StaffRows), width, height)
  {
    var staff := StaffLines(width, StaffRows);
    StaffLinesAt(width, StaffRows);
    var head := [ClearCmd(0, 0, width, height), FillCmd(0, 0, width, height)] + staff;
    forall i | 0 <= i < StaffRows
      ensures head[2 + i] == LineCmd(LeftPad, StringY(i), width - RightPad, StringY(i))
    {
      assert head[2 + i] == staff[i];
    }
  }

  lemma ComposeBars(tabLines: seq<string>, width: int, height: int, spacing: Num, lastBar: int)
    requires lastBar >= 0
    ensures BarsFrom(Compose(tabLines, width, height, spacing, lastBar), 2 + StaffRows, spacing, BarCount(spacing, lastBar))
  {
    ComposeBarsBlock(tabLines, width, height, spacing, lastBar);
    if spacing.Fin? {
      BarsInside(Compose(tabLines, width, height, spacing, lastBar), 2 + StaffRows, spacing, lastBar + 1);
    }
  }

  /** The bars, wherever they sit in a longer list. */
  lemma BarsInside(r: seq<DrawCmd>, start: int, spacing: Num, n: int)
    requires spacing.Fin? && n >= 0 && 0 <= start && start + n <= |r|
    requires r[start..start + n] == Bars(spacing, n)
    ensures BarsFrom(r, start, spacing, n)
  {
    SliceAt(r, start, Bars(spacing, n));
    BarsAt(spacing, n);
  }

  lemma ComposeBarsBlock(tabLines: seq<string>, width: int, height: int, spacing: Num, lastBar: int)
    requires lastBar >= 0
    ensures var r := Compose(tabLines, width, height, spacing, lastBar);
      var bars := Bars(spacing, lastBar + 1);
      |bars| == BarCount(spacing, lastBar) && 2 + StaffRows + |bars| <= |r| &&
      r[2 + StaffRows..2 + StaffRows + |bars|] == bars
  {
    var head, bars, fixed, notes := ComposeSplit(tabLines, width, height, spacing, lastBar);
    Blocks(head, bars, fixed, notes);
  }

  lemma ComposeFixed(tabLines: seq<string>, width: int, height: int, spacing: Num, lastBar: int)
    requires lastBar >= 0
    ensures FixedFrom(Compose(tabLines, width, height, spacing, lastBar), 2 + StaffRows + BarCount(spacing, lastBar))
  {
    var head, bars, fixed, notes := ComposeSplit(tabLines, width, height, spacing, lastBar);
    Blocks(head, bars, fixed, notes);
  }

  lemma ComposeNotes(tabLines: seq<string>, width: int, height: int, spacing: Num, lastBar: int)
    requires lastBar >= 0
    ensures var r := Compose(tabLines, width, height, spacing, lastBar);
      var start := 2 + StaffRows + BarCount(spacing, lastBar) + 8;
      start <= |r| && r[start..] == Notes(tabLines, spacing, Min(|tabLines|, StaffRows))
  {
    var head, bars, fixed, notes := ComposeSplit(tabLines, width, height, spacing, lastBar);
    Blocks(head, bars, fixed, notes);
  }

  /** Each block of a four-block list is found back at its offset. */
  lemma Blocks<T>(a: seq<T>, b: seq<T>, c: seq<T>, d: seq<T>)
    ensures (a + b + c + d)[0..|a|] == a
    ensures (a + b + c + d)[|a|..|a| + |b|] == b
    ensures (a + b + c + d)[|a| + |b|..|a| + |b| + |c|] == c
    ensures (a + b + c + d)[|a| + |b| + |c|..] == d
  {
    var r := a + b + c + d;
    assert r == (a + b + c) + d;
    assert r[..|a| + |b| + |c|] == a + b + c;
    assert (a + b + c)[..|a| + |b|] == a + b;
  }

  /** What a slice of a sequence equals, its elements equal. */
  lemma SliceAt<T>(r: seq<T>, start: int, s: seq<T>)
    requires 0 <= start && start + |s| <= |r| && r[start..start + |s|] == s
    ensures forall b :: 0 <= b < |s| ==> r[start + b] == s[b]
  {
    forall b | 0 <= b < |s|
      ensures r[start + b] == s[b]
    {
      assert r[start..start + |s|][b] == r[start + b];
    }
  }

  /** The glyphs of the rows that are shown, for any spacing. */
  lemma ShownNotesMember(tabLines: seq<string>, spacing: Num, cmd: DrawCmd)
    requires forall k :: 0 <= k < |tabLines| ==> |tabLines[k]| >= 2
    ensures cmd in Notes(tabLines, spacing, Min(|tabLines|, StaffRows)) <==> IsNoteGlyph(tabLines, spacing, cmd)
  {
    var n := Min(|tabLines|, StaffRows);
    if spacing.Fin? {
      NotesMember(tabLines, spacing.v, n, cmd);
    } else {
      NotesNonFinite(tabLines, n);
    }
  }

  /* ---------------- the surface of a render ---------------- */

  /* RenderList(text, width, height) is RenderLines(ParseTab(text), width, height);
     the lemmas below hold for any lines of at least two characters, which every
     recognised tab line is. */

  /** How many bar separators a render of these lines draws. */
  function BarsDrawn(tabLines: seq<string>, width: int): int
  {
    var tabLength := TabLength(tabLines);
    BarCount(NoteSpacing(width, tabLength), LastBar(tabLength))
  }

  /** The notes block, after the background, the staff, the bars, the labels and
      the annotations. */
  function GlyphsOf(tabLines: seq<string>, width: int, height: int): seq<DrawCmd>
  {
    var r := RenderLines(tabLines, width, height);
    var start := 2 + StaffRows + BarsDrawn(tabLines, width) + 8;
    if start <= |r| then r[start..] else []
  }

  /** Every render starts with the background and the full six-line staff,
      however many tab lines there are (none included). */
  lemma RenderStaff(tabLines: seq<string>, width: int, height: int)
    requires forall k :: 0 <= k < |tabLines| ==> |tabLines[k]| >= 2
    ensures StaffFirst(RenderLines(tabLines, width, height), width, height)
  {
    var tabLength := TabLength(tabLines);
    ComposeStaff(tabLines, width, height, NoteSpacing(width, tabLength), LastBar(tabLength));
  }

  /** floor((L - 2) / 8) + 1 bars are drawn for a first tab line of length L
      other than 2 (L = 80 when there is none), and none for L = 2. */
  lemma BarsDrawnCount(tabLines: seq<string>, width: int)
    requires forall k :: 0 <= k < |tabLines| ==> |tabLines[k]| >= 2
    ensures var tabLength := TabLength(tabLines);
      BarsDrawn(tabLines, width) == if tabLength == 2 then 0 else (tabLength - 2) / 8 + 1
  {
    NoteSpacingSpec(width, TabLength(tabLines));
  }

  /** The bars follow the staff, at the spacing the first tab line implies. */
  lemma RenderBars(tabLines: seq<string>, width: int, height: int)
    requires forall k :: 0 <= k < |tabLines| ==> |tabLines[k]| >= 2
    ensures BarsFrom(RenderLines(tabLines, width, height), 2 + StaffRows,
                     NoteSpacing(width, TabLength(tabLines)), BarsDrawn(tabLines, width))
  {
    var tabLength := TabLength(tabLines);
    ComposeBars(tabLines, width, height, NoteSpacing(width, tabLength), LastBar(tabLength));
  }

  /** On a canvas at least 90 pixels wide every bar drawn is a vertical segment
      from y = 40 to y = 165 whose x lies within [60, width - 30]. */
  lemma RenderBarsInStaff(tabLines: seq<string>, width: int, height: int, b: int)
    requires forall k :: 0 <= k < |tabLines| ==> |tabLines[k]| >= 2
    requires width >= LeftPad + RightPad
    requires 0 <= b < BarsDrawn(tabLines, width)
    ensures var r := RenderLines(tabLines, width, height);
      2 + StaffRows + b < |r| && r[2 + StaffRows + b].LineCmd? &&
      r[2 + StaffRows + b].x1 == r[2 + StaffRows + b].x2 &&
      LeftPad <= r[2 + StaffRows + b].x1 <= width - RightPad &&
      r[2 + StaffRows + b].y1 == StartY && r[2 + StaffRows + b].y2 == StartY + 5 * LineSpacing
  {
    var tabLength := TabLength(tabLines);
    RenderBars(tabLines, width, height);
    NoteSpacingSpec(width, tabLength);
    BarsWithinStaff(width, tabLength, b);
  }

  /** The labels, the time signature and the tempo never depend on the input:
      they are the same eight commands right after the bars. */
  lemma RenderFixedTexts(tabLines: seq<string>, width: int, height: int)
    requires forall k :: 0 <= k < |tabLines| ==> |tabLines[k]| >= 2
    ensures FixedFrom(RenderLines(tabLines, width, height), 2 + StaffRows + BarsDrawn(tabLines, width))
  {
    var tabLength := TabLength(tabLines);
    ComposeFixed(tabLines, width, height, NoteSpacing(width, tabLength), LastBar(tabLength));
  }

  /** The rest of the list is the notes block. */
  lemma GlyphsAreNotes(tabLines: seq<string>, width: int, height: int)
    requires forall k :: 0 <= k < |tabLines| ==> |tabLines[k]| >= 2
    ensures GlyphsOf(tabLines, width, height) ==
      Notes(tabLines, NoteSpacing(width, TabLength(tabLines)), Min(|tabLines|, StaffRows))
  {
    var tabLength := TabLength(tabLines);
    ComposeNotes(tabLines, width, height, NoteSpacing(width, tabLength), LastBar(tabLength));
  }

  /** The rest of the list holds exactly the note glyphs: one per character of
      the first six tab lines after the "E|" prefix that is neither '-' nor '|'
      (spaces and a trailing '\r' are drawn), and none at all when the first tab
      line is exactly two characters long. */
  lemma RenderGlyphs(tabLines: seq<string>, width: int, height: int, cmd: DrawCmd)
    requires forall k :: 0 <= k < |tabLines| ==> |tabLines[k]| >= 2
    ensures cmd in GlyphsOf(tabLines, width, height) <==>
      IsNoteGlyph(tabLines, NoteSpacing(width, TabLength(tabLines)), cmd)
  {
    GlyphsAreNotes(tabLines, width, height);
    ShownNotesMember(tabLines, NoteSpacing(width, TabLength(tabLines)), cmd);
  }

  /** Without any tab line no glyph is drawn, whatever the canvas size. */
  lemma NoLinesNoGlyphs(width: int, height: int)
    ensures GlyphsOf([], width, height) == []
  {
    GlyphsAreNotes([], width, height);
  }

  /* ---------------- two concrete renders on the default canvas ---------------- */

  /** The background and staff of the default 1000 x 200 canvas. */
  const DefaultHeadCmds: seq<DrawCmd> := [
    ClearCmd(0, 0, 1000, 200), FillCmd(0, 0, 1000, 200),
    LineCmd(60, 40, 970, 40), LineCmd(60, 65, 970, 65), LineCmd(60, 90, 970, 90),
    LineCmd(60, 115, 970, 115), LineCmd(60, 140, 970, 140), LineCmd(60, 165, 970, 165)]

  lemma DefaultHead()
    ensures [ClearCmd(0, 0, DefaultWidth, DefaultHeight), FillCmd(0, 0, DefaultWidth, DefaultHeight)]
      + StaffLines(DefaultWidth, StaffRows) == DefaultHeadCmds
  {
    StaffLinesAt(DefaultWidth, StaffRows);
  }

  /** Text without any tab line still renders the full default staff: the six
      lines, ten bars 88 pixels apart (spacing floor(910 / 78) = 11), the labels
      and annotations, and no glyph. */
  lemma EmptyTabRender()
    ensures RenderLines([], DefaultWidth, DefaultHeight) ==
      DefaultHeadCmds + seq(10, b => LineCmd(60 + 88 * b, 40, 60 + 88 * b, 165)) + FixedTextCmds
  {
    assert RenderLines([], DefaultWidth, DefaultHeight) == Compose([], DefaultWidth, DefaultHeight, Fin(11), 9) by {
      DefaultSpacing();
      assert LastBar(80) == 9;
    }
    var head, bars, fixed, notes := ComposeSplit([], DefaultWidth, DefaultHeight, Fin(11), 9);
    DefaultHead();
    assert notes == [];
    EmptyBars();
  }

  /** The ten bars of the empty tab. */
  lemma EmptyBars()
    ensures Bars(Fin(11), 10) == seq(10, b => LineCmd(60 + 88 * b, 40, 60 + 88 * b, 165))
  {
    var sp := Fin(11);
    BarsEvenlySpaced(sp, 10);
  }

  /** Finite-spacing bars in closed form: bar b at x = 60 + 8 b spacing. */
  lemma BarsEvenlySpaced(spacing: Num, n: nat)
    requires spacing.Fin?
    ensures Bars(spacing, n) == seq(n, b => LineCmd(60 + 8 * spacing.v * b, 40, 60 + 8 * spacing.v * b, 165))
  {
    BarsAt(spacing, n);
    forall b | 0 <= b < n
      ensures Bars(spacing, n)[b] == LineCmd(60 + 8 * spacing.v * b, 40, 60 + 8 * spacing.v * b, 165)
    {
      assert BarX(b, spacing) == Fin(60 + 8 * spacing.v * b);
    }
  }

  /** The text "E|--2--3--" renders as the single tab line it holds. */
  lemma ExampleTextRender()
    ensures RenderList("E|--2--3--", DefaultWidth, DefaultHeight) == DefaultHeadCmds +
      [LineCmd(60, 40, 60, 165), LineCmd(964, 40, 964, 165)] + FixedTextCmds +
      [TextCmd("2", 284, 35), TextCmd("3", 623, 35)]
  {
    ExampleParse();
    ExampleRender();
  }

  /** The single line "E|--2--3--" is recognised as a tab line. */
  lemma ExampleParse()
    ensures ParseTab("E|--2--3--") == ["E|--2--3--"]
  {
    var line := "E|--2--3--";
    assert IsTabLine(line);
    assert JoinLines([line]) == line;
    ParseTabOfLines([line]);
    assert Filter(IsTabLine, [line]) == [line];
  }

  /** On the default canvas the single tab line "E|--2--3--" gets spacing
      floor(910 / 8) = 113, two bars, and glyphs at content columns 2 and 5 only. */
  lemma ExampleRender()
    ensures RenderLines(["E|--2--3--"], DefaultWidth, DefaultHeight) == DefaultHeadCmds +
      [LineCmd(60, 40, 60, 165), LineCmd(964, 40, 964, 165)] + FixedTextCmds +
      [TextCmd("2", 284, 35), TextCmd("3", 623, 35)]
  {
    var line := "E|--2--3--";
    assert RenderLines([line], DefaultWidth, DefaultHeight) == Compose([line], DefaultWidth, DefaultHeight, Fin(113), 1) by {
      assert TabLength([line]) == 10;
      assert NoteSpacing(DefaultWidth, 10) == Fin(113);
      assert LastBar(10) == 1;
    }
    var head, bars, fixed, notes := ComposeSplit([line], DefaultWidth, DefaultHeight, Fin(113), 1);
    DefaultHead();
    assert bars == [LineCmd(60, 40, 60, 165), LineCmd(964, 40, 964, 165)] by {
      BarsAt(Fin(113), 2);
    }
    assert notes == [TextCmd("2", 284, 35), TextCmd("3", 623, 35)] by {
      assert Notes([line], Fin(113), 1) == Notes([line], Fin(113), 0) + RowGlyphs(line, 0, Fin(113), 10);
      ExampleRow(113);
    }
  }

  /** Row 0 holding "E|--2--3--" gets a glyph at content columns 2 and 5 only,
      whatever the spacing. */
  lemma ExampleRow(px: int)
    ensures RowGlyphs("E|--2--3--", 0, Fin(px), 10) ==
      [TextCmd("2", LeftPad + 2 * px - 2, 35), TextCmd("3", LeftPad + 5 * px - 2, 35)]
  {
    var line := "E|--2--3--";
    var sp := Fin(px);
    assert RowGlyphs(line, 0, sp, 3) == [];
    assert RowGlyphs(line, 0, sp, 4) == [];
    assert RowGlyphs(line, 0, sp, 5) == [TextCmd("2", LeftPad + 2 * px - 2, 35)];
    assert RowGlyphs(line, 0, sp, 6) == RowGlyphs(line, 0, sp, 5);
    assert RowGlyphs(line, 0, sp, 7) == RowGlyphs(line, 0, sp, 5);
    assert RowGlyphs(line, 0, sp, 8) == RowGlyphs(line, 0, sp, 5) + [TextCmd("3", LeftPad + 5 * px - 2, 35)];
    assert RowGlyphs(line, 0, sp, 9) == RowGlyphs(line, 0, sp, 8);
  }
}
