# Guitar tab canvas renderer, modelled in Dafny

This project models `GuitarTabCanvas` from `static/main.js`. It is a web component
that turns plain-text guitar tablature into a picture: six staff lines, bar
separators, string labels, a time signature, a tempo mark and one glyph per note.
The model covers the parse, layout and draw part of `renderTab`, plus `setTabData`,
`connectedCallback` and the constructor. It also covers the choice between the
WebGL path and the plain 2D fallback.

Files and modules:

- `tab_parse.dfy` (module `TabParse`) parses the text.
  - `split('\n')` becomes `SplitLines`, proved to invert `JoinLines`.
  - `trim()` uses the ECMAScript whitespace set.
  - `filter` becomes `Filter`.
  - The regular expression `/^[EADGBe]\|/i` becomes `IsTabLine`.
  - `ParseTab` is the whole pipeline.
- `tab_layout.dfy` (module `TabLayout`) holds the layout arithmetic: the constants, string count, tab length, column spacing, last bar index and bar and column x coordinates.
  - JavaScript numbers become `Num`, which is either a finite integer or `NonFinite`.
  - `NonFinite` covers the `Infinity` or `NaN` that the unguarded division by zero produces.
  - `Math.floor(a / b)` becomes `FloorDiv`, which is correct for divisors of either sign.
- `tab_canvas.dfy` (module `TabCanvas`) holds the drawing.
  - The offscreen 2D context is a `Context2D` class whose `cmds` field is a display list of `DrawCmd`s. Pixels, colours and fonts are not modelled.
  - Each drawing loop of `renderTab` is a method with loop invariants. It is proved to append exactly the block that a specification function (`StaffLines`, `Bars`, `Labels`, `Annotations`, `RowGlyphs`, `Notes`) describes.
  - `DrawOffscreen` is proved to produce `RenderList(tabData, width, height)`.
  - `GuitarTabCanvas` is a class with the fields `tabData`, `width`, `height` and `visible`.
  - A stroke or `fillText` at a non-finite coordinate leaves no command, because the HTML canvas ignores such path points and text positions.
- `tab_render_props.dfy` (module `TabRenderProps`) holds the properties of a render:
  - the fixed staff, bars, labels and annotations
  - exactly which note glyphs appear and where
  - two concrete renders on the default 1000 x 200 canvas

`RenderList(text, w, h)` is `RenderLines(ParseTab(text), w, h)`. The render lemmas are stated for any list of lines that are at least two characters long. `ParseTab` ensures that every line it returns qualifies.

The model follows the code as written, including its quirks:

- Column spacing comes from the length of the FIRST recognised line, not the longest one.
- There is no guard against the division by zero when that line is exactly `E|`.
- The string count is clamped to at least 6 but then never used, so the staff always has six rows.
- With no recognised line, the default canvas gets a spacing of floor(910 / 78) = 11 pixels.

## Model

| member | source | states |
|---|---|---|
| TabParse.SplitLines | static/main.js:213 | `split('\n')`: at least one piece, no piece contains '\n', and joining the pieces with '\n' gives back the text |
| TabParse.SplitJoin | static/main.js:213 | splitting the join of any non-empty list of newline-free lines returns exactly those lines, in order |
| TabParse.TrimStart | static/main.js:213 | the result is a suffix of the line, everything dropped is JS whitespace, and the result does not start with whitespace |
| TabParse.TrimEnd | static/main.js:213 | the result is a prefix of the line, everything dropped is JS whitespace, and the result does not end with whitespace |
| TabParse.Trim | static/main.js:213 | `l.trim()`: whitespace removed from both ends, as TrimStart then TrimEnd |
| TabParse.IsNonBlank | static/main.js:213 | the filter `l => l.trim().length > 0`: the trimmed line is not empty |
| TabParse.NonBlankIff | static/main.js:213 | a line survives `l.trim().length > 0` exactly when some character of it is not whitespace |
| TabParse.IsStringName | static/main.js:215 | the class `[EADGBe]` under the `i` flag: the character, upper-cased if it is an ASCII lower-case letter, is one of E, A, D, G, B |
| TabParse.IsTabLine | static/main.js:215 | `line.match(/^[EADGBe]\|/i)` is truthy: at least 2 characters, a string name first and '\|' second |
| TabParse.TabLineIff | static/main.js:215 | a line matches `/^[EADGBe]\|/i` exactly when it has at least 2 characters, the first is one of EADGBeadgb and the second is '\|' |
| TabParse.TabLineNotBlank | static/main.js:213-215 | every line that matches the pattern passes the blank-line filter |
| TabParse.Filter | static/main.js:213-215 | `filter` keeps at most as many elements as it is given, and every one it keeps satisfies the predicate |
| TabParse.FilterAppend | static/main.js:213-215 | filtering distributes over concatenation, so order is kept |
| TabParse.FilterMember | static/main.js:213-215 | an element is kept exactly when it occurs in the input and satisfies the predicate |
| TabParse.FilterAbsorb | static/main.js:213-215 | a filter followed by a stricter one equals the stricter one alone |
| TabParse.ParseTab | static/main.js:213-215 | every recognised line matches the pattern and is at least 2 characters long |
| TabParse.ParseIgnoresBlankFilter | static/main.js:213-215 | dropping blank lines first never changes the recognised lines |
| TabParse.ParseTabMember | static/main.js:213-215 | a line is recognised exactly when it is one of the split lines and matches the pattern |
| TabParse.ParseTabOfLines | static/main.js:213-215 | for text made of newline-free lines, the recognised lines are those lines that match, in their original order |
| TabLayout.FloorDiv | static/main.js:223 | `Math.floor(a / b)` is finite exactly when b is not 0, and is then the greatest integer q with q·b <= a (for b > 0; the mirrored bounds for b < 0) |
| TabLayout.StringCount | static/main.js:216-217 | nStrings is at least 6 and at least the number of tab lines, and equals one of them |
| TabLayout.TabLength | static/main.js:222 | the tab length is 80 with no tab line, otherwise the length of the FIRST line, and it is at least 2 for parsed lines |
| TabLayout.NoteSpacing | static/main.js:223 | `Math.floor((width - 60 - 30) / (tabLength - 2))`, with no guard on the divisor |
| TabLayout.NoteSpacingSpec | static/main.js:223 | the spacing is finite exactly when the tab length is not 2; for length L > 2 it is the floor of (width - 90) / (L - 2) |
| TabLayout.NoteSpacingNonNegative | static/main.js:223 | with a canvas at least 90 pixels wide and L > 2, the spacing is finite and not negative |
| TabLayout.DefaultSpacing | static/main.js:222-223 | with no tab line the default canvas gets 11 pixels per column |
| TabLayout.LastBar | static/main.js:237 | nBars = floor((L - 2) / 8): 8·nBars <= L - 2 < 8·(nBars + 1) |
| TabLayout.StringY | static/main.js:229 | the y coordinate 40 + 25i of staff row i |
| TabLayout.BarX | static/main.js:241 | the x coordinate 60 + 8·b·spacing of bar b, non-finite when the spacing is |
| TabLayout.BarsWithinStaff | static/main.js:237-241 | for a canvas at least 90 pixels wide and L > 2, every bar x = 60 + 8·b·spacing (b <= nBars) is finite and within [60, width - 30] |
| TabLayout.ColumnX | static/main.js:269 | the x coordinate 60 + (i - 2)·spacing of column i, non-finite when the spacing is |
| TabCanvas.SegmentCmds | static/main.js:230-233 | what one stroked segment leaves on the surface: the segment when all four coordinates are finite, nothing otherwise |
| TabCanvas.TextCmds | static/main.js:253 | what one `fillText` leaves on the surface: the text when both coordinates are finite, nothing otherwise |
| TabCanvas.StaffLines | static/main.js:228-234 | the segments of staff rows 0 .. n-1, from x = 60 to width - 30 at y = 40 + 25i |
| TabCanvas.Bars | static/main.js:240-246 | the segments of bars 0 .. n-1, at x = BarX(b) from y = 40 to 165 |
| TabCanvas.Labels | static/main.js:251-254 | the texts of labels 0 .. n-1: string name i at (30, 45 + 25i) |
| TabCanvas.Annotations | static/main.js:259-261 | the texts "4/4" at (45, 90) and "♩ = 174" at (50, 28) |
| TabCanvas.Glyph | static/main.js:268-274 | column i of row s: nothing for '-' or '\|', otherwise the character at (ColumnX(i) - 2, 40 + 25s - 5) |
| TabCanvas.RowGlyphs | static/main.js:267-275 | the glyphs of columns 2 .. n-1 of one line, in column order |
| TabCanvas.Notes | static/main.js:265-276 | the glyph rows of tab lines 0 .. n-1, in row order |
| TabCanvas.RenderList | static/main.js:196-276 | the offscreen surface for a tab text: the surface for its recognised lines |
| TabCanvas.RenderLines | static/main.js:216-276 | the surface for recognised lines, with the spacing and the bar count computed from the first line |
| TabCanvas.Compose | static/main.js:202-276 | clear, background, six staff lines, bars 0 .. lastBar, labels, annotations, then the notes of the first min(6, n) lines, in that order |
| TabCanvas.Composite | static/main.js:279-283 | the visible frame: the surface as a texture when WebGL is available, a plain copy otherwise |
| TabCanvas.Context2D.constructor | static/main.js:198-201 | a fresh offscreen context has an empty display list |
| TabCanvas.Context2D.ClearRect | static/main.js:202 | appends exactly one clear command |
| TabCanvas.Context2D.FillRect | static/main.js:206 | appends exactly one fill command |
| TabCanvas.Context2D.StrokeSegment | static/main.js:230-233 | a beginPath/moveTo/lineTo/stroke appends one segment, or nothing when a coordinate is not finite |
| TabCanvas.Context2D.FillText | static/main.js:253 | appends one text command, or nothing when the position is not finite |
| TabCanvas.GuitarTabCanvas.constructor | static/main.js:175-185 | empty tab text, a 1000 x 200 canvas and nothing shown yet |
| TabCanvas.GuitarTabCanvas.ConnectedCallback | static/main.js:187-189 | renders when the tab text is not empty; otherwise nothing changes |
| TabCanvas.GuitarTabCanvas.SetTabData | static/main.js:191-194 | stores the text; what is shown is then the render of exactly that text on this canvas size |
| TabCanvas.GuitarTabCanvas.RenderTab | static/main.js:196-283 | shows the surface `RenderList(tabData, width, height)`, as a texture when WebGL is available and as a copy otherwise, and leaves the other fields alone |
| TabCanvas.DrawOffscreen | static/main.js:197-276 | a fresh context whose display list is exactly `RenderList(tabData, width, height)` |
| TabCanvas.DrawStaffLines | static/main.js:228-234 | the loop appends exactly the six staff lines |
| TabCanvas.DrawBars | static/main.js:237-246 | the loop appends exactly bars 0 .. nBars |
| TabCanvas.DrawLabels | static/main.js:251-254 | the loop appends exactly the six string labels |
| TabCanvas.DrawAnnotations | static/main.js:259-261 | appends the time signature and the tempo |
| TabCanvas.DrawRow | static/main.js:267-275 | the inner loop appends exactly the glyphs of columns 2 .. length-1 of one line |
| TabCanvas.DrawNotes | static/main.js:265-276 | the outer loop appends the glyph rows of the first min(6, n) tab lines, in order |
| TabCanvas.RerenderLeavesNoResidue | static/main.js:191-206 | rendering a first text and then a second one shows exactly what rendering only the second shows on a new component |
| TabRenderProps.StaffLinesAt | static/main.js:228-234 | staff line i runs from (60, 40 + 25i) to (width - 30, 40 + 25i) |
| TabRenderProps.BarsAt | static/main.js:240-246 | with a finite spacing there are n bars and bar b runs from (60 + 8·b·spacing, 40) to (same x, 165); with a non-finite spacing no bar is drawn |
| TabRenderProps.BarsEvenlySpaced | static/main.js:240-246 | the bars in closed form: bar b at x = 60 + 8·spacing·b |
| TabRenderProps.LabelsAt | static/main.js:251-254 | label i is the i-th string name, at (30, 45 + 25i) |
| TabRenderProps.LabelsFixed | static/main.js:251-254 | the labels are E, B, G, D, A, E at x = 30 and y = 45, 70, 95, 120, 145, 170 |
| TabRenderProps.FixedTexts | static/main.js:249-261 | labels, then "4/4" at (45, 90) and "♩ = 174" at (50, 28) |
| TabRenderProps.RowGlyphsMember | static/main.js:267-275 | with a finite spacing, a command is in a row exactly when it is the glyph of some column i >= 2 whose character is neither '-' nor '\|', showing that character at (60 + (i - 2)·spacing - 2, 40 + 25s - 5) |
| TabRenderProps.RowGlyphsInOrder | static/main.js:267-275 | with a positive spacing, a row's glyphs have strictly increasing x coordinates, all left of column n; with RowGlyphsMember, each non-rest column has exactly one glyph and they come left to right |
| TabRenderProps.RowGlyphsNonFinite | static/main.js:269-273 | with a non-finite spacing a row draws nothing |
| TabRenderProps.NotesSound | static/main.js:265-276 | every command of rows 0 .. n-1 is the glyph of a non-rest column of one of those rows |
| TabRenderProps.NotesComplete | static/main.js:265-276 | the glyph of every non-rest column of rows 0 .. n-1 is drawn |
| TabRenderProps.NotesMember | static/main.js:265-276 | both directions together: a command is in rows 0 .. n-1 exactly when it is the glyph of one of their non-rest columns |
| TabRenderProps.NotesNonFinite | static/main.js:269-273 | with a non-finite spacing no note is drawn at all |
| TabRenderProps.ShownNotesMember | static/main.js:265 | only the first min(6, n) lines contribute glyphs, for any spacing |
| TabRenderProps.RenderStaff | static/main.js:202-234 | every render first clears and fills the whole canvas, then draws exactly the six staff lines, whatever the number of tab lines |
| TabRenderProps.BarsDrawnCount | static/main.js:237-246 | floor((L - 2) / 8) + 1 bars are drawn, or none when L = 2 |
| TabRenderProps.RenderBars | static/main.js:237-246 | right after the staff come the bars, each at its x and spanning y = 40 .. 165 |
| TabRenderProps.RenderBarsInStaff | static/main.js:237-246 | on a canvas at least 90 pixels wide, every bar drawn is vertical and lies within [60, width - 30] |
| TabRenderProps.RenderFixedTexts | static/main.js:249-261 | right after the bars come the same eight label and annotation commands, whatever the input |
| TabRenderProps.GlyphsAreNotes | static/main.js:263-276 | everything after the annotations is the notes block |
| TabRenderProps.RenderGlyphs | static/main.js:263-276 | a command is in the notes block exactly when it is the glyph of a non-rest column i >= 2 of one of the first six tab lines, at its row and column position; none exists when the first line is exactly `E|` |
| TabRenderProps.NoLinesNoGlyphs | static/main.js:265 | with no tab line no glyph is drawn |
| TabRenderProps.DefaultHead | static/main.js:202-234 | the background and staff of the default canvas, as literal commands |
| TabRenderProps.EmptyBars | static/main.js:237-246 | with no tab line, the ten bars are 88 pixels apart starting at x = 60 |
| TabRenderProps.EmptyTabRender | static/main.js:196-276 | the full display list for text without a tab line on the default canvas: staff, ten bars, labels and annotations, and no glyph |
| TabRenderProps.ExampleParse | static/main.js:213-215 | the text `E\|--2--3--` parses to that single line |
| TabRenderProps.ExampleRow | static/main.js:267-275 | the row `E\|--2--3--` draws glyphs at content columns 2 and 5 only, for any finite spacing |
| TabRenderProps.ExampleRender | static/main.js:196-276 | the full display list for the line `E\|--2--3--` on the default canvas: spacing 113, two bars, and glyphs "2" at (284, 35) and "3" at (623, 35) |
| TabRenderProps.ExampleTextRender | static/main.js:196-276 | the same display list, reached from the text |

## Left out

- Composite takes `glAvailable` afresh on every render. The real visible canvas keeps the context type (WebGL or 2D) it got first, so every later render takes the same path. This is not modelled.
- Composite's `Textured` frame does not show the picture that `Copied` shows. The texture is uploaded without `UNPACK_FLIP_Y_WEBGL` (`static/main.js:292`), while the quad maps texture coordinate (0, 0) to the bottom-left of the screen (`static/main.js:335-340`). So the WebGL path shows the surface upside down. The model records only which surface was uploaded.
- WebGL compositing (`static/main.js:284-353`) is left out. The shown frame only records that the surface went to a texture. Shaders, buffers and the textured quad are foreign GPU calls whose pixels are not modelled.
- Fonts, colours, line widths and rasterised pixels are left out. A display-list command records only what is drawn and where.
- Infinity and NaN are not told apart: both are `NonFinite`. Only finiteness decides whether the canvas draws anything.
- Strings are sequences of Unicode scalar values. JavaScript's `length` and indexing count UTF-16 code units, so a line containing characters outside the Basic Multilingual Plane has different lengths and columns here.
- Numbers are unbounded integers. The model does not capture double-precision rounding, which only matters for values beyond 2^53.
- Canvas and DOM plumbing is left out: the shadow root, element creation and the visible canvas element's own size.
- `TabImport`, `TabList` and `TabDetail` (`static/main.js:7-171`) are left out: they are DOM templating, `fetch` calls and event handlers.
- `db.py` and `app.py` are not part of this model. They hold database access and HTTP routes.
