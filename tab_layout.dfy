/** Layout arithmetic of GuitarTabCanvas.renderTab (static/main.js lines 216-223,
    237, 241, 269-270): string rows, column spacing, bar positions and note glyph
    coordinates, all in pixels.

    JavaScript numbers are modelled by Num: every value here is an integer except
    the result of a division by zero, which is Infinity, -Infinity or NaN. What
    matters downstream is only whether a coordinate is finite (the canvas ignores
    path points and text positioned at non-finite coordinates), so all three
    collapse to NonFinite, and arithmetic with a NonFinite operand stays NonFinite.
 */
module TabLayout {
  const DefaultWidth: nat := 1000
  const DefaultHeight: nat := 200
  const LineSpacing: int := 25
  const StartY: int := 40
  const LeftPad: int := 60
  const RightPad: int := 30
  /** Tab length assumed when no tab line was recognised. */
  const DefaultTabLength: int := 80
  /** Columns per bar (measure). */
  const BarColumns: int := 8
  /** The staff always has this many rows, whatever was parsed. */
  const StaffRows: int := 6

  datatype Num = Fin(v: int) | NonFinite

  function Add(a: Num, b: Num): Num
  {
    if a.Fin? && b.Fin? then Fin(a.v + b.v) else NonFinite
  }

  function Mul(a: Num, b: Num): Num
  {
    if a.Fin? && b.Fin? then Fin(a.v * b.v) else NonFinite
  }

  /** `Math.floor(a / b)` on integers: finite exactly when b is not zero, and then
      the greatest integer not above the real quotient. */
  function FloorDiv(a: int, b: int): (r: Num)
    ensures r.Fin? <==> b != 0
    ensures b > 0 ==> r.v * b <= a < r.v * b + b
    ensures b < 0 ==> r.v * b >= a > r.v * b + b
  {
    if b == 0 then NonFinite
    else if b > 0 then Fin(a / b)
    else
      var q := (-a) / (-b);
      assert q * (-b) <= -a < q * (-b) + (-b);
      assert q * b == -(q * (-b));
      Fin(q)
  }

  /** Lines 216-217: the string count, clamped below at 6. The value is never
      used again by the source: the staff always has StaffRows rows. */
  function StringCount(tabLines: seq<string>): (r: int)
    ensures r >= StaffRows && r >= |tabLines|
    ensures r == StaffRows || r == |tabLines|
  {
    if |tabLines| < StaffRows then StaffRows else |tabLines|
  }

  /** Line 222: the length of the FIRST recognised line (not the longest), or 80.
      For parsed lines it is at least 2 ("E|"). */
  function TabLength(tabLines: seq<string>): (r: int)
    ensures |tabLines| == 0 ==> r == DefaultTabLength
    ensures |tabLines| > 0 ==> r == |tabLines[0]|
    ensures (forall k :: 0 <= k < |tabLines| ==> |tabLines[k]| >= 2) ==> r >= 2
  {
    if |tabLines| > 0 then |tabLines[0]| else DefaultTabLength
  }


  /** Line 223: the pixel distance between two columns, with no guard against a
      zero divisor. */
  function NoteSpacing(width: int, tabLength: int): Num
  {
    FloorDiv(width - LeftPad - RightPad, tabLength - 2)
  }

  /** The spacing is finite unless the first tab line is exactly two characters
      long; when it is finite and the line is longer, `spacing` columns of content
      fill at most, and more than spacing - 1 columns overfill, the drawable width. */
  lemma NoteSpacingSpec(width: int, tabLength: int)
    ensures NoteSpacing(width, tabLength).Fin? <==> tabLength != 2
    ensures tabLength > 2 ==>
      var px := NoteSpacing(width, tabLength).v;
      px * (tabLength - 2) <= width - 90 < (px + 1) * (tabLength - 2)
  {
    if tabLength > 2 {
      var px := NoteSpacing(width, tabLength).v;
      assert (px + 1) * (tabLength - 2) == px * (tabLength - 2) + (tabLength - 2);
    }
  }

  /** With a wide enough canvas and a line longer than "E|", the spacing is not
      negative. */
  lemma NoteSpacingNonNegative(width: int, tabLength: int)
    requires width >= LeftPad + RightPad && tabLength > 2
    ensures NoteSpacing(width, tabLength).Fin? && NoteSpacing(width, tabLength).v >= 0
  {
    NoteSpacingSpec(width, tabLength);
  }

  /** With no recognised line, the default 1000-pixel canvas gets 11 pixels per
      column: floor(910 / 78). */
  lemma DefaultSpacing()
    ensures NoteSpacing(DefaultWidth, TabLength([])) == Fin(11)
  {
    assert 11 * 78 <= 910 < 12 * 78;
  }

  /** Line 237: nBars; the loop at line 240 draws bars 0..nBars inclusive. */
  function LastBar(tabLength: int): (r: int)
    ensures tabLength >= 2 ==> r >= 0 && BarColumns * r <= tabLength - 2 < BarColumns * (r + 1)
  {
    FloorDiv(tabLength - 2, BarColumns).v
  }

  /** Line 229: the y coordinate of staff row i. */
  function StringY(i: int): int
  {
    StartY + i * LineSpacing
  }

  /** Line 241: the x coordinate of bar b, non-finite when the spacing is. */
  function BarX(b: int, spacing: Num): Num
  {
    Add(Fin(LeftPad), Mul(Fin(b * BarColumns), spacing))
  }

  /** Every bar of a line longer than "E|" lies within the drawable width
      [LeftPad, width - RightPad]. */
  lemma BarsWithinStaff(width: int, tabLength: int, b: int)
    requires width >= LeftPad + RightPad && tabLength > 2
    requires 0 <= b <= LastBar(tabLength)
    ensures BarX(b, NoteSpacing(width, tabLength)).Fin?
    ensures LeftPad <= BarX(b, NoteSpacing(width, tabLength)).v <= width - RightPad
  {
    var sp := NoteSpacing(width, tabLength);
    NoteSpacingNonNegative(width, tabLength);
    NoteSpacingSpec(width, tabLength);
    var px := sp.v;
    MulMono(b * BarColumns, tabLength - 2, px);
  }

  lemma MulMono(a: int, b: int, c: int)
    requires 0 <= a <= b && c >= 0
    ensures 0 <= a * c <= b * c
  {
  }

  /** Lines 269-270: the x coordinate of column i of a line (before the text
      offset), non-finite when the spacing is. */
  function ColumnX(i: int, spacing: Num): Num
  {
    Add(Fin(LeftPad), Mul(Fin(i - 2), spacing))
  }
}
