/** Parsing of raw tablature text into the recognised tab lines
    (GuitarTabCanvas.renderTab, static/main.js lines 213-215):
      text.split('\n') -> drop lines whose trim() is empty -> keep lines matching /^[EADGBe]\|/i
 */
module TabParse {

  /* ---------------- Splitting on '\n' ---------------- */

  /** Joins lines back together with '\n' between them; the inverse of SplitLines. */
  function JoinLines(lines: seq<string>): string
    requires |lines| >= 1
  {
    if |lines| == 1 then lines[0] else lines[0] + "\n" + JoinLines(lines[1..])
  }

  /** JavaScript's `s.split('\n')`: the maximal newline-free pieces between the
      '\n' characters of s. There is always at least one piece ("" for ""). */
  function SplitLines(s: string): (r: seq<string>)
    ensures |r| >= 1
    ensures forall k :: 0 <= k < |r| ==> '\n' !in r[k]
    ensures JoinLines(r) == s
  {
    if s == [] then [""]
    else
      var rest := SplitLines(s[1..]);
      if s[0] == '\n' then [""] + rest
      else
        var r := [[s[0]] + rest[0]] + rest[1..];
        assert r[1..] == rest[1..];
        if |rest| == 1 then r
        else
          assert JoinLines(rest) == rest[0] + "\n" + JoinLines(rest[1..]);
          assert JoinLines(r) == ([s[0]] + rest[0]) + "\n" + JoinLines(rest[1..]);
          assert [s[0]] + s[1..] == s;
          r
  }

  /** Splitting undoes joining: any non-empty list of newline-free lines is
      recovered exactly (same lines, same order) from its joined text. */
  lemma {:induction false} SplitJoin(lines: seq<string>)
    requires |lines| >= 1
    requires forall k :: 0 <= k < |lines| ==> '\n' !in lines[k]
    ensures SplitLines(JoinLines(lines)) == lines
    decreases |JoinLines(lines)|
  {
    var s := JoinLines(lines);
    var first := lines[0];
    if |lines| == 1 {
      if first != [] {
        var tail := [first[1..]];
        assert JoinLines(tail) == first[1..];
        assert '\n' !in tail[0] by { assert forall c :: c in first[1..] ==> c in first; }
        SplitJoin(tail);
        assert s == [first[0]] + first[1..];
        assert s[1..] == first[1..];
        assert [first[0]] + first[1..] == first;
      }
    } else if first == [] {
      assert s == "\n" + JoinLines(lines[1..]);
      assert s[1..] == JoinLines(lines[1..]);
      SplitJoin(lines[1..]);
      assert [""] + lines[1..] == lines;
    } else {
      var tail := [first[1..]] + lines[1..];
      assert tail[1..] == lines[1..];
      assert '\n' !in tail[0] by { assert forall c :: c in first[1..] ==> c in first; }
      assert JoinLines(tail) == first[1..] + "\n" + JoinLines(lines[1..]);
      assert s == first + "\n" + JoinLines(lines[1..]);
      assert s[0] == first[0] && first[0] != '\n';
      assert s[1..] == JoinLines(tail);
      SplitJoin(tail);
      assert [first[0]] + first[1..] == first;
    }
  }

  /* ---------------- trim() ---------------- */

  /** The characters String.prototype.trim removes: the ECMAScript WhiteSpace
      (tab, vertical tab, form feed, U+FEFF and every space separator) and
      LineTerminator (LF, CR, U+2028, U+2029) code points. */
  predicate IsJsWhitespace(c: char)
  {
    var n := c as int;
    n == 0x09 || n == 0x0A || n == 0x0B || n == 0x0C || n == 0x0D || n == 0x20 ||
    n == 0xA0 || n == 0x1680 || (0x2000 <= n <= 0x200A) || n == 0x2028 || n == 0x2029 ||
    n == 0x202F || n == 0x205F || n == 0x3000 || n == 0xFEFF
  }

  /** Drops leading whitespace: the result is a suffix of l, everything dropped is
      whitespace and the result does not start with whitespace. */
  function TrimStart(l: string): (r: string)
    ensures |r| <= |l| && r == l[|l| - |r|..]
    ensures forall k :: 0 <= k < |l| - |r| ==> IsJsWhitespace(l[k])
    ensures |r| > 0 ==> !IsJsWhitespace(r[0])
  {
    if |l| > 0 && IsJsWhitespace(l[0]) then
      var r := TrimStart(l[1..]);
      assert l[1..][|l| - 1 - |r|..] == l[|l| - |r|..];
      r
    else l
  }

  /** Drops trailing whitespace: the result is a prefix of l, everything dropped is
      whitespace and the result does not end with whitespace. */
  function TrimEnd(l: string): (r: string)
    ensures |r| <= |l| && r == l[..|r|]
    ensures forall k :: |r| <= k < |l| ==> IsJsWhitespace(l[k])
    ensures |r| > 0 ==> !IsJsWhitespace(r[|r| - 1])
  {
    if |l| > 0 && IsJsWhitespace(l[|l| - 1]) then
      var r := TrimEnd(l[..|l| - 1]);
      assert l[..|l| - 1][..|r|] == l[..|r|];
      r
    else l
  }

  /** JavaScript's `l.trim()`. */
  function Trim(l: string): string
  {
    TrimEnd(TrimStart(l))
  }

  /** The filter `l => l.trim().length > 0` of line 213. */
  predicate IsNonBlank(l: string)
  {
    |Trim(l)| > 0
  }

  /** A line survives the blank-line filter exactly when some character of it is
      not whitespace. */
  lemma NonBlankIff(l: string)
    ensures IsNonBlank(l) <==> exists k :: 0 <= k < |l| && !IsJsWhitespace(l[k])
  {
    var t := TrimStart(l);
    var r := TrimEnd(t);
    if |r| > 0 {
      assert r[0] == t[0] == l[|l| - |t|];
      assert !IsJsWhitespace(l[|l| - |t|]);
    } else {
      assert |t| == 0;
    }
  }

  /* ---------------- /^[EADGBe]\|/i ---------------- */

  /** Case folding as the non-Unicode `i` flag does it for the characters that
      matter here: ASCII lower-case letters map to upper case; a non-ASCII
      character never folds onto an ASCII one, so all others stay as they are. */
  function AsciiUpper(c: char): char
  {
    if 'a' <= c <= 'z' then (c as int - 32) as char else c
  }

  /** The character class `[EADGBe]` under the `i` flag. */
  predicate IsStringName(c: char)
  {
    AsciiUpper(c) in {'E', 'A', 'D', 'G', 'B'}
  }

  /** `line.match(/^[EADGBe]\|/i)` is truthy. */
  predicate IsTabLine(line: string)
  {
    |line| >= 2 && IsStringName(line[0]) && line[1] == '|'
  }

  /** A tab line is one whose first character is E, A, D, G or B in either case
      and whose second character is '|'. */
  lemma TabLineIff(line: string)
    ensures IsTabLine(line) <==>
      |line| >= 2 && line[0] in "EADGBeadgb" && line[1] == '|'
  {
    if |line| >= 2 {
      var c := line[0];
      if 'a' <= c <= 'z' {
        var u := AsciiUpper(c);
        assert u as int == c as int - 32;
        assert IsStringName(c) <==> c in "eadgb";
      }
    }
  }

  /** A line matching the tab pattern is never blank, so it always survives the
      blank-line filter. */
  lemma TabLineNotBlank(line: string)
    requires IsTabLine(line)
    ensures IsNonBlank(line)
  {
    assert !IsJsWhitespace(line[1]);
    NonBlankIff(line);
  }

  /* ---------------- Array.prototype.filter ---------------- */

  /** `s.filter(p)`: the elements of s satisfying p, in their original order. */
  function Filter<T>(p: T -> bool, s: seq<T>): (r: seq<T>)
    ensures |r| <= |s|
    ensures forall k :: 0 <= k < |r| ==> p(r[k])
  {
    if s == [] then [] else (if p(s[0]) then [s[0]] else []) + Filter(p, s[1..])
  }

  /** Filtering distributes over concatenation; together with the one-element
      case this pins down Filter completely and says that order is kept. */
  lemma {:induction false} FilterAppend<T>(p: T -> bool, a: seq<T>, b: seq<T>)
    ensures Filter(p, a + b) == Filter(p, a) + Filter(p, b)
  {
    if a == [] {
      assert a + b == b;
    } else {
      assert (a + b)[1..] == a[1..] + b;
      FilterAppend(p, a[1..], b);
    }
  }

  /** An element is kept exactly when it occurs in the input and satisfies p. */
  lemma {:induction false} FilterMember<T>(p: T -> bool, s: seq<T>, x: T)
    ensures x in Filter(p, s) <==> x in s && p(x)
  {
    if s != [] {
      FilterMember(p, s[1..], x);
      assert s == [s[0]] + s[1..];
    }
  }

  /** A filter whose predicate is implied by a second, later one changes nothing. */
  lemma {:induction false} FilterAbsorb<T>(p: T -> bool, q: T -> bool, s: seq<T>)
    requires forall x :: p(x) ==> q(x)
    ensures Filter(p, Filter(q, s)) == Filter(p, s)
  {
    if s != [] {
      FilterAbsorb(p, q, s[1..]);
      var fq := Filter(q, s);
      if q(s[0]) {
        assert fq == [s[0]] + Filter(q, s[1..]);
        assert fq != [] && fq[0] == s[0] && fq[1..] == Filter(q, s[1..]);
        assert Filter(p, fq) == (if p(s[0]) then [s[0]] else []) + Filter(p, fq[1..]);
      } else {
        assert !p(s[0]);
        assert fq == Filter(q, s[1..]);
      }
    }
  }

  /* ---------------- the whole parse ---------------- */

  /** Lines 213-215: the recognised tab lines of the text. */
  function ParseTab(text: string): (r: seq<string>)
    ensures forall k :: 0 <= k < |r| ==> IsTabLine(r[k])
    ensures forall k :: 0 <= k < |r| ==> |r[k]| >= 2
  {
    Filter(IsTabLine, Filter(IsNonBlank, SplitLines(text)))
  }

  /** Dropping blank lines first never changes the recognised lines. */
  lemma ParseIgnoresBlankFilter(text: string)
    ensures ParseTab(text) == Filter(IsTabLine, SplitLines(text))
  {
    forall l | IsTabLine(l) ensures IsNonBlank(l) { TabLineNotBlank(l); }
    FilterAbsorb(IsTabLine, IsNonBlank, SplitLines(text));
  }

  /** The recognised lines are exactly the input lines that match the pattern. */
  lemma ParseTabMember(text: string, l: string)
    ensures l in ParseTab(text) <==> l in SplitLines(text) && IsTabLine(l)
  {
    ParseIgnoresBlankFilter(text);
    FilterMember(IsTabLine, SplitLines(text), l);
  }

  /** For text assembled from newline-free lines, the recognised lines are those
      lines that match, in their original order. */
  lemma ParseTabOfLines(lines: seq<string>)
    requires |lines| >= 1
    requires forall k :: 0 <= k < |lines| ==> '\n' !in lines[k]
    ensures ParseTab(JoinLines(lines)) == Filter(IsTabLine, lines)
  {
    SplitJoin(lines);
    ParseIgnoresBlankFilter(JoinLines(lines));
  }
}
