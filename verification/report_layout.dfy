/**
 The data the purchase and sale pages feed to the PDF library. A report is
 the sequence of lines it writes, top to bottom: each line is a y coordinate
 (millimetres from the top of the page) and the texts written on it, each
 with its x anchor; the library's `text` calls are these, line after line.
 A report also has the name the file is saved under. Rendering, fonts and
 page breaks are the library's.
 */
module ReportLayout {
  import opened JsValues

  /** Where a text is anchored horizontally: left-aligned at a fixed x,
      centred on the page (`pageWidth / 2`, `align: "center"`), or
      right-aligned at the right margin (`pageWidth - 14`, `align: "right"`). */
  datatype Anchor = At(x: int) | PageCentre | RightMargin

  /** A text: a literal, a template with one interpolated value
      (`${value}`, which also covers `String(cell)`), or a date rendered by
      the locale (`toLocaleDateString` / `toLocaleString`). */
  datatype Text =
    | Plain(s: string)
    | Template(before: string, value: JsValue, after: string)
    | LocaleDate(before: string, value: JsValue)
    | LocaleDateTime(value: JsValue)

  /** `String(cell)` */
  function Cell(v: JsValue): Text {
    Template("", v, "")
  }

  /** One `doc.text(text, x, y, options)` call, less its y. */
  datatype Piece = Piece(text: Text, anchor: Anchor)

  /** The texts written on line `y`. */
  datatype Line = Line(y: int, pieces: seq<Piece>)

  /** A finished report: its lines in order, and the `doc.save` file name. */
  datatype Report = Report(lines: seq<Line>, fileName: Text)

  /** One left-aligned text on line `y`. */
  function Single(text: Text, x: int, y: int): Line {
    Line(y, [Piece(text, At(x))])
  }

  /** One table row: cell `i` left-aligned at `xs[i]`, all on line `y`. */
  function Row(cells: seq<Text>, xs: seq<int>, y: int): (l: Line)
    requires |cells| == |xs|
    ensures l.y == y && |l.pieces| == |cells|
    ensures forall i :: 0 <= i < |cells| ==> l.pieces[i] == Piece(cells[i], At(xs[i]))
  {
    Line(y, seq(|cells|, i requires 0 <= i < |cells| => Piece(cells[i], At(xs[i]))))
  }

  /** Column headings as texts. */
  function Plains(heads: seq<string>): (r: seq<Text>)
    ensures |r| == |heads|
    ensures forall i :: 0 <= i < |r| ==> r[i] == Plain(heads[i])
  {
    seq(|heads|, i requires 0 <= i < |heads| => Plain(heads[i]))
  }

  /** Evenly spaced columns from the left margin: `14 + i * step`. */
  function Spaced(n: nat, step: int): (xs: seq<int>)
    ensures |xs| == n
    ensures forall i :: 0 <= i < n ==> xs[i] == 14 + i * step
  {
    seq(n, i => 14 + i * step)
  }

  /** The report goes down the page: every line is strictly below the lines
      before it, so no two lines are written on the same y. */
  predicate Descending(lines: seq<Line>) {
    forall a, b :: 0 <= a < b < |lines| ==> lines[a].y < lines[b].y
  }

  /** Every line is above line `y` (has a smaller y). */
  predicate Above(lines: seq<Line>, y: int) {
    forall a :: 0 <= a < |lines| ==> lines[a].y < y
  }

  /** No line is above line `y`. */
  predicate NotAbove(lines: seq<Line>, y: int) {
    forall a :: 0 <= a < |lines| ==> y <= lines[a].y
  }

  /** Two descending parts, the first above line `y` and the second not,
      make a descending whole, which is above whatever the second part is. */
  lemma ConcatDescending(front: seq<Line>, back: seq<Line>, y: int, end: int)
    requires Descending(front) && Above(front, y)
    requires Descending(back) && NotAbove(back, y) && Above(back, end) && y <= end
    ensures Descending(front + back) && Above(front + back, end)
  {
  }

  /** Row `k` of a table starting on line `y0` is on line `y0 + 6k`. */
  predicate TableAt(lines: seq<Line>, start: nat, rows: seq<seq<Text>>, xs: seq<int>, y0: int)
    requires forall k :: 0 <= k < |rows| ==> |rows[k]| == |xs|
    requires start + |rows| <= |lines|
  {
    forall k :: 0 <= k < |rows| ==> lines[start + k] == Row(rows[k], xs, y0 + 6 * k)
  }

  /** The lines of a table whose first row is on line `y0`. */
  function TableLines(rows: seq<seq<Text>>, xs: seq<int>, y0: int): (lines: seq<Line>)
    requires forall k :: 0 <= k < |rows| ==> |rows[k]| == |xs|
    ensures |lines| == |rows| && TableAt(lines, 0, rows, xs, y0)
    ensures Descending(lines) && NotAbove(lines, y0) && Above(lines, y0 + 6 * |rows|)
  {
    seq(|rows|, k requires 0 <= k < |rows| => Row(rows[k], xs, y0 + 6 * k))
  }

  /** A table drawn with `forEach`, one row per line from `y0` down
      (`doc.text(String(cell), xs[i], y)` for each cell, then `y += 6`):
      the lines of the table, and `y` left on the line below the last row. */
  method Table(rows: seq<seq<Text>>, xs: seq<int>, y0: int) returns (lines: seq<Line>, y: int)
    requires forall k :: 0 <= k < |rows| ==> |rows[k]| == |xs|
    ensures lines == TableLines(rows, xs, y0) && y == y0 + 6 * |rows|
  {
    lines, y := [], y0;
    var k := 0;
    while k < |rows|
      invariant 0 <= k <= |rows|
      invariant y == y0 + 6 * k && |lines| == k
      invariant forall j :: 0 <= j < k ==> lines[j] == Row(rows[j], xs, y0 + 6 * j)
    {
      lines := lines + [Row(rows[k], xs, y)];
      y := y + 6;
      k := k + 1;
    }
  }

  /** A table placed after `prefix` and followed by `suffix` keeps its rows. */
  lemma TableShift(prefix: seq<Line>, lines: seq<Line>, suffix: seq<Line>,
                   rows: seq<seq<Text>>, xs: seq<int>, y0: int)
    requires forall k :: 0 <= k < |rows| ==> |rows[k]| == |xs|
    requires |lines| == |rows| && TableAt(lines, 0, rows, xs, y0)
    ensures TableAt(prefix + lines + suffix, |prefix|, rows, xs, y0)
  {
    var t := prefix + lines + suffix;
    forall k | 0 <= k < |rows|
      ensures t[|prefix| + k] == Row(rows[k], xs, y0 + 6 * k)
    {
      assert t[|prefix| + k] == lines[k];
    }
  }
}
