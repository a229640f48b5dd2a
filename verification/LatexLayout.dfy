/**
 Lines and layouts of formulas (packages/tui/src/latex.ts). A text is a sequence of pieces: characters,
 markers that stand for entries of the node table, and markers that a \\not has struck through. A piece
 is taken to be one column wide.
 */
module LatexLayout {
  import opened Prelude

  datatype Piece = Char(c: char) | Marker(index: nat) | Struck(index: nat, strikes: nat)

  type Text = seq<Piece>

  datatype Layout = Layout(lines: seq<Text>, width: nat, baseline: nat)

  const SPACE := Char(' ')
  const BAR := Char('\U{2500}')

  // ---------- lines ----------

  /** White space, as trim and \s understand it. */
  predicate IsSpace(c: char) {
    || c == ' ' || '\t' <= c <= '\r' || c == '\U{A0}' || c == '\U{1680}' || '\U{2000}' <= c <= '\U{200A}'
    || c == '\U{2028}' || c == '\U{2029}' || c == '\U{202F}' || c == '\U{205F}' || c == '\U{3000}' || c == '\U{FEFF}'
  }

  predicate Blank(piece: Piece) {
    piece.Char? && IsSpace(piece.c)
  }

  function Spaces(n: nat): (s: Text)
    ensures |s| == n
  {
    PadRight([], n)
  }

  /** Spaces after a line, up to a width. */
  function PadRight(line: Text, width: nat): (padded: Text)
    ensures |padded| == if |line| > width then |line| else width
    decreases width - |line|
  {
    if |line| >= width then line else PadRight(line + [SPACE], width)
  }

  lemma {:induction false} PadRightAt(line: Text, width: nat, column: nat)
    ensures At(PadRight(line, width), column) == At(line, column)
    decreases width - |line|
  {
    if |line| < width {
      PadRightAt(line + [SPACE], width, column);
    }
  }

  function TrimEnd(line: Text): Text {
    if line != [] && Blank(line[|line| - 1]) then TrimEnd(line[..|line| - 1]) else line
  }

  function TrimStart(line: Text): Text {
    if line != [] && Blank(line[0]) then TrimStart(line[1..]) else line
  }

  function Max(a: int, b: int): int {
    if a >= b then a else b
  }

  function PadLayoutLine(line: Text, width: nat, centered: bool): (padded: Text)
    ensures |padded| == if |line| > width then |line| else width
  {
    if |line| >= width then line
    else if centered then PadRight(Spaces((width - |line|) / 2) + line, width)
    else PadRight(line, width)
  }

  /** What is at a column of a line, which goes on with spaces. */
  function At(line: Text, column: nat): Piece {
    if column < |line| then line[column] else SPACE
  }

  /** The line shows the piece at the column, or ends before it and the piece is blank. */
  predicate Shows(line: Text, column: nat, piece: Piece) {
    if column < |line| then line[column] == piece else Blank(piece)
  }

  lemma {:induction false} TrimEndShows(line: Text, column: nat)
    ensures Shows(TrimEnd(line), column, At(line, column))
    ensures |TrimEnd(line)| <= |line|
    decreases |line|
  {
    if line != [] && Blank(line[|line| - 1]) {
      TrimEndShows(line[..|line| - 1], column);
    }
  }

  // ---------- joining ----------

  predicate Valid(layout: Layout) {
    layout.baseline < |layout.lines| && forall r :: 0 <= r < |layout.lines| ==> |layout.lines[r]| <= layout.width
  }

  predicate AllValid(layouts: seq<Layout>) {
    forall k :: 0 <= k < |layouts| ==> Valid(layouts[k])
  }

  /** The highest baseline of the first `n` layouts. */
  function MaxBaseline(layouts: seq<Layout>, n: nat): nat
    requires n <= |layouts|
  {
    if n == 0 then 0 else Max(MaxBaseline(layouts, n - 1), layouts[n - 1].baseline)
  }

  /** The most lines that one of the first `n` layouts has below its baseline. */
  function MaxBelow(layouts: seq<Layout>, n: nat): nat
    requires AllValid(layouts) && n <= |layouts|
  {
    if n == 0 then 0
    else Max(MaxBelow(layouts, n - 1), |layouts[n - 1].lines| - layouts[n - 1].baseline - 1)
  }

  /** The width of the first `n` layouts, which is where the next one starts. */
  function Offset(layouts: seq<Layout>, n: nat): nat
    requires n <= |layouts|
  {
    if n == 0 then 0 else Offset(layouts, n - 1) + layouts[n - 1].width
  }

  /** The part of a layout in a row counted from its own top. */
  function CellOf(layout: Layout, sourceRow: int): Text {
    if 0 <= sourceRow < |layout.lines| then PadLayoutLine(layout.lines[sourceRow], layout.width, false)
    else Spaces(layout.width)
  }

  /** The first `n` cells of a row. */
  function RowOf(layouts: seq<Layout>, n: nat, row: nat, baseline: nat): Text
    requires n <= |layouts|
  {
    if n == 0 then []
    else RowOf(layouts, n - 1, row, baseline) + CellOf(layouts[n - 1], row - baseline + layouts[n - 1].baseline)
  }

  function JoinedRows(layouts: seq<Layout>, baseline: nat, rows: nat): (lines: seq<Text>)
    ensures |lines| == rows
  {
    if rows == 0 then []
    else JoinedRows(layouts, baseline, rows - 1) + [TrimEnd(RowOf(layouts, |layouts|, rows - 1, baseline))]
  }

  lemma {:induction false} JoinedRowAt(layouts: seq<Layout>, baseline: nat, rows: nat, r: nat)
    requires r < rows
    ensures JoinedRows(layouts, baseline, rows)[r] == TrimEnd(RowOf(layouts, |layouts|, r, baseline))
    decreases rows
  {
    if r < rows - 1 {
      JoinedRowAt(layouts, baseline, rows - 1, r);
    }
  }

  /** The layouts beside one another, by their baselines, in the given number of rows. */
  function JoinedIn(layouts: seq<Layout>, baseline: nat, rows: nat): (joined: Layout)
    ensures joined.baseline == baseline && joined.lines == JoinedRows(layouts, baseline, rows)
  {
    Layout(JoinedRows(layouts, baseline, rows), Offset(layouts, |layouts|), baseline)
  }

  function Joined(layouts: seq<Layout>): Layout
    requires AllValid(layouts)
  {
    if layouts == [] then Layout([[]], 0, 0)
    else
      var baseline := MaxBaseline(layouts, |layouts|);
      JoinedIn(layouts, baseline, baseline + MaxBelow(layouts, |layouts|) + 1)
  }

  /** The maxima and the sum that `joinLayouts` computes first. */
  method Measure(layouts: seq<Layout>) returns (baseline: nat, below: nat, width: nat)
    requires AllValid(layouts)
    ensures baseline == MaxBaseline(layouts, |layouts|) && below == MaxBelow(layouts, |layouts|)
    ensures width == Offset(layouts, |layouts|)
  {
    baseline, below, width := 0, 0, 0;
    for k := 0 to |layouts|
      invariant baseline == MaxBaseline(layouts, k) && below == MaxBelow(layouts, k) && width == Offset(layouts, k)
    {
      var layout := layouts[k];
      baseline := Max(baseline, layout.baseline);
      below := Max(below, |layout.lines| - layout.baseline - 1);
      width := width + layout.width;
    }
  }

  method JoinRow(layouts: seq<Layout>, row: nat, baseline: nat) returns (line: Text)
    ensures line == RowOf(layouts, |layouts|, row, baseline)
  {
    line := [];
    for k := 0 to |layouts|
      invariant line == RowOf(layouts, k, row, baseline)
    {
      var layout := layouts[k];
      var sourceRow := row - baseline + layout.baseline;
      line := line + if 0 <= sourceRow < |layout.lines|
                     then PadLayoutLine(layout.lines[sourceRow], layout.width, false)
                     else Spaces(layout.width);
    }
  }

  method JoinLayouts(layouts: seq<Layout>) returns (joined: Layout)
    requires AllValid(layouts)
    ensures joined == Joined(layouts)
  {
    if |layouts| == 0 {
      return Layout([[]], 0, 0);
    }
    var baseline, below, width := Measure(layouts);
    var lines: seq<Text> := [];
    for row := 0 to baseline + below + 1
      invariant lines == JoinedRows(layouts, baseline, row)
    {
      var line := JoinRow(layouts, row, baseline);
      lines := lines + [TrimEnd(line)];
    }
    joined := Layout(lines, width, baseline);
  }

  lemma CellIsWide(layout: Layout, sourceRow: int)
    requires Valid(layout)
    ensures |CellOf(layout, sourceRow)| == layout.width
  {
  }

  lemma {:induction false} RowWidth(layouts: seq<Layout>, n: nat, row: nat, baseline: nat)
    requires AllValid(layouts) && n <= |layouts|
    ensures |RowOf(layouts, n, row, baseline)| == Offset(layouts, n)
    decreases n
  {
    if n > 0 {
      RowWidth(layouts, n - 1, row, baseline);
      CellIsWide(layouts[n - 1], row - baseline + layouts[n - 1].baseline);
    }
  }

  lemma JoinedLine(layouts: seq<Layout>, row: nat)
    requires AllValid(layouts) && layouts != [] && row < |Joined(layouts).lines|
    ensures Joined(layouts).baseline == MaxBaseline(layouts, |layouts|)
    ensures Joined(layouts).lines[row] == TrimEnd(RowOf(layouts, |layouts|, row, Joined(layouts).baseline))
  {
    JoinedInAt(layouts, MaxBaseline(layouts, |layouts|), MaxBaseline(layouts, |layouts|) + MaxBelow(layouts, |layouts|) + 1, row);
  }

  lemma JoinedInAt(layouts: seq<Layout>, baseline: nat, rows: nat, row: nat)
    requires row < rows
    ensures var joined := JoinedIn(layouts, baseline, rows);
            |joined.lines| == rows && joined.lines[row] == TrimEnd(RowOf(layouts, |layouts|, row, baseline))
  {
    JoinedRowAt(layouts, baseline, rows, row);
  }

  /** Rows and baseline of a joined layout, and that it is a proper layout again. */
  lemma JoinedIsValid(layouts: seq<Layout>)
    requires AllValid(layouts)
    ensures Valid(Joined(layouts))
    ensures layouts != [] ==> |Joined(layouts).lines| == MaxBaseline(layouts, |layouts|) + MaxBelow(layouts, |layouts|) + 1
    ensures Joined(layouts).baseline == MaxBaseline(layouts, |layouts|)
  {
    if layouts != [] {
      var baseline := MaxBaseline(layouts, |layouts|);
      forall r | 0 <= r < |Joined(layouts).lines| ensures |Joined(layouts).lines[r]| <= Joined(layouts).width {
        JoinedLine(layouts, r);
        RowWidth(layouts, |layouts|, r, baseline);
        TrimEndShows(RowOf(layouts, |layouts|, r, baseline), 0);
      }
    }
  }

  /** The maxima are reached, and by nothing exceeded. */
  lemma {:induction false} MaximaBound(layouts: seq<Layout>, n: nat, k: nat)
    requires AllValid(layouts) && k < n <= |layouts|
    ensures layouts[k].baseline <= MaxBaseline(layouts, n)
    ensures |layouts[k].lines| - layouts[k].baseline - 1 <= MaxBelow(layouts, n)
    decreases n
  {
    if k < n - 1 {
      MaximaBound(layouts, n - 1, k);
    }
  }

  lemma {:induction false} MaximaReached(layouts: seq<Layout>, n: nat) returns (highest: nat, deepest: nat)
    requires AllValid(layouts) && 0 < n <= |layouts|
    ensures highest < n && layouts[highest].baseline == MaxBaseline(layouts, n)
    ensures deepest < n && |layouts[deepest].lines| - layouts[deepest].baseline - 1 == MaxBelow(layouts, n)
    decreases n
  {
    highest, deepest := n - 1, n - 1;
    if n > 1 {
      var h, d := MaximaReached(layouts, n - 1);
      if layouts[n - 1].baseline < MaxBaseline(layouts, n - 1) {
        highest := h;
      }
      if |layouts[n - 1].lines| - layouts[n - 1].baseline - 1 < MaxBelow(layouts, n - 1) {
        deepest := d;
      }
    }
  }

  lemma AtLeft(left: Text, right: Text, column: nat)
    requires column < |left|
    ensures At(left + right, column) == At(left, column)
  {
  }

  lemma AtRight(left: Text, right: Text, column: nat)
    requires column < |right|
    ensures At(left + right, |left| + column) == At(right, column)
  {
  }

  lemma {:induction false} OffsetGrows(layouts: seq<Layout>, k: nat, n: nat)
    requires k < n <= |layouts|
    ensures Offset(layouts, k) + layouts[k].width <= Offset(layouts, n)
    decreases n
  {
    if k < n - 1 {
      OffsetGrows(layouts, k, n - 1);
    }
  }

  /** A row shows each part from the sum of the widths before it on. */
  lemma {:induction false} RowShowsPart(layouts: seq<Layout>, n: nat, row: nat, baseline: nat, k: nat, column: nat)
    requires AllValid(layouts) && k < n <= |layouts| && column < layouts[k].width
    ensures At(RowOf(layouts, n, row, baseline), Offset(layouts, k) + column) ==
            At(CellOf(layouts[k], row - baseline + layouts[k].baseline), column)
    decreases n
  {
    var last := layouts[n - 1];
    var cell := CellOf(last, row - baseline + last.baseline);
    RowWidth(layouts, n - 1, row, baseline);
    if k == n - 1 {
      CellIsWide(last, row - baseline + last.baseline);
      AtRight(RowOf(layouts, n - 1, row, baseline), cell, column);
    } else {
      OffsetGrows(layouts, k, n - 1);
      RowShowsPart(layouts, n - 1, row, baseline, k, column);
      AtLeft(RowOf(layouts, n - 1, row, baseline), cell, Offset(layouts, k) + column);
    }
  }

  /** What a part shows in one of its rows, or above or below it. */
  function PartAt(part: Layout, own: int, column: nat): Piece {
    if 0 <= own < |part.lines| then At(part.lines[own], column) else SPACE
  }

  lemma CellShowsLine(layout: Layout, sourceRow: int, column: nat)
    requires Valid(layout)
    ensures At(CellOf(layout, sourceRow), column) == PartAt(layout, sourceRow, column)
  {
    PadRightAt([], layout.width, column);
    if 0 <= sourceRow < |layout.lines| {
      PadRightAt(layout.lines[sourceRow], layout.width, column);
    }
  }

  lemma TrimmedShows(line: Text, shown: Text, column: nat, expected: Piece)
    requires line == TrimEnd(shown) && At(shown, column) == expected
    ensures Shows(line, column, expected)
  {
    TrimEndShows(shown, column);
  }

  /** Each part is placed by the common baseline, starting at the sum of the widths before it: its row r
      is in row r plus the difference of the baselines, piece by piece, and where it has no row there are
      spaces. A line may end early where only blanks would follow. */
  lemma PartsArePlaced(layouts: seq<Layout>, k: nat, row: nat, column: nat)
    requires AllValid(layouts) && k < |layouts| && column < layouts[k].width
    requires row < |Joined(layouts).lines|
    ensures Shows(Joined(layouts).lines[row], Offset(layouts, k) + column,
                  PartAt(layouts[k], row - Joined(layouts).baseline + layouts[k].baseline, column))
  {
    var baseline := MaxBaseline(layouts, |layouts|);
    JoinedInShows(layouts, baseline, baseline + MaxBelow(layouts, |layouts|) + 1, k, row, column);
  }

  lemma JoinedInShows(layouts: seq<Layout>, baseline: nat, rows: nat, k: nat, row: nat, column: nat)
    requires AllValid(layouts) && k < |layouts| && column < layouts[k].width && row < rows
    ensures row < |JoinedIn(layouts, baseline, rows).lines|
    ensures Shows(JoinedIn(layouts, baseline, rows).lines[row], Offset(layouts, k) + column,
                  PartAt(layouts[k], row - baseline + layouts[k].baseline, column))
  {
    RowShowsLine(layouts, row, baseline, k, column);
    JoinedInAt(layouts, baseline, rows, row);
    TrimmedShows(JoinedIn(layouts, baseline, rows).lines[row], RowOf(layouts, |layouts|, row, baseline),
                 Offset(layouts, k) + column, PartAt(layouts[k], row - baseline + layouts[k].baseline, column));
  }

  lemma RowShowsLine(layouts: seq<Layout>, row: nat, baseline: nat, k: nat, column: nat)
    requires AllValid(layouts) && k < |layouts| && column < layouts[k].width
    ensures At(RowOf(layouts, |layouts|, row, baseline), Offset(layouts, k) + column) ==
            PartAt(layouts[k], row - baseline + layouts[k].baseline, column)
  {
    RowShowsPart(layouts, |layouts|, row, baseline, k, column);
    CellShowsLine(layouts[k], row - baseline + layouts[k].baseline, column);
  }

  /** No row of any part is lost, and the first and the last row are needed. */
  lemma EveryRowHasAPlace(layouts: seq<Layout>, k: nat, own: nat)
    requires AllValid(layouts) && k < |layouts| && own < |layouts[k].lines|
    ensures 0 <= own + Joined(layouts).baseline - layouts[k].baseline < |Joined(layouts).lines|
  {
    MaximaBound(layouts, |layouts|, k);
  }
}
