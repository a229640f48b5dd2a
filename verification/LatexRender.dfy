/**
 Rendering of formulas with a node table (`renderLayout` in packages/tui/src/latex.ts): which markers a
 text holds, exactly when the recursion through fractions ends, and exactly when all markers go.
 */
module LatexRender {
  import opened Prelude
  import opened LatexLayout

  datatype Node =
    | Fraction(numerator: Text, denominator: Text)
    | Operator(operator: Text, lower: Option<Text>, upper: Option<Text>)
    | Matrix(lines: seq<Text>, matrixBaseline: nat)

  const MARKER_START := Char('\U{F0000}')
  const MARKER_END := Char('\U{F0001}')

  /** A matrix has a line at its baseline. */
  predicate MatricesFit(nodes: seq<Node>) {
    forall i :: 0 <= i < |nodes| && nodes[i].Matrix? ==> nodes[i].matrixBaseline < |nodes[i].lines|
  }

  // ---------- the markers of a text ----------

  predicate IsDigit(piece: Piece) {
    piece.Char? && '0' <= piece.c <= '9'
  }

  /** The end of the digits from a position on. */
  function DigitsEnd(text: Text, from: nat): (end: nat)
    requires from <= |text|
    ensures from <= end <= |text| && forall i :: from <= i < end ==> IsDigit(text[i])
    decreases |text| - from
  {
    if from < |text| && IsDigit(text[from]) then DigitsEnd(text, from + 1) else from
  }

  function NumberOf(digits: Text): nat
    requires forall i :: 0 <= i < |digits| ==> IsDigit(digits[i])
  {
    if digits == [] then 0
    else
      assert IsDigit(digits[|digits| - 1]);
      10 * NumberOf(digits[..|digits| - 1]) + (digits[|digits| - 1].c as int - '0' as int)
  }

  /** A marker written out in characters at the start of the text: the number it names, and its length. */
  function Spelled(text: Text): (r: Option<(nat, nat)>)
    ensures r.Some? ==> text != [] && text[0] == MARKER_START && 0 < r.value.1 <= |text|
  {
    if text == [] || text[0] != MARKER_START then None
    else
      var end := DigitsEnd(text, 1);
      if end == 1 || end == |text| || text[end] != MARKER_END then None
      else Some((NumberOf(text[1..end]), end + 1))
  }

  /** The text as the marker pattern sees it: a marker that is written out counts like any other if it
      names one of the `count` nodes. */
  function Scan(text: Text, count: nat): (scanned: Text)
    decreases |text|
  {
    if text == [] then []
    else if Spelled(text).Some? && Spelled(text).value.0 < count then
      [Marker(Spelled(text).value.0)] + Scan(text[Spelled(text).value.1..], count)
    else [text[0]] + Scan(text[1..], count)
  }

  /** The start of the digits up to a position. */
  function DigitsStart(text: Text, end: nat): (start: nat)
    requires end <= |text|
    ensures start <= end && forall i :: start <= i < end ==> IsDigit(text[i])
  {
    if end > 0 && IsDigit(text[end - 1]) then DigitsStart(text, end - 1) else end
  }

  /** The number that a marker at the end of the text names, also one that is written out. */
  function TrailingMarker(text: Text): Option<nat> {
    if text == [] then None
    else
      var last := |text| - 1;
      if text[last].Marker? then Some(text[last].index)
      else if text[last] != MARKER_END then None
      else
        var start := DigitsStart(text, last);
        if start == last || start == 0 || text[start - 1] != MARKER_START then None
        else Some(NumberOf(text[start..last]))
  }

  /** Without the character that starts a marker nothing is written out. */
  lemma {:induction false} ScanOfClean(text: Text, count: nat)
    requires forall i :: 0 <= i < |text| ==> text[i] != MARKER_START
    ensures Scan(text, count) == text
    decreases |text|
  {
    if text != [] {
      ScanOfClean(text[1..], count);
    }
  }

  // ---------- termination ----------

  predicate NamesFraction(piece: Piece, nodes: seq<Node>) {
    piece.Marker? && piece.index < |nodes| && nodes[piece.index].Fraction?
  }

  /** Rendering the pieces enters fractions at most `depth` deep. */
  predicate Ends(pieces: Text, nodes: seq<Node>, depth: nat)
    decreases depth, 0
  {
    forall k :: 0 <= k < |pieces| && NamesFraction(pieces[k], nodes) ==> depth > 0 && FractionEnds(nodes, pieces[k].index, depth - 1)
  }

  predicate FractionEnds(nodes: seq<Node>, index: nat, depth: nat)
    requires index < |nodes| && nodes[index].Fraction?
    decreases depth, 1
  {
    Ends(Scan(nodes[index].numerator, |nodes|), nodes, depth) && Ends(Scan(nodes[index].denominator, |nodes|), nodes, depth)
  }

  lemma {:induction false} EndsDeeper(pieces: Text, nodes: seq<Node>, depth: nat, more: nat)
    requires Ends(pieces, nodes, depth) && depth <= more
    ensures Ends(pieces, nodes, more)
    decreases depth, 0
  {
    forall k | 0 <= k < |pieces| && NamesFraction(pieces[k], nodes) ensures more > 0 && FractionEnds(nodes, pieces[k].index, more - 1) {
      FractionEndsDeeper(nodes, pieces[k].index, depth - 1, more - 1);
    }
  }

  lemma FractionEndsDeeper(nodes: seq<Node>, index: nat, depth: nat, more: nat)
    requires index < |nodes| && nodes[index].Fraction? && FractionEnds(nodes, index, depth) && depth <= more
    ensures FractionEnds(nodes, index, more)
    decreases depth, 1
  {
    EndsDeeper(Scan(nodes[index].numerator, |nodes|), nodes, depth, more);
    EndsDeeper(Scan(nodes[index].denominator, |nodes|), nodes, depth, more);
  }

  function Left(nodes: seq<Node>, path: set<nat>): set<nat> {
    set i | 0 <= i < |nodes| && i !in path
  }

  /** No fraction is met again inside itself; `path` holds the fractions around the pieces. */
  predicate NoCycle(pieces: Text, nodes: seq<Node>, path: set<nat>)
    decreases Left(nodes, path), 1
  {
    forall k :: 0 <= k < |pieces| && NamesFraction(pieces[k], nodes) ==> Unmet(nodes, path, pieces[k].index)
  }

  predicate Unmet(nodes: seq<Node>, path: set<nat>, index: nat)
    requires index < |nodes| && nodes[index].Fraction?
    decreases Left(nodes, path), 0
  {
    index !in path
    && (assert index in Left(nodes, path) && index !in Left(nodes, path + {index});
        NoCycle(Scan(nodes[index].numerator, |nodes|), nodes, path + {index})
        && NoCycle(Scan(nodes[index].denominator, |nodes|), nodes, path + {index}))
  }

  /** No fraction of the path ends within the depth. */
  predicate Deeper(nodes: seq<Node>, path: set<nat>, depth: nat) {
    forall i :: i in path ==> i < |nodes| && nodes[i].Fraction? && !FractionEnds(nodes, i, depth)
  }

  lemma {:induction false} LeastDepth(nodes: seq<Node>, index: nat, depth: nat) returns (least: nat)
    requires index < |nodes| && nodes[index].Fraction? && FractionEnds(nodes, index, depth)
    ensures least <= depth && FractionEnds(nodes, index, least)
    ensures least > 0 ==> !FractionEnds(nodes, index, least - 1)
    decreases depth
  {
    if depth > 0 && FractionEnds(nodes, index, depth - 1) {
      least := LeastDepth(nodes, index, depth - 1);
    } else {
      least := depth;
    }
  }

  /** A recursion that ends meets no fraction inside itself, because each needs less depth than the ones
      around it. */
  lemma {:induction false} EndingHasNoCycle(pieces: Text, nodes: seq<Node>, depth: nat, path: set<nat>)
    requires Ends(pieces, nodes, depth) && (depth > 0 ==> Deeper(nodes, path, depth - 1))
    ensures NoCycle(pieces, nodes, path)
    decreases depth
  {
    forall k | 0 <= k < |pieces| && NamesFraction(pieces[k], nodes) ensures Unmet(nodes, path, pieces[k].index) {
      var index := pieces[k].index;
      assert FractionEnds(nodes, index, depth - 1) && index !in path;
      var least := LeastDepth(nodes, index, depth - 1);
      if least > 0 {
        forall i | i in path + {index} ensures !FractionEnds(nodes, i, least - 1) {
          if i in path && FractionEnds(nodes, i, least - 1) {
            FractionEndsDeeper(nodes, i, least - 1, depth - 1);
          }
        }
        assert Deeper(nodes, path + {index}, least - 1);
      }
      EndingHasNoCycle(Scan(nodes[index].numerator, |nodes|), nodes, least, path + {index});
      EndingHasNoCycle(Scan(nodes[index].denominator, |nodes|), nodes, least, path + {index});
      assert Unmet(nodes, path, index);
    }
  }

  lemma {:induction false} NoCycleEnds(pieces: Text, nodes: seq<Node>, path: set<nat>)
    requires NoCycle(pieces, nodes, path)
    ensures Ends(pieces, nodes, |Left(nodes, path)|)
    decreases Left(nodes, path), 1
  {
    var depth := |Left(nodes, path)|;
    forall k | 0 <= k < |pieces| && NamesFraction(pieces[k], nodes)
      ensures depth > 0 && FractionEnds(nodes, pieces[k].index, depth - 1)
    {
      UnmetEnds(nodes, path, pieces[k].index);
    }
  }

  lemma {:induction false} UnmetEnds(nodes: seq<Node>, path: set<nat>, index: nat)
    requires index < |nodes| && nodes[index].Fraction? && Unmet(nodes, path, index)
    ensures |Left(nodes, path)| > 0 && FractionEnds(nodes, index, |Left(nodes, path)| - 1)
    decreases Left(nodes, path), 0
  {
    assert index in Left(nodes, path);
    assert Left(nodes, path + {index}) == Left(nodes, path) - {index};
    NoCycleEnds(Scan(nodes[index].numerator, |nodes|), nodes, path + {index});
    NoCycleEnds(Scan(nodes[index].denominator, |nodes|), nodes, path + {index});
  }

  /** Rendering ends exactly if no fraction is met again inside itself. */
  lemma EndsIffNoCycle(pieces: Text, nodes: seq<Node>)
    ensures (exists depth: nat :: Ends(pieces, nodes, depth)) <==> NoCycle(pieces, nodes, {})
  {
    if depth: nat :| Ends(pieces, nodes, depth) {
      EndingHasNoCycle(pieces, nodes, depth, {});
    }
    if NoCycle(pieces, nodes, {}) {
      NoCycleEnds(pieces, nodes, {});
      var depth: nat := |Left(nodes, {})|;
      assert Ends(pieces, nodes, depth);
    }
  }

  /** All markers, also those written out, name entries below a bound. */
  predicate NamesBelow(pieces: Text, bound: nat) {
    forall i :: 0 <= i < |pieces| && pieces[i].Marker? ==> pieces[i].index < bound
  }

  /** The markers inside a fraction name earlier nodes. */
  predicate FractionsPointBack(nodes: seq<Node>) {
    forall i :: 0 <= i < |nodes| && nodes[i].Fraction? ==>
                  NamesBelow(Scan(nodes[i].numerator, |nodes|), i) && NamesBelow(Scan(nodes[i].denominator, |nodes|), i)
  }

  /** Fractions that point back make every rendering end. */
  lemma {:induction false} PointingBackEnds(pieces: Text, nodes: seq<Node>, bound: nat)
    requires FractionsPointBack(nodes) && NamesBelow(pieces, bound)
    ensures Ends(pieces, nodes, bound)
    decreases bound
  {
    forall k | 0 <= k < |pieces| && NamesFraction(pieces[k], nodes)
      ensures bound > 0 && FractionEnds(nodes, pieces[k].index, bound - 1)
    {
      var index := pieces[k].index;
      PointingBackEnds(Scan(nodes[index].numerator, |nodes|), nodes, index);
      PointingBackEnds(Scan(nodes[index].denominator, |nodes|), nodes, index);
      FractionEndsDeeper(nodes, index, index, bound - 1);
    }
  }

  // ---------- rendering ----------

  function Split(source: Text): (lines: seq<Text>)
    ensures |lines| > 0
  {
    if source == [] then [[]]
    else
      var rest := Split(source[1..]);
      if source[0] == Char('\n') then [[]] + rest else [[source[0]] + rest[0]] + rest[1..]
  }

  predicate AllEnd(lines: seq<Text>, nodes: seq<Node>, depth: nat) {
    forall l :: 0 <= l < |lines| ==> Ends(lines[l], nodes, depth)
  }

  lemma {:induction false} SplitEnds(source: Text, nodes: seq<Node>, depth: nat)
    requires Ends(source, nodes, depth)
    ensures AllEnd(Split(source), nodes, depth)
    decreases |source|
  {
    if source != [] {
      RestEnds(source, nodes, depth);
      SplitEnds(source[1..], nodes, depth);
      var rest := Split(source[1..]);
      assert Ends(rest[0], nodes, depth);
      FirstEnds(source[0], rest[0], nodes, depth);
    }
  }

  lemma RestEnds(source: Text, nodes: seq<Node>, depth: nat)
    requires source != [] && Ends(source, nodes, depth)
    ensures Ends(source[1..], nodes, depth) && Ends([source[0]], nodes, depth)
  {
    forall k | 0 <= k < |source| - 1 && NamesFraction(source[1..][k], nodes)
      ensures depth > 0 && FractionEnds(nodes, source[1..][k].index, depth - 1)
    {
      assert source[1..][k] == source[k + 1];
    }
  }

  lemma FirstEnds(first: Piece, rest: Text, nodes: seq<Node>, depth: nat)
    requires Ends([first], nodes, depth) && Ends(rest, nodes, depth)
    ensures Ends([first] + rest, nodes, depth)
  {
    var all := [first] + rest;
    forall k | 0 <= k < |all| && NamesFraction(all[k], nodes) ensures depth > 0 && FractionEnds(nodes, all[k].index, depth - 1) {
      if k == 0 {
        assert [first][0] == all[0];
      } else {
        assert rest[k - 1] == all[k];
      }
    }
  }

  function TextLayout(text: Text): Layout {
    Layout([text], |text|, 0)
  }

  /** The text between two nodes, or before the first. */
  function Between(sliced: Text, previous: Option<Node>, next: Node): Text {
    var trimmed := TrimEnd(if previous.Some? then TrimStart(sliced) else sliced);
    var leading := previous.Some? && previous.value.Matrix? && sliced != [] && Blank(sliced[0]);
    var trailing := next.Matrix? && sliced != [] && Blank(sliced[|sliced| - 1]);
    if trimmed != [] then (if leading then [SPACE] else []) + trimmed + (if trailing then [SPACE] else [])
    else if leading || trailing then [SPACE] else []
  }

  /** The text after the last node. */
  function Tail(sliced: Text, previous: Option<Node>): Text {
    var trimmed := if previous.Some? then TrimStart(sliced) else sliced;
    if previous.Some? && previous.value.Matrix? && sliced != [] && Blank(sliced[0]) then [SPACE] + trimmed else trimmed
  }

  function PadAll(lines: seq<Text>, width: nat, centered: bool): (padded: seq<Text>)
    ensures |padded| == |lines|
  {
    seq(|lines|, r requires 0 <= r < |lines| => PadLayoutLine(lines[r], width, centered))
  }

  function FractionLayout(numerator: Layout, denominator: Layout): Layout {
    var contentWidth := Max(Max(numerator.width, denominator.width), 1);
    Layout(PadAll(numerator.lines, contentWidth + 2, true) + [[SPACE] + seq(contentWidth, _ => BAR) + [SPACE]]
           + PadAll(denominator.lines, contentWidth + 2, true),
           contentWidth + 2, |numerator.lines|)
  }

  function Centred(line: Text, width: nat): Text {
    PadLayoutLine(line, width, true) + [SPACE]
  }

  function OperatorLayout(operator: Text, lower: Option<Text>, upper: Option<Text>): Layout {
    var contentWidth := Max(|operator|, Max(|lower.GetOr([])|, |upper.GetOr([])|));
    Layout((if upper.Some? then [Centred(upper.value, contentWidth)] else []) + [Centred(operator, contentWidth)]
           + (if lower.Some? then [Centred(lower.value, contentWidth)] else []),
           contentWidth + 1, if upper.None? then 0 else 1)
  }

  function Widest(lines: seq<Text>): nat {
    if lines == [] then 0 else Max(Widest(lines[..|lines| - 1]), |lines[|lines| - 1]|)
  }

  function MatrixLayout(lines: seq<Text>, baseline: nat): Layout {
    Layout(PadAll(lines, Widest(lines), false), Widest(lines), baseline)
  }

  /** What can be entered: any node but a fraction, or a fraction that ends. */
  predicate MayEnter(nodes: seq<Node>, index: nat, depth: nat) {
    index < |nodes| && (nodes[index].Fraction? ==> depth > 0 && FractionEnds(nodes, index, depth - 1))
  }

  function NodeLayout(nodes: seq<Node>, index: nat, depth: nat): (layout: Layout)
    requires MatricesFit(nodes) && MayEnter(nodes, index, depth)
    ensures Valid(layout)
    decreases depth, 0, 0
  {
    match nodes[index]
    case Fraction(numerator, denominator) =>
      var n, d := Rendered(numerator, nodes, depth - 1), Rendered(denominator, nodes, depth - 1);
      FractionIsValid(n, d);
      FractionLayout(n, d)
    case Operator(operator, lower, upper) => OperatorLayout(operator, lower, upper)
    case Matrix(lines, baseline) =>
      WidestBounds(lines);
      MatrixLayout(lines, baseline)
  }

  /** The layouts of a line from `rest` on, after the text `sliced` that follows the node `previous`. A
      marker of no node is text. */
  function Parts(rest: Text, sliced: Text, previous: Option<Node>, nodes: seq<Node>, depth: nat): (layouts: seq<Layout>)
    requires MatricesFit(nodes) && Ends(rest, nodes, depth)
    ensures AllValid(layouts)
    decreases depth, 1, |rest|
  {
    if rest == [] then if sliced == [] then [] else [TextLayout(Tail(sliced, previous))]
    else
      RestEnds(rest, nodes, depth);
      if !rest[0].Marker? || rest[0].index >= |nodes| then Parts(rest[1..], sliced + [rest[0]], previous, nodes, depth)
      else
        var node := nodes[rest[0].index];
        assert NamesFraction(rest[0], nodes) <==> node.Fraction?;
        (if sliced == [] then [] else [TextLayout(Between(sliced, previous, node))])
        + [NodeLayout(nodes, rest[0].index, depth)]
        + Parts(rest[1..], [], Some(node), nodes, depth)
  }

  function RenderedLine(line: Text, nodes: seq<Node>, depth: nat): (layout: Layout)
    requires MatricesFit(nodes) && Ends(line, nodes, depth)
    ensures Valid(layout)
    decreases depth, 2, 0
  {
    JoinedIsValid(Parts(line, [], None, nodes, depth));
    Joined(Parts(line, [], None, nodes, depth))
  }

  /** The rendered lines of the first `n` source lines. */
  function RenderedLines(lines: seq<Text>, n: nat, nodes: seq<Node>, depth: nat): (rendered: seq<Text>)
    requires MatricesFit(nodes) && AllEnd(lines, nodes, depth) && n <= |lines|
    ensures |rendered| >= n
    ensures n > 0 ==> |rendered| >= |RenderedLine(lines[0], nodes, depth).lines|
    decreases depth, 3, n
  {
    if n == 0 then [] else RenderedLines(lines, n - 1, nodes, depth) + RenderedLine(lines[n - 1], nodes, depth).lines
  }

  /** The layout of a text, for any table and any text whose rendering ends. */
  function Rendered(source: Text, nodes: seq<Node>, depth: nat): (layout: Layout)
    requires MatricesFit(nodes) && Ends(Scan(source, |nodes|), nodes, depth)
    ensures Valid(layout)
    decreases depth, 4, 0
  {
    var sourceLines := Split(Scan(source, |nodes|));
    SplitEnds(Scan(source, |nodes|), nodes, depth);
    var lines := RenderedLines(sourceLines, |sourceLines|, nodes, depth);
    WidestBounds(lines);
    Layout(lines, Widest(lines), RenderedLine(sourceLines[0], nodes, depth).baseline)
  }

  lemma {:induction false} WidestBounds(lines: seq<Text>)
    ensures forall r :: 0 <= r < |lines| ==> |lines[r]| <= Widest(lines)
    decreases |lines|
  {
    if lines != [] {
      WidestBounds(lines[..|lines| - 1]);
    }
  }

  lemma FractionIsValid(numerator: Layout, denominator: Layout)
    requires Valid(numerator) && Valid(denominator)
    ensures Valid(FractionLayout(numerator, denominator))
  {
  }

  /** The bar of a fraction lies in the common baseline row, wherever the fraction stands. */
  lemma BarIsAtTheBaseline(layouts: seq<Layout>, k: nat, numerator: Layout, denominator: Layout, column: nat)
    requires AllValid(layouts) && k < |layouts| && Valid(numerator) && Valid(denominator)
    requires layouts[k] == FractionLayout(numerator, denominator) && 0 < column < layouts[k].width - 1
    ensures At(Joined(layouts).lines[Joined(layouts).baseline], Offset(layouts, k) + column) == BAR
  {
    PartsArePlaced(layouts, k, Joined(layouts).baseline, column);
    assert layouts[k].lines[|numerator.lines|] == [SPACE] + seq(layouts[k].width - 2, _ => BAR) + [SPACE];
  }

  // ---------- rendering in loops ----------

  /** The inner loop of `renderLayout`, over the markers of a line. */
  method LineLayouts(line: Text, nodes: seq<Node>, ghost depth: nat) returns (layouts: seq<Layout>)
    requires MatricesFit(nodes) && Ends(line, nodes, depth)
    ensures layouts == Parts(line, [], None, nodes, depth)
    decreases depth, 1
  {
    layouts := [];
    var position := 0;
    var previousNode: Option<Node> := None;
    assert line[0..] == line && line[0..0] == [];
    for index := 0 to |line|
      invariant 0 <= position <= index
      invariant Ends(line[index..], nodes, depth)
      invariant layouts + Parts(line[index..], line[position..index], previousNode, nodes, depth) ==
                Parts(line, [], None, nodes, depth)
    {
      ghost var rest, soFar := line[index..], layouts;
      assert rest[0] == line[index] && rest[1..] == line[index + 1..];
      assert line[position..index] + [line[index]] == line[position..index + 1];
      RestEnds(rest, nodes, depth);
      if !line[index].Marker? || line[index].index >= |nodes| {
        continue;
      }
      var node := nodes[line[index].index];
      assert NamesFraction(rest[0], nodes) <==> node.Fraction?;
      if index > position {
        layouts := layouts + [TextLayout(Between(line[position..index], previousNode, node))];
      }
      var layout := LayoutOfNode(nodes, line[index].index, depth);
      layouts := layouts + [layout];
      PartsFollow(soFar, if index > position then [TextLayout(Between(line[position..index], previousNode, node))] else [],
                  layout, Parts(rest[1..], [], Some(node), nodes, depth));
      position := index + 1;
      previousNode := Some(node);
      assert line[position..index + 1] == [];
    }
    assert line[|line|..] == [] && line[position..|line|] == line[position..];
    if position < |line| {
      layouts := layouts + [TextLayout(Tail(line[position..], previousNode))];
    } else {
      assert layouts + [] == layouts;
    }
  }

  lemma PartsFollow(soFar: seq<Layout>, text: seq<Layout>, node: Layout, rest: seq<Layout>)
    ensures soFar + (text + [node] + rest) == soFar + text + [node] + rest
    ensures soFar + [] == soFar
  {
  }

  method LayoutOfNode(nodes: seq<Node>, index: nat, ghost depth: nat) returns (layout: Layout)
    requires MatricesFit(nodes) && MayEnter(nodes, index, depth)
    ensures layout == NodeLayout(nodes, index, depth)
    decreases depth, 0
  {
    match nodes[index] {
      case Fraction(numerator, denominator) =>
        var top := RenderLayout(numerator, nodes, depth - 1);
        var bottom := RenderLayout(denominator, nodes, depth - 1);
        return FractionLayout(top, bottom);
      case Operator(operator, lower, upper) => return OperatorLayout(operator, lower, upper);
      case Matrix(lines, baseline) => return MatrixLayout(lines, baseline);
    }
  }

  /** `renderLayout`, where it returns. */
  method RenderLayout(source: Text, nodes: seq<Node>, ghost depth: nat) returns (layout: Layout)
    requires MatricesFit(nodes) && Ends(Scan(source, |nodes|), nodes, depth)
    ensures layout == Rendered(source, nodes, depth) && Valid(layout)
    decreases depth, 4
  {
    var sourceLines := Split(Scan(source, |nodes|));
    SplitEnds(Scan(source, |nodes|), nodes, depth);
    var renderedLines: seq<Text> := [];
    var firstBaseline := 0;
    for l := 0 to |sourceLines|
      invariant renderedLines == RenderedLines(sourceLines, l, nodes, depth)
      invariant l > 0 ==> firstBaseline == RenderedLine(sourceLines[0], nodes, depth).baseline
    {
      var layouts := LineLayouts(sourceLines[l], nodes, depth);
      var lineLayout := JoinLayouts(layouts);
      assert lineLayout == RenderedLine(sourceLines[l], nodes, depth);
      if |renderedLines| == 0 {
        firstBaseline := lineLayout.baseline;
      }
      renderedLines := renderedLines + lineLayout.lines;
    }
    layout := Layout(renderedLines, Widest(renderedLines), firstBaseline);
  }
}
