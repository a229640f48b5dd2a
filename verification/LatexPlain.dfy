/** Exactly when the rendering of a formula leaves no marker behind. */
module LatexPlain {
  import opened Prelude
  import opened LatexLayout
  import opened LatexRender

  /** Nothing but characters. */
  predicate Plain(text: Text) {
    forall i :: 0 <= i < |text| ==> text[i].Char?
  }

  predicate AllPlain(lines: seq<Text>) {
    forall r :: 0 <= r < |lines| ==> Plain(lines[r])
  }

  predicate LayoutsPlain(layouts: seq<Layout>) {
    forall k :: 0 <= k < |layouts| ==> AllPlain(layouts[k].lines)
  }

  /** All that the pieces reach is plain: no struck marker, no marker of no node, and no marker in an
      operator or a matrix. */
  predicate ReachesPlain(pieces: Text, nodes: seq<Node>, depth: nat)
    decreases depth, 1
  {
    forall k :: 0 <= k < |pieces| ==> PlainPiece(nodes, pieces[k], depth)
  }

  predicate PlainPiece(nodes: seq<Node>, piece: Piece, depth: nat)
    decreases depth, 0
  {
    match piece
    case Char(_) => true
    case Struck(_, _) => false
    case Marker(index) =>
      index < |nodes|
      && match nodes[index]
         case Fraction(numerator, denominator) =>
           depth > 0 && ReachesPlain(Scan(numerator, |nodes|), nodes, depth - 1)
           && ReachesPlain(Scan(denominator, |nodes|), nodes, depth - 1)
         case Operator(operator, lower, upper) => Plain(operator) && Plain(lower.GetOr([])) && Plain(upper.GetOr([]))
         case Matrix(lines, _) => AllPlain(lines)
  }

  // ---------- lines ----------

  lemma PlainAppend(first: Text, second: Text)
    ensures Plain(first + second) <==> Plain(first) && Plain(second)
  {
    var all := first + second;
    if Plain(all) {
      assert forall i :: 0 <= i < |first| ==> first[i] == all[i];
      assert forall i :: 0 <= i < |second| ==> second[i] == all[|first| + i];
    }
  }

  lemma OnePiecePlain(piece: Piece)
    ensures Plain([piece]) <==> piece.Char?
  {
    assert [piece][0] == piece;
  }

  lemma {:induction false} TrimEndPlain(line: Text)
    ensures Plain(TrimEnd(line)) <==> Plain(line)
    decreases |line|
  {
    if line != [] && Blank(line[|line| - 1]) {
      var before := line[..|line| - 1];
      TrimEndPlain(before);
      assert line == before + [line[|line| - 1]];
      PlainAppend(before, [line[|line| - 1]]);
    }
  }

  lemma {:induction false} TrimStartPlain(line: Text)
    ensures Plain(TrimStart(line)) <==> Plain(line)
    decreases |line|
  {
    if line != [] && Blank(line[0]) {
      TrimStartPlain(line[1..]);
      assert line == [line[0]] + line[1..];
      PlainAppend([line[0]], line[1..]);
    }
  }

  /** Only blanks are trimmed between nodes. */
  lemma BetweenPlain(sliced: Text, previous: Option<Node>, next: Node)
    ensures Plain(Between(sliced, previous, next)) <==> Plain(sliced)
  {
    var started := if previous.Some? then TrimStart(sliced) else sliced;
    var trimmed := TrimEnd(started);
    var leading := if previous.Some? && previous.value.Matrix? && sliced != [] && Blank(sliced[0]) then [SPACE] else [];
    var trailing := if next.Matrix? && sliced != [] && Blank(sliced[|sliced| - 1]) then [SPACE] else [];
    TrimStartPlain(sliced);
    TrimEndPlain(started);
    PlainAppend(leading, trimmed);
    PlainAppend(leading + trimmed, trailing);
    if trimmed != [] {
      assert Between(sliced, previous, next) == leading + trimmed + trailing;
    }
  }

  lemma TailPlain(sliced: Text, previous: Option<Node>)
    ensures Plain(Tail(sliced, previous)) <==> Plain(sliced)
  {
    TrimStartPlain(sliced);
    PlainAppend([SPACE], TrimStart(sliced));
    PlainAppend([SPACE], sliced);
  }

  lemma {:induction false} PadRightPlain(line: Text, width: nat)
    ensures Plain(PadRight(line, width)) <==> Plain(line)
    decreases width - |line|
  {
    if |line| < width {
      PadRightPlain(line + [SPACE], width);
      PlainAppend(line, [SPACE]);
    }
  }

  lemma PadPlain(line: Text, width: nat, centered: bool)
    ensures Plain(PadLayoutLine(line, width, centered)) <==> Plain(line)
  {
    PadRightPlain(line, width);
    if |line| < width {
      var left := Spaces((width - |line|) / 2);
      PadRightPlain([], (width - |line|) / 2);
      PlainAppend(left, line);
      PadRightPlain(left + line, width);
    }
  }

  lemma PadAllPlain(lines: seq<Text>, width: nat, centered: bool)
    ensures AllPlain(PadAll(lines, width, centered)) <==> AllPlain(lines)
  {
    var padded := PadAll(lines, width, centered);
    forall r | 0 <= r < |lines| ensures Plain(padded[r]) <==> Plain(lines[r]) {
      PadPlain(lines[r], width, centered);
    }
  }

  lemma AllPlainAppend(first: seq<Text>, second: seq<Text>)
    ensures AllPlain(first + second) <==> AllPlain(first) && AllPlain(second)
  {
    var all := first + second;
    if AllPlain(all) {
      assert forall i :: 0 <= i < |first| ==> first[i] == all[i];
      assert forall i :: 0 <= i < |second| ==> second[i] == all[|first| + i];
    }
  }

  // ---------- nodes ----------

  lemma FractionPlain(numerator: Layout, denominator: Layout)
    ensures AllPlain(FractionLayout(numerator, denominator).lines) <==> AllPlain(numerator.lines) && AllPlain(denominator.lines)
  {
    var width := FractionLayout(numerator, denominator).width;
    var above, below := PadAll(numerator.lines, width, true), PadAll(denominator.lines, width, true);
    var bar := [SPACE] + seq(width - 2, _ => BAR) + [SPACE];
    PadAllPlain(numerator.lines, width, true);
    PadAllPlain(denominator.lines, width, true);
    AllPlainAppend(above, [bar]);
    AllPlainAppend(above + [bar], below);
    assert Plain(bar);
  }

  lemma CentredPlain(line: Text, width: nat)
    ensures Plain(Centred(line, width)) <==> Plain(line)
  {
    PadPlain(line, width, true);
    PlainAppend(PadLayoutLine(line, width, true), [SPACE]);
  }

  lemma OperatorPlain(operator: Text, lower: Option<Text>, upper: Option<Text>)
    ensures AllPlain(OperatorLayout(operator, lower, upper).lines) <==>
            Plain(operator) && Plain(lower.GetOr([])) && Plain(upper.GetOr([]))
  {
    var width := OperatorLayout(operator, lower, upper).width - 1;
    CentredPlain(operator, width);
    CentredPlain(lower.GetOr([]), width);
    CentredPlain(upper.GetOr([]), width);
    var above := if upper.Some? then [Centred(upper.value, width)] else [];
    var below := if lower.Some? then [Centred(lower.value, width)] else [];
    AllPlainAppend(above, [Centred(operator, width)]);
    AllPlainAppend(above + [Centred(operator, width)], below);
    OnePlain(Centred(operator, width));
    OnePlain(Centred(lower.GetOr([]), width));
    OnePlain(Centred(upper.GetOr([]), width));
  }

  lemma OnePlain(line: Text)
    ensures AllPlain([line]) <==> Plain(line)
  {
    assert [line][0] == line;
  }

  // ---------- joining ----------

  lemma {:induction false} RowStaysPlain(layouts: seq<Layout>, n: nat, row: nat, baseline: nat)
    requires n <= |layouts| && LayoutsPlain(layouts)
    ensures Plain(RowOf(layouts, n, row, baseline))
    decreases n
  {
    if n > 0 {
      var last := layouts[n - 1];
      var own := row - baseline + last.baseline;
      RowStaysPlain(layouts, n - 1, row, baseline);
      PadRightPlain([], last.width);
      if 0 <= own < |last.lines| {
        PadPlain(last.lines[own], last.width, false);
      }
      PlainAppend(RowOf(layouts, n - 1, row, baseline), CellOf(last, own));
    }
  }

  lemma JoinedStaysPlain(layouts: seq<Layout>)
    requires AllValid(layouts) && LayoutsPlain(layouts)
    ensures AllPlain(Joined(layouts).lines)
  {
    if layouts != [] {
      forall r | 0 <= r < |Joined(layouts).lines| ensures Plain(Joined(layouts).lines[r]) {
        JoinedLine(layouts, r);
        RowStaysPlain(layouts, |layouts|, r, Joined(layouts).baseline);
        TrimEndPlain(RowOf(layouts, |layouts|, r, Joined(layouts).baseline));
      }
    }
  }

  /** Whatever is in a part is in the joined layout. */
  lemma PartsStayPlain(layouts: seq<Layout>)
    requires AllValid(layouts) && AllPlain(Joined(layouts).lines)
    ensures LayoutsPlain(layouts)
  {
    forall k, r, c | 0 <= k < |layouts| && 0 <= r < |layouts[k].lines| && 0 <= c < |layouts[k].lines[r]|
      ensures layouts[k].lines[r][c].Char?
    {
      var row := r + Joined(layouts).baseline - layouts[k].baseline;
      EveryRowHasAPlace(layouts, k, r);
      PartsArePlaced(layouts, k, row, c);
      assert Plain(Joined(layouts).lines[row]);
    }
  }

  lemma JoinedPlain(layouts: seq<Layout>)
    requires AllValid(layouts)
    ensures AllPlain(Joined(layouts).lines) <==> LayoutsPlain(layouts)
  {
    if LayoutsPlain(layouts) {
      JoinedStaysPlain(layouts);
    }
    if AllPlain(Joined(layouts).lines) {
      PartsStayPlain(layouts);
    }
  }

  // ---------- rendering ----------

  lemma LayoutsPlainAppend(first: seq<Layout>, second: seq<Layout>)
    ensures LayoutsPlain(first + second) <==> LayoutsPlain(first) && LayoutsPlain(second)
  {
    var all := first + second;
    if LayoutsPlain(all) {
      assert forall i :: 0 <= i < |first| ==> first[i] == all[i];
      assert forall i :: 0 <= i < |second| ==> second[i] == all[|first| + i];
    }
  }

  lemma OneLayoutPlain(layout: Layout)
    ensures LayoutsPlain([layout]) <==> AllPlain(layout.lines)
  {
    assert [layout][0] == layout;
  }

  lemma ReachesFirst(pieces: Text, nodes: seq<Node>, depth: nat)
    requires pieces != []
    ensures ReachesPlain(pieces, nodes, depth) <==> PlainPiece(nodes, pieces[0], depth) && ReachesPlain(pieces[1..], nodes, depth)
  {
    if ReachesPlain(pieces, nodes, depth) {
      assert forall k :: 0 <= k < |pieces| - 1 ==> pieces[1..][k] == pieces[k + 1];
    }
  }

  lemma NodePlain(nodes: seq<Node>, index: nat, depth: nat)
    requires MatricesFit(nodes) && MayEnter(nodes, index, depth)
    ensures AllPlain(NodeLayout(nodes, index, depth).lines) <==> PlainPiece(nodes, Marker(index), depth)
    decreases depth, 0, 0
  {
    match nodes[index] {
      case Fraction(numerator, denominator) =>
        RendersPlainIff(numerator, nodes, depth - 1);
        RendersPlainIff(denominator, nodes, depth - 1);
        FractionPlain(Rendered(numerator, nodes, depth - 1), Rendered(denominator, nodes, depth - 1));
      case Operator(operator, lower, upper) => OperatorPlain(operator, lower, upper);
      case Matrix(lines, _) => PadAllPlain(lines, Widest(lines), false);
    }
  }

  lemma {:induction false} PartsPlain(rest: Text, sliced: Text, previous: Option<Node>, nodes: seq<Node>, depth: nat)
    requires MatricesFit(nodes) && Ends(rest, nodes, depth)
    ensures LayoutsPlain(Parts(rest, sliced, previous, nodes, depth)) <==> Plain(sliced) && ReachesPlain(rest, nodes, depth)
    decreases depth, 1, |rest|
  {
    if rest == [] {
      TailPlain(sliced, previous);
      OneLayoutPlain(TextLayout(Tail(sliced, previous)));
      OnePlain(Tail(sliced, previous));
    } else {
      RestEnds(rest, nodes, depth);
      ReachesFirst(rest, nodes, depth);
      if !rest[0].Marker? || rest[0].index >= |nodes| {
        PartsPlain(rest[1..], sliced + [rest[0]], previous, nodes, depth);
        PlainAppend(sliced, [rest[0]]);
        OnePiecePlain(rest[0]);
      } else {
        var node := nodes[rest[0].index];
        assert NamesFraction(rest[0], nodes) <==> node.Fraction?;
        var text := if sliced == [] then [] else [TextLayout(Between(sliced, previous, node))];
        var layout := NodeLayout(nodes, rest[0].index, depth);
        var later := Parts(rest[1..], [], Some(node), nodes, depth);
        BetweenPlain(sliced, previous, node);
        OneLayoutPlain(TextLayout(Between(sliced, previous, node)));
        OnePlain(Between(sliced, previous, node));
        NodePlain(nodes, rest[0].index, depth);
        OneLayoutPlain(layout);
        PartsPlain(rest[1..], [], Some(node), nodes, depth);
        LayoutsPlainAppend(text, [layout]);
        LayoutsPlainAppend(text + [layout], later);
      }
    }
  }

  predicate AllReachPlain(lines: seq<Text>, nodes: seq<Node>, depth: nat) {
    forall l :: 0 <= l < |lines| ==> ReachesPlain(lines[l], nodes, depth)
  }

  lemma {:induction false} LinesPlain(lines: seq<Text>, n: nat, nodes: seq<Node>, depth: nat)
    requires MatricesFit(nodes) && AllEnd(lines, nodes, depth) && n <= |lines|
    ensures AllPlain(RenderedLines(lines, n, nodes, depth)) <==> forall l :: 0 <= l < n ==> ReachesPlain(lines[l], nodes, depth)
    decreases depth, 3, n
  {
    if n > 0 {
      LinePlain(lines[n - 1], nodes, depth);
      LinesPlain(lines, n - 1, nodes, depth);
      AllPlainAppend(RenderedLines(lines, n - 1, nodes, depth), RenderedLine(lines[n - 1], nodes, depth).lines);
    }
  }

  lemma LinePlain(line: Text, nodes: seq<Node>, depth: nat)
    requires MatricesFit(nodes) && Ends(line, nodes, depth)
    ensures AllPlain(RenderedLine(line, nodes, depth).lines) <==> ReachesPlain(line, nodes, depth)
    decreases depth, 2
  {
    PartsPlain(line, [], None, nodes, depth);
    JoinedPlain(Parts(line, [], None, nodes, depth));
  }

  lemma AllReachFirst(lines: seq<Text>, nodes: seq<Node>, depth: nat)
    requires lines != []
    ensures AllReachPlain(lines, nodes, depth) <==> ReachesPlain(lines[0], nodes, depth) && AllReachPlain(lines[1..], nodes, depth)
  {
    if AllReachPlain(lines, nodes, depth) {
      assert forall l :: 0 <= l < |lines| - 1 ==> lines[1..][l] == lines[l + 1];
    }
  }

  lemma {:induction false} SplitPlain(source: Text, nodes: seq<Node>, depth: nat)
    ensures AllReachPlain(Split(source), nodes, depth) <==> ReachesPlain(source, nodes, depth)
    decreases |source|
  {
    if source == [] {
      assert Split(source)[0] == [];
    } else {
      var rest := Split(source[1..]);
      SplitPlain(source[1..], nodes, depth);
      ReachesFirst(source, nodes, depth);
      AllReachFirst(rest, nodes, depth);
      AllReachFirst(Split(source), nodes, depth);
      if source[0] == Char('\n') {
        assert Split(source)[1..] == rest;
      } else {
        ReachesFirst([source[0]] + rest[0], nodes, depth);
        assert ([source[0]] + rest[0])[1..] == rest[0] && Split(source)[1..] == rest[1..];
      }
    }
  }

  /** Rendering leaves no marker behind exactly if all that the text reaches is plain. */
  lemma RendersPlainIff(source: Text, nodes: seq<Node>, depth: nat)
    requires MatricesFit(nodes) && Ends(Scan(source, |nodes|), nodes, depth)
    ensures AllPlain(Rendered(source, nodes, depth).lines) <==> ReachesPlain(Scan(source, |nodes|), nodes, depth)
    decreases depth, 4, 0
  {
    var scanned := Scan(source, |nodes|);
    SplitEnds(scanned, nodes, depth);
    LinesPlain(Split(scanned), |Split(scanned)|, nodes, depth);
    SplitPlain(scanned, nodes, depth);
  }
}
