/**
 Whole formulas (`renderLatex` in packages/tui/src/latex.ts): parsing, layout and the removal of the
 common indentation; when the rendering ends, and when it leaves a marker behind.
 */
module LatexFormula {
  import opened Prelude
  import opened LatexLayout
  import opened LatexRender
  import opened LatexPlain
  import opened LatexText
  import opened LatexGrammar

  // ---------- the common indentation ----------

  predicate AllBlank(line: Text) {
    forall i :: 0 <= i < |line| ==> Blank(line[i])
  }

  /** The white space that a line starts with. */
  function Leading(line: Text): (n: nat)
    ensures n <= |line| && AllBlank(line[..n]) && (n < |line| ==> !Blank(line[n]))
  {
    if line == [] || !Blank(line[0]) then 0
    else
      assert line[..Leading(line[1..]) + 1] == [line[0]] + line[1..][..Leading(line[1..])];
      Leading(line[1..]) + 1
  }

  /** The least white space that one of the first `n` lines with content starts with. */
  function Indentation(lines: seq<Text>, n: nat): (least: Option<nat>)
    requires n <= |lines|
    ensures forall r :: 0 <= r < n && !AllBlank(lines[r]) ==> least.Some? && least.value <= Leading(lines[r])
    ensures least.Some? ==> exists r :: 0 <= r < n && !AllBlank(lines[r]) && Leading(lines[r]) == least.value
  {
    if n == 0 then None
    else
      var before, line := Indentation(lines, n - 1), lines[n - 1];
      if AllBlank(line) || (before.Some? && before.value <= Leading(line)) then before else Some(Leading(line))
  }

  /** Without any content everything goes. */
  function Outdented(line: Text, indentation: Option<nat>): Text {
    if indentation.None? || indentation.value >= |line| then [] else TrimEnd(line[indentation.value..])
  }

  function OutdentedLines(lines: seq<Text>, n: nat, indentation: Option<nat>): (r: seq<Text>)
    requires n <= |lines|
    ensures |r| == n
  {
    if n == 0 then [] else OutdentedLines(lines, n - 1, indentation) + [Outdented(lines[n - 1], indentation)]
  }

  lemma {:induction false} OutdentedAt(lines: seq<Text>, n: nat, indentation: Option<nat>, r: nat)
    requires r < n <= |lines|
    ensures OutdentedLines(lines, n, indentation)[r] == Outdented(lines[r], indentation)
    decreases n
  {
    if r < n - 1 {
      OutdentedAt(lines, n - 1, indentation, r);
    }
  }

  /** How far a line is cut: everything where no line has content. */
  function Cut(line: Text, indentation: Option<nat>): nat {
    if indentation.Some? then indentation.value else |line|
  }

  lemma IndentationIsBlank(lines: seq<Text>, r: nat, i: nat)
    requires r < |lines| && i < |lines[r]| && i < Cut(lines[r], Indentation(lines, |lines|))
    ensures Blank(lines[r][i])
  {
    var line := lines[r];
    if !AllBlank(line) {
      assert line[..Leading(line)][i] == line[i];
    }
  }

  lemma OutdentedShows(line: Text, indentation: Option<nat>, column: nat)
    ensures Shows(Outdented(line, indentation), column, At(line, Cut(line, indentation) + column))
  {
    var from := Cut(line, indentation);
    if from < |line| {
      TrimEndShows(line[from..], column);
    }
  }

  /** All lines are cut alike and show the rest of what they showed. What goes is white space, by
      IndentationIsBlank, so the lines keep their places to one another and nothing is lost. */
  lemma OutdentingKeepsContent(lines: seq<Text>, indentation: Option<nat>, r: nat, column: nat)
    requires r < |lines|
    ensures Shows(OutdentedLines(lines, |lines|, indentation)[r], column, At(lines[r], Cut(lines[r], indentation) + column))
  {
    OutdentedAt(lines, |lines|, indentation, r);
    OutdentedShows(lines[r], indentation, column);
  }

  lemma OutdentedPlain(lines: seq<Text>, r: nat)
    requires r < |lines|
    ensures Plain(Outdented(lines[r], Indentation(lines, |lines|))) <==> Plain(lines[r])
  {
    var line, from := lines[r], Cut(lines[r], Indentation(lines, |lines|));
    if from < |line| {
      forall i | 0 <= i < from ensures line[i].Char? {
        IndentationIsBlank(lines, r, i);
      }
      TrimEndPlain(line[from..]);
      PlainAppend(line[..from], line[from..]);
      assert line == line[..from] + line[from..];
    } else {
      forall i | 0 <= i < |line| ensures line[i].Char? {
        IndentationIsBlank(lines, r, i);
      }
    }
  }

  /** Cutting white space neither adds nor removes a marker. */
  lemma OutdentingPlain(lines: seq<Text>)
    ensures AllPlain(OutdentedLines(lines, |lines|, Indentation(lines, |lines|))) <==> AllPlain(lines)
  {
    var indentation := Indentation(lines, |lines|);
    forall r | 0 <= r < |lines| ensures Plain(OutdentedLines(lines, |lines|, indentation)[r]) <==> Plain(lines[r]) {
      OutdentedAt(lines, |lines|, indentation, r);
      OutdentedPlain(lines, r);
    }
  }

  // ---------- renderLatex ----------

  datatype Output = Unsupported | Diverging | Shown(text: Text)

  const UNPROTECTED := map['\U{F0002}' := ' ']

  function Finished(lines: seq<Text>): Text {
    MapChars(TrimEnd(JoinLines(OutdentedLines(lines, |lines|, Indentation(lines, |lines|)))), UNPROTECTED)
  }

  /** What the parser makes of a formula: a text and the nodes its markers name. */
  function ParsedFormula(source: string, display: bool, tables: Tables): (whole: Parsed)
    requires CleanTables(tables)
    ensures TableInv(whole.st.nodes, NoStart(source)) && MatricesFit(whole.st.nodes)
    ensures Below(whole.text, Limit(|whole.st.nodes|, NoStart(source)))
  {
    var env := Env(source, display, tables, NoStart(source));
    assert TableInv([], env.clean);
    var whole := Whole(env, []);
    assert Holds(env, whole.st.nodes, whole.text);
    BelowMore(whole.text, LimitOf(env, whole.st.nodes), Limit(|whole.st.nodes|, NoStart(source)));
    TableFits(whole.st.nodes, env.clean);
    whole
  }

  lemma TableFits(nodes: seq<Node>, clean: bool)
    requires TableInv(nodes, clean)
    ensures MatricesFit(nodes)
  {
    forall i | 0 <= i < |nodes| && nodes[i].Matrix? ensures nodes[i].matrixBaseline < |nodes[i].lines| {
      assert NodeBelow(nodes[i], i, clean);
    }
  }

  /** A bound on the depth of any recursion that ends. */
  function DepthOf(nodes: seq<Node>): nat {
    |Left(nodes, {})|
  }

  function Formula(source: string, display: bool, tables: Tables): Output
    requires CleanTables(tables)
  {
    var whole := ParsedFormula(source, display, tables);
    if !whole.st.supported then Unsupported
    else if whole.st.nodes == [] then Shown(MapChars(whole.text, UNPROTECTED))
    else if !NoCycle(Scan(whole.text, |whole.st.nodes|), whole.st.nodes, {}) then Diverging
    else
      NoCycleEnds(Scan(whole.text, |whole.st.nodes|), whole.st.nodes, {});
      Shown(Finished(Rendered(whole.text, whole.st.nodes, DepthOf(whole.st.nodes)).lines))
  }

  // ---------- termination ----------

  /** No depth of recursion is enough for the markers of the text. */
  ghost predicate Endless(text: Text, nodes: seq<Node>) {
    forall depth: nat :: !Ends(Scan(text, |nodes|), nodes, depth)
  }

  lemma EndlessIffCycle(text: Text, nodes: seq<Node>)
    ensures Endless(text, nodes) <==> !NoCycle(Scan(text, |nodes|), nodes, {})
  {
    var scanned := Scan(text, |nodes|);
    if NoCycle(scanned, nodes, {}) {
      NoCycleEnds(scanned, nodes, {});
      assert Ends(scanned, nodes, DepthOf(nodes));
    } else {
      forall depth: nat ensures !Ends(scanned, nodes, depth) {
        if Ends(scanned, nodes, depth) {
          EndingHasNoCycle(scanned, nodes, depth, {});
          assert false;
        }
      }
    }
  }

  /** Rendering fails to end exactly if no depth of recursion is enough. */
  lemma DivergesIffEndless(source: string, display: bool, tables: Tables)
    requires CleanTables(tables)
    ensures var whole := ParsedFormula(source, display, tables);
            Formula(source, display, tables).Diverging? <==>
            whole.st.supported && whole.st.nodes != [] && Endless(whole.text, whole.st.nodes)
  {
    var whole := ParsedFormula(source, display, tables);
    EndlessIffCycle(whole.text, whole.st.nodes);
  }

  lemma CleanFractionsPointBack(nodes: seq<Node>)
    requires TableInv(nodes, true)
    ensures FractionsPointBack(nodes)
  {
    forall i | 0 <= i < |nodes| && nodes[i].Fraction?
      ensures NamesBelow(Scan(nodes[i].numerator, |nodes|), i) && NamesBelow(Scan(nodes[i].denominator, |nodes|), i)
    {
      assert NodeBelow(nodes[i], i, true);
      CleanTextIsScanned(nodes[i].numerator, Limit(i, true), |nodes|);
      CleanTextIsScanned(nodes[i].denominator, Limit(i, true), |nodes|);
    }
  }

  lemma CleanTextIsScanned(text: Text, limit: Limit, count: nat)
    requires Below(text, limit) && limit.clean
    ensures Scan(text, count) == text && NamesBelow(text, limit.bound)
  {
    forall i | 0 <= i < |text| ensures text[i] != MARKER_START && (text[i].Marker? ==> text[i].index < limit.bound) {
      assert PieceBelow(text[i], limit);
    }
    ScanOfClean(text, count);
  }

  /** A source without the character that starts a marker is always rendered: its fractions name only
      nodes before them. */
  lemma CleanSourceEnds(source: string, display: bool, tables: Tables)
    requires CleanTables(tables) && NoStart(source)
    ensures !Formula(source, display, tables).Diverging?
  {
    var whole := ParsedFormula(source, display, tables);
    var nodes := whole.st.nodes;
    CleanFractionsPointBack(nodes);
    CleanTextIsScanned(whole.text, Limit(|nodes|, true), |nodes|);
    PointingBackEnds(whole.text, nodes, |nodes|);
    var depth: nat := |nodes|;
    assert Ends(Scan(whole.text, |nodes|), nodes, depth);
    EndsIffNoCycle(Scan(whole.text, |nodes|), nodes);
  }

  // ---------- markers left behind ----------

  lemma {:induction false} MapCharsPlain(text: Text, replacements: map<char, char>)
    ensures Plain(MapChars(text, replacements)) <==> Plain(text)
    decreases |text|
  {
    if text != [] {
      MapCharsPlain(text[1..], replacements);
      var first := if text[0].Char? && text[0].c in replacements then Char(replacements[text[0].c]) else text[0];
      OnePiecePlain(first);
      OnePiecePlain(text[0]);
      PlainAppend([first], MapChars(text[1..], replacements));
      PlainAppend([text[0]], text[1..]);
      assert text == [text[0]] + text[1..];
    }
  }

  lemma {:induction false} JoinLinesPlain(lines: seq<Text>)
    ensures Plain(JoinLines(lines)) <==> AllPlain(lines)
    decreases |lines|
  {
    if lines != [] {
      JoinLinesPlain(lines[1..]);
      AllPlainAppend([lines[0]], lines[1..]);
      OnePlain(lines[0]);
      assert lines == [lines[0]] + lines[1..];
      PlainAppend(lines[0], [Char('\n')]);
      PlainAppend(lines[0] + [Char('\n')], JoinLines(lines[1..]));
    }
  }

  lemma FinishedPlain(lines: seq<Text>)
    ensures Plain(Finished(lines)) <==> AllPlain(lines)
  {
    var outdented := OutdentedLines(lines, |lines|, Indentation(lines, |lines|));
    OutdentingPlain(lines);
    JoinLinesPlain(outdented);
    TrimEndPlain(JoinLines(outdented));
    MapCharsPlain(TrimEnd(JoinLines(outdented)), UNPROTECTED);
  }

  lemma {:induction false} ScanOfNone(text: Text)
    ensures Scan(text, 0) == text
    decreases |text|
  {
    if text != [] {
      ScanOfNone(text[1..]);
    }
  }

  lemma NothingToReach(text: Text, clean: bool, depth: nat)
    requires Below(text, Limit(0, clean))
    ensures Plain(text) && ReachesPlain(Scan(text, 0), [], depth)
  {
    ScanOfNone(text);
    forall i | 0 <= i < |text| ensures text[i].Char? {
      assert PieceBelow(text[i], Limit(0, clean));
    }
  }

  /** The output of a formula holds no marker exactly if all nodes that its text reaches are plain. */
  lemma ShownPlainIff(source: string, display: bool, tables: Tables)
    requires CleanTables(tables) && Formula(source, display, tables).Shown?
    ensures var whole := ParsedFormula(source, display, tables);
            Plain(Formula(source, display, tables).text) <==>
            ReachesPlain(Scan(whole.text, |whole.st.nodes|), whole.st.nodes, DepthOf(whole.st.nodes))
  {
    var whole := ParsedFormula(source, display, tables);
    var nodes := whole.st.nodes;
    if nodes == [] {
      NothingToReach(whole.text, NoStart(source), DepthOf(nodes));
      MapCharsPlain(whole.text, UNPROTECTED);
    } else {
      NoCycleEnds(Scan(whole.text, |nodes|), nodes, {});
      RendersPlainIff(whole.text, nodes, DepthOf(nodes));
      FinishedPlain(Rendered(whole.text, nodes, DepthOf(nodes)).lines);
    }
  }

  /** Whatever the source, the lines of its matrices hold no marker, because their cells are parsed
      without display mode and without separators. */
  lemma MatricesArePlain(source: string, display: bool, tables: Tables, index: nat)
    requires CleanTables(tables) && index < |ParsedFormula(source, display, tables).st.nodes|
    requires ParsedFormula(source, display, tables).st.nodes[index].Matrix?
    ensures AllPlain(ParsedFormula(source, display, tables).st.nodes[index].lines)
  {
    var node := ParsedFormula(source, display, tables).st.nodes[index];
    assert NodeBelow(node, index, NoStart(source));
    forall l, i | 0 <= l < |node.lines| && 0 <= i < |node.lines[l]| ensures node.lines[l][i].Char? {
      assert Below(node.lines[l], Limit(0, NoStart(source)));
      assert PieceBelow(node.lines[l][i], Limit(0, NoStart(source)));
    }
  }
}
