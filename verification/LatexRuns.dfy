/**
 Three formulas (packages/tui/src/latex.ts): one whose source writes out a marker, on which rendering
 does not end, and two whose operators hold a marker in a limit or in their name, which stays in the output.
 */
module LatexRuns {
  import opened Prelude
  import opened LatexLayout
  import opened LatexRender
  import opened LatexPlain
  import opened LatexText
  import opened LatexGrammar
  import opened LatexFormula

  // ---------- single steps ----------

  /** A character that stands for itself. */
  predicate Ordinary(c: char) {
    !IsSpace(c) && c !in {'=', '<', '>', '&', '~', '.', '{', '}', '\\', '^', '_'}
  }

  lemma OrdinaryStep(env: Env, st: State, stacking: bool, end: Option<char>, result: Text)
    requires Proper(env) && Ready(env, st) && Holds(env, st.nodes, result) && st.position < |env.source|
    requires Ordinary(env.source[st.position]) && end != Some(env.source[st.position])
    requires env.clean ==> Char(env.source[st.position]) != MARKER_START
    ensures var next := st.(position := st.position + 1);
            var longer := result + [Char(env.source[st.position])];
            Ready(env, next) && Holds(env, next.nodes, longer)
            && SequenceOf(env, st, stacking, end, result) == SequenceOf(env, next, stacking, end, longer)
  {
  }

  predicate OrdinaryRun(env: Env, from: nat, n: nat, end: Option<char>) {
    from + n <= |env.source|
    && forall i :: from <= i < from + n ==>
                     Ordinary(env.source[i]) && end != Some(env.source[i]) && (env.clean ==> Char(env.source[i]) != MARKER_START)
  }

  function Past(st: State, n: nat): State {
    st.(position := st.position + n)
  }

  /** The text with the n characters from a position on. */
  function Extended(source: string, from: nat, n: nat, result: Text): Text
    requires from + n <= |source|
  {
    if n == 0 then result else Extended(source, from, n - 1, result) + [Char(source[from + n - 1])]
  }

  /** Ordinary characters are read as they are. */
  lemma {:induction false} OrdinarySteps(env: Env, st: State, stacking: bool, end: Option<char>, result: Text, n: nat)
    requires Proper(env) && Ready(env, st) && Holds(env, st.nodes, result) && OrdinaryRun(env, st.position, n, end)
    ensures Ready(env, Past(st, n)) && Holds(env, st.nodes, Extended(env.source, st.position, n, result))
    ensures SequenceOf(env, st, stacking, end, result) ==
            SequenceOf(env, Past(st, n), stacking, end, Extended(env.source, st.position, n, result))
    decreases n
  {
    if n > 0 {
      OrdinarySteps(env, st, stacking, end, result, n - 1);
      OneFurther(env, st, stacking, end, result, n - 1);
    }
  }

  lemma OneFurther(env: Env, st: State, stacking: bool, end: Option<char>, result: Text, n: nat)
    requires Proper(env) && Ready(env, Past(st, n)) && OrdinaryRun(env, st.position, n + 1, end)
    requires Holds(env, st.nodes, Extended(env.source, st.position, n, result))
    ensures Ready(env, Past(st, n + 1)) && Holds(env, st.nodes, Extended(env.source, st.position, n + 1, result))
    ensures SequenceOf(env, Past(st, n), stacking, end, Extended(env.source, st.position, n, result)) ==
            SequenceOf(env, Past(st, n + 1), stacking, end, Extended(env.source, st.position, n + 1, result))
  {
    assert Past(st, n).(position := Past(st, n).position + 1) == Past(st, n + 1);
    OrdinaryStep(env, Past(st, n), stacking, end, Extended(env.source, st.position, n, result));
  }

  lemma GroupOpens(env: Env, st: State, stacking: bool)
    requires Proper(env) && Ready(env, st) && st.position < |env.source| && env.source[st.position] == '{'
    ensures RequiredArgument(env, st, stacking) ==
            SequenceOf(env, Past(st, 1), stacking, Some('}'), [])
  {
  }

  lemma GroupCloses(env: Env, st: State, stacking: bool, text: Text)
    requires Proper(env) && Ready(env, st) && st.position < |env.source| && env.source[st.position] == '}'
    requires Holds(env, st.nodes, text)
    ensures SequenceOf(env, st, stacking, Some('}'), text) == Parsed(Past(st, 1), text)
  {
  }

  /** A group of ordinary characters means what it says. */
  lemma OrdinaryGroup(env: Env, st: State, stacking: bool, n: nat)
    requires Proper(env) && Ready(env, st) && OrdinaryRun(env, st.position + 1, n, Some('}'))
    requires st.position + 1 + n < |env.source| && env.source[st.position] == '{' && env.source[st.position + 1 + n] == '}'
    ensures RequiredArgument(env, st, stacking) == Parsed(Past(st, n + 2), Extended(env.source, st.position + 1, n, []))
  {
    GroupOpens(env, st, stacking);
    GroupEnds(env, Past(st, 1), stacking, n);
  }

  lemma GroupEnds(env: Env, st: State, stacking: bool, n: nat)
    requires Proper(env) && Ready(env, st) && OrdinaryRun(env, st.position, n, Some('}'))
    requires st.position + n < |env.source| && env.source[st.position + n] == '}'
    ensures SequenceOf(env, st, stacking, Some('}'), []) == Parsed(Past(st, n + 1), Extended(env.source, st.position, n, []))
  {
    OrdinarySteps(env, st, stacking, Some('}'), [], n);
    GroupCloses(env, Past(st, n), stacking, Extended(env.source, st.position, n, []));
    assert Past(Past(st, n), 1) == Past(st, n + 1);
  }

  lemma {:induction false} LettersEnd(source: string, from: nat, end: nat)
    requires from <= end <= |source| && (end < |source| ==> !IsLetter(source[end]))
    requires forall i :: from <= i < end ==> IsLetter(source[i])
    ensures SkipLetters(source, from) == end
    decreases end - from
  {
    if from < end {
      LettersEnd(source, from + 1, end);
    }
  }

  predicate Lettered(env: Env, from: nat, end: nat) {
    && from < end <= |env.source| && (end < |env.source| ==> !IsLetter(env.source[end]))
    && forall i :: from <= i < end ==> IsLetter(env.source[i])
  }

  lemma NamedRuns(env: Env, st: State, stacking: bool, end: nat)
    requires Proper(env) && Ready(env, st) && Lettered(env, st.position, end)
    requires env.source[st.position..end] in env.tables.commands
    ensures env.clean ==> NoStart(env.source[st.position..end])
    ensures NamedOf(env, st, stacking) == RunCommand(env, st.(position := end), stacking, env.source[st.position..end])
  {
    LettersEnd(env.source, st.position + 1, end);
    SliceInherits(env.source, st.position, end);
  }

  /** A command with a name of letters. */
  lemma CommandRuns(env: Env, st: State, stacking: bool, end: nat)
    requires Proper(env) && Ready(env, st) && Lettered(env, st.position + 1, end) && env.source[st.position] == '\\'
    requires env.source[st.position + 1..end] in env.tables.commands
    ensures env.clean ==> NoStart(env.source[st.position + 1..end])
    ensures CommandOf(env, st, stacking) ==
            RunCommand(env, st.(position := end), stacking, env.source[st.position + 1..end])
  {
    NamedRuns(env, Past(st, 1), stacking, end);
  }

  lemma FracRuns(env: Env, st: State, stacking: bool)
    requires Proper(env) && Ready(env, st) && "frac" in env.tables.commands && env.tables.commands["frac"] == Frac(false)
    requires env.clean ==> NoStart("frac")
    ensures RunCommand(env, st, stacking, "frac") == FractionOf(env, st, stacking, false)
  {
    assert RunCommand(env, st, stacking, "frac") == RunWithArguments(env, st, stacking, "frac");
  }

  lemma PlainArgument(env: Env, st: State, stacking: bool)
    requires Proper(env) && Ready(env, st) && st.position < |env.source| && Ordinary(env.source[st.position])
    ensures RequiredArgument(env, st, stacking) == Parsed(Past(st, 1), [Char(env.source[st.position])])
  {
  }

  /** A source that is a single command. */
  lemma WholeOfCommand(env: Env, nodes: seq<Node>, text: Text)
    requires Proper(env) && env.source != [] && env.source[0] == '\\' && Solid(text) && text != NEGATIVE_SPACE
    requires CommandOf(env, State(0, true, []), true) == Parsed(State(|env.source|, true, nodes), text)
    ensures Whole(env, []) == Parsed(State(|env.source|, true, nodes), text)
  {
    OnlyCommand(env, nodes, text);
    NormalizeOfSolid(text, env.tables);
  }

  lemma OnlyCommand(env: Env, nodes: seq<Node>, text: Text)
    requires Proper(env) && env.source != [] && env.source[0] == '\\' && text != NEGATIVE_SPACE
    requires CommandOf(env, State(0, true, []), true) == Parsed(State(|env.source|, true, nodes), text)
    ensures SequenceOf(env, State(0, true, []), true, None, []) == Parsed(State(|env.source|, true, nodes), text)
  {
    assert [] + text == text;
    assert OneOf(env, State(0, true, []), true, []) == Parsed(State(|env.source|, true, nodes), text);
  }

  // ---------- a marker written out ----------

  const FORGED := "\\frac{\U{F0000}0\U{F0001}}{2}"
  const FORGED_TEXT := [MARKER_START, Char('0'), MARKER_END]
  const FORGED_NODES := [Fraction(FORGED_TEXT, [Char('2')])]

  lemma ForgedCharacters()
    ensures |FORGED| == 13 && Extended(FORGED, 6, 3, []) == FORGED_TEXT && Extended(FORGED, 11, 1, []) == [Char('2')]
  {
    assert Extended(FORGED, 6, 0, []) == [] && Extended(FORGED, 6, 1, []) == [MARKER_START];
    assert Extended(FORGED, 6, 2, []) == [MARKER_START, Char('0')];
    assert Extended(FORGED, 11, 0, []) == [];
  }

  lemma ForgedNumerator(env: Env)
    requires Proper(env) && env.source == FORGED && !env.clean
    ensures RequiredArgument(env, State(5, true, []), false) == Parsed(State(10, true, []), FORGED_TEXT)
  {
    ForgedCharacters();
    OrdinaryGroup(env, State(5, true, []), false, 3);
  }

  lemma ForgedDenominator(env: Env)
    requires Proper(env) && env.source == FORGED && !env.clean
    ensures RequiredArgument(env, State(10, true, []), false) == Parsed(State(13, true, []), [Char('2')])
  {
    ForgedCharacters();
    OrdinaryGroup(env, State(10, true, []), false, 1);
  }

  lemma ForgedFraction(env: Env)
    requires Proper(env) && env.source == FORGED && !env.clean && env.display
    ensures FractionOf(env, State(5, true, []), true, false) == Parsed(State(13, true, FORGED_NODES), [Marker(0)])
  {
    ForgedNumerator(env);
    ForgedDenominator(env);
    assert TwoArguments(env, State(5, true, []), false) == (FORGED_TEXT, Parsed(State(13, true, []), [Char('2')]));
    NormalizeOfSolid(FORGED_TEXT, env.tables);
    NormalizeOfSolid([Char('2')], env.tables);
  }

  lemma ForgedCommand(env: Env)
    requires Proper(env) && env.source == FORGED && !env.clean && env.display
    requires "frac" in env.tables.commands && env.tables.commands["frac"] == Frac(false)
    ensures CommandOf(env, State(0, true, []), true) == Parsed(State(13, true, FORGED_NODES), [Marker(0)])
  {
    assert env.source[0 + 1..5] == "frac";
    CommandRuns(env, State(0, true, []), true, 5);
    ForgedFraction(env);
    FracRuns(env, State(5, true, []), true);
  }

  lemma ForgedMarkerCounts()
    ensures Scan(FORGED_TEXT, 1) == [Marker(0)] && Scan([Char('2')], 1) == [Char('2')] && Scan([Marker(0)], 1) == [Marker(0)]
  {
    assert DigitsEnd(FORGED_TEXT, 2) == 2 && DigitsEnd(FORGED_TEXT, 1) == 2;
    assert FORGED_TEXT[1..2] == [Char('0')] && [Char('0')][..0] == [];
    assert NumberOf([Char('0')]) == 0;
    assert Spelled(FORGED_TEXT) == Some((0, 3));
    assert FORGED_TEXT[3..] == [] && Scan([], 1) == [];
    assert [Marker(0)][1..] == [] && [Char('2')][1..] == [];
  }

  /** The numerator names its own fraction. */
  lemma ForgedCycle()
    ensures !NoCycle(Scan([Marker(0)], |FORGED_NODES|), FORGED_NODES, {})
  {
    ForgedMarkerCounts();
    assert NamesFraction([Marker(0)][0], FORGED_NODES);
    assert !Unmet(FORGED_NODES, {} + {0}, 0);
    assert !NoCycle([Marker(0)], FORGED_NODES, {} + {0});
    assert !Unmet(FORGED_NODES, {}, 0);
  }

  /** The formula \frac with the written marker 0 over 2, in display mode: rendering does not end. */
  lemma WrittenMarkerDiverges(tables: Tables)
    requires CleanTables(tables) && "frac" in tables.commands && tables.commands["frac"] == Frac(false)
    ensures Formula(FORGED, true, tables) == Diverging
  {
    var env := Env(FORGED, true, tables, false);
    assert Char(FORGED[6]) == MARKER_START;
    ForgedCommand(env);
    WholeOfCommand(env, FORGED_NODES, [Marker(0)]);
    ForgedCycle();
  }

  // ---------- a marker in a limit ----------

  /** A formula whose operators keep a marker from being laid out has that marker in its output. */
  lemma LeavesMarker(source: string, tables: Tables, nodes: seq<Node>, text: Text)
    requires CleanTables(tables) && NoStart(source)
    requires Whole(Env(source, true, tables, true), []) == Parsed(State(|source|, true, nodes), text)
    requires !ReachesPlain(Scan(text, |nodes|), nodes, DepthOf(nodes))
    ensures Formula(source, true, tables).Shown? && !Plain(Formula(source, true, tables).text)
  {
    assert ParsedFormula(source, true, tables) == Parsed(State(|source|, true, nodes), text);
    CleanSourceEnds(source, true, tables);
    ShownPlainIff(source, true, tables);
  }

  lemma NestedIsWritten()
    ensures NoStart(NESTED) && |NESTED| == 11 && NESTED[0] == '\\'
  {
  }

  const NESTED := "\\sum_\\sum_i"

  /** An operator in display mode with a lower limit that ends the source. */
  lemma LowerLimitEnds(env: Env, st: State, operator: Text, nodes: seq<Node>, lower: Text, bracket: bool, spaced: bool)
    requires Proper(env) && Ready(env, st) && st.position < |env.source| && Holds(env, st.nodes, operator) && env.display
    requires env.source[st.position] == '_'
    requires LimitText(env, st) == Parsed(State(|env.source|, true, nodes), lower)
    ensures OperatorOf(env, st, operator, bracket, true, spaced) ==
            Parsed(State(|env.source|, true, nodes + [Operator(operator, Some(lower), None)]), [Marker(|nodes|)])
  {
    NoModifier(env.source, st.position);
    assert LimitSign(env.source, st.position) == Some(st.position);
    assert OneLimit(env, Limits(st, None, None), st.position) == Limits(State(|env.source|, true, nodes), Some(lower), None);
    assert LimitSign(env.source, |env.source|) == None;
    assert LimitsOf(env, Limits(st, None, None)) == Limits(State(|env.source|, true, nodes), Some(lower), None);
  }

  lemma NoModifier(source: string, position: nat)
    requires position < |source| && source[position] == '_'
    ensures ModifierAt(source, position) == None
  {
  }

  lemma LimitIs(env: Env, st: State, text: Text)
    requires Proper(env) && Ready(env, st) && st.position < |env.source| && Solid(text)
    requires RequiredArgument(env, Past(st, 1), false).text == text
    ensures LimitText(env, st) == RequiredArgument(env, Past(st, 1), false)
  {
    var argument := RequiredArgument(env, Past(st, 1), false);
    SolidLimit(argument.text, env.tables);
    assert LimitText(env, st) == Parsed(argument.st, LimitForm(argument.text, env.tables));
  }

  lemma SolidLimit(text: Text, tables: Tables)
    requires Solid(text)
    ensures LimitForm(text, tables) == text
  {
    NormalizeOfSolid(text, tables);
    SolidHasNoSpaces(text);
  }

  lemma {:induction false} SolidHasNoSpaces(text: Text)
    requires Solid(text)
    ensures WithoutSpaces(text) == text
    decreases |text|
  {
    if text != [] {
      assert !Blank(text[0]);
      SolidHasNoSpaces(text[1..]);
    }
  }

  ghost predicate Sum(env: Env, text: string, spaced: bool) {
    && Proper(env) && env.source == NESTED && env.clean && env.display
    && "sum" in env.tables.commands && env.tables.commands["sum"] == Symbol(text, true, spaced)
  }

  function InnerSum(text: string): Node {
    Operator(Lit(text), Some([Char('i')]), None)
  }

  function OuterSum(text: string): Node {
    Operator(Lit(text), Some([Marker(0)]), None)
  }

  lemma InnerSumIsParsed(env: Env, text: string, spaced: bool)
    requires Sum(env, text, spaced)
    ensures CommandOf(env, State(5, true, []), false) == Parsed(State(11, true, [InnerSum(text)]), [Marker(0)])
  {
    assert env.source[5 + 1..9] == "sum";
    CommandRuns(env, State(5, true, []), false, 9);
    SymbolBelow(env, text, spaced);
    InnerLimitIsParsed(env, text, spaced);
  }

  lemma InnerLimitIsParsed(env: Env, text: string, spaced: bool)
    requires Sum(env, text, spaced)
    ensures Holds(env, [], Lit(text))
    ensures OperatorOf(env, State(9, true, []), Lit(text), false, true, false) ==
            Parsed(State(11, true, [InnerSum(text)]), [Marker(0)])
  {
    SymbolBelow(env, text, spaced);
    LimitIs(env, State(9, true, []), [Char('i')]);
    LowerLimitEnds(env, State(9, true, []), Lit(text), [], [Char('i')], false, false);
  }

  lemma SymbolBelow(env: Env, text: string, spaced: bool)
    requires Sum(env, text, spaced)
    ensures Holds(env, [], Lit(text))
  {
    assert CleanCommand(env.tables.commands["sum"]);
    LitBelow(text, LimitOf(env, []));
  }

  lemma OuterSumIsParsed(env: Env, text: string, spaced: bool)
    requires Sum(env, text, spaced)
    ensures CommandOf(env, State(0, true, []), true) == Parsed(State(11, true, [InnerSum(text), OuterSum(text)]), [Marker(1)])
  {
    assert env.source[0 + 1..4] == "sum";
    CommandRuns(env, State(0, true, []), true, 4);
    SymbolBelow(env, text, spaced);
    OuterLimitIsParsed(env, text, spaced);
    LowerLimitEnds(env, State(4, true, []), Lit(text), [InnerSum(text)], [Marker(0)], false, false);
    assert [InnerSum(text)] + [OuterSum(text)] == [InnerSum(text), OuterSum(text)];
  }

  lemma OuterLimitIsParsed(env: Env, text: string, spaced: bool)
    requires Sum(env, text, spaced)
    ensures LimitText(env, State(4, true, [])) == Parsed(State(11, true, [InnerSum(text)]), [Marker(0)])
  {
    InnerSumIsParsed(env, text, spaced);
    assert RequiredArgument(env, State(5, true, []), false) == CommandOf(env, State(5, true, []), false);
    LimitIs(env, State(4, true, []), [Marker(0)]);
  }

  lemma OuterSumIsNotPlain(text: string, depth: nat)
    ensures !ReachesPlain(Scan([Marker(1)], 2), [InnerSum(text), OuterSum(text)], depth)
  {
    assert Scan([Marker(1)], 2) == [Marker(1)] by {
      assert [Marker(1)][1..] == [];
    }
    assert [Marker(0)][0].Marker?;
    assert !PlainPiece([InnerSum(text), OuterSum(text)], [Marker(1)][0], depth);
  }

  /** A sum as the limit of a sum, in display mode: the inner sum is never laid out, and its marker is in
      the output. */
  lemma NestedLimitLeavesMarker(tables: Tables, text: string, spaced: bool)
    requires CleanTables(tables) && "sum" in tables.commands && tables.commands["sum"] == Symbol(text, true, spaced)
    ensures NoStart(NESTED) && Formula(NESTED, true, tables).Shown? && !Plain(Formula(NESTED, true, tables).text)
  {
    NestedIsWritten();
    var env, nodes := Env(NESTED, true, tables, true), [InnerSum(text), OuterSum(text)];
    OuterSumIsParsed(env, text, spaced);
    WholeOfCommand(env, nodes, [Marker(1)]);
    OuterSumIsNotPlain(text, DepthOf(nodes));
    LeavesMarker(NESTED, tables, nodes, [Marker(1)]);
  }

  // ---------- a marker in the name of an operator ----------

  const NAMED := "\\operatorname*{\\frac12}_i"
  const HALF := Fraction([Char('1')], [Char('2')])
  const NAMED_NODES := [HALF, Operator([Marker(0)], Some([Char('i')]), None)]

  lemma NamedCharacters()
    ensures |NAMED| == 25 && NAMED[0 + 1..13] == "operatorname" && NAMED[13] == '*'
  {
    var name := "operatorname";
    forall i | 0 <= i < 12 ensures NAMED[1 + i] == name[i] {
      if i < 6 {
        assert NAMED[1 + i] == name[i];
      }
    }
    assert NAMED[1..13] == name;
  }

  lemma NamedIsWritten()
    ensures NoStart(NAMED) && |NAMED| == 25 && NAMED[0] == '\\'
  {
  }

  ghost predicate Names(env: Env) {
    && Proper(env) && env.source == NAMED && env.clean && env.display
    && "frac" in env.tables.commands && env.tables.commands["frac"] == Frac(false)
    && "operatorname" in env.tables.commands && env.tables.commands["operatorname"] == Command.OperatorName
  }

  lemma HalfIsParsed(env: Env)
    requires Names(env)
    ensures FractionOf(env, State(20, true, []), true, false) == Parsed(State(22, true, [HALF]), [Marker(0)])
  {
    PlainArgument(env, State(20, true, []), false);
    PlainArgument(env, State(21, true, []), false);
    assert TwoArguments(env, State(20, true, []), false) == ([Char('1')], Parsed(State(22, true, []), [Char('2')]));
    NormalizeOfSolid([Char('1')], env.tables);
    NormalizeOfSolid([Char('2')], env.tables);
  }

  lemma HalfCommand(env: Env)
    requires Names(env)
    ensures CommandOf(env, State(15, true, []), true) == Parsed(State(22, true, [HALF]), [Marker(0)])
  {
    assert env.source[15 + 1..20] == "frac";
    CommandRuns(env, State(15, true, []), true, 20);
    HalfIsParsed(env);
    FracRuns(env, State(20, true, []), true);
  }

  lemma NameOpens(env: Env)
    requires Names(env)
    ensures RequiredArgument(env, State(14, true, []), true) == SequenceOf(env, State(15, true, []), true, Some('}'), [])
  {
    GroupOpens(env, State(14, true, []), true);
  }

  lemma HalfIsRead(env: Env)
    requires Names(env)
    ensures SequenceOf(env, State(15, true, []), true, Some('}'), []) == SequenceOf(env, State(22, true, [HALF]), true, Some('}'), [Marker(0)])
  {
    HalfCommand(env);
    CommandInGroup(env, State(15, true, []), true, State(22, true, [HALF]), [Marker(0)]);
  }

  lemma NameCloses(env: Env)
    requires Names(env)
    ensures SequenceOf(env, State(22, true, [HALF]), true, Some('}'), [Marker(0)]) == Parsed(State(23, true, [HALF]), [Marker(0)])
  {
    GroupCloses(env, State(22, true, [HALF]), true, [Marker(0)]);
  }

  lemma NameIsParsed(env: Env)
    requires Names(env)
    ensures RequiredArgument(env, State(14, true, []), true) == Parsed(State(23, true, [HALF]), [Marker(0)])
  {
    NameOpens(env);
    HalfIsRead(env);
    NameCloses(env);
  }

  lemma CommandInGroup(env: Env, st: State, stacking: bool, after: State, text: Text)
    requires Proper(env) && Ready(env, st) && st.position < |env.source| && env.source[st.position] == '\\'
    requires CommandOf(env, st, stacking) == Parsed(after, text) && text != NEGATIVE_SPACE
    ensures SequenceOf(env, st, stacking, Some('}'), []) == SequenceOf(env, after, stacking, Some('}'), text)
  {
    assert [] + text == text;
    assert OneOf(env, st, stacking, []) == Parsed(after, text);
  }

  lemma NamedOperatorIsParsed(env: Env)
    requires Names(env)
    ensures NamedOperatorOf(env, State(14, true, []), true, true) == Parsed(State(25, true, NAMED_NODES), [Marker(1)])
  {
    NameIsParsed(env);
    SolidName([Marker(0)], env.tables);
    NamedLimitIsParsed(env);
  }

  lemma SolidName(text: Text, tables: Tables)
    requires Solid(text)
    ensures NameText(text, tables) == text
  {
    NormalizeOfSolid(text, tables);
    SolidStays(text, tables);
  }

  lemma NamedLimitIsParsed(env: Env)
    requires Names(env)
    ensures OperatorOf(env, State(23, true, [HALF]), [Marker(0)], true, true, true) == Parsed(State(25, true, NAMED_NODES), [Marker(1)])
  {
    PlainArgument(env, State(24, true, [HALF]), false);
    LimitIs(env, State(23, true, [HALF]), [Char('i')]);
    LowerLimitEnds(env, State(23, true, [HALF]), [Marker(0)], [HALF], [Char('i')], true, true);
    assert [HALF] + [NAMED_NODES[1]] == NAMED_NODES;
  }

  lemma NamedIsParsed(env: Env)
    requires Names(env)
    ensures CommandOf(env, State(0, true, []), true) == Parsed(State(25, true, NAMED_NODES), [Marker(1)])
  {
    NamedCharacters();
    CommandRuns(env, State(0, true, []), true, 13);
    NameRuns(env);
  }

  lemma StarredName(env: Env)
    requires Names(env)
    ensures OperatorNameOf(env, State(13, true, []), true) == NamedOperatorOf(env, State(14, true, []), true, true)
  {
    NamedCharacters();
  }

  lemma NameRuns(env: Env)
    requires Names(env)
    ensures NoStart("operatorname")
    ensures RunCommand(env, State(13, true, []), true, "operatorname") == Parsed(State(25, true, NAMED_NODES), [Marker(1)])
  {
    NamedOperatorIsParsed(env);
    StarredName(env);
    OperatorNameRuns(env, State(13, true, []), true);
  }

  lemma OperatorNameRuns(env: Env, st: State, stacking: bool)
    requires Proper(env) && Ready(env, st)
    requires "operatorname" in env.tables.commands && env.tables.commands["operatorname"] == Command.OperatorName
    ensures NoStart("operatorname")
    ensures RunCommand(env, st, stacking, "operatorname") == OperatorNameOf(env, st, stacking)
  {
    assert RunCommand(env, st, stacking, "operatorname") == RunWithArguments(env, st, stacking, "operatorname");
  }

  lemma NamedIsNotPlain(depth: nat)
    ensures !ReachesPlain(Scan([Marker(1)], 2), NAMED_NODES, depth)
  {
    assert Scan([Marker(1)], 2) == [Marker(1)] by {
      assert [Marker(1)][1..] == [];
    }
    assert [Marker(0)][0].Marker?;
    assert !PlainPiece(NAMED_NODES, [Marker(1)][0], depth);
  }

  /** A fraction in the name of an operator with a limit, in display mode: its marker is in the output. */
  lemma OperatorNameLeavesMarker(tables: Tables)
    requires CleanTables(tables)
    requires "frac" in tables.commands && tables.commands["frac"] == Frac(false)
    requires "operatorname" in tables.commands && tables.commands["operatorname"] == Command.OperatorName
    ensures NoStart(NAMED) && Formula(NAMED, true, tables).Shown? && !Plain(Formula(NAMED, true, tables).text)
  {
    NamedIsWritten();
    NamedIsParsed(Env(NAMED, true, tables, true));
    WholeOfCommand(Env(NAMED, true, tables, true), NAMED_NODES, [Marker(1)]);
    NamedIsNotPlain(DepthOf(NAMED_NODES));
    LeavesMarker(NAMED, tables, NAMED_NODES, [Marker(1)]);
  }
}
