/**
 The formula parser of packages/tui/src/latex.ts as functions of its source, the symbol tables and the
 node table. Texts keep within the limit of the nodes there are; nodes are only appended.
 */
module LatexGrammar {
  import opened Prelude
  import opened LatexLayout
  import opened LatexRender
  import opened LatexText

  /** What does not change during a parse. `clean` says that no source holds the character that starts a
      marker. */
  datatype Env = Env(source: string, display: bool, tables: Tables, clean: bool)

  datatype State = State(position: nat, supported: bool, nodes: seq<Node>)

  datatype Parsed = Parsed(st: State, text: Text)

  predicate Proper(env: Env) {
    CleanTables(env.tables) && (env.clean ==> NoStart(env.source))
  }

  /** Without display mode and without row and cell separators no node can be made. */
  predicate Quiet(env: Env) {
    !env.display && Flat(env.source)
  }

  /** All markers inside a node name earlier nodes; a matrix holds none and has a line at its baseline. */
  predicate NodeBelow(node: Node, index: nat, clean: bool) {
    match node
    case Fraction(numerator, denominator) => Below(numerator, Limit(index, clean)) && Below(denominator, Limit(index, clean))
    case Operator(operator, lower, upper) =>
      Below(operator, Limit(index, clean)) && Below(lower.GetOr([]), Limit(index, clean)) && Below(upper.GetOr([]), Limit(index, clean))
    case Matrix(lines, baseline) => baseline < |lines| && AllBelow(lines, Limit(0, clean))
  }

  predicate TableInv(nodes: seq<Node>, clean: bool) {
    forall i :: 0 <= i < |nodes| ==> NodeBelow(nodes[i], i, clean)
  }

  /** A node stays what it is, but a matrix may get full stops at its end. */
  predicate SameNode(before: Node, after: Node) {
    after == before
    || (before.Matrix? && after.Matrix? && |after.lines| == |before.lines| && after.matrixBaseline == before.matrixBaseline)
  }

  predicate Grows(before: seq<Node>, after: seq<Node>) {
    |before| <= |after| && forall i :: 0 <= i < |before| ==> SameNode(before[i], after[i])
  }

  lemma GrowsOn(first: seq<Node>, second: seq<Node>, third: seq<Node>)
    requires Grows(first, second) && Grows(second, third)
    ensures Grows(first, third)
  {
    forall i | 0 <= i < |first| ensures SameNode(first[i], third[i]) {
      assert SameNode(first[i], second[i]) && SameNode(second[i], third[i]);
    }
  }

  /** The position may step past the end only when the input is given up. */
  predicate Ready(env: Env, st: State) {
    st.position <= |env.source| + 1 && (st.position > |env.source| ==> !st.supported) && TableInv(st.nodes, env.clean)
  }

  predicate Advances(env: Env, before: State, after: State) {
    && Ready(env, after)
    && before.position <= after.position
    && (after.supported ==> before.supported)
    && Grows(before.nodes, after.nodes)
    && (Quiet(env) ==> |after.nodes| == |before.nodes|)
  }

  function LimitOf(env: Env, nodes: seq<Node>): Limit {
    Limit(if Quiet(env) then 0 else |nodes|, env.clean)
  }

  predicate Holds(env: Env, nodes: seq<Node>, text: Text) {
    Below(text, LimitOf(env, nodes))
  }

  predicate Yields(env: Env, before: State, parsed: Parsed) {
    Advances(env, before, parsed.st) && Holds(env, parsed.st.nodes, parsed.text)
  }

  lemma AdvancesOn(env: Env, first: State, second: State, third: State)
    requires Advances(env, first, second) && Advances(env, second, third)
    ensures Advances(env, first, third)
  {
    GrowsOn(first.nodes, second.nodes, third.nodes);
  }

  lemma StillHolds(env: Env, before: State, after: State, text: Text)
    requires Holds(env, before.nodes, text) && Advances(env, before, after)
    ensures Holds(env, after.nodes, text)
  {
    BelowMore(text, LimitOf(env, before.nodes), LimitOf(env, after.nodes));
  }

  // ---------- the node table ----------

  /** Appends a node and names it. */
  function Push(env: Env, st: State, node: Node): (parsed: Parsed)
    requires Ready(env, st) && !Quiet(env) && NodeBelow(node, |st.nodes|, env.clean)
    ensures Yields(env, st, parsed)
  {
    Parsed(st.(nodes := st.nodes + [node]), [Marker(|st.nodes|)])
  }

  /** Puts a full stop at the end of a matrix. */
  function Stopped(nodes: seq<Node>, index: nat): seq<Node>
    requires index < |nodes| && nodes[index].Matrix? && nodes[index].lines != []
  {
    var node := nodes[index];
    var last := |node.lines| - 1;
    nodes[index := node.(lines := node.lines[last := node.lines[last] + [Char('.')]])]
  }

  lemma StoppedKeeps(nodes: seq<Node>, index: nat, clean: bool)
    requires TableInv(nodes, clean) && index < |nodes| && nodes[index].Matrix?
    ensures nodes[index].lines != []
    ensures TableInv(Stopped(nodes, index), clean) && Grows(nodes, Stopped(nodes, index))
    ensures |Stopped(nodes, index)| == |nodes|
  {
    var node := nodes[index];
    assert NodeBelow(node, index, clean);
    var last := |node.lines| - 1;
    AppendBelow(node.lines[last], [Char('.')], Limit(0, clean));
    var after := Stopped(nodes, index);
    assert NodeBelow(after[index], index, clean);
  }

  // ---------- sequences ----------

  /** One character of a sequence that is neither a group, a command nor a script. */
  function CharacterOf(env: Env, st: State, result: Text): (parsed: Parsed)
    requires Proper(env) && Ready(env, st) && st.position < |env.source| && Holds(env, st.nodes, result)
    ensures Yields(env, st, parsed) && st.position < parsed.st.position <= |env.source|
  {
    var c := env.source[st.position];
    var next := st.(position := st.position + 1);
    if IsSpace(c) then Parsed(st.(position := SkipSpace(env.source, st.position + 1)), result + [SPACE])
    else if c == '=' || c == '<' || c == '>' then
      TrimsBelow(result, LimitOf(env, st.nodes));
      AppendBelow(TrimEnd(result), [SPACE, Char(c), SPACE], LimitOf(env, st.nodes));
      Parsed(next, TrimEnd(result) + [SPACE, Char(c), SPACE])
    else if c == '&' then Parsed(next, result)
    else if c == '~' then Parsed(next, result + [SPACE])
    else
      var index := if c == '.' then TrailingMarker(result) else None;
      if index.Some? && index.value < |st.nodes| && st.nodes[index.value].Matrix? then
        StoppedKeeps(st.nodes, index.value, env.clean);
        Parsed(next.(nodes := Stopped(st.nodes, index.value)), result)
      else Parsed(next, result + [Char(c)])
  }

  /** A script attaches to what is before it, inside the marks of a named operator. */
  function ScriptAfter(env: Env, st: State, stacking: bool, result: Text): (parsed: Parsed)
    requires Proper(env) && Ready(env, st) && st.position < |env.source| && Holds(env, st.nodes, result)
    ensures Yields(env, st, parsed) && st.position < parsed.st.position
    decreases |env.source|, |env.source| + 1 - st.position, 4
  {
    var trimmed := TrimEnd(result);
    var value := RequiredArgument(env, st.(position := st.position + 1), false);
    var script := FormatScript(value.text, env.source[st.position] == '_', env.tables);
    TrimsBelow(result, LimitOf(env, st.nodes));
    StillHolds(env, st, value.st, trimmed);
    FormatScriptBelow(value.text, env.source[st.position] == '_', env.tables, LimitOf(env, value.st.nodes));
    if trimmed != [] && trimmed[|trimmed| - 1] == NAMED_END then
      Parsed(value.st, trimmed[..|trimmed| - 1] + script + [NAMED_END])
    else Parsed(value.st, trimmed + script)
  }

  /** A command, of which a negative space takes white space back. */
  function CommandAfter(env: Env, st: State, stacking: bool, result: Text): (parsed: Parsed)
    requires Proper(env) && Ready(env, st) && st.position < |env.source| && Holds(env, st.nodes, result)
    ensures Yields(env, st, parsed) && st.position < parsed.st.position
    decreases |env.source|, |env.source| + 1 - st.position, 5, 0
  {
    var command := CommandOf(env, st, stacking);
    StillHolds(env, st, command.st, result);
    if command.text != NEGATIVE_SPACE then
      AppendBelow(result, command.text, LimitOf(env, command.st.nodes));
      Parsed(command.st, result + command.text)
    else
      var trimmed := TrimEnd(result);
      TrimsBelow(result, LimitOf(env, command.st.nodes));
      Parsed(command.st, if trimmed != [] && trimmed[|trimmed| - 1] == NAMED_END then trimmed[..|trimmed| - 1] else trimmed)
  }

  /** `parseSequence` from the position on, when `result` has been read: up to the end character if there
      is one, and to the end of the source if not. */
  function SequenceOf(env: Env, st: State, stacking: bool, end: Option<char>, result: Text): (parsed: Parsed)
    requires Proper(env) && Ready(env, st) && Holds(env, st.nodes, result)
    ensures Yields(env, st, parsed)
    ensures end.None? && parsed.st.supported ==> parsed.st.position == |env.source|
    decreases |env.source|, |env.source| + 1 - st.position, 6
  {
    if st.position >= |env.source| then Parsed(if end.Some? then st.(supported := false) else st, result)
    else
      var c := env.source[st.position];
      if end == Some(c) then Parsed(st.(position := st.position + 1), result)
      else if c == '}' then Parsed(st.(supported := false), result)
      else
        var next := OneOf(env, st, stacking, result);
        var rest := SequenceOf(env, next.st, stacking, end, next.text);
        AdvancesOn(env, st, next.st, rest.st);
        rest
  }

  /** One round of the loop of `parseSequence`. */
  function OneOf(env: Env, st: State, stacking: bool, result: Text): (parsed: Parsed)
    requires Proper(env) && Ready(env, st) && st.position < |env.source| && Holds(env, st.nodes, result)
    ensures Yields(env, st, parsed) && st.position < parsed.st.position
    decreases |env.source|, |env.source| + 1 - st.position, 5, 1
  {
    var c := env.source[st.position];
    if c == '{' then
      var group := SequenceOf(env, st.(position := st.position + 1), stacking, Some('}'), []);
      StillHolds(env, st, group.st, result);
      AppendBelow(result, group.text, LimitOf(env, group.st.nodes));
      Parsed(group.st, result + group.text)
    else if c == '\\' then CommandAfter(env, st, stacking, result)
    else if c == '^' || c == '_' then ScriptAfter(env, st, stacking, result)
    else CharacterOf(env, st, result)
  }

  // ---------- commands ----------

  function CommandOf(env: Env, st: State, stacking: bool): (parsed: Parsed)
    requires Proper(env) && Ready(env, st) && st.position < |env.source|
    ensures Yields(env, st, parsed) && st.position < parsed.st.position
    decreases |env.source|, |env.source| + 1 - st.position, 4
  {
    var start := st.position + 1;
    if start >= |env.source| then Parsed(st.(position := start, supported := false), [])
    else
      var first := env.source[start];
      if first == '\n' || first == '\r' then Parsed(st.(position := AfterNewline(env.source, start)), [SPACE])
      else
        var parsed := NamedOf(env, st.(position := start), stacking);
        AdvancesOn(env, st, st.(position := start), parsed.st);
        parsed
  }

  function AfterNewline(source: string, start: nat): (end: nat)
    requires start < |source|
    ensures start < end <= |source|
  {
    if source[start] == '\r' && start + 1 < |source| && source[start + 1] == '\n' then start + 2 else start + 1
  }

  /** Where the name of a command ends: a run of letters, or one other character. */
  function NameEnd(source: string, start: nat): (end: nat)
    requires start < |source|
    ensures start < end <= |source|
  {
    if IsLetter(source[start]) then SkipLetters(source, start + 1) else start + 1
  }

  /** A command at its name. */
  function NamedOf(env: Env, st: State, stacking: bool): (parsed: Parsed)
    requires Proper(env) && Ready(env, st) && st.position < |env.source|
    ensures Yields(env, st, parsed) && st.position < parsed.st.position
    decreases |env.source|, |env.source| + 1 - st.position, 4, 0
  {
    var end := NameEnd(env.source, st.position);
    var command := env.source[st.position..end];
    var next := st.(position := end);
    SliceInherits(env.source, st.position, end);
    if command !in env.tables.commands then
      LitBelow(command, LimitOf(env, st.nodes));
      Parsed(next.(supported := false), [Char('\\')] + Lit(command))
    else
      var parsed := RunCommand(env, next, stacking, command);
      AdvancesOn(env, st, next, parsed.st);
      parsed
  }

  function RunCommand(env: Env, st: State, stacking: bool, command: string): (parsed: Parsed)
    requires Proper(env) && Ready(env, st) && command in env.tables.commands && (env.clean ==> NoStart(command))
    ensures Yields(env, st, parsed)
    decreases |env.source|, |env.source| + 1 - st.position, 9
  {
    var kind := env.tables.commands[command];
    assert CleanCommand(kind);
    if kind.LimitOperator? then
      LitBelow(command, LimitOf(env, st.nodes));
      OperatorOf(env, st, Lit(command), true, true, true)
    else if kind.Symbol? && kind.displayLimits then
      LitBelow(kind.text, LimitOf(env, st.nodes));
      OperatorOf(env, st, Lit(kind.text), false, true, false)
    else if Constant(kind) then
      ConstantBelow(kind, command, LimitOf(env, st.nodes));
      Parsed(st, ConstantText(kind, command))
    else if kind.Delimiter? then
      Parsed(if st.position < |env.source| && env.source[st.position] == '.' then st.(position := st.position + 1) else st, [])
    else if kind.Begin? then EnvironmentOf(env, st)
    else if kind.End? then Parsed(st.(supported := false), [])
    else RunWithArguments(env, st, stacking, command)
  }

  function RunWithArguments(env: Env, st: State, stacking: bool, command: string): (parsed: Parsed)
    requires Proper(env) && Ready(env, st) && command in env.tables.commands && (env.clean ==> NoStart(command))
    ensures Yields(env, st, parsed)
    decreases |env.source|, |env.source| + 1 - st.position, 8
  {
    var kind := env.tables.commands[command];
    if kind.Not? then NotOf(env, st, stacking)
    else if kind.Frac? then FractionOf(env, st, stacking, kind.inline)
    else if kind.Sqrt? then RootOf(env, st, stacking)
    else if kind.Binom? then BinomOf(env, st, stacking)
    else if kind.OperatorName? then OperatorNameOf(env, st, stacking)
    else if kind.OverUnder? then OverUnderOf(env, st, stacking, kind.sub)
    else WrappedOf(env, st, stacking, command)
  }

  /** The commands that read nothing and always mean the same text. */
  predicate Constant(kind: Command) {
    kind.LineBreak? || kind.Spacing? || kind.NegativeSpacing? || kind.Ignored? || kind.Literal? || kind.DoubleBar?
    || kind.Symbol? || kind.NamedOperator? || kind.Mod?
  }

  function ConstantText(kind: Command, command: string): Text {
    match kind
    case LineBreak => [Char('\n')]
    case Spacing => [SPACE]
    case NegativeSpacing => NEGATIVE_SPACE
    case Literal => Lit(command)
    case DoubleBar => [Char('\U{2016}')]
    case Symbol(text, _, spaced) => if spaced then [SPACE] + Lit(text) + [SPACE] else Lit(text)
    case NamedOperator => [NAMED_START] + Lit(command) + [NAMED_END]
    case Mod => Lit(" mod ")
    case _ => []
  }

  lemma ConstantBelow(kind: Command, command: string, limit: Limit)
    requires CleanCommand(kind) && (limit.clean ==> NoStart(command))
    ensures Below(ConstantText(kind, command), limit)
  {
    LitBelow(command, limit);
    LitBelow(" mod ", limit);
    if kind.Symbol? {
      LitBelow(kind.text, limit);
    }
  }

  /** The commands that decorate one argument. */
  function WrappedOf(env: Env, st: State, stacking: bool, command: string): (parsed: Parsed)
    requires Proper(env) && Ready(env, st) && command in env.tables.commands && (env.clean ==> NoStart(command))
    ensures Yields(env, st, parsed)
    decreases |env.source|, |env.source| + 1 - st.position, 8, 0
  {
    var value := RequiredArgument(env, st, stacking);
    var limit := LimitOf(env, value.st.nodes);
    var text := Decorated(env.tables.commands[command], command, value.text, env.tables);
    DecoratedBelow(env.tables.commands[command], command, value.text, env.tables, limit);
    Parsed(value.st, text)
  }

  function Decorated(kind: Command, command: string, value: Text, tables: Tables): Text {
    match kind
    case Boxed => [Char('[')] + Trim(value) + [Char(']')]
    case Accent(mark) => if OneCharacter(value) then value + [Char(mark)] else Lit(command) + [Char('(')] + value + [Char(')')]
    case Blackboard => MapChars(value, tables.blackboard)
    case ParenthesizedMod(word) => Lit(if word then " (mod " else " (") + Trim(value) + [Char(')')]
    case Wrapper(keepSpace) => if keepSpace then value else Trim(value)
    case _ => value
  }

  lemma DecoratedBelow(kind: Command, command: string, value: Text, tables: Tables, limit: Limit)
    requires CleanTables(tables) && CleanCommand(kind) && (limit.clean ==> NoStart(command)) && Below(value, limit)
    ensures Below(Decorated(kind, command, value, tables), limit)
  {
    TrimsBelow(value, limit);
    LitBelow(command, limit);
    match kind {
      case Accent(_) => AppendBelow(Lit(command) + [Char('(')], value, limit);
      case Blackboard => MapCharsBelow(value, tables.blackboard, limit);
      case ParenthesizedMod(word) =>
        LitBelow(if word then " (mod " else " (", limit);
        AppendBelow(Lit(if word then " (mod " else " ("), Trim(value), limit);
      case _ =>
    }
  }

  function NotOf(env: Env, st: State, stacking: bool): (parsed: Parsed)
    requires Proper(env) && Ready(env, st)
    ensures Yields(env, st, parsed)
    decreases |env.source|, |env.source| + 1 - st.position, 8, 0
  {
    var argument := RequiredArgument(env, st, false);
    var value := Trim(argument.text);
    TrimsBelow(argument.text, LimitOf(env, argument.st.nodes));
    if value in env.tables.negated then Parsed(argument.st, [SPACE, Char(env.tables.negated[value]), SPACE])
    else if value == [] then Parsed(argument.st.(supported := false), [])
    else
      NegatedBelow(value, LimitOf(env, argument.st.nodes));
      Parsed(argument.st, Negated(value))
  }

  /** Two arguments, one after the other. */
  function TwoArguments(env: Env, st: State, stacking: bool): (arguments: (Text, Parsed))
    requires Proper(env) && Ready(env, st)
    ensures Yields(env, st, arguments.1) && Holds(env, arguments.1.st.nodes, arguments.0)
    decreases |env.source|, |env.source| + 1 - st.position, 7, 2
  {
    var first := RequiredArgument(env, st, stacking);
    var second := RequiredArgument(env, first.st, stacking);
    AdvancesOn(env, st, first.st, second.st);
    StillHolds(env, first.st, second.st, first.text);
    (first.text, second)
  }

  /** A fraction is stacked in display mode, outside scripts and unless it is a text fraction. */
  function FractionOf(env: Env, st: State, stacking: bool, inline: bool): (parsed: Parsed)
    requires Proper(env) && Ready(env, st)
    ensures Yields(env, st, parsed)
    ensures !inline && env.display && stacking ==>
              var last := |parsed.st.nodes| - 1;
              last >= |st.nodes| && parsed.text == [Marker(last)] && parsed.st.nodes[last].Fraction?
    decreases |env.source|, |env.source| + 1 - st.position, 8, 0
  {
    var shouldStack := env.display && stacking && !inline;
    var (numerator, second) := TwoArguments(env, st, stacking && !shouldStack);
    var limit := LimitOf(env, second.st.nodes);
    if shouldStack then
      NormalizeBelow(numerator, env.tables, limit);
      NormalizeBelow(second.text, env.tables, limit);
      var pushed := Push(env, second.st, Fraction(NormalizeOutput(numerator, env.tables), NormalizeOutput(second.text, env.tables)));
      AdvancesOn(env, st, second.st, pushed.st);
      pushed
    else
      FormatFractionBelow(numerator, second.text, env.tables, limit);
      Parsed(second.st, FormatFraction(numerator, second.text, env.tables))
  }

  function RootOf(env: Env, st: State, stacking: bool): (parsed: Parsed)
    requires Proper(env) && Ready(env, st)
    ensures Yields(env, st, parsed)
    decreases |env.source|, |env.source| + 1 - st.position, 8, 0
  {
    var (degree, between) := OptionalArgument(env, st);
    var value := RequiredArgument(env, between, stacking);
    AdvancesOn(env, st, between, value.st);
    StillHolds(env, between, value.st, degree.GetOr([]));
    RootBelow(degree, value.text, env.tables, LimitOf(env, value.st.nodes));
    Parsed(value.st, RootText(degree, value.text, env.tables))
  }

  function RootText(degree: Option<Text>, value: Text, tables: Tables): Text {
    if degree.None? then FormatRoot(value, '\U{221A}', tables)
    else
      var d := Trim(degree.value);
      if d == [Char('2')] then FormatRoot(value, '\U{221A}', tables)
      else if d == [Char('3')] then FormatRoot(value, '\U{221B}', tables)
      else if d == [Char('4')] then FormatRoot(value, '\U{221C}', tables)
      else FormatScript(d, false, tables) + FormatRoot(value, '\U{221A}', tables)
  }

  lemma RootBelow(degree: Option<Text>, value: Text, tables: Tables, limit: Limit)
    requires CleanTables(tables) && Below(degree.GetOr([]), limit) && Below(value, limit)
    ensures Below(RootText(degree, value, tables), limit)
  {
    FormatRootBelow(value, '\U{221A}', tables, limit);
    FormatRootBelow(value, '\U{221B}', tables, limit);
    FormatRootBelow(value, '\U{221C}', tables, limit);
    if degree.Some? {
      TrimsBelow(degree.value, limit);
      FormatScriptBelow(Trim(degree.value), false, tables, limit);
    }
  }

  function BinomOf(env: Env, st: State, stacking: bool): (parsed: Parsed)
    requires Proper(env) && Ready(env, st)
    ensures Yields(env, st, parsed)
    decreases |env.source|, |env.source| + 1 - st.position, 8, 0
  {
    var (first, second) := TwoArguments(env, st, stacking);
    ChoiceBelow(first, second.text, LimitOf(env, second.st.nodes));
    Parsed(second.st, Choice(first, second.text))
  }

  function Choice(first: Text, second: Text): Text {
    [Char('(')] + first + Lit(" choose ") + second + [Char(')')]
  }

  lemma ChoiceBelow(first: Text, second: Text, limit: Limit)
    requires Below(first, limit) && Below(second, limit)
    ensures Below(Choice(first, second), limit)
  {
    LitBelow(" choose ", limit);
    AppendBelow([Char('(')], first, limit);
    AppendBelow([Char('(')] + first, Lit(" choose "), limit);
    AppendBelow([Char('(')] + first + Lit(" choose "), second, limit);
  }

  function OverUnderOf(env: Env, st: State, stacking: bool, sub: bool): (parsed: Parsed)
    requires Proper(env) && Ready(env, st)
    ensures Yields(env, st, parsed)
    decreases |env.source|, |env.source| + 1 - st.position, 8, 0
  {
    var (script, value) := TwoArguments(env, st, stacking);
    TrimsBelow(value.text, LimitOf(env, value.st.nodes));
    FormatScriptBelow(script, sub, env.tables, LimitOf(env, value.st.nodes));
    AppendBelow(Trim(value.text), FormatScript(script, sub, env.tables), LimitOf(env, value.st.nodes));
    Parsed(value.st, Trim(value.text) + FormatScript(script, sub, env.tables))
  }

  function NameText(argument: Text, tables: Tables): Text {
    Trim(NormalizeOutput(argument, tables))
  }

  lemma NameBelow(argument: Text, tables: Tables, limit: Limit)
    requires Below(argument, limit)
    ensures Below(NameText(argument, tables), limit)
  {
    NormalizeBelow(argument, tables, limit);
    TrimsBelow(NormalizeOutput(argument, tables), limit);
  }

  predicate StarAt(source: string, position: nat) {
    position < |source| && source[position] == '*'
  }

  function OperatorNameOf(env: Env, st: State, stacking: bool): (parsed: Parsed)
    requires Proper(env) && Ready(env, st)
    ensures Yields(env, st, parsed)
    decreases |env.source|, |env.source| + 1 - st.position, 8, 1
  {
    var starred := StarAt(env.source, st.position);
    NamedOperatorOf(env, if starred then st.(position := st.position + 1) else st, stacking, starred)
  }

  function NamedOperatorOf(env: Env, st: State, stacking: bool, starred: bool): (parsed: Parsed)
    requires Proper(env) && Ready(env, st)
    ensures Yields(env, st, parsed)
    decreases |env.source|, |env.source| + 1 - st.position, 8, 0
  {
    var argument := RequiredArgument(env, st, stacking);
    NameBelow(argument.text, env.tables, LimitOf(env, argument.st.nodes));
    var parsed := OperatorOf(env, argument.st, NameText(argument.text, env.tables), true, starred, true);
    AdvancesOn(env, st, argument.st, parsed.st);
    parsed
  }

  // ---------- operators ----------

  /** The limits of an operator read so far. */
  datatype Limits = Limits(st: State, lower: Option<Text>, upper: Option<Text>)

  predicate LimitsYield(env: Env, before: State, limits: Limits) {
    && Advances(env, before, limits.st)
    && Holds(env, limits.st.nodes, limits.lower.GetOr([])) && Holds(env, limits.st.nodes, limits.upper.GetOr([]))
  }

  /** One limit of an operator, after its sign. */
  function LimitText(env: Env, st: State): (parsed: Parsed)
    requires Proper(env) && Ready(env, st) && st.position < |env.source|
    ensures Yields(env, st, parsed) && st.position < parsed.st.position
    decreases |env.source|, |env.source| + 1 - st.position, 1
  {
    var argument := RequiredArgument(env, st.(position := st.position + 1), false);
    LimitFormBelow(argument.text, env.tables, LimitOf(env, argument.st.nodes));
    Parsed(argument.st, LimitForm(argument.text, env.tables))
  }

  /** How a limit is written: in normal form, without spaces. */
  function LimitForm(argument: Text, tables: Tables): Text {
    WithoutSpaces(NormalizeOutput(argument, tables))
  }

  lemma LimitFormBelow(argument: Text, tables: Tables, limit: Limit)
    requires Below(argument, limit)
    ensures Below(LimitForm(argument, tables), limit)
  {
    NormalizeBelow(argument, tables, limit);
    WithoutSpacesBelow(NormalizeOutput(argument, tables), limit);
  }

  /** One more limit, at its sign; a second one of a kind is not supported. */
  function OneLimit(env: Env, so: Limits, at: nat): (limits: Limits)
    requires Proper(env) && LimitsYield(env, so.st, so) && so.st.position <= at < |env.source|
    ensures LimitsYield(env, so.st, limits) && at < limits.st.position
    decreases |env.source|, |env.source| + 1 - so.st.position, 2, 0
  {
    var sub := env.source[at] == '_';
    var value := LimitText(env, so.st.(position := at));
    var twice := if sub then so.lower.Some? else so.upper.Some?;
    var after := if twice then value.st.(supported := false) else value.st;
    StillHolds(env, so.st, after, so.lower.GetOr([]));
    StillHolds(env, so.st, after, so.upper.GetOr([]));
    if sub then Limits(after, Some(value.text), so.upper) else Limits(after, so.lower, Some(value.text))
  }

  /** Where the next limit of an operator stands. */
  function LimitSign(source: string, position: nat): (at: Option<nat>)
    ensures at.Some? ==> position <= at.value < |source|
  {
    if position >= |source| then None
    else
      var at := SkipGaps(source, position);
      if at < |source| && (source[at] == '_' || source[at] == '^') then Some(at) else None
  }

  /** The limits of an operator. */
  function LimitsOf(env: Env, so: Limits): (limits: Limits)
    requires Proper(env) && LimitsYield(env, so.st, so)
    ensures LimitsYield(env, so.st, limits)
    decreases |env.source|, |env.source| + 1 - so.st.position, 3
  {
    var at := LimitSign(env.source, so.st.position);
    if at.None? then so
    else
      var next := OneLimit(env, so, at.value);
      var limits := LimitsOf(env, next);
      AdvancesOn(env, so.st, next.st, limits.st);
      limits
  }

  /** A `\limits` or `\nolimits` before the limits decides how they are set. */
  function OperatorOf(env: Env, st: State, operator: Text, bracket: bool, displayLimits: bool, spaced: bool): (parsed: Parsed)
    requires Proper(env) && Ready(env, st) && Holds(env, st.nodes, operator)
    ensures Yields(env, st, parsed)
    decreases |env.source|, |env.source| + 1 - st.position, 5
  {
    var modifier := ModifierAt(env.source, st.position);
    if modifier.None? then LimitedOf(env, st, operator, bracket, displayLimits, spaced)
    else
      var next := st.(position := modifier.value.0);
      var parsed := LimitedOf(env, next, operator, bracket, modifier.value.1, spaced);
      AdvancesOn(env, st, next, parsed.st);
      parsed
  }

  function ModifierAt(source: string, position: nat): (r: Option<(nat, bool)>)
    ensures r.Some? ==> position < r.value.0 <= |source|
  {
    if position > |source| then None else LimitsAt(source, SkipGaps(source, position))
  }

  /** An operator with its limits: a node in display mode, and text otherwise. */
  function LimitedOf(env: Env, st: State, operator: Text, bracket: bool, useDisplayLimits: bool, spaced: bool): (parsed: Parsed)
    requires Proper(env) && Ready(env, st) && Holds(env, st.nodes, operator)
    ensures Yields(env, st, parsed)
    decreases |env.source|, |env.source| + 1 - st.position, 4
  {
    var limits := LimitsOf(env, Limits(st, None, None));
    StillHolds(env, st, limits.st, operator);
    if env.display && useDisplayLimits && (limits.lower.Some? || limits.upper.Some?) then
      var pushed := Push(env, limits.st, Operator(operator, limits.lower, limits.upper));
      AdvancesOn(env, st, limits.st, pushed.st);
      pushed
    else
      InlineBelow(operator, limits.lower, limits.upper, bracket, spaced, env.tables, LimitOf(env, limits.st.nodes));
      Parsed(limits.st, InlineOperator(operator, limits.lower, limits.upper, bracket, spaced, env.tables))
  }

  function InlineOperator(operator: Text, lower: Option<Text>, upper: Option<Text>, bracket: bool, spaced: bool, tables: Tables): Text {
    var rendered := operator + InlineLower(lower, bracket, tables)
                    + if upper.None? then [] else FormatScript(upper.value, false, tables);
    if spaced then [SPACE] + rendered + [SPACE] else rendered
  }

  function InlineLower(lower: Option<Text>, bracket: bool, tables: Tables): Text {
    if lower.None? then []
    else if bracket then [Char('[')] + lower.value + [Char(']')]
    else FormatScript(lower.value, true, tables)
  }

  lemma InlineBelow(operator: Text, lower: Option<Text>, upper: Option<Text>, bracket: bool, spaced: bool, tables: Tables, limit: Limit)
    requires CleanTables(tables) && Below(operator, limit) && Below(lower.GetOr([]), limit) && Below(upper.GetOr([]), limit)
    ensures Below(InlineOperator(operator, lower, upper, bracket, spaced, tables), limit)
  {
    FormatScriptBelow(lower.GetOr([]), true, tables, limit);
    FormatScriptBelow(upper.GetOr([]), false, tables, limit);
    AppendBelow(operator, InlineLower(lower, bracket, tables), limit);
    AppendBelow(operator + InlineLower(lower, bracket, tables),
                if upper.None? then [] else FormatScript(upper.value, false, tables), limit);
  }

  // ---------- arguments ----------

  /** `parseRequiredArgument`; `stacking` is what holds inside the argument. */
  function RequiredArgument(env: Env, st: State, stacking: bool): (parsed: Parsed)
    requires Proper(env) && Ready(env, st)
    ensures Yields(env, st, parsed)
    decreases |env.source|, |env.source| + 1 - st.position, 7, 0
  {
    var at := if st.position < |env.source| then SkipSpace(env.source, st.position) else st.position;
    var next := st.(position := at);
    if at >= |env.source| then Parsed(next.(supported := false), [])
    else if env.source[at] == '{' then SequenceOf(env, st.(position := at + 1), stacking, Some('}'), [])
    else if env.source[at] == '\\' then CommandOf(env, next, stacking)
    else Parsed(st.(position := at + 1), [Char(env.source[at])])
  }

  /** The source of an optional argument in brackets. */
  function OptionalSource(env: Env, st: State): (part: (Option<string>, State))
    requires Proper(env) && Ready(env, st)
    ensures Advances(env, st, part.1) && (part.0.Some? ==> PartOf(env, part.0.value))
  {
    if st.position >= |env.source| then (None, st)
    else
      var at := SkipGaps(env.source, st.position);
      if at == |env.source| || env.source[at] != '[' then (None, st.(position := at))
      else
        var end := IndexOf(env.source, "]", at + 1);
        if end.None? then (None, st.(position := at, supported := false))
        else
          SliceInherits(env.source, at + 1, end.value);
          (Some(env.source[at + 1..end.value]), st.(position := end.value + 1))
  }

  function OptionalArgument(env: Env, st: State): (argument: (Option<Text>, State))
    requires Proper(env) && Ready(env, st)
    ensures Advances(env, st, argument.1) && Holds(env, argument.1.nodes, argument.0.GetOr([]))
    decreases |env.source|, |env.source| + 1 - st.position, 2
  {
    var (part, next) := OptionalSource(env, st);
    if part.None? then (None, next)
    else
      var rendered := Nested(env, next, part.value, true);
      AdvancesOn(env, st, next, rendered.st);
      (Some(rendered.text), rendered.st)
  }

  /** Where a group in braces ends, unparsed. A backslash skips the character after it, even past the end. */
  function GroupEnd(source: string, position: nat, depth: nat): (end: Option<nat>)
    requires position <= |source| + 1 && depth > 0
    ensures end.Some? ==> position <= end.value < |source|
    decreases |source| + 1 - position
  {
    if position >= |source| then None
    else if source[position] == '\\' then
      if position + 2 <= |source| then GroupEnd(source, position + 2, depth) else None
    else if source[position] == '{' then GroupEnd(source, position + 1, depth + 1)
    else if source[position] == '}' then if depth == 1 then Some(position) else GroupEnd(source, position + 1, depth - 1)
    else GroupEnd(source, position + 1, depth)
  }

  /** Where the scan for the end of a group gives up: at the end, or past it after a final backslash. */
  function GroupStop(source: string, position: nat): (stop: nat)
    requires position <= |source| + 1
    ensures position <= stop <= |source| + 1 && stop >= |source|
    decreases |source| + 1 - position
  {
    if position >= |source| then position
    else if source[position] == '\\' then GroupStop(source, position + 2)
    else GroupStop(source, position + 1)
  }

  function RawGroup(env: Env, st: State): (group: (Option<string>, State))
    requires Proper(env) && Ready(env, st)
    ensures Advances(env, st, group.1)
    ensures group.0.Some? ==> group.1.position <= |env.source| && |group.0.value| < |env.source|
  {
    if st.position >= |env.source| then (None, st.(supported := false))
    else
      var at := SkipGaps(env.source, st.position);
      if at == |env.source| || env.source[at] != '{' then (None, st.(position := at, supported := false))
      else
        var end := GroupEnd(env.source, at + 1, 1);
        if end.Some? then (Some(env.source[at + 1..end.value]), st.(position := end.value + 1))
        else (None, st.(position := GroupStop(env.source, at + 1), supported := false))
  }

  // ---------- nested parsers ----------

  /** What a nested parser may be given: a shorter source that adds no marker and no separator. */
  predicate PartOf(env: Env, part: string) {
    |part| < |env.source| && (env.clean ==> NoStart(part)) && (Flat(env.source) ==> Flat(part))
  }

  /** A nested parser on a part of the source, which shares the node table. */
  function Nested(env: Env, st: State, part: string, stack: bool): (parsed: Parsed)
    requires Proper(env) && Ready(env, st) && PartOf(env, part)
    ensures Yields(env, st, parsed) && parsed.st.position == st.position
    ensures !stack && Flat(part) ==> |parsed.st.nodes| == |st.nodes| && Below(parsed.text, Limit(0, env.clean))
    decreases |env.source|, |env.source| + 1 - st.position, 0
  {
    var inner := Env(part, env.display && stack, env.tables, env.clean);
    var result := Whole(inner, st.nodes);
    var after := st.(nodes := result.st.nodes, supported := st.supported && result.st.supported);
    if result.st.supported then
      BelowMore(result.text, LimitOf(inner, result.st.nodes), LimitOf(env, after.nodes));
      Parsed(after, result.text)
    else
      LitBelow(part, Limit(0, env.clean));
      BelowMore(Lit(part), Limit(0, env.clean), LimitOf(env, after.nodes));
      Parsed(after, Lit(part))
  }

  /** `render`: the normal form of the whole source. It is of use only if `supported`. */
  function Whole(env: Env, nodes: seq<Node>): (parsed: Parsed)
    requires Proper(env) && TableInv(nodes, env.clean)
    ensures Yields(env, State(0, true, nodes), parsed)
    ensures parsed.st.supported ==> parsed.st.position == |env.source|
    decreases |env.source|, |env.source| + 1, 9
  {
    var value := SequenceOf(env, State(0, true, nodes), true, None, []);
    NormalizeBelow(value.text, env.tables, LimitOf(env, value.st.nodes));
    Parsed(value.st, NormalizeOutput(value.text, env.tables))
  }

  // ---------- environments ----------

  /** Rows of cells; cells are parsed without display mode and hold no separators, so they hold no markers. */
  datatype Rows = Rows(st: State, rows: seq<seq<Text>>)

  predicate RowPlain(row: seq<Text>, clean: bool) {
    AllBelow(row, Limit(0, clean))
  }

  predicate RowsPlain(rows: seq<seq<Text>>, clean: bool) {
    forall r :: 0 <= r < |rows| ==> RowPlain(rows[r], clean)
  }

  predicate CellsFit(env: Env, cells: seq<string>) {
    forall c :: 0 <= c < |cells| ==> PartOf(env, cells[c]) && Flat(cells[c])
  }

  function CellText(env: Env, st: State, cell: string): (parsed: Parsed)
    requires Proper(env) && Ready(env, st) && PartOf(env, cell) && Flat(cell)
    ensures Advances(env, st, parsed.st) && parsed.st.position == st.position && |parsed.st.nodes| == |st.nodes|
    ensures Below(parsed.text, Limit(0, env.clean))
    decreases |env.source|, |env.source| + 1 - st.position, 1, 0, 0
  {
    var rendered := Nested(env, st, cell, false);
    TrimsBelow(rendered.text, Limit(0, env.clean));
    Parsed(rendered.st, Trim(rendered.text))
  }

  /** The rendered cells of one row, from cell `c` on when `row` has been rendered. */
  function CellTexts(env: Env, st: State, cells: seq<string>, c: nat, row: seq<Text>): (all: (seq<Text>, State))
    requires Proper(env) && Ready(env, st) && CellsFit(env, cells) && c == |row| <= |cells| && RowPlain(row, env.clean)
    ensures Advances(env, st, all.1) && all.1.position == st.position && |all.1.nodes| == |st.nodes|
    ensures |all.0| == |cells| && RowPlain(all.0, env.clean)
    decreases |env.source|, |env.source| + 1 - st.position, 1, |cells| - c
  {
    if c == |cells| then (row, st)
    else
      var cell := CellText(env, st, cells[c]);
      var all := CellTexts(env, cell.st, cells, c + 1, row + [cell.text]);
      AdvancesOn(env, st, cell.st, all.1);
      all
  }

  predicate RowsFitIn(env: Env, rows: seq<string>) {
    forall r :: 0 <= r < |rows| ==> |rows[r]| < |env.source| && NoBreak(rows[r]) && (env.clean ==> NoStart(rows[r]))
  }

  predicate HasContent(row: seq<Text>) {
    exists c :: 0 <= c < |row| && row[c] != []
  }

  function RowText(env: Env, st: State, source: string): (row: (seq<Text>, State))
    requires Proper(env) && Ready(env, st) && RowsFitIn(env, [source])
    ensures Advances(env, st, row.1) && row.1.position == st.position && |row.1.nodes| == |st.nodes|
    ensures RowPlain(row.0, env.clean)
    decreases |env.source|, |env.source| + 1 - st.position, 2, 0, 0
  {
    assert [source][0] == source;
    CellsFitRow(env, source);
    CellTexts(env, st, SplitOn(source, '&'), 0, [])
  }

  /** The rendered rows that have a cell with content, from row `r` on when `rows` have been rendered. */
  function RowTexts(env: Env, st: State, sources: seq<string>, r: nat, rows: seq<seq<Text>>): (all: Rows)
    requires Proper(env) && Ready(env, st) && RowsFitIn(env, sources) && |rows| <= r <= |sources| && RowsPlain(rows, env.clean)
    ensures Advances(env, st, all.st) && all.st.position == st.position && |all.st.nodes| == |st.nodes|
    ensures |all.rows| <= |sources| && RowsPlain(all.rows, env.clean)
    decreases |env.source|, |env.source| + 1 - st.position, 2, |sources| - r
  {
    if r == |sources| then Rows(st, rows)
    else
      var (row, after) := RowText(env, st, sources[r]);
      var all := RowTexts(env, after, sources, r + 1, if HasContent(row) then rows + [row] else rows);
      AdvancesOn(env, st, after, all.st);
      all
  }

  lemma CellsFitRow(env: Env, row: string)
    requires |row| < |env.source| && NoBreak(row) && (env.clean ==> NoStart(row))
    ensures CellsFit(env, SplitOn(row, '&'))
  {
    var cells := SplitOn(row, '&');
    CellsInherit(row);
    forall c | 0 <= c < |cells| ensures PartOf(env, cells[c]) && Flat(cells[c]) {
      CellsAreShort(cells, c);
    }
  }

  function TableRows(env: Env, st: State, body: string): (rows: Rows)
    requires Proper(env) && Ready(env, st) && PartOf(env, body)
    ensures Advances(env, st, rows.st) && rows.st.position == st.position && |rows.st.nodes| == |st.nodes|
    ensures RowsPlain(rows.rows, env.clean) && (Quiet(env) ==> |rows.rows| <= 1)
    decreases |env.source|, |env.source| + 1 - st.position, 3
  {
    RowsInherit(body);
    RowTexts(env, st, SplitRows(body), 0, [])
  }

  /** The name and the body of an environment. Without a name nothing more is read. */
  function EnvironmentSource(env: Env, st: State): (parts: (Option<(string, string)>, State))
    requires Proper(env) && Ready(env, st)
    ensures Advances(env, st, parts.1) && (parts.0.Some? ==> PartOf(env, parts.0.value.1))
  {
    var (name, after) := RawGroup(env, st);
    if name.None? || name.value == "" then (None, after)
    else
      var endMarker := "\\end{" + name.value + "}";
      var end := IndexOf(env.source, endMarker, after.position);
      if end.None? then (None, after.(supported := false))
      else
        SliceInherits(env.source, after.position, end.value);
        (Some((name.value, env.source[after.position..end.value])), after.(position := end.value + |endMarker|))
  }

  function EnvironmentOf(env: Env, st: State): (parsed: Parsed)
    requires Proper(env) && Ready(env, st)
    ensures Yields(env, st, parsed)
    decreases |env.source|, |env.source| + 1 - st.position, 6
  {
    var (parts, next) := EnvironmentSource(env, st);
    if parts.None? then Parsed(next, [])
    else
      var (name, body) := parts.value;
      LitBelow(body, LimitOf(env, next.nodes));
      if name !in env.tables.environments then Parsed(next.(supported := false), Lit(body))
      else
        var parsed := BodyOf(env, next, body, env.tables.environments[name]);
        AdvancesOn(env, st, next, parsed.st);
        parsed
  }

  function BodyOf(env: Env, st: State, body: string, kind: Environment): (parsed: Parsed)
    requires Proper(env) && Ready(env, st) && PartOf(env, body) && CleanEnvironment(kind)
    ensures Yields(env, st, parsed)
    decreases |env.source|, |env.source| + 1 - st.position, 5
  {
    match kind
    case Equation =>
      var rendered := Nested(env, st, body, true);
      TrimsBelow(rendered.text, LimitOf(env, rendered.st.nodes));
      Parsed(rendered.st, Trim(rendered.text))
    case Aligned(at) =>
      WithoutLeadingGroupInherits(body);
      var source := if at then WithoutLeadingGroup(body) else body;
      RowsArePartsOf(env, source);
      var (lines, after) := AlignedLines(env, st, SplitRows(source), at, 0, []);
      JoinLinesBelow(lines, LimitOf(env, after.nodes));
      Parsed(after, JoinLines(lines))
    case Cases =>
      var rows := TableRows(env, st, body);
      var lines := CaseLines(rows.rows, |rows.rows|);
      CaseLinesBelow(rows.rows, |rows.rows|, env.clean);
      JoinLinesBelow(lines, Limit(0, env.clean));
      BelowMore(JoinLines(lines), Limit(0, env.clean), LimitOf(env, rows.st.nodes));
      Parsed(rows.st, JoinLines(lines))
    case Grid(columns, delimiters) =>
      WithoutLeadingGroupInherits(body);
      GridOf(env, st, if columns then WithoutLeadingGroup(body) else body, delimiters)
  }

  predicate PartsOf(env: Env, parts: seq<string>) {
    forall r :: 0 <= r < |parts| ==> PartOf(env, parts[r])
  }

  lemma RowsArePartsOf(env: Env, body: string)
    requires PartOf(env, body)
    ensures PartsOf(env, SplitRows(body))
  {
    var rows := SplitRows(body);
    RowsInherit(body);
    forall r | 0 <= r < |rows| ensures PartOf(env, rows[r]) {
      if Flat(env.source) {
        assert rows == [body];
      }
    }
  }

  function AlignedLine(env: Env, st: State, source: string, at: bool): (line: Parsed)
    requires Proper(env) && Ready(env, st) && PartOf(env, source)
    ensures Yields(env, st, line) && line.st.position == st.position
    decreases |env.source|, |env.source| + 1 - st.position, 1
  {
    AlignedInherits(source, at);
    var rendered := Nested(env, st, AlignedSource(source, at), true);
    TrimsBelow(rendered.text, LimitOf(env, rendered.st.nodes));
    Parsed(rendered.st, Trim(rendered.text))
  }

  /** The rows of an aligned environment that are not empty, from row `r` on when `lines` have been rendered. */
  function AlignedLines(env: Env, st: State, sources: seq<string>, at: bool, r: nat, lines: seq<Text>): (all: (seq<Text>, State))
    requires Proper(env) && Ready(env, st) && PartsOf(env, sources) && r <= |sources| && AllBelow(lines, LimitOf(env, st.nodes))
    ensures Advances(env, st, all.1) && AllBelow(all.0, LimitOf(env, all.1.nodes)) && all.1.position == st.position
    decreases |env.source|, |env.source| + 1 - st.position, 3, |sources| - r
  {
    if r == |sources| then (lines, st)
    else
      var line := AlignedLine(env, st, sources[r], at);
      StillHoldAll(env, st, line.st, lines);
      var all := AlignedLines(env, line.st, sources, at, r + 1, if line.text != [] then lines + [line.text] else lines);
      AdvancesOn(env, st, line.st, all.1);
      all
  }

  lemma StillHoldAll(env: Env, before: State, after: State, lines: seq<Text>)
    requires AllBelow(lines, LimitOf(env, before.nodes)) && Advances(env, before, after)
    ensures AllBelow(lines, LimitOf(env, after.nodes))
  {
    forall l | 0 <= l < |lines| ensures Below(lines[l], LimitOf(env, after.nodes)) {
      StillHolds(env, before, after, lines[l]);
    }
  }

  function WithoutFinalComma(value: Text): Text {
    var trimmed := TrimEnd(value);
    if trimmed != [] && trimmed[|trimmed| - 1] == Char(',') then trimmed[..|trimmed| - 1] else value
  }

  predicate StartsWithWord(text: Text, word: string) {
    && |word| <= |text|
    && (forall i :: 0 <= i < |word| ==> text[i].Char? && Lower(text[i].c) == word[i])
    && (|word| < |text| ==> !text[|word|].Char? || !IsWordCharacter(text[|word|].c))
  }

  function Lower(c: char): char {
    if 'A' <= c <= 'Z' then (c as int + 32) as char else c
  }

  predicate IsWordCharacter(c: char) {
    IsLetter(c) || '0' <= c <= '9' || c == '_'
  }

  /** The condition begins with if, when, for or otherwise as a word of its own, in any case. */
  predicate HasConnective(condition: Text) {
    StartsWithWord(condition, "if") || StartsWithWord(condition, "when") || StartsWithWord(condition, "for")
    || StartsWithWord(condition, "otherwise")
  }

  function CaseLine(delimiter: char, row: seq<Text>): Text {
    var condition := CellAt(row, 1);
    [Char(delimiter), SPACE] + WithoutFinalComma(CellAt(row, 0))
    + if condition == [] then []
      else if HasConnective(condition) then [SPACE] + condition
      else [SPACE, Char('i'), Char('f'), SPACE] + condition
  }

  /** The first `n` lines of a case distinction. */
  function CaseLines(rows: seq<seq<Text>>, n: nat): seq<Text>
    requires n <= |rows|
  {
    if n == 0 then [] else CaseLines(rows, n - 1) + [CaseLine(CaseDelimiter(n - 1, |rows|), rows[n - 1])]
  }

  function CaseDelimiter(index: nat, count: nat): char {
    if index == 0 then '\U{23A7}' else if index == count - 1 then '\U{23A9}' else '\U{23A8}'
  }

  lemma CaseLineBelow(delimiter: char, row: seq<Text>, limit: Limit)
    requires AllBelow(row, limit) && Char(delimiter) != MARKER_START
    ensures Below(CaseLine(delimiter, row), limit)
  {
    var value, condition := WithoutFinalComma(CellAt(row, 0)), CellAt(row, 1);
    assert Below(CellAt(row, 0), limit) && Below(condition, limit);
    TrimsBelow(CellAt(row, 0), limit);
    AppendBelow([Char(delimiter), SPACE], value, limit);
    AppendBelow([SPACE], condition, limit);
    AppendBelow([SPACE, Char('i'), Char('f'), SPACE], condition, limit);
    AppendBelow([Char(delimiter), SPACE] + value, [SPACE] + condition, limit);
    AppendBelow([Char(delimiter), SPACE] + value, [SPACE, Char('i'), Char('f'), SPACE] + condition, limit);
  }

  lemma {:induction false} CaseLinesBelow(rows: seq<seq<Text>>, n: nat, clean: bool)
    requires n <= |rows| && RowsPlain(rows, clean)
    ensures AllBelow(CaseLines(rows, n), Limit(0, clean))
    decreases n
  {
    if n > 0 {
      assert RowPlain(rows[n - 1], clean);
      CaseLineBelow(CaseDelimiter(n - 1, |rows|), rows[n - 1], Limit(0, clean));
      CaseLinesBelow(rows, n - 1, clean);
      OneMoreBelow(CaseLines(rows, n - 1), CaseLine(CaseDelimiter(n - 1, |rows|), rows[n - 1]), Limit(0, clean));
    }
  }

  lemma OneMoreBelow(lines: seq<Text>, line: Text, limit: Limit)
    requires AllBelow(lines, limit) && Below(line, limit)
    ensures AllBelow(lines + [line], limit)
  {
  }

  function CellAt(row: seq<Text>, column: nat): Text {
    if column < |row| then row[column] else []
  }

  function MostColumns(rows: seq<seq<Text>>): nat {
    if rows == [] then 0 else Max(|rows[0]|, MostColumns(rows[1..]))
  }

  function ColumnWidth(rows: seq<seq<Text>>, column: nat): (width: nat)
    ensures forall r :: 0 <= r < |rows| ==> |CellAt(rows[r], column)| <= width
  {
    if rows == [] then 0 else Max(|CellAt(rows[0], column)|, ColumnWidth(rows[1..], column))
  }

  function ProtectedSpaces(n: nat): (s: Text)
    ensures |s| == n
  {
    if n == 0 then [] else [PROTECTED_SPACE] + ProtectedSpaces(n - 1)
  }

  /** The first cells of a row, padded to the widths of their columns, with rules between them. */
  function GridLine(rows: seq<seq<Text>>, row: seq<Text>, columns: nat): Text
    decreases columns
  {
    if columns == 0 then []
    else
      var cell, width := CellAt(row, columns - 1), ColumnWidth(rows, columns - 1);
      var padded := cell + ProtectedSpaces(if |cell| < width then width - |cell| else 0);
      if columns == 1 then padded else GridLine(rows, row, columns - 1) + [SPACE, Char('\U{2502}'), SPACE] + padded
  }

  function Delimited(line: Text, index: nat, count: nat, delimiters: Option<Delimiters>): Text {
    if delimiters.None? then line
    else
      var pair := if index == 0 then delimiters.value.first
                  else if index == count - 1 then delimiters.value.last else delimiters.value.middle;
      [Char(pair.0), SPACE] + line + [SPACE, Char(pair.1)]
  }

  /** The first `n` lines of a matrix. */
  function GridLines(rows: seq<seq<Text>>, n: nat, delimiters: Option<Delimiters>): (lines: seq<Text>)
    requires n <= |rows|
    ensures |lines| == n
  {
    if n == 0 then []
    else
      GridLines(rows, n - 1, delimiters)
      + [Delimited(GridLine(rows, rows[n - 1], MostColumns(rows)), n - 1, |rows|, delimiters)]
  }

  lemma {:induction false} SpacesBelow(n: nat, limit: Limit)
    ensures Below(ProtectedSpaces(n), limit)
  {
    if n > 0 {
      SpacesBelow(n - 1, limit);
    }
  }

  lemma {:induction false} GridLineBelow(rows: seq<seq<Text>>, row: seq<Text>, columns: nat, limit: Limit)
    requires AllBelow(row, limit)
    ensures Below(GridLine(rows, row, columns), limit)
    decreases columns
  {
    if columns > 0 {
      var cell, width := CellAt(row, columns - 1), ColumnWidth(rows, columns - 1);
      var spaces := ProtectedSpaces(if |cell| < width then width - |cell| else 0);
      SpacesBelow(|spaces|, limit);
      assert Below(cell, limit);
      AppendBelow(cell, spaces, limit);
      GridLineBelow(rows, row, columns - 1, limit);
      AppendBelow(GridLine(rows, row, columns - 1), [SPACE, Char('\U{2502}'), SPACE], limit);
      AppendBelow(GridLine(rows, row, columns - 1) + [SPACE, Char('\U{2502}'), SPACE], cell + spaces, limit);
    }
  }

  predicate CleanDelimiters(delimiters: Option<Delimiters>) {
    delimiters.Some? ==>
      CleanPair(delimiters.value.first) && CleanPair(delimiters.value.middle) && CleanPair(delimiters.value.last)
  }

  lemma DelimitedBelow(line: Text, index: nat, count: nat, delimiters: Option<Delimiters>, limit: Limit)
    requires Below(line, limit)
    requires CleanDelimiters(delimiters)
    ensures Below(Delimited(line, index, count, delimiters), limit)
  {
    if delimiters.Some? {
      var pair := if index == 0 then delimiters.value.first
                  else if index == count - 1 then delimiters.value.last else delimiters.value.middle;
      AppendBelow([Char(pair.0), SPACE], line, limit);
      AppendBelow([Char(pair.0), SPACE] + line, [SPACE, Char(pair.1)], limit);
    }
  }

  lemma {:induction false} GridLinesBelow(rows: seq<seq<Text>>, n: nat, delimiters: Option<Delimiters>, clean: bool)
    requires n <= |rows| && RowsPlain(rows, clean)
    requires CleanDelimiters(delimiters)
    ensures AllBelow(GridLines(rows, n, delimiters), Limit(0, clean))
    decreases n
  {
    if n > 0 {
      assert RowPlain(rows[n - 1], clean);
      GridLineBelow(rows, rows[n - 1], MostColumns(rows), Limit(0, clean));
      var line := GridLine(rows, rows[n - 1], MostColumns(rows));
      DelimitedBelow(line, n - 1, |rows|, delimiters, Limit(0, clean));
      GridLinesBelow(rows, n - 1, delimiters, clean);
      OneMoreBelow(GridLines(rows, n - 1, delimiters), Delimited(line, n - 1, |rows|, delimiters), Limit(0, clean));
    }
  }

  /** A matrix of more than one row becomes a node. */
  function GridOf(env: Env, st: State, body: string, delimiters: Option<Delimiters>): (parsed: Parsed)
    requires Proper(env) && Ready(env, st) && PartOf(env, body)
    requires CleanEnvironment(Grid(false, delimiters))
    ensures Yields(env, st, parsed)
    decreases |env.source|, |env.source| + 1 - st.position, 4
  {
    var rows := TableRows(env, st, body);
    var lines := GridLines(rows.rows, |rows.rows|, delimiters);
    GridLinesBelow(rows.rows, |rows.rows|, delimiters, env.clean);
    if |lines| <= 1 then
      var line := if |lines| == 1 then lines[0] else [];
      BelowMore(line, Limit(0, env.clean), LimitOf(env, rows.st.nodes));
      Parsed(rows.st, line)
    else
      var pushed := Push(env, rows.st, Matrix(lines, 0));
      AdvancesOn(env, st, rows.st, pushed.st);
      pushed
  }

  /** All lines of a matrix are equally wide, so its rules stand in columns. */
  lemma {:induction false} GridLinesAlign(rows: seq<seq<Text>>, r: nat, q: nat, columns: nat)
    requires r < |rows| && q < |rows|
    ensures |GridLine(rows, rows[r], columns)| == |GridLine(rows, rows[q], columns)|
    decreases columns
  {
    if columns > 1 {
      GridLinesAlign(rows, r, q, columns - 1);
    }
  }
}
