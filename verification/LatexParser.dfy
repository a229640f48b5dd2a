/**
 The recursive descent parser of packages/tui/src/latex.ts. It turns a formula into a text with markers
 and appends the nodes they name to a table that nested parsers share. Each method computes what the
 function of the grammar says, on the position, the flag and the table.
 */
module LatexParser {
  import opened Prelude
  import opened LatexLayout
  import opened LatexRender
  import opened LatexText
  import opened LatexGrammar
  import opened LatexFormula

  class NodeTable {
    var nodes: seq<Node>

    constructor ()
      ensures nodes == []
    {
      nodes := [];
    }

    /** Appends a node and returns its marker. */
    method Push(node: Node) returns (marker: Text)
      modifies this
      ensures nodes == old(nodes) + [node] && marker == [Marker(|old(nodes)|)]
    {
      marker := [Marker(|nodes|)];
      nodes := nodes + [node];
    }

    /** Puts a full stop at the end of the last line of a matrix and leaves everything else. */
    method EndWithStop(index: nat)
      requires index < |nodes| && nodes[index].Matrix? && nodes[index].lines != []
      modifies this
      ensures nodes == Stopped(old(nodes), index)
      ensures |nodes| == |old(nodes)| && nodes[index].Matrix?
      ensures forall i :: 0 <= i < |nodes| && i != index ==> nodes[i] == old(nodes[i])
      ensures var lines := old(nodes[index].lines);
              nodes[index].lines == lines[..|lines| - 1] + [lines[|lines| - 1] + [Char('.')]]
              && nodes[index].matrixBaseline == old(nodes[index].matrixBaseline)
    {
      var node := nodes[index];
      var lastLine := |node.lines| - 1;
      nodes := nodes[index := node.(lines := node.lines[lastLine := node.lines[lastLine] + [Char('.')]])];
    }
  }

  class LatexParser {
    const source: string
    const table: NodeTable
    const display: bool
    const tables: Tables
    ghost const clean: bool
    var position: nat
    var supported: bool
    var stackFractions: bool

    constructor (source: string, table: NodeTable, display: bool, tables: Tables, ghost clean: bool)
      ensures this.source == source && this.table == table && this.display == display && this.tables == tables
      ensures this.clean == clean && position == 0 && supported && stackFractions
    {
      this.source, this.table, this.display, this.tables, this.clean := source, table, display, tables, clean;
      position, supported, stackFractions := 0, true, true;
    }

    /** What the parser is given. */
    ghost function Given(): Env {
      Env(source, display, tables, clean)
    }

    /** What parsing changes. */
    ghost function Now(): State
      reads this, table
    {
      State(position, supported, table.nodes)
    }

    ghost predicate Ok()
      reads this, table
    {
      Proper(Given()) && Ready(Given(), Now())
    }

    /** Parses the whole source; nothing is returned when there is something the parser does not know. */
    method Render() returns (rendered: Option<Text>)
      requires Ok() && position == 0 && supported && stackFractions
      modifies this, table
      ensures var whole := Whole(Given(), old(table.nodes));
              Now() == whole.st && rendered == if whole.st.supported then Some(whole.text) else None
      decreases |source|, |source| + 1 - position, 9
    {
      var value := ParseSequence(None);
      if !supported || position != |source| {
        return None;
      }
      return Some(NormalizeOutput(value, tables));
    }

    /** One character of a sequence that is neither a group, a command nor a script. */
    method ParseCharacter(result: Text) returns (after: Text)
      requires Ok() && position < |source| && Holds(Given(), table.nodes, result)
      modifies this`position, table
      ensures Parsed(Now(), after) == CharacterOf(Given(), old(Now()), result)
    {
      var character := source[position];
      if IsSpace(character) {
        position := SkipSpace(source, position + 1);
        return result + [SPACE];
      }
      position := position + 1;
      if character == '=' || character == '<' || character == '>' {
        return TrimEnd(result) + [SPACE, Char(character), SPACE];
      }
      if character == '&' {
        return result;
      }
      if character == '~' {
        return result + [SPACE];
      }
      if character == '.' {
        var index := TrailingMarker(result);
        if index.Some? && index.value < |table.nodes| && table.nodes[index.value].Matrix? {
          StoppedKeeps(table.nodes, index.value, clean);
          table.EndWithStop(index.value);
          return result;
        }
      }
      return result + [Char(character)];
    }

    /** A script attaches to what is before it, inside the marks of a named operator. */
    method ParseScript(result: Text) returns (after: Text)
      requires Ok() && position < |source| && Holds(Given(), table.nodes, result)
      modifies this`position, this`supported, this`stackFractions, table
      ensures Parsed(Now(), after) == ScriptAfter(Given(), old(Now()), old(stackFractions), result)
      ensures stackFractions == old(stackFractions)
      decreases |source|, |source| + 1 - position, 4
    {
      var sub := source[position] == '_';
      position := position + 1;
      var trimmed := TrimEnd(result);
      var value := ParseRequiredArgument(false);
      var script := FormatScript(value, sub, tables);
      if trimmed != [] && trimmed[|trimmed| - 1] == NAMED_END {
        return trimmed[..|trimmed| - 1] + script + [NAMED_END];
      }
      return trimmed + script;
    }

    /** A command, of which a negative space takes white space back. */
    method ParseCommandAfter(result: Text) returns (after: Text)
      requires Ok() && position < |source| && Holds(Given(), table.nodes, result)
      modifies this`position, this`supported, this`stackFractions, table
      ensures Parsed(Now(), after) == CommandAfter(Given(), old(Now()), old(stackFractions), result)
      ensures stackFractions == old(stackFractions)
      decreases |source|, |source| + 1 - position, 5, 0
    {
      var command := ParseCommand();
      if command != NEGATIVE_SPACE {
        return result + command;
      }
      after := TrimEnd(result);
      if after != [] && after[|after| - 1] == NAMED_END {
        after := after[..|after| - 1];
      }
    }

    /** `parseSequence`, up to the end character if there is one and to the end of the source if not. */
    method ParseSequence(end: Option<char>) returns (result: Text)
      requires Ok()
      modifies this`position, this`supported, this`stackFractions, table
      ensures Parsed(Now(), result) == SequenceOf(Given(), old(Now()), old(stackFractions), end, [])
      ensures stackFractions == old(stackFractions)
      decreases |source|, |source| + 1 - position, 6
    {
      result := [];
      while position < |source|
        invariant Ok() && Holds(Given(), table.nodes, result) && old(position) <= position
        invariant stackFractions == old(stackFractions)
        invariant SequenceOf(Given(), Now(), stackFractions, end, result) ==
                  SequenceOf(Given(), old(Now()), stackFractions, end, [])
        decreases |source| + 1 - position
      {
        var character := source[position];
        if end == Some(character) {
          position := position + 1;
          return;
        }
        if character == '}' {
          supported := false;
          return;
        }
        result := ParseOne(result);
      }
      if end.Some? {
        supported := false;
      }
    }

    /** One round of the loop. */
    method ParseOne(result: Text) returns (after: Text)
      requires Ok() && position < |source| && Holds(Given(), table.nodes, result)
      modifies this`position, this`supported, this`stackFractions, table
      ensures Parsed(Now(), after) == OneOf(Given(), old(Now()), old(stackFractions), result)
      ensures stackFractions == old(stackFractions)
      decreases |source|, |source| + 1 - position, 5, 1
    {
      var character := source[position];
      if character == '{' {
        position := position + 1;
        var group := ParseSequence(Some('}'));
        return result + group;
      }
      if character == '\\' {
        after := ParseCommandAfter(result);
      } else if character == '^' || character == '_' {
        after := ParseScript(result);
      } else {
        after := ParseCharacter(result);
      }
    }

    method ParseCommand() returns (result: Text)
      requires Ok() && position < |source|
      modifies this`position, this`supported, this`stackFractions, table
      ensures Parsed(Now(), result) == CommandOf(Given(), old(Now()), old(stackFractions))
      ensures stackFractions == old(stackFractions)
      decreases |source|, |source| + 1 - position, 4
    {
      position := position + 1;
      if position >= |source| {
        supported := false;
        return [];
      }
      var first := source[position];
      if first == '\n' || first == '\r' {
        position := AfterNewline(source, position);
        return [SPACE];
      }
      result := ParseNamed();
    }

    /** A command at its name. */
    method ParseNamed() returns (result: Text)
      requires Ok() && position < |source|
      modifies this`position, this`supported, this`stackFractions, table
      ensures Parsed(Now(), result) == NamedOf(Given(), old(Now()), old(stackFractions))
      ensures stackFractions == old(stackFractions)
      decreases |source|, |source| + 1 - position, 4, 0
    {
      var start := position;
      position := NameEnd(source, start);
      var command := source[start..position];
      SliceInherits(source, start, position);
      if command !in tables.commands {
        supported := false;
        return [Char('\\')] + Lit(command);
      }
      result := Run(command);
    }

    method Run(command: string) returns (result: Text)
      requires Ok() && command in tables.commands && (clean ==> NoStart(command))
      modifies this`position, this`supported, this`stackFractions, table
      ensures Parsed(Now(), result) == RunCommand(Given(), old(Now()), old(stackFractions), command)
      ensures stackFractions == old(stackFractions)
      decreases |source|, |source| + 1 - position, 9
    {
      var kind := tables.commands[command];
      assert CleanCommand(kind);
      if kind.LimitOperator? {
        LitBelow(command, LimitOf(Given(), table.nodes));
        result := ParseOperator(Lit(command), true, true, true);
      } else if kind.Symbol? && kind.displayLimits {
        LitBelow(kind.text, LimitOf(Given(), table.nodes));
        result := ParseOperator(Lit(kind.text), false, true, false);
      } else if Constant(kind) {
        result := ConstantText(kind, command);
      } else if kind.Delimiter? {
        if position < |source| && source[position] == '.' {
          position := position + 1;
        }
        result := [];
      } else if kind.Begin? {
        result := ParseEnvironment();
      } else if kind.End? {
        supported := false;
        result := [];
      } else {
        result := ParseWithArguments(command);
      }
    }

    method ParseWithArguments(command: string) returns (result: Text)
      requires Ok() && command in tables.commands && (clean ==> NoStart(command))
      modifies this`position, this`supported, this`stackFractions, table
      ensures Parsed(Now(), result) == RunWithArguments(Given(), old(Now()), old(stackFractions), command)
      ensures stackFractions == old(stackFractions)
      decreases |source|, |source| + 1 - position, 8
    {
      var kind := tables.commands[command];
      if kind.Not? {
        result := ParseNot();
      } else if kind.Frac? {
        result := ParseFraction(kind.inline);
      } else if kind.Sqrt? {
        result := ParseRoot();
      } else if kind.Binom? {
        result := ParseBinom();
      } else if kind.OperatorName? {
        result := ParseOperatorName();
      } else if kind.OverUnder? {
        result := ParseOverUnder(kind.sub);
      } else {
        result := ParseWrapped(command);
      }
    }

    /** The commands that decorate one argument. */
    method ParseWrapped(command: string) returns (result: Text)
      requires Ok() && command in tables.commands && (clean ==> NoStart(command))
      modifies this`position, this`supported, this`stackFractions, table
      ensures Parsed(Now(), result) == WrappedOf(Given(), old(Now()), old(stackFractions), command)
      ensures stackFractions == old(stackFractions)
      decreases |source|, |source| + 1 - position, 8, 0
    {
      var value := ParseRequiredArgument(true);
      return Decorated(tables.commands[command], command, value, tables);
    }

    method ParseNot() returns (result: Text)
      requires Ok()
      modifies this`position, this`supported, this`stackFractions, table
      ensures Parsed(Now(), result) == NotOf(Given(), old(Now()), old(stackFractions))
      ensures stackFractions == old(stackFractions)
      decreases |source|, |source| + 1 - position, 8, 0
    {
      var argument := ParseRequiredArgument(false);
      var value := Trim(argument);
      if value in tables.negated {
        return [SPACE, Char(tables.negated[value]), SPACE];
      }
      if value == [] {
        supported := false;
        return [];
      }
      return Negated(value);
    }

    /** Two arguments, one after the other. */
    method ParseTwoArguments(stack: bool) returns (first: Text, second: Text)
      requires Ok()
      modifies this`position, this`supported, this`stackFractions, table
      ensures (first, Parsed(Now(), second)) == TwoArguments(Given(), old(Now()), old(stackFractions) && stack)
      ensures stackFractions == old(stackFractions)
      decreases |source|, |source| + 1 - position, 7, 2
    {
      first := ParseRequiredArgument(stack);
      second := ParseRequiredArgument(stack);
    }

    /** A fraction is stacked in display mode, outside scripts and unless it is a text fraction. */
    method ParseFraction(inline: bool) returns (result: Text)
      requires Ok()
      modifies this`position, this`supported, this`stackFractions, table
      ensures Parsed(Now(), result) == FractionOf(Given(), old(Now()), old(stackFractions), inline)
      ensures stackFractions == old(stackFractions)
      decreases |source|, |source| + 1 - position, 8, 0
    {
      var shouldStack := display && stackFractions && !inline;
      var numerator, denominator := ParseTwoArguments(!shouldStack);
      if shouldStack {
        result := table.Push(Fraction(NormalizeOutput(numerator, tables), NormalizeOutput(denominator, tables)));
        return;
      }
      return FormatFraction(numerator, denominator, tables);
    }

    method ParseRoot() returns (result: Text)
      requires Ok()
      modifies this`position, this`supported, this`stackFractions, table
      ensures Parsed(Now(), result) == RootOf(Given(), old(Now()), old(stackFractions))
      ensures stackFractions == old(stackFractions)
      decreases |source|, |source| + 1 - position, 8, 0
    {
      var optional := ParseOptionalArgument();
      var value := ParseRequiredArgument(true);
      if optional.None? {
        return FormatRoot(value, '\U{221A}', tables);
      }
      var degree := Trim(optional.value);
      if degree == [Char('2')] {
        return FormatRoot(value, '\U{221A}', tables);
      }
      if degree == [Char('3')] {
        return FormatRoot(value, '\U{221B}', tables);
      }
      if degree == [Char('4')] {
        return FormatRoot(value, '\U{221C}', tables);
      }
      return FormatScript(degree, false, tables) + FormatRoot(value, '\U{221A}', tables);
    }

    method ParseBinom() returns (result: Text)
      requires Ok()
      modifies this`position, this`supported, this`stackFractions, table
      ensures Parsed(Now(), result) == BinomOf(Given(), old(Now()), old(stackFractions))
      ensures stackFractions == old(stackFractions)
      decreases |source|, |source| + 1 - position, 8, 0
    {
      var first, second := ParseTwoArguments(true);
      return Choice(first, second);
    }

    method ParseOverUnder(sub: bool) returns (result: Text)
      requires Ok()
      modifies this`position, this`supported, this`stackFractions, table
      ensures Parsed(Now(), result) == OverUnderOf(Given(), old(Now()), old(stackFractions), sub)
      ensures stackFractions == old(stackFractions)
      decreases |source|, |source| + 1 - position, 8, 0
    {
      var script, value := ParseTwoArguments(true);
      return Trim(value) + FormatScript(script, sub, tables);
    }

    method ParseOperatorName() returns (result: Text)
      requires Ok()
      modifies this`position, this`supported, this`stackFractions, table
      ensures Parsed(Now(), result) == OperatorNameOf(Given(), old(Now()), old(stackFractions))
      ensures stackFractions == old(stackFractions)
      decreases |source|, |source| + 1 - position, 8, 1
    {
      var starred := StarAt(source, position);
      if starred {
        position := position + 1;
      }
      result := ParseNamedOperator(starred);
    }

    method ParseNamedOperator(starred: bool) returns (result: Text)
      requires Ok()
      modifies this`position, this`supported, this`stackFractions, table
      ensures Parsed(Now(), result) == NamedOperatorOf(Given(), old(Now()), old(stackFractions), starred)
      ensures stackFractions == old(stackFractions)
      decreases |source|, |source| + 1 - position, 8, 0
    {
      var argument := ParseRequiredArgument(true);
      NameBelow(argument, tables, LimitOf(Given(), table.nodes));
      result := ParseOperator(NameText(argument, tables), true, starred, true);
    }

    /** One limit of an operator. */
    method ParseLimit() returns (limit: Text)
      requires Ok() && position < |source|
      modifies this`position, this`supported, this`stackFractions, table
      ensures Parsed(Now(), limit) == LimitText(Given(), old(Now()))
      ensures stackFractions == old(stackFractions)
      decreases |source|, |source| + 1 - position, 1
    {
      position := position + 1;
      var argument := ParseRequiredArgument(false);
      return LimitForm(argument, tables);
    }

    /** One more limit, at its sign; a second one of a kind is not supported. */
    method ParseOneLimit(lower: Option<Text>, upper: Option<Text>, scriptPosition: nat)
      returns (newLower: Option<Text>, newUpper: Option<Text>)
      requires Ok() && LimitsYield(Given(), Now(), Limits(Now(), lower, upper)) && position <= scriptPosition < |source|
      modifies this`position, this`supported, this`stackFractions, table
      ensures Limits(Now(), newLower, newUpper) == OneLimit(Given(), Limits(old(Now()), lower, upper), scriptPosition)
      ensures stackFractions == old(stackFractions)
      decreases |source|, |source| + 1 - position, 2, 0
    {
      var sub := source[scriptPosition] == '_';
      position := scriptPosition;
      var value := ParseLimit();
      if sub {
        if lower.Some? {
          supported := false;
        }
        return Some(value), upper;
      }
      if upper.Some? {
        supported := false;
      }
      return lower, Some(value);
    }

    /** The limits of an operator. */
    method ParseLimits() returns (lower: Option<Text>, upper: Option<Text>)
      requires Ok()
      modifies this`position, this`supported, this`stackFractions, table
      ensures Limits(Now(), lower, upper) == LimitsOf(Given(), Limits(old(Now()), None, None))
      ensures stackFractions == old(stackFractions)
      decreases |source|, |source| + 1 - position, 3
    {
      lower, upper := None, None;
      while true
        invariant Ok() && stackFractions == old(stackFractions) && old(position) <= position
        invariant LimitsYield(Given(), Now(), Limits(Now(), lower, upper))
        invariant LimitsOf(Given(), Limits(Now(), lower, upper)) == LimitsOf(Given(), Limits(old(Now()), None, None))
        decreases |source| + 1 - position
      {
        var scriptPosition := LimitSign(source, position);
        if scriptPosition.None? {
          return;
        }
        lower, upper := ParseOneLimit(lower, upper, scriptPosition.value);
      }
    }

    method ParseOperator(operator: Text, bracket: bool, displayLimits: bool, spaced: bool) returns (result: Text)
      requires Ok() && Holds(Given(), table.nodes, operator)
      modifies this`position, this`supported, this`stackFractions, table
      ensures Parsed(Now(), result) == OperatorOf(Given(), old(Now()), operator, bracket, displayLimits, spaced)
      ensures stackFractions == old(stackFractions)
      decreases |source|, |source| + 1 - position, 5
    {
      var useDisplayLimits := displayLimits;
      var modifier := ModifierAt(source, position);
      if modifier.Some? {
        useDisplayLimits := modifier.value.1;
        position := modifier.value.0;
      }
      result := ParseLimited(operator, bracket, useDisplayLimits, spaced);
    }

    method ParseLimited(operator: Text, bracket: bool, useDisplayLimits: bool, spaced: bool) returns (result: Text)
      requires Ok() && Holds(Given(), table.nodes, operator)
      modifies this`position, this`supported, this`stackFractions, table
      ensures Parsed(Now(), result) == LimitedOf(Given(), old(Now()), operator, bracket, useDisplayLimits, spaced)
      ensures stackFractions == old(stackFractions)
      decreases |source|, |source| + 1 - position, 4
    {
      var lower, upper := ParseLimits();
      if display && useDisplayLimits && (lower.Some? || upper.Some?) {
        result := table.Push(Operator(operator, lower, upper));
      } else {
        result := InlineOperator(operator, lower, upper, bracket, spaced, tables);
      }
    }

    method ParseRequiredArgument(stack: bool) returns (value: Text)
      requires Ok()
      modifies this`position, this`supported, this`stackFractions, table
      ensures Parsed(Now(), value) == RequiredArgument(Given(), old(Now()), old(stackFractions) && stack)
      ensures stackFractions == old(stackFractions)
      decreases |source|, |source| + 1 - position, 7, 1
    {
      var previousStackFractions := stackFractions;
      stackFractions := previousStackFractions && stack;
      value := ParseRequiredArgumentValue();
      stackFractions := previousStackFractions;
    }

    method ParseRequiredArgumentValue() returns (value: Text)
      requires Ok()
      modifies this`position, this`supported, this`stackFractions, table
      ensures Parsed(Now(), value) == RequiredArgument(Given(), old(Now()), old(stackFractions))
      ensures stackFractions == old(stackFractions)
      decreases |source|, |source| + 1 - position, 7, 0
    {
      if position < |source| {
        position := SkipSpace(source, position);
      }
      if position >= |source| {
        supported := false;
        return [];
      }
      if source[position] == '{' {
        position := position + 1;
        value := ParseSequence(Some('}'));
        return;
      }
      if source[position] == '\\' {
        value := ParseCommand();
        return;
      }
      value := [Char(source[position])];
      position := position + 1;
    }

    method ReadOptionalSource() returns (part: Option<string>)
      requires Ok()
      modifies this`position, this`supported
      ensures (part, Now()) == OptionalSource(Given(), old(Now()))
    {
      if position >= |source| {
        return None;
      }
      position := SkipGaps(source, position);
      if position == |source| || source[position] != '[' {
        return None;
      }
      var end := IndexOf(source, "]", position + 1);
      if end.None? {
        supported := false;
        return None;
      }
      part := Some(source[position + 1..end.value]);
      position := end.value + 1;
    }

    method ParseOptionalArgument() returns (value: Option<Text>)
      requires Ok()
      modifies this`position, this`supported, table
      ensures (value, Now()) == OptionalArgument(Given(), old(Now()))
      decreases |source|, |source| + 1 - position, 2
    {
      var part := ReadOptionalSource();
      if part.None? {
        return None;
      }
      var rendered := RenderNested(part.value, true);
      return Some(rendered);
    }

    /** A group in braces, unparsed. A backslash skips the character after it, even past the end. */
    method ReadRawGroup() returns (group: Option<string>)
      requires Ok()
      modifies this`position, this`supported
      ensures (group, Now()) == RawGroup(Given(), old(Now()))
    {
      if position >= |source| {
        supported := false;
        return None;
      }
      position := SkipGaps(source, position);
      if position == |source| || source[position] != '{' {
        supported := false;
        return None;
      }
      position := position + 1;
      var start := position;
      var depth := 1;
      while position < |source|
        invariant start <= position <= |source| + 1 && depth >= 1
        invariant supported == old(supported)
        invariant GroupEnd(source, position, depth) == GroupEnd(source, start, 1)
        invariant GroupStop(source, position) == GroupStop(source, start)
        decreases |source| + 1 - position
      {
        var character := source[position];
        if character == '\\' {
          position := position + 2;
          continue;
        }
        if character == '{' {
          depth := depth + 1;
        }
        if character == '}' {
          depth := depth - 1;
        }
        if depth == 0 {
          group := Some(source[start..position]);
          position := position + 1;
          return group;
        }
        position := position + 1;
      }
      supported := false;
      return None;
    }

    /** A nested parser on a part of the source that shares the node table. */
    method RenderNested(nested: string, stack: bool) returns (rendered: Text)
      requires Ok() && PartOf(Given(), nested)
      modifies this`supported, table
      ensures Parsed(Now(), rendered) == Nested(Given(), old(Now()), nested, stack)
      decreases |source|, |source| + 1 - position, 0
    {
      var parser := new LatexParser(nested, table, display && stack, tables, clean);
      var result := parser.Render();
      if result.None? {
        supported := false;
        return Lit(nested);
      }
      return result.value;
    }

    method RenderCell(cell: string) returns (text: Text)
      requires Ok() && PartOf(Given(), cell) && Flat(cell)
      modifies this`supported, table
      ensures Parsed(Now(), text) == CellText(Given(), old(Now()), cell)
      decreases |source|, |source| + 1 - position, 1, 0
    {
      var rendered := RenderNested(cell, false);
      return Trim(rendered);
    }

    /** The rendered cells of one row. */
    method RenderCells(cells: seq<string>) returns (row: seq<Text>)
      requires Ok() && CellsFit(Given(), cells)
      modifies this`supported, table
      ensures (row, Now()) == CellTexts(Given(), old(Now()), cells, 0, [])
      decreases |source|, |source| + 1 - position, 1, 1
    {
      row := [];
      for c := 0 to |cells|
        invariant Ok() && position == old(position) && |row| == c && RowPlain(row, clean)
        invariant CellTexts(Given(), Now(), cells, c, row) == CellTexts(Given(), old(Now()), cells, 0, [])
      {
        var cell := RenderCell(cells[c]);
        row := row + [cell];
      }
    }

    method RenderRow(source: string) returns (row: seq<Text>)
      requires Ok() && RowsFitIn(Given(), [source])
      modifies this`supported, table
      ensures (row, Now()) == RowText(Given(), old(Now()), source)
      decreases |this.source|, |this.source| + 1 - position, 2, 0
    {
      assert [source][0] == source;
      CellsFitRow(Given(), source);
      row := RenderCells(SplitOn(source, '&'));
    }

    /** The rendered rows that have a cell with content. */
    method RenderRows(body: string) returns (rows: seq<seq<Text>>)
      requires Ok() && PartOf(Given(), body)
      modifies this`supported, table
      ensures Rows(Now(), rows) == TableRows(Given(), old(Now()), body)
      decreases |source|, |source| + 1 - position, 2, 2
    {
      RowsInherit(body);
      rows := RenderSources(SplitRows(body));
    }

    method RenderSources(sources: seq<string>) returns (rows: seq<seq<Text>>)
      requires Ok() && RowsFitIn(Given(), sources)
      modifies this`supported, table
      ensures Rows(Now(), rows) == RowTexts(Given(), old(Now()), sources, 0, [])
      decreases |source|, |source| + 1 - position, 2, 1
    {
      rows := [];
      for r := 0 to |sources|
        invariant Ok() && position == old(position) && |rows| <= r && RowsPlain(rows, clean)
        invariant RowTexts(Given(), Now(), sources, r, rows) == RowTexts(Given(), old(Now()), sources, 0, [])
      {
        assert [sources[r]][0] == sources[r];
        var row := RenderRow(sources[r]);
        if HasContent(row) {
          rows := rows + [row];
        }
      }
    }

    method ReadEnvironment() returns (parts: Option<(string, string)>)
      requires Ok()
      modifies this`position, this`supported
      ensures (parts, Now()) == EnvironmentSource(Given(), old(Now()))
    {
      var environment := ReadRawGroup();
      if environment.None? || environment.value == "" {
        return None;
      }
      var endMarker := "\\end{" + environment.value + "}";
      var end := IndexOf(source, endMarker, position);
      if end.None? {
        supported := false;
        return None;
      }
      parts := Some((environment.value, source[position..end.value]));
      position := end.value + |endMarker|;
    }

    method ParseEnvironment() returns (result: Text)
      requires Ok()
      modifies this`position, this`supported, table
      ensures Parsed(Now(), result) == EnvironmentOf(Given(), old(Now()))
      decreases |source|, |source| + 1 - position, 6
    {
      var parts := ReadEnvironment();
      if parts.None? {
        return [];
      }
      var (environment, body) := parts.value;
      if environment !in tables.environments {
        supported := false;
        return Lit(body);
      }
      result := RenderBody(body, tables.environments[environment]);
    }

    method RenderBody(body: string, kind: Environment) returns (result: Text)
      requires Ok() && PartOf(Given(), body) && CleanEnvironment(kind)
      modifies this`supported, table
      ensures Parsed(Now(), result) == BodyOf(Given(), old(Now()), body, kind)
      decreases |source|, |source| + 1 - position, 5
    {
      match kind {
        case Equation =>
          var rendered := RenderNested(body, true);
          return Trim(rendered);
        case Aligned(at) => result := RenderAligned(body, at);
        case Cases => result := RenderCases(body);
        case Grid(columns, delimiters) =>
          WithoutLeadingGroupInherits(body);
          result := RenderMatrix(if columns then WithoutLeadingGroup(body) else body, delimiters);
      }
    }

    /** The rows of an aligned environment, without their ampersands. */
    method RenderAligned(body: string, at: bool) returns (result: Text)
      requires Ok() && PartOf(Given(), body)
      modifies this`supported, table
      ensures Parsed(Now(), result) == BodyOf(Given(), old(Now()), body, Aligned(at))
      decreases |source|, |source| + 1 - position, 3
    {
      WithoutLeadingGroupInherits(body);
      var alignedBody := if at then WithoutLeadingGroup(body) else body;
      RowsArePartsOf(Given(), alignedBody);
      var lines := RenderLines(SplitRows(alignedBody), at);
      return JoinLines(lines);
    }

    method RenderLine(row: string, at: bool) returns (line: Text)
      requires Ok() && PartOf(Given(), row)
      modifies this`supported, table
      ensures Parsed(Now(), line) == AlignedLine(Given(), old(Now()), row, at)
      decreases |source|, |source| + 1 - position, 1
    {
      AlignedInherits(row, at);
      var rendered := RenderNested(AlignedSource(row, at), true);
      return Trim(rendered);
    }

    method RenderLines(sources: seq<string>, at: bool) returns (lines: seq<Text>)
      requires Ok() && PartsOf(Given(), sources)
      modifies this`supported, table
      ensures (lines, Now()) == AlignedLines(Given(), old(Now()), sources, at, 0, [])
      decreases |source|, |source| + 1 - position, 2
    {
      lines := [];
      for r := 0 to |sources|
        invariant Ok() && position == old(position) && AllBelow(lines, LimitOf(Given(), table.nodes))
        invariant AlignedLines(Given(), Now(), sources, at, r, lines) == AlignedLines(Given(), old(Now()), sources, at, 0, [])
      {
        ghost var before := Now();
        var line := RenderLine(sources[r], at);
        StillHoldAll(Given(), before, Now(), lines);
        OneMoreBelow(lines, line, LimitOf(Given(), table.nodes));
        if line != [] {
          lines := lines + [line];
        }
      }
    }

    method RenderCases(body: string) returns (result: Text)
      requires Ok() && PartOf(Given(), body)
      modifies this`supported, table
      ensures Parsed(Now(), result) == BodyOf(Given(), old(Now()), body, Cases)
      decreases |source|, |source| + 1 - position, 3
    {
      var rows := RenderRows(body);
      var lines: seq<Text> := [];
      for r := 0 to |rows|
        invariant lines == CaseLines(rows, r)
      {
        lines := lines + [CaseLine(CaseDelimiter(r, |rows|), rows[r])];
      }
      return JoinLines(lines);
    }

    /** The rows of a matrix, padded to the widths of its columns, between its delimiters. */
    static method MatrixLines(matrix: seq<seq<Text>>, delimiters: Option<Delimiters>) returns (lines: seq<Text>)
      ensures lines == GridLines(matrix, |matrix|, delimiters)
    {
      var columnCount := MostColumns(matrix);
      lines := [];
      for r := 0 to |matrix|
        invariant lines == GridLines(matrix, r, delimiters)
      {
        var line := GridLine(matrix, matrix[r], columnCount);
        lines := lines + [Delimited(line, r, |matrix|, delimiters)];
      }
    }

    /** A matrix of more than one row becomes a node. */
    method RenderMatrix(body: string, delimiters: Option<Delimiters>) returns (result: Text)
      requires Ok() && PartOf(Given(), body) && CleanEnvironment(Grid(false, delimiters))
      modifies this`supported, table
      ensures Parsed(Now(), result) == GridOf(Given(), old(Now()), body, delimiters)
      decreases |source|, |source| + 1 - position, 3
    {
      var matrix := RenderRows(body);
      var lines := MatrixLines(matrix, delimiters);
      if |lines| <= 1 {
        return if |lines| == 1 then lines[0] else [];
      }
      result := table.Push(Matrix(lines, 0));
    }
  }

  /** `renderLatex`: parsing, layout and the removal of the common indentation. Where the layout would
      never end the method says so. */
  method RenderLatex(source: string, display: bool, tables: Tables) returns (output: Output)
    requires CleanTables(tables)
    ensures output == Formula(source, display, tables)
  {
    var table := new NodeTable();
    var parser := new LatexParser(source, table, display, tables, NoStart(source));
    var result := parser.Render();
    assert table.nodes == ParsedFormula(source, display, tables).st.nodes;
    if result.None? {
      return Unsupported;
    }
    if |table.nodes| == 0 {
      return Shown(MapChars(result.value, UNPROTECTED));
    }
    var nodes := table.nodes;
    if !NoCycle(Scan(result.value, |nodes|), nodes, {}) {
      return Diverging;
    }
    NoCycleEnds(Scan(result.value, |nodes|), nodes, {});
    var layout := RenderLayout(result.value, nodes, DepthOf(nodes));
    return Shown(Finished(layout.lines));
  }
}
