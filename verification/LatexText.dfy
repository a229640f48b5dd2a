/**
 The text functions of the formula parser (packages/tui/src/latex.ts). Its symbol tables and its
 character classes beyond ASCII are parameters.
 */
module LatexText {
  import opened Prelude
  import opened LatexLayout
  import opened LatexRender

  /** What a command name stands for. */
  datatype Command =
    | LineBreak
    | Spacing
    | NegativeSpacing
    | Ignored
    | Literal
    | DoubleBar
    | Not
    | LimitOperator
    | Symbol(text: string, displayLimits: bool, spaced: bool)
    | NamedOperator
    | Delimiter
    | Frac(inline: bool)
    | Sqrt
    | Boxed
    | Binom
    | Accent(mark: char)
    | Blackboard
    | OperatorName
    | Mod
    | ParenthesizedMod(word: bool)
    | OverUnder(sub: bool)
    | Wrapper(keepSpace: bool)
    | Begin
    | End

  datatype Environment =
    | Equation
    | Aligned(at: bool)
    | Cases
    | Grid(columns: bool, delimiters: Option<Delimiters>)

  /** The left and right delimiters of the first, the middle and the last row of a matrix. */
  datatype Delimiters = Delimiters(first: (char, char), middle: (char, char), last: (char, char))

  datatype Tables = Tables(
    commands: map<string, Command>,
    environments: map<string, Environment>,
    subscripts: map<char, char>,
    superscripts: map<char, char>,
    blackboard: map<char, char>,
    negated: map<Text, char>,
    letters: set<char>,
    digits: set<char>)

  const NAMED_START := Char('\U{F0004}')
  const NAMED_END := Char('\U{F0005}')
  const PROTECTED_SPACE := Char('\U{F0002}')
  const NEGATIVE_SPACE := [Char('\0')]

  // ---------- limits of texts ----------

  /** What a text may hold: markers of entries below the bound, and, where the source is clean, no
      character that starts a marker. */
  datatype Limit = Limit(bound: nat, clean: bool)

  predicate PieceBelow(piece: Piece, limit: Limit) {
    (!piece.Char? ==> piece.index < limit.bound) && (limit.clean ==> piece != MARKER_START)
  }

  predicate Below(text: Text, limit: Limit) {
    forall i :: 0 <= i < |text| ==> PieceBelow(text[i], limit)
  }

  predicate AllBelow(lines: seq<Text>, limit: Limit) {
    forall l :: 0 <= l < |lines| ==> Below(lines[l], limit)
  }

  predicate Within(limit: Limit, more: Limit) {
    limit.bound <= more.bound && (more.clean ==> limit.clean)
  }

  lemma BelowMore(text: Text, limit: Limit, more: Limit)
    requires Below(text, limit) && Within(limit, more)
    ensures Below(text, more)
  {
    forall i | 0 <= i < |text| ensures PieceBelow(text[i], more) {
      assert PieceBelow(text[i], limit);
    }
  }

  lemma AppendBelow(first: Text, second: Text, limit: Limit)
    requires Below(first, limit) && Below(second, limit)
    ensures Below(first + second, limit)
  {
  }

  predicate NoStart(s: string) {
    forall i :: 0 <= i < |s| ==> Char(s[i]) != MARKER_START
  }

  /** The tables write no marker, and mention none. */
  predicate CleanTables(tables: Tables) {
    && (forall name :: name in tables.commands ==> CleanCommand(tables.commands[name]))
    && (forall name :: name in tables.environments ==> CleanEnvironment(tables.environments[name]))
    && CleanMap(tables.subscripts) && CleanMap(tables.superscripts) && CleanMap(tables.blackboard)
    && (forall c :: c in tables.blackboard ==> !IsDigit(Char(c)))
    && (forall value :: value in tables.negated ==> Char(tables.negated[value]) != MARKER_START)
  }

  predicate CleanCommand(command: Command) {
    match command
    case Symbol(text, _, _) => NoStart(text)
    case Accent(mark) => Char(mark) != MARKER_START
    case _ => true
  }

  predicate CleanEnvironment(environment: Environment) {
    environment.Grid? && environment.delimiters.Some? ==>
      var d := environment.delimiters.value;
      CleanPair(d.first) && CleanPair(d.middle) && CleanPair(d.last)
  }

  predicate CleanPair(pair: (char, char)) {
    Char(pair.0) != MARKER_START && Char(pair.1) != MARKER_START
  }

  predicate CleanMap(replacements: map<char, char>) {
    forall c :: c in replacements ==>
                  Char(c) != MARKER_START && Char(c) != MARKER_END && Char(replacements[c]) != MARKER_START
  }

  function Lit(s: string): (text: Text)
    ensures |text| == |s| && forall i :: 0 <= i < |text| ==> text[i] == Char(s[i])
  {
    if s == [] then [] else [Char(s[0])] + Lit(s[1..])
  }

  lemma LitBelow(s: string, limit: Limit)
    requires limit.clean ==> NoStart(s)
    ensures Below(Lit(s), limit)
  {
  }

  // ---------- characters ----------

  predicate IsLetter(c: char) {
    'A' <= c <= 'Z' || 'a' <= c <= 'z'
  }

  predicate IsGap(c: char) {
    c == ' ' || c == '\t'
  }

  predicate IsSign(piece: Piece) {
    piece == Char('=') || piece == Char('+') || piece == Char('-')
  }

  predicate OneCharacter(text: Text) {
    |text| == 1 && text[0].Char?
  }

  predicate AllLetters(text: Text) {
    text != [] && forall i :: 0 <= i < |text| ==> text[i].Char? && IsLetter(text[i].c)
  }

  predicate AllIn(text: Text, chars: set<char>) {
    text != [] && forall i :: 0 <= i < |text| ==> text[i].Char? && (text[i].c in chars || text[i].c == '.')
  }

  // ---------- trimming and scripts ----------

  function Trim(text: Text): Text {
    TrimEnd(TrimStart(text))
  }

  lemma {:induction false} TrimsBelow(text: Text, limit: Limit)
    requires Below(text, limit)
    ensures Below(TrimEnd(text), limit) && Below(TrimStart(text), limit) && Below(Trim(text), limit)
    decreases |text|
  {
    TrimEndBelow(text, limit);
    TrimStartBelow(text, limit);
    TrimEndBelow(TrimStart(text), limit);
  }

  lemma {:induction false} TrimEndBelow(text: Text, limit: Limit)
    requires Below(text, limit)
    ensures Below(TrimEnd(text), limit)
    decreases |text|
  {
    if text != [] && Blank(text[|text| - 1]) {
      TrimEndBelow(text[..|text| - 1], limit);
    }
  }

  lemma {:induction false} TrimStartBelow(text: Text, limit: Limit)
    requires Below(text, limit)
    ensures Below(TrimStart(text), limit)
    decreases |text|
  {
    if text != [] && Blank(text[0]) {
      TrimStartBelow(text[1..], limit);
    }
  }

  /** Trimming leaves nothing blank at either end. */
  lemma {:induction false} TrimmedEnds(text: Text)
    ensures TrimEnd(text) != [] ==> !Blank(TrimEnd(text)[|TrimEnd(text)| - 1])
    ensures TrimStart(text) != [] ==> !Blank(TrimStart(text)[0])
    ensures TrimEnd(text) != [] ==> TrimEnd(text)[0] == text[0]
    ensures text == [] || Blank(text[0]) || TrimEnd(text) != []
    decreases |text|
  {
    if text != [] {
      TrimmedEnds(text[..|text| - 1]);
      TrimmedEnds(text[1..]);
    }
  }

  lemma TrimIsTight(text: Text)
    ensures var r := Trim(text); r != [] ==> !Blank(r[0]) && !Blank(r[|r| - 1])
  {
    TrimmedEnds(text);
    TrimmedEnds(TrimStart(text));
  }

  /** Drops white space around the signs. */
  function Tighten(text: Text, afterSign: bool): Text
    decreases |text|
  {
    if text == [] then []
    else if Blank(text[0]) && (afterSign || StartsWithSign(TrimStart(text))) then Tighten(text[1..], afterSign)
    else [text[0]] + Tighten(text[1..], IsSign(text[0]))
  }

  predicate StartsWithSign(text: Text) {
    text != [] && IsSign(text[0])
  }

  /** `replaceCharacters`. */
  function ReplaceAll(text: Text, replacements: map<char, char>): Option<Text> {
    if text == [] then Some([])
    else if !text[0].Char? || text[0].c !in replacements then None
    else
      var rest := ReplaceAll(text[1..], replacements);
      if rest.None? then None else Some([Char(replacements[text[0].c])] + rest.value)
  }

  lemma {:induction false} ReplaceAllBelow(text: Text, replacements: map<char, char>, limit: Limit)
    requires CleanMap(replacements) && ReplaceAll(text, replacements).Some?
    ensures Below(ReplaceAll(text, replacements).value, limit)
    decreases |text|
  {
    if text != [] {
      ReplaceAllBelow(text[1..], replacements, limit);
    }
  }

  function FormatScript(value: Text, sub: bool, tables: Tables): Text {
    var trimmed := Trim(value);
    var unicode := ReplaceAll(Tighten(trimmed, false), if sub then tables.subscripts else tables.superscripts);
    var prefix := if sub then Char('_') else Char('^');
    if unicode.Some? then unicode.value
    else if OneCharacter(trimmed) || (sub && AllLetters(trimmed)) then [prefix] + trimmed
    else [prefix, Char('(')] + trimmed + [Char(')')]
  }

  lemma FormatScriptBelow(value: Text, sub: bool, tables: Tables, limit: Limit)
    requires Below(value, limit) && CleanTables(tables)
    ensures Below(FormatScript(value, sub, tables), limit)
  {
    TrimsBelow(value, limit);
    var tight, replacements := Tighten(Trim(value), false), if sub then tables.subscripts else tables.superscripts;
    if ReplaceAll(tight, replacements).Some? {
      ReplaceAllBelow(tight, replacements, limit);
    }
  }

  function Parenthesized(text: Text): Text {
    [Char('(')] + text + [Char(')')]
  }

  function FormatFraction(numerator: Text, denominator: Text, tables: Tables): Text {
    var n, d := Trim(numerator), Trim(denominator);
    (if AllIn(n, tables.letters + tables.digits) then n else Parenthesized(n))
    + [Char('/')]
    + (if AllIn(d, tables.digits) || OneCharacter(d) then d else Parenthesized(d))
  }

  lemma FormatFractionBelow(numerator: Text, denominator: Text, tables: Tables, limit: Limit)
    requires Below(numerator, limit) && Below(denominator, limit)
    ensures Below(FormatFraction(numerator, denominator, tables), limit)
  {
    var n, d := Trim(numerator), Trim(denominator);
    TrimsBelow(numerator, limit);
    TrimsBelow(denominator, limit);
    var left := if AllIn(n, tables.letters + tables.digits) then n else Parenthesized(n);
    var right := if AllIn(d, tables.digits) || OneCharacter(d) then d else Parenthesized(d);
    assert Below(left, limit) && Below(right, limit);
    AppendBelow(left, [Char('/')], limit);
    AppendBelow(left + [Char('/')], right, limit);
  }

  function FormatRoot(value: Text, symbol: char, tables: Tables): Text {
    var v := Trim(value);
    [Char(symbol)] + if AllIn(v, tables.letters + tables.digits) then v else Parenthesized(v)
  }

  lemma FormatRootBelow(value: Text, symbol: char, tables: Tables, limit: Limit)
    requires Below(value, limit) && Char(symbol) != MARKER_START
    ensures Below(FormatRoot(value, symbol, tables), limit)
  {
    TrimsBelow(value, limit);
  }

  function MapChars(text: Text, replacements: map<char, char>): Text {
    if text == [] then []
    else
      [if text[0].Char? && text[0].c in replacements then Char(replacements[text[0].c]) else text[0]]
      + MapChars(text[1..], replacements)
  }

  lemma {:induction false} MapCharsBelow(text: Text, replacements: map<char, char>, limit: Limit)
    requires Below(text, limit) && forall c :: c in replacements ==> Char(replacements[c]) != MARKER_START
    ensures Below(MapChars(text, replacements), limit)
    decreases |text|
  {
    if text != [] {
      MapCharsBelow(text[1..], replacements, limit);
    }
  }

  function WithoutSpaces(text: Text): Text {
    if text == [] then [] else (if text[0] == SPACE then [] else [text[0]]) + WithoutSpaces(text[1..])
  }

  lemma {:induction false} WithoutSpacesBelow(text: Text, limit: Limit)
    requires Below(text, limit)
    ensures Below(WithoutSpaces(text), limit)
    decreases |text|
  {
    if text != [] {
      WithoutSpacesBelow(text[1..], limit);
    }
  }

  // ---------- normalizeOutput ----------

  predicate EndsOperand(piece: Piece, tables: Tables) {
    !piece.Char? || piece.c in tables.letters || piece.c in tables.digits || piece.c in {')', ']', '}'} || piece == MARKER_END
  }

  predicate StartsOperand(piece: Piece, tables: Tables) {
    !piece.Char? || piece.c in tables.letters || piece.c in tables.digits || piece.c == '\U{221A}' || piece == MARKER_START
  }

  /** A space before a named operator that follows an operand; its start mark goes. */
  function SpaceBefore(text: Text, tables: Tables): Text
    decreases |text|
  {
    if text == [] then []
    else
      var last, before := text[|text| - 1], text[..|text| - 1];
      SpaceBefore(before, tables) +
      if last != NAMED_START then [last]
      else if before != [] && EndsOperand(before[|before| - 1], tables) then [SPACE] else []
  }

  /** A space after a named operator that an operand follows; its end mark goes. */
  function SpaceAfter(text: Text, tables: Tables): Text
    decreases |text|
  {
    if text == [] then []
    else
      (if text[0] != NAMED_END then [text[0]]
       else if |text| > 1 && StartsOperand(text[1], tables) then [SPACE] else [])
      + SpaceAfter(text[1..], tables)
  }

  /** Runs of spaces and tabs become single spaces. */
  function Collapse(line: Text): Text
    decreases |line|
  {
    if line == [] then []
    else if line[0].Char? && IsGap(line[0].c) then
      (if |line| > 1 && line[1].Char? && IsGap(line[1].c) then [] else [SPACE]) + Collapse(line[1..])
    else [line[0]] + Collapse(line[1..])
  }

  function CleanLines(lines: seq<Text>): seq<Text> {
    if lines == [] then [] else [Trim(Collapse(lines[0]))] + CleanLines(lines[1..])
  }

  /** Lines joined by line breaks. */
  function JoinLines(lines: seq<Text>): Text {
    if lines == [] then [] else if |lines| == 1 then lines[0] else lines[0] + [Char('\n')] + JoinLines(lines[1..])
  }

  /** The first and the last line go when they are empty. */
  function DropEmptyEnds(lines: seq<Text>): seq<Text> {
    var headless := if lines != [] && lines[0] == [] then lines[1..] else lines;
    if headless != [] && headless[|headless| - 1] == [] then headless[..|headless| - 1] else headless
  }

  function NormalizeOutput(value: Text, tables: Tables): Text {
    Trim(JoinLines(DropEmptyEnds(CleanLines(Split(SpaceAfter(SpaceBefore(value, tables), tables))))))
  }

  lemma {:induction false} SpacedBelow(text: Text, tables: Tables, limit: Limit)
    requires Below(text, limit)
    ensures Below(SpaceBefore(text, tables), limit) && Below(SpaceAfter(text, tables), limit)
    decreases |text|
  {
    if text != [] {
      SpacedBelow(text[..|text| - 1], tables, limit);
      SpacedBelow(text[1..], tables, limit);
    }
  }

  lemma {:induction false} SplitBelow(source: Text, limit: Limit)
    requires Below(source, limit)
    ensures AllBelow(Split(source), limit)
    decreases |source|
  {
    if source != [] {
      SplitBelow(source[1..], limit);
      assert PieceBelow(source[0], limit) && Below(Split(source[1..])[0], limit);
    }
  }

  lemma {:induction false} CollapseBelow(line: Text, limit: Limit)
    requires Below(line, limit)
    ensures Below(Collapse(line), limit)
    decreases |line|
  {
    if line != [] {
      CollapseBelow(line[1..], limit);
    }
  }

  lemma {:induction false} CleanLinesBelow(lines: seq<Text>, limit: Limit)
    requires AllBelow(lines, limit)
    ensures AllBelow(CleanLines(lines), limit)
    decreases |lines|
  {
    if lines != [] {
      CollapseBelow(lines[0], limit);
      TrimsBelow(Collapse(lines[0]), limit);
      CleanLinesBelow(lines[1..], limit);
    }
  }

  lemma {:induction false} JoinLinesBelow(lines: seq<Text>, limit: Limit)
    requires AllBelow(lines, limit)
    ensures Below(JoinLines(lines), limit)
    decreases |lines|
  {
    if lines != [] {
      assert Below(lines[0], limit) && AllBelow(lines[1..], limit);
      JoinLinesBelow(lines[1..], limit);
      if |lines| > 1 {
        AppendBelow(lines[0], [Char('\n')], limit);
        AppendBelow(lines[0] + [Char('\n')], JoinLines(lines[1..]), limit);
      }
    }
  }

  lemma NormalizeBelow(value: Text, tables: Tables, limit: Limit)
    requires Below(value, limit)
    ensures Below(NormalizeOutput(value, tables), limit)
  {
    var spaced := SpaceAfter(SpaceBefore(value, tables), tables);
    SpacedBelow(value, tables, limit);
    SpacedBelow(SpaceBefore(value, tables), tables, limit);
    SplitBelow(spaced, limit);
    CleanLinesBelow(Split(spaced), limit);
    var lines := DropEmptyEnds(CleanLines(Split(spaced)));
    assert AllBelow(lines, limit);
    JoinLinesBelow(lines, limit);
    TrimsBelow(JoinLines(lines), limit);
  }

  /** The output has no white space at its ends. */
  lemma NormalizedIsTight(value: Text, tables: Tables)
    ensures var r := NormalizeOutput(value, tables); r != [] ==> !Blank(r[0]) && !Blank(r[|r| - 1])
  {
    TrimIsTight(JoinLines(DropEmptyEnds(CleanLines(Split(SpaceAfter(SpaceBefore(value, tables), tables))))));
  }

  /** Nothing to trim, to collapse or to space. */
  predicate Solid(text: Text) {
    forall i :: 0 <= i < |text| ==> !Blank(text[i]) && text[i] != NAMED_START && text[i] != NAMED_END
  }

  lemma {:induction false} SolidStays(text: Text, tables: Tables)
    requires Solid(text)
    ensures SpaceBefore(text, tables) == text && SpaceAfter(text, tables) == text && Collapse(text) == text
    ensures Trim(text) == text && Split(text) == [text]
    decreases |text|
  {
    if text != [] {
      assert !Blank(text[0]) && !Blank(text[|text| - 1]);
      SolidStays(text[..|text| - 1], tables);
      SolidStays(text[1..], tables);
    }
  }

  /** A text without white space and named operators is its own normal form. */
  lemma NormalizeOfSolid(text: Text, tables: Tables)
    requires Solid(text)
    ensures NormalizeOutput(text, tables) == text
  {
    SolidStays(text, tables);
    assert CleanLines([text]) == [text] by {
      assert [text][1..] == [];
    }
    assert [text][1..] == [] && [text][..0] == [];
  }

  // ---------- negation ----------

  /** The combining solidus goes after the first character. That of a marker is the one that starts it,
      so the marker then names nothing any more. */
  function Negated(value: Text): Text
    requires value != []
  {
    match value[0]
    case Char(_) => [SPACE, value[0], Char('\U{338}')] + value[1..] + [SPACE]
    case Marker(index) => [SPACE, Struck(index, 1)] + value[1..] + [SPACE]
    case Struck(index, strikes) => [SPACE, Struck(index, strikes + 1)] + value[1..] + [SPACE]
  }

  lemma NegatedBelow(value: Text, limit: Limit)
    requires value != [] && Below(value, limit)
    ensures Below(Negated(value), limit)
  {
    assert PieceBelow(value[0], limit);
  }

  // ---------- source strings ----------

  predicate Occurs(source: string, pattern: string, at: nat) {
    at + |pattern| <= |source| && source[at..at + |pattern|] == pattern
  }

  /** The first occurrence of a pattern from a position on. */
  function IndexOf(source: string, pattern: string, from: nat): (r: Option<nat>)
    ensures r.Some? ==> from <= r.value && Occurs(source, pattern, r.value)
    ensures forall i :: from <= i && Occurs(source, pattern, i) ==> r.Some? && r.value <= i
    decreases |source| + 1 - from
  {
    if from + |pattern| > |source| then None
    else if Occurs(source, pattern, from) then Some(from)
    else IndexOf(source, pattern, from + 1)
  }

  predicate NoAmpersand(s: string) {
    forall i :: 0 <= i < |s| ==> s[i] != '&'
  }

  predicate NoBreak(s: string) {
    forall i :: 0 <= i < |s| - 1 ==> !(s[i] == '\\' && s[i + 1] == '\\')
  }

  /** Nothing that separates rows or cells. */
  predicate Flat(s: string) {
    NoAmpersand(s) && NoBreak(s)
  }

  /** What a source passes on to a part that is parsed by itself. */
  predicate Inherits(part: string, source: string) {
    (NoStart(source) ==> NoStart(part)) && (Flat(source) ==> Flat(part))
  }

  lemma SliceInherits(source: string, from: nat, to: nat)
    requires from <= to <= |source|
    ensures Inherits(source[from..to], source)
    ensures NoStart(source) ==> NoStart(source[from..to])
    ensures NoBreak(source) ==> NoBreak(source[from..to])
    ensures NoAmpersand(source) ==> NoAmpersand(source[from..to])
  {
    var part := source[from..to];
    assert forall i :: 0 <= i < |part| ==> part[i] == source[from + i];
  }

  function SplitOn(s: string, separator: char): (cells: seq<string>)
    ensures |cells| > 0
    ensures TotalLength(cells) + |cells| - 1 == |s|
    ensures cells[0] != [] ==> s != [] && cells[0][0] == s[0]
  {
    if s == [] then [""]
    else
      var rest := SplitOn(s[1..], separator);
      if s[0] == separator then [""] + rest else [[s[0]] + rest[0]] + rest[1..]
  }

  function TotalLength(cells: seq<string>): nat {
    if cells == [] then 0 else |cells[0]| + TotalLength(cells[1..])
  }

  lemma {:induction false} CellsAreShort(cells: seq<string>, k: nat)
    requires k < |cells|
    ensures |cells[k]| <= TotalLength(cells)
    decreases k
  {
    if k > 0 {
      CellsAreShort(cells[1..], k - 1);
    }
  }

  predicate AllInherit(cells: seq<string>, s: string) {
    forall k :: 0 <= k < |cells| ==> (NoStart(s) ==> NoStart(cells[k])) && (NoBreak(s) ==> NoBreak(cells[k]))
  }

  /** A character before a part of what follows it. */
  lemma ConsInherits(s: string, part: string)
    requires s != [] && (part != [] ==> |s| > 1 && part[0] == s[1])
    ensures NoStart(s) && NoStart(part) ==> NoStart([s[0]] + part)
    ensures NoBreak(part) && !(|s| > 1 && s[0] == '\\' && s[1] == '\\') ==> NoBreak([s[0]] + part)
    ensures NoAmpersand(part) && s[0] != '&' ==> NoAmpersand([s[0]] + part)
  {
    var all := [s[0]] + part;
    assert forall i :: 0 < i < |all| ==> all[i] == part[i - 1];
  }

  /** Cells hold no separator, and nothing their row did not hold. */
  lemma {:induction false} CellsInherit(s: string)
    ensures AllInherit(SplitOn(s, '&'), s)
    ensures forall k :: 0 <= k < |SplitOn(s, '&')| ==> NoAmpersand(SplitOn(s, '&')[k])
    ensures NoAmpersand(s) ==> SplitOn(s, '&') == [s]
    decreases |s|
  {
    if s != [] {
      var rest := SplitOn(s[1..], '&');
      CellsInherit(s[1..]);
      SliceInherits(s, 1, |s|);
      assert AllInherit(rest, s[1..]);
      if s[0] != '&' {
        ConsInherits(s, rest[0]);
        assert SplitOn(s, '&') == [[s[0]] + rest[0]] + rest[1..];
        assert NoBreak(s) && |s| > 1 ==> !(s[0] == '\\' && s[0 + 1] == '\\');
        assert [s[0]] + s[1..] == s;
      } else {
        assert SplitOn(s, '&') == [""] + rest;
      }
    }
  }

  function Concat(cells: seq<string>): (s: string)
    ensures |s| == TotalLength(cells)
  {
    if cells == [] then "" else cells[0] + Concat(cells[1..])
  }

  /** Cells joined in pairs, with spaces between the pairs. */
  function ConcatPairs(cells: seq<string>): (s: string)
    ensures |s| <= TotalLength(cells) + if cells == [] then 0 else |cells| - 1
  {
    if cells == [] then "" else if |cells| <= 2 then Concat(cells)
    else
      assert TotalLength(cells) == |cells[0]| + |cells[1]| + TotalLength(cells[2..]) by {
        assert cells[1..][1..] == cells[2..];
      }
      cells[0] + cells[1] + " " + ConcatPairs(cells[2..])
  }

  lemma {:induction false} ConcatNoStart(cells: seq<string>)
    requires forall k :: 0 <= k < |cells| ==> NoStart(cells[k])
    ensures NoStart(Concat(cells)) && NoStart(ConcatPairs(cells))
    decreases |cells|
  {
    if cells != [] {
      assert NoStart(cells[0]);
      ConcatNoStart(cells[1..]);
      if |cells| > 2 {
        assert NoStart(cells[1]);
        ConcatNoStart(cells[2..]);
      }
    }
  }

  /** An aligned row without its ampersands. */
  function AlignedSource(row: string, at: bool): (s: string)
    ensures |s| <= |row|
  {
    if at then ConcatPairs(SplitOn(row, '&')) else Concat(SplitOn(row, '&'))
  }

  lemma AlignedInherits(row: string, at: bool)
    ensures Inherits(AlignedSource(row, at), row)
  {
    var cells := SplitOn(row, '&');
    CellsInherit(row);
    if NoStart(row) {
      ConcatNoStart(cells);
    }
    if NoAmpersand(row) {
      assert [row][1..] == [] && Concat([row]) == row + Concat([row][1..]) == row;
    }
  }

  /** The end of an optional bracket group right after a row separator. */
  function AfterRowOption(body: string): (n: nat)
    ensures n <= |body|
  {
    if body == [] || body[0] != '[' then 0
    else
      var close := BracketEnd(body, 1);
      if close.Some? then close.value + 1 else 0
  }

  function BracketEnd(body: string, from: nat): (r: Option<nat>)
    requires from <= |body|
    ensures r.Some? ==> from <= r.value < |body|
    decreases |body| - from
  {
    if from == |body| || body[from] == '\n' then None else if body[from] == ']' then Some(from) else BracketEnd(body, from + 1)
  }

  /** `splitEnvironmentRows`. */
  function SplitRows(body: string): (rows: seq<string>)
    ensures |rows| > 0 && forall r :: 0 <= r < |rows| ==> |rows[r]| <= |body|
    ensures rows[0] != [] ==> body != [] && rows[0][0] == body[0]
    decreases |body|
  {
    if body == [] then [""]
    else if StartsWithBreak(body) then
      [""] + SplitRows(body[2..][AfterRowOption(body[2..])..])
    else
      var rest := SplitRows(body[1..]);
      [[body[0]] + rest[0]] + rest[1..]
  }

  /** Rows hold no row separator, and a body without one is a single row. */
  predicate RowsFit(rows: seq<string>, body: string) {
    forall r :: 0 <= r < |rows| ==> NoBreak(rows[r]) && (NoStart(body) ==> NoStart(rows[r]))
  }

  predicate StartsWithBreak(body: string) {
    |body| > 1 && body[0] == '\\' && body[1] == '\\'
  }

  lemma RowsFitCons(body: string, rest: seq<string>)
    requires body != [] && !StartsWithBreak(body) && rest != [] && RowsFit(rest, body[1..])
    requires rest[0] != [] ==> |body| > 1 && rest[0][0] == body[1]
    ensures RowsFit([[body[0]] + rest[0]] + rest[1..], body)
  {
    var rows := [[body[0]] + rest[0]] + rest[1..];
    assert NoBreak(rest[0]) && (NoStart(body[1..]) ==> NoStart(rest[0]));
    SliceInherits(body, 1, |body|);
    ConsInherits(body, rest[0]);
    assert forall r :: 0 < r < |rows| ==> rows[r] == rest[r];
  }

  lemma RowsFitBreak(body: string, from: nat, rest: seq<string>)
    requires from <= |body| && RowsFit(rest, body[from..])
    ensures RowsFit([""] + rest, body)
  {
    SliceInherits(body, from, |body|);
    var rows := [""] + rest;
    assert forall r :: 0 < r < |rows| ==> rows[r] == rest[r - 1];
  }

  lemma {:induction false} RowsInherit(body: string)
    ensures RowsFit(SplitRows(body), body)
    ensures NoBreak(body) ==> SplitRows(body) == [body]
    decreases |body|
  {
    if body != [] {
      if StartsWithBreak(body) {
        var from := 2 + AfterRowOption(body[2..]);
        assert body[2..][AfterRowOption(body[2..])..] == body[from..];
        RowsInherit(body[from..]);
        RowsFitBreak(body, from, SplitRows(body[from..]));
        assert body[0] == '\\' && body[0 + 1] == '\\';
      } else {
        RowsInherit(body[1..]);
        RowsFitCons(body, SplitRows(body[1..]));
        SliceInherits(body, 1, |body|);
        assert [body[0]] + body[1..] == body;
      }
    }
  }

  /** Drops a leading group in braces, as the column specification of an array. */
  function WithoutLeadingGroup(body: string): (r: string)
    ensures |r| <= |body|
  {
    var start := SkipSpace(body, 0);
    if start < |body| && body[start] == '{' then
      var close := IndexOf(body, "}", start);
      if close.Some? then body[close.value + 1..] else body
    else body
  }

  lemma WithoutLeadingGroupInherits(body: string)
    ensures Inherits(WithoutLeadingGroup(body), body)
  {
    var start := SkipSpace(body, 0);
    var close := IndexOf(body, "}", start);
    if close.Some? {
      SliceInherits(body, close.value + 1, |body|);
    }
  }

  function SkipSpace(s: string, from: nat): (r: nat)
    requires from <= |s|
    ensures from <= r <= |s| && (r < |s| ==> !IsSpace(s[r]))
    decreases |s| - from
  {
    if from < |s| && IsSpace(s[from]) then SkipSpace(s, from + 1) else from
  }

  function SkipGaps(s: string, from: nat): (r: nat)
    requires from <= |s|
    ensures from <= r <= |s| && (r < |s| ==> !IsGap(s[r]))
    decreases |s| - from
  {
    if from < |s| && IsGap(s[from]) then SkipGaps(s, from + 1) else from
  }

  function SkipLetters(s: string, from: nat): (r: nat)
    requires from <= |s|
    ensures from <= r <= |s| && (r < |s| ==> !IsLetter(s[r]))
    decreases |s| - from
  {
    if from < |s| && IsLetter(s[from]) then SkipLetters(s, from + 1) else from
  }

  /** A `\limits` or `\nolimits` at the position: where it ends, and which of the two it is. */
  function LimitsAt(source: string, position: nat): (r: Option<(nat, bool)>)
    requires position <= |source|
    ensures r.Some? ==> position < r.value.0 <= |source|
  {
    if WordAt(source, position, "\\limits") then Some((position + 7, true))
    else if WordAt(source, position, "\\nolimits") then Some((position + 9, false))
    else None
  }

  predicate WordAt(source: string, position: nat, word: string) {
    && position + |word| <= |source| && source[position..position + |word|] == word
    && (position + |word| < |source| ==> !IsLetter(source[position + |word|]))
  }
}
