/**
 Search in wrapped text (packages/tui/src/alt-screen-search.ts). The screen's lines are given as
 graphemes with their display widths; the regular expression engine is any list of index ranges.
 */
module WrappedSearch {
  import opened Prelude

  datatype Grapheme = Grapheme(text: string, width: nat, blank: bool)

  type Line = seq<Grapheme>

  datatype Span = Span(row: nat, startCol: nat, endCol: nat)

  datatype Corpus = Corpus(text: string, source: seq<Option<Span>>)

  // ---------- the corpus as words ----------

  /** A character of the corpus with the place it came from. */
  datatype Cell = Cell(unit: char, span: Option<Span>)

  const SEPARATOR := Cell(' ', None)

  function Cells(text: string, span: Option<Span>): (cells: seq<Cell>)
    ensures |cells| == |text|
  {
    seq(|text|, i requires 0 <= i < |text| => Cell(text[i], span))
  }

  function CellsOf(grapheme: Grapheme, row: nat, column: nat): seq<Cell> {
    Cells(grapheme.text, Some(Span(row, column, column + grapheme.width)))
  }

  /** The words of a line from `column` on, when `word` has been read just before. */
  function Words(line: Line, row: nat, column: nat, word: seq<Cell>): seq<seq<Cell>> {
    if line == [] then if word == [] then [] else [word]
    else if line[0].blank then
      (if word == [] then [] else [word]) + Words(line[1..], row, column + line[0].width, [])
    else Words(line[1..], row, column + line[0].width, word + CellsOf(line[0], row, column))
  }

  function AllWords(lines: seq<Line>, row: nat): seq<seq<Cell>> {
    if lines == [] then [] else Words(lines[0], row, 0, []) + AllWords(lines[1..], row + 1)
  }

  /** Words joined by single separators. */
  function Joined(words: seq<seq<Cell>>): seq<Cell> {
    if words == [] then []
    else if |words| == 1 then words[0]
    else words[0] + [SEPARATOR] + Joined(words[1..])
  }

  function Chars(cells: seq<Cell>): string {
    seq(|cells|, i requires 0 <= i < |cells| => cells[i].unit)
  }

  function Spans(cells: seq<Cell>): seq<Option<Span>> {
    seq(|cells|, i requires 0 <= i < |cells| => cells[i].span)
  }

  function CorpusOf(cells: seq<Cell>): Corpus {
    Corpus(Chars(cells), Spans(cells))
  }

  predicate Readable(line: Line) {
    forall i :: 0 <= i < |line| ==> line[i].text != []
  }

  predicate AllReadable(lines: seq<Line>) {
    forall i :: 0 <= i < |lines| ==> Readable(lines[i])
  }

  // ---------- building the corpus ----------

  /** The cells of a corpus to which words are added. */
  function Extended(cells: seq<Cell>, words: seq<seq<Cell>>): seq<Cell> {
    if words == [] then cells else if cells == [] then Joined(words) else cells + [SEPARATOR] + Joined(words)
  }

  lemma JoinedCons(word: seq<Cell>, words: seq<seq<Cell>>)
    ensures Joined([word] + words) == if words == [] then word else word + [SEPARATOR] + Joined(words)
  {
    assert ([word] + words)[1..] == words;
  }

  /** The first of the words is added, then the others. */
  lemma ExtendedByOne(cells: seq<Cell>, word: seq<Cell>, words: seq<seq<Cell>>)
    requires word != []
    ensures Extended(cells, [word] + words) == Extended(Extended(cells, [word]), words)
  {
    JoinedCons(word, words);
    if words != [] && cells != [] {
      assert cells + [SEPARATOR] + (word + [SEPARATOR] + Joined(words)) == cells + [SEPARATOR] + word + [SEPARATOR] + Joined(words);
    }
  }

  predicate NoneEmpty(words: seq<seq<Cell>>) {
    forall i :: 0 <= i < |words| ==> words[i] != []
  }

  lemma {:induction false} ExtendedInTwoParts(cells: seq<Cell>, first: seq<seq<Cell>>, second: seq<seq<Cell>>)
    requires NoneEmpty(first)
    ensures Extended(cells, first + second) == Extended(Extended(cells, first), second)
    decreases |first|
  {
    if first == [] {
      assert first + second == second;
    } else {
      assert first == [first[0]] + first[1..];
      assert first + second == [first[0]] + (first[1..] + second);
      ExtendedByOne(cells, first[0], first[1..] + second);
      ExtendedByOne(cells, first[0], first[1..]);
      ExtendedInTwoParts(Extended(cells, [first[0]]), first[1..], second);
    }
  }

  lemma {:induction false} WordsNotEmpty(line: Line, row: nat, column: nat, word: seq<Cell>)
    ensures NoneEmpty(Words(line, row, column, word))
    decreases |line|
  {
    if line != [] {
      if line[0].blank {
        WordsNotEmpty(line[1..], row, column + line[0].width, []);
      } else {
        WordsNotEmpty(line[1..], row, column + line[0].width, word + CellsOf(line[0], row, column));
      }
    }
  }

  method AppendMappedText(text: string, span: Option<Span>, corpus: Corpus) returns (after: Corpus)
    requires |corpus.text| == |corpus.source|
    ensures after.text == corpus.text + text
    ensures after.source == corpus.source + Spans(Cells(text, span))
  {
    after := corpus.(text := corpus.text + text);
    for index := 0 to |text|
      invariant after.text == corpus.text + text
      invariant after.source == corpus.source + Spans(Cells(text, span))[..index]
    {
      after := after.(source := after.source + [span]);
    }
  }

  lemma AppendCells(cells: seq<Cell>, more: seq<Cell>)
    ensures Chars(cells + more) == Chars(cells) + Chars(more)
    ensures Spans(cells + more) == Spans(cells) + Spans(more)
  {
  }

  lemma CellsChars(text: string, span: Option<Span>)
    ensures Chars(Cells(text, span)) == text
  {
  }

  /** One grapheme that is not blank, after a pending separator if there is one. */
  method AppendGrapheme(corpus: Corpus, grapheme: Grapheme, row: nat, column: nat, pendingSeparator: bool, ghost cells: seq<Cell>)
    returns (after: Corpus)
    requires corpus == CorpusOf(cells)
    ensures after == CorpusOf((if pendingSeparator then cells + [SEPARATOR] else cells) + CellsOf(grapheme, row, column))
  {
    after := corpus;
    ghost var so := cells;
    if pendingSeparator {
      after := AppendMappedText(" ", None, after);
      AppendCells(cells, [SEPARATOR]);
      so := cells + [SEPARATOR];
    }
    var span := Span(row, column, column + grapheme.width);
    after := AppendMappedText(grapheme.text, Some(span), after);
    AppendCells(so, CellsOf(grapheme, row, column));
    CellsChars(grapheme.text, Some(span));
  }

  /** The inner loop: the words of one line join the corpus, each after a separator. */
  method AppendLine(corpus: Corpus, line: Line, row: nat, pending: bool, ghost cells: seq<Cell>)
    returns (after: Corpus, pendingSeparator: bool)
    requires corpus == CorpusOf(cells) && Readable(line) && (pending <==> cells != [])
    ensures after == CorpusOf(Extended(cells, Words(line, row, 0, [])))
    ensures pendingSeparator ==> |after.text| > 0
  {
    after, pendingSeparator := corpus, pending;
    var column := 0;
    ghost var before, word: seq<Cell> := cells, [];
    assert line[0..] == line;
    for index := 0 to |line|
      invariant after == CorpusOf(WithWord(before, word))
      invariant pendingSeparator <==> before != [] && word == []
      invariant Extended(before, Words(line[index..], row, column, word)) == Extended(cells, Words(line, row, 0, []))
    {
      assert line[index..][0] == line[index] && line[index..][1..] == line[index + 1..];
      var width := line[index].width;
      WordsContinue(line[index..], row, column, word, before);
      if line[index].blank {
        if |after.text| > 0 {
          pendingSeparator := true;
        }
        before, word := WithWord(before, word), [];
        column := column + width;
        continue;
      }
      after := AppendGrapheme(after, line[index], row, column, pendingSeparator, WithWord(before, word));
      pendingSeparator := false;
      WordGrows(before, word, CellsOf(line[index], row, column));
      word := word + CellsOf(line[index], row, column);
      column := column + width;
    }
    assert line[|line|..] == [];
  }

  /** The cells of a corpus and the word that is being added to it. */
  function WithWord(before: seq<Cell>, word: seq<Cell>): seq<Cell> {
    Extended(before, if word == [] then [] else [word])
  }

  /** What reading the first grapheme of a line leaves to be added. */
  lemma WordsContinue(line: Line, row: nat, column: nat, word: seq<Cell>, before: seq<Cell>)
    requires line != []
    ensures var next := column + line[0].width;
            Extended(before, Words(line, row, column, word)) ==
            if line[0].blank then Extended(WithWord(before, word), Words(line[1..], row, next, []))
            else Extended(before, Words(line[1..], row, next, word + CellsOf(line[0], row, column)))
  {
    var later := Words(line[1..], row, column + line[0].width, []);
    if word != [] {
      ExtendedByOne(before, word, later);
    } else {
      assert [] + later == later;
    }
  }

  lemma WordGrows(before: seq<Cell>, word: seq<Cell>, more: seq<Cell>)
    requires more != []
    ensures Extended(before, [word + more]) ==
            (if before != [] && word == [] then before + [SEPARATOR] else WithWord(before, word)) + more
  {
    if word == [] {
      assert word + more == more;
    } else if before != [] {
      Associates(before + [SEPARATOR], word, more);
    }
  }

  /** The corpus is all words of all lines, joined by single spaces, with one source entry for every
      character. */
  method BuildSearchCorpus(lines: seq<Line>) returns (corpus: Corpus)
    requires AllReadable(lines)
    ensures corpus == CorpusOf(Joined(AllWords(lines, 0)))
    ensures |corpus.text| == |corpus.source|
  {
    corpus := Corpus("", []);
    var pendingSeparator := false;
    ghost var cells: seq<Cell> := [];
    assert lines[0..] == lines;
    for row := 0 to |lines|
      invariant corpus == CorpusOf(cells) && (pendingSeparator <==> cells != [])
      invariant Extended(cells, AllWords(lines[row..], row)) == Joined(AllWords(lines, 0))
    {
      assert lines[row..][0] == lines[row] && lines[row..][1..] == lines[row + 1..];
      WordsNotEmpty(lines[row], row, 0, []);
      ExtendedInTwoParts(cells, Words(lines[row], row, 0, []), AllWords(lines[row + 1..], row + 1));
      corpus, pendingSeparator := AppendLine(corpus, lines[row], row, pendingSeparator, cells);
      cells := Extended(cells, Words(lines[row], row, 0, []));
      if |corpus.text| > 0 {
        pendingSeparator := true;
      }
    }
    assert lines[|lines|..] == [];
  }

  // ---------- order of the places ----------

  /** `first` ends before `second` starts, or they are the same place. */
  predicate NotAfter(first: Span, second: Span) {
    first.row < second.row || first == second || (first.row == second.row && first.endCol <= second.startCol)
  }

  predicate InOrder(source: seq<Option<Span>>) {
    && (forall i :: 0 <= i < |source| && source[i].Some? ==> source[i].value.startCol <= source[i].value.endCol)
    && (forall i, j :: 0 <= i < j < |source| && source[i].Some? && source[j].Some? ==>
          NotAfter(source[i].value, source[j].value))
  }

  /** All places lie in the row, at `column` or later, and end by `end`; or in earlier rows. */
  predicate Within(cells: seq<Cell>, row: nat, column: nat) {
    forall i :: 0 <= i < |cells| && cells[i].span.Some? ==>
                  cells[i].span.value.row < row || (cells[i].span.value.row == row && cells[i].span.value.endCol <= column)
  }

  predicate CellsInOrder(cells: seq<Cell>) {
    InOrder(Spans(cells))
  }

  /** All cells of a list of words, without separators. */
  function Flat(words: seq<seq<Cell>>): seq<Cell> {
    if words == [] then [] else words[0] + Flat(words[1..])
  }

  lemma AppendInOrder(cells: seq<Cell>, row: nat, column: nat, grapheme: Grapheme)
    requires CellsInOrder(cells) && Within(cells, row, column)
    ensures CellsInOrder(cells + CellsOf(grapheme, row, column))
    ensures Within(cells + CellsOf(grapheme, row, column), row, column + grapheme.width)
  {
    var after := cells + CellsOf(grapheme, row, column);
    assert forall i :: 0 <= i < |after| ==> Spans(after)[i] == after[i].span;
    assert forall i :: 0 <= i < |cells| ==> Spans(cells)[i] == after[i].span;
  }

  /** A line's words extend any cells before them in order. */
  lemma {:induction false} LineInOrder(before: seq<Cell>, line: Line, row: nat, column: nat, word: seq<Cell>)
    requires CellsInOrder(before + word) && Within(before + word, row, column)
    ensures CellsInOrder(before + Flat(Words(line, row, column, word)))
    ensures Within(before + Flat(Words(line, row, column, word)), row + 1, 0)
    decreases |line|
  {
    if line == [] {
      assert Flat([word]) == word + Flat([word][1..]) == word;
      assert before + [] == before;
    } else if line[0].blank {
      var rest := Words(line[1..], row, column + line[0].width, []);
      assert before + word + [] == before + word;
      LineInOrder(before + word, line[1..], row, column + line[0].width, []);
      if word == [] {
        assert before + word == before && [] + rest == rest;
      } else {
        assert ([word] + rest)[1..] == rest;
        assert before + (word + Flat(rest)) == before + word + Flat(rest);
      }
    } else {
      AppendInOrder(before + word, row, column, line[0]);
      assert before + (word + CellsOf(line[0], row, column)) == before + word + CellsOf(line[0], row, column);
      LineInOrder(before, line[1..], row, column + line[0].width, word + CellsOf(line[0], row, column));
    }
  }

  lemma {:induction false} FlatAppend(first: seq<seq<Cell>>, second: seq<seq<Cell>>)
    ensures Flat(first + second) == Flat(first) + Flat(second)
    decreases |first|
  {
    if first == [] {
      assert first + second == second;
    } else {
      assert (first + second)[1..] == first[1..] + second;
      FlatAppend(first[1..], second);
    }
  }

  lemma {:induction false} LinesInOrder(before: seq<Cell>, lines: seq<Line>, row: nat)
    requires CellsInOrder(before) && Within(before, row, 0)
    ensures CellsInOrder(before + Flat(AllWords(lines, row)))
    decreases |lines|
  {
    if lines == [] {
      assert before + [] == before;
    } else {
      var words := Words(lines[0], row, 0, []);
      assert before + [] == before;
      LineInOrder(before, lines[0], row, 0, []);
      LinesInOrder(before + Flat(words), lines[1..], row + 1);
      FlatAppend(words, AllWords(lines[1..], row + 1));
      assert before + (Flat(words) + Flat(AllWords(lines[1..], row + 1))) == before + Flat(words) + Flat(AllWords(lines[1..], row + 1));
    }
  }

  /** Separators have no place, so they keep the order. */
  lemma {:induction false} JoinedInOrder(before: seq<Cell>, words: seq<seq<Cell>>)
    requires CellsInOrder(before + Flat(words))
    ensures CellsInOrder(before + Joined(words))
    decreases |words|
  {
    if |words| == 1 {
      assert words[1..] == [] && words[0] + [] == words[0];
    } else if |words| > 1 {
      var start := before + words[0];
      assert start + Flat(words[1..]) == before + (words[0] + Flat(words[1..]));
      SeparatorKeepsOrder(start, Flat(words[1..]));
      JoinedInOrder(start + [SEPARATOR], words[1..]);
      assert before + (words[0] + [SEPARATOR] + Joined(words[1..])) == start + [SEPARATOR] + Joined(words[1..]);
    }
  }

  lemma SeparatorKeepsOrder(before: seq<Cell>, after: seq<Cell>)
    requires CellsInOrder(before + after)
    ensures CellsInOrder(before + [SEPARATOR] + after)
  {
    var all, more := Spans(before + after), Spans(before + [SEPARATOR] + after);
    assert forall i :: 0 <= i < |before| ==> more[i] == all[i];
    assert forall i :: |before| < i < |more| ==> more[i] == all[i - 1];
  }

  /** The source entries of a corpus are in reading order. */
  lemma CorpusInOrder(lines: seq<Line>)
    ensures InOrder(CorpusOf(Joined(AllWords(lines, 0))).source)
  {
    LinesInOrder([], lines, 0);
    JoinedInOrder([], AllWords(lines, 0));
    assert [] + Joined(AllWords(lines, 0)) == Joined(AllWords(lines, 0));
  }

  // ---------- segments ----------

  /** The screen cell is one of a matched character. */
  predicate Matched(source: seq<Option<Span>>, start: nat, end: nat, row: nat, col: nat)
    requires start <= end <= |source|
  {
    exists i :: start <= i < end && source[i].Some? && Contains(source[i].value, row, col)
  }

  predicate Contains(span: Span, row: nat, col: nat) {
    span.row == row && span.startCol <= col < span.endCol
  }

  predicate Highlighted(segments: seq<Span>, row: nat, col: nat) {
    exists k :: 0 <= k < |segments| && Contains(segments[k], row, col)
  }

  /** Segments follow one another with a gap between them. */
  predicate Separated(segments: seq<Span>) {
    forall k, m :: 0 <= k < m < |segments| ==>
                     segments[k].row < segments[m].row || (segments[k].row == segments[m].row && segments[k].endCol < segments[m].startCol)
  }

  /** The last segment reaches exactly as far as the spans seen so far. */
  predicate LastCovers(segments: seq<Span>, source: seq<Option<Span>>, start: nat, index: nat)
    requires start <= index <= |source|
  {
    if segments == [] then forall i :: start <= i < index ==> source[i].None?
    else
      var last := segments[|segments| - 1];
      && last.startCol <= last.endCol
      && exists i :: start <= i < index && source[i].Some? && source[i].value.row == last.row && source[i].value.endCol == last.endCol
                     && last.startCol <= source[i].value.startCol
  }

  lemma ExtendLast(segments: seq<Span>, span: Span)
    requires segments != [] && Separated(segments)
    requires var last := segments[|segments| - 1];
             last.row == span.row && last.startCol <= span.startCol <= last.endCol && span.startCol <= span.endCol
    ensures var last := segments[|segments| - 1];
            var longer := last.(endCol := if span.endCol > last.endCol then span.endCol else last.endCol);
            var after := segments[|segments| - 1 := longer];
            && Separated(after)
            && (forall row, col :: Highlighted(after, row, col) <==> Highlighted(segments, row, col) || Contains(span, row, col))
  {
    var n := |segments| - 1;
    var last := segments[n];
    var after := segments[n := last.(endCol := if span.endCol > last.endCol then span.endCol else last.endCol)];
    forall row, col ensures Highlighted(after, row, col) <==> Highlighted(segments, row, col) || Contains(span, row, col) {
      if Highlighted(segments, row, col) {
        var k :| 0 <= k < |segments| && Contains(segments[k], row, col);
        assert Contains(after[k], row, col);
      }
      if Contains(span, row, col) {
        assert Contains(after[n], row, col);
      }
      if Highlighted(after, row, col) {
        var k :| 0 <= k < |after| && Contains(after[k], row, col);
        assert k < n ==> Contains(segments[k], row, col);
        assert k == n ==> Contains(last, row, col) || Contains(span, row, col);
      }
    }
  }

  lemma PushSegment(segments: seq<Span>, span: Span)
    requires Separated(segments)
    requires segments == [] || segments[|segments| - 1].row < span.row
             || (segments[|segments| - 1].row == span.row && segments[|segments| - 1].endCol < span.startCol)
    requires segments != [] ==> segments[|segments| - 1].startCol <= segments[|segments| - 1].endCol
    ensures Separated(segments + [span])
    ensures forall row, col :: Highlighted(segments + [span], row, col) <==> Highlighted(segments, row, col) || Contains(span, row, col)
  {
    var after := segments + [span];
    forall row, col ensures Highlighted(after, row, col) <==> Highlighted(segments, row, col) || Contains(span, row, col) {
      if Highlighted(segments, row, col) {
        var k :| 0 <= k < |segments| && Contains(segments[k], row, col);
        assert Contains(after[k], row, col);
      }
      if Contains(span, row, col) {
        assert Contains(after[|segments|], row, col);
      }
    }
  }

  /** The segments of one match: in order, with gaps between them, covering exactly the cells of the
      matched characters. */
  method SegmentsOf(source: seq<Option<Span>>, start: nat, end: nat) returns (segments: seq<Span>)
    requires start <= end <= |source| && InOrder(source)
    ensures Separated(segments)
    ensures forall row, col :: Highlighted(segments, row, col) <==> Matched(source, start, end, row, col)
    ensures segments == [] <==> forall i :: start <= i < end ==> source[i].None?
  {
    segments := [];
    for index := start to end
      invariant Separated(segments)
      invariant forall row, col :: Highlighted(segments, row, col) <==> Matched(source, start, index, row, col)
      invariant LastCovers(segments, source, start, index)
    {
      MatchedOneMore(source, start, index);
      if source[index].None? {
        continue;
      }
      var span := source[index].value;
      ghost var before := segments;
      if segments != [] && segments[|segments| - 1].row == span.row && span.startCol <= segments[|segments| - 1].endCol {
        var previous := segments[|segments| - 1];
        LastComesFirst(segments, source, start, index);
        ExtendLast(segments, span);
        segments := segments[|segments| - 1 := previous.(endCol := if span.endCol > previous.endCol then span.endCol else previous.endCol)];
      } else {
        if segments != [] {
          LastComesFirst(segments, source, start, index);
        }
        PushSegment(segments, span);
        segments := segments + [span];
      }
      assert forall row, col :: Highlighted(segments, row, col) <==> Highlighted(before, row, col) || Contains(span, row, col);
      forall row, col ensures Highlighted(segments, row, col) <==> Matched(source, start, index + 1, row, col) {
        assert Highlighted(before, row, col) <==> Matched(source, start, index, row, col);
      }
    }
  }

  /** The next span does not start before the last segment. */
  lemma LastComesFirst(segments: seq<Span>, source: seq<Option<Span>>, start: nat, index: nat)
    requires start <= index < |source| && InOrder(source) && segments != [] && LastCovers(segments, source, start, index)
    requires source[index].Some?
    ensures var last, span := segments[|segments| - 1], source[index].value;
            last.row < span.row || (last.row == span.row && last.startCol <= span.startCol)
  {
    var last := segments[|segments| - 1];
    var i :| start <= i < index && source[i].Some? && source[i].value.row == last.row
             && source[i].value.endCol == last.endCol && last.startCol <= source[i].value.startCol;
    assert NotAfter(source[i].value, source[index].value);
  }

  lemma MatchedOneMore(source: seq<Option<Span>>, start: nat, index: nat)
    requires start <= index < |source|
    ensures forall row, col :: Matched(source, start, index + 1, row, col) <==>
                               Matched(source, start, index, row, col)
                               || (source[index].Some? && Contains(source[index].value, row, col))
  {
  }

  datatype Match = Match(start: nat, end: nat, segments: seq<Span>)

  /** What a match shows: ordered segments with gaps that cover exactly its characters. */
  ghost predicate Shows(found: Match, source: seq<Option<Span>>) {
    && found.start <= found.end <= |source|
    && found.segments != [] && Separated(found.segments)
    && forall row, col :: Highlighted(found.segments, row, col) <==> Matched(source, found.start, found.end, row, col)
  }

  /** The ranges that contain a character with a place. */
  function Placed(ranges: seq<(nat, nat)>, source: seq<Option<Span>>): seq<(nat, nat)>
    requires forall r :: 0 <= r < |ranges| ==> ranges[r].0 <= ranges[r].1 <= |source|
  {
    if ranges == [] then []
    else
      var last := ranges[|ranges| - 1];
      Placed(ranges[..|ranges| - 1], source) + if exists i :: last.0 <= i < last.1 && source[i].Some? then [last] else []
  }

  /** `findAltScreenSearchMatches` for the index ranges that the expression finds in the corpus. */
  method FindMatches(lines: seq<Line>, ranges: seq<(nat, nat)>) returns (matches: seq<Match>)
    requires AllReadable(lines)
    requires forall r :: 0 <= r < |ranges| ==> ranges[r].0 <= ranges[r].1 <= |Joined(AllWords(lines, 0))|
    ensures var source := CorpusOf(Joined(AllWords(lines, 0))).source;
            var placed := Placed(ranges, source);
            |matches| == |placed|
            && forall m :: 0 <= m < |matches| ==> (matches[m].start, matches[m].end) == placed[m] && Shows(matches[m], source)
  {
    var corpus := BuildSearchCorpus(lines);
    CorpusInOrder(lines);
    matches := [];
    for r := 0 to |ranges|
      invariant |matches| == |Placed(ranges[..r], corpus.source)|
      invariant forall m :: 0 <= m < |matches| ==>
                              (matches[m].start, matches[m].end) == Placed(ranges[..r], corpus.source)[m]
                              && Shows(matches[m], corpus.source)
    {
      assert ranges[..r + 1][..r] == ranges[..r];
      var segments := SegmentsOf(corpus.source, ranges[r].0, ranges[r].1);
      if |segments| > 0 {
        matches := matches + [Match(ranges[r].0, ranges[r].1, segments)];
      }
    }
    assert ranges[..|ranges|] == ranges;
  }

  // ---------- wrapped phrases ----------

  lemma {:induction false} JoinedAppend(first: seq<seq<Cell>>, second: seq<seq<Cell>>)
    requires first != [] && second != []
    ensures Joined(first + second) == Joined(first) + [SEPARATOR] + Joined(second)
    decreases |first|
  {
    if |first| == 1 {
      JoinedCons(first[0], second);
      assert first + second == [first[0]] + second;
    } else {
      assert (first + second)[1..] == first[1..] + second;
      JoinedAppend(first[1..], second);
      assert first[0] + [SEPARATOR] + (Joined(first[1..]) + [SEPARATOR] + Joined(second)) ==
             first[0] + [SEPARATOR] + Joined(first[1..]) + [SEPARATOR] + Joined(second);
    }
  }

  /** A phrase of consecutive words is in the corpus as one piece, wherever the lines break. */
  lemma PhraseIsInCorpus(words: seq<seq<Cell>>, first: nat, last: nat) returns (start: nat)
    requires first < last <= |words|
    ensures start + |Joined(words[first..last])| <= |Joined(words)|
    ensures Joined(words)[start..start + |Joined(words[first..last])|] == Joined(words[first..last])
  {
    var before, phrase, after := words[..first], words[first..last], words[last..];
    var head := if before == [] then [] else Joined(before) + [SEPARATOR];
    var tail := if after == [] then [] else [SEPARATOR] + Joined(after);
    assert words == before + phrase + after;
    if before != [] {
      JoinedAppend(before, phrase);
    } else {
      assert before + phrase == phrase;
    }
    assert Joined(before + phrase) == head + Joined(phrase);
    if after != [] {
      JoinedAppend(before + phrase, after);
    } else {
      assert before + phrase + after == before + phrase;
    }
    assert Joined(words) == head + Joined(phrase) + tail;
    start := |head|;
  }
}
