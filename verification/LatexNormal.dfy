/** What the normal form of a formula's text keeps and what it cleans (packages/tui/src/latex.ts). */
module LatexNormal {
  import opened Prelude
  import opened LatexLayout
  import opened LatexRender
  import opened LatexText

  // ---------- nothing visible is lost ----------

  /** White space and the marks of named operators. */
  predicate Loose(piece: Piece) {
    Blank(piece) || piece == NAMED_START || piece == NAMED_END
  }

  /** Everything else, in order. */
  function Visible(text: Text): Text {
    if text == [] then [] else (if Loose(text[0]) then [] else [text[0]]) + Visible(text[1..])
  }

  lemma {:induction false} VisibleAppend(first: Text, second: Text)
    ensures Visible(first + second) == Visible(first) + Visible(second)
    decreases |first|
  {
    if first == [] {
      assert first + second == second;
    } else {
      assert (first + second)[0] == first[0] && (first + second)[1..] == first[1..] + second;
      VisibleAppend(first[1..], second);
      Associates(if Loose(first[0]) then [] else [first[0]], Visible(first[1..]), Visible(second));
    }
  }

  lemma VisibleOne(piece: Piece)
    ensures Visible([piece]) == if Loose(piece) then [] else [piece]
  {
    assert [piece][1..] == [] && Visible([]) == [];
  }

  lemma VisibleLast(text: Text)
    requires text != []
    ensures Visible(text) == Visible(text[..|text| - 1]) + if Loose(text[|text| - 1]) then [] else [text[|text| - 1]]
  {
    assert text == text[..|text| - 1] + [text[|text| - 1]];
    VisibleAppend(text[..|text| - 1], [text[|text| - 1]]);
    VisibleOne(text[|text| - 1]);
  }

  lemma {:induction false} TrimEndKeeps(text: Text)
    ensures Visible(TrimEnd(text)) == Visible(text)
    decreases |text|
  {
    if text != [] && Blank(text[|text| - 1]) {
      TrimEndKeeps(text[..|text| - 1]);
      VisibleLast(text);
    }
  }

  lemma {:induction false} TrimStartKeeps(text: Text)
    ensures Visible(TrimStart(text)) == Visible(text)
    decreases |text|
  {
    if text != [] && Blank(text[0]) {
      TrimStartKeeps(text[1..]);
    }
  }

  lemma TrimKeeps(text: Text)
    ensures Visible(Trim(text)) == Visible(text)
  {
    TrimStartKeeps(text);
    TrimEndKeeps(TrimStart(text));
  }

  lemma {:induction false} CollapseKeeps(line: Text)
    ensures Visible(Collapse(line)) == Visible(line)
    decreases |line|
  {
    if line != [] {
      CollapseKeeps(line[1..]);
      var kept := if line[0].Char? && IsGap(line[0].c) then
                    if |line| > 1 && line[1].Char? && IsGap(line[1].c) then [] else [SPACE]
                  else [line[0]];
      VisibleAppend(kept, Collapse(line[1..]));
      VisibleOne(SPACE);
      VisibleOne(line[0]);
    }
  }

  lemma {:induction false} SpaceBeforeKeeps(text: Text, tables: Tables)
    ensures Visible(SpaceBefore(text, tables)) == Visible(text)
    decreases |text|
  {
    if text != [] {
      var last, before := text[|text| - 1], text[..|text| - 1];
      SpaceBeforeKeeps(before, tables);
      var kept := if last != NAMED_START then [last]
                  else if before != [] && EndsOperand(before[|before| - 1], tables) then [SPACE] else [];
      VisibleAppend(SpaceBefore(before, tables), kept);
      VisibleOne(last);
      VisibleOne(SPACE);
      VisibleLast(text);
    }
  }

  lemma {:induction false} SpaceAfterKeeps(text: Text, tables: Tables)
    ensures Visible(SpaceAfter(text, tables)) == Visible(text)
    decreases |text|
  {
    if text != [] {
      SpaceAfterKeeps(text[1..], tables);
      var kept := if text[0] != NAMED_END then [text[0]]
                  else if |text| > 1 && StartsOperand(text[1], tables) then [SPACE] else [];
      VisibleAppend(kept, SpaceAfter(text[1..], tables));
      VisibleOne(text[0]);
      VisibleOne(SPACE);
    }
  }

  function VisibleLines(lines: seq<Text>): Text {
    if lines == [] then [] else Visible(lines[0]) + VisibleLines(lines[1..])
  }

  lemma {:induction false} SplitKeeps(source: Text)
    ensures VisibleLines(Split(source)) == Visible(source)
    decreases |source|
  {
    if source != [] {
      var rest := Split(source[1..]);
      SplitKeeps(source[1..]);
      if source[0] == Char('\n') {
        assert Split(source)[1..] == rest;
      } else {
        assert Split(source)[1..] == rest[1..];
        VisibleAppend([source[0]], rest[0]);
        VisibleOne(source[0]);
        Associates(Visible([source[0]]), Visible(rest[0]), VisibleLines(rest[1..]));
      }
    }
  }

  lemma {:induction false} CleanLinesKeep(lines: seq<Text>)
    ensures VisibleLines(CleanLines(lines)) == VisibleLines(lines)
    decreases |lines|
  {
    if lines != [] {
      CollapseKeeps(lines[0]);
      TrimKeeps(Collapse(lines[0]));
      CleanLinesKeep(lines[1..]);
      assert CleanLines(lines)[1..] == CleanLines(lines[1..]);
    }
  }

  lemma {:induction false} VisibleLinesAppend(first: seq<Text>, second: seq<Text>)
    ensures VisibleLines(first + second) == VisibleLines(first) + VisibleLines(second)
    decreases |first|
  {
    if first == [] {
      assert first + second == second;
    } else {
      assert (first + second)[0] == first[0] && (first + second)[1..] == first[1..] + second;
      VisibleLinesAppend(first[1..], second);
      Associates(Visible(first[0]), VisibleLines(first[1..]), VisibleLines(second));
    }
  }

  lemma DropEmptyEndsKeeps(lines: seq<Text>)
    ensures VisibleLines(DropEmptyEnds(lines)) == VisibleLines(lines)
  {
    var headless := if lines != [] && lines[0] == [] then lines[1..] else lines;
    if headless != [] && headless[|headless| - 1] == [] {
      assert headless == headless[..|headless| - 1] + [[]];
      VisibleLinesAppend(headless[..|headless| - 1], [[]]);
      var empty: seq<Text> := [[]];
      assert empty[1..] == [] && VisibleLines(empty) == [];
    }
  }

  lemma {:induction false} JoinLinesKeeps(lines: seq<Text>)
    ensures Visible(JoinLines(lines)) == VisibleLines(lines)
    decreases |lines|
  {
    if |lines| == 1 {
      assert lines[1..] == [];
    } else if lines != [] {
      JoinLinesKeeps(lines[1..]);
      VisibleAppend(lines[0] + [Char('\n')], JoinLines(lines[1..]));
      VisibleAppend(lines[0], [Char('\n')]);
      VisibleOne(Char('\n'));
    }
  }

  /** The normal form keeps everything but white space and the marks of named operators, in order. */
  lemma NormalizeKeepsVisible(value: Text, tables: Tables)
    ensures Visible(NormalizeOutput(value, tables)) == Visible(value)
  {
    var spaced := SpaceAfter(SpaceBefore(value, tables), tables);
    SpaceBeforeKeeps(value, tables);
    SpaceAfterKeeps(SpaceBefore(value, tables), tables);
    SplitKeeps(spaced);
    CleanLinesKeep(Split(spaced));
    DropEmptyEndsKeeps(CleanLines(Split(spaced)));
    JoinLinesKeeps(DropEmptyEnds(CleanLines(Split(spaced))));
    TrimKeeps(JoinLines(DropEmptyEnds(CleanLines(Split(spaced)))));
  }

  // ---------- no runs of gaps ----------

  predicate Gap(piece: Piece) {
    piece.Char? && IsGap(piece.c)
  }

  /** No two spaces or tabs in a row. */
  predicate NoRuns(text: Text) {
    forall i :: 0 <= i < |text| - 1 ==> !(Gap(text[i]) && Gap(text[i + 1]))
  }

  predicate AllNoRuns(lines: seq<Text>) {
    forall l :: 0 <= l < |lines| ==> NoRuns(lines[l])
  }

  lemma SliceNoRuns(text: Text, from: nat, to: nat)
    requires from <= to <= |text| && NoRuns(text)
    ensures NoRuns(text[from..to])
  {
    var part := text[from..to];
    forall i | 0 <= i < |part| - 1 ensures !(Gap(part[i]) && Gap(part[i + 1])) {
      assert part[i] == text[from + i] && part[i + 1] == text[from + i + 1];
    }
  }

  lemma FirstNoRuns(first: Piece, rest: Text)
    requires NoRuns(rest) && (rest != [] ==> !(Gap(first) && Gap(rest[0])))
    ensures NoRuns([first] + rest)
  {
  }

  lemma JoinNoRuns(first: Text, second: Text)
    requires NoRuns(first) && NoRuns(second) && (second != [] ==> !Gap(second[0]))
    ensures NoRuns(first + second)
  {
  }

  lemma {:induction false} CollapseNoRuns(line: Text)
    ensures NoRuns(Collapse(line))
    ensures line != [] && !Gap(line[0]) ==> Collapse(line) != [] && Collapse(line)[0] == line[0]
    decreases |line|
  {
    if line != [] {
      CollapseNoRuns(line[1..]);
      if !Gap(line[0]) {
        FirstNoRuns(line[0], Collapse(line[1..]));
      } else if |line| == 1 || !Gap(line[1]) {
        FirstNoRuns(SPACE, Collapse(line[1..]));
      }
    }
  }

  lemma {:induction false} TrimEndNoRuns(text: Text)
    requires NoRuns(text)
    ensures NoRuns(TrimEnd(text))
    decreases |text|
  {
    if text != [] && Blank(text[|text| - 1]) {
      SliceNoRuns(text, 0, |text| - 1);
      assert text[0..|text| - 1] == text[..|text| - 1];
      TrimEndNoRuns(text[..|text| - 1]);
    }
  }

  lemma {:induction false} TrimStartNoRuns(text: Text)
    requires NoRuns(text)
    ensures NoRuns(TrimStart(text))
    decreases |text|
  {
    if text != [] && Blank(text[0]) {
      SliceNoRuns(text, 1, |text|);
      assert text[1..|text|] == text[1..];
      TrimStartNoRuns(text[1..]);
    }
  }

  lemma TrimNoRuns(text: Text)
    requires NoRuns(text)
    ensures NoRuns(Trim(text))
  {
    TrimStartNoRuns(text);
    TrimEndNoRuns(TrimStart(text));
  }

  lemma {:induction false} CleanLinesNoRuns(lines: seq<Text>)
    ensures AllNoRuns(CleanLines(lines))
    decreases |lines|
  {
    if lines != [] {
      CollapseNoRuns(lines[0]);
      TrimNoRuns(Collapse(lines[0]));
      CleanLinesNoRuns(lines[1..]);
    }
  }

  lemma {:induction false} JoinLinesNoRuns(lines: seq<Text>)
    requires AllNoRuns(lines)
    ensures NoRuns(JoinLines(lines))
    decreases |lines|
  {
    if lines != [] {
      assert NoRuns(lines[0]) && AllNoRuns(lines[1..]);
      JoinLinesNoRuns(lines[1..]);
      if |lines| > 1 {
        FirstNoRuns(Char('\n'), JoinLines(lines[1..]));
        JoinNoRuns(lines[0], [Char('\n')] + JoinLines(lines[1..]));
        Associates(lines[0], [Char('\n')], JoinLines(lines[1..]));
      }
    }
  }

  /** The normal form has no two spaces or tabs in a row. */
  lemma NormalizeHasNoRuns(value: Text, tables: Tables)
    ensures NoRuns(NormalizeOutput(value, tables))
  {
    var cleaned := CleanLines(Split(SpaceAfter(SpaceBefore(value, tables), tables)));
    CleanLinesNoRuns(Split(SpaceAfter(SpaceBefore(value, tables), tables)));
    var lines := DropEmptyEnds(cleaned);
    assert AllNoRuns(lines);
    JoinLinesNoRuns(lines);
    TrimNoRuns(JoinLines(lines));
  }
}
