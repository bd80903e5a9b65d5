/** The two ways of indexing a line agree, and the cached search always answers like a fresh one. */
module SearchIndex {
  import opened Prelude
  import opened TranscriptSearch

  // ---- The run index against the grapheme index ----

  /** Same text, and the same cells for each of its characters. */
  ghost predicate SameCells(a: Index, b: Index) {
    && a.text == b.text && a.pending == b.pending
    && (forall j :: 0 <= j < |a.spans| ==> a.spans[j].textEnd <= |a.text|)
    && (forall j :: 0 <= j < |b.spans| ==> b.spans[j].textEnd <= |b.text|)
    && (forall k: nat :: CellAt(a.spans, |a.spans|, k) == CellAt(b.spans, |b.spans|, k))
  }

  lemma {:induction false} CellAtPrefix(spans: seq<Span>, more: seq<Span>, n: nat, k: nat)
    requires n <= |spans|
    ensures CellAt(spans + more, n, k) == CellAt(spans, n, k)
  {
    if n > 0 { CellAtPrefix(spans, more, n - 1, k); }
  }

  lemma {:induction false} CellAtSnoc(spans: seq<Span>, p: Span, k: nat)
    ensures CellAt(spans + [p], |spans| + 1, k)
            == if p.textStart <= k < p.textEnd then Some(CellsOf(p, k)) else CellAt(spans, |spans|, k)
  {
    CellAtPrefix(spans, [p], |spans|, k);
  }

  /** The characters `i` to `e` of a run, each indexed as a grapheme of its own. */
  function Each(ix: Index, line: string, row: nat, i: nat, e: nat): Index
    requires i <= e <= |line|
  {
    if e == i then ix else Appended(Each(ix, line, row, i, e - 1), [line[e - 1]], row, e - 1, e, false)
  }

  ghost predicate Bounded(ix: Index) {
    forall j :: 0 <= j < |ix.spans| ==> ix.spans[j].textEnd <= |ix.text|
  }

  /** Widening a run by one character is appending that character. */
  lemma {:induction false} RunGrows(ix: Index, line: string, row: nat, i: nat, e: nat, k: nat)
    requires i < e < |line| && Bounded(ix)
    ensures var a, w := Appended(ix, line[i..e], row, i, e, true), Appended(ix, line[i..e + 1], row, i, e + 1, true);
            && w.text == a.text + [line[e]]
            && CellAt(w.spans, |w.spans|, k)
               == if k == |a.text| then Some(Cells(row, e, e + 1)) else CellAt(a.spans, |a.spans|, k)
  {
    var a, w := Appended(ix, line[i..e], row, i, e, true), Appended(ix, line[i..e + 1], row, i, e + 1, true);
    assert line[i..e + 1] == line[i..e] + [line[e]];
    CellAtSnoc(ix.spans, a.spans[|ix.spans|], k);
    CellAtSnoc(ix.spans, w.spans[|ix.spans|], k);
  }

  lemma {:induction false} EachGrows(b: Index, line: string, row: nat, e: nat, k: nat)
    requires e < |line| && !b.pending
    ensures var c := Appended(b, [line[e]], row, e, e + 1, false);
            && c.text == b.text + [line[e]]
            && CellAt(c.spans, |c.spans|, k)
               == if k == |b.text| then Some(Cells(row, e, e + 1)) else CellAt(b.spans, |b.spans|, k)
  {
    CellAtSnoc(b.spans, Appended(b, [line[e]], row, e, e + 1, false).spans[|b.spans|], k);
  }

  /** One linear span for a run has the cells of its characters. */
  lemma {:induction false} RunIsEach(ix: Index, line: string, row: nat, i: nat, e: nat)
    requires i < e <= |line| && Bounded(ix)
    ensures SameCells(Appended(ix, line[i..e], row, i, e, true), Each(ix, line, row, i, e))
    decreases e
  {
    if e == i + 1 {
      RunOfOne(ix, line, row, i);
    } else {
      RunIsEach(ix, line, row, i, e - 1);
      RunOfMore(ix, line, row, i, e - 1, Each(ix, line, row, i, e - 1));
    }
  }

  lemma {:induction false} RunOfOne(ix: Index, line: string, row: nat, i: nat)
    requires i < |line| && Bounded(ix)
    ensures SameCells(Appended(ix, line[i..i + 1], row, i, i + 1, true), Each(ix, line, row, i, i + 1))
  {
    assert line[i..i + 1] == [line[i]];
    assert Each(ix, line, row, i, i) == ix;
    var a, b := Appended(ix, [line[i]], row, i, i + 1, true), Appended(ix, [line[i]], row, i, i + 1, false);
    forall k: nat ensures CellAt(a.spans, |a.spans|, k) == CellAt(b.spans, |b.spans|, k) {
      CellAtSnoc(ix.spans, a.spans[|ix.spans|], k);
      CellAtSnoc(ix.spans, b.spans[|ix.spans|], k);
    }
  }

  lemma {:induction false} RunOfMore(ix: Index, line: string, row: nat, i: nat, e: nat, b: Index)
    requires i < e < |line| && Bounded(ix) && SameCells(Appended(ix, line[i..e], row, i, e, true), b)
    ensures SameCells(Appended(ix, line[i..e + 1], row, i, e + 1, true), Appended(b, [line[e]], row, e, e + 1, false))
  {
    var w, c := Appended(ix, line[i..e + 1], row, i, e + 1, true), Appended(b, [line[e]], row, e, e + 1, false);
    RunGrows(ix, line, row, i, e, 0);
    EachGrows(b, line, row, e, 0);
    forall k: nat ensures CellAt(w.spans, |w.spans|, k) == CellAt(c.spans, |c.spans|, k) {
      RunGrows(ix, line, row, i, e, k);
      EachGrows(b, line, row, e, k);
    }
  }

  lemma {:induction false} AppendedSame(a: Index, b: Index, text: string, row: nat, lo: nat, hi: nat, linear: bool)
    requires SameCells(a, b)
    ensures SameCells(Appended(a, text, row, lo, hi, linear), Appended(b, text, row, lo, hi, linear))
  {
    var c, d := Appended(a, text, row, lo, hi, linear), Appended(b, text, row, lo, hi, linear);
    forall k: nat ensures CellAt(c.spans, |c.spans|, k) == CellAt(d.spans, |d.spans|, k) {
      CellAtSnoc(a.spans, c.spans[|a.spans|], k);
      CellAtSnoc(b.spans, d.spans[|b.spans|], k);
    }
  }

  lemma {:induction false} RunSame(a: Index, b: Index, line: string, row: nat, i: nat, e: nat)
    requires SameCells(a, b) && i < e <= |line|
    ensures SameCells(Appended(a, line[i..e], row, i, e, true), Each(b, line, row, i, e))
  {
    AppendedSame(a, b, line[i..e], row, i, e, true);
    RunIsEach(b, line, row, i, e);
  }

  ghost predicate PerCharacter(line: string, gs: seq<Grapheme>) {
    && |gs| == |line|
    && forall k :: 0 <= k < |line| ==> gs[k] == Grapheme([line[k]], 1, line[k] == ' ')
  }

  lemma {:induction false} EachIsGraphemes(ix: Index, line: string, gs: seq<Grapheme>, row: nat, i: nat, e: nat)
    requires i <= e <= |line| && PerCharacter(line, gs) && forall k :: i <= k < e ==> line[k] != ' '
    ensures IndexGraphemes(ix, gs, row, i, i) == IndexGraphemes(Each(ix, line, row, i, e), gs, row, e, e)
    decreases e
  {
    if i < e { EachIsGraphemes(ix, line, gs, row, i, e - 1); }
  }

  lemma {:induction false} RunsSame(a: Index, b: Index, line: string, gs: seq<Grapheme>, row: nat, i: nat)
    requires SameCells(a, b) && i <= |line| && PerCharacter(line, gs)
    ensures SameCells(IndexRuns(a, line, row, i), IndexGraphemes(b, gs, row, i, i))
    decreases |line| - i
  {
    if i < |line| {
      if line[i] == ' ' {
        RunsSame(Skipped(a), Skipped(b), line, gs, row, i + 1);
      } else {
        var e := RunEnd(line, i + 1);
        RunSame(a, b, line, row, i, e);
        EachIsGraphemes(b, line, gs, row, i, e);
        RunsSame(Appended(a, line[i..e], row, i, e, true), Each(b, line, row, i, e), line, gs, row, e);
      }
    }
  }

  lemma {:induction false} GraphemesSame(a: Index, b: Index, gs: seq<Grapheme>, row: nat, col: nat, i: nat)
    requires SameCells(a, b) && i <= |gs|
    ensures SameCells(IndexGraphemes(a, gs, row, col, i), IndexGraphemes(b, gs, row, col, i))
    decreases |gs| - i
  {
    if i < |gs| {
      var g := gs[i];
      if g.space {
        GraphemesSame(Skipped(a), Skipped(b), gs, row, col + g.width, i + 1);
      } else {
        AppendedSame(a, b, g.text, row, col, col + g.width, false);
        GraphemesSame(Appended(a, g.text, row, col, col + g.width, false),
                      Appended(b, g.text, row, col, col + g.width, false),
                      gs, row, col + g.width, i + 1);
      }
    }
  }

  /** No line that is indexed by runs ends in a newline. */
  ghost predicate NoTrailingNewline(lines: seq<Line>) {
    forall k :: 0 <= k < |lines| && AsciiLine(lines[k].text) ==> AllPrintable(lines[k].text)
  }

  lemma {:induction false} LinesSame(a: Index, b: Index, lines: seq<Line>, row: nat)
    requires SameCells(a, b) && row <= |lines| && AllSegmented(lines) && NoTrailingNewline(lines)
    ensures SameCells(IndexLines(a, lines, row, true), IndexLines(b, lines, row, false))
    decreases |lines| - row
  {
    if row < |lines| {
      var l := lines[row];
      if AsciiLine(l.text) {
        RunsSame(a, b, l.text, l.graphemes, row, 0);
      } else {
        GraphemesSame(a, b, l.graphemes, row, 0, 0);
      }
      LinesSame(IndexLine(a, l, row, true), IndexLine(b, l, row, false), lines, row + 1);
    }
  }

  // ---- A newline separates the two ----

  lemma {:induction false} GraphemesNoNewline(ix: Index, gs: seq<Grapheme>, row: nat, col: nat, i: nat)
    requires i <= |gs| && '\n' !in ix.text
    requires forall k :: 0 <= k < |gs| && !gs[k].space ==> '\n' !in gs[k].text
    ensures '\n' !in IndexGraphemes(ix, gs, row, col, i).text
    decreases |gs| - i
  {
    if i < |gs| {
      var g := gs[i];
      GraphemesNoNewline(if g.space then Skipped(ix) else Appended(ix, g.text, row, col, col + g.width, false),
                         gs, row, col + g.width, i + 1);
    }
  }

  lemma {:induction false} LinesNoNewline(ix: Index, lines: seq<Line>, row: nat)
    requires row <= |lines| && AllSegmented(lines) && '\n' !in ix.text
    ensures '\n' !in IndexLines(ix, lines, row, false).text
    decreases |lines| - row
  {
    if row < |lines| {
      GraphemesNoNewline(ix, lines[row].graphemes, row, 0, 0);
      LinesNoNewline(IndexLine(ix, lines[row], row, false), lines, row + 1);
    }
  }

  /** Indexing a line keeps the text so far; a line indexed by runs leaves its last character in it. */
  lemma {:induction false} RunsKeep(ix: Index, line: string, row: nat, i: nat)
    requires i <= |line|
    ensures ix.text <= IndexRuns(ix, line, row, i).text
    ensures i < |line| && line[|line| - 1] != ' ' ==> line[|line| - 1] in IndexRuns(ix, line, row, i).text
    decreases |line| - i
  {
    if i < |line| {
      if line[i] == ' ' {
        RunsKeep(Skipped(ix), line, row, i + 1);
      } else {
        var e := RunEnd(line, i + 1);
        var next := Appended(ix, line[i..e], row, i, e, true);
        RunsKeep(next, line, row, e);
        if e == |line| {
          assert line[i..e][e - i - 1] == line[e - 1];
          assert next.text[|next.text| - 1] == line[e - 1];
        }
      }
    }
  }

  lemma {:induction false} GraphemesKeep(ix: Index, gs: seq<Grapheme>, row: nat, col: nat, i: nat)
    requires i <= |gs|
    ensures ix.text <= IndexGraphemes(ix, gs, row, col, i).text
    decreases |gs| - i
  {
    if i < |gs| {
      var g := gs[i];
      GraphemesKeep(if g.space then Skipped(ix) else Appended(ix, g.text, row, col, col + g.width, false),
                    gs, row, col + g.width, i + 1);
    }
  }

  lemma {:induction false} LineKeeps(ix: Index, l: Line, row: nat)
    ensures ix.text <= IndexLine(ix, l, row, true).text
    ensures AsciiLine(l.text) && !AllPrintable(l.text) ==> '\n' in IndexLine(ix, l, row, true).text
  {
    if AsciiLine(l.text) {
      RunsKeep(ix, l.text, row, 0);
    } else {
      GraphemesKeep(ix, l.graphemes, row, 0, 0);
    }
  }

  lemma {:induction false} LinesKeepNewline(ix: Index, lines: seq<Line>, row: nat)
    requires row <= |lines|
    requires || '\n' in ix.text
             || exists k :: row <= k < |lines| && AsciiLine(lines[k].text) && !AllPrintable(lines[k].text)
    ensures '\n' in IndexLines(ix, lines, row, true).text
    decreases |lines| - row
  {
    if row < |lines| {
      LineKeeps(ix, lines[row], row);
      LinesKeepNewline(IndexLine(ix, lines[row], row, true), lines, row + 1);
    }
  }

  /** The run index gives the text and the cells of the grapheme index exactly when no line it indexes by
      runs ends in a newline, which its regular expression lets through. */
  lemma {:induction false} RunIndexAgrees(lines: seq<Line>)
    requires AllSegmented(lines)
    ensures SameCells(Corpus(lines, true), Corpus(lines, false)) <==> NoTrailingNewline(lines)
    ensures !NoTrailingNewline(lines) ==> Corpus(lines, true).text != Corpus(lines, false).text
  {
    if NoTrailingNewline(lines) {
      LinesSame(EMPTY, EMPTY, lines, 0);
    } else {
      LinesKeepNewline(EMPTY, lines, 0);
      LinesNoNewline(EMPTY, lines, 0);
    }
  }

  /** One such line: `"a\n"`. */
  lemma {:induction false} NewlineIndexed()
    ensures var l := Line("a\n", [Grapheme("a", 1, false), Grapheme("\n", 0, true)]);
            && Segmented(l) && !NoTrailingNewline([l])
            && Corpus([l], true).text == "a\n" && Corpus([l], false).text == "a"
  {
    var l := Line("a\n", [Grapheme("a", 1, false), Grapheme("\n", 0, true)]);
    assert l.text[..1] == "a";
    assert !Printable(l.text[1]) && AllPrintable("a");
    assert [l][0] == l;
    assert RunEnd("a\n", 1) == 2;
    assert "a\n"[0..2] == "a\n";
    var ix := Appended(EMPTY, "a\n", 0, 0, 2, true);
    assert IndexRuns(ix, "a\n", 0, 2) == ix;
    assert IndexRuns(EMPTY, "a\n", 0, 0)
           == IndexRuns(Appended(EMPTY, "a\n"[0..RunEnd("a\n", 1)], 0, 0, 2, true), "a\n", 0, 2);
    assert Corpus([l], true) == IndexLines(Skipped(ix), [l], 1, true);
    var g := Appended(EMPTY, "a", 0, 0, 1, false);
    assert IndexGraphemes(EMPTY, l.graphemes, 0, 0, 0) == IndexGraphemes(g, l.graphemes, 0, 1, 1)
                                                     == IndexGraphemes(Skipped(g), l.graphemes, 0, 1, 2) == Skipped(g);
    assert Corpus([l], false) == IndexLines(Skipped(Skipped(g)), [l], 1, false);
  }

  // ---- The search ----

  /** An escaped pattern matched without case: character by character, under some equivalence. */
  predicate MatchAt(text: string, query: string, i: nat, same: (char, char) -> bool) {
    i + |query| <= |text| && forall k :: 0 <= k < |query| ==> same(text[i + k], query[k])
  }

  /** Leftmost matches, each search resuming at the end of the match before it. */
  function FindIter(text: string, query: string, i: nat, same: (char, char) -> bool): seq<Interval>
    requires |query| > 0
    decreases |text| - i
  {
    if i + |query| > |text| then []
    else if MatchAt(text, query, i, same) then [Interval(i, i + |query|)] + FindIter(text, query, i + |query|, same)
    else FindIter(text, query, i + 1, same)
  }

  lemma {:induction false} FoundIncreasing(text: string, query: string, i: nat, same: (char, char) -> bool)
    requires |query| > 0
    ensures Increasing(FindIter(text, query, i, same))
    ensures forall k :: 0 <= k < |FindIter(text, query, i, same)| ==> FindIter(text, query, i, same)[k].start >= i
    decreases |text| - i
  {
    if i + |query| <= |text| {
      FoundIncreasing(text, query, if MatchAt(text, query, i, same) then i + |query| else i + 1, same);
    }
  }

  function Find(lines: seq<Line>, query: string, same: (char, char) -> bool): seq<seq<Segment>>
    requires AllSegmented(lines)
  {
    LinesGood(EMPTY, lines, 0, true);
    if query == "" then []
    else Matches(Corpus(lines, true).spans, FindIter(Corpus(lines, true).text, query, 0, same))
  }

  method FindMatches(text: string, spans: seq<Span>, query: string, same: (char, char) -> bool)
    returns (r: seq<seq<Segment>>)
    requires Ordered(spans)
    ensures r == if query == "" then [] else Matches(spans, FindIter(text, query, 0, same))
  {
    if |query| == 0 {
      return [];
    }
    FoundIncreasing(text, query, 0, same);
    r := FindSearchCorpusMatches(spans, FindIter(text, query, 0, same));
  }

  lemma {:induction false} SameHasCell(a: Index, b: Index, start: nat, end: nat, row: nat, col: nat)
    requires SameCells(a, b) && HasCell(a.spans, start, end, row, col)
    ensures HasCell(b.spans, start, end, row, col)
  {
    var k: nat :| start <= k < end && Within(CellAt(a.spans, |a.spans|, k), row, col);
    assert Within(CellAt(b.spans, |b.spans|, k), row, col);
  }

  /** What a search of lines without newlines highlights for one match: the cells of the characters of the
      match, in the index that looks at every grapheme, as segments that are disjoint and in reading order. */
  lemma {:induction false} SearchHighlights(lines: seq<Line>, query: string, same: (char, char) -> bool, m: nat,
                                            row: nat, col: nat)
    requires AllSegmented(lines) && NoTrailingNewline(lines) && |query| > 0
    requires m < |FindIter(Corpus(lines, false).text, query, 0, same)|
    ensures Ordered(Corpus(lines, true).spans)
    ensures FindIter(Corpus(lines, true).text, query, 0, same) == FindIter(Corpus(lines, false).text, query, 0, same)
    ensures var reference := Corpus(lines, false);
            var found := FindIter(reference.text, query, 0, same)[m];
            var segments := Segments(Corpus(lines, true).spans, |Corpus(lines, true).spans|, found.start, found.end);
            && Disjoint(segments)
            && (Covers(segments, row, col) <==> HasCell(reference.spans, found.start, found.end, row, col))
  {
    LinesGood(EMPTY, lines, 0, true);
    RunIndexAgrees(lines);
    FoundIncreasing(Corpus(lines, false).text, query, 0, same);
    var found := FindIter(Corpus(lines, false).text, query, 0, same)[m];
    MatchCells(Corpus(lines, true).spans, found.start, found.end, row, col);
    var fast, reference := Corpus(lines, true), Corpus(lines, false);
    if HasCell(fast.spans, found.start, found.end, row, col) {
      SameHasCell(fast, reference, found.start, found.end, row, col);
    }
    if HasCell(reference.spans, found.start, found.end, row, col) {
      SameHasCell(reference, fast, found.start, found.end, row, col);
    }
  }

  // ---- The cache ----

  class AltScreenSearchIndex {
    const view: string -> Line
    const normalize: string -> string
    const same: (char, char) -> bool
    var sourceLines: Option<seq<string>>
    var text: string
    var spans: seq<Span>
    var normalizedQuery: Option<string>
    var matches: seq<seq<Segment>>

    /** The stripped and segmented lines. */
    function View(lines: seq<string>): seq<Line> {
      seq(|lines|, i requires 0 <= i < |lines| => view(lines[i]))
    }

    ghost predicate Segmenting() {
      forall s: string :: Segmented(view(s))
    }

    /** The cached corpus is the one of the cached lines, the cached matches those of the cached query in it. */
    ghost predicate Valid()
      reads this
    {
      && Segmenting()
      && (sourceLines.Some? ==>
            text == Corpus(View(sourceLines.value), true).text && spans == Corpus(View(sourceLines.value), true).spans)
      && (normalizedQuery.Some? ==>
            sourceLines.Some? && matches == Find(View(sourceLines.value), normalizedQuery.value, same))
    }

    constructor (view: string -> Line, normalize: string -> string, same: (char, char) -> bool)
      requires forall s: string :: Segmented(view(s))
      ensures Valid() && this.view == view && this.normalize == normalize && this.same == same
    {
      this.view, this.normalize, this.same := view, normalize, same;
      sourceLines, text, spans, normalizedQuery, matches := None, "", [], None, [];
    }

    method SourceChanged(lines: seq<string>) returns (changed: bool)
      ensures changed <==> sourceLines != Some(lines)
    {
      changed := sourceLines.None? || |sourceLines.value| != |lines|;
      if !changed {
        for index := 0 to |lines|
          invariant sourceLines.value[..index] == lines[..index]
        {
          if sourceLines.value[index] != lines[index] {
            return true;
          }
        }
        assert sourceLines.value == sourceLines.value[..|lines|] == lines[..|lines|] == lines;
      }
    }

    /** Whatever was searched before, the answer is that of a fresh search; an answer reported unchanged is
        the one given last. */
    method Search(lines: seq<string>, query: string) returns (found: seq<seq<Segment>>, changed: bool)
      requires Valid()
      modifies this
      ensures Valid()
      ensures found == Find(View(lines), normalize(query), same)
      ensures changed <==> old(sourceLines) != Some(lines) || old(normalizedQuery) != Some(normalize(query))
      ensures !changed ==> found == old(matches)
    {
      LinesGood(EMPTY, View(lines), 0, true);
      var sourceChanged := SourceChanged(lines);
      if sourceChanged {
        sourceLines := Some(lines);
        text, spans := BuildSearchCorpus(View(lines));
      }
      var normalized := normalize(query);
      changed := sourceChanged || normalizedQuery != Some(normalized);
      if changed {
        normalizedQuery := Some(normalized);
        matches := FindMatches(text, spans, normalized, same);
      }
      found := matches;
    }

    /** `find_alt_screen_search_matches`: no cache. */
    method FindFresh(lines: seq<string>, query: string) returns (found: seq<seq<Segment>>)
      requires Segmenting()
      ensures found == Find(View(lines), normalize(query), same)
    {
      LinesGood(EMPTY, View(lines), 0, true);
      var normalized := normalize(query);
      if |normalized| == 0 {
        return [];
      }
      var t, s := BuildSearchCorpus(View(lines));
      found := FindMatches(t, s, normalized, same);
    }
  }
}
