/** Search over the rendered transcript: a whitespace-collapsed text with one span per indexed run,
    the sweep that turns matches of that text into highlighted cells, and the cache in front of it. */
module TranscriptSearch {
  import opened Prelude

  /** One user-visible character: its text, its width in cells, and whether it is white space. */
  datatype Grapheme = Grapheme(text: string, width: nat, space: bool)

  /** A rendered line without its terminal sequences, and its segmentation. */
  datatype Line = Line(text: string, graphemes: seq<Grapheme>)

  datatype Span = Span(textStart: nat, textEnd: nat, row: nat, startCol: nat, endCol: nat, linear: bool)

  datatype Segment = Segment(row: nat, startCol: nat, endCol: nat)

  datatype Interval = Interval(start: nat, end: nat)

  /** The corpus under construction; `pending` asks for a separator before the next run. */
  datatype Index = Index(text: string, spans: seq<Span>, pending: bool)

  const EMPTY := Index("", [], false)

  predicate Printable(c: char) {
    ' ' <= c <= '~'
  }

  predicate AllPrintable(s: string) {
    forall k :: 0 <= k < |s| ==> Printable(s[k])
  }

  /** What the regular expression accepts: its `$` also matches before a trailing newline. */
  predicate AsciiLine(s: string) {
    AllPrintable(s) || (|s| > 0 && s[|s| - 1] == '\n' && AllPrintable(s[..|s| - 1]))
  }

  // ---- The corpus ----

  function Separated(ix: Index): Index {
    if ix.pending then ix.(text := ix.text + " ", pending := false) else ix
  }

  /** White space, or the end of a line: a separator is due unless nothing was indexed yet. */
  function Skipped(ix: Index): Index {
    if |ix.text| > 0 then ix.(pending := true) else ix
  }

  function Appended(ix: Index, text: string, row: nat, lo: nat, hi: nat, linear: bool): Index {
    var s := Separated(ix);
    Index(s.text + text, s.spans + [Span(|s.text|, |s.text| + |text|, row, lo, hi, linear)], false)
  }

  function RunEnd(line: string, i: nat): (r: nat)
    requires i <= |line|
    ensures i <= r <= |line|
    ensures forall k :: i <= k < r ==> line[k] != ' '
    ensures r < |line| ==> line[r] == ' '
    decreases |line| - i
  {
    if i == |line| || line[i] == ' ' then i else RunEnd(line, i + 1)
  }

  /** A printable ASCII line, one run of non-spaces at a time: the column is the text offset. */
  function IndexRuns(ix: Index, line: string, row: nat, i: nat): Index
    requires i <= |line|
    decreases |line| - i
  {
    if i == |line| then ix
    else if line[i] == ' ' then IndexRuns(Skipped(ix), line, row, i + 1)
    else
      var e := RunEnd(line, i + 1);
      IndexRuns(Appended(ix, line[i..e], row, i, e, true), line, row, e)
  }

  /** Any other line, one grapheme at a time. */
  function IndexGraphemes(ix: Index, gs: seq<Grapheme>, row: nat, col: nat, i: nat): Index
    requires i <= |gs|
    decreases |gs| - i
  {
    if i == |gs| then ix
    else
      var g := gs[i];
      IndexGraphemes(if g.space then Skipped(ix) else Appended(ix, g.text, row, col, col + g.width, false),
                     gs, row, col + g.width, i + 1)
  }

  function IndexLine(ix: Index, l: Line, row: nat, fast: bool): Index {
    Skipped(if fast && AsciiLine(l.text) then IndexRuns(ix, l.text, row, 0)
            else IndexGraphemes(ix, l.graphemes, row, 0, 0))
  }

  function IndexLines(ix: Index, lines: seq<Line>, row: nat, fast: bool): Index
    requires row <= |lines|
    decreases |lines| - row
  {
    if row == |lines| then ix else IndexLines(IndexLine(ix, lines[row], row, fast), lines, row + 1, fast)
  }

  /** `fast` is the code's index; without it every line goes through its graphemes. */
  function Corpus(lines: seq<Line>, fast: bool): Index {
    IndexLines(EMPTY, lines, 0, fast)
  }

  // ---- The builder ----

  function Join(chunks: seq<string>): string {
    if chunks == [] then "" else Join(chunks[..|chunks| - 1]) + chunks[|chunks| - 1]
  }

  /** The loops' own variables stand for an index. */
  ghost predicate Stands(chunks: seq<string>, textLength: nat, spans: seq<Span>, pending: bool, ix: Index) {
    Join(chunks) == ix.text && textLength == |ix.text| && spans == ix.spans && pending == ix.pending
  }

  method AppendRun(chunks: seq<string>, textLength: nat, spans: seq<Span>, pending: bool, text: string, row: nat,
                   lo: nat, hi: nat, linear: bool, ghost ix: Index)
    returns (chunks': seq<string>, textLength': nat, spans': seq<Span>, pending': bool)
    requires Stands(chunks, textLength, spans, pending, ix)
    ensures Stands(chunks', textLength', spans', pending', Appended(ix, text, row, lo, hi, linear))
  {
    chunks', textLength', pending' := chunks, textLength, pending;
    if pending' {
      assert (chunks' + [" "])[..|chunks'|] == chunks';
      chunks' := chunks' + [" "];
      textLength' := textLength' + 1;
      pending' := false;
    }
    assert (chunks' + [text])[..|chunks'|] == chunks';
    chunks' := chunks' + [text];
    spans' := spans + [Span(textLength', textLength' + |text|, row, lo, hi, linear)];
    textLength' := textLength' + |text|;
  }

  method IndexAsciiLine(chunks: seq<string>, textLength: nat, spans: seq<Span>, pending: bool, line: string, row: nat,
                        ghost ix: Index)
    returns (chunks': seq<string>, textLength': nat, spans': seq<Span>, pending': bool)
    requires Stands(chunks, textLength, spans, pending, ix)
    ensures Stands(chunks', textLength', spans', pending', IndexRuns(ix, line, row, 0))
  {
    chunks', textLength', spans', pending' := chunks, textLength, spans, pending;
    ghost var current := ix;
    var index, column := 0, 0;
    while index < |line|
      invariant 0 <= column == index <= |line|
      invariant Stands(chunks', textLength', spans', pending', current)
      invariant IndexRuns(current, line, row, index) == IndexRuns(ix, line, row, 0)
    {
      if line[index] == ' ' {
        if textLength' > 0 {
          pending' := true;
        }
        current := Skipped(current);
        column := column + 1;
        index := index + 1;
      } else {
        var end := index + 1;
        while end < |line| && line[end] != ' '
          invariant index < end <= |line|
          invariant RunEnd(line, end) == RunEnd(line, index + 1)
        {
          end := end + 1;
        }
        var text := line[index..end];
        chunks', textLength', spans', pending' :=
          AppendRun(chunks', textLength', spans', pending', text, row, column, column + |text|, true, current);
        current := Appended(current, text, row, column, column + |text|, true);
        column := column + |text|;
        index := end;
      }
    }
  }

  method IndexOtherLine(chunks: seq<string>, textLength: nat, spans: seq<Span>, pending: bool, gs: seq<Grapheme>,
                        row: nat, ghost ix: Index)
    returns (chunks': seq<string>, textLength': nat, spans': seq<Span>, pending': bool)
    requires Stands(chunks, textLength, spans, pending, ix)
    ensures Stands(chunks', textLength', spans', pending', IndexGraphemes(ix, gs, row, 0, 0))
  {
    chunks', textLength', spans', pending' := chunks, textLength, spans, pending;
    ghost var current := ix;
    var column := 0;
    for k := 0 to |gs|
      invariant 0 <= column
      invariant Stands(chunks', textLength', spans', pending', current)
      invariant IndexGraphemes(current, gs, row, column, k) == IndexGraphemes(ix, gs, row, 0, 0)
    {
      var width := gs[k].width;
      if gs[k].space {
        if textLength' > 0 {
          pending' := true;
        }
        current := Skipped(current);
        column := column + width;
      } else {
        chunks', textLength', spans', pending' :=
          AppendRun(chunks', textLength', spans', pending', gs[k].text, row, column, column + width, false, current);
        current := Appended(current, gs[k].text, row, column, column + width, false);
        column := column + width;
      }
    }
  }

  method BuildSearchCorpus(lines: seq<Line>) returns (text: string, spans: seq<Span>)
    ensures text == Corpus(lines, true).text && spans == Corpus(lines, true).spans
  {
    var chunks: seq<string>, textLength, pending := [], 0, false;
    spans := [];
    ghost var current := EMPTY;
    for row := 0 to |lines|
      invariant Stands(chunks, textLength, spans, pending, current)
      invariant IndexLines(current, lines, row, true) == Corpus(lines, true)
    {
      if AsciiLine(lines[row].text) {
        chunks, textLength, spans, pending :=
          IndexAsciiLine(chunks, textLength, spans, pending, lines[row].text, row, current);
      } else {
        chunks, textLength, spans, pending :=
          IndexOtherLine(chunks, textLength, spans, pending, lines[row].graphemes, row, current);
      }
      if textLength > 0 {
        pending := true;
      }
      current := IndexLine(current, lines[row], row, true);
    }
    text := JoinChunks(chunks);
  }

  method JoinChunks(chunks: seq<string>) returns (text: string)
    ensures text == Join(chunks)
  {
    text := "";
    assert chunks[..0] == [];
    for k := 0 to |chunks|
      invariant text == Join(chunks[..k])
    {
      assert chunks[..k + 1][..k] == chunks[..k];
      text := text + chunks[k];
    }
    assert chunks[..|chunks|] == chunks;
  }

  // ---- Spans are ordered ----

  predicate Fits(p: Span) {
    p.textStart < p.textEnd && p.startCol <= p.endCol && (p.linear ==> p.endCol - p.startCol == p.textEnd - p.textStart)
  }

  /** Every span before text offset `at` and, on row `row`, before column `col`. */
  ghost predicate Before(spans: seq<Span>, at: nat, row: nat, col: nat) {
    forall j :: 0 <= j < |spans| ==>
      spans[j].textEnd <= at && (spans[j].row < row || (spans[j].row == row && spans[j].endCol <= col))
  }

  ghost predicate Ordered(spans: seq<Span>) {
    && (forall j :: 0 <= j < |spans| ==> Fits(spans[j]))
    && (forall j, k :: 0 <= j < k < |spans| ==>
          && spans[j].textEnd <= spans[k].textStart
          && (spans[j].row < spans[k].row || (spans[j].row == spans[k].row && spans[j].endCol <= spans[k].startCol)))
  }

  ghost predicate Good(ix: Index, row: nat, col: nat) {
    Ordered(ix.spans) && Before(ix.spans, |ix.text|, row, col)
  }

  lemma {:induction false} AppendedGood(ix: Index, text: string, row: nat, lo: nat, hi: nat, linear: bool)
    requires Good(ix, row, lo) && |text| > 0 && lo <= hi && (linear ==> hi - lo == |text|)
    ensures Good(Appended(ix, text, row, lo, hi, linear), row, hi)
  {
  }

  lemma {:induction false} RunsGood(ix: Index, line: string, row: nat, i: nat)
    requires i <= |line| && Good(ix, row, i)
    ensures Good(IndexRuns(ix, line, row, i), row, |line|)
    decreases |line| - i
  {
    if i < |line| {
      if line[i] == ' ' {
        RunsGood(Skipped(ix), line, row, i + 1);
      } else {
        var e := RunEnd(line, i + 1);
        AppendedGood(ix, line[i..e], row, i, e, true);
        RunsGood(Appended(ix, line[i..e], row, i, e, true), line, row, e);
      }
    }
  }

  function Width(gs: seq<Grapheme>, i: nat): nat
    requires i <= |gs|
    decreases |gs| - i
  {
    if i == |gs| then 0 else gs[i].width + Width(gs, i + 1)
  }

  lemma {:induction false} GraphemesGood(ix: Index, gs: seq<Grapheme>, row: nat, col: nat, i: nat)
    requires i <= |gs| && Good(ix, row, col) && forall k :: 0 <= k < |gs| ==> |gs[k].text| > 0
    ensures Good(IndexGraphemes(ix, gs, row, col, i), row, col + Width(gs, i))
    decreases |gs| - i
  {
    if i < |gs| {
      var g := gs[i];
      if !g.space { AppendedGood(ix, g.text, row, col, col + g.width, false); }
      GraphemesGood(if g.space then Skipped(ix) else Appended(ix, g.text, row, col, col + g.width, false),
                    gs, row, col + g.width, i + 1);
    }
  }

  /** What the segmentation library gives: no empty grapheme, a newline is white space, and printable ASCII
      has one grapheme of width one per character. */
  ghost predicate Segmented(l: Line) {
    && (forall k :: 0 <= k < |l.graphemes| ==>
          |l.graphemes[k].text| > 0 && (!l.graphemes[k].space ==> '\n' !in l.graphemes[k].text))
    && (AllPrintable(l.text) ==>
          && |l.graphemes| == |l.text|
          && forall k :: 0 <= k < |l.text| ==> l.graphemes[k] == Grapheme([l.text[k]], 1, l.text[k] == ' '))
  }

  ghost predicate AllSegmented(lines: seq<Line>) {
    forall k :: 0 <= k < |lines| ==> Segmented(lines[k])
  }

  lemma {:induction false} LinesGood(ix: Index, lines: seq<Line>, row: nat, fast: bool)
    requires row <= |lines| && Good(ix, row, 0) && AllSegmented(lines)
    ensures Good(IndexLines(ix, lines, row, fast), |lines|, 0)
    decreases |lines| - row
  {
    if row < |lines| {
      var l := lines[row];
      if fast && AsciiLine(l.text) {
        RunsGood(ix, l.text, row, 0);
      } else {
        GraphemesGood(ix, l.graphemes, row, 0, 0);
      }
      LinesGood(IndexLine(ix, l, row, fast), lines, row + 1, fast);
    }
  }

  // ---- The cells of a match ----

  predicate Overlaps(p: Span, start: nat, end: nat) {
    p.textEnd > start && p.textStart < end
  }

  function Lo(p: Span, start: nat): nat {
    if p.linear && start > p.textStart then p.startCol + start - p.textStart else p.startCol
  }

  function Hi(p: Span, end: nat): int {
    if p.linear then p.startCol + (if end < p.textEnd then end else p.textEnd) - p.textStart else p.endCol
  }

  /** A segment touching the last one widens it. */
  function Widened(segments: seq<Segment>, row: nat, lo: nat, hi: nat): seq<Segment> {
    var n := |segments|;
    if n > 0 && segments[n - 1].row == row && lo <= segments[n - 1].endCol
    then
      var last := segments[n - 1];
      segments[n - 1 := last.(endCol := if hi > last.endCol then hi else last.endCol)]
    else segments + [Segment(row, lo, hi)]
  }

  /** The segments of one match over the first `n` spans: every overlapping span, in order. */
  function Segments(spans: seq<Span>, n: nat, start: nat, end: nat): seq<Segment>
    requires n <= |spans| && forall j :: 0 <= j < |spans| ==> Fits(spans[j])
  {
    if n == 0 then []
    else
      var p := spans[n - 1];
      var front := Segments(spans, n - 1, start, end);
      if Overlaps(p, start, end) then Widened(front, p.row, Lo(p, start), Hi(p, end)) else front
  }

  function Matches(spans: seq<Span>, intervals: seq<Interval>): seq<seq<Segment>>
    requires forall j :: 0 <= j < |spans| ==> Fits(spans[j])
  {
    if intervals == [] then []
    else
      var last := intervals[|intervals| - 1];
      var segments := Segments(spans, |spans|, last.start, last.end);
      Matches(spans, intervals[..|intervals| - 1]) + (if |segments| > 0 then [segments] else [])
  }

  /** The engine's matches: not empty, from left to right, not overlapping. */
  ghost predicate Increasing(intervals: seq<Interval>) {
    && (forall k :: 0 <= k < |intervals| ==> intervals[k].start < intervals[k].end)
    && (forall j, k :: 0 <= j < k < |intervals| ==> intervals[j].end <= intervals[k].start)
  }

  lemma {:induction false} NoneBefore(spans: seq<Span>, n: nat, start: nat, end: nat)
    requires Ordered(spans) && n <= |spans| && forall j :: 0 <= j < n ==> spans[j].textEnd <= start
    ensures Segments(spans, n, start, end) == []
  {
    if n > 0 { NoneBefore(spans, n - 1, start, end); }
  }

  lemma {:induction false} NoneAfter(spans: seq<Span>, n: nat, m: nat, start: nat, end: nat)
    requires Ordered(spans) && n <= m <= |spans| && (n < |spans| ==> spans[n].textStart >= end)
    ensures Segments(spans, m, start, end) == Segments(spans, n, start, end)
  {
    if n < m { NoneAfter(spans, n, m - 1, start, end); }
  }

  method AddSegment(segments: seq<Segment>, row: nat, startCol: nat, endCol: nat) returns (r: seq<Segment>)
    ensures r == Widened(segments, row, startCol, endCol)
  {
    var n := |segments|;
    if n > 0 {
      var previous := segments[n - 1];
      if previous.row == row && startCol <= previous.endCol {
        return segments[n - 1 := previous.(endCol := if endCol > previous.endCol then endCol else previous.endCol)];
      }
    }
    r := segments + [Segment(row, startCol, endCol)];
  }

  /** One match, from the first span that may overlap it to the first one past it. */
  method SweepMatch(spans: seq<Span>, spanIndex: nat, start: nat, end: nat) returns (segments: seq<Segment>)
    requires Ordered(spans) && spanIndex <= |spans| && start < end
    requires forall j :: 0 <= j < spanIndex ==> spans[j].textEnd <= start
    ensures segments == Segments(spans, |spans|, start, end)
  {
    segments := [];
    NoneBefore(spans, spanIndex, start, end);
    var index := spanIndex;
    while index < |spans|
      invariant spanIndex <= index <= |spans|
      invariant segments == Segments(spans, index, start, end)
    {
      var span := spans[index];
      if span.textStart >= end {
        NoneAfter(spans, index, |spans|, start, end);
        return;
      }
      index := index + 1;
      if span.textEnd <= start {
        continue;
      }
      var startCol, endCol := span.startCol, span.endCol;
      if span.linear {
        startCol := span.startCol + (if start > span.textStart then start else span.textStart) - span.textStart;
        endCol := span.startCol + (if end < span.textEnd then end else span.textEnd) - span.textStart;
      }
      segments := AddSegment(segments, span.row, startCol, endCol);
    }
  }

  /** The monotone sweep over the matches yields, for each, what looking at every span yields. */
  method FindSearchCorpusMatches(spans: seq<Span>, intervals: seq<Interval>) returns (matches: seq<seq<Segment>>)
    requires Ordered(spans) && Increasing(intervals)
    ensures matches == Matches(spans, intervals)
  {
    matches := [];
    var spanIndex := 0;
    assert intervals[..0] == [];
    for k := 0 to |intervals|
      invariant spanIndex <= |spans|
      invariant forall j :: 0 <= j < spanIndex ==> k < |intervals| ==> spans[j].textEnd <= intervals[k].start
      invariant matches == Matches(spans, intervals[..k])
    {
      var start, end := intervals[k].start, intervals[k].end;
      while spanIndex < |spans| && spans[spanIndex].textEnd <= start
        invariant spanIndex <= |spans|
        invariant forall j :: 0 <= j < spanIndex ==> spans[j].textEnd <= start
      {
        spanIndex := spanIndex + 1;
      }
      var segments := SweepMatch(spans, spanIndex, start, end);
      while spanIndex < |spans| && spans[spanIndex].textEnd <= end
        invariant spanIndex <= |spans|
        invariant forall j :: 0 <= j < spanIndex ==> spans[j].textEnd <= end
      {
        spanIndex := spanIndex + 1;
      }
      assert intervals[..k + 1][..k] == intervals[..k];
      if |segments| > 0 {
        matches := matches + [segments];
      }
    }
    assert intervals[..|intervals|] == intervals;
  }

  // ---- What the segments cover ----

  predicate Covers(segments: seq<Segment>, row: nat, col: nat) {
    exists i :: 0 <= i < |segments| && segments[i].row == row && segments[i].startCol <= col < segments[i].endCol
  }

  /** Some span's part of the match holds the cell. */
  predicate CoveredBy(spans: seq<Span>, n: nat, start: nat, end: nat, row: nat, col: nat)
    requires n <= |spans|
  {
    n > 0 && (|| (var p := spans[n - 1]; Overlaps(p, start, end) && p.row == row && Lo(p, start) <= col < Hi(p, end))
              || CoveredBy(spans, n - 1, start, end, row, col))
  }

  ghost predicate Disjoint(segments: seq<Segment>) {
    && (forall i :: 0 <= i < |segments| ==> segments[i].startCol <= segments[i].endCol)
    && forall i, j :: 0 <= i < j < |segments| ==>
         segments[i].row < segments[j].row
           || (segments[i].row == segments[j].row && segments[i].endCol < segments[j].startCol)
  }

  ghost predicate Below(segments: seq<Segment>, row: nat, col: nat) {
    forall i :: 0 <= i < |segments| ==>
      segments[i].row < row || (segments[i].row == row && segments[i].endCol <= col)
  }

  lemma {:induction false} WidenedDisjoint(segments: seq<Segment>, row: nat, lo: nat, hi: nat)
    requires Disjoint(segments) && Below(segments, row, lo) && lo <= hi
    ensures Disjoint(Widened(segments, row, lo, hi)) && Below(Widened(segments, row, lo, hi), row, hi)
  {
  }

  lemma {:induction false} WidenedCovers(segments: seq<Segment>, row: nat, lo: nat, hi: nat, r: nat, c: nat)
    requires Disjoint(segments) && Below(segments, row, lo) && lo <= hi
    ensures Covers(Widened(segments, row, lo, hi), r, c) <==> Covers(segments, r, c) || (r == row && lo <= c < hi)
  {
    var n, w := |segments|, Widened(segments, row, lo, hi);
    if Covers(segments, r, c) {
      var i :| 0 <= i < n && segments[i].row == r && segments[i].startCol <= c < segments[i].endCol;
      assert w[i].row == r && w[i].startCol <= c < w[i].endCol;
    }
    if r == row && lo <= c < hi {
      assert w[|w| - 1].row == r && w[|w| - 1].startCol <= c < w[|w| - 1].endCol;
    }
  }

  lemma {:induction false} SegmentsCover(spans: seq<Span>, n: nat, start: nat, end: nat, r: nat, c: nat)
    requires Ordered(spans) && n <= |spans| && start < end
    ensures var s := Segments(spans, n, start, end);
            && Disjoint(s)
            && (n > 0 ==> Below(s, spans[n - 1].row, spans[n - 1].endCol))
            && (Covers(s, r, c) <==> CoveredBy(spans, n, start, end, r, c))
  {
    if n > 0 {
      var p := spans[n - 1];
      var front := Segments(spans, n - 1, start, end);
      SegmentsCover(spans, n - 1, start, end, r, c);
      assert Below(front, p.row, p.startCol);
      if Overlaps(p, start, end) {
        WidenedDisjoint(front, p.row, Lo(p, start), Hi(p, end));
        WidenedCovers(front, p.row, Lo(p, start), Hi(p, end), r, c);
      }
    }
  }

  // ---- The cells of one indexed character ----

  datatype Cells = Cells(row: nat, lo: nat, hi: nat)

  /** The cells of text offset `k`: one column of a run, or the whole grapheme. */
  function CellsOf(p: Span, k: nat): Cells
    requires p.textStart <= k
  {
    if p.linear then Cells(p.row, p.startCol + k - p.textStart, p.startCol + k - p.textStart + 1)
    else Cells(p.row, p.startCol, p.endCol)
  }

  /** A separator has no cells. */
  function CellAt(spans: seq<Span>, n: nat, k: nat): Option<Cells>
    requires n <= |spans|
  {
    if n == 0 then None
    else if spans[n - 1].textStart <= k < spans[n - 1].textEnd then Some(CellsOf(spans[n - 1], k))
    else CellAt(spans, n - 1, k)
  }

  predicate Within(cells: Option<Cells>, row: nat, col: nat) {
    cells.Some? && cells.value.row == row && cells.value.lo <= col < cells.value.hi
  }

  /** Some character of the interval has the cell. */
  ghost predicate HasCell(spans: seq<Span>, start: nat, end: nat, row: nat, col: nat) {
    exists k: nat :: start <= k < end && Within(CellAt(spans, |spans|, k), row, col)
  }

  lemma {:induction false} CharacterInSpan(spans: seq<Span>, n: nat, k: nat) returns (j: nat)
    requires n <= |spans| && CellAt(spans, n, k).Some?
    ensures j < n && spans[j].textStart <= k < spans[j].textEnd && CellAt(spans, n, k) == Some(CellsOf(spans[j], k))
  {
    if spans[n - 1].textStart <= k < spans[n - 1].textEnd {
      j := n - 1;
    } else {
      j := CharacterInSpan(spans, n - 1, k);
    }
  }

  lemma {:induction false} SpanOfCharacter(spans: seq<Span>, n: nat, j: nat, k: nat)
    requires Ordered(spans) && j < n <= |spans| && spans[j].textStart <= k < spans[j].textEnd
    ensures CellAt(spans, n, k) == Some(CellsOf(spans[j], k))
  {
    if j < n - 1 { SpanOfCharacter(spans, n - 1, j, k); }
  }

  lemma {:induction false} CoveredCharacter(spans: seq<Span>, n: nat, start: nat, end: nat, row: nat, col: nat)
    returns (k: nat)
    requires Ordered(spans) && n <= |spans| && start < end && CoveredBy(spans, n, start, end, row, col)
    ensures start <= k < end && Within(CellAt(spans, n, k), row, col)
  {
    var p := spans[n - 1];
    if Overlaps(p, start, end) && p.row == row && Lo(p, start) <= col < Hi(p, end) {
      k := if p.linear then p.textStart + col - p.startCol else if start > p.textStart then start else p.textStart;
      SpanOfCharacter(spans, n, n - 1, k);
    } else {
      k := CoveredCharacter(spans, n - 1, start, end, row, col);
      var j := CharacterInSpan(spans, n - 1, k);
      SpanOfCharacter(spans, n, j, k);
    }
  }

  lemma {:induction false} SpanCovers(spans: seq<Span>, n: nat, j: nat, start: nat, end: nat, row: nat, col: nat)
    requires j < n <= |spans| && Overlaps(spans[j], start, end)
    requires spans[j].row == row && Lo(spans[j], start) <= col < Hi(spans[j], end)
    ensures CoveredBy(spans, n, start, end, row, col)
  {
    if j < n - 1 { SpanCovers(spans, n - 1, j, start, end, row, col); }
  }

  /** A match highlights exactly the cells of the indexed characters in it. */
  lemma {:induction false} MatchCells(spans: seq<Span>, start: nat, end: nat, row: nat, col: nat)
    requires Ordered(spans) && start < end
    ensures Covers(Segments(spans, |spans|, start, end), row, col)
            <==> HasCell(spans, start, end, row, col)
    ensures Disjoint(Segments(spans, |spans|, start, end))
  {
    SegmentsCover(spans, |spans|, start, end, row, col);
    if CoveredBy(spans, |spans|, start, end, row, col) {
      var k := CoveredCharacter(spans, |spans|, start, end, row, col);
      assert start <= k < end && Within(CellAt(spans, |spans|, k), row, col);
    }
    if HasCell(spans, start, end, row, col) {
      var k: nat :| start <= k < end && Within(CellAt(spans, |spans|, k), row, col);
      var j := CharacterInSpan(spans, |spans|, k);
      SpanCovers(spans, |spans|, j, start, end, row, col);
    }
  }
}
