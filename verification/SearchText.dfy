/** What the search index holds, said on the graphemes: its text is the words of the lines joined by
    single spaces, each character of a word has its grapheme's cells, and a search finds every match. */
module SearchText {
  import opened Prelude
  import opened TranscriptSearch
  import opened SearchIndex

  /** The graphemes `start` to `end` of one line. */
  datatype Word = Word(row: nat, start: nat, end: nat)

  predicate InLine(lines: seq<Line>, w: Word) {
    w.row < |lines| && w.start < w.end <= |lines[w.row].graphemes|
  }

  predicate InLines(lines: seq<Line>, ws: seq<Word>) {
    forall k :: 0 <= k < |ws| ==> InLine(lines, ws[k])
  }

  function TextOf(gs: seq<Grapheme>, lo: nat, hi: nat): string
    requires lo <= hi <= |gs|
  {
    if lo == hi then "" else TextOf(gs, lo, hi - 1) + gs[hi - 1].text
  }

  function WordText(lines: seq<Line>, w: Word): string
    requires InLine(lines, w)
  {
    TextOf(lines[w.row].graphemes, w.start, w.end)
  }

  /** The words, joined by single spaces. */
  function Joined(lines: seq<Line>, ws: seq<Word>): string
    requires InLines(lines, ws)
  {
    if ws == [] then ""
    else
      var n := |ws| - 1;
      Joined(lines, ws[..n]) + (if n > 0 then " " else "") + WordText(lines, ws[n])
  }

  /** The cells of a line before its `i`th grapheme. */
  function Columns(gs: seq<Grapheme>, i: nat): nat
    requires i <= |gs|
  {
    if i == 0 then 0 else Columns(gs, i - 1) + gs[i - 1].width
  }

  /** Where the `i`th grapheme of the line of word `k` starts in the joined words. */
  function Offset(lines: seq<Line>, ws: seq<Word>, k: nat, i: nat): nat
    requires InLines(lines, ws) && k < |ws| && ws[k].start <= i <= ws[k].end
  {
    |Joined(lines, ws[..k])| + (if k > 0 then 1 else 0) + |TextOf(lines[ws[k].row].graphemes, ws[k].start, i)|
  }

  // ---- The words of the lines ----

  /** A run of graphemes without white space, not preceded by another such grapheme. */
  ghost predicate Opens(lines: seq<Line>, w: Word) {
    && InLine(lines, w)
    && (forall i :: w.start <= i < w.end ==> !lines[w.row].graphemes[i].space)
    && (w.start == 0 || lines[w.row].graphemes[w.start - 1].space)
  }

  ghost predicate Ends(lines: seq<Line>, w: Word)
    requires InLine(lines, w)
  {
    w.end == |lines[w.row].graphemes| || lines[w.row].graphemes[w.end].space
  }

  ghost predicate Earlier(a: Word, b: Word) {
    a.row < b.row || (a.row == b.row && a.end < b.start)
  }

  ghost predicate Holds(ws: seq<Word>, row: nat, i: nat) {
    exists k :: 0 <= k < |ws| && ws[k].row == row && ws[k].start <= i < ws[k].end
  }

  /** Exactly the maximal runs of graphemes without white space within a line, in reading order. */
  ghost predicate AreWords(lines: seq<Line>, ws: seq<Word>) {
    && (forall k :: 0 <= k < |ws| ==> Opens(lines, ws[k]) && Ends(lines, ws[k]))
    && (forall j, k :: 0 <= j < k < |ws| ==> Earlier(ws[j], ws[k]))
    && (forall row: nat, i: nat {:trigger Holds(ws, row, i)} ::
          row < |lines| && i < |lines[row].graphemes| && !lines[row].graphemes[i].space ==> Holds(ws, row, i))
  }

  /** Every character of grapheme `i` in word `k` has the grapheme's cells. */
  ghost predicate Placed(lines: seq<Line>, spans: seq<Span>, ws: seq<Word>, k: nat, i: nat)
    requires InLines(lines, ws) && k < |ws| && ws[k].start <= i < ws[k].end
  {
    var gs, at := lines[ws[k].row].graphemes, Offset(lines, ws, k, i);
    forall x: nat :: at <= x < at + |gs[i].text| ==>
      CellAt(spans, |spans|, x) == Some(Cells(ws[k].row, Columns(gs, i), Columns(gs, i) + gs[i].width))
  }

  /** The space in front of word `k` has no cells. */
  ghost predicate Blank(lines: seq<Line>, spans: seq<Span>, ws: seq<Word>, k: nat)
    requires InLines(lines, ws) && k < |ws|
  {
    CellAt(spans, |spans|, |Joined(lines, ws[..k])|) == None
  }

  /** The characters of the words have their graphemes' cells, the spaces between them none. */
  ghost predicate Located(lines: seq<Line>, spans: seq<Span>, ws: seq<Word>)
    requires InLines(lines, ws)
  {
    && (forall k: nat, i: nat :: k < |ws| && ws[k].start <= i < ws[k].end ==> Placed(lines, spans, ws, k, i))
    && (forall k: nat :: 0 < k < |ws| ==> Blank(lines, spans, ws, k))
  }

  // ---- Joining one more grapheme ----

  lemma {:induction false} JoinedSnoc(lines: seq<Line>, ws: seq<Word>, w: Word)
    requires InLines(lines, ws) && InLine(lines, w)
    ensures InLines(lines, ws + [w])
    ensures Joined(lines, ws + [w]) == Joined(lines, ws) + (if ws != [] then " " else "") + WordText(lines, w)
  {
    assert (ws + [w])[..|ws|] == ws;
  }

  lemma {:induction false} TextGrows(gs: seq<Grapheme>, lo: nat, mid: nat, hi: nat)
    requires lo <= mid < hi <= |gs|
    ensures |TextOf(gs, lo, mid)| + |gs[mid].text| <= |TextOf(gs, lo, hi)|
  {
    if mid + 1 < hi {
      TextGrows(gs, lo, mid, hi - 1);
    }
  }

  lemma {:induction false} JoinedGrows(lines: seq<Line>, ws: seq<Word>, n: nat)
    requires InLines(lines, ws) && n <= |ws|
    ensures |Joined(lines, ws[..n])| <= |Joined(lines, ws)|
  {
    if n == |ws| {
      assert ws[..n] == ws;
    } else {
      var front := ws[..|ws| - 1];
      JoinedGrows(lines, front, n);
      assert front[..n] == ws[..n];
    }
  }

  /** A grapheme lies within the joined words. */
  lemma {:induction false} OffsetWithin(lines: seq<Line>, ws: seq<Word>, k: nat, i: nat)
    requires InLines(lines, ws) && k < |ws| && ws[k].start <= i < ws[k].end
    ensures Offset(lines, ws, k, i) + |lines[ws[k].row].graphemes[i].text| <= |Joined(lines, ws)|
  {
    TextGrows(lines[ws[k].row].graphemes, ws[k].start, i, ws[k].end);
    JoinedGrows(lines, ws, k + 1);
    assert ws[..k + 1][..k] == ws[..k];
  }

  lemma {:induction false} NoneBeyond(spans: seq<Span>, n: nat, at: nat)
    requires n <= |spans| && forall j :: 0 <= j < n ==> spans[j].textEnd <= at
    ensures CellAt(spans, n, at) == None
  {
    if n > 0 {
      NoneBeyond(spans, n - 1, at);
    }
  }

  // ---- The index so far ----

  ghost predicate Inside(ws: seq<Word>, row: nat, i: nat) {
    forall k :: 0 <= k < |ws| ==> ws[k].row < row || (ws[k].row == row && ws[k].end <= i)
  }

  /** The words before grapheme `i` of the line `row`; while no separator is due the last is still open there. */
  ghost predicate WordsTo(lines: seq<Line>, ws: seq<Word>, row: nat, i: nat, open: bool) {
    && (forall k :: 0 <= k < |ws| ==> Opens(lines, ws[k]))
    && (forall k :: 0 <= k < |ws| - 1 ==> Ends(lines, ws[k]))
    && (forall j, k :: 0 <= j < k < |ws| ==> Earlier(ws[j], ws[k]))
    && Inside(ws, row, i)
    && (forall r: nat, j: nat {:trigger Holds(ws, r, j)} ::
          r < |lines| && j < |lines[r].graphemes| && (r < row || (r == row && j < i)) ==>
            lines[r].graphemes[j].space || Holds(ws, r, j))
    && (open <==> i > 0 && row < |lines| && i <= |lines[row].graphemes| && !lines[row].graphemes[i - 1].space)
    && (open ==> ws != [] && ws[|ws| - 1].row == row && ws[|ws| - 1].end == i)
    && (!open && ws != [] ==> Ends(lines, ws[|ws| - 1]))
  }

  ghost predicate Indexed(lines: seq<Line>, ws: seq<Word>, row: nat, i: nat, ix: Index) {
    && InLines(lines, ws) && WordsTo(lines, ws, row, i, ws != [] && !ix.pending)
    && (ix.pending ==> ws != [])
    && ix.text == Joined(lines, ws) && Bounded(ix)
    && Located(lines, ix.spans, ws)
  }

  /** The index with one more grapheme. */
  function NextIndex(ix: Index, gs: seq<Grapheme>, row: nat, i: nat): Index
    requires i < |gs|
  {
    var col := Columns(gs, i);
    if gs[i].space then Skipped(ix) else Appended(ix, gs[i].text, row, col, col + gs[i].width, false)
  }

  lemma {:induction false} JoinedEmpty(lines: seq<Line>, ws: seq<Word>)
    requires InLines(lines, ws) && AllSegmented(lines)
    ensures Joined(lines, ws) == "" <==> ws == []
  {
    if ws != [] {
      var w := ws[|ws| - 1];
      assert |lines[w.row].graphemes[w.end - 1].text| > 0;
    }
  }

  lemma {:induction false} SpaceIndexed(lines: seq<Line>, ws: seq<Word>, row: nat, i: nat, ix: Index)
    requires AllSegmented(lines) && Indexed(lines, ws, row, i, ix)
    requires row < |lines| && i < |lines[row].graphemes| && lines[row].graphemes[i].space
    ensures Indexed(lines, ws, row, i + 1, NextIndex(ix, lines[row].graphemes, row, i))
  {
    JoinedEmpty(lines, ws);
  }

  lemma {:induction false} LineIndexed(lines: seq<Line>, ws: seq<Word>, row: nat, ix: Index)
    requires AllSegmented(lines) && row < |lines| && Indexed(lines, ws, row, |lines[row].graphemes|, ix)
    ensures Indexed(lines, ws, row + 1, 0, Skipped(ix))
  {
    JoinedEmpty(lines, ws);
  }

  // ---- One more grapheme ----

  /** A span behind a grapheme's characters leaves them their cells. */
  lemma {:induction false} PlacedStill(lines: seq<Line>, spans: seq<Span>, p: Span, ws: seq<Word>, ws': seq<Word>,
                                       k: nat, i: nat)
    requires InLines(lines, ws) && InLines(lines, ws') && k < |ws| && k < |ws'| && ws[k].start <= i < ws[k].end
    requires ws'[..k] == ws[..k] && ws'[k].row == ws[k].row && ws'[k].start == ws[k].start && i < ws'[k].end
    requires Placed(lines, spans, ws, k, i)
    requires p.textStart >= |Joined(lines, ws)|
    ensures Placed(lines, spans + [p], ws', k, i)
  {
    OffsetWithin(lines, ws, k, i);
    var at := Offset(lines, ws, k, i);
    forall x: nat | at <= x < at + |lines[ws[k].row].graphemes[i].text|
      ensures CellAt(spans + [p], |spans + [p]|, x) == CellAt(spans, |spans|, x)
    {
      CellAtSnoc(spans, p, x);
    }
  }

  /** The characters of the new span have its cells. */
  lemma {:induction false} PlacedNow(lines: seq<Line>, spans: seq<Span>, p: Span, ws: seq<Word>, k: nat, i: nat)
    requires InLines(lines, ws) && k < |ws| && ws[k].start <= i < ws[k].end
    requires var gs := lines[ws[k].row].graphemes;
             p == Span(Offset(lines, ws, k, i), Offset(lines, ws, k, i) + |gs[i].text|, ws[k].row, Columns(gs, i),
                       Columns(gs, i) + gs[i].width, false)
    ensures Placed(lines, spans + [p], ws, k, i)
  {
    forall x: nat | p.textStart <= x < p.textEnd
      ensures CellAt(spans + [p], |spans + [p]|, x) == Some(Cells(p.row, p.startCol, p.endCol))
    {
      CellAtSnoc(spans, p, x);
    }
  }

  lemma {:induction false} BlankStill(lines: seq<Line>, spans: seq<Span>, p: Span, ws: seq<Word>, k: nat)
    requires InLines(lines, ws) && k < |ws| && p.textStart >= |Joined(lines, ws)|
    requires AllSegmented(lines) && Blank(lines, spans, ws, k)
    ensures Blank(lines, spans + [p], ws, k)
  {
    OffsetWithin(lines, ws, k, ws[k].start);
    CellAtSnoc(spans, p, |Joined(lines, ws[..k])|);
  }

  /** The new span is the new word's only grapheme. */
  lemma {:induction false} NewWordLocated(lines: seq<Line>, spans: seq<Span>, p: Span, ws: seq<Word>, w: Word)
    requires AllSegmented(lines) && InLines(lines, ws) && InLine(lines, w) && w.end == w.start + 1
    requires InLines(lines, ws + [w]) && Located(lines, spans, ws)
    requires forall j :: 0 <= j < |spans| ==> spans[j].textEnd <= |Joined(lines, ws)|
    requires var gs, at := lines[w.row].graphemes, |Joined(lines, ws)| + (if ws != [] then 1 else 0);
             p == Span(at, at + |gs[w.start].text|, w.row, Columns(gs, w.start),
                       Columns(gs, w.start) + gs[w.start].width, false)
    ensures Located(lines, spans + [p], ws + [w])
  {
    var ws', n := ws + [w], |ws|;
    assert ws'[..n] == ws;
    forall k: nat, j: nat | k < |ws'| && ws'[k].start <= j < ws'[k].end
      ensures Placed(lines, spans + [p], ws', k, j)
    {
      if k < n {
        assert ws'[..k] == ws[..k];
        PlacedStill(lines, spans, p, ws, ws', k, j);
      } else {
        PlacedNow(lines, spans, p, ws', k, j);
      }
    }
    forall k: nat | 0 < k < |ws'| ensures Blank(lines, spans + [p], ws', k) {
      if k < n {
        assert ws'[..k] == ws[..k] && Blank(lines, spans, ws, k);
        BlankStill(lines, spans, p, ws, k);
      } else {
        NoneBeyond(spans, |spans|, |Joined(lines, ws)|);
        CellAtSnoc(spans, p, |Joined(lines, ws)|);
      }
    }
  }

  lemma {:induction false} NewWordText(lines: seq<Line>, ws: seq<Word>, row: nat, i: nat, ix: Index)
    requires InLines(lines, ws) && ix.text == Joined(lines, ws) && Bounded(ix) && (ix.pending <==> ws != [])
    requires row < |lines| && i < |lines[row].graphemes| && !lines[row].graphemes[i].space
    ensures var w, gs := Word(row, i, i + 1), lines[row].graphemes;
            var at, next := |ix.text| + (if ws != [] then 1 else 0), NextIndex(ix, gs, row, i);
            && InLine(lines, w) && InLines(lines, ws + [w])
            && next.text == Joined(lines, ws + [w]) && !next.pending && Bounded(next)
            && next.spans == ix.spans + [Span(at, at + |gs[i].text|, row, Columns(gs, i), Columns(gs, i) + gs[i].width,
                                              false)]
  {
    var gs, col := lines[row].graphemes, Columns(lines[row].graphemes, i);
    assert InLine(lines, Word(row, i, i + 1));
    JoinedSnoc(lines, ws, Word(row, i, i + 1));
    OneGrapheme(gs, i);
    AppendedBounded(ix, gs[i].text, row, col, col + gs[i].width);
  }

  lemma {:induction false} NewWord(lines: seq<Line>, ws: seq<Word>, row: nat, i: nat, ix: Index)
    requires AllSegmented(lines) && Indexed(lines, ws, row, i, ix) && (ws == [] || ix.pending)
    requires row < |lines| && i < |lines[row].graphemes| && !lines[row].graphemes[i].space
    ensures Indexed(lines, ws + [Word(row, i, i + 1)], row, i + 1, NextIndex(ix, lines[row].graphemes, row, i))
  {
    var w, next := Word(row, i, i + 1), NextIndex(ix, lines[row].graphemes, row, i);
    NewWordText(lines, ws, row, i, ix);
    NewWordTo(lines, ws, row, i);
    NewWordLocated(lines, ix.spans, next.spans[|ix.spans|], ws, w);
  }

  lemma {:induction false} AppendedBounded(ix: Index, text: string, row: nat, lo: nat, hi: nat)
    requires Bounded(ix)
    ensures var next, at := Appended(ix, text, row, lo, hi, false), |ix.text| + (if ix.pending then 1 else 0);
            && Bounded(next) && !next.pending
            && next.text == ix.text + (if ix.pending then " " else "") + text
            && next.spans == ix.spans + [Span(at, at + |text|, row, lo, hi, false)]
  {
    assert ix.text + "" == ix.text;
  }

  lemma {:induction false} OneGrapheme(gs: seq<Grapheme>, i: nat)
    requires i < |gs|
    ensures TextOf(gs, i, i + 1) == gs[i].text
  {
    assert TextOf(gs, i, i) == "";
  }

  lemma {:induction false} HoldsMore(ws: seq<Word>, w: Word, row: nat, i: nat)
    requires Holds(ws, row, i) || (w.row == row && w.start <= i < w.end)
    ensures Holds(ws + [w], row, i)
  {
    if Holds(ws, row, i) {
      var k :| 0 <= k < |ws| && ws[k].row == row && ws[k].start <= i < ws[k].end;
      assert (ws + [w])[k] == ws[k];
    } else {
      assert (ws + [w])[|ws|] == w;
    }
  }

  lemma {:induction false} NewWordTo(lines: seq<Line>, ws: seq<Word>, row: nat, i: nat)
    requires WordsTo(lines, ws, row, i, false)
    requires row < |lines| && i < |lines[row].graphemes| && !lines[row].graphemes[i].space
    ensures WordsTo(lines, ws + [Word(row, i, i + 1)], row, i + 1, true)
  {
    var w := Word(row, i, i + 1);
    assert Opens(lines, w);
    forall r: nat, j: nat
      | r < |lines| && j < |lines[r].graphemes| && (r < row || (r == row && j < i + 1)) && !lines[r].graphemes[j].space
      ensures Holds(ws + [w], r, j)
    {
      HoldsMore(ws, w, r, j);
    }
    forall k | 0 <= k < |ws| ensures Earlier(ws[k], w) {
      assert Opens(lines, ws[k]) && Ends(lines, ws[k]);
    }
  }

  lemma {:induction false} OffsetAtEnd(lines: seq<Line>, ws: seq<Word>)
    requires InLines(lines, ws) && ws != []
    ensures Offset(lines, ws, |ws| - 1, ws[|ws| - 1].end) == |Joined(lines, ws)|
  {
  }

  lemma {:induction false} BlanksStill(lines: seq<Line>, spans: seq<Span>, p: Span, ws: seq<Word>, ws': seq<Word>)
    requires AllSegmented(lines) && InLines(lines, ws) && InLines(lines, ws') && Located(lines, spans, ws)
    requires |ws'| == |ws| > 0 && ws'[..|ws| - 1] == ws[..|ws| - 1] && p.textStart >= |Joined(lines, ws)|
    ensures forall k: nat :: 0 < k < |ws'| ==> Blank(lines, spans + [p], ws', k)
  {
    forall k: nat | 0 < k < |ws'| ensures Blank(lines, spans + [p], ws', k) {
      assert ws'[..k] == ws'[..|ws| - 1][..k] == ws[..k];
      BlankStill(lines, spans, p, ws, k);
    }
  }

  /** The word `w` is the last of `ws` with one more grapheme. */
  ghost predicate Longer(lines: seq<Line>, ws: seq<Word>, w: Word) {
    && InLines(lines, ws) && ws != [] && InLine(lines, w)
    && w.row == ws[|ws| - 1].row && w.start == ws[|ws| - 1].start && w.end == ws[|ws| - 1].end + 1
  }

  lemma {:induction false} LongerPlaced(lines: seq<Line>, spans: seq<Span>, p: Span, ws: seq<Word>, w: Word)
    requires Longer(lines, ws, w) && InLines(lines, ws[..|ws| - 1] + [w])
    requires var gs, at := lines[w.row].graphemes, |Joined(lines, ws)|;
             p == Span(at, at + |gs[w.end - 1].text|, w.row, Columns(gs, w.end - 1),
                       Columns(gs, w.end - 1) + gs[w.end - 1].width, false)
    ensures Placed(lines, spans + [p], ws[..|ws| - 1] + [w], |ws| - 1, w.end - 1)
  {
    var n := |ws| - 1;
    var ws' := ws[..n] + [w];
    assert ws'[..n] == ws[..n];
    OffsetAtEnd(lines, ws);
    assert Offset(lines, ws', n, w.end - 1) == Offset(lines, ws, n, ws[n].end);
    PlacedNow(lines, spans, p, ws', n, w.end - 1);
  }

  lemma {:induction false} ShorterPlaced(lines: seq<Line>, spans: seq<Span>, p: Span, ws: seq<Word>, ws': seq<Word>,
                                         k: nat, j: nat)
    requires InLines(lines, ws) && InLines(lines, ws') && ws != [] && |ws'| == |ws|
    requires ws'[..|ws| - 1] == ws[..|ws| - 1] && Longer(lines, ws, ws'[|ws| - 1])
    requires Located(lines, spans, ws) && p.textStart >= |Joined(lines, ws)|
    requires k < |ws| && ws[k].start <= j < ws[k].end
    ensures j < ws'[k].end && Placed(lines, spans + [p], ws', k, j)
  {
    assert ws'[..k] == ws'[..|ws| - 1][..k] == ws[..k];
    assert k < |ws| - 1 ==> ws'[k] == ws'[..|ws| - 1][k] == ws[k];
    assert Placed(lines, spans, ws, k, j);
    PlacedStill(lines, spans, p, ws, ws', k, j);
  }

  /** The new span is the last grapheme of the longer word. */
  lemma {:induction false} LongerWordLocated(lines: seq<Line>, spans: seq<Span>, p: Span, ws: seq<Word>, ws': seq<Word>)
    requires AllSegmented(lines) && InLines(lines, ws) && InLines(lines, ws') && ws != [] && |ws'| == |ws|
    requires ws'[..|ws| - 1] == ws[..|ws| - 1] && Longer(lines, ws, ws'[|ws| - 1])
    requires Located(lines, spans, ws) && p.textStart >= |Joined(lines, ws)|
    requires Placed(lines, spans + [p], ws', |ws| - 1, ws'[|ws| - 1].end - 1)
    ensures Located(lines, spans + [p], ws')
  {
    forall k: nat, j: nat | k < |ws'| && ws'[k].start <= j < ws'[k].end
      ensures Placed(lines, spans + [p], ws', k, j)
    {
      assert k < |ws| - 1 ==> ws'[k] == ws'[..|ws| - 1][k] == ws[k];
      if k < |ws| - 1 || j < ws'[k].end - 1 {
        ShorterPlaced(lines, spans, p, ws, ws', k, j);
      }
    }
    BlanksStill(lines, spans, p, ws, ws');
  }

  lemma {:induction false} JoinedLonger(lines: seq<Line>, ws: seq<Word>, w: Word)
    requires Longer(lines, ws, w)
    ensures InLines(lines, ws[..|ws| - 1] + [w])
    ensures Joined(lines, ws[..|ws| - 1] + [w]) == Joined(lines, ws) + lines[w.row].graphemes[w.end - 1].text
  {
    var n := |ws| - 1;
    JoinedSnoc(lines, ws[..n], w);
    var before := Joined(lines, ws[..n]) + (if n > 0 then " " else "");
    Associative(before, WordText(lines, ws[n]), lines[w.row].graphemes[w.end - 1].text);
  }

  lemma {:induction false} LongerWord(lines: seq<Line>, ws: seq<Word>, row: nat, i: nat, ix: Index)
    requires AllSegmented(lines) && Indexed(lines, ws, row, i, ix) && ws != [] && !ix.pending
    requires row < |lines| && i < |lines[row].graphemes| && !lines[row].graphemes[i].space
    ensures Indexed(lines, ws[..|ws| - 1] + [Word(row, ws[|ws| - 1].start, i + 1)], row, i + 1,
                    NextIndex(ix, lines[row].graphemes, row, i))
  {
    var gs, n := lines[row].graphemes, |ws| - 1;
    var w, col := Word(row, ws[n].start, i + 1), Columns(gs, i);
    var next := Appended(ix, gs[i].text, row, col, col + gs[i].width, false);
    LongerWordTo(lines, ws, row, i);
    AppendedBounded(ix, gs[i].text, row, col, col + gs[i].width);
    assert Opens(lines, ws[n]) && InLine(lines, w);
    JoinedLonger(lines, ws, w);
    LongerPlaced(lines, ix.spans, next.spans[|ix.spans|], ws, w);
    LongerWordLocated(lines, ix.spans, next.spans[|ix.spans|], ws, ws[..n] + [w]);
  }

  lemma {:induction false} LongerWordTo(lines: seq<Line>, ws: seq<Word>, row: nat, i: nat)
    requires WordsTo(lines, ws, row, i, true)
    requires row < |lines| && i < |lines[row].graphemes| && !lines[row].graphemes[i].space
    ensures WordsTo(lines, ws[..|ws| - 1] + [Word(row, ws[|ws| - 1].start, i + 1)], row, i + 1, true)
  {
    var n := |ws| - 1;
    var w := Word(row, ws[n].start, i + 1);
    var ws' := ws[..n] + [w];
    assert Opens(lines, ws[n]);
    forall r: nat, j: nat
      | r < |lines| && j < |lines[r].graphemes| && (r < row || (r == row && j < i + 1)) && !lines[r].graphemes[j].space
      ensures Holds(ws', r, j)
    {
      HoldsLonger(ws, w, r, j);
    }
  }

  lemma {:induction false} HoldsLonger(ws: seq<Word>, w: Word, row: nat, i: nat)
    requires ws != [] && w.row == ws[|ws| - 1].row && w.start == ws[|ws| - 1].start && w.end == ws[|ws| - 1].end + 1
    requires Holds(ws, row, i) || (w.row == row && i == w.end - 1 && w.start < w.end)
    ensures Holds(ws[..|ws| - 1] + [w], row, i)
  {
    var n := |ws| - 1;
    var ws' := ws[..n] + [w];
    assert ws'[n] == w;
    if Holds(ws, row, i) {
      var k :| 0 <= k < |ws| && ws[k].row == row && ws[k].start <= i < ws[k].end;
      assert ws'[k].row == row && ws'[k].start <= i < ws'[k].end;
    }
  }

  // ---- The whole text ----

  lemma {:induction false} GraphemeIndexed(lines: seq<Line>, ws: seq<Word>, row: nat, i: nat, ix: Index)
    returns (more: seq<Word>)
    requires AllSegmented(lines) && Indexed(lines, ws, row, i, ix) && row < |lines| && i < |lines[row].graphemes|
    ensures Indexed(lines, more, row, i + 1, NextIndex(ix, lines[row].graphemes, row, i))
  {
    if lines[row].graphemes[i].space {
      SpaceIndexed(lines, ws, row, i, ix);
      more := ws;
    } else if ws == [] || ix.pending {
      NewWord(lines, ws, row, i, ix);
      more := ws + [Word(row, i, i + 1)];
    } else {
      LongerWord(lines, ws, row, i, ix);
      more := ws[..|ws| - 1] + [Word(row, ws[|ws| - 1].start, i + 1)];
    }
  }

  /** Whatever one grapheme keeps, the line keeps. */
  lemma {:induction false} GraphemesInduct(gs: seq<Grapheme>, row: nat, i: nat, ix: Index, holds: (nat, Index) -> bool)
    requires i <= |gs| && holds(i, ix)
    requires forall j: nat, x: Index {:trigger NextIndex(x, gs, row, j)} ::
               j < |gs| && holds(j, x) ==> holds(j + 1, NextIndex(x, gs, row, j))
    ensures holds(|gs|, IndexGraphemes(ix, gs, row, Columns(gs, i), i))
    decreases |gs| - i
  {
    if i < |gs| {
      GraphemesInduct(gs, row, i + 1, NextIndex(ix, gs, row, i), holds);
    }
  }

  ghost predicate HasWords(lines: seq<Line>, row: nat, i: nat, ix: Index) {
    exists ws :: Indexed(lines, ws, row, i, ix)
  }

  lemma {:induction false} GraphemesIndexed(lines: seq<Line>, ws: seq<Word>, row: nat, ix: Index)
    returns (all: seq<Word>)
    requires AllSegmented(lines) && row < |lines| && Indexed(lines, ws, row, 0, ix)
    ensures var gs := lines[row].graphemes;
            Indexed(lines, all, row, |gs|, IndexGraphemes(ix, gs, row, 0, 0))
  {
    var gs := lines[row].graphemes;
    forall j: nat, x: Index | j < |gs| && HasWords(lines, row, j, x)
      ensures HasWords(lines, row, j + 1, NextIndex(x, gs, row, j))
    {
      var some :| Indexed(lines, some, row, j, x);
      var more := GraphemeIndexed(lines, some, row, j, x);
    }
    GraphemesInduct(gs, row, 0, ix, (j: nat, x: Index) => HasWords(lines, row, j, x));
    all :| Indexed(lines, all, row, |gs|, IndexGraphemes(ix, gs, row, 0, 0));
  }

  lemma {:induction false} LinesIndexed(lines: seq<Line>, ws: seq<Word>, row: nat, ix: Index) returns (all: seq<Word>)
    requires AllSegmented(lines) && row <= |lines| && Indexed(lines, ws, row, 0, ix)
    ensures Indexed(lines, all, |lines|, 0, IndexLines(ix, lines, row, false))
    decreases |lines| - row
  {
    all := ws;
    if row < |lines| {
      all := GraphemesIndexed(lines, ws, row, ix);
      var done := IndexGraphemes(ix, lines[row].graphemes, row, 0, 0);
      LineIndexed(lines, all, row, done);
      all := LinesIndexed(lines, all, row + 1, Skipped(done));
    }
  }

  /** The index that looks at every grapheme: its text is the words of the lines joined by single spaces,
      each grapheme of a word has its own cells, and a separator has none. */
  lemma {:induction false} CorpusIsWords(lines: seq<Line>) returns (ws: seq<Word>)
    requires AllSegmented(lines)
    ensures InLines(lines, ws) && AreWords(lines, ws)
    ensures Corpus(lines, false).text == Joined(lines, ws)
    ensures Located(lines, Corpus(lines, false).spans, ws)
  {
    ws := LinesIndexed(lines, [], 0, EMPTY);
  }

  /** The same for the index the search uses, on lines without trailing newlines. */
  lemma {:induction false} SearchTextIsWords(lines: seq<Line>) returns (ws: seq<Word>)
    requires AllSegmented(lines) && NoTrailingNewline(lines)
    ensures InLines(lines, ws) && AreWords(lines, ws)
    ensures Corpus(lines, true).text == Joined(lines, ws)
    ensures Located(lines, Corpus(lines, true).spans, ws)
  {
    ws := CorpusIsWords(lines);
    RunIndexAgrees(lines);
    var fast, reference := Corpus(lines, true), Corpus(lines, false);
    forall k: nat, i: nat | k < |ws| && ws[k].start <= i < ws[k].end ensures Placed(lines, fast.spans, ws, k, i) {
      assert Placed(lines, reference.spans, ws, k, i);
    }
    forall k: nat | 0 < k < |ws| ensures Blank(lines, fast.spans, ws, k) {
      assert Blank(lines, reference.spans, ws, k);
    }
  }

  // ---- The matches ----

  ghost predicate InMatch(found: seq<Interval>, p: nat) {
    exists k :: 0 <= k < |found| && found[k].start <= p < found[k].end
  }

  /** Every match found is one, and no place from `i` on where the query matches lies outside them. */
  ghost predicate FindsAll(text: string, query: string, i: nat, same: (char, char) -> bool, found: seq<Interval>) {
    && (forall k :: 0 <= k < |found| ==>
          found[k].end == found[k].start + |query| && MatchAt(text, query, found[k].start, same))
    && (forall p: nat {:trigger InMatch(found, p)} :: p >= i && MatchAt(text, query, p, same) ==> InMatch(found, p))
  }

  lemma {:induction false} FoundCons(text: string, query: string, i: nat, same: (char, char) -> bool,
                                     rest: seq<Interval>)
    requires MatchAt(text, query, i, same) && FindsAll(text, query, i + |query|, same, rest)
    ensures FindsAll(text, query, i, same, [Interval(i, i + |query|)] + rest)
  {
    forall p: nat | p >= i && MatchAt(text, query, p, same) ensures InMatch([Interval(i, i + |query|)] + rest, p) {
      InMatchCons(Interval(i, i + |query|), rest, p);
    }
  }

  lemma {:induction false} FoundAll(text: string, query: string, i: nat, same: (char, char) -> bool)
    requires |query| > 0
    ensures FindsAll(text, query, i, same, FindIter(text, query, i, same))
    decreases |text| - i
  {
    if i + |query| <= |text| {
      if MatchAt(text, query, i, same) {
        FoundAll(text, query, i + |query|, same);
        FoundCons(text, query, i, same, FindIter(text, query, i + |query|, same));
      } else {
        FoundAll(text, query, i + 1, same);
        assert FindsAll(text, query, i, same, FindIter(text, query, i + 1, same));
      }
    }
  }

  lemma {:induction false} InMatchCons(first: Interval, rest: seq<Interval>, p: nat)
    ensures InMatch([first] + rest, p) <==> first.start <= p < first.end || InMatch(rest, p)
  {
    var all := [first] + rest;
    if first.start <= p < first.end {
      assert all[0].start <= p < all[0].end;
    } else if InMatch(rest, p) {
      var k :| 0 <= k < |rest| && rest[k].start <= p < rest[k].end;
      assert all[k + 1] == rest[k];
    }
  }

  ghost predicate SomeCovers(matches: seq<seq<Segment>>, row: nat, col: nat) {
    exists m :: 0 <= m < |matches| && Covers(matches[m], row, col)
  }

  ghost predicate SomeHasCell(spans: seq<Span>, found: seq<Interval>, row: nat, col: nat) {
    exists k :: 0 <= k < |found| && HasCell(spans, found[k].start, found[k].end, row, col)
  }

  lemma {:induction false} OneMoreCovers(matches: seq<seq<Segment>>, segments: seq<Segment>, row: nat, col: nat)
    ensures SomeCovers(matches + [segments], row, col) <==> SomeCovers(matches, row, col) || Covers(segments, row, col)
  {
    var all := matches + [segments];
    if SomeCovers(matches, row, col) {
      var m :| 0 <= m < |matches| && Covers(matches[m], row, col);
      assert Covers(all[m], row, col);
    }
    if Covers(segments, row, col) {
      assert Covers(all[|matches|], row, col);
    }
  }

  lemma {:induction false} OneMoreHasCell(spans: seq<Span>, front: seq<Interval>, last: Interval, row: nat, col: nat)
    ensures SomeHasCell(spans, front + [last], row, col)
            <==> SomeHasCell(spans, front, row, col) || HasCell(spans, last.start, last.end, row, col)
  {
    var all := front + [last];
    if SomeHasCell(spans, front, row, col) {
      var k :| 0 <= k < |front| && HasCell(spans, front[k].start, front[k].end, row, col);
      assert HasCell(spans, all[k].start, all[k].end, row, col);
    }
    if HasCell(spans, last.start, last.end, row, col) {
      assert all[|front|] == last;
    }
  }

  lemma {:induction false} MatchesCover(spans: seq<Span>, found: seq<Interval>, row: nat, col: nat)
    requires Ordered(spans) && Increasing(found)
    ensures SomeCovers(Matches(spans, found), row, col) <==> SomeHasCell(spans, found, row, col)
    ensures |Matches(spans, found)| <= |found|
  {
    if found != [] {
      var front, last := found[..|found| - 1], found[|found| - 1];
      var segments := Segments(spans, |spans|, last.start, last.end);
      MatchesCover(spans, front, row, col);
      MatchCells(spans, last.start, last.end, row, col);
      assert found == front + [last];
      OneMoreHasCell(spans, front, last, row, col);
      OneMoreCovers(Matches(spans, front), segments, row, col);
      assert segments == [] ==> Matches(spans, front) + [] == Matches(spans, front);
    }
  }

  /** A search highlights exactly the cells of the characters of the matches found, and nothing for an empty
      query. */
  lemma {:induction false} SearchCovers(lines: seq<Line>, query: string, same: (char, char) -> bool, row: nat, col: nat)
    requires AllSegmented(lines)
    ensures Ordered(Corpus(lines, true).spans)
    ensures SomeCovers(Find(lines, query, same), row, col)
            <==> query != ""
                 && SomeHasCell(Corpus(lines, true).spans, FindIter(Corpus(lines, true).text, query, 0, same), row, col)
  {
    LinesGood(EMPTY, lines, 0, true);
    if query != "" {
      FoundIncreasing(Corpus(lines, true).text, query, 0, same);
      MatchesCover(Corpus(lines, true).spans, FindIter(Corpus(lines, true).text, query, 0, same), row, col);
    }
  }
}
