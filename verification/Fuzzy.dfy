/** Fuzzy matching: a greedy left-to-right scan with a score, a second try with letters and digits swapped,
    and the filter that ranks items by it. Lower-casing, white space and word boundaries are parameters;
    scores are exact. */
module Fuzzy {
  import opened Prelude

  datatype Match = Match(matches: bool, score: real)

  const NO_MATCH := Match(false, 0.0)

  // ---- The scan ----

  /** `text.find(c, from)`, with the length for "not found". */
  function Find(text: string, c: char, from: nat): (r: nat)
    requires from <= |text|
    ensures from <= r <= |text| && (r < |text| ==> text[r] == c)
    ensures forall k :: from <= k < r ==> text[k] != c
    decreases |text| - from
  {
    if from == |text| || text[from] == c then from else Find(text, c, from + 1)
  }

  /** Where the scan finds the query's characters from the `i`th on, up to the first one it misses. */
  function Positions(query: string, text: string, i: nat, from: nat): seq<nat>
    requires i <= |query| && from <= |text|
    decreases |query| - i
  {
    if i == |query| then []
    else
      var p := Find(text, query[i], from);
      if p == |text| then [] else [p] + Positions(query, text, i + 1, p + 1)
  }

  datatype Score = Score(score: real, consecutive: nat)

  /** The score of the first `k` positions: rewards for runs and word starts, penalties for gaps and lateness. */
  function ScoreOf(positions: seq<nat>, k: nat, text: string, boundary: char -> bool): Score
    requires k <= |positions| && forall j :: 0 <= j < |positions| ==> positions[j] < |text|
  {
    if k == 0 then Score(0.0, 0)
    else
      var before := ScoreOf(positions, k - 1, text, boundary);
      var last: int := if k == 1 then -1 else positions[k - 2];
      ScoreStep(before, last, positions[k - 1], text, boundary)
  }

  function ScoreStep(s: Score, last: int, i: nat, text: string, boundary: char -> bool): Score
    requires i < |text|
  {
    var run := if last == i - 1 then s.consecutive + 1 else 0;
    var gap := if last == i - 1 then -5.0 * run as real else if last >= 0 then 2.0 * (i - last - 1) as real else 0.0;
    var word := if i == 0 || boundary(text[i - 1]) then -10.0 else 0.0;
    Score(s.score + gap + word + 0.1 * i as real, run)
  }

  function MatchQuery(query: string, text: string, boundary: char -> bool): Match {
    if |query| == 0 then Match(true, 0.0)
    else if |query| > |text| then NO_MATCH
    else
      PositionsIncrease(query, text, 0, 0);
      var positions := Positions(query, text, 0, 0);
      if |positions| < |query| then NO_MATCH
      else Match(true, ScoreOf(positions, |query|, text, boundary).score - (if query == text then 100.0 else 0.0))
  }

  lemma {:induction false} PositionsIncrease(query: string, text: string, i: nat, from: nat)
    requires i <= |query| && from <= |text|
    ensures var p := Positions(query, text, i, from);
            && |p| <= |query| - i
            && (forall k :: 0 <= k < |p| ==> from <= p[k] < |text| && text[p[k]] == query[i + k])
            && (forall j, k :: 0 <= j < k < |p| ==> p[j] < p[k])
    decreases |query| - i
  {
    if i < |query| {
      var p := Find(text, query[i], from);
      if p < |text| { PositionsIncrease(query, text, i + 1, p + 1); }
    }
  }

  method ScoreCharacter(score: real, consecutiveMatches: nat, lastMatchIndex: int, i: nat, text: string,
                        boundary: char -> bool)
    returns (score': real, consecutiveMatches': nat)
    requires i < |text|
    ensures Score(score', consecutiveMatches')
            == ScoreStep(Score(score, consecutiveMatches), lastMatchIndex, i, text, boundary)
  {
    score', consecutiveMatches' := score, 0;
    var isWordBoundary := i == 0 || boundary(text[i - 1]);
    if lastMatchIndex == i - 1 {
      consecutiveMatches' := consecutiveMatches + 1;
      score' := score' - 5.0 * consecutiveMatches' as real;
    } else if lastMatchIndex >= 0 {
      score' := score' + 2.0 * (i - lastMatchIndex - 1) as real;
    }
    if isWordBoundary {
      score' := score' - 10.0;
    }
    score' := score' + 0.1 * i as real;
  }

  /** `match_query` */
  method ScanQuery(query: string, text: string, boundary: char -> bool) returns (r: Match)
    ensures r == MatchQuery(query, text, boundary)
  {
    if |query| == 0 {
      return Match(true, 0.0);
    }
    if |query| > |text| {
      return NO_MATCH;
    }
    PositionsIncrease(query, text, 0, 0);
    ghost var all := Positions(query, text, 0, 0);
    var queryIndex, score, lastMatchIndex, consecutiveMatches := 0, 0.0, -1, 0;
    while queryIndex < |query|
      invariant 0 <= queryIndex <= |all| && queryIndex <= |query| && -1 <= lastMatchIndex < |text|
      invariant lastMatchIndex == if queryIndex == 0 then -1 else all[queryIndex - 1]
      invariant all[queryIndex..] == Positions(query, text, queryIndex, lastMatchIndex + 1)
      invariant Score(score, consecutiveMatches) == ScoreOf(all, queryIndex, text, boundary)
    {
      var i := Find(text, query[queryIndex], lastMatchIndex + 1);
      if i == |text| {
        break;
      }
      assert all[queryIndex..][0] == i && all[queryIndex..][1..] == all[queryIndex + 1..];
      score, consecutiveMatches := ScoreCharacter(score, consecutiveMatches, lastMatchIndex, i, text, boundary);
      lastMatchIndex := i;
      queryIndex := queryIndex + 1;
    }
    if queryIndex < |query| {
      assert all[queryIndex..] == [];
      return NO_MATCH;
    }
    if query == text {
      score := score - 100.0;
    }
    r := Match(true, score);
  }

  // ---- Subsequences ----

  ghost predicate Embeds(query: string, text: string, at: seq<nat>) {
    && |at| == |query|
    && (forall k :: 0 <= k < |at| ==> at[k] < |text| && text[at[k]] == query[k])
    && (forall j, k :: 0 <= j < k < |at| ==> at[j] < at[k])
  }

  ghost predicate Subsequence(query: string, text: string) {
    exists at: seq<nat> :: Embeds(query, text, at)
  }

  /** The scan never falls behind an embedding: it finds each character no later. */
  lemma {:induction false} ScanIsLeftmost(query: string, text: string, i: nat, from: nat, at: seq<nat>)
    requires i <= |query| && from <= |text| && Embeds(query, text, at)
    requires forall k :: i <= k < |query| ==> from <= at[k]
    ensures var p := Positions(query, text, i, from);
            |p| == |query| - i && forall k :: 0 <= k < |p| ==> p[k] <= at[i + k]
    decreases |query| - i
  {
    if i < |query| {
      var p := Find(text, query[i], from);
      assert p <= at[i];
      ScanIsLeftmost(query, text, i + 1, p + 1, at);
    }
  }

  lemma {:induction false} NoLongerThan(query: string, text: string, at: seq<nat>, k: nat)
    requires Embeds(query, text, at) && k < |at|
    ensures at[k] >= k
  {
    if k > 0 { NoLongerThan(query, text, at, k - 1); }
  }

  /** The greedy scan succeeds exactly on the subsequences. */
  lemma {:induction false} MatchesSubsequences(query: string, text: string, boundary: char -> bool)
    ensures MatchQuery(query, text, boundary).matches <==> Subsequence(query, text)
  {
    if Subsequence(query, text) {
      var at: seq<nat> :| Embeds(query, text, at);
      if |query| > 0 {
        NoLongerThan(query, text, at, |query| - 1);
        ScanIsLeftmost(query, text, 0, 0, at);
      }
    }
    if MatchQuery(query, text, boundary).matches {
      if |query| == 0 {
        assert Embeds(query, text, []);
      } else {
        PositionsIncrease(query, text, 0, 0);
        assert Embeds(query, text, Positions(query, text, 0, 0));
      }
    }
  }

  // ---- The swap ----

  predicate Letter(c: char) {
    'a' <= c <= 'z'
  }

  predicate Digit(c: char) {
    '0' <= c <= '9'
  }

  /** The length of the longest prefix of letters, or of digits. */
  function Prefix(s: string, i: nat, digits: bool): (r: nat)
    requires i <= |s|
    ensures i <= r <= |s|
    ensures forall k :: i <= k < r ==> (if digits then Digit(s[k]) else Letter(s[k]))
    ensures r < |s| ==> !(if digits then Digit(s[r]) else Letter(s[r]))
    decreases |s| - i
  {
    if i < |s| && (if digits then Digit(s[i]) else Letter(s[i])) then Prefix(s, i + 1, digits) else i
  }

  /** The expressions' `$` also matches before a trailing newline, which is then not part of the groups. */
  function Body(s: string): string {
    if |s| > 0 && s[|s| - 1] == '\n' then s[..|s| - 1] else s
  }

  /** Letters then digits, or digits then letters, the other way round; otherwise nothing. */
  function Swapped(query: string): string {
    var b := Body(query);
    var letters, digits := Prefix(b, 0, false), Prefix(b, 0, true);
    if 0 < letters < |b| && Prefix(b, letters, true) == |b| then b[letters..] + b[..letters]
    else if 0 < digits < |b| && Prefix(b, digits, false) == |b| then b[digits..] + b[..digits]
    else ""
  }

  function FuzzyMatch(query: string, text: string, lower: string -> string, boundary: char -> bool): Match {
    var primary := MatchQuery(lower(query), lower(text), boundary);
    var swapped := Swapped(lower(query));
    if primary.matches || |swapped| == 0 then primary
    else
      var second := MatchQuery(swapped, lower(text), boundary);
      if second.matches then Match(true, second.score + 5.0) else primary
  }

  method MatchFuzzy(query: string, text: string, lower: string -> string, boundary: char -> bool) returns (r: Match)
    ensures r == FuzzyMatch(query, text, lower, boundary)
  {
    var queryLower, textLower := lower(query), lower(text);
    r := ScanQuery(queryLower, textLower, boundary);
    if r.matches {
      return;
    }
    var swappedQuery := Swapped(queryLower);
    if |swappedQuery| == 0 {
      return;
    }
    var swappedMatch := ScanQuery(swappedQuery, textLower, boundary);
    if swappedMatch.matches {
      r := Match(true, swappedMatch.score + 5.0);
    }
  }

  /** The string is letters up to `k` and digits from there on, or the other way round. */
  ghost predicate SplitsAt(b: string, k: nat, digitsFirst: bool) {
    && 0 < k < |b|
    && (forall j :: 0 <= j < k ==> if digitsFirst then Digit(b[j]) else Letter(b[j]))
    && (forall j :: k <= j < |b| ==> if digitsFirst then Letter(b[j]) else Digit(b[j]))
  }

  /** Some split of the query's body, its two parts exchanged. */
  ghost predicate SwapOf(query: string, swapped: string) {
    var b := Body(query);
    exists k: nat, digitsFirst :: SplitsAt(b, k, digitsFirst) && swapped == b[k..] + b[..k]
  }

  lemma {:induction false} PrefixIs(s: string, i: nat, k: nat, digits: bool)
    requires i <= k <= |s|
    requires forall j :: i <= j < k ==> (if digits then Digit(s[j]) else Letter(s[j]))
    requires k < |s| ==> !(if digits then Digit(s[k]) else Letter(s[k]))
    ensures Prefix(s, i, digits) == k
    decreases k - i
  {
    if i < k { PrefixIs(s, i + 1, k, digits); }
  }

  lemma {:induction false} SplitSwaps(query: string, k: nat, digitsFirst: bool)
    requires SplitsAt(Body(query), k, digitsFirst)
    ensures Swapped(query) == Body(query)[k..] + Body(query)[..k]
  {
    var b := Body(query);
    if digitsFirst { PrefixIs(b, 0, 0, false); } else { PrefixIs(b, 0, 0, true); }
    PrefixIs(b, 0, k, digitsFirst);
    PrefixIs(b, k, |b|, !digitsFirst);
  }

  lemma {:induction false} SwappedSplits(query: string)
    requires Swapped(query) != ""
    ensures SwapOf(query, Swapped(query))
  {
    var b := Body(query);
    var letters, digits := Prefix(b, 0, false), Prefix(b, 0, true);
    if 0 < letters < |b| && Prefix(b, letters, true) == |b| {
      assert SplitsAt(b, letters, false);
    } else {
      assert SplitsAt(b, digits, true);
    }
  }

  lemma {:induction false} SwappedIs(query: string)
    ensures forall s :: SwapOf(query, s) <==> s == Swapped(query) && s != ""
  {
    if Swapped(query) != "" { SwappedSplits(query); }
    forall s | SwapOf(query, s) ensures s == Swapped(query) && s != "" {
      var k: nat, digitsFirst :| SplitsAt(Body(query), k, digitsFirst) && s == Body(query)[k..] + Body(query)[..k];
      SplitSwaps(query, k, digitsFirst);
    }
  }

  /** A text matches when the lowered query is a subsequence of it, and only failing that, when its swap is;
      a direct match is scored directly. */
  lemma {:induction false} FuzzyMatches(query: string, text: string, lower: string -> string, boundary: char -> bool)
    ensures var q, t := lower(query), lower(text);
            var m := FuzzyMatch(query, text, lower, boundary);
            && (m.matches <==> Subsequence(q, t) || exists s: string :: SwapOf(q, s) && Subsequence(s, t))
            && (Subsequence(q, t) ==> m == MatchQuery(q, t, boundary))
            && (forall s: string :: !Subsequence(q, t) && SwapOf(q, s) && Subsequence(s, t) ==>
                  m == Match(true, MatchQuery(s, t, boundary).score + 5.0))
            && (!m.matches ==> m.score == 0.0)
  {
    var q, t := lower(query), lower(text);
    var w := Swapped(q);
    MatchesSubsequences(q, t, boundary);
    MatchesSubsequences(w, t, boundary);
    SwappedIs(q);
    if w != "" { assert SwapOf(q, w); }
  }

  // ---- The filter ----

  predicate Separator(c: char, space: char -> bool) {
    space(c) || c == '/'
  }

  /** The maximal runs of characters that are neither white space nor a slash, `current` being open. */
  function Tokens(query: string, i: nat, current: string, space: char -> bool): seq<string>
    requires i <= |query|
    decreases |query| - i
  {
    var done := if |current| > 0 then [current] else [];
    if i == |query| then done
    else if Separator(query[i], space) then done + Tokens(query, i + 1, "", space)
    else Tokens(query, i + 1, current + [query[i]], space)
  }

  /** How one text matches a token. */
  function Matcher(text: string, lower: string -> string, boundary: char -> bool): string -> Match {
    token => FuzzyMatch(token, text, lower, boundary)
  }

  /** The summed score over the first `k` tokens, if each of them matches. */
  function Total(tokens: seq<string>, k: nat, matcher: string -> Match): Option<real>
    requires k <= |tokens|
  {
    if k == 0 then Some(0.0)
    else
      var front := Total(tokens, k - 1, matcher);
      var m := matcher(tokens[k - 1]);
      if front.None? || !m.matches then None else Some(front.value + m.score)
  }

  function Sum(s: seq<real>): real {
    if s == [] then 0.0 else Sum(s[..|s| - 1]) + s[|s| - 1]
  }

  lemma {:induction false} TotalMeans(tokens: seq<string>, k: nat, matcher: string -> Match)
    requires k <= |tokens|
    ensures Total(tokens, k, matcher).Some? <==> forall j :: 0 <= j < k ==> matcher(tokens[j]).matches
    ensures Total(tokens, k, matcher).Some? ==>
              Total(tokens, k, matcher).value
              == Sum(seq(k, j requires 0 <= j < k => matcher(tokens[j]).score))
  {
    if k > 0 {
      TotalMeans(tokens, k - 1, matcher);
      var scores := seq(k, j requires 0 <= j < k => matcher(tokens[j]).score);
      assert scores[..k - 1] == seq(k - 1, j requires 0 <= j < k - 1 => matcher(tokens[j]).score);
    }
  }

  datatype Entry = Entry(index: nat, score: real)

  /** A stable sort places an entry behind all that do not score worse. */
  function Insert(entries: seq<Entry>, e: Entry): seq<Entry> {
    if entries == [] then [e]
    else if entries[|entries| - 1].score <= e.score then entries + [e]
    else Insert(entries[..|entries| - 1], e) + [entries[|entries| - 1]]
  }

  /** The matching items among the first `k`, best first, ties in input order. */
  function Ranked(totals: seq<Option<real>>, k: nat): seq<Entry>
    requires k <= |totals|
  {
    if k == 0 then []
    else
      var front := Ranked(totals, k - 1);
      if totals[k - 1].None? then front else Insert(front, Entry(k - 1, totals[k - 1].value))
  }

  ghost predicate Before(a: Entry, b: Entry) {
    a.score < b.score || (a.score == b.score && a.index < b.index)
  }

  ghost predicate Sorted(entries: seq<Entry>) {
    forall j, k :: 0 <= j < k < |entries| ==> Before(entries[j], entries[k])
  }

  lemma {:induction false} InsertSorts(entries: seq<Entry>, e: Entry)
    requires Sorted(entries) && forall k :: 0 <= k < |entries| ==> entries[k].index < e.index
    ensures Sorted(Insert(entries, e))
    ensures forall x :: x in Insert(entries, e) <==> x in entries || x == e
  {
    if entries != [] && entries[|entries| - 1].score > e.score {
      var front, last := entries[..|entries| - 1], entries[|entries| - 1];
      assert entries == front + [last];
      InsertSorts(front, e);
      var r := Insert(front, e);
      forall k | 0 <= k < |r| ensures Before(r[k], last) {
        assert r[k] in r;
      }
    }
  }

  /** The ranking holds exactly the items with a total, each with it, by non-decreasing score with ties in
      input order. */
  lemma {:induction false} RankedIs(totals: seq<Option<real>>, k: nat)
    requires k <= |totals|
    ensures Sorted(Ranked(totals, k)) && Ranks(Ranked(totals, k), totals, k)
  {
    if k > 0 {
      RankedIs(totals, k - 1);
      if totals[k - 1].Some? {
        InsertRanks(Ranked(totals, k - 1), totals, k - 1, totals[k - 1].value);
      }
    }
  }

  lemma {:induction false} RankedInRange(totals: seq<Option<real>>)
    ensures forall e :: e in Ranked(totals, |totals|) ==> e.index < |totals|
  {
    RankedIs(totals, |totals|);
  }

  ghost predicate Ranks(entries: seq<Entry>, totals: seq<Option<real>>, k: nat)
    requires k <= |totals|
  {
    forall e :: e in entries <==> e.index < k && totals[e.index] == Some(e.score)
  }

  lemma {:induction false} InsertRanks(entries: seq<Entry>, totals: seq<Option<real>>, k: nat, score: real)
    requires k < |totals| && totals[k] == Some(score)
    requires Sorted(entries) && Ranks(entries, totals, k)
    ensures Sorted(Insert(entries, Entry(k, score))) && Ranks(Insert(entries, Entry(k, score)), totals, k + 1)
  {
    forall j | 0 <= j < |entries| ensures entries[j].index < k {
      assert entries[j] in entries;
    }
    InsertSorts(entries, Entry(k, score));
  }

  /** One item: its tokens are matched until one fails. */
  method ScoreItem(tokens: seq<string>, matcher: string -> Match) returns (allMatch: bool, totalScore: real)
    ensures Total(tokens, |tokens|, matcher) == if allMatch then Some(totalScore) else None
  {
    allMatch, totalScore := true, 0.0;
    for k := 0 to |tokens|
      invariant allMatch && Total(tokens, k, matcher) == Some(totalScore)
    {
      var m := matcher(tokens[k]);
      if !m.matches {
        allMatch := false;
        TotalMeans(tokens, |tokens|, matcher);
        return;
      }
      totalScore := totalScore + m.score;
    }
  }

  /** The total score of each matcher over the tokens. */
  ghost function TotalsOf(tokens: seq<string>, matchers: seq<string -> Match>): seq<Option<real>> {
    seq(|matchers|, i requires 0 <= i < |matchers| => Total(tokens, |tokens|, matchers[i]))
  }

  function Matchers<T>(items: seq<T>, getText: T -> string, lower: string -> string, boundary: char -> bool)
    : seq<string -> Match> {
    seq(|items|, i requires 0 <= i < |items| => Matcher(getText(items[i]), lower, boundary))
  }

  /** Each item's total score over the tokens. */
  ghost function Totals<T>(items: seq<T>, tokens: seq<string>, getText: T -> string, lower: string -> string,
                           boundary: char -> bool): seq<Option<real>> {
    TotalsOf(tokens, Matchers(items, getText, lower, boundary))
  }

  method RankItems(tokens: seq<string>, matchers: seq<string -> Match>) returns (results: seq<Entry>)
    ensures results == Ranked(TotalsOf(tokens, matchers), |matchers|)
  {
    results := [];
    for k := 0 to |matchers|
      invariant results == Ranked(TotalsOf(tokens, matchers), k)
    {
      var allMatch, totalScore := ScoreItem(tokens, matchers[k]);
      if allMatch {
        results := Insert(results, Entry(k, totalScore));
      }
    }
  }

  /** `fuzzy_filter`: every item when the query has no token, otherwise the ranked ones. */
  method FilterItems<T>(items: seq<T>, query: string, getText: T -> string, space: char -> bool,
                        lower: string -> string, boundary: char -> bool)
    returns (r: seq<T>)
    ensures var tokens := Tokens(query, 0, "", space);
            var ranked := Ranked(Totals(items, tokens, getText, lower, boundary), |items|);
            if |tokens| == 0 then r == items
            else
              && |r| == |ranked|
              && forall k :: 0 <= k < |r| ==> ranked[k].index < |items| && r[k] == items[ranked[k].index]
  {
    var tokens := Tokens(query, 0, "", space);
    if |tokens| == 0 {
      return items;
    }
    var results := RankItems(tokens, Matchers(items, getText, lower, boundary));
    RankedInRange(Totals(items, tokens, getText, lower, boundary));
    r := PickItems(items, results);
  }

  method PickItems<T>(items: seq<T>, results: seq<Entry>) returns (r: seq<T>)
    requires forall e :: e in results ==> e.index < |items|
    ensures |r| == |results|
    ensures forall k :: 0 <= k < |r| ==> results[k].index < |items| && r[k] == items[results[k].index]
  {
    r := [];
    for k := 0 to |results|
      invariant |r| == k
      invariant forall j :: 0 <= j < k ==> results[j].index < |items| && r[j] == items[results[j].index]
    {
      assert results[k] in results;
      r := r + [items[results[k].index]];
    }
  }

  /** With at least one token the filter keeps exactly the items that every token matches, by non-decreasing
      total score, ties in input order. */
  lemma {:induction false} FilterKeeps<T>(items: seq<T>, tokens: seq<string>, getText: T -> string,
                                          lower: string -> string, boundary: char -> bool, i: nat)
    requires i < |items|
    ensures var totals := Totals(items, tokens, getText, lower, boundary);
            var ranked := Ranked(totals, |items|);
            && Sorted(ranked)
            && ((exists e :: e in ranked && e.index == i)
                <==> forall j :: 0 <= j < |tokens| ==> Matcher(getText(items[i]), lower, boundary)(tokens[j]).matches)
  {
    var totals := Totals(items, tokens, getText, lower, boundary);
    RankedIs(totals, |items|);
    TotalMeans(tokens, |tokens|, Matcher(getText(items[i]), lower, boundary));
    if totals[i].Some? {
      assert Entry(i, totals[i].value) in Ranked(totals, |items|);
    }
  }

  // ---- The tokens ----

  datatype Run = Run(start: nat, end: nat)

  /** A run of characters without separators, bounded by separators or the ends of the query. */
  ghost predicate MaximalRun(query: string, r: Run, space: char -> bool) {
    && r.start < r.end <= |query|
    && (forall k :: r.start <= k < r.end ==> !Separator(query[k], space))
    && (r.start == 0 || Separator(query[r.start - 1], space))
    && (r.end == |query| || Separator(query[r.end], space))
  }

  ghost predicate InRun(at: seq<Run>, p: nat) {
    exists k :: 0 <= k < |at| && at[k].start <= p < at[k].end
  }

  /** The tokens are the maximal runs of the query from `lo` on: each one, once, in order. */
  ghost predicate AreRuns(query: string, tokens: seq<string>, at: seq<Run>, lo: nat, space: char -> bool) {
    && |at| == |tokens|
    && (forall k :: 0 <= k < |at| ==>
          lo <= at[k].start && MaximalRun(query, at[k], space) && tokens[k] == query[at[k].start..at[k].end])
    && (forall j, k :: 0 <= j < k < |at| ==> at[j].end < at[k].start)
    && (forall p: nat {:trigger InRun(at, p)} :: lo <= p < |query| && !Separator(query[p], space) ==> InRun(at, p))
  }

  /** The open run in front of the runs that follow its separator. */
  lemma {:induction false} RunBefore(query: string, first: Run, tokens: seq<string>, at: seq<Run>, space: char -> bool)
    requires MaximalRun(query, first, space) && first.end < |query|
    requires AreRuns(query, tokens, at, first.end + 1, space)
    ensures AreRuns(query, [query[first.start..first.end]] + tokens, [first] + at, first.start, space)
  {
    forall p: nat | first.start <= p < |query| && !Separator(query[p], space) ensures InRun([first] + at, p) {
      assert p > first.end ==> InRun(at, p);
      InOneMore(first, at, p);
    }
    RunInFront(query, first, at, tokens, space);
  }

  lemma {:induction false} RunInFront(query: string, first: Run, at: seq<Run>, tokens: seq<string>, space: char -> bool)
    requires MaximalRun(query, first, space) && AreRuns(query, tokens, at, first.end + 1, space)
    ensures var all := [first] + at;
            && (forall k :: 0 <= k < |all| ==>
                  && first.start <= all[k].start && MaximalRun(query, all[k], space)
                  && ([query[first.start..first.end]] + tokens)[k] == query[all[k].start..all[k].end])
            && (forall j, k :: 0 <= j < k < |all| ==> all[j].end < all[k].start)
  {
    var all := [first] + at;
    forall k | 0 < k < |all|
      ensures all[k] == at[k - 1] && first.end < all[k].start
      ensures ([query[first.start..first.end]] + tokens)[k] == tokens[k - 1]
    {
    }
  }

  lemma {:induction false} InOneMore(first: Run, at: seq<Run>, p: nat)
    requires first.start <= p < first.end || InRun(at, p)
    ensures InRun([first] + at, p)
  {
    var all := [first] + at;
    if first.start <= p < first.end {
      assert all[0].start <= p < all[0].end;
    } else {
      var k :| 0 <= k < |at| && at[k].start <= p < at[k].end;
      assert all[k + 1] == at[k];
    }
  }

  /** `current` is the run that is open at `i`. */
  ghost predicate OpenRun(query: string, i: nat, current: string, space: char -> bool) {
    && |current| <= i <= |query| && query[i - |current|..i] == current
    && (forall k :: i - |current| <= k < i ==> !Separator(query[k], space))
    && (i == |current| || Separator(query[i - |current| - 1], space))
  }

  lemma {:induction false} OpenIsMaximal(query: string, i: nat, current: string, space: char -> bool)
    requires OpenRun(query, i, current, space) && |current| > 0 && (i == |query| || Separator(query[i], space))
    ensures MaximalRun(query, Run(i - |current|, i), space)
  {
  }

  lemma {:induction false} OneRun(query: string, r: Run, space: char -> bool)
    requires MaximalRun(query, r, space) && r.end == |query|
    ensures AreRuns(query, [query[r.start..r.end]], [r], r.start, space)
  {
    forall p: nat | r.start <= p < |query| ensures InRun([r], p) {
      InOneMore(r, [], p);
      assert [r] + [] == [r];
    }
  }

  lemma {:induction false} OpenMore(query: string, i: nat, current: string, space: char -> bool)
    requires OpenRun(query, i, current, space) && i < |query| && !Separator(query[i], space)
    ensures OpenRun(query, i + 1, current + [query[i]], space)
  {
    SliceMore(query, i - |current|, i);
  }

  lemma {:induction false} SliceMore(query: string, from: nat, to: nat)
    requires from <= to < |query|
    ensures query[from..to + 1] == query[from..to] + [query[to]]
  {
  }

  /** A separator in front of the runs changes nothing. */
  lemma {:induction false} RunsAfter(query: string, tokens: seq<string>, at: seq<Run>, lo: nat, space: char -> bool)
    requires lo < |query| && Separator(query[lo], space) && AreRuns(query, tokens, at, lo + 1, space)
    ensures AreRuns(query, tokens, at, lo, space)
  {
  }

  /** The open run, if any, ends at a separator and the other runs follow. */
  lemma {:induction false} SeparatedRuns(query: string, i: nat, current: string, tokens: seq<string>, at: seq<Run>,
                                         space: char -> bool) returns (all: seq<Run>)
    requires OpenRun(query, i, current, space) && i < |query| && Separator(query[i], space)
    requires AreRuns(query, tokens, at, i + 1, space)
    ensures AreRuns(query, (if |current| > 0 then [current] else []) + tokens, all, i - |current|, space)
  {
    if |current| > 0 {
      var open := Run(i - |current|, i);
      OpenIsMaximal(query, i, current, space);
      RunBefore(query, open, tokens, at, space);
      all := [open] + at;
    } else {
      RunsAfter(query, tokens, at, i, space);
      assert [] + tokens == tokens;
      all := at;
    }
  }

  lemma {:induction false} LastRuns(query: string, current: string, space: char -> bool) returns (at: seq<Run>)
    requires OpenRun(query, |query|, current, space)
    ensures AreRuns(query, if |current| > 0 then [current] else [], at, |query| - |current|, space)
  {
    at := [];
    if |current| > 0 {
      var open := Run(|query| - |current|, |query|);
      OpenIsMaximal(query, |query|, current, space);
      OneRun(query, open, space);
      at := [open];
    }
  }

  lemma {:induction false} TokenRuns(query: string, i: nat, current: string, space: char -> bool) returns (at: seq<Run>)
    requires OpenRun(query, i, current, space)
    ensures AreRuns(query, Tokens(query, i, current, space), at, i - |current|, space)
    decreases |query| - i
  {
    if i == |query| {
      at := LastRuns(query, current, space);
    } else if Separator(query[i], space) {
      at := TokenRuns(query, i + 1, "", space);
      at := SeparatedRuns(query, i, current, Tokens(query, i + 1, "", space), at, space);
    } else {
      OpenMore(query, i, current, space);
      at := TokenRuns(query, i + 1, current + [query[i]], space);
    }
  }

  /** The tokens of a query are exactly its maximal runs between separators, in order. */
  lemma {:induction false} TokensAre(query: string, space: char -> bool) returns (at: seq<Run>)
    ensures AreRuns(query, Tokens(query, 0, "", space), at, 0, space)
  {
    at := TokenRuns(query, 0, "", space);
  }
}
