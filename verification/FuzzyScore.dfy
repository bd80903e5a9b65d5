/** What a fuzzy match scores, said over the leftmost embedding of the query and without the scan. */
module FuzzyScore {
  import opened Fuzzy

  /** The leftmost embedding: no other one finds any character earlier. */
  ghost predicate Leftmost(query: string, text: string, at: seq<nat>) {
    && Embeds(query, text, at)
    && forall other: seq<nat> {:trigger Embeds(query, text, other)} ::
         Embeds(query, text, other) ==> forall k :: 0 <= k < |at| ==> at[k] <= other[k]
  }

  /** The `k`th character stands right behind the one before it, the first one at the start of the text. */
  predicate Adjacent(at: seq<nat>, k: nat)
    requires k < |at|
  {
    at[k] == if k == 0 then 0 else at[k - 1] + 1
  }

  /** `n` characters up to the `k`th are adjacent in a row, and no more. */
  ghost predicate RunTo(at: seq<nat>, k: nat, n: nat)
    requires k < |at|
  {
    && n <= k + 1
    && (forall j: nat :: k - n < j <= k ==> Adjacent(at, j))
    && (n <= k ==> !Adjacent(at, k - n))
  }

  /** What the `k`th character contributes: five less for each character of the run it ends, two more for each
      one skipped behind the last, ten less at a word start, and a tenth more for each one before it. */
  function Weight(at: seq<nat>, k: nat, run: nat, text: string, boundary: char -> bool): real
    requires k < |at| && at[k] < |text|
  {
    var skipped := if run > 0 || k == 0 then 0 else at[k] as int - at[k - 1] as int - 1;
    -5.0 * run as real + 2.0 * skipped as real
    - (if at[k] == 0 || boundary(text[at[k] - 1]) then 10.0 else 0.0) + 0.1 * at[k] as real
  }

  function Weights(at: seq<nat>, runs: seq<nat>, text: string, boundary: char -> bool): (w: seq<real>)
    requires |runs| == |at| && forall k :: 0 <= k < |at| ==> at[k] < |text|
  {
    seq(|at|, k requires 0 <= k < |at| => Weight(at, k, runs[k], text, boundary))
  }

  lemma {:induction false} RunUnique(at: seq<nat>, k: nat, m: nat, n: nat)
    requires k < |at| && RunTo(at, k, m) && RunTo(at, k, n)
    ensures m == n
  {
    if m <= k {
      assert !Adjacent(at, k - m) && !(k - n < k - m);
    }
    if n <= k {
      assert !Adjacent(at, k - n) && !(k - m < k - n);
    }
  }

  ghost predicate Placed(at: seq<nat>, text: string) {
    && (forall j :: 0 <= j < |at| ==> at[j] < |text|)
    && (forall i, j :: 0 <= i < j < |at| ==> at[i] < at[j])
  }

  lemma {:induction false} ScoreRuns(at: seq<nat>, k: nat, text: string, boundary: char -> bool)
    requires k < |at| && Placed(at, text)
    ensures RunTo(at, k, ScoreOf(at, k + 1, text, boundary).consecutive)
  {
    if k > 0 {
      ScoreRuns(at, k - 1, text, boundary);
    }
  }

  lemma {:induction false} ScoreNext(at: seq<nat>, k: nat, run: nat, text: string, boundary: char -> bool)
    requires k < |at| && Placed(at, text) && RunTo(at, k, run)
    ensures ScoreOf(at, k + 1, text, boundary).score
            == ScoreOf(at, k, text, boundary).score + Weight(at, k, run, text, boundary)
  {
    ScoreRuns(at, k, text, boundary);
    RunUnique(at, k, run, ScoreOf(at, k + 1, text, boundary).consecutive);
  }

  lemma {:induction false} ScoreSums(at: seq<nat>, runs: seq<nat>, k: nat, text: string, boundary: char -> bool)
    requires k <= |at| == |runs| && Placed(at, text) && forall j :: 0 <= j < |at| ==> RunTo(at, j, runs[j])
    ensures ScoreOf(at, k, text, boundary).score == Sum(Weights(at, runs, text, boundary)[..k])
  {
    if k > 0 {
      var w := Weights(at, runs, text, boundary);
      ScoreSums(at, runs, k - 1, text, boundary);
      ScoreNext(at, k - 1, runs[k - 1], text, boundary);
      assert w[..k][..k - 1] == w[..k - 1];
    }
  }

  lemma {:induction false} ScanEarlier(query: string, text: string, at: seq<nat>)
    requires Embeds(query, text, at)
    ensures var positions := Positions(query, text, 0, 0);
            |positions| == |query| && forall k :: 0 <= k < |query| ==> positions[k] <= at[k]
  {
    ScanIsLeftmost(query, text, 0, 0, at);
  }

  lemma {:induction false} ScanPlaced(query: string, text: string)
    requires |Positions(query, text, 0, 0)| == |query|
    ensures Embeds(query, text, Positions(query, text, 0, 0)) && Placed(Positions(query, text, 0, 0), text)
  {
    PositionsIncrease(query, text, 0, 0);
  }

  lemma {:induction false} ScanEmbeds(query: string, text: string, at: seq<nat>)
    requires query != "" && Embeds(query, text, at)
    ensures var positions := Positions(query, text, 0, 0);
            && |query| <= |text| && Embeds(query, text, positions) && Placed(positions, text)
            && forall k :: 0 <= k < |query| ==> positions[k] <= at[k]
  {
    NoLongerThan(query, text, at, |query| - 1);
    ScanEarlier(query, text, at);
    ScanPlaced(query, text);
  }

  lemma {:induction false} NoEarlier(query: string, text: string, at: seq<nat>, other: seq<nat>)
    requires Leftmost(query, text, at) && Embeds(query, text, other)
    ensures |at| == |other| && forall k :: 0 <= k < |at| ==> at[k] <= other[k]
  {
  }

  /** The score of a matching query is the sum of its characters' weights in the leftmost embedding, and a
      hundred less when the query is the whole text. */
  lemma {:induction false} ScoreIs(query: string, text: string, boundary: char -> bool, at: seq<nat>, runs: seq<nat>)
    requires query != "" && Leftmost(query, text, at) && |runs| == |at|
    requires forall k :: 0 <= k < |at| ==> RunTo(at, k, runs[k])
    ensures MatchQuery(query, text, boundary)
            == Match(true, Sum(Weights(at, runs, text, boundary)) - if query == text then 100.0 else 0.0)
  {
    ScanEmbeds(query, text, at);
    NoEarlier(query, text, at, Positions(query, text, 0, 0));
    assert Positions(query, text, 0, 0) == at;
    WholeScore(query, text, boundary, at, runs);
  }

  lemma {:induction false} WholeScore(query: string, text: string, boundary: char -> bool, at: seq<nat>,
                                      runs: seq<nat>)
    requires 0 < |query| <= |text| && Positions(query, text, 0, 0) == at && |at| == |query| == |runs|
    requires Placed(at, text) && forall k :: 0 <= k < |at| ==> RunTo(at, k, runs[k])
    ensures MatchQuery(query, text, boundary)
            == Match(true, Sum(Weights(at, runs, text, boundary)) - if query == text then 100.0 else 0.0)
  {
    ScoreSums(at, runs, |at|, text, boundary);
    var w := Weights(at, runs, text, boundary);
    assert w[..|at|] == w;
  }
}
