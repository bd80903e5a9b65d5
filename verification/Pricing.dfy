/** Gateway prices: each rate lists its own prompt-length brackets; they become request-wide tiers, one of
    which a request's cost is computed from. Prices are exact; rounding is inside `perMillion`. */
module Pricing {
  import opened Prelude

  datatype Rate = Input | Output | CacheRead | CacheWrite

  const RATES: seq<Rate> := [Input, Output, CacheRead, CacheWrite]

  /** A bracket's upper end: not given, an explicit null, or a token count. */
  datatype Max = Absent | Null | Bound(tokens: int)

  datatype Bracket = Bracket(min: Option<int>, max: Max, cost: Option<string>)

  /** One rate's base price and brackets. */
  datatype Listing = Listing(price: Option<string>, brackets: seq<Bracket>)

  datatype Pricing = Pricing(input: Listing, output: Listing, cacheRead: Listing, cacheWrite: Listing)

  datatype Rates = Rates(input: real, output: real, cacheRead: real, cacheWrite: real)

  datatype Tier = Tier(inputTokensAbove: int, rates: Rates)

  datatype Cost = Cost(base: Rates, tiers: seq<Tier>)

  function ListingOf(p: Pricing, rate: Rate): Listing {
    match rate
    case Input => p.input
    case Output => p.output
    case CacheRead => p.cacheRead
    case CacheWrite => p.cacheWrite
  }

  function Get(r: Rates, rate: Rate): real {
    match rate
    case Input => r.input
    case Output => r.output
    case CacheRead => r.cacheRead
    case CacheWrite => r.cacheWrite
  }

  function With(r: Rates, rate: Rate, price: real): Rates {
    match rate
    case Input => r.(input := price)
    case Output => r.(output := price)
    case CacheRead => r.(cacheRead := price)
    case CacheWrite => r.(cacheWrite := price)
  }

  // ---- The conversion ----

  function BasePrice(l: Listing, perMillion: string -> real): real {
    if l.price.Some? then perMillion(l.price.value) else 0.0
  }

  function BaseRates(p: Pricing, perMillion: string -> real): Rates {
    Rates(BasePrice(p.input, perMillion), BasePrice(p.output, perMillion), BasePrice(p.cacheRead, perMillion),
          BasePrice(p.cacheWrite, perMillion))
  }

  /** The distinct values so far in increasing order, with one more. */
  function Insert(starts: seq<int>, x: int): seq<int> {
    if starts == [] then [x]
    else if x < starts[0] then [x] + starts
    else if x == starts[0] then starts
    else [starts[0]] + Insert(starts[1..], x)
  }

  predicate StartsAboveZero(b: Bracket) {
    b.min.Some? && b.min.value > 0
  }

  function AddStarts(starts: seq<int>, brackets: seq<Bracket>): seq<int> {
    if brackets == [] then starts
    else
      var front := AddStarts(starts, brackets[..|brackets| - 1]);
      var last := brackets[|brackets| - 1];
      if StartsAboveZero(last) then Insert(front, last.min.value) else front
  }

  /** Every bracket start above zero, of any rate. */
  function Starts(p: Pricing): seq<int> {
    AddStarts(AddStarts(AddStarts(AddStarts([], p.input.brackets), p.output.brackets), p.cacheRead.brackets),
              p.cacheWrite.brackets)
  }

  /** The code's test; an explicit null never matches. */
  predicate Matches(b: Bracket, start: int) {
    b.min.GetOr(0) <= start && (b.max.Absent? || (b.max.Bound? && start < b.max.tokens))
  }

  function FirstMatch(brackets: seq<Bracket>, i: nat, start: int): Option<Bracket>
    requires i <= |brackets|
    decreases |brackets| - i
  {
    if i == |brackets| then None
    else if Matches(brackets[i], start) then Some(brackets[i])
    else FirstMatch(brackets, i + 1, start)
  }

  function PriceAt(l: Listing, base: real, start: int, perMillion: string -> real): real {
    var bracket := FirstMatch(l.brackets, 0, start);
    if bracket.Some? && bracket.value.cost.Some? then perMillion(bracket.value.cost.value) else base
  }

  function TierAt(p: Pricing, base: Rates, start: int, perMillion: string -> real): Tier {
    Tier(start - 1,
         Rates(PriceAt(p.input, base.input, start, perMillion), PriceAt(p.output, base.output, start, perMillion),
                          PriceAt(p.cacheRead, base.cacheRead, start, perMillion),
                          PriceAt(p.cacheWrite, base.cacheWrite, start, perMillion)))
  }

  /** `get_ai_gateway_cost` */
  function GatewayCost(p: Pricing, perMillion: string -> real): Cost {
    var base := BaseRates(p, perMillion);
    var starts := Starts(p);
    Cost(base, seq(|starts|, i requires 0 <= i < |starts| => TierAt(p, base, starts[i], perMillion)))
  }

  // ---- The selection ----

  datatype Selection = Selection(rates: Rates, threshold: int)

  /** The loop of `calculate_cost` over the first `k` tiers. */
  function Select(c: Cost, k: nat, tokens: int): Selection
    requires k <= |c.tiers|
  {
    if k == 0 then Selection(c.base, -1)
    else
      var s := Select(c, k - 1, tokens);
      var t := c.tiers[k - 1];
      if tokens > t.inputTokensAbove && t.inputTokensAbove > s.threshold
        then Selection(t.rates, t.inputTokensAbove) else s
  }

  function Charged(p: Pricing, rate: Rate, tokens: int, perMillion: string -> real): real {
    var c := GatewayCost(p, perMillion);
    Get(Select(c, |c.tiers|, tokens).rates, rate)
  }

  // ---- What a listing means ----

  /** Brackets from zero on, each ending where the next begins, the last one open; every one has a cost. */
  ghost predicate Contiguous(l: Listing) {
    && (forall k :: 0 <= k < |l.brackets| ==> l.brackets[k].cost.Some?)
    && (|l.brackets| > 0 ==> l.brackets[0].min.GetOr(0) == 0)
    && (forall k :: 0 <= k < |l.brackets| - 1 ==>
          && l.brackets[k].max.Bound? && l.brackets[k + 1].min == Some(l.brackets[k].max.tokens)
          && l.brackets[k].min.GetOr(0) < l.brackets[k].max.tokens)
    && (|l.brackets| > 0 ==> !l.brackets[|l.brackets| - 1].max.Bound?)
  }

  /** The prompt length lies in the bracket; an end that is not a count is open. */
  predicate Contains(b: Bracket, tokens: int) {
    b.min.GetOr(0) <= tokens && (b.max.Bound? ==> tokens < b.max.tokens)
  }

  /** What the listing charges at a prompt length: its bracket's price, or the base price without brackets. */
  function ListedFrom(l: Listing, i: nat, tokens: int, perMillion: string -> real): real
    requires i <= |l.brackets|
    decreases |l.brackets| - i
  {
    if i == |l.brackets| then BasePrice(l, perMillion)
    else if Contains(l.brackets[i], tokens) && l.brackets[i].cost.Some? then perMillion(l.brackets[i].cost.value)
    else ListedFrom(l, i + 1, tokens, perMillion)
  }

  function Listed(l: Listing, tokens: int, perMillion: string -> real): real {
    ListedFrom(l, 0, tokens, perMillion)
  }

  // ---- The starts ----

  ghost predicate Ascending(s: seq<int>) {
    forall i, j :: 0 <= i < j < |s| ==> s[i] < s[j]
  }

  lemma {:induction false} InsertKeeps(starts: seq<int>, x: int)
    requires Ascending(starts)
    ensures Ascending(Insert(starts, x))
    ensures forall y :: y in Insert(starts, x) <==> y in starts || y == x
  {
    if starts != [] && x > starts[0] {
      InsertKeeps(starts[1..], x);
      assert starts == [starts[0]] + starts[1..];
      var rest := Insert(starts[1..], x);
      forall j | 0 <= j < |rest| ensures starts[0] < rest[j] {
        assert rest[j] in rest;
      }
    }
  }

  /** Some bracket starts there, above zero. */
  ghost predicate StartIn(brackets: seq<Bracket>, y: int) {
    exists k :: 0 <= k < |brackets| && StartsAboveZero(brackets[k]) && brackets[k].min.value == y
  }

  lemma {:induction false} AddStartsKeeps(starts: seq<int>, brackets: seq<Bracket>)
    requires Ascending(starts)
    ensures Ascending(AddStarts(starts, brackets))
    ensures forall y :: y in AddStarts(starts, brackets) <==> y in starts || StartIn(brackets, y)
  {
    if brackets != [] {
      var front, last := brackets[..|brackets| - 1], brackets[|brackets| - 1];
      AddStartsKeeps(starts, front);
      if StartsAboveZero(last) { InsertKeeps(AddStarts(starts, front), last.min.value); }
      forall y ensures y in AddStarts(starts, brackets) <==> y in starts || StartIn(brackets, y) {
        if k :| 0 <= k < |front| && StartsAboveZero(front[k]) && front[k].min.value == y {
          assert brackets[k] == front[k];
        }
      }
    }
  }

  /** The tier starts are exactly the bracket starts above zero of some rate, each once, in increasing order. */
  lemma {:induction false} StartsAre(p: Pricing)
    ensures Ascending(Starts(p))
    ensures forall y :: y in Starts(p) ==> y > 0
    ensures forall y :: y in Starts(p) <==> exists rate :: StartIn(ListingOf(p, rate).brackets, y)
  {
    var a := AddStarts([], p.input.brackets);
    var b := AddStarts(a, p.output.brackets);
    var c := AddStarts(b, p.cacheRead.brackets);
    AddStartsKeeps([], p.input.brackets);
    AddStartsKeeps(a, p.output.brackets);
    AddStartsKeeps(b, p.cacheRead.brackets);
    AddStartsKeeps(c, p.cacheWrite.brackets);
    forall y | y in Starts(p) ensures exists rate :: StartIn(ListingOf(p, rate).brackets, y) {
      if StartIn(p.input.brackets, y) {
        assert StartIn(ListingOf(p, Input).brackets, y);
      } else if StartIn(p.output.brackets, y) {
        assert StartIn(ListingOf(p, Output).brackets, y);
      } else if StartIn(p.cacheRead.brackets, y) {
        assert StartIn(ListingOf(p, CacheRead).brackets, y);
      } else {
        assert StartIn(ListingOf(p, CacheWrite).brackets, y);
      }
    }
  }

  lemma {:induction false} FirstIsLeast(starts: seq<int>, y: int)
    requires Ascending(starts) && y in starts
    ensures starts[0] <= y
  {
  }

  // ---- Which tier is selected ----

  /** The last start that does not exceed the prompt length. */
  ghost predicate LastStart(starts: seq<int>, tokens: int, i: nat) {
    && i < |starts| && starts[i] <= tokens
    && (i + 1 < |starts| ==> starts[i + 1] > tokens)
  }

  lemma {:induction false} SelectsLast(p: Pricing, k: nat, tokens: int, perMillion: string -> real)
    requires k <= |Starts(p)|
    ensures var c := GatewayCost(p, perMillion);
            var s := Select(c, k, tokens);
            && (k == 0 || Starts(p)[0] > tokens ==> s == Selection(c.base, -1))
            && (forall i: nat :: i < k && Starts(p)[i] <= tokens && (i + 1 == k || Starts(p)[i + 1] > tokens) ==>
                  s == Selection(c.tiers[i].rates, Starts(p)[i] - 1))
  {
    StartsAre(p);
    if k > 0 {
      SelectsLast(p, k - 1, tokens, perMillion);
      assert Starts(p)[k - 1] in Starts(p);
      if k > 1 && Starts(p)[k - 1] <= tokens {
        assert Starts(p)[k - 2] < Starts(p)[k - 1];
      }
    }
  }

  lemma {:induction false} LastStartExists(starts: seq<int>, tokens: int) returns (i: nat)
    requires Ascending(starts) && |starts| > 0 && starts[0] <= tokens
    ensures LastStart(starts, tokens, i)
    ensures forall j :: 0 <= j < |starts| && starts[j] <= tokens ==> starts[j] <= starts[i]
  {
    i := |starts| - 1;
    while starts[i] > tokens
      invariant i < |starts|
      invariant forall j :: i < j < |starts| ==> starts[j] > tokens
    {
      i := i - 1;
    }
  }

  // ---- Brackets ----

  function MinOf(l: Listing, k: nat): int
    requires k < |l.brackets|
  {
    l.brackets[k].min.GetOr(0)
  }

  lemma {:induction false} MinsAscend(l: Listing, j: nat, k: nat)
    requires Contiguous(l) && j < k < |l.brackets|
    ensures l.brackets[j].max.Bound? && MinOf(l, j) < l.brackets[j].max.tokens <= MinOf(l, k)
    ensures 0 <= MinOf(l, j) < MinOf(l, k)
  {
    if j + 1 < k { MinsAscend(l, j, k - 1); }
    if j > 0 { MinsAscend(l, 0, j); }
  }

  lemma {:induction false} BracketOf(l: Listing, tokens: int) returns (k: nat)
    requires Contiguous(l) && |l.brackets| > 0 && tokens >= 0
    ensures k < |l.brackets| && Contains(l.brackets[k], tokens)
  {
    k := |l.brackets| - 1;
    while MinOf(l, k) > tokens
      invariant k < |l.brackets|
      invariant Contains(l.brackets[k], tokens) || MinOf(l, k) > tokens
    {
      assert l.brackets[k - 1].max.Bound? && l.brackets[k].min == Some(l.brackets[k - 1].max.tokens);
      k := k - 1;
    }
  }

  /** No other bracket contains it, so looking from the front finds that one. */
  lemma {:induction false} FoundBracket(l: Listing, k: nat, i: nat, tokens: int, perMillion: string -> real)
    requires Contiguous(l) && i <= k < |l.brackets| && Contains(l.brackets[k], tokens)
    ensures ListedFrom(l, i, tokens, perMillion) == perMillion(l.brackets[k].cost.value)
    ensures FirstMatch(l.brackets, i, tokens) == if l.brackets[k].max.Null? then None else Some(l.brackets[k])
    decreases k - i
  {
    if i < k {
      MinsAscend(l, i, k);
      FoundBracket(l, k, i + 1, tokens, perMillion);
    } else if l.brackets[k].max.Null? {
      assert k == |l.brackets| - 1;
      assert FirstMatch(l.brackets, k + 1, tokens) == None;
    }
  }

  /** A bracket of this rate that starts above zero has its own tier. */
  lemma {:induction false} MinIsStart(p: Pricing, rate: Rate, k: nat)
    requires Contiguous(ListingOf(p, rate)) && 0 < k < |ListingOf(p, rate).brackets|
    ensures MinOf(ListingOf(p, rate), k) in Starts(p)
  {
    var l := ListingOf(p, rate);
    MinsAscend(l, 0, k);
    assert l.brackets[k - 1 + 1].min.Some?;
    assert StartsAboveZero(l.brackets[k]);
    StartsAre(p);
    assert StartIn(l.brackets, MinOf(l, k));
  }

  /** Below every start the base price is charged, and the listing's first bracket applies. */
  lemma {:induction false} ChargedBelow(p: Pricing, rate: Rate, tokens: int, perMillion: string -> real)
    requires Contiguous(ListingOf(p, rate)) && tokens >= 0
    requires |Starts(p)| == 0 || Starts(p)[0] > tokens
    ensures var l := ListingOf(p, rate);
            && Charged(p, rate, tokens, perMillion) == BasePrice(l, perMillion)
            && Listed(l, tokens, perMillion)
               == if |l.brackets| == 0 then BasePrice(l, perMillion) else perMillion(l.brackets[0].cost.value)
  {
    var l := ListingOf(p, rate);
    SelectsLast(p, |Starts(p)|, tokens, perMillion);
    StartsAre(p);
    if |l.brackets| > 0 {
      var k := BracketOf(l, tokens);
      forall i | 0 < i < |l.brackets| ensures MinOf(l, i) > tokens {
        MinIsStart(p, rate, i);
        FirstIsLeast(Starts(p), MinOf(l, i));
      }
      assert MinOf(l, k) <= tokens;
      FoundBracket(l, k, 0, tokens, perMillion);
    }
  }

  /** From the first start on, the tier in effect is priced from the bracket that contains the prompt length,
      although it starts where another rate may break; only a bracket ending in null is missed. */
  lemma {:induction false} ChargedAbove(p: Pricing, rate: Rate, tokens: int, k: nat, perMillion: string -> real)
    requires Contiguous(ListingOf(p, rate)) && |Starts(p)| > 0 && 0 <= Starts(p)[0] <= tokens
    requires k < |ListingOf(p, rate).brackets| && Contains(ListingOf(p, rate).brackets[k], tokens)
    ensures var l := ListingOf(p, rate);
            && Listed(l, tokens, perMillion) == perMillion(l.brackets[k].cost.value)
            && Charged(p, rate, tokens, perMillion)
               == if l.brackets[k].max.Null? then BasePrice(l, perMillion) else perMillion(l.brackets[k].cost.value)
  {
    var l := ListingOf(p, rate);
    StartsAre(p);
    var i := LastStartExists(Starts(p), tokens);
    SelectsLast(p, |Starts(p)|, tokens, perMillion);
    var start := Starts(p)[i];
    if k > 0 {
      MinIsStart(p, rate, k);
      var j :| 0 <= j < |Starts(p)| && Starts(p)[j] == MinOf(l, k);
      assert Starts(p)[j] <= start;
    } else {
      assert start in Starts(p);
    }
    assert Contains(l.brackets[k], start);
    FoundBracket(l, k, 0, start, perMillion);
    FoundBracket(l, k, 0, tokens, perMillion);
  }

  lemma {:induction false} ChargedUnlisted(p: Pricing, rate: Rate, tokens: int, perMillion: string -> real)
    requires |ListingOf(p, rate).brackets| == 0
    ensures Charged(p, rate, tokens, perMillion) == BasePrice(ListingOf(p, rate), perMillion)
    ensures Listed(ListingOf(p, rate), tokens, perMillion) == BasePrice(ListingOf(p, rate), perMillion)
  {
    StartsAre(p);
    SelectsLast(p, |Starts(p)|, tokens, perMillion);
    if |Starts(p)| > 0 && Starts(p)[0] <= tokens {
      var i := LastStartExists(Starts(p), tokens);
      assert FirstMatch(ListingOf(p, rate).brackets, 0, Starts(p)[i]) == None;
    }
  }

  /** Some rate breaks there. */
  ghost predicate BreaksAt(p: Pricing, start: int) {
    start > 0 && exists rate, b :: b in ListingOf(p, rate).brackets && b.min == Some(start)
  }

  lemma {:induction false} BreaksAreStarts(p: Pricing, start: int)
    ensures start in Starts(p) <==> BreaksAt(p, start)
  {
    StartsAre(p);
    if start in Starts(p) {
      var rate :| StartIn(ListingOf(p, rate).brackets, start);
      var k :| 0 <= k < |ListingOf(p, rate).brackets| && StartsAboveZero(ListingOf(p, rate).brackets[k])
               && ListingOf(p, rate).brackets[k].min.value == start;
      assert ListingOf(p, rate).brackets[k] in ListingOf(p, rate).brackets;
    }
    if BreaksAt(p, start) {
      var rate, b :| b in ListingOf(p, rate).brackets && b.min == Some(start);
      assert StartsAboveZero(b) && StartIn(ListingOf(p, rate).brackets, start);
    }
  }

  /** Up to the first break of any rate the base price is charged, and a rate without one is free. */
  lemma {:induction false} ChargedBeforeBreaks(p: Pricing, rate: Rate, tokens: int, perMillion: string -> real)
    requires forall start :: BreaksAt(p, start) ==> start > tokens
    ensures var price := ListingOf(p, rate).price;
            Charged(p, rate, tokens, perMillion) == if price.Some? then perMillion(price.value) else 0.0
  {
    SelectsLast(p, |Starts(p)|, tokens, perMillion);
    if |Starts(p)| > 0 {
      BreaksAreStarts(p, Starts(p)[0]);
    }
  }

  /** From there on, whatever the shape of the brackets: the price of the rate's first bracket that reaches
      over the last break so far, of whichever rate that is, and the base price if no bracket does. */
  lemma {:induction false} ChargedFromBreak(p: Pricing, rate: Rate, tokens: int, start: int, k: nat,
                                            perMillion: string -> real)
    requires BreaksAt(p, start) && start <= tokens
    requires forall other :: BreaksAt(p, other) && other <= tokens ==> other <= start
    requires var brackets := ListingOf(p, rate).brackets;
             && k <= |brackets|
             && (forall i :: 0 <= i < k ==>
                   || brackets[i].min.GetOr(0) > start || brackets[i].max.Null?
                   || (brackets[i].max.Bound? && start >= brackets[i].max.tokens))
             && (k < |brackets| ==>
                   && brackets[k].min.GetOr(0) <= start && !brackets[k].max.Null?
                   && (brackets[k].max.Bound? ==> start < brackets[k].max.tokens))
    ensures var l := ListingOf(p, rate);
            Charged(p, rate, tokens, perMillion)
            == if k < |l.brackets| && l.brackets[k].cost.Some? then perMillion(l.brackets[k].cost.value)
               else if l.price.Some? then perMillion(l.price.value) else 0.0
  {
    var l := ListingOf(p, rate);
    StartsAre(p);
    BreaksAreStarts(p, start);
    FirstIsLeast(Starts(p), start);
    var i := LastStartExists(Starts(p), tokens);
    BreaksAreStarts(p, Starts(p)[i]);
    SelectsLast(p, |Starts(p)|, tokens, perMillion);
    MatchesFirst(l.brackets, 0, k, start);
  }

  lemma {:induction false} MatchesFirst(brackets: seq<Bracket>, i: nat, k: nat, start: int)
    requires i <= k <= |brackets|
    requires forall j :: i <= j < k ==> !Matches(brackets[j], start)
    requires k < |brackets| ==> Matches(brackets[k], start)
    ensures FirstMatch(brackets, i, start) == if k < |brackets| then Some(brackets[k]) else None
    decreases k - i
  {
    if i < k {
      MatchesFirst(brackets, i + 1, k, start);
    }
  }

  ghost predicate ChargesAsListed(p: Pricing, rate: Rate, perMillion: string -> real) {
    forall tokens: nat :: Charged(p, rate, tokens, perMillion) == Listed(ListingOf(p, rate), tokens, perMillion)
  }

  /** What a caller can check of a rate: its first bracket costs the base price, and its last one has no `max`
      at all, or costs the base price too. */
  predicate BaseFirst(l: Listing, perMillion: string -> real) {
    var n := |l.brackets|;
    n > 0 ==>
      && l.brackets[0].cost.Some? && perMillion(l.brackets[0].cost.value) == BasePrice(l, perMillion)
      && (l.brackets[n - 1].max.Null? ==>
            l.brackets[n - 1].cost.Some? && perMillion(l.brackets[n - 1].cost.value) == BasePrice(l, perMillion))
  }

  /** For a rate whose brackets are contiguous from zero: the request-wide tiers charge at every prompt length
      what the listing does, wherever the other rates break, exactly when `BaseFirst` holds. */
  lemma {:induction false} TiersPreservePrices(p: Pricing, rate: Rate, perMillion: string -> real)
    requires Contiguous(ListingOf(p, rate))
    ensures ChargesAsListed(p, rate, perMillion) <==> BaseFirst(ListingOf(p, rate), perMillion)
  {
    if BaseFirst(ListingOf(p, rate), perMillion) {
      forall tokens: nat
        ensures Charged(p, rate, tokens, perMillion) == Listed(ListingOf(p, rate), tokens, perMillion) {
        ChargesHere(p, rate, tokens, perMillion);
      }
    } else {
      var tokens := ChargesElse(p, rate, perMillion);
    }
  }

  /** A last bracket closed with an explicit null: its price is never charged. */
  lemma {:induction false} NullMaxIsMissed(perMillion: string -> real)
    requires perMillion("2") != perMillion("1")
    ensures var l := Listing(Some("1"), [Bracket(Some(0), Bound(10), Some("1")), Bracket(Some(10), Null, Some("2"))]);
            var none := Listing(None, []);
            Contiguous(l) && !ChargesAsListed(Pricing(l, none, none, none), Input, perMillion)
  {
    var l := Listing(Some("1"), [Bracket(Some(0), Bound(10), Some("1")), Bracket(Some(10), Null, Some("2"))]);
    var none := Listing(None, []);
    TiersPreservePrices(Pricing(l, none, none, none), Input, perMillion);
  }

  lemma {:induction false} ChargesHere(p: Pricing, rate: Rate, tokens: nat, perMillion: string -> real)
    requires Contiguous(ListingOf(p, rate)) && BaseFirst(ListingOf(p, rate), perMillion)
    ensures Charged(p, rate, tokens, perMillion) == Listed(ListingOf(p, rate), tokens, perMillion)
  {
    var l := ListingOf(p, rate);
    StartsAre(p);
    if |l.brackets| == 0 {
      ChargedUnlisted(p, rate, tokens, perMillion);
    } else if |Starts(p)| == 0 || Starts(p)[0] > tokens {
      ChargedBelow(p, rate, tokens, perMillion);
    } else {
      assert Starts(p)[0] in Starts(p);
      var k := BracketOf(l, tokens);
      ChargedAbove(p, rate, tokens, k, perMillion);
      assert k < |l.brackets| - 1 ==> l.brackets[k].max.Bound?;
    }
  }

  /** Where the price goes wrong otherwise: at length zero, or at the start of the last bracket. */
  lemma {:induction false} ChargesElse(p: Pricing, rate: Rate, perMillion: string -> real) returns (tokens: nat)
    requires Contiguous(ListingOf(p, rate)) && !BaseFirst(ListingOf(p, rate), perMillion)
    ensures Charged(p, rate, tokens, perMillion) != Listed(ListingOf(p, rate), tokens, perMillion)
  {
    var l := ListingOf(p, rate);
    var last := |l.brackets| - 1;
    StartsAre(p);
    if |Starts(p)| > 0 { assert Starts(p)[0] in Starts(p); }
    ChargedBelow(p, rate, 0, perMillion);
    tokens := 0;
    if Charged(p, rate, 0, perMillion) == Listed(l, 0, perMillion) {
      assert last > 0;
      MinsAscend(l, 0, last);
      tokens := MinOf(l, last);
      MinIsStart(p, rate, last);
      var j :| 0 <= j < |Starts(p)| && Starts(p)[j] == tokens;
      assert Starts(p)[0] <= Starts(p)[j];
      ChargedAbove(p, rate, tokens, last, perMillion);
    }
  }

  /** When every rate meets that condition, one choice of tier charges all four as listed at every prompt
      length, also where they break at different lengths. */
  lemma {:induction false} AllRatesAsListed(p: Pricing, tokens: nat, rate: Rate, perMillion: string -> real)
    requires forall r :: Contiguous(ListingOf(p, r)) && BaseFirst(ListingOf(p, r), perMillion)
    ensures Charged(p, rate, tokens, perMillion) == Listed(ListingOf(p, rate), tokens, perMillion)
  {
    ChargesHere(p, rate, tokens, perMillion);
  }

  // ---- The methods ----

  method AddStartsOf(starts: seq<int>, brackets: seq<Bracket>) returns (r: seq<int>)
    ensures r == AddStarts(starts, brackets)
  {
    r := starts;
    assert brackets[..0] == [];
    for k := 0 to |brackets|
      invariant r == AddStarts(starts, brackets[..k])
    {
      assert brackets[..k + 1][..k] == brackets[..k];
      var min := brackets[k].min;
      if min.Some? && min.value > 0 {
        r := Insert(r, min.value);
      }
    }
    assert brackets[..|brackets|] == brackets;
  }

  method CollectStarts(p: Pricing) returns (r: seq<int>)
    ensures r == Starts(p)
  {
    r := AddStartsOf([], p.input.brackets);
    r := AddStartsOf(r, p.output.brackets);
    r := AddStartsOf(r, p.cacheRead.brackets);
    r := AddStartsOf(r, p.cacheWrite.brackets);
  }

  method NextBracket(brackets: seq<Bracket>, start: int) returns (r: Option<Bracket>)
    ensures r == FirstMatch(brackets, 0, start)
  {
    for k := 0 to |brackets|
      invariant FirstMatch(brackets, k, start) == FirstMatch(brackets, 0, start)
    {
      var b := brackets[k];
      if b.min.GetOr(0) <= start && (b.max.Absent? || (b.max.Bound? && start < b.max.tokens)) {
        return Some(b);
      }
    }
    r := None;
  }

  method BuildTier(p: Pricing, base: Rates, start: int, perMillion: string -> real) returns (t: Tier)
    ensures t == TierAt(p, base, start, perMillion)
  {
    var rates := base;
    for k := 0 to 4
      invariant forall j :: 0 <= j < 4 ==>
                  Get(rates, RATES[j])
                  == if j < k then PriceAt(ListingOf(p, RATES[j]), Get(base, RATES[j]), start, perMillion)
                     else Get(base, RATES[j])
    {
      var bracket := NextBracket(ListingOf(p, RATES[k]).brackets, start);
      if bracket.Some? && bracket.value.cost.Some? {
        rates := With(rates, RATES[k], perMillion(bracket.value.cost.value));
      }
    }
    t := Tier(start - 1, rates);
    assert Get(rates, RATES[0]) == rates.input && Get(rates, RATES[1]) == rates.output;
    assert Get(rates, RATES[2]) == rates.cacheRead && Get(rates, RATES[3]) == rates.cacheWrite;
  }

  /** `get_ai_gateway_cost` */
  method GetGatewayCost(p: Pricing, perMillion: string -> real) returns (c: Cost)
    ensures c == GatewayCost(p, perMillion)
  {
    var base := BaseRates(p, perMillion);
    var starts := CollectStarts(p);
    var tiers: seq<Tier> := [];
    for k := 0 to |starts|
      invariant |tiers| == k
      invariant forall j :: 0 <= j < k ==> tiers[j] == TierAt(p, base, starts[j], perMillion)
    {
      var tier := BuildTier(p, base, starts[k], perMillion);
      tiers := tiers + [tier];
    }
    c := Cost(base, tiers);
  }

  // ---- A request's cost ----

  datatype Usage = Usage(input: int, output: int, cacheRead: int, cacheWrite: int, cacheWrite1h: Option<int>)

  datatype Charge = Charge(input: real, output: real, cacheRead: real, cacheWrite: real, total: real)

  const MILLION := 1000000.0

  /** `calculate_cost`: the rates of the highest threshold the prompt exceeds, whatever the order of the tiers. */
  method CalculateCost(c: Cost, u: Usage) returns (charge: Charge)
    ensures var rates := Select(c, |c.tiers|, u.input + u.cacheRead + u.cacheWrite).rates;
            var long := u.cacheWrite1h.GetOr(0);
            && charge.input == rates.input / MILLION * u.input as real
            && charge.output == rates.output / MILLION * u.output as real
            && charge.cacheRead == rates.cacheRead / MILLION * u.cacheRead as real
            && charge.cacheWrite
                 == (rates.cacheWrite * (u.cacheWrite - long) as real + rates.input * 2.0 * long as real) / MILLION
            && charge.total == charge.input + charge.output + charge.cacheRead + charge.cacheWrite
  {
    var inputTokens := u.input + u.cacheRead + u.cacheWrite;
    var rates, matchedThreshold := c.base, -1;
    for k := 0 to |c.tiers|
      invariant Selection(rates, matchedThreshold) == Select(c, k, inputTokens)
    {
      var tier := c.tiers[k];
      if inputTokens > tier.inputTokensAbove && tier.inputTokensAbove > matchedThreshold {
        rates, matchedThreshold := tier.rates, tier.inputTokensAbove;
      }
    }
    var longWrite := if u.cacheWrite1h.Some? then u.cacheWrite1h.value else 0;
    var shortWrite := u.cacheWrite - longWrite;
    var input := rates.input / MILLION * u.input as real;
    var output := rates.output / MILLION * u.output as real;
    var cacheRead := rates.cacheRead / MILLION * u.cacheRead as real;
    var cacheWrite := (rates.cacheWrite * shortWrite as real + rates.input * 2.0 * longWrite as real) / MILLION;
    charge := Charge(input, output, cacheRead, cacheWrite, input + output + cacheRead + cacheWrite);
  }

  /** The selection is the first tier of the highest threshold below the prompt length, wherever it stands in
      the list, or the base rates when no threshold from zero on is below it. */
  lemma {:induction false} SelectsHighest(c: Cost, k: nat, tokens: int)
    requires k <= |c.tiers|
    ensures var s := Select(c, k, tokens);
            && (forall j :: 0 <= j < k && c.tiers[j].inputTokensAbove < tokens ==>
                  c.tiers[j].inputTokensAbove <= s.threshold || c.tiers[j].inputTokensAbove < 0)
            && (s == Selection(c.base, -1)
                || exists j :: 0 <= j < k && s == Selection(c.tiers[j].rates, c.tiers[j].inputTokensAbove)
                     && 0 <= s.threshold < tokens
                     && (forall i :: 0 <= i < j ==> c.tiers[i].inputTokensAbove != s.threshold))
  {
    if k > 0 {
      SelectsHighest(c, k - 1, tokens);
    }
  }
}
