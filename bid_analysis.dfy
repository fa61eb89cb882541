/**
 * The bid analyser: `analyzeBids` answers without the model for zero bids and
 * for one bid, asks the model for two or more, and falls back to a rule-based
 * comparison (mean, cheapest, best rated, first good-value bid) when the model
 * path fails.
 */
module BidAnalysis {
  import opened Wrappers
  import Selection
  import Gateway

  /** One bid as the analyser sees it. */
  datatype Bid = Bid(bidId: Option<string>, id: Option<string>, providerName: Option<string>, amount: real, rating: Option<real>)

  /** The task's price estimate. */
  datatype Estimate = Estimate(minPrice: real, maxPrice: real)

  /** `bid.bid_id || bid.id`. */
  function ShownId(b: Bid): Option<string>
  {
    if b.bidId.Some? && b.bidId.value != "" then b.bidId else b.id
  }

  /** `bid.rating || 0`. */
  function RatingOrZero(b: Bid): real
  {
    if b.rating.Some? then b.rating.value else 0.0
  }

  function Amount(b: Bid): real
  {
    b.amount
  }

  /** The sort key of the descending-rating copy. */
  function NegRating(b: Bid): real
  {
    -RatingOrZero(b)
  }

  /**
   * A justification or assessment line. Lines built from a template keep their
   * parts: `ProviderRating(None)` renders as "Provider rating: N/A", and
   * `AverageAgainstEstimate(a, lo, hi)` as "Average bid is ₹a, estimate was ₹lo-₹hi".
   */
  datatype Line = Text(s: string) | ProviderRating(rating: Option<real>) | AverageAgainstEstimate(average: int, min: real, max: real)

  /** A bid singled out in the report; `premium_choice` carries no price. */
  datatype Pick = Pick(bidId: Option<string>, providerName: Option<string>, price: Option<real>, reason: string)

  datatype Recommended = Recommended(bidId: Option<string>, confidenceScore: int, justification: seq<Line>)

  datatype PriceInsights = PriceInsights(averageBid: real, lowestBid: real, highestBid: real, comparedToEstimate: string, valueAssessment: Line)

  datatype Report = Report(
    bestValue: Pick,
    budgetOption: Option<Pick>,
    premiumChoice: Option<Pick>,
    recommended: Recommended,
    priceInsights: PriceInsights,
    warnings: seq<string>)

  /** What `analyzeBids` returns: the empty analysis, a rule-based report, or the model's document as it came. */
  datatype Analysis<D> = NoBids(message: string) | Rules(report: Report) | FromModel(doc: D)

  const NoBidsMessage: string := "No bids available yet"
  const PriceWarning: string := "Price significantly different from estimate"

  predicate WithinRange(amount: real, e: Estimate)
  {
    e.minPrice <= amount <= e.maxPrice
  }

  /** `getSingleBidAnalysis`: the only bid is best value and recommended; its amount is every statistic. */
  function SingleBidAnalysis(b: Bid, e: Estimate): (r: Report)
    ensures r.bestValue == Pick(ShownId(b), b.providerName, Some(b.amount), "Only bid available")
    ensures r.budgetOption.None? && r.premiumChoice.None?
    ensures r.recommended.bidId == ShownId(b)
    ensures r.recommended.confidenceScore == (if WithinRange(b.amount, e) then 70 else 50)
    ensures |r.recommended.justification| == 3 && r.recommended.justification[0] == Text("Only bid received")
    ensures r.recommended.justification[2] == ProviderRating(if RatingOrZero(b) == 0.0 then None else b.rating)
    ensures r.priceInsights.averageBid == r.priceInsights.lowestBid == r.priceInsights.highestBid == b.amount
    ensures r.priceInsights.comparedToEstimate == "within" <==> WithinRange(b.amount, e)
    ensures r.priceInsights.comparedToEstimate == "below range" <==> b.amount < e.minPrice
    ensures r.priceInsights.comparedToEstimate == "above range" <==> b.amount > e.maxPrice && b.amount >= e.minPrice
    ensures r.warnings == [] <==> WithinRange(b.amount, e)
    ensures !WithinRange(b.amount, e) ==> r.warnings == [PriceWarning]
  {
    var within := WithinRange(b.amount, e);
    Report(
      Pick(ShownId(b), b.providerName, Some(b.amount), "Only bid available"),
      None,
      None,
      Recommended(ShownId(b), if within then 70 else 50, [
        Text("Only bid received"),
        Text(if within then "Price within estimated range" else "Price outside estimated range"),
        ProviderRating(if RatingOrZero(b) == 0.0 then None else b.rating)]),
      PriceInsights(b.amount, b.amount, b.amount,
        if within then "within" else (if b.amount < e.minPrice then "below" else "above") + " range",
        Text("Single bid - limited comparison available")),
      if within then [] else [PriceWarning])
  }

  function Prices(bids: seq<Bid>): (p: seq<real>)
    ensures |p| == |bids| && forall i :: 0 <= i < |bids| ==> p[i] == bids[i].amount
  {
    seq(|bids|, i requires 0 <= i < |bids| => bids[i].amount)
  }

  /** `Math.round(sum / count)` over the amounts. */
  function AverageBid(bids: seq<Bid>): int
    requires |bids| > 0
  {
    Selection.Round(Selection.Sum(Prices(bids)) / |bids| as real)
  }

  /** The good-value test of the fallback: rated at least 4.0 and at most 20% above the average bid. */
  predicate GoodValue(b: Bid, average: int)
  {
    RatingOrZero(b) >= 4.0 && b.amount <= average as real * 1.2
  }

  /** Index of `bids.find(good value) || bids[0]`. */
  function BestValueIndex(bids: seq<Bid>): (k: nat)
    requires |bids| > 0
    ensures k < |bids|
    ensures forall j :: 0 <= j < k ==> !GoodValue(bids[j], AverageBid(bids))
    ensures GoodValue(bids[k], AverageBid(bids)) || (k == 0 && forall j :: 0 <= j < |bids| ==> !GoodValue(bids[j], AverageBid(bids)))
  {
    var average := AverageBid(bids);
    Selection.FirstMatchOrFirst(bids, b => GoodValue(b, average))
  }

  /** `getFallbackAnalysis`, over the sorted copies the source builds. */
  function FallbackAnalysis(bids: seq<Bid>, e: Estimate): (r: Report)
    requires |bids| > 0
    ensures var best := bids[BestValueIndex(bids)];
      r.bestValue == Pick(ShownId(best), best.providerName, Some(best.amount), "Good balance of price and provider rating")
      && r.recommended.bidId == ShownId(best) && r.recommended.confidenceScore == 60
    ensures var cheap := bids[Selection.FirstMin(bids, Amount)];
      r.budgetOption == Some(Pick(ShownId(cheap), cheap.providerName, Some(cheap.amount), "Lowest price among all bids"))
    ensures var top := bids[Selection.FirstMax(bids, RatingOrZero)];
      r.premiumChoice == Some(Pick(ShownId(top), top.providerName, None, "Highest rated provider"))
    ensures r.recommended.justification
         == [Text("Balanced choice considering price and rating"), Text("Fallback analysis applied"), Text("Manual review recommended")]
    ensures r.priceInsights.averageBid == AverageBid(bids) as real
    ensures r.priceInsights.lowestBid in Prices(bids) && forall b :: b in bids ==> r.priceInsights.lowestBid <= b.amount
    ensures r.priceInsights.highestBid in Prices(bids) && forall b :: b in bids ==> b.amount <= r.priceInsights.highestBid
    ensures r.priceInsights.comparedToEstimate == (if WithinRange(AverageBid(bids) as real, e) then "within" else "outside range")
    ensures r.priceInsights.valueAssessment == AverageAgainstEstimate(AverageBid(bids), e.minPrice, e.maxPrice)
    ensures r.warnings == []
  {
    var byPrice := Selection.SortBy(bids, Amount);
    var byRating := Selection.SortBy(bids, NegRating);
    Selection.SortByHead(bids, Amount);
    Selection.SortByHead(bids, NegRating);
    PremiumIsFirstMax(bids);
    var prices := Prices(bids);
    var average := AverageBid(bids);
    var best := bids[BestValueIndex(bids)];
    Report(
      Pick(ShownId(best), best.providerName, Some(best.amount), "Good balance of price and provider rating"),
      Some(Pick(ShownId(byPrice[0]), byPrice[0].providerName, Some(byPrice[0].amount), "Lowest price among all bids")),
      Some(Pick(ShownId(byRating[0]), byRating[0].providerName, None, "Highest rated provider")),
      Recommended(ShownId(best), 60, [Text("Balanced choice considering price and rating"), Text("Fallback analysis applied"), Text("Manual review recommended")]),
      PriceInsights(average as real, Selection.MinOf(prices), Selection.MaxOf(prices),
        if average as real >= e.minPrice && average as real <= e.maxPrice then "within" else "outside range",
        AverageAgainstEstimate(average, e.minPrice, e.maxPrice)),
      [])
  }

  /** Sorting by descending rating and folding for the maximum rating pick the same bid. */
  lemma PremiumIsFirstMax(bids: seq<Bid>)
    requires |bids| > 0
    ensures Selection.FirstMin(bids, NegRating) == Selection.FirstMax(bids, RatingOrZero)
  {
    var k := Selection.FirstMin(bids, NegRating);
    Selection.FirstMinUnique(bids, x => -RatingOrZero(x), k);
  }

  /** `analyzeBids`: the short cuts for zero and one bid, else the model's analysis or the fallback. */
  method AnalyzeBids<D>(bids: Option<seq<Bid>>, e: Estimate, reply: nat -> Gateway.Reply, parse: string -> Result<D, string>)
    returns (a: Analysis<D>, calls: nat)
    ensures bids.None? || |bids.value| == 0 ==> a == NoBids(NoBidsMessage) && calls == 0
    ensures bids.Some? && |bids.value| == 1 ==> a == Rules(SingleBidAnalysis(bids.value[0], e)) && calls == 0
    ensures bids.Some? && |bids.value| >= 2 ==>
      calls == Gateway.Calls(reply, parse, Gateway.DefaultMaxRetries)
      && a == match Gateway.Outcome(reply, parse, Gateway.DefaultMaxRetries)
              case Success(doc) => FromModel(doc)
              case Failure(_) => Rules(FallbackAnalysis(bids.value, e))
  {
    if bids.None? || |bids.value| == 0 {
      return NoBids(NoBidsMessage), 0;
    }
    if |bids.value| == 1 {
      return Rules(SingleBidAnalysis(bids.value[0], e)), 0;
    }
    var answer, n, delays := Gateway.GenerateJSON(reply, parse, Gateway.DefaultMaxRetries);
    calls := n;
    match answer
    case Success(doc) => a := FromModel(doc);
    case Failure(_) => a := Rules(FallbackAnalysis(bids.value, e));
  }

  // Properties

  /** The cheapest bid of the fallback is the one whose amount is the lowest bid of the insights. */
  lemma BudgetPriceIsLowest(bids: seq<Bid>, e: Estimate)
    requires |bids| > 0
    ensures FallbackAnalysis(bids, e).budgetOption.value.price == Some(FallbackAnalysis(bids, e).priceInsights.lowestBid)
  {
    LowestIsFirstMinAmount(bids, FallbackAnalysis(bids, e).priceInsights.lowestBid);
  }

  /** A lowest amount is the amount of the first cheapest bid. */
  lemma LowestIsFirstMinAmount(bids: seq<Bid>, m: real)
    requires |bids| > 0 && m in Prices(bids) && forall b :: b in bids ==> m <= b.amount
    ensures m == bids[Selection.FirstMin(bids, Amount)].amount
  {
    var k := Selection.FirstMin(bids, Amount);
    assert Amount(bids[k]) == bids[k].amount;
    var i :| 0 <= i < |bids| && Prices(bids)[i] == m;
    assert Amount(bids[i]) == m;
    assert bids[k] in bids;
  }

  /** On a single bid the fallback agrees with the single-bid analysis on the chosen bid and on the lowest price. */
  lemma SingleBidIsItsOwnBudget(b: Bid, e: Estimate)
    ensures FallbackAnalysis([b], e).bestValue.bidId == SingleBidAnalysis(b, e).bestValue.bidId
    ensures FallbackAnalysis([b], e).priceInsights.lowestBid == SingleBidAnalysis(b, e).priceInsights.lowestBid
  {
    assert Prices([b]) == [b.amount];
  }

  /** A bid outside the estimate is flagged and scored 50; one inside is not flagged and scored 70. */
  lemma SingleBidScore(b: Bid, e: Estimate)
    ensures SingleBidAnalysis(b, e).recommended.confidenceScore == 70 <==> SingleBidAnalysis(b, e).warnings == []
  {
  }

  /** When nobody qualifies as good value the fallback recommends the first bid in input order. */
  lemma NoGoodValueMeansFirst(bids: seq<Bid>, e: Estimate)
    requires |bids| > 0
    requires forall b :: b in bids ==> RatingOrZero(b) < 4.0
    ensures FallbackAnalysis(bids, e).recommended.bidId == ShownId(bids[0])
  {
    var k := BestValueIndex(bids);
    assert bids[k] in bids;
  }

  /** Three bids of 900, 500 and 700 rated 3.5, 4.2 and 4.8. */
  function ExampleBids(): seq<Bid>
  {
    [Bid(Some("a"), None, None, 900.0, Some(3.5)),
     Bid(Some("b"), None, None, 500.0, Some(4.2)),
     Bid(Some("c"), None, None, 700.0, Some(4.8))]
  }

  lemma ExampleAverage()
    ensures AverageBid(ExampleBids()) == 700
  {
    assert Prices(ExampleBids()) == [900.0, 500.0, 700.0];
    assert Selection.Sum([900.0, 500.0, 700.0]) == 2100.0;
  }

  lemma ExampleIndices()
    ensures BestValueIndex(ExampleBids()) == 1
    ensures Selection.FirstMin(ExampleBids(), Amount) == 1
    ensures Selection.FirstMax(ExampleBids(), RatingOrZero) == 2
  {
    var bids := ExampleBids();
    ExampleAverage();
    assert !GoodValue(bids[0], 700) && GoodValue(bids[1], 700);
    var c := Selection.FirstMin(bids, Amount);
    assert Amount(bids[c]) <= Amount(bids[1]);
    var t := Selection.FirstMax(bids, RatingOrZero);
    assert RatingOrZero(bids[2]) <= RatingOrZero(bids[t]);
  }

  /** Worked example: the 500 bid rated 4.2 is both best value and cheapest, the 4.8 bid is premium, and the mean 700 lies in 600 to 800. */
  lemma FallbackExample()
    ensures var r := FallbackAnalysis(ExampleBids(), Estimate(600.0, 800.0));
      r.bestValue.bidId == Some("b") && r.budgetOption.value.bidId == Some("b")
      && r.premiumChoice.value.bidId == Some("c") && r.priceInsights.averageBid == 700.0
      && r.priceInsights.comparedToEstimate == "within"
  {
    ExampleAverage();
    ExampleIndices();
  }
}
