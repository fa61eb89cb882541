/**
 * The provider recommender: `recommendProvider` asks the model once (no retry)
 * which bid to take and attaches that bid; when the call or the parse fails,
 * `_fallbackRecommendation` picks a bid by the customer's priority with a left
 * fold or a first match.
 */
module ProviderRecommendation {
  import opened Wrappers
  import Selection
  import Gateway

  /** A pending bid as the controller formats it for the recommender. */
  datatype Offer = Offer(
    id: nat,
    amount: real,
    estimatedHours: Option<real>,
    message: Option<string>,
    providerId: nat,
    rating: Option<real>,
    experienceYears: Option<real>,
    completedJobs: Option<real>)

  /** The task fields the recommender reads. */
  datatype TaskDetails = TaskDetails(serviceCategory: Option<string>, urgency: Option<string>, priceMin: real, priceMax: real)

  /** The rule-based recommendation. */
  datatype Recommendation = Recommendation(
    index: nat,
    price: real,
    confidenceScore: int,
    justification: seq<string>,
    tradeOffs: string,
    provider: Offer)

  /** The model's answer: its 0-based index (when it gave an integer) and the rest of the document, kept opaque. */
  datatype ModelAnswer<D> = ModelAnswer(recommendedBidIndex: Option<int>, rest: D)

  /** What `recommendProvider` returns: the model's answer with `bids[index]` attached (absent when out of range), or the fallback. */
  datatype Outcome<D> = FromModel(answer: ModelAnswer<D>, provider: Option<Offer>) | Fallback(recommendation: Recommendation)

  const FallbackConfidence: int := 75
  const FallbackTradeOffs: string := "Using rule-based fallback"

  function Amount(o: Offer): real
  {
    o.amount
  }

  /** `bid.provider_rating || 0`. */
  function RatingOrZero(o: Offer): real
  {
    if o.rating.Some? then o.rating.value else 0.0
  }

  /** `bid.estimated_hours || 999`: missing or zero hours count as 999. */
  function HoursOr999(o: Offer): real
  {
    if o.estimatedHours.Some? && o.estimatedHours.value != 0.0 then o.estimatedHours.value else 999.0
  }

  /** The best-value test: inside the task's estimate and rated at least 4.0. */
  predicate BestValue(o: Offer, t: TaskDetails)
  {
    t.priceMin <= o.amount <= t.priceMax && RatingOrZero(o) >= 4.0
  }

  /** The position of the bid each priority's fold or find returns. */
  function ChosenIndex(bids: seq<Offer>, priority: string, t: TaskDetails): (k: nat)
    requires |bids| > 0
    ensures k < |bids|
  {
    match priority
    case "lowest_price" => Selection.FirstMin(bids, Amount)
    case "best_rated" => Selection.FirstMax(bids, RatingOrZero)
    case "fastest_service" => Selection.FirstMin(bids, HoursOr999)
    case _ => Selection.FirstMatchOrFirst(bids, o => BestValue(o, t))
  }

  function Justification(priority: string): seq<string>
  {
    match priority
    case "lowest_price" => ["Lowest price among all bids", "Budget-friendly option"]
    case "best_rated" => ["Highest rated provider", "Quality service expected"]
    case "fastest_service" => ["Quickest availability", "Fast service delivery"]
    case _ => ["Good balance of price and quality", "Within estimated range"]
  }

  /** `_fallbackRecommendation`. The list must be non-empty: `reduce` has no initial value. */
  function FallbackRecommendation(bids: seq<Offer>, priority: string, t: TaskDetails): (r: Recommendation)
    requires |bids| > 0
    ensures r.index < |bids| && r.provider == bids[r.index] && r.price == bids[r.index].amount
    ensures r.confidenceScore == FallbackConfidence && r.tradeOffs == FallbackTradeOffs
    ensures r.justification == Justification(priority)
    ensures priority == "lowest_price" ==>
      (forall j :: 0 <= j < |bids| ==> r.price <= bids[j].amount)
      && (forall j :: 0 <= j < r.index ==> bids[j].amount > r.price)
    ensures priority == "best_rated" ==>
      (forall j :: 0 <= j < |bids| ==> RatingOrZero(bids[j]) <= RatingOrZero(r.provider))
      && (forall j :: 0 <= j < r.index ==> RatingOrZero(bids[j]) < RatingOrZero(r.provider))
    ensures priority == "fastest_service" ==>
      (forall j :: 0 <= j < |bids| ==> HoursOr999(r.provider) <= HoursOr999(bids[j]))
      && (forall j :: 0 <= j < r.index ==> HoursOr999(bids[j]) > HoursOr999(r.provider))
    ensures priority !in {"lowest_price", "best_rated", "fastest_service"} ==>
      (forall j :: 0 <= j < r.index ==> !BestValue(bids[j], t))
      && (BestValue(r.provider, t) || (r.index == 0 && forall j :: 0 <= j < |bids| ==> !BestValue(bids[j], t)))
  {
    var k := ChosenIndex(bids, priority, t);
    Recommendation(k, bids[k].amount, FallbackConfidence, Justification(priority), FallbackTradeOffs, bids[k])
  }

  /** `bids[index]`: undefined, not an error, when the index is missing or out of range. */
  function Attached(bids: seq<Offer>, index: Option<int>): (p: Option<Offer>)
    ensures p.Some? <==> index.Some? && 0 <= index.value < |bids|
    ensures p.Some? ==> p.value == bids[index.value]
  {
    if index.Some? && 0 <= index.value < |bids| then Some(bids[index.value]) else None
  }

  /** `recommendProvider`: one model call, cleaned and parsed like the gateway's; any failure goes to the fallback. */
  function RecommendProvider<D>(
    bids: seq<Offer>, t: TaskDetails, priority: string,
    reply: Gateway.Reply, parse: string -> Result<ModelAnswer<D>, string>): (r: Outcome<D>)
    requires |bids| > 0
    ensures r.Fallback? <==> Gateway.AttemptOutcome(reply, parse).Failure?
    ensures r.Fallback? ==> r.recommendation == FallbackRecommendation(bids, priority, t)
    ensures r.FromModel? ==>
      r.answer == Gateway.AttemptOutcome(reply, parse).value && r.provider == Attached(bids, r.answer.recommendedBidIndex)
  {
    match Gateway.AttemptOutcome(reply, parse)
    case Success(answer) => FromModel(answer, Attached(bids, answer.recommendedBidIndex))
    case Failure(_) => Fallback(FallbackRecommendation(bids, priority, t))
  }

  // Properties

  /** An unknown priority is treated as best value. */
  lemma UnknownPriorityIsBestValue(bids: seq<Offer>, priority: string, t: TaskDetails)
    requires |bids| > 0
    requires priority !in {"lowest_price", "best_rated", "fastest_service"}
    ensures FallbackRecommendation(bids, priority, t) == FallbackRecommendation(bids, "best_value", t)
  {
  }

  /** No bid with hours means every bid counts 999 hours, so the first bid is fastest. */
  lemma NoHoursMeansFirst(bids: seq<Offer>, t: TaskDetails)
    requires |bids| > 0
    requires forall j :: 0 <= j < |bids| ==> bids[j].estimatedHours.None?
    ensures FallbackRecommendation(bids, "fastest_service", t).index == 0
  {
    var r := FallbackRecommendation(bids, "fastest_service", t);
    assert HoursOr999(bids[0]) == HoursOr999(r.provider) == 999.0;
  }

  /** Ties go to the earlier bid: for equal ratings best-rated picks the first. */
  lemma EqualRatingsPickFirst(bids: seq<Offer>, t: TaskDetails)
    requires |bids| > 0
    requires forall j :: 0 <= j < |bids| ==> RatingOrZero(bids[j]) == RatingOrZero(bids[0])
    ensures FallbackRecommendation(bids, "best_rated", t).index == 0
  {
    var r := FallbackRecommendation(bids, "best_rated", t);
    assert RatingOrZero(bids[0]) == RatingOrZero(r.provider);
  }

  function ExampleOffer(id: nat, amount: real): Offer
  {
    Offer(id, amount, None, None, 0, None, None, None)
  }

  /** Worked example: among 900, 500 and 700 the lowest price is the bid at index 1. */
  lemma LowestPriceExample(t: TaskDetails)
    ensures var r := FallbackRecommendation([ExampleOffer(1, 900.0), ExampleOffer(2, 500.0), ExampleOffer(3, 700.0)], "lowest_price", t);
      r.index == 1 && r.price == 500.0 && r.provider.id == 2
  {
    var bids := [ExampleOffer(1, 900.0), ExampleOffer(2, 500.0), ExampleOffer(3, 700.0)];
    var r := FallbackRecommendation(bids, "lowest_price", t);
    assert r.price <= bids[1].amount;
  }

  /** An index the model makes up beyond the list attaches no provider and is not an error. */
  lemma OutOfRangeIndexAttachesNothing<D>(bids: seq<Offer>, t: TaskDetails, priority: string,
    reply: Gateway.Reply, parse: string -> Result<ModelAnswer<D>, string>)
    requires |bids| > 0
    requires Gateway.AttemptOutcome(reply, parse).Success?
    requires Gateway.AttemptOutcome(reply, parse).value.recommendedBidIndex == Some(|bids|)
    ensures RecommendProvider(bids, t, priority, reply, parse) == FromModel(Gateway.AttemptOutcome(reply, parse).value, None)
  {
  }
}
