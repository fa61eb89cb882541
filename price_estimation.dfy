/**
 * The price estimator: `estimatePrice` asks the model for a price range,
 * repairs the answer in place so the range is usable, and falls back to fixed
 * complexity tiers on any failure. `adjustPriceForCity` scales a price by a
 * fixed per-city multiplier.
 */
module PriceEstimation {
  import opened Wrappers
  import Gateway
  import Selection

  /** A numeric field is falsy when it is absent or zero. */
  predicate FalsyNumber(v: Option<real>)
  {
    v.None? || v.value == 0.0
  }

  datatype Breakdown = Breakdown(labor: real, materials: real, travel: real)

  /** The parsed estimation document; every field may be absent. */
  datatype Estimation = Estimation(
    minPrice: Option<real>,
    maxPrice: Option<real>,
    averagePrice: Option<real>,
    priceBreakdown: Option<Breakdown>,
    reasoning: Option<seq<string>>,
    confidence: Option<string>,
    marketComparison: Option<string>)

  const Confidences: seq<string> := ["High", "Medium", "Low"]
  const DefaultMin: real := 500.0

  /** The 60/30/10 labour, materials and travel split of an average price. */
  function Split(average: real): Breakdown
  {
    Breakdown(Selection.Round(average * 0.6) as real, Selection.Round(average * 0.3) as real, Selection.Round(average * 0.1) as real)
  }

  function Midpoint(lo: real, hi: real): real
  {
    Selection.Round((lo + hi) / 2.0) as real
  }

  /** The value of `min_price` once validated. */
  function RepairedMin(e: Estimation): (m: real)
    ensures m > 0.0
    ensures e.minPrice.Some? && e.minPrice.value > 0.0 ==> m == e.minPrice.value
    ensures !(e.minPrice.Some? && e.minPrice.value > 0.0) ==> m == DefaultMin
  {
    if FalsyNumber(e.minPrice) || e.minPrice.value <= 0.0 then DefaultMin else e.minPrice.value
  }

  /** The value of `max_price` once validated, compared with the validated minimum. */
  function RepairedMax(e: Estimation): (m: real)
    ensures m > RepairedMin(e)
    ensures e.maxPrice.Some? && e.maxPrice.value > RepairedMin(e) ==> m == e.maxPrice.value
    ensures !(e.maxPrice.Some? && e.maxPrice.value > RepairedMin(e)) ==> m == RepairedMin(e) * 1.5
  {
    var lo := RepairedMin(e);
    if FalsyNumber(e.maxPrice) || e.maxPrice.value <= lo then lo * 1.5 else e.maxPrice.value
  }

  /** What `validateEstimation` leaves in the estimation: each rule applied in turn to the fields before it. */
  function Repaired(e: Estimation): (r: Estimation)
    ensures r.minPrice == Some(RepairedMin(e)) && r.maxPrice == Some(RepairedMax(e))
    ensures 0.0 < r.minPrice.value < r.maxPrice.value
    ensures !FalsyNumber(e.averagePrice) ==> r.averagePrice == e.averagePrice
    ensures FalsyNumber(e.averagePrice) ==> r.averagePrice == Some(Midpoint(r.minPrice.value, r.maxPrice.value))
    ensures e.priceBreakdown.Some? ==> r.priceBreakdown == e.priceBreakdown
    ensures e.priceBreakdown.None? ==> r.priceBreakdown == Some(Split(r.averagePrice.value))
    ensures r.confidence.Some? && r.confidence.value in Confidences
    ensures e.confidence.Some? && e.confidence.value in Confidences ==> r.confidence == e.confidence
    ensures !(e.confidence.Some? && e.confidence.value in Confidences) ==> r.confidence == Some("Medium")
    ensures r.reasoning == e.reasoning && r.marketComparison == e.marketComparison
  {
    var lo := RepairedMin(e);
    var hi := RepairedMax(e);
    var average := if FalsyNumber(e.averagePrice) then Midpoint(lo, hi) else e.averagePrice.value;
    Estimation(
      Some(lo), Some(hi), Some(average),
      if e.priceBreakdown.None? then Some(Split(average)) else e.priceBreakdown,
      e.reasoning,
      if e.confidence.Some? && e.confidence.value in Confidences then e.confidence else Some("Medium"),
      e.marketComparison)
  }

  /** The base prices of one complexity tier. */
  datatype Tier = Tier(min: real, max: real)

  /** `basePrices[complexity] || basePrices['Medium']`. */
  function TierFor(complexity: Option<string>): (t: Tier)
    ensures complexity == Some("Low") ==> t == Tier(300.0, 600.0)
    ensures complexity == Some("High") ==> t == Tier(2000.0, 4000.0)
    ensures complexity != Some("Low") && complexity != Some("High") ==> t == Tier(800.0, 1500.0)
  {
    match complexity
    case Some("Low") => Tier(300.0, 600.0)
    case Some("High") => Tier(2000.0, 4000.0)
    case _ => Tier(800.0, 1500.0)
  }

  /** How a complexity prints inside a template string. */
  function Shown(complexity: Option<string>): string
  {
    if complexity.Some? then complexity.value else "undefined"
  }

  /** `getFallbackEstimation`: the tier's range, its rounded midpoint and a 60/30/10 split, with low confidence. */
  function FallbackEstimation(serviceCategory: Option<string>, complexity: Option<string>): (e: Estimation)
    ensures e.minPrice == Some(TierFor(complexity).min) && e.maxPrice == Some(TierFor(complexity).max)
    ensures e.averagePrice == Some(Midpoint(TierFor(complexity).min, TierFor(complexity).max))
    ensures e.priceBreakdown == Some(Split(e.averagePrice.value))
    ensures e.reasoning == Some(["Fallback pricing based on complexity", Shown(complexity) + " complexity service", "Standard market rates applied"])
    ensures e.confidence == Some("Low") && e.marketComparison == Some("at market average")
  {
    var t := TierFor(complexity);
    var average := Midpoint(t.min, t.max);
    Estimation(
      Some(t.min), Some(t.max), Some(average), Some(Split(average)),
      Some(["Fallback pricing based on complexity", Shown(complexity) + " complexity service", "Standard market rates applied"]),
      Some("Low"), Some("at market average"))
  }

  /** The try/fallback shape of `estimatePrice`, given what the gateway returned or threw. */
  function Estimated(gateway: Result<Estimation, string>, serviceCategory: Option<string>, complexity: Option<string>): (e: Estimation)
    ensures e.minPrice.Some? && e.maxPrice.Some? && 0.0 < e.minPrice.value < e.maxPrice.value
    ensures gateway.Failure? ==> e == FallbackEstimation(serviceCategory, complexity)
    ensures gateway.Success? ==> e == Repaired(gateway.value)
  {
    match gateway
    case Success(v) => Repaired(v)
    case Failure(_) => FallbackEstimation(serviceCategory, complexity)
  }

  /** The parsed object `validateEstimation` repairs in place. */
  class EstimationDoc {
    var minPrice: Option<real>
    var maxPrice: Option<real>
    var averagePrice: Option<real>
    var priceBreakdown: Option<Breakdown>
    var reasoning: Option<seq<string>>
    var confidence: Option<string>
    var marketComparison: Option<string>

    function Value(): Estimation
      reads this
    {
      Estimation(minPrice, maxPrice, averagePrice, priceBreakdown, reasoning, confidence, marketComparison)
    }

    constructor (e: Estimation)
      ensures Value() == e
    {
      minPrice, maxPrice, averagePrice, priceBreakdown := e.minPrice, e.maxPrice, e.averagePrice, e.priceBreakdown;
      reasoning, confidence, marketComparison := e.reasoning, e.confidence, e.marketComparison;
    }

    /** `validateEstimation`: each field is checked, and overwritten when unusable, in the source's order. */
    method Validate()
      modifies this
      ensures Value() == Repaired(old(Value()))
    {
      ghost var e := Value();
      if FalsyNumber(minPrice) || minPrice.value <= 0.0 {
        minPrice := Some(DefaultMin);
      }
      assert minPrice == Some(RepairedMin(e));
      if FalsyNumber(maxPrice) || maxPrice.value <= minPrice.value {
        maxPrice := Some(minPrice.value * 1.5);
      }
      assert maxPrice == Some(RepairedMax(e));
      if FalsyNumber(averagePrice) {
        averagePrice := Some(Selection.Round((minPrice.value + maxPrice.value) / 2.0) as real);
      }
      assert averagePrice == Repaired(e).averagePrice;
      if priceBreakdown.None? {
        priceBreakdown := Some(Breakdown(
          Selection.Round(averagePrice.value * 0.6) as real,
          Selection.Round(averagePrice.value * 0.3) as real,
          Selection.Round(averagePrice.value * 0.1) as real));
      }
      if !(confidence.Some? && confidence.value in Confidences) {
        confidence := Some("Medium");
      }
    }
  }

  /** `estimatePrice`: the repaired model answer, or the fallback tiers; never an error. */
  method EstimatePrice(
    reply: nat -> Gateway.Reply, parse: string -> Result<Estimation, string>,
    serviceCategory: Option<string>, complexity: Option<string>)
    returns (e: Estimation)
    ensures e == Estimated(Gateway.Outcome(reply, parse, Gateway.DefaultMaxRetries), serviceCategory, complexity)
  {
    var answer, calls, delays := Gateway.GenerateJSON(reply, parse, Gateway.DefaultMaxRetries);
    if answer.Failure? {
      return FallbackEstimation(serviceCategory, complexity);
    }
    var doc := new EstimationDoc(answer.value);
    doc.Validate();
    e := doc.Value();
  }

  /** `cityMultipliers[city] || 1.0`. */
  function Multiplier(city: string): (m: real)
    ensures 1.0 <= m <= 1.2
  {
    match city
    case "Mumbai" => 1.2
    case "Delhi" => 1.15
    case "Bangalore" => 1.1
    case "Chennai" => 1.0
    case "Kolkata" => 1.0
    case "Hyderabad" => 1.0
    case "Pune" => 1.1
    case _ => 1.0
  }

  /** `adjustPriceForCity`: the base price scaled by the city's multiplier, rounded. */
  function AdjustPriceForCity(basePrice: real, city: string): (p: int)
    ensures basePrice * Multiplier(city) - 0.5 < p as real <= basePrice * Multiplier(city) + 0.5
  {
    Selection.Round(basePrice * Multiplier(city))
  }

  // Properties

  /** Repairing an already repaired estimation changes nothing. */
  lemma RepairIdempotent(e: Estimation)
    ensures Repaired(Repaired(e)) == Repaired(e)
  {
  }

  /** A range with a missing maximum becomes the minimum and half as much again (1000 becomes 1000 to 1500). */
  lemma MissingMaxExample()
    ensures var r := Repaired(Estimation(Some(1000.0), None, None, None, None, None, None));
      r.minPrice == Some(1000.0) && r.maxPrice == Some(1500.0) && r.averagePrice == Some(1250.0)
      && r.priceBreakdown == Some(Breakdown(750.0, 375.0, 125.0)) && r.confidence == Some("Medium")
  {
    assert Selection.Round(1250.0) == 1250;
    assert Selection.Round(750.0) == 750;
    assert Selection.Round(375.0) == 375;
    assert Selection.Round(125.0) == 125;
  }

  /** A maximum not above the minimum is replaced, even when the model gave one. */
  lemma InvertedRangeExample()
    ensures Repaired(Estimation(Some(1000.0), Some(500.0), Some(700.0), None, None, Some("High"), None)).maxPrice == Some(1500.0)
  {
  }

  /** The fallback does not depend on the service category. */
  lemma FallbackIgnoresCategory(a: Option<string>, b: Option<string>, complexity: Option<string>)
    ensures FallbackEstimation(a, complexity) == FallbackEstimation(b, complexity)
  {
  }

  /** The three tiers written out: range, average and split. */
  lemma FallbackTiers()
    ensures var e := FallbackEstimation(None, Some("Low"));
      e.minPrice == Some(300.0) && e.maxPrice == Some(600.0) && e.averagePrice == Some(450.0)
      && e.priceBreakdown == Some(Breakdown(270.0, 135.0, 45.0))
    ensures var e := FallbackEstimation(None, Some("Medium"));
      e.minPrice == Some(800.0) && e.maxPrice == Some(1500.0) && e.averagePrice == Some(1150.0)
      && e.priceBreakdown == Some(Breakdown(690.0, 345.0, 115.0))
    ensures var e := FallbackEstimation(None, Some("High"));
      e.minPrice == Some(2000.0) && e.maxPrice == Some(4000.0) && e.averagePrice == Some(3000.0)
      && e.priceBreakdown == Some(Breakdown(1800.0, 900.0, 300.0))
  {
    assert Selection.Round(450.0) == 450 && Selection.Round(270.0) == 270 && Selection.Round(135.0) == 135 && Selection.Round(45.0) == 45;
    assert Selection.Round(1150.0) == 1150 && Selection.Round(690.0) == 690 && Selection.Round(345.0) == 345 && Selection.Round(115.0) == 115;
    assert Selection.Round(3000.0) == 3000 && Selection.Round(1800.0) == 1800 && Selection.Round(900.0) == 900 && Selection.Round(300.0) == 300;
  }

  /** In every tier the fallback's split adds up to its average and the average lies inside the range. */
  lemma FallbackSplitAddsUp(complexity: Option<string>)
    ensures var e := FallbackEstimation(None, complexity);
      e.priceBreakdown.value.labor + e.priceBreakdown.value.materials + e.priceBreakdown.value.travel == e.averagePrice.value
      && e.minPrice.value < e.averagePrice.value < e.maxPrice.value
  {
    FallbackTiers();
  }

  /** The fallback already satisfies validation, so repairing it changes nothing. */
  lemma FallbackIsRepaired(serviceCategory: Option<string>, complexity: Option<string>)
    ensures Repaired(FallbackEstimation(serviceCategory, complexity)) == FallbackEstimation(serviceCategory, complexity)
  {
    FallbackTiers();
  }

  /** Unknown cities are not scaled. */
  lemma UnknownCityUnscaled(basePrice: real, city: string)
    requires city !in {"Mumbai", "Delhi", "Bangalore", "Pune"}
    ensures AdjustPriceForCity(basePrice, city) == Selection.Round(basePrice)
  {
  }

  /** For a non-negative price the adjustment never lowers it and raises it by at most 20%, before rounding. */
  lemma AdjustBounds(basePrice: real, city: string)
    requires basePrice >= 0.0
    ensures Selection.Round(basePrice) <= AdjustPriceForCity(basePrice, city) <= Selection.Round(basePrice * 1.2)
  {
    Selection.RoundMonotone(basePrice, basePrice * Multiplier(city));
    Selection.RoundMonotone(basePrice * Multiplier(city), basePrice * 1.2);
  }

  /** Within one city a higher base price never gives a lower adjusted price. */
  lemma AdjustMonotone(a: real, b: real, city: string)
    requires a <= b
    ensures AdjustPriceForCity(a, city) <= AdjustPriceForCity(b, city)
  {
    Selection.RoundMonotone(a * Multiplier(city), b * Multiplier(city));
  }
}
