/**
 * The booking-confidence scorer: `generateConfidenceScore` asks the model once
 * for a confidence verdict on a bid; when the call or the parse fails,
 * `_fallbackConfidence` adds up points for rating, experience, completed jobs,
 * price alignment and verification, caps the total at 100 and maps it to a
 * level and an advice.
 */
module BookingConfidence {
  import opened Wrappers
  import Gateway

  /** How a bid's amount sits against the task's estimated range. */
  datatype Alignment = BelowRange | AboveRange | PerfectMatch | WithinRange | RangeEdge

  /**
   * `_calculatePriceAlignment`. Outside the range is decided first; inside it
   * the relative deviation from the midpoint decides. A midpoint of zero makes
   * the deviation NaN or infinite, so every comparison fails and the result is
   * range_edge; a negative midpoint makes the deviation non-positive, so it is
   * a perfect match.
   */
  function PriceAlignment(amount: real, minPrice: real, maxPrice: real): (a: Alignment)
    ensures a == BelowRange <==> amount < minPrice
    ensures a == AboveRange <==> minPrice <= amount && amount > maxPrice
    ensures minPrice <= amount <= maxPrice && (minPrice + maxPrice) / 2.0 > 0.0 ==>
      var mid := (minPrice + maxPrice) / 2.0;
      var gap := if amount >= mid then amount - mid else mid - amount;
      (a == PerfectMatch <==> gap < 0.1 * mid)
      && (a == WithinRange <==> 0.1 * mid <= gap < 0.2 * mid)
      && (a == RangeEdge <==> 0.2 * mid <= gap)
    ensures minPrice <= amount <= maxPrice && minPrice + maxPrice == 0.0 ==> a == RangeEdge
    ensures minPrice <= amount <= maxPrice && minPrice + maxPrice < 0.0 ==> a == PerfectMatch
  {
    if amount < minPrice then BelowRange
    else if amount > maxPrice then AboveRange
    else
      var mid := (minPrice + maxPrice) / 2.0;
      var gap := if amount >= mid then amount - mid else mid - amount;
      if mid > 0.0 then
        if gap < 0.1 * mid then PerfectMatch else if gap < 0.2 * mid then WithinRange else RangeEdge
      else if mid == 0.0 then RangeEdge
      else PerfectMatch
  }

  /** The provider fields the scorer reads, as the controller fills them (missing numbers are 0). */
  datatype Provider = Provider(rating: real, experienceYears: real, completedJobs: real, verificationStatus: string)

  datatype Level = VeryHigh | High | Medium | Low
  datatype Advice = BookConfidently | BookWithCaution | ConsiderAlternatives

  /** The fallback's verdict. */
  datatype Confidence = Confidence(score: int, level: Level, explanation: seq<string>, riskFactors: seq<string>, recommendation: Advice)

  const BaseScore: int := 50
  const LowRatingRisk: string := "Provider has below-average ratings"
  const FewJobsRisk: string := "Provider has limited job history"
  const LowPriceRisk: string := "Unusually low price may indicate quality concerns"
  const HighPriceRisk: string := "Price is above expected range"
  const UnverifiedRisk: string := "Provider verification pending"
  const NoRisk: string := "No significant risks identified"

  /** What one factor contributes: points, explanation lines and risk lines. */
  datatype Factor = Factor(points: int, notes: seq<string>, risks: seq<string>)

  function RatingFactor(p: Provider): Factor
  {
    if p.rating >= 4.5 then Factor(25, ["Provider has excellent ratings"], [])
    else if p.rating >= 4.0 then Factor(15, ["Provider has good ratings"], [])
    else if p.rating >= 3.0 then Factor(5, ["Provider has average ratings"], [])
    else Factor(0, [], [LowRatingRisk])
  }

  function ExperienceFactor(p: Provider): Factor
  {
    if p.experienceYears >= 5.0 then Factor(15, ["Provider has significant experience"], [])
    else if p.experienceYears >= 2.0 then Factor(10, ["Provider has moderate experience"], [])
    else Factor(0, [], [])
  }

  function JobsFactor(p: Provider): Factor
  {
    if p.completedJobs >= 50.0 then Factor(15, ["Provider has completed many jobs successfully"], [])
    else if p.completedJobs >= 10.0 then Factor(10, ["Provider has a good track record"], [])
    else if p.completedJobs < 5.0 then Factor(0, [], [FewJobsRisk])
    else Factor(0, [], [])
  }

  function PriceFactor(a: Alignment): Factor
  {
    match a
    case PerfectMatch => Factor(20, ["Price is within expected range"], [])
    case WithinRange => Factor(20, ["Price is within expected range"], [])
    case BelowRange => Factor(10, ["Price is below expected range"], [LowPriceRisk])
    case AboveRange => Factor(0, [], [HighPriceRisk])
    case RangeEdge => Factor(0, [], [])
  }

  function VerificationFactor(p: Provider): Factor
  {
    if p.verificationStatus == "verified" then Factor(10, ["Provider is verified by platform"], [])
    else Factor(0, [], [UnverifiedRisk])
  }

  /** The running state of `_fallbackConfidence`: the score so far and the lines pushed so far. */
  datatype Tally = Tally(score: int, explanation: seq<string>, riskFactors: seq<string>)

  /** The effect of one scoring block: its points added, its lines pushed. */
  function Add(t: Tally, f: Factor): Tally
  {
    Tally(t.score + f.points, t.explanation + f.notes, t.riskFactors + f.risks)
  }

  /** The five blocks applied to the base score, in the order the source scores them. */
  function Scored(p: Provider, a: Alignment): Tally
  {
    Add(Add(Add(Add(Add(Tally(BaseScore, [], []), RatingFactor(p)), ExperienceFactor(p)), JobsFactor(p)), PriceFactor(a)), VerificationFactor(p))
  }

  /** The uncapped score. */
  function RawScore(p: Provider, a: Alignment): int
  {
    Scored(p, a).score
  }

  function Notes(p: Provider, a: Alignment): seq<string>
  {
    Scored(p, a).explanation
  }

  function Risks(p: Provider, a: Alignment): seq<string>
  {
    Scored(p, a).riskFactors
  }

  /** The confidence level of a raw score: very_high from 85, high from 70, medium from 50, otherwise low. */
  function LevelFor(raw: int): (l: Level)
    ensures l == VeryHigh <==> raw >= 85
    ensures l == High <==> 70 <= raw < 85
    ensures l == Medium <==> 50 <= raw < 70
    ensures l == Low <==> raw < 50
  {
    if raw >= 85 then VeryHigh else if raw >= 70 then High else if raw >= 50 then Medium else Low
  }

  /** The recommendation set beside each level: book confidently at high and above, with caution at medium. */
  function AdviceFor(raw: int): (a: Advice)
    ensures a == BookConfidently <==> LevelFor(raw) == VeryHigh || LevelFor(raw) == High
    ensures a == BookWithCaution <==> LevelFor(raw) == Medium
    ensures a == ConsiderAlternatives <==> LevelFor(raw) == Low
  {
    if raw >= 70 then BookConfidently else if raw >= 50 then BookWithCaution else ConsiderAlternatives
  }

  /** The rating block. */
  method ScoreRating(p: Provider, t: Tally) returns (u: Tally)
    ensures u == Add(t, RatingFactor(p))
  {
    u := t;
    if p.rating >= 4.5 {
      u := u.(score := u.score + 25, explanation := u.explanation + ["Provider has excellent ratings"]);
    } else if p.rating >= 4.0 {
      u := u.(score := u.score + 15, explanation := u.explanation + ["Provider has good ratings"]);
    } else if p.rating >= 3.0 {
      u := u.(score := u.score + 5, explanation := u.explanation + ["Provider has average ratings"]);
    } else {
      u := u.(riskFactors := u.riskFactors + [LowRatingRisk]);
    }
  }

  /** The experience block. */
  method ScoreExperience(p: Provider, t: Tally) returns (u: Tally)
    ensures u == Add(t, ExperienceFactor(p))
  {
    u := t;
    if p.experienceYears >= 5.0 {
      u := u.(score := u.score + 15, explanation := u.explanation + ["Provider has significant experience"]);
    } else if p.experienceYears >= 2.0 {
      u := u.(score := u.score + 10, explanation := u.explanation + ["Provider has moderate experience"]);
    }
  }

  /** The completed-jobs block. */
  method ScoreJobs(p: Provider, t: Tally) returns (u: Tally)
    ensures u == Add(t, JobsFactor(p))
  {
    u := t;
    if p.completedJobs >= 50.0 {
      u := u.(score := u.score + 15, explanation := u.explanation + ["Provider has completed many jobs successfully"]);
    } else if p.completedJobs >= 10.0 {
      u := u.(score := u.score + 10, explanation := u.explanation + ["Provider has a good track record"]);
    } else if p.completedJobs < 5.0 {
      u := u.(riskFactors := u.riskFactors + [FewJobsRisk]);
    }
  }

  /** The price-alignment block. */
  method ScorePrice(a: Alignment, t: Tally) returns (u: Tally)
    ensures u == Add(t, PriceFactor(a))
  {
    u := t;
    if a == PerfectMatch || a == WithinRange {
      u := u.(score := u.score + 20, explanation := u.explanation + ["Price is within expected range"]);
    } else if a == BelowRange {
      u := u.(score := u.score + 10, explanation := u.explanation + ["Price is below expected range"]);
      u := u.(riskFactors := u.riskFactors + [LowPriceRisk]);
    } else if a == AboveRange {
      u := u.(riskFactors := u.riskFactors + [HighPriceRisk]);
    }
  }

  /** The verification block. */
  method ScoreVerification(p: Provider, t: Tally) returns (u: Tally)
    ensures u == Add(t, VerificationFactor(p))
  {
    u := t;
    if p.verificationStatus == "verified" {
      u := u.(score := u.score + 10, explanation := u.explanation + ["Provider is verified by platform"]);
    } else {
      u := u.(riskFactors := u.riskFactors + [UnverifiedRisk]);
    }
  }

  /** `_fallbackConfidence`: the five blocks accumulate in the source's order, then the level, cap and default risk line. */
  method FallbackConfidence(p: Provider, amount: real, minPrice: real, maxPrice: real) returns (c: Confidence)
    ensures c == FallbackVerdict(p, amount, minPrice, maxPrice)
  {
    var t := Tally(50, [], []);
    t := ScoreRating(p, t);
    t := ScoreExperience(p, t);
    t := ScoreJobs(p, t);
    var alignment := PriceAlignment(amount, minPrice, maxPrice);
    t := ScorePrice(alignment, t);
    t := ScoreVerification(p, t);
    assert t == Scored(p, alignment);

    var level, advice;
    if t.score >= 85 {
      level, advice := VeryHigh, BookConfidently;
    } else if t.score >= 70 {
      level, advice := High, BookConfidently;
    } else if t.score >= 50 {
      level, advice := Medium, BookWithCaution;
    } else {
      level, advice := Low, ConsiderAlternatives;
    }

    c := Confidence(if t.score < 100 then t.score else 100, level, t.explanation,
      if |t.riskFactors| > 0 then t.riskFactors else [NoRisk], advice);
  }

  /** What `generateConfidenceScore` returns: the model's document as it came, or the fallback. */
  datatype Verdict<D> = FromModel(doc: D) | Fallback(confidence: Confidence)

  /** The reference verdict of the fallback, as a function of its inputs. */
  function FallbackVerdict(p: Provider, amount: real, minPrice: real, maxPrice: real): (c: Confidence)
    ensures 50 <= c.score <= 100
    ensures c.level != Low && c.recommendation != ConsiderAlternatives
    ensures |c.riskFactors| > 0
  {
    var a := PriceAlignment(amount, minPrice, maxPrice);
    var raw := RawScore(p, a);
    RawScoreBounds(p, a);
    Confidence(if raw < 100 then raw else 100, LevelFor(raw), Notes(p, a),
      if Risks(p, a) == [] then [NoRisk] else Risks(p, a), AdviceFor(raw))
  }

  /** `generateConfidenceScore`: one model call, cleaned and parsed like the gateway's; any failure goes to the fallback. */
  method GenerateConfidenceScore<D>(p: Provider, amount: real, minPrice: real, maxPrice: real,
    reply: Gateway.Reply, parse: string -> Result<D, string>) returns (v: Verdict<D>)
    ensures Gateway.AttemptOutcome(reply, parse).Success? ==> v == FromModel(Gateway.AttemptOutcome(reply, parse).value)
    ensures Gateway.AttemptOutcome(reply, parse).Failure? ==> v == Fallback(FallbackVerdict(p, amount, minPrice, maxPrice))
  {
    var alignment := PriceAlignment(amount, minPrice, maxPrice);
    match Gateway.AttemptOutcome(reply, parse)
    case Success(doc) =>
      v := FromModel(doc);
    case Failure(_) =>
      var c := FallbackConfidence(p, amount, minPrice, maxPrice);
      v := Fallback(c);
  }

  // Properties

  /** The raw score lies between 50 and 135. */
  lemma RawScoreBounds(p: Provider, a: Alignment)
    ensures 50 <= RawScore(p, a) <= 135
  {
  }

  /** The fallback never advises against booking: the level is at least medium. */
  lemma NeverLow(p: Provider, a: Alignment)
    ensures LevelFor(RawScore(p, a)) != Low && AdviceFor(RawScore(p, a)) != ConsiderAlternatives
  {
    RawScoreBounds(p, a);
  }

  /** A higher rating never lowers the raw score. */
  lemma ScoreMonotoneInRating(p: Provider, q: Provider, a: Alignment)
    requires p.rating <= q.rating
    requires p.experienceYears == q.experienceYears && p.completedJobs == q.completedJobs
    requires p.verificationStatus == q.verificationStatus
    ensures RawScore(p, a) <= RawScore(q, a)
  {
  }

  /** The five risk lines are pairwise different. */
  lemma RisksDistinct()
    ensures LowRatingRisk != FewJobsRisk && LowRatingRisk != LowPriceRisk && LowRatingRisk != HighPriceRisk
    ensures LowRatingRisk != UnverifiedRisk && FewJobsRisk != LowPriceRisk && FewJobsRisk != HighPriceRisk
    ensures FewJobsRisk != UnverifiedRisk && LowPriceRisk != HighPriceRisk && LowPriceRisk != UnverifiedRisk
    ensures HighPriceRisk != UnverifiedRisk
  {
    assert |LowRatingRisk| == 34 && |FewJobsRisk| == 32 && |LowPriceRisk| == 49;
    assert |HighPriceRisk| == 29 && |UnverifiedRisk| == 29;
    assert HighPriceRisk[2] != UnverifiedRisk[2];
  }

  /** The risk lines pushed are exactly the factors' risk lines, in order. */
  lemma RisksWrittenOut(p: Provider, a: Alignment)
    ensures Risks(p, a) == RatingFactor(p).risks + ExperienceFactor(p).risks + JobsFactor(p).risks
      + PriceFactor(a).risks + VerificationFactor(p).risks
  {
    assert [] + RatingFactor(p).risks == RatingFactor(p).risks;
  }

  /** "Provider has below-average ratings" appears exactly for a rating under 3.0. */
  lemma LowRatingRiskCondition(p: Provider, a: Alignment)
    ensures LowRatingRisk in Risks(p, a) <==> p.rating < 3.0
  {
    RisksDistinct();
    RisksWrittenOut(p, a);
  }

  /** "Provider has limited job history" appears exactly for fewer than 5 completed jobs. */
  lemma FewJobsRiskCondition(p: Provider, a: Alignment)
    ensures FewJobsRisk in Risks(p, a) <==> p.completedJobs < 5.0
  {
    RisksDistinct();
    RisksWrittenOut(p, a);
  }

  /** The low-price risk appears exactly for a bid below the range. */
  lemma LowPriceRiskCondition(p: Provider, a: Alignment)
    ensures LowPriceRisk in Risks(p, a) <==> a == BelowRange
  {
    RisksDistinct();
    RisksWrittenOut(p, a);
  }

  /** The high-price risk appears exactly for a bid above the range. */
  lemma HighPriceRiskCondition(p: Provider, a: Alignment)
    ensures HighPriceRisk in Risks(p, a) <==> a == AboveRange
  {
    RisksDistinct();
    RisksWrittenOut(p, a);
  }

  /** "Provider verification pending" appears exactly for an unverified provider. */
  lemma UnverifiedRiskCondition(p: Provider, a: Alignment)
    ensures UnverifiedRisk in Risks(p, a) <==> p.verificationStatus != "verified"
  {
    RisksDistinct();
    RisksWrittenOut(p, a);
  }

  /** No risk line at all only for a well-rated, experienced-enough, verified provider at a non-extreme price. */
  lemma NoRiskMeans(p: Provider, a: Alignment)
    ensures Risks(p, a) == [] <==>
      p.rating >= 3.0 && p.completedJobs >= 5.0 && a != BelowRange && a != AboveRange && p.verificationStatus == "verified"
  {
  }

  /** An edge-of-range price and 5 to 9 completed jobs add neither points nor risks. */
  lemma NeutralCases(p: Provider)
    requires 5.0 <= p.completedJobs < 10.0
    ensures JobsFactor(p) == Factor(0, [], []) && PriceFactor(RangeEdge) == Factor(0, [], [])
  {
  }

  /** Worked example: rating 4.6, 6 years, 60 jobs, verified, a perfect match: raw 135, reported 100, very high. */
  lemma WorkedExample()
    ensures var p := Provider(4.6, 6.0, 60.0, "verified");
      var c := FallbackVerdict(p, 1000.0, 800.0, 1200.0);
      RawScore(p, PerfectMatch) == 135 && c.score == 100 && c.level == VeryHigh
      && c.recommendation == BookConfidently && c.riskFactors == [NoRisk]
  {
    var p := Provider(4.6, 6.0, 60.0, "verified");
    assert PriceAlignment(1000.0, 800.0, 1200.0) == PerfectMatch;
  }
}
