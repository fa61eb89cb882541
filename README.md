# RAAHI marketplace core in Dafny

RAAHI is a local-services marketplace. Customers post tasks. Providers bid on them. The customer accepts one bid, which creates a booking. A booking is then started, completed or cancelled.

An AI layer advises at each step:
- **TaskClassification:** the category, issue type, complexity and urgency of a task.
- **PriceEstimation:** a price range.
- **BidAnalysis and ProviderRecommendation:** a comparison of the bids, and a recommended provider.
- **BookingConfidence:** a confidence score for a booking.

Each AI service calls a language model through a gateway (`generateJSON`). The gateway retries, strips Markdown code fences and parses JSON. Each service then repairs or validates the document, and falls back to a fixed rule-based answer when the call fails.

This project models two things:
- the deterministic part of that pipeline, with the model call and `JSON.parse` as oracles;
- the task, bid and booking lifecycle the three controllers implement, over in-memory tables.

Modules, one per source file or component:

- `Wrappers`: `Option`, `Result`, `Outcome`.
- `Selection`: the array idioms the services share:
  - `reduce` with a strict comparison (first minimum or first maximum);
  - `find`, with or without a first-element default;
  - `Math.min`, `Math.max`, `Math.round` and the mean;
  - a stable sort on a copy.
- `Gateway` (`gemini.service.js`):
  - the retry loop as a method over attempt-indexed replies, with its backoff delays;
  - the fence cleanup;
  - the pure specification the loop is proved against.
- `TaskClassification`, `PriceEstimation`:
  - the in-place validation and repair as classes whose `Validate` methods are tied to pure functions;
  - the fallbacks, the city multiplier, and the try/fallback shape.
- `BidAnalysis`, `ProviderRecommendation`, `BookingConfidence`:
  - the short cuts and rule-based fallbacks;
  - the confidence heuristic as a sequence of scoring steps that accumulate a tally.
- `Store`: records, statuses, a value snapshot `Db` of the tables, and the mutable `Database`.
- `TaskController`, `BidController`, `BookingController`: one pure effect function per handler (new tables and response). Each handler method is proved to produce exactly that effect.
- `Lifecycle`: all state-changing handlers behind one request type, with the invariants they keep together:
  - references stay valid;
  - no record is removed;
  - statuses only step forward;
  - refusals change nothing;
  - every booking stands on an accepted bid with the same provider and amount.

One operation differs from the code. `rejectBid` as written writes before it checks. It is modelled twice: as written (`BidController.RejectBidAsWritten`) and corrected (`BidController.RejectBidEffect`, used everywhere else). See "## Findings".

The gateway waits only when another attempt follows: 2 s and then 4 s for three failures, 6 s in all (`Gateway.Backoff`, `Gateway.ThreeFailures`).

## Model

| member | source | states |
|---|---|---|
| `Gateway.GenerateJSON` | src/services/gemini.service.js:14-55 | Stops at the first attempt whose cleaned text parses; every earlier attempt failed; on failure exactly `maxRetries` calls were made; the waits are 2^k·1000 ms after each failed attempt k that is followed by another; the result is `Outcome` |
| `Gateway.Outcome` | src/services/gemini.service.js:17-54 | Success iff some attempt 1..maxRetries parses; a failure carries "AI service unavailable: " followed by the last attempt's error |
| `Gateway.FirstSuccess` | src/services/gemini.service.js:17-36 | The attempt returned is the first that parses; all attempts before it failed |
| `Gateway.Calls` | src/services/gemini.service.js:17-36 | The model is called at least once and at most `maxRetries` times |
| `Gateway.Backoff` | src/services/gemini.service.js:45-48 | One wait per retried attempt |
| `Gateway.BackoffTotal` | src/services/gemini.service.js:45-48 | n waits of 2^k·1000 ms add up to 1000·(2^(n+1) − 2) |
| `Gateway.ThreeFailures` | src/services/gemini.service.js:14-54 | With the default of 3, three failures mean 3 calls, waits of 2000 and 4000 ms (6 s), no fourth call, and the unavailable error built from the third error |
| `Gateway.TwoFailuresThenSuccess` | src/services/gemini.service.js:17-48 | Two failures and a third success return the third parse after waits of 2000 and 4000 ms |
| `Gateway.FirstAttemptWins` | src/services/gemini.service.js:17-36 | A first attempt that parses is returned after one call and no wait |
| `Gateway.CleanFences` | src/services/gemini.service.js:25 | The text handed to the parser is never longer than the reply (see `Gateway.CleanFencesResult` for its shape) |
| `Gateway.AttemptOutcome` | src/services/gemini.service.js:19-36 | One attempt: a transport failure yields its message; a completion yields the parse of its cleaned text, and only a completion can succeed |
| `Gateway.RemoveMarker` | src/services/gemini.service.js:25 | Removing a marker never lengthens the text |
| `Gateway.RemoveMarkerNoBacktick` | src/services/gemini.service.js:25 | Text with no backtick is left unchanged by removing either fence |
| `Gateway.CleanFencesKeepsPlainText` | src/services/gemini.service.js:25 | Text with no backtick and no surrounding whitespace reaches the parser unchanged |
| `Gateway.RemoveFenceLeavesNone` | src/services/gemini.service.js:25 | After the second replace no three-backtick fence remains |
| `Gateway.TrimStartIsSuffix` | src/services/gemini.service.js:25 | Trimming the start leaves a suffix that does not begin with whitespace |
| `Gateway.TrimEndIsPrefix` | src/services/gemini.service.js:25 | Trimming the end leaves a prefix that does not end with whitespace |
| `Gateway.CleanFencesResult` | src/services/gemini.service.js:25 | The cleaned text contains no fence and neither begins nor ends with whitespace |
| `TaskClassification.Validated` | src/services/taskClassification.service.js:84-105 | Fails iff one of the four required fields is missing or empty, with "Missing required fields: " and the missing names in order; on success complexity and urgency are Low, Medium or High, a valid value is kept, an invalid one becomes Medium, and no other field changes |
| `TaskClassification.ClassificationDoc.Validate` | src/services/taskClassification.service.js:84-105 | The in-place validation: on failure the error of `Validated` and the document unchanged; on success the fields become `Validated`'s result |
| `TaskClassification.Classified` | src/services/taskClassification.service.js:14-34 | Never fails: the validated model answer, or the fixed fallback when the gateway or the validation fails; the levels are always valid and all required fields present |
| `TaskClassification.ClassifyTask` | src/services/taskClassification.service.js:14-34 | The method calls the gateway and validation and returns `Classified` of the gateway outcome |
| `TaskClassification.ValidateIdempotent` | src/services/taskClassification.service.js:84-105 | Validating twice gives the same as validating once |
| `TaskClassification.FallbackIsValid` | src/services/taskClassification.service.js:110-120 | The fallback (General Service, Service request, Medium, Medium, 2 hours) passes validation unchanged |
| `TaskClassification.EmptyStringIsMissing` | src/services/taskClassification.service.js:85-90 | An empty issue type counts as missing |
| `TaskClassification.AllMissing` | src/services/taskClassification.service.js:85-90 | An empty document names all four fields, in the order of the required list |
| `Selection.Round` | src/services/priceEstimation.service.js:91 | `Math.round` lies within one half of its argument |
| `Selection.FirstMin` | src/services/providerRecommendation.service.js:93-95 | The strict-`<` reduce returns a minimum-key element, and every element before it has a larger key |
| `Selection.FirstMax` | src/services/providerRecommendation.service.js:100-102 | The strict-`>` reduce returns a maximum-key element, and every element before it has a smaller key |
| `Selection.FirstMatchOrFirst` | src/services/providerRecommendation.service.js:114-118 | `find(p) \|\| s[0]`: every element before the result fails p; the result satisfies p, or no element does and it is the first |
| `Selection.MinOf` | src/services/bidAnalysis.service.js:188 | `Math.min(...s)` is an element of s and no larger than any element |
| `Selection.MaxOf` | src/services/bidAnalysis.service.js:189 | `Math.max(...s)` is an element of s and no smaller than any element |
| `Selection.SortBySorts` | src/services/bidAnalysis.service.js:147-148 | The sorted copy is ascending and a permutation of the input |
| `Selection.SortByHead` | src/services/bidAnalysis.service.js:167-173 | The head of the stably sorted copy is the first element of minimum key |
| `PriceEstimation.RepairedMin` | src/services/priceEstimation.service.js:81-83 | After repair min > 0: a positive min is kept, otherwise 500 |
| `PriceEstimation.RepairedMax` | src/services/priceEstimation.service.js:85-87 | After repair max > min: a max above the repaired min is kept, otherwise min × 1.5 |
| `PriceEstimation.Repaired` | src/services/priceEstimation.service.js:79-109 | 0 < min < max; a present non-zero average is kept, otherwise the rounded midpoint; a present breakdown is kept, otherwise the rounded 60/30/10 split; confidence is High, Medium or Low, a valid one kept and a missing or invalid one set to Medium; reasoning and market comparison untouched |
| `PriceEstimation.EstimationDoc.Validate` | src/services/priceEstimation.service.js:79-109 | The field-by-field in-place repair leaves the document equal to `Repaired` of its old value |
| `PriceEstimation.TierFor` | src/services/priceEstimation.service.js:116-122 | Low gives 300–600, High gives 2000–4000, anything else the Medium tier 800–1500 |
| `PriceEstimation.FallbackEstimation` | src/services/priceEstimation.service.js:114-142 | The tier's min and max, the rounded midpoint as average, the 60/30/10 split, confidence Low, "at market average" |
| `PriceEstimation.Estimated` | src/services/priceEstimation.service.js:16-37 | Never fails: the repaired model answer or the fallback; either way 0 < min < max |
| `PriceEstimation.EstimatePrice` | src/services/priceEstimation.service.js:16-37 | The method calls the gateway and the in-place repair and returns `Estimated` of the gateway outcome |
| `PriceEstimation.Multiplier` | src/services/priceEstimation.service.js:148-158 | The city multiplier lies between 1.0 and 1.2 |
| `PriceEstimation.AdjustPriceForCity` | src/services/priceEstimation.service.js:147-160 | The rounded product of base and multiplier |
| `PriceEstimation.RepairIdempotent` | src/services/priceEstimation.service.js:79-109 | Repairing a repaired estimation changes nothing |
| `PriceEstimation.MissingMaxExample` | src/services/priceEstimation.service.js:85-101 | {min 1000, nothing else} repairs to max 1500, average 1250, breakdown 750/375/125, confidence Medium |
| `PriceEstimation.InvertedRangeExample` | src/services/priceEstimation.service.js:85-87 | {min 1000, max 500} repairs to max 1500 |
| `PriceEstimation.FallbackIgnoresCategory` | src/services/priceEstimation.service.js:114-142 | The fallback depends on the complexity only |
| `PriceEstimation.FallbackTiers` | src/services/priceEstimation.service.js:116-133 | The three tiers written out: averages 450, 1150, 3000 and their splits |
| `PriceEstimation.FallbackSplitAddsUp` | src/services/priceEstimation.service.js:123-133 | The fallback's labor, materials and travel add up to its average, which lies strictly inside the range |
| `PriceEstimation.FallbackIsRepaired` | src/services/priceEstimation.service.js:79-142 | The fallback already satisfies every repair rule |
| `PriceEstimation.UnknownCityUnscaled` | src/services/priceEstimation.service.js:158-159 | A city outside the table (and the 1.0 cities) gives the rounded base price |
| `PriceEstimation.AdjustBounds` | src/services/priceEstimation.service.js:147-160 | For a non-negative base the adjusted price lies between round(base) and round(1.2·base) |
| `PriceEstimation.AdjustMonotone` | src/services/priceEstimation.service.js:159 | A larger base never gives a smaller adjusted price |
| `BidAnalysis.SingleBidAnalysis` | src/services/bidAnalysis.service.js:112-141 | Average, lowest and highest are the amount; the comparison is "within" iff min ≤ amount ≤ max, "below range" iff amount < min, "above range" otherwise; no warning iff within, else exactly one |
| `BidAnalysis.Prices` | src/services/bidAnalysis.service.js:150 | The amounts in input order |
| `BidAnalysis.BestValueIndex` | src/services/bidAnalysis.service.js:151-157 | The first bid rated at least 4.0 (missing counts 0) and at most 1.2 × the rounded mean, or the first bid when none qualifies |
| `BidAnalysis.FallbackAnalysis` | src/services/bidAnalysis.service.js:146-195 | Best value and recommended (score 60) are that bid; the budget option is the first cheapest bid and the premium choice the first best-rated; lowest and highest are the min and max amounts; "within" iff the rounded mean lies in the estimate, else "outside range"; no warnings |
| `BidAnalysis.PremiumIsFirstMax` | src/services/bidAnalysis.service.js:148 | The head of the copy sorted by descending rating is the first bid of maximum rating |
| `BidAnalysis.AnalyzeBids` | src/services/bidAnalysis.service.js:16-40 | No bids, or none at all, gives the fixed message with no model call; one bid gives the single-bid analysis with no call; two or more give the model's answer or, on failure, the fallback |
| `BidAnalysis.BudgetPriceIsLowest` | src/services/bidAnalysis.service.js:166-188 | The budget option's price is the lowest bid of the insights |
| `BidAnalysis.SingleBidIsItsOwnBudget` | src/services/bidAnalysis.service.js:112-195 | On one bid the fallback and the single-bid analysis choose the same bid and the same lowest price |
| `BidAnalysis.SingleBidScore` | src/services/bidAnalysis.service.js:125-139 | The single-bid score is 70 exactly when there is no warning |
| `BidAnalysis.NoGoodValueMeansFirst` | src/services/bidAnalysis.service.js:154-157 | When no bid is rated 4.0 the first bid is recommended |
| `BidAnalysis.ExampleAverage` | src/services/bidAnalysis.service.js:150-151 | The mean of 900, 500 and 700 rounds to 700 |
| `BidAnalysis.ExampleIndices` | src/services/bidAnalysis.service.js:147-157 | For those bids (rated 3.5, 4.2, 4.8) best value is the second, the cheapest the second, the best-rated the third |
| `BidAnalysis.FallbackExample` | src/services/bidAnalysis.service.js:146-195 | The worked example's fallback report: bids b, b and c, mean 700, within 600–800 |
| `ProviderRecommendation.ChosenIndex` | src/services/providerRecommendation.service.js:91-120 | The fold or find each priority uses, as an index into the bids |
| `ProviderRecommendation.FallbackRecommendation` | src/services/providerRecommendation.service.js:87-133 | The index points at the chosen bid and the price is its amount, confidence 75, the fixed trade-off text; lowest_price, best_rated and fastest_service (missing or 0 hours count 999) pick the first extreme bid; any other priority the first bid in range rated at least 4.0, else the first |
| `ProviderRecommendation.Attached` | src/services/providerRecommendation.service.js:72 | `bids[index]` is present iff the index lies in range, and is then that bid |
| `ProviderRecommendation.RecommendProvider` | src/services/providerRecommendation.service.js:16-82 | Falls back iff the single model attempt fails; otherwise the model's answer with `bids[index]` attached |
| `ProviderRecommendation.UnknownPriorityIsBestValue` | src/services/providerRecommendation.service.js:113-119 | Any unknown priority behaves as best_value |
| `ProviderRecommendation.NoHoursMeansFirst` | src/services/providerRecommendation.service.js:106-111 | With no hours given every bid counts 999, so the first bid is fastest |
| `ProviderRecommendation.EqualRatingsPickFirst` | src/services/providerRecommendation.service.js:99-104 | Equal ratings go to the first bid |
| `ProviderRecommendation.LowestPriceExample` | src/services/providerRecommendation.service.js:92-97 | Among 900, 500 and 700 the bid at index 1 is recommended at 500 |
| `ProviderRecommendation.OutOfRangeIndexAttachesNothing` | src/services/providerRecommendation.service.js:72 | An index past the end is not an error; no provider is attached |
| `BookingConfidence.PriceAlignment` | src/services/bookingConfidence.service.js:95-105 | below_range iff amount < min; above_range iff amount ≥ min and > max; inside the range with a positive midpoint, the deviation |amount − mid|/mid gives perfect_match (< 0.1), within_range (< 0.2) or range_edge |
| `BookingConfidence.ScoreRating` | src/services/bookingConfidence.service.js:115-127 | Adds the rating tier (25/15/5 at 4.5/4.0/3.0, else a risk) to the tally |
| `BookingConfidence.ScoreExperience` | src/services/bookingConfidence.service.js:129-136 | Adds the experience tier (15/10 at 5/2 years) |
| `BookingConfidence.ScoreJobs` | src/services/bookingConfidence.service.js:138-147 | Adds the jobs tier (15/10 at 50/10 jobs; a risk under 5) |
| `BookingConfidence.ScorePrice` | src/services/bookingConfidence.service.js:149-165 | Adds 20 for perfect or within, 10 and a risk below range, a risk above range |
| `BookingConfidence.ScoreVerification` | src/services/bookingConfidence.service.js:167-173 | Adds 10 when verified, else a risk |
| `BookingConfidence.LevelFor` | src/services/bookingConfidence.service.js:175-188 | very_high iff the score is at least 85, high iff 70 to 84, medium iff 50 to 69, low iff below 50 |
| `BookingConfidence.AdviceFor` | src/services/bookingConfidence.service.js:175-188 | book_confidently iff the level is very_high or high, book_with_caution iff medium, consider_alternatives iff low |
| `BookingConfidence.FallbackConfidence` | src/services/bookingConfidence.service.js:110-201 | The accumulating method returns the reference `FallbackVerdict` |
| `BookingConfidence.FallbackVerdict` | src/services/bookingConfidence.service.js:110-201 | Score between 50 and 100, never low and never consider_alternatives, and at least one risk line |
| `BookingConfidence.GenerateConfidenceScore` | src/services/bookingConfidence.service.js:16-90 | The model's document when the single attempt parses, otherwise the fallback verdict |
| `BookingConfidence.RawScoreBounds` | src/services/bookingConfidence.service.js:111-173 | The raw score lies in [50, 135] |
| `BookingConfidence.NeverLow` | src/services/bookingConfidence.service.js:176-189 | The level from the raw score is never low and the advice never consider_alternatives |
| `BookingConfidence.ScoreMonotoneInRating` | src/services/bookingConfidence.service.js:116-127 | A better rating never lowers the raw score |
| `BookingConfidence.RisksDistinct` | src/services/bookingConfidence.service.js:125-172 | The five risk lines are pairwise different, so each condition below is read off one line |
| `BookingConfidence.RisksWrittenOut` | src/services/bookingConfidence.service.js:115-173 | The risks are the factors' risks in the source's order: rating, experience, jobs, price, verification |
| `BookingConfidence.LowRatingRiskCondition` | src/services/bookingConfidence.service.js:125-127 | The rating risk appears iff rating < 3.0 |
| `BookingConfidence.FewJobsRiskCondition` | src/services/bookingConfidence.service.js:145-147 | The job-history risk appears iff fewer than 5 jobs |
| `BookingConfidence.LowPriceRiskCondition` | src/services/bookingConfidence.service.js:159-162 | The low-price risk appears iff below range |
| `BookingConfidence.HighPriceRiskCondition` | src/services/bookingConfidence.service.js:163-164 | The high-price risk appears iff above range |
| `BookingConfidence.UnverifiedRiskCondition` | src/services/bookingConfidence.service.js:171-172 | The verification risk appears iff not verified |
| `BookingConfidence.NoRiskMeans` | src/services/bookingConfidence.service.js:197 | No risk at all (so the "No significant risks identified" line) iff rating ≥ 3, at least 5 jobs, a price not outside the range, and verified |
| `BookingConfidence.NeutralCases` | src/services/bookingConfidence.service.js:139-165 | 5 to 9 jobs and a range-edge price add neither points nor risks |
| `BookingConfidence.WorkedExample` | src/services/bookingConfidence.service.js:116-194 | Rating 4.6, 6 years, 60 jobs, verified, perfect match: raw 135, score 100, very_high, book_confidently, no risks |
| `Store.ParseTaskStatus` | src/controllers/task.controller.js:295-298 | Only the six status names are accepted, each read back as itself |
| `Store.ParseTaskStatusName` | src/controllers/task.controller.js:295 | Every status is accepted under its own name |
| `Store.SetTaskStatus` | src/controllers/booking.controller.js:106-109 | An update by id: the named task gets the status, a missing id changes nothing, no other task changes |
| `Store.Database.FreshId` | src/controllers/task.controller.js:72-90 | An insert takes the next id and leaves the tables as they were |
| `TaskController.CreateTaskEffect` | src/controllers/task.controller.js:51-90 | Non-customers get 403 and no change; otherwise 201 and one new open task under the next id with the description, the estimate's min and max, and the classification's category, issue type, complexity and urgency |
| `TaskController.CreateTask` | src/controllers/task.controller.js:29-95 | Classifies, estimates from the classification's category and complexity, inserts; the store ends as `CreateTaskEffect` says |
| `TaskController.UpdateTaskStatusEffect` | src/controllers/task.controller.js:295-313 | An unknown status gives 400 and no change; otherwise 200 iff the task is the caller's, which then takes the status |
| `TaskController.UpdateTaskStatus` | src/controllers/task.controller.js:289-317 | The store ends as `UpdateTaskStatusEffect` says |
| `TaskController.DeleteTaskEffect` | src/controllers/task.controller.js:328-352 | Refused while a bid of the task is accepted; otherwise the caller's own task becomes cancelled, else 400 and no change |
| `TaskController.DeleteTask` | src/controllers/task.controller.js:323-356 | The store ends as `DeleteTaskEffect` says |
| `TaskController.AnyStatusFromAny` | src/controllers/task.controller.js:301-307 | The owner can move a task from any status to any of the six |
| `TaskController.OthersTasksUntouched` | src/controllers/task.controller.js:301-346 | Somebody else's task is never changed by update or delete |
| `TaskController.UnknownStatusRefused` | src/controllers/task.controller.js:295-298 | A status outside the six gives 400 "Invalid status" and no change |
| `BidController.CreateBidEffect` | src/controllers/bid.controller.js:29-103 | 201 iff a provider with a profile bids on somebody else's open task, and then one new pending bid under the next id; otherwise the refusal and no change |
| `BidController.CreateBid` | src/controllers/bid.controller.js:11-103 | The store ends as `CreateBidEffect` says; the logged warning is raised iff the bid is created and its amount lies outside [0.5·min, 1.5·max] with both present |
| `BidController.AcceptedBids` | src/controllers/bid.controller.js:205-220 | The accepted bid becomes accepted, the task's other pending bids rejected, every other bid untouched |
| `BidController.AcceptBidEffect` | src/controllers/bid.controller.js:189-270 | 404 for a missing bid; 201 iff the caller owns the task and the bid is pending, and then the bids as `AcceptedBids`, the task assigned and a scheduled booking under the next id; otherwise no change |
| `BidController.AcceptBid` | src/controllers/bid.controller.js:174-274 | The store ends as `AcceptBidEffect` says |
| `BidController.RejectBidAsWritten` | src/controllers/bid.controller.js:284-300 | As written: a present bid is set to rejected whatever its status and whoever calls; 403 iff the caller does not own the task |
| `BidController.RejectBidEffect` | src/controllers/bid.controller.js:280-304 | Corrected: 200 iff the caller owns the task and the bid is pending, and then only that bid becomes rejected; every refusal changes nothing |
| `BidController.RejectBid` | src/controllers/bid.controller.js:280-304 | The store ends as the corrected `RejectBidEffect` says |
| `BidController.WithdrawBidEffect` | src/controllers/bid.controller.js:314-327 | 200 iff the bid is the caller's and pending, and then it alone becomes withdrawn; otherwise 400 and no change |
| `BidController.WithdrawBid` | src/controllers/bid.controller.js:310-331 | The store ends as `WithdrawBidEffect` says |
| `BidController.AmountOnlyLogged` | src/controllers/bid.controller.js:66-73 | The amount never changes the response |
| `BidController.NoBidOnOwnTask` | src/controllers/bid.controller.js:56-58 | Bidding on one's own task changes nothing |
| `BidController.AcceptLeavesNoPending` | src/controllers/bid.controller.js:205-220 | After an accept no bid of that task is still pending |
| `BidController.AcceptBooksTheBid` | src/controllers/bid.controller.js:229-238 | The booking records the caller as customer, the bid's provider, the bid, its amount as payment, and status scheduled |
| `BookingController.ViewBooking` | src/controllers/booking.controller.js:57-78 | 404 for a missing booking, 403 unless the caller is its customer or provider, else the booking |
| `BookingController.StartBookingEffect` | src/controllers/booking.controller.js:92-117 | 200 iff the caller is the provider of a scheduled booking, which becomes in progress with its task; otherwise 400 and no change |
| `BookingController.StartBooking` | src/controllers/booking.controller.js:88-121 | The store ends as `StartBookingEffect` says |
| `BookingController.Incremented` | src/controllers/booking.controller.js:154 | The provider's completed-jobs count goes up by one and nobody else's changes |
| `BookingController.CompleteBookingEffect` | src/controllers/booking.controller.js:131-162 | 200 iff the caller is the provider of an in-progress booking, which becomes completed with the completion time, its task completed and the provider's count incremented; otherwise 400 and no change |
| `BookingController.CompleteBooking` | src/controllers/booking.controller.js:127-166 | The store ends as `CompleteBookingEffect` says |
| `BookingController.CancelBookingEffect` | src/controllers/booking.controller.js:178-218 | 404, then 403 unless a party, then 400 unless scheduled; else the booking is cancelled and its task reopened |
| `BookingController.CancelBooking` | src/controllers/booking.controller.js:172-222 | The store ends as `CancelBookingEffect` says |
| `BookingController.Timeline` | src/controllers/booking.controller.js:244-274 | 1 to 3 entries, the first "Booking Created" at creation; "Job Started" iff in progress or completed; "Job Completed" iff completed, then last with the completion time; "Booking Cancelled" iff cancelled; per status the exact list, with Started and Cancelled stamped by the last update |
| `BookingController.GetBookingTimeline` | src/controllers/booking.controller.js:228-280 | 404 for a missing booking, else the list built by appends equals `Timeline` |
| `BookingController.StartThenComplete` | src/controllers/booking.controller.js:92-154 | Start then complete by the provider ends completed, stamped, with the task completed |
| `BookingController.StartedCannotBeCancelled` | src/controllers/booking.controller.js:194-196 | A started or completed booking is never cancelled |
| `BookingController.CompleteOnce` | src/controllers/booking.controller.js:137-154 | A completed booking cannot be completed again, so the job count moves once per booking |
| `BookingController.OutsidersLockedOut` | src/controllers/booking.controller.js:74-191 | Somebody who is neither party sees nothing and changes nothing |
| `BookingController.CompletedTimeline` | src/controllers/booking.controller.js:244-266 | A completed booking's timeline is Created, Started, Completed |
| `Lifecycle.Handle` | src/controllers/bid.controller.js:189-200 | Routes each request to its handler's effect; every refusal (400 and up) leaves all tables as they were (its other properties: `Lifecycle.HandleKeepsValid`, `Lifecycle.HandleSteps`, `Lifecycle.HandleKeepsConsistent`) |
| `Lifecycle.HandleKeepsValid` | src/controllers/bid.controller.js:229-238 | Every handler keeps ids below the next id, every bid's task and every booking's task and bid present |
| `Lifecycle.HandleSteps` | src/controllers/bid.controller.js:205-237 | No record is removed; a bid changes only its status and only from pending; a booking keeps its parties, bid and price and moves only scheduled → in progress → completed or scheduled → cancelled; new tasks are open, new bids pending, new bookings scheduled |
| `Lifecycle.HandleKeepsConsistent` | src/controllers/bid.controller.js:229-238 | Every booking stays backed by an accepted bid of its task with the booking's provider and amount, and its customer owns the task |
| `Lifecycle.CancelledBookingBlocksDelete` | src/controllers/booking.controller.js:199-214 | Cancelling reopens the task but leaves its bid accepted, so the task can no longer be deleted |
| `Lifecycle.BookedExample` | src/controllers/bid.controller.js:223-238 | The state after an accept: task 1 of customer 10 assigned, bid 2 by provider 20 accepted at 500, booking 3 scheduled; it satisfies both invariants |
| `Lifecycle.AsWrittenRefusalWrites` | src/controllers/bid.controller.js:284-298 | As written, a stranger gets 403 yet the accepted bid has become rejected |
| `Lifecycle.AsWrittenRejectsAcceptedBid` | src/controllers/bid.controller.js:284-300 | As written, the owner can reject an accepted, booked bid: a backward status step, and the booking loses its accepted bid |
| `Lifecycle.CorrectedRejectRefusesBoth` | src/controllers/bid.controller.js:280-304 | The corrected reject answers both with a refusal and no change |

## Left out

- The model call, the prompt text and `JSON.parse` are oracles. The gateway sees an attempt-indexed reply, a transport failure or a completion text, and a parse function from cleaned text to a document or an error. A document that is valid JSON but not an object is treated as a parse failure.
- The success paths that return the model's JSON verbatim (bid analysis, recommendation, confidence) carry the document through opaquely. The recommendation's index is never range-checked; `Attached` models the resulting missing provider.
- Real sleeping. The backoff delays are returned as a list of milliseconds, not waited for.
- `generateText` is not part of this model: a thin wrapper with no logic of its own.
- Numbers are Dafny reals. Floating-point rounding, `NaN`, non-number fields and `toFixed` are not modelled. `Math.round` is floor(x + 0.5).
- Documents are records of optional fields. Property lookups that would hit JavaScript prototype keys (a complexity or city named "constructor") are not modelled.
- Text built from templates whose numbers JavaScript would format (rating lines, the value assessment) is kept as structured lines (`BidAnalysis.Line`), not as rendered strings.
- `BidAnalysis.AnalyzeBids` with a missing `priceEstimate` is not modelled: the source would throw inside the fallback itself. The estimate is a record with numeric min and max.
- `Selection.SortBy` models JavaScript's stable `sort` with a stable insertion sort. Only the first element of each sorted copy is read.
- `ProviderRecommendation.FallbackRecommendation` reports `indexOf` of the chosen bid as its position. The two differ only when the list holds the same object twice, which the controller never passes.
- `BookingConfidence.FallbackConfidence` splits the source's inline scoring blocks into five step methods over a tally. The order of points, notes and risks is the same.
- The database: Supabase query semantics (joins, ordering, pagination, counts), database errors and the 500 responses they cause, and the non-atomic multi-step writes of `acceptBid`. The steps are modelled as running in sequence with no failure in between.
- The unique constraint that refuses a provider's second bid on a task (the 400 "Failed to create bid" path) is not modelled.
- `updated_at` is never advanced, because the database trigger that maintains it is not part of this model. The timeline's Started and Cancelled entries carry the stored value.
- The `increment_completed_jobs` database function is not part of this model. It is taken to add one to the caller's profile when one exists.
- Logging (`logger.info`, `logger.error`, and the cancel reason logged by `cancelBooking`) is left out: it changes neither the tables nor the response. The `createBid` price warning is modelled as the `warned` result.
- Concurrency between requests, SMS notifications, Joi input validation, authentication, the haversine distance filter, and the read-only list handlers are not modelled.
- `TaskController.CreateTask` takes the classification and estimate oracles but not the location. The address only feeds the prompts; the coordinates feed the distance filter.

## Findings

| source | as written | input that shows it | evidently intended | confidence | as-written member | corrected member |
|---|---|---|---|---|---|---|
| src/controllers/bid.controller.js:284-298 | The bid is updated to rejected by id alone; the owner check comes only afterwards, and a failed check answers 403 without undoing the write | A caller who does not own the task rejects bid 2 of `Lifecycle.BookedExample`: 403 Unauthorized, and bid 2 is now rejected | Check that the caller owns the task before writing | high, not executed | `Lifecycle.AsWrittenRefusalWrites` | `BidController.RejectBidEffect` |
| src/controllers/bid.controller.js:284-289 | The update has no pending guard, unlike `acceptBid` and `withdrawBid`, so an accepted bid with a booking can be rejected | The task's owner rejects the accepted, booked bid 2 of `Lifecycle.BookedExample`: 200 Bid rejected, and booking 3 no longer stands on an accepted bid | Reject only pending bids | medium, not executed | `Lifecycle.AsWrittenRejectsAcceptedBid` | `BidController.RejectBidEffect` |
