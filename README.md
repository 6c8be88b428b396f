# Sell-side analyst: recommendation engine

This project models the decision core of a small stock-analysis aid. For a
ticker, the tool fetches a fundamentals record and recent news headlines. It
averages the headlines' compound polarity scores into one sentiment scalar.
It then runs a fixed rule table that yields three things: an integer score,
a Buy/Sell/Hold call, and an ordered list of "drivers" that explain the call.

Three modules make up the model:

- `Wrappers` holds `Option`, which stands for Python's `None` in an optional
  field.
- `MarketSentiment` models the averaging step of `get_market_sentiment`. It
  takes the per-headline compound scores as a `seq<real>`. An empty list
  gives 0.0; otherwise the result is the mean. It proves that the mean lies
  between any common bounds of the scores, so [-1, 1] scores give a result
  in [-1, 1].
- `Recommendation` models `generate_recommendation`.
  - `SentimentRule`, `PERule` and `PBRule` each give one rule's points and
    drivers; `Evaluate` sums the points and joins the drivers in rule order.
  - `GenerateRecommendation` is the engine as the source runs it. It keeps a
    local score accumulator and a driver list that each rule extends. It is
    proved to return exactly what `Evaluate` returns.
  - The lemmas state what the rule table promises: bounds, ordering,
    classification, and how missing, zero and mid-band ratios are handled.

Each driver is a constructor that carries the value its text shows, for
example `Undervalued(pe)` for "Undervalued (Low P/E: …)". Python's truth
test on a ratio is the predicate `Truthy`. Under it, `None` and `0.0` both
mean "not available".

The driver list does not always hold one entry per ratio. A present,
non-zero P/E that is neither in (0, 15) nor above 35 appends nothing. That covers 15 ≤ pe ≤ 35 and also a
negative P/E. A P/B that is neither in (0, 1.5) nor above 3.0 likewise
appends nothing. The list therefore has one to three entries (`RulesShape`,
`PESilentBand`, `PBSilentBand`, `FullDriverList`).

## Model

| member | source | states |
|---|---|---|
| `Recommendation.GenerateRecommendation` | analysis_lib.py:43-84 | The step-by-step engine returns exactly the call, score and driver list of the rule table `Evaluate`. The rule-by-rule facts about that result are stated in `RulesShape`, `ScoreExplainedByDrivers` and the lemmas below. |
| `Recommendation.Classify` | analysis_lib.py:76-82 | The call is BUY if and only if score > 35, SELL if and only if score < -25, and HOLD if and only if -25 ≤ score ≤ 35. |
| `Recommendation.SentimentRuleExactlyOne` | analysis_lib.py:48-54 | The first driver is strong positive if and only if s > 0.15, strong negative if and only if s < -0.15, and neutral if and only if -0.15 ≤ s ≤ 0.15. Its points are 40, -40 or 0. No later driver is a sentiment driver. |
| `Recommendation.RulesShape` | analysis_lib.py:45-74 | The driver list has 1 to 3 entries and starts with the sentiment driver. Drivers appear in strictly increasing rule order (sentiment, then P/E, then P/B), so each rule contributes at most one. |
| `Recommendation.ScoreExplainedByDrivers` | analysis_lib.py:45-74 | The score equals the summed weights of the listed drivers. Every point is explained by a driver, and the neutral and not-available drivers weigh 0. |
| `Recommendation.ScoreRange` | analysis_lib.py:45-72 | Sentiment points are in {-40, 0, 40}, P/E points in {-30, 0, 30} and P/B points in {-10, 0, 15}. The score therefore lies in [-80, 85]. |
| `Recommendation.CallThresholds` | analysis_lib.py:76-82 | The engine's call is exactly one of the three and depends on the score alone. The thresholds are strict: 36 gives BUY, 35 gives HOLD, -26 gives SELL and -25 gives HOLD. |
| `Recommendation.ClassifyMonotone` | analysis_lib.py:77-82 | A higher score never yields a less bullish call, in the order SELL < HOLD < BUY. |
| `Recommendation.PEUnavailable` | analysis_lib.py:56-64 | "P/E ratio not available" appears in the list if and only if the P/E is missing or zero. It is then second, and the P/E adds no points, whatever the other fields hold. |
| `Recommendation.PBUnavailable` | analysis_lib.py:66-74 | "P/B ratio not available" appears in the list if and only if the P/B is missing or zero. It is then last, and the P/B adds no points, whatever the other fields hold. |
| `Recommendation.ZeroRatioIsMissing` | analysis_lib.py:57-68 | A P/E or P/B of exactly 0 gives the same evaluation as a missing one. |
| `Recommendation.PESilentBand` | analysis_lib.py:58-62 | A present, non-zero P/E outside (0, 15) and not above 35 adds no points and no P/E driver. |
| `Recommendation.PBSilentBand` | analysis_lib.py:68-72 | A present, non-zero P/B outside (0, 1.5) and not above 3.0 adds no points and no P/B driver. |
| `Recommendation.FullDriverList` | analysis_lib.py:56-74 | The list has exactly three entries if and only if each ratio is unavailable or lies in one of its rule's signalling bands. |
| `Recommendation.NoBuyOnStrongNegativeSentiment` | analysis_lib.py:49-82 | With sentiment < -0.15 the score is at most 5, so the call is never BUY. |
| `Recommendation.NoSellOnStrongPositiveSentiment` | analysis_lib.py:49-82 | With sentiment > 0.15 the score is at least 0, so the call is never SELL. |
| `Recommendation.NoHeadlinesIsNeutral` | analysis_lib.py:36-54 | With no headlines the sentiment is 0.0. That gives a neutral driver and no sentiment points. |
| `Recommendation.Scenarios` | analysis_lib.py:43-84 | Three worked cases. (0.20, P/E 10, P/B 1.0) gives BUY with 85. (-0.20, P/E 40, P/B 3.5) gives SELL with -80. (0.0, no ratios) gives HOLD with 0 and the neutral and two not-available drivers. |
| `MarketSentiment.AverageSentiment` | analysis_lib.py:35-41 | No headlines give 0.0. Otherwise the average times the headline count equals the sum of the scores. |
| `MarketSentiment.SumWithin` | analysis_lib.py:40 | The sum of n scores, each in [lo, hi], lies in [n·lo, n·hi]. |
| `MarketSentiment.AverageWithin` | analysis_lib.py:40-41 | For a non-empty list, the average lies between any common lower and upper bound of the scores. |
| `MarketSentiment.AverageIsCompoundScore` | analysis_lib.py:36-41 | If every headline score is in [-1, 1], so is the averaged sentiment, including the 0.0 used for no headlines. |

## Left out

- The data fetch in `get_fundamental_data` (analysis_lib.py:15-31) is left out. It reads a remote provider's records. The model takes the resulting record as the `Fundamentals` value.
- The sentiment analyser and the lexicon download (analysis_lib.py:3-13, 39) are left out. They are a foreign library and network I/O. The per-headline compound scores are an input sequence, and the news list is assumed to have one score per headline.
- `run_analysis_for_app` (analysis_lib.py:86-121) is left out. It sequences the remote calls, packs the report dictionary, catches exceptions and prints them, which is I/O plumbing.
- app.py is left out in full. It is the interactive display layer with a static ticker lookup table.
- Driver text formatting is not modelled: the 2-decimal rendering of values is replaced by constructors that carry the value.
- IEEE double behaviour is not modelled. Ratios and sentiment are exact reals, so NaN (truthy in Python, yet failing every comparison) and rounding of the mean are absent. For double inputs the comparisons against 0.15, 15, 35, 1.5 and 3.0 agree with exact comparison, because no double lies strictly between a threshold literal and its nearest double.
- The fields beta, market capitalisation, latest revenue and company name are carried in `Fundamentals` but have no behaviour: the engine does not read them.
