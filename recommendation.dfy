/** The recommendation engine: a fixed, ordered table of threshold rules
    that turns a fundamentals record and a sentiment scalar into an integer
    score, a Buy/Sell/Hold call and the ordered list of drivers (the
    explanations) that justify the score.

    `Evaluate` states the rule table rule by rule; `GenerateRecommendation`
    is the engine as it runs, accumulating the score and appending drivers
    step by step, and is proved to compute exactly `Evaluate`. The lemmas
    below state what the rule table promises. */
module Recommendation {

  import opened Wrappers
  import MarketSentiment

  /** The fundamentals record of one company; every field may be missing. */
  datatype Fundamentals = Fundamentals(
    peRatio: Option<real>,
    pbRatio: Option<real>,
    beta: Option<real>,
    marketCap: Option<real>,
    latestRevenue: Option<real>,
    companyName: Option<string>)

  /** The three-valued call. */
  datatype Call = Buy | Sell | Hold

  /** One explanation in the driver list; the rendered text of each is noted
      beside it, and a constructor carries the value the text shows. */
  datatype Driver =
    | StrongPositiveSentiment(sentiment: real)   // "Strong positive sentiment (s)"
    | StrongNegativeSentiment(sentiment: real)   // "Strong negative sentiment (s)"
    | NeutralSentiment(sentiment: real)          // "Neutral sentiment (s)"
    | Undervalued(pe: real)                      // "Undervalued (Low P/E: pe)"
    | Overvalued(pe: real)                       // "Overvalued (High P/E: pe)"
    | PENotAvailable                             // "P/E ratio not available"
    | GoodValue(pb: real)                        // "Good value (Low P/B: pb)"
    | Expensive(pb: real)                        // "Expensive (High P/B: pb)"
    | PBNotAvailable                             // "P/B ratio not available"
  {
    /** The rule that emits this driver: 0 sentiment, 1 P/E, 2 P/B. */
    function Stage(): nat {
      if StrongPositiveSentiment? || StrongNegativeSentiment? || NeutralSentiment? then 0
      else if Undervalued? || Overvalued? || PENotAvailable? then 1
      else 2
    }

    predicate IsSentimentDriver() { Stage() == 0 }

    predicate IsPEDriver() { Stage() == 1 }

    predicate IsPBDriver() { Stage() == 2 }
  }

  /** What the engine returns: the call, the score and the drivers. */
  datatype Evaluation = Evaluation(recommendation: Call, score: int, rules: seq<Driver>)

  // ---------------------------------------------------------------------
  // The rule table
  // ---------------------------------------------------------------------

  /** Python's truth test on an optional ratio: `None` and zero are both
      falsy, so both mean "not available". */
  predicate Truthy(ratio: Option<real>)
  {
    ratio.Some? && ratio.value != 0.0
  }

  /** What one rule contributes: the points it adds to the score and the
      drivers it appends. */
  datatype RuleOutcome = RuleOutcome(points: int, drivers: seq<Driver>)

  /** The sentiment rule: always exactly one driver. */
  function SentimentRule(sentiment: real): RuleOutcome
  {
    if sentiment > 0.15 then RuleOutcome(40, [StrongPositiveSentiment(sentiment)])
    else if sentiment < -0.15 then RuleOutcome(-40, [StrongNegativeSentiment(sentiment)])
    else RuleOutcome(0, [NeutralSentiment(sentiment)])
  }

  /** The P/E rule: a driver for a low or a high P/E, or for a missing one;
      none in the 15..35 band or for a negative P/E. */
  function PERule(pe: Option<real>): RuleOutcome
  {
    if Truthy(pe) then
      if 0.0 < pe.value < 15.0 then RuleOutcome(30, [Undervalued(pe.value)])
      else if pe.value > 35.0 then RuleOutcome(-30, [Overvalued(pe.value)])
      else RuleOutcome(0, [])
    else RuleOutcome(0, [PENotAvailable])
  }

  /** The P/B rule, shaped like the P/E rule with its own thresholds and
      asymmetric points (+15 for a low P/B, -10 for a high one). */
  function PBRule(pb: Option<real>): RuleOutcome
  {
    if Truthy(pb) then
      if 0.0 < pb.value < 1.5 then RuleOutcome(15, [GoodValue(pb.value)])
      else if pb.value > 3.0 then RuleOutcome(-10, [Expensive(pb.value)])
      else RuleOutcome(0, [])
    else RuleOutcome(0, [PBNotAvailable])
  }

  /** The final call, with strict thresholds tested in order. */
  function Classify(score: int): (call: Call)
    ensures call == Buy <==> score > 35
    ensures call == Sell <==> score < -25
    ensures call == Hold <==> -25 <= score <= 35
  {
    if score > 35 then Buy
    else if score < -25 then Sell
    else Hold
  }

  /** The whole rule table: the score is the sum of the three rules'
      points, the drivers are the three rules' drivers in rule order. */
  function Evaluate(fundamentals: Fundamentals, sentiment: real): Evaluation
  {
    var s, pe, pb := SentimentRule(sentiment), PERule(fundamentals.peRatio),
                     PBRule(fundamentals.pbRatio);
    var score := s.points + pe.points + pb.points;
    var rules := s.drivers + pe.drivers + pb.drivers;
    Evaluation(Classify(score), score, rules)
  }

  // ---------------------------------------------------------------------
  // The engine as it runs
  // ---------------------------------------------------------------------

  /** The points a driver stands for in the score. */
  function Weight(d: Driver): int
  {
    match d
    case StrongPositiveSentiment(_) => 40
    case StrongNegativeSentiment(_) => -40
    case NeutralSentiment(_) => 0
    case Undervalued(_) => 30
    case Overvalued(_) => -30
    case PENotAvailable => 0
    case GoodValue(_) => 15
    case Expensive(_) => -10
    case PBNotAvailable => 0
  }

  /** The points of a whole driver list. */
  function TotalWeight(rules: seq<Driver>): int
  {
    if |rules| == 0 then 0
    else TotalWeight(rules[..|rules| - 1]) + Weight(rules[|rules| - 1])
  }

  lemma {:induction false} TotalWeightConcat(front: seq<Driver>, back: seq<Driver>)
    ensures TotalWeight(front + back) == TotalWeight(front) + TotalWeight(back)
    decreases |back|
  {
    if |back| == 0 {
      assert front + back == front;
    } else {
      var init := back[..|back| - 1];
      assert (front + back)[..|front + back| - 1] == front + init;
      TotalWeightConcat(front, init);
    }
  }

  /** Step by step: a score accumulator that starts at 0 and a driver list
      that starts empty; each rule adds its points to the score and appends
      at most one driver. The result is exactly the rule table's. */
  method GenerateRecommendation(fundamentals: Fundamentals, sentiment: real)
    returns (recommendation: Call, score: int, rules: seq<Driver>)
    ensures Evaluation(recommendation, score, rules) == Evaluate(fundamentals, sentiment)
  {
    score := 0;
    rules := [];

    // Sentiment rule
    if sentiment > 0.15 {
      score := score + 40;
      rules := rules + [StrongPositiveSentiment(sentiment)];
    } else if sentiment < -0.15 {
      score := score - 40;
      rules := rules + [StrongNegativeSentiment(sentiment)];
    } else {
      rules := rules + [NeutralSentiment(sentiment)];
    }
    ghost var afterSentiment := rules;
    assert afterSentiment == SentimentRule(sentiment).drivers;
    assert score == SentimentRule(sentiment).points;

    // P/E rule
    var pe := fundamentals.peRatio;
    if Truthy(pe) {
      if 0.0 < pe.value < 15.0 {
        score := score + 30;
        rules := rules + [Undervalued(pe.value)];
      } else if pe.value > 35.0 {
        score := score - 30;
        rules := rules + [Overvalued(pe.value)];
      }
    } else {
      rules := rules + [PENotAvailable];
    }
    ghost var afterPE := rules;
    assert afterPE == afterSentiment + PERule(pe).drivers;
    assert score == SentimentRule(sentiment).points + PERule(pe).points;

    // P/B rule
    var pb := fundamentals.pbRatio;
    if Truthy(pb) {
      if 0.0 < pb.value < 1.5 {
        score := score + 15;
        rules := rules + [GoodValue(pb.value)];
      } else if pb.value > 3.0 {
        score := score - 10;
        rules := rules + [Expensive(pb.value)];
      }
    } else {
      rules := rules + [PBNotAvailable];
    }
    assert rules == afterPE + PBRule(pb).drivers;

    // Final call
    if score > 35 {
      recommendation := Buy;
    } else if score < -25 {
      recommendation := Sell;
    } else {
      recommendation := Hold;
    }
  }

  // ---------------------------------------------------------------------
  // What the rule table promises
  // ---------------------------------------------------------------------

  /** Exactly one sentiment driver fires, chosen by the strict 0.15
      thresholds, and it carries the matching points. */
  lemma SentimentRuleExactlyOne(fundamentals: Fundamentals, sentiment: real)
    ensures var e := Evaluate(fundamentals, sentiment);
      && (sentiment > 0.15 <==> e.rules[0] == StrongPositiveSentiment(sentiment))
      && (sentiment < -0.15 <==> e.rules[0] == StrongNegativeSentiment(sentiment))
      && (-0.15 <= sentiment <= 0.15 <==> e.rules[0] == NeutralSentiment(sentiment))
      && e.score - PERule(fundamentals.peRatio).points - PBRule(fundamentals.pbRatio).points
         == Weight(e.rules[0])
      && forall i :: 1 <= i < |e.rules| ==> !e.rules[i].IsSentimentDriver()
  {
  }

  /** The driver list starts with the sentiment driver, then holds at most
      one P/E driver and then at most one P/B driver, so it has one to three
      entries. */
  lemma RulesShape(fundamentals: Fundamentals, sentiment: real)
    ensures var rules := Evaluate(fundamentals, sentiment).rules;
      && 1 <= |rules| <= 3
      && rules[0].IsSentimentDriver()
      && forall i, j :: 0 <= i < j < |rules| ==> rules[i].Stage() < rules[j].Stage()
  {
  }

  /** The drivers account for the whole score: the score is the sum of the
      points the listed drivers stand for. */
  lemma ScoreExplainedByDrivers(fundamentals: Fundamentals, sentiment: real)
    ensures var e := Evaluate(fundamentals, sentiment); e.score == TotalWeight(e.rules)
  {
    var pe, pb := fundamentals.peRatio, fundamentals.pbRatio;
    var first := SentimentRule(sentiment).drivers;
    assert TotalWeight(first) == SentimentRule(sentiment).points by {
      assert first[..0] == [];
    }
    assert TotalWeight(PERule(pe).drivers) == PERule(pe).points by {
      assert forall d: Driver :: [d][..0] == [];
    }
    assert TotalWeight(PBRule(pb).drivers) == PBRule(pb).points by {
      assert forall d: Driver :: [d][..0] == [];
    }
    TotalWeightConcat(first, PERule(pe).drivers);
    TotalWeightConcat(first + PERule(pe).drivers, PBRule(pb).drivers);
  }

  /** The score is the sum of one value from each rule's fixed set of
      points, so it always lies in [-80, 85]. */
  lemma ScoreRange(fundamentals: Fundamentals, sentiment: real)
    ensures SentimentRule(sentiment).points in {-40, 0, 40}
    ensures PERule(fundamentals.peRatio).points in {-30, 0, 30}
    ensures PBRule(fundamentals.pbRatio).points in {-10, 0, 15}
    ensures -80 <= Evaluate(fundamentals, sentiment).score <= 85
  {
  }

  /** The call is exactly one of the three, decided by the score alone with
      strict thresholds at 35 and -25. */
  lemma CallThresholds(fundamentals: Fundamentals, sentiment: real)
    ensures var e := Evaluate(fundamentals, sentiment);
      && (e.recommendation == Buy <==> e.score > 35)
      && (e.recommendation == Sell <==> e.score < -25)
      && (e.recommendation == Hold <==> -25 <= e.score <= 35)
    ensures Classify(36) == Buy && Classify(35) == Hold
    ensures Classify(-26) == Sell && Classify(-25) == Hold
  {
  }

  /** How bullish a call is: Sell < Hold < Buy. */
  function Rank(call: Call): int
  {
    match call
    case Sell => 0
    case Hold => 1
    case Buy => 2
  }

  /** A higher score never gives a less bullish call. */
  lemma ClassifyMonotone(lower: int, higher: int)
    requires lower <= higher
    ensures Rank(Classify(lower)) <= Rank(Classify(higher))
  {
  }

  /** The "P/E ratio not available" driver appears exactly when the P/E is
      missing or zero; it is then second and the P/E adds no points,
      whatever else the record holds. */
  lemma PEUnavailable(fundamentals: Fundamentals, sentiment: real)
    ensures var e := Evaluate(fundamentals, sentiment);
      && (!Truthy(fundamentals.peRatio) <==> PENotAvailable in e.rules)
      && (!Truthy(fundamentals.peRatio) ==>
            && e.rules[1] == PENotAvailable
            && e.score == SentimentRule(sentiment).points + PBRule(fundamentals.pbRatio).points)
  {
  }

  /** The "P/B ratio not available" driver appears exactly when the P/B is
      missing or zero; it is then last and the P/B adds no points, whatever
      else the record holds. */
  lemma PBUnavailable(fundamentals: Fundamentals, sentiment: real)
    ensures var e := Evaluate(fundamentals, sentiment);
      && (!Truthy(fundamentals.pbRatio) <==> PBNotAvailable in e.rules)
      && (!Truthy(fundamentals.pbRatio) ==>
            && e.rules[|e.rules| - 1] == PBNotAvailable
            && e.score == SentimentRule(sentiment).points + PERule(fundamentals.peRatio).points)
  {
  }

  /** A zero ratio is indistinguishable from a missing one. */
  lemma ZeroRatioIsMissing(fundamentals: Fundamentals, sentiment: real)
    ensures Evaluate(fundamentals.(peRatio := Some(0.0)), sentiment)
         == Evaluate(fundamentals.(peRatio := None), sentiment)
    ensures Evaluate(fundamentals.(pbRatio := Some(0.0)), sentiment)
         == Evaluate(fundamentals.(pbRatio := None), sentiment)
  {
  }

  /** A present, non-zero P/E outside (0, 15) and not above 35 (the 15..35
      band, or a negative P/E) adds no points and no driver. */
  lemma PESilentBand(fundamentals: Fundamentals, sentiment: real)
    requires Truthy(fundamentals.peRatio)
    requires !(0.0 < fundamentals.peRatio.value < 15.0) && fundamentals.peRatio.value <= 35.0
    ensures var e := Evaluate(fundamentals, sentiment);
      && e.score == SentimentRule(sentiment).points + PBRule(fundamentals.pbRatio).points
      && e.rules == SentimentRule(sentiment).drivers + PBRule(fundamentals.pbRatio).drivers
      && forall i :: 0 <= i < |e.rules| ==> !e.rules[i].IsPEDriver()
  {
  }

  /** A present, non-zero P/B outside (0, 1.5) and not above 3.0 adds no
      points and no driver. */
  lemma PBSilentBand(fundamentals: Fundamentals, sentiment: real)
    requires Truthy(fundamentals.pbRatio)
    requires !(0.0 < fundamentals.pbRatio.value < 1.5) && fundamentals.pbRatio.value <= 3.0
    ensures var e := Evaluate(fundamentals, sentiment);
      && e.score == SentimentRule(sentiment).points + PERule(fundamentals.peRatio).points
      && e.rules == SentimentRule(sentiment).drivers + PERule(fundamentals.peRatio).drivers
      && forall i :: 0 <= i < |e.rules| ==> !e.rules[i].IsPBDriver()
  {
  }

  /** The driver list has all three entries exactly when each ratio is
      unavailable or lies in one of its rule's signalling bands. */
  lemma FullDriverList(fundamentals: Fundamentals, sentiment: real)
    ensures var pe, pb := fundamentals.peRatio, fundamentals.pbRatio;
      |Evaluate(fundamentals, sentiment).rules| == 3 <==>
        && (!Truthy(pe) || 0.0 < pe.value < 15.0 || pe.value > 35.0)
        && (!Truthy(pb) || 0.0 < pb.value < 1.5 || pb.value > 3.0)
  {
  }

  /** Strong negative sentiment caps the score at 5, so it never yields BUY. */
  lemma NoBuyOnStrongNegativeSentiment(fundamentals: Fundamentals, sentiment: real)
    requires sentiment < -0.15
    ensures Evaluate(fundamentals, sentiment).score <= 5
    ensures Evaluate(fundamentals, sentiment).recommendation != Buy
  {
  }

  /** Strong positive sentiment keeps the score at 0 or above, so it never
      yields SELL. */
  lemma NoSellOnStrongPositiveSentiment(fundamentals: Fundamentals, sentiment: real)
    requires sentiment > 0.15
    ensures Evaluate(fundamentals, sentiment).score >= 0
    ensures Evaluate(fundamentals, sentiment).recommendation != Sell
  {
  }

  /** With no headlines the sentiment is 0.0, which is neutral and adds no
      points. */
  lemma NoHeadlinesIsNeutral(fundamentals: Fundamentals)
    ensures var e := Evaluate(fundamentals, MarketSentiment.AverageSentiment([]));
      && e.rules[0] == NeutralSentiment(0.0)
      && e.score == PERule(fundamentals.peRatio).points + PBRule(fundamentals.pbRatio).points
  {
  }

  /** Worked examples: the best case, the worst case and the all-missing
      case. */
  lemma Scenarios()
    ensures Evaluate(Fundamentals(Some(10.0), Some(1.0), None, None, None, None), 0.20)
         == Evaluation(Buy, 85, [StrongPositiveSentiment(0.20), Undervalued(10.0), GoodValue(1.0)])
    ensures Evaluate(Fundamentals(Some(40.0), Some(3.5), None, None, None, None), -0.20)
         == Evaluation(Sell, -80, [StrongNegativeSentiment(-0.20), Overvalued(40.0), Expensive(3.5)])
    ensures Evaluate(Fundamentals(None, None, None, None, None, None), 0.0)
         == Evaluation(Hold, 0, [NeutralSentiment(0.0), PENotAvailable, PBNotAvailable])
  {
  }
}
