/** The averaging step of the sentiment provider: the compound polarity
    scores of the recent headlines are averaged into one sentiment scalar,
    which is 0.0 when there are no headlines at all. The per-headline scores
    are taken as input; computing them is the lexicon-based analyser's job. */
module MarketSentiment {

  /** Sum of the scores, accumulated from the left as Python's `sum` does. */
  function Sum(scores: seq<real>): real
  {
    if |scores| == 0 then 0.0
    else Sum(scores[..|scores| - 1]) + scores[|scores| - 1]
  }

  /** The average sentiment of the headlines whose compound scores are
      `scores`: 0.0 for no headlines, otherwise the arithmetic mean. */
  function AverageSentiment(scores: seq<real>): (avg: real)
    ensures |scores| == 0 ==> avg == 0.0
    ensures |scores| > 0 ==> avg * (|scores| as real) == Sum(scores)
  {
    if |scores| == 0 then 0.0
    else Sum(scores) / (|scores| as real)
  }

  /** Every score lies in the closed interval [lo, hi]. */
  predicate AllWithin(scores: seq<real>, lo: real, hi: real)
  {
    forall i :: 0 <= i < |scores| ==> lo <= scores[i] <= hi
  }

  /** A sum of n scores, each in [lo, hi], lies in [n * lo, n * hi]. */
  lemma {:induction false} SumWithin(scores: seq<real>, lo: real, hi: real)
    requires AllWithin(scores, lo, hi)
    ensures (|scores| as real) * lo <= Sum(scores) <= (|scores| as real) * hi
  {
    if |scores| > 0 {
      var n := |scores| - 1;
      var init := scores[..n];
      assert AllWithin(init, lo, hi) by {
        forall i | 0 <= i < |init| ensures lo <= init[i] <= hi {
          assert init[i] == scores[i];
        }
      }
      SumWithin(init, lo, hi);
      assert lo <= scores[n] <= hi;
      assert (|scores| as real) * lo == (n as real) * lo + lo;
      assert (|scores| as real) * hi == (n as real) * hi + hi;
    }
  }

  /** The mean of a non-empty list of scores lies between any common lower
      and upper bound of the scores. */
  lemma AverageWithin(scores: seq<real>, lo: real, hi: real)
    requires |scores| > 0
    requires AllWithin(scores, lo, hi)
    ensures lo <= AverageSentiment(scores) <= hi
  {
    var n := |scores| as real;
    var avg := AverageSentiment(scores);
    SumWithin(scores, lo, hi);
    assert avg * n == Sum(scores);
    assert n * lo <= n * avg <= n * hi;
  }

  /** When every headline's compound score is in [-1, 1], so is the
      averaged sentiment, including the 0.0 used for no headlines. */
  lemma AverageIsCompoundScore(scores: seq<real>)
    requires AllWithin(scores, -1.0, 1.0)
    ensures -1.0 <= AverageSentiment(scores) <= 1.0
  {
    if |scores| > 0 {
      AverageWithin(scores, -1.0, 1.0);
    }
  }
}
