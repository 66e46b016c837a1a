/**
 * The two charts over a list of scored leads (src/components/QualityChart.tsx):
 * counts per quality tier, and counts per score range of twenty points.
 */
module QualityChart {
  import opened Quality
  import opened LeadCard

  function Scores(leads: seq<Lead>): (s: seq<real>)
    ensures |s| == |leads|
    ensures forall i :: 0 <= i < |leads| ==> s[i] == leads[i].qualityScore
  {
    seq(|leads|, i requires 0 <= i < |leads| => leads[i].qualityScore)
  }

  /** How many of the scores lie in tier `t`. */
  function TierCount(scores: seq<real>, t: Tier): nat
  {
    if |scores| == 0 then 0
    else TierCount(scores[..|scores| - 1], t) + (if InTier(scores[|scores| - 1], t) then 1 else 0)
  }

  /** The captions of the five score ranges, lowest first. */
  const RangeLabels: seq<string> := ["0-20%", "21-40%", "41-60%", "61-80%", "81-100%"]

  /**
   * Range `b` holds the scores whose percentage exceeds 20 * b and is at most
   * 20 * (b + 1); the first range is open below and the last open above.
   */
  predicate InRange(score: real, b: nat)
  {
    && b < 5
    && (b == 0 || 20.0 * b as real < score * 100.0)
    && (b == 4 || score * 100.0 <= 20.0 * (b + 1) as real)
  }

  /** The range a score falls in. */
  function RangeOf(score: real): (b: nat)
    ensures InRange(score, b)
    ensures forall c :: InRange(score, c) <==> c == b
  {
    if score * 100.0 <= 20.0 then 0
    else if score * 100.0 <= 40.0 then 1
    else if score * 100.0 <= 60.0 then 2
    else if score * 100.0 <= 80.0 then 3
    else 4
  }

  /** How many of the scores lie in range `b`. */
  function RangeCount(scores: seq<real>, b: nat): nat
  {
    if |scores| == 0 then 0
    else RangeCount(scores[..|scores| - 1], b) + (if InRange(scores[|scores| - 1], b) then 1 else 0)
  }

  /** The accumulator of the tier count. */
  datatype Distribution = Distribution(high: nat, medium: nat, low: nat)

  /** `qualityDistribution`: one pass over the leads, adding each to the counter of its tier. */
  method QualityDistribution(leads: seq<Lead>) returns (acc: Distribution)
    ensures acc.high == TierCount(Scores(leads), High)
    ensures acc.medium == TierCount(Scores(leads), Medium)
    ensures acc.low == TierCount(Scores(leads), Low)
  {
    acc := Distribution(0, 0, 0);
    ghost var scores := Scores(leads);
    var i := 0;
    while i < |leads|
      invariant 0 <= i <= |leads|
      invariant acc.high == TierCount(scores[..i], High)
      invariant acc.medium == TierCount(scores[..i], Medium)
      invariant acc.low == TierCount(scores[..i], Low)
    {
      var lead := leads[i];
      if lead.qualityScore >= 0.8 {
        acc := acc.(high := acc.high + 1);
      } else if lead.qualityScore >= 0.6 {
        acc := acc.(medium := acc.medium + 1);
      } else {
        acc := acc.(low := acc.low + 1);
      }
      assert scores[..i + 1][..i] == scores[..i];
      i := i + 1;
    }
    assert scores[..|leads|] == scores;
  }

  /** One bar of the range chart. */
  datatype ScoreRange = ScoreRange(range: string, count: nat)

  /** `scoreRanges`: five bars starting at zero; each lead adds one to the bar of its range. */
  method ScoreRanges(leads: seq<Lead>) returns (ranges: seq<ScoreRange>)
    ensures |ranges| == 5
    ensures forall b :: 0 <= b < 5 ==> ranges[b] == ScoreRange(RangeLabels[b], RangeCount(Scores(leads), b))
  {
    var bars := new ScoreRange[5][
      ScoreRange("0-20%", 0), ScoreRange("21-40%", 0), ScoreRange("41-60%", 0),
      ScoreRange("61-80%", 0), ScoreRange("81-100%", 0)];
    ghost var scores := Scores(leads);
    var i := 0;
    while i < |leads|
      invariant 0 <= i <= |leads|
      invariant forall b :: 0 <= b < 5 ==> bars[b] == ScoreRange(RangeLabels[b], RangeCount(scores[..i], b))
    {
      var score := leads[i].qualityScore * 100.0;
      if score <= 20.0 {
        bars[0] := bars[0].(count := bars[0].count + 1);
      } else if score <= 40.0 {
        bars[1] := bars[1].(count := bars[1].count + 1);
      } else if score <= 60.0 {
        bars[2] := bars[2].(count := bars[2].count + 1);
      } else if score <= 80.0 {
        bars[3] := bars[3].(count := bars[3].count + 1);
      } else {
        bars[4] := bars[4].(count := bars[4].count + 1);
      }
      assert scores[..i + 1][..i] == scores[..i];
      i := i + 1;
    }
    assert scores[..|leads|] == scores;
    ranges := bars[..];
  }

  /** The three tier counts add up to the number of leads. */
  lemma {:induction false} TierCountsSum(scores: seq<real>)
    ensures TierCount(scores, High) + TierCount(scores, Medium) + TierCount(scores, Low) == |scores|
  {
    if |scores| > 0 {
      TierCountsSum(scores[..|scores| - 1]);
      TiersPartition(scores[|scores| - 1]);
    }
  }

  /** The five range counts add up to the number of leads. */
  lemma {:induction false} RangeCountsSum(scores: seq<real>)
    ensures RangeCount(scores, 0) + RangeCount(scores, 1) + RangeCount(scores, 2)
          + RangeCount(scores, 3) + RangeCount(scores, 4) == |scores|
  {
    if |scores| > 0 {
      RangeCountsSum(scores[..|scores| - 1]);
      var b := RangeOf(scores[|scores| - 1]);
    }
  }

  /** No leads, no counts. */
  lemma EmptyCountsNothing(t: Tier, b: nat)
    ensures TierCount([], t) == 0 && RangeCount([], b) == 0
  {
  }

  /**
   * One more lead adds one to the counter of its tier and to the counter of
   * its range, and leaves every other counter as it was.
   */
  lemma AddOneLead(scores: seq<real>, x: real)
    ensures forall t :: TierCount(scores + [x], t) == TierCount(scores, t) + (if t == TierOf(x) then 1 else 0)
    ensures forall b :: 0 <= b < 5 ==>
      RangeCount(scores + [x], b) == RangeCount(scores, b) + (if b == RangeOf(x) then 1 else 0)
  {
    assert (scores + [x])[..|scores|] == scores;
    TiersPartition(x);
  }

  /**
   * The two charts split the scores at the same points except at 0.6 and
   * 0.8: there the tiers include the boundary above and the ranges below.
   */
  lemma TiersVersusRanges(score: real)
    ensures InTier(score, High) <==> InRange(score, 4) || score == 0.8
    ensures InTier(score, Medium) <==> (InRange(score, 3) && score != 0.8) || score == 0.6
    ensures InTier(score, Low) <==> InRange(score, 0) || InRange(score, 1) || (InRange(score, 2) && score != 0.6)
  {
  }

  /** A score of 0.8 is High yet shown in "61-80%"; 0.6 is Medium yet shown in "41-60%". */
  lemma BoundaryScores()
    ensures InTier(0.8, High) && RangeOf(0.8) == 3 && RangeLabels[3] == "61-80%"
    ensures InTier(0.6, Medium) && RangeOf(0.6) == 2 && RangeLabels[2] == "41-60%"
  {
  }

  /** Scores 0.9, 0.7, 0.5 and 0.85 count as two High, one Medium and one Low. */
  lemma FourLeadExample()
    ensures TierCount([0.9, 0.7, 0.5, 0.85], High) == 2
    ensures TierCount([0.9, 0.7, 0.5, 0.85], Medium) == 1
    ensures TierCount([0.9, 0.7, 0.5, 0.85], Low) == 1
  {
    AddOneLead([], 0.9);
    assert [] + [0.9] == [0.9];
    AddOneLead([0.9], 0.7);
    assert [0.9] + [0.7] == [0.9, 0.7];
    AddOneLead([0.9, 0.7], 0.5);
    assert [0.9, 0.7] + [0.5] == [0.9, 0.7, 0.5];
    AddOneLead([0.9, 0.7, 0.5], 0.85);
    assert [0.9, 0.7, 0.5] + [0.85] == [0.9, 0.7, 0.5, 0.85];
  }
}
