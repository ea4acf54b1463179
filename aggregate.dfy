/** The aggregation at the end of `compute`: four category means over fixed
    groups of sub-metric scores, the overload risk read straight from
    sub-metric 15, and four weighted composites, each classified. */
module Aggregate {
  import opened Numeric
  import opened Classify

  /** `{ score, grade, percent }`. */
  datatype Rated = Rated(score: int, grade: string, percent: string)

  datatype Categories = Categories(insight: Rated, timing: Rated, sensitivity: Rated, premonition: Rated)

  datatype Overall = Overall(business: Rated, affinity: Rated, premonitionDream: Rated, riskAvoidance: Rated)

  datatype Summary = Summary(categories: Categories, overall: Overall, overloadRisk: int)

  /** There are twenty sub-metrics; `scores[i]` is the score of sub-metric
      `i + 1`. */
  const SubCount: nat := 20

  function AsReals(xs: seq<int>): (rs: seq<real>)
    ensures |rs| == |xs|
    ensures forall i :: 0 <= i < |xs| ==> rs[i] == xs[i] as real
  {
    if xs == [] then [] else [xs[0] as real] + AsReals(xs[1..])
  }

  /** `avg(...scores)`: the arithmetic mean. */
  function Avg(xs: seq<int>): real
    requires xs != []
  {
    Sum(AsReals(xs)) / |xs| as real
  }

  /** The mean of scores in [lo, hi] lies in [lo, hi]. */
  lemma AvgBounds(xs: seq<int>, lo: int, hi: int)
    requires xs != []
    requires forall i :: 0 <= i < |xs| ==> lo <= xs[i] <= hi
    ensures lo as real <= Avg(xs) <= hi as real
  {
    var rs := AsReals(xs);
    SumAtMost(rs, hi as real);
    SumAtLeast(rs, lo as real);
    QuotientBounds(Sum(rs), |xs| as real, lo as real, hi as real);
  }

  function InsightAvg(scores: seq<int>): real
    requires |scores| == SubCount
  {
    Avg(scores[0..5])
  }

  function TimingAvg(scores: seq<int>): real
    requires |scores| == SubCount
  {
    Avg(scores[5..10])
  }

  /** Sub-metrics 11 to 14: the fifteenth is the overload risk. */
  function SensitivityAvg(scores: seq<int>): real
    requires |scores| == SubCount
  {
    Avg(scores[10..14])
  }

  function PremonitionAvg(scores: seq<int>): real
    requires |scores| == SubCount
  {
    Avg(scores[15..20])
  }

  function Business(timingAvg: real, insightAvg: real, overloadRisk: int): int {
    Round(0.45 * timingAvg + 0.35 * insightAvg + 0.20 * (100 - overloadRisk) as real)
  }

  function Affinity(s11: int, s12: int, s13: int): int {
    Round(0.55 * s11 as real + 0.25 * s12 as real + 0.20 * s13 as real)
  }

  function PremonitionDream(s19: int, s16: int, s20: int): int {
    Round(0.55 * s19 as real + 0.25 * s16 as real + 0.20 * s20 as real)
  }

  function RiskAvoidance(s3: int, s7: int, overloadRisk: int): int {
    Round(0.50 * s3 as real + 0.20 * s7 as real + 0.30 * (100 - overloadRisk) as real)
  }

  /** `{ score, grade, percent }` whose score is the nearest integer to `x`
      and whose labels are those of the band of `x`. */
  ghost predicate RatedFrom(r: Rated, x: real) {
    && r.score as real - 0.5 <= x < r.score as real + 0.5
    && r.grade == GradeLabels[Band(x)] && r.percent == PercentLabels[Band(x)]
  }

  /** A category: rounded score, classified by the unrounded mean. */
  function RateMean(avg: real): (r: Rated)
    ensures RatedFrom(r, avg)
  {
    Rated(Round(avg), Grade(avg), PercentBand(avg))
  }

  /** A composite: already rounded, classified by the rounded score. */
  function RateScore(n: int): (r: Rated)
    ensures r.score == n && RatedFrom(r, n as real)
  {
    RoundOfInteger(n);
    Rated(n, Grade(n as real), PercentBand(n as real))
  }

  ghost predicate InScoreRange(x: int) {
    1 <= x <= 99
  }

  ghost predicate AllInRange(scores: seq<int>) {
    forall i :: 0 <= i < |scores| ==> InScoreRange(scores[i])
  }

  /** The result of `compute` past the sub-metrics: each category is rated by
      its unrounded mean, each composite is its weighted formula rated by its
      own rounded score, the overload risk is sub-metric 15's score, and for
      sub-scores in [1, 99] every score of the summary lies in [1, 99]. */
  function Summarize(scores: seq<int>): (s: Summary)
    requires |scores| == SubCount
    ensures s.overloadRisk == scores[14]
    ensures var c := s.categories;
      && RatedFrom(c.insight, InsightAvg(scores)) && RatedFrom(c.timing, TimingAvg(scores))
      && RatedFrom(c.sensitivity, SensitivityAvg(scores)) && RatedFrom(c.premonition, PremonitionAvg(scores))
    ensures var o := s.overall;
      && o.business.score == Business(TimingAvg(scores), InsightAvg(scores), scores[14])
      && o.affinity.score == Affinity(scores[10], scores[11], scores[12])
      && o.premonitionDream.score == PremonitionDream(scores[18], scores[15], scores[19])
      && o.riskAvoidance.score == RiskAvoidance(scores[2], scores[6], scores[14])
    ensures var o := s.overall;
      && RatedFrom(o.business, o.business.score as real) && RatedFrom(o.affinity, o.affinity.score as real)
      && RatedFrom(o.premonitionDream, o.premonitionDream.score as real)
      && RatedFrom(o.riskAvoidance, o.riskAvoidance.score as real)
    ensures AllInRange(scores) ==>
      && InScoreRange(s.categories.insight.score) && InScoreRange(s.categories.timing.score)
      && InScoreRange(s.categories.sensitivity.score) && InScoreRange(s.categories.premonition.score)
      && InScoreRange(s.overall.business.score) && InScoreRange(s.overall.affinity.score)
      && InScoreRange(s.overall.premonitionDream.score) && InScoreRange(s.overall.riskAvoidance.score)
      && InScoreRange(s.overloadRisk)
  {
    var insight, timing := InsightAvg(scores), TimingAvg(scores);
    var sensitivity, premonition := SensitivityAvg(scores), PremonitionAvg(scores);
    var risk := scores[14];
    assert AllInRange(scores) ==>
      && 1.0 <= insight <= 99.0 && 1.0 <= timing <= 99.0
      && 1.0 <= sensitivity <= 99.0 && 1.0 <= premonition <= 99.0
      && InScoreRange(Business(timing, insight, risk))
      && InScoreRange(Affinity(scores[10], scores[11], scores[12]))
      && InScoreRange(PremonitionDream(scores[18], scores[15], scores[19]))
      && InScoreRange(RiskAvoidance(scores[2], scores[6], risk))
    by {
      if AllInRange(scores) {
        MeansInRange(scores);
        assert InScoreRange(scores[2]) && InScoreRange(scores[6]) && InScoreRange(risk);
        assert InScoreRange(scores[10]) && InScoreRange(scores[11]) && InScoreRange(scores[12]);
        assert InScoreRange(scores[15]) && InScoreRange(scores[18]) && InScoreRange(scores[19]);
        CompositesInRange(timing, insight, scores[10], scores[11], scores[12], risk);
        CompositesInRange(timing, insight, scores[18], scores[15], scores[19], risk);
        CompositesInRange(timing, insight, scores[2], scores[6], scores[12], risk);
      }
    }
    Summary(
      Categories(RateMean(insight), RateMean(timing), RateMean(sensitivity), RateMean(premonition)),
      Overall(RateScore(Business(timing, insight, risk)),
              RateScore(Affinity(scores[10], scores[11], scores[12])),
              RateScore(PremonitionDream(scores[18], scores[15], scores[19])),
              RateScore(RiskAvoidance(scores[2], scores[6], risk))),
      risk)
  }

  lemma {:induction false} SliceInRange(scores: seq<int>, lo: nat, hi: nat)
    requires lo < hi <= |scores| && AllInRange(scores)
    ensures forall i :: 0 <= i < |scores[lo..hi]| ==> 1 <= scores[lo..hi][i] <= 99
  {
    forall i | 0 <= i < |scores[lo..hi]| ensures 1 <= scores[lo..hi][i] <= 99 {
      assert scores[lo..hi][i] == scores[lo + i];
    }
  }

  /** Given sub-scores in [1, 99], each of the four category means, over
      sub-metrics 1-5, 6-10, 11-14 and 16-20, lies in [1, 99]. */
  lemma MeansInRange(scores: seq<int>)
    requires |scores| == SubCount && AllInRange(scores)
    ensures 1.0 <= InsightAvg(scores) <= 99.0 && 1.0 <= TimingAvg(scores) <= 99.0
    ensures 1.0 <= SensitivityAvg(scores) <= 99.0 && 1.0 <= PremonitionAvg(scores) <= 99.0
  {
    SliceInRange(scores, 0, 5);
    AvgBounds(scores[0..5], 1, 99);
    SliceInRange(scores, 5, 10);
    AvgBounds(scores[5..10], 1, 99);
    SliceInRange(scores, 10, 14);
    AvgBounds(scores[10..14], 1, 99);
    SliceInRange(scores, 15, 20);
    AvgBounds(scores[15..20], 1, 99);
  }

  /** Each composite is a weighted mean, with weights summing to 1, of values
      in [1, 99] (the complement 100 - risk included), so it lies in [1, 99]. */
  lemma CompositesInRange(t: real, i: real, a: int, b: int, c: int, risk: int)
    requires 1.0 <= t <= 99.0 && 1.0 <= i <= 99.0
    requires InScoreRange(a) && InScoreRange(b) && InScoreRange(c) && InScoreRange(risk)
    ensures InScoreRange(Business(t, i, risk))
    ensures InScoreRange(Affinity(a, b, c)) && InScoreRange(PremonitionDream(a, b, c))
    ensures InScoreRange(RiskAvoidance(a, b, risk))
  {
    RoundInRange(0.45 * t + 0.35 * i + 0.20 * (100 - risk) as real, 1, 99);
    RoundInRange(0.55 * a as real + 0.25 * b as real + 0.20 * c as real, 1, 99);
    RoundInRange(0.50 * a as real + 0.20 * b as real + 0.30 * (100 - risk) as real, 1, 99);
  }

  /** A higher overload risk never raises either composite it feeds, and
      higher category means never lower the business composite. */
  lemma CompositesMonotone(t1: real, t2: real, i1: real, i2: real, s3: int, s7: int, r1: int, r2: int)
    requires t1 <= t2 && i1 <= i2 && r1 >= r2
    ensures Business(t1, i1, r1) <= Business(t2, i2, r2)
    ensures RiskAvoidance(s3, s7, r1) <= RiskAvoidance(s3, s7, r2)
  {
    RoundMonotone(0.45 * t1 + 0.35 * i1 + 0.20 * (100 - r1) as real,
                  0.45 * t2 + 0.35 * i2 + 0.20 * (100 - r2) as real);
    RoundMonotone(0.50 * s3 as real + 0.20 * s7 as real + 0.30 * (100 - r1) as real,
                  0.50 * s3 as real + 0.20 * s7 as real + 0.30 * (100 - r2) as real);
  }

  /** Weights summing to one: when every term of a composite equals the same
      score, the composite is that score. */
  lemma CompositesOfEqualTerms(v: int)
    ensures Business(v as real, v as real, 100 - v) == v
    ensures Affinity(v, v, v) == v && PremonitionDream(v, v, v) == v
    ensures RiskAvoidance(v, v, 100 - v) == v
  {
    RoundOfInteger(v);
    assert 0.45 * v as real + 0.35 * v as real + 0.20 * (100 - (100 - v)) as real == v as real;
    assert 0.55 * v as real + 0.25 * v as real + 0.20 * v as real == v as real;
    assert 0.50 * v as real + 0.20 * v as real + 0.30 * (100 - (100 - v)) as real == v as real;
  }
}
