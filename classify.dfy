/** The classifier: two five-band threshold ladders (`grade` and
    `percentBand`) over the same thresholds 82/72/62/52, highest first,
    first match wins, each bound inclusive. */
module Classify {

  /** The ladder's thresholds, highest first. */
  const Thresholds: seq<real> := [82.0, 72.0, 62.0, 52.0]

  /** Labels of `grade`, band 0 (top) to band 4 (bottom). */
  const GradeLabels: seq<string> := ["최상", "상위", "중상", "중위", "하위"]

  /** Labels of `percentBand`, band 0 (top) to band 4 (bottom). */
  const PercentLabels: seq<string> := ["최상위", "상위권", "평균 이상", "평균권", "하위권"]

  ghost predicate Descending(ts: seq<real>) {
    forall i, j :: 0 <= i < j < |ts| ==> ts[i] > ts[j]
  }

  /** How many of the thresholds `ts` the score reaches. */
  function Reached(score: real, ts: seq<real>): (n: nat)
    ensures n <= |ts|
  {
    if ts == [] then 0
    else (if score >= ts[0] then 1 else 0) + Reached(score, ts[1..])
  }

  /** Over descending thresholds the reached ones are exactly a suffix, of
      length `Reached`. */
  lemma {:induction false} ReachedIsSuffix(score: real, ts: seq<real>)
    requires Descending(ts)
    ensures forall i :: 0 <= i < |ts| ==> (score >= ts[i] <==> |ts| - Reached(score, ts) <= i)
  {
    if ts != [] {
      assert Descending(ts[1..]);
      ReachedIsSuffix(score, ts[1..]);
      forall i | 0 <= i < |ts|
        ensures score >= ts[i] <==> |ts| - Reached(score, ts) <= i
      {
        if i > 0 {
          assert ts[i] == ts[1..][i - 1];
        }
      }
    }
  }

  /** The band index, 0 (top) to 4 (bottom), defined by counting reached
      thresholds rather than by a ladder: the score reaches threshold `i`
      exactly when its band is `i` or better. */
  function Band(score: real): (b: nat)
    ensures b < 5
    ensures forall i :: 0 <= i < |Thresholds| ==> (score >= Thresholds[i] <==> b <= i)
  {
    ReachedIsSuffix(score, Thresholds);
    |Thresholds| - Reached(score, Thresholds)
  }

  /** The score reaches threshold `i` exactly when its band is `i` or
      better, for each of the four thresholds. */
  lemma BandThresholds(score: real)
    ensures var b := Band(score);
      && (score >= 82.0 <==> b <= 0) && (score >= 72.0 <==> b <= 1)
      && (score >= 62.0 <==> b <= 2) && (score >= 52.0 <==> b <= 3)
  {
    var b := Band(score);
    assert score >= Thresholds[0] <==> b <= 0;
    assert score >= Thresholds[1] <==> b <= 1;
    assert score >= Thresholds[2] <==> b <= 2;
    assert score >= Thresholds[3] <==> b <= 3;
  }

  /** `grade`: the label of the score's band. */
  function Grade(score: real): (g: string)
    ensures g == GradeLabels[Band(score)]
  {
    BandThresholds(score);
    if score >= 82.0 then "최상"
    else if score >= 72.0 then "상위"
    else if score >= 62.0 then "중상"
    else if score >= 52.0 then "중위"
    else "하위"
  }

  /** `percentBand`: the label of the score's band, over the same thresholds
      as `grade`. */
  function PercentBand(score: real): (p: string)
    ensures p == PercentLabels[Band(score)]
  {
    BandThresholds(score);
    if score >= 82.0 then "최상위"
    else if score >= 72.0 then "상위권"
    else if score >= 62.0 then "평균 이상"
    else if score >= 52.0 then "평균권"
    else "하위권"
  }

  /** A higher score never lands in a lower band. */
  lemma BandMonotone(x: real, y: real)
    requires x <= y
    ensures Band(y) <= Band(x)
  {
    var b1 := Band(x);
    if b1 < 4 {
      assert x >= Thresholds[b1];
    }
  }

  lemma LabelsDistinct()
    ensures forall i, j :: 0 <= i < j < 5 ==> GradeLabels[i] != GradeLabels[j]
    ensures forall i, j :: 0 <= i < j < 5 ==> PercentLabels[i] != PercentLabels[j]
  {
    assert GradeLabels[0][0] != GradeLabels[1][0];
    assert GradeLabels[0][0] != GradeLabels[2][0];
    assert GradeLabels[0][0] != GradeLabels[3][0];
    assert GradeLabels[0][0] != GradeLabels[4][0];
    assert GradeLabels[1][0] != GradeLabels[2][0];
    assert GradeLabels[1][0] != GradeLabels[3][0];
    assert GradeLabels[1][0] != GradeLabels[4][0];
    assert GradeLabels[2][1] != GradeLabels[3][1];
    assert GradeLabels[2][0] != GradeLabels[4][0];
    assert GradeLabels[3][0] != GradeLabels[4][0];
    assert PercentLabels[0][0] != PercentLabels[1][0];
    assert |PercentLabels[0]| != |PercentLabels[2]|;
    assert PercentLabels[0][0] != PercentLabels[3][0];
    assert PercentLabels[0][0] != PercentLabels[4][0];
    assert PercentLabels[1][0] != PercentLabels[2][0];
    assert PercentLabels[1][0] != PercentLabels[3][0];
    assert PercentLabels[1][0] != PercentLabels[4][0];
    assert |PercentLabels[2]| != |PercentLabels[3]|;
    assert PercentLabels[2][0] != PercentLabels[4][0];
    assert PercentLabels[3][0] != PercentLabels[4][0];
  }

  /** Two scores get the same grade exactly when they get the same
      percentile band (and exactly when they fall in the same band). */
  lemma GradeMatchesPercentBand(x: real, y: real)
    ensures Grade(x) == Grade(y) <==> Band(x) == Band(y)
    ensures PercentBand(x) == PercentBand(y) <==> Band(x) == Band(y)
  {
    LabelsDistinct();
    var b1, b2 := Band(x), Band(y);
    if b1 != b2 {
      if b1 < b2 {
        assert GradeLabels[b1] != GradeLabels[b2];
        assert PercentLabels[b1] != PercentLabels[b2];
      } else {
        assert GradeLabels[b2] != GradeLabels[b1];
        assert PercentLabels[b2] != PercentLabels[b1];
      }
    }
  }
}
