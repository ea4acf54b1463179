/** Per-metric scoring: the saturating transform `toScore`, the style
    blender of `subSkillStyled`, and the two result builders `subSkill` and
    `subSkillStyled`, which feed the transformed score through the pattern
    bonus engine and classify the unrounded final score.

    `Math.tanh` is not modelled: every member that needs it takes the
    hyperbolic tangent as a parameter `tanh`, and a lemma that needs its
    range or its shape says so in its `requires`. */
module SubSkills {
  import opened Numeric
  import opened Classify
  import opened Patterns

  datatype Option<T> = None | Some(value: T)

  /** One candidate style of a metric and its raw signal. */
  datatype Style = Style(name: string, raw: real)

  /** The record built for one sub-metric; `style` is absent for an
      unstyled metric. */
  datatype SubResult = SubResult(
    id: int,
    name: string,
    style: Option<string>,
    base: int,
    bonus: real,
    fired: seq<string>,
    score: int,
    grade: string,
    percent: string)

  /** Centre and gain of the transform `50 + 38 * tanh(raw / scale)`. */
  const Center: real := 50.0
  const Gain: real := 38.0

  /** `toScore(raw, scale)`: always in [1, 99]; when tanh stays inside
      (-1, 1) the clamp never bites and the score lies in (12, 88). */
  function ToScore(raw: real, scale: real, tanh: real -> real): (r: real)
    requires scale != 0.0
    ensures 1.0 <= r <= 99.0
    ensures -1.0 < tanh(raw / scale) < 1.0 ==>
              r == Center + Gain * tanh(raw / scale) && 12.0 < r < 88.0
  {
    Clamp(Center + Gain * tanh(raw / scale), 1.0, 99.0)
  }

  lemma DivMonotone(x: real, y: real, d: real)
    requires x <= y && d > 0.0
    ensures x / d <= y / d
  {
    assert y / d - x / d == (y - x) / d;
  }

  /** With a non-decreasing tanh and a positive scale, a larger raw signal
      never gives a lower score. */
  lemma ToScoreMonotone(x: real, y: real, scale: real, tanh: real -> real)
    requires x <= y && scale > 0.0
    requires forall s, t :: s <= t ==> tanh(s) <= tanh(t)
    ensures ToScore(x, scale, tanh) <= ToScore(y, scale, tanh)
  {
    DivMonotone(x, y, scale);
    ClampMonotone(Center + Gain * tanh(x / scale), Center + Gain * tanh(y / scale), 1.0, 99.0);
  }

  /** A zero raw signal scores exactly 50. */
  lemma ToScoreOfZero(scale: real, tanh: real -> real)
    requires scale != 0.0 && tanh(0.0) == 0.0
    ensures ToScore(0.0, scale, tanh) == 50.0
  {
    assert 0.0 / scale == 0.0;
  }

  // ----- the style blender -----

  function Raws(styles: seq<Style>): (rs: seq<real>)
    ensures |rs| == |styles|
    ensures forall i :: 0 <= i < |styles| ==> rs[i] == styles[i].raw
  {
    if styles == [] then [] else [styles[0].raw] + Raws(styles[1..])
  }

  /** `Array.prototype.indexOf`: the first position holding `v`, or -1. */
  function IndexOf(vs: seq<real>, v: real): (i: int)
    ensures -1 <= i && (i == -1 <==> v !in vs)
    ensures 0 <= i ==> i < |vs| && vs[i] == v && v !in vs[..i]
  {
    if vs == [] then -1
    else if vs[0] == v then 0
    else
      var j := IndexOf(vs[1..], v);
      assert vs == [vs[0]] + vs[1..];
      if j == -1 then -1
      else
        assert vs[..j + 1] == [vs[0]] + vs[1..][..j];
        j + 1
  }

  /** `raws.reduce((a, b) => a + b, 0) / Math.max(1, raws.length)`. */
  function MeanRaw(raws: seq<real>): real {
    Sum(raws) / (if |raws| < 1 then 1 else |raws|) as real
  }

  lemma MeanAtMostMax(raws: seq<real>)
    requires raws != []
    ensures MeanRaw(raws) <= MaxOf(raws)
  {
    var m := MaxOf(raws);
    SumAtMost(raws, m);
    SumAtLeast(raws, MinBound(raws));
    QuotientBounds(Sum(raws), |raws| as real, MinBound(raws), m);
  }

  /** A lower bound of the values, to bound their sum from below. */
  function MinBound(raws: seq<real>): (lo: real)
    requires raws != []
    ensures forall i :: 0 <= i < |raws| ==> lo <= raws[i]
  {
    if |raws| == 1 then raws[0]
    else
      var rest := MinBound(raws[1..]);
      assert forall i :: 1 <= i < |raws| ==> raws[i] == raws[1..][i - 1];
      if raws[0] <= rest then raws[0] else rest
  }

  /** `0.7 * max + 0.3 * mean`: between the mean and the maximum, and the
      one raw itself for a single candidate. */
  function Blend(raws: seq<real>): (b: real)
    requires raws != []
    ensures MeanRaw(raws) <= b <= MaxOf(raws)
    ensures |raws| == 1 ==> b == raws[0]
  {
    MeanAtMostMax(raws);
    assert |raws| == 1 ==> Sum(raws) == raws[0] by {
      if |raws| == 1 {
        assert raws[1..] == [];
      }
    }
    0.7 * MaxOf(raws) + 0.3 * MeanRaw(raws)
  }

  /** `raws.indexOf(Math.max(...raws))`: the first candidate whose raw is the
      maximum. */
  function StyleIndex(styles: seq<Style>): (i: nat)
    requires styles != []
    ensures i < |styles|
    ensures forall j :: 0 <= j < |styles| ==> styles[j].raw <= styles[i].raw
    ensures forall j :: 0 <= j < i ==> styles[j].raw < styles[i].raw
  {
    var raws := Raws(styles);
    var i := IndexOf(raws, MaxOf(raws));
    assert forall j :: 0 <= j < i ==> raws[..i][j] == raws[j];
    i
  }

  // ----- the result builders -----

  /** The unrounded final score of a metric whose blended raw is `raw`. */
  function FinalScore(raw: real, scale: real, ps: seq<Pattern>, tanh: real -> real): (f: real)
    requires scale != 0.0
    ensures 1.0 <= f <= 99.0
  {
    ApplyPatterns(ToScore(raw, scale, tanh), ps).final
  }

  /** `subSkill`: an unstyled metric. */
  function SubSkill(id: int, name: string, raw: real, scale: real, ps: seq<Pattern>,
                    tanh: real -> real): (r: SubResult)
    requires scale != 0.0
    ensures r.id == id && r.name == name && r.style == None
    ensures 1 <= r.base <= 99 && 1 <= r.score <= 99
    ensures var b := ToScore(raw, scale, tanh); r.base as real - 0.5 <= b < r.base as real + 0.5
    ensures |r.fired| <= MaxFired
    ensures r.fired == Names(Selected(ps)) && r.bonus == SumAdds(Selected(ps))
    ensures var f := FinalScore(raw, scale, ps, tanh);
              r.score as real - 0.5 <= f < r.score as real + 0.5 &&
              r.grade == Grade(f) && r.percent == PercentBand(f)
  {
    var base := ToScore(raw, scale, tanh);
    var applied := ApplyPatterns(base, ps);
    RoundInRange(base, 1, 99);
    RoundInRange(applied.final, 1, 99);
    SubResult(id, name, None, Round(base), applied.bonus, applied.fired,
              Round(applied.final), Grade(applied.final), PercentBand(applied.final))
  }

  /** `subSkillStyled`: blends the candidates' raws and reports the first
      candidate with the largest raw as the dominant style. */
  function SubSkillStyled(id: int, name: string, styles: seq<Style>, scale: real,
                          ps: seq<Pattern>, tanh: real -> real): (r: SubResult)
    requires styles != [] && scale != 0.0
    ensures r.id == id && r.name == name
    ensures r.style == Some(styles[StyleIndex(styles)].name)
    ensures 1 <= r.base <= 99 && 1 <= r.score <= 99
    ensures var b := ToScore(Blend(Raws(styles)), scale, tanh);
              r.base as real - 0.5 <= b < r.base as real + 0.5
    ensures |r.fired| <= MaxFired
    ensures r.fired == Names(Selected(ps)) && r.bonus == SumAdds(Selected(ps))
    ensures var f := FinalScore(Blend(Raws(styles)), scale, ps, tanh);
              r.score as real - 0.5 <= f < r.score as real + 0.5 &&
              r.grade == Grade(f) && r.percent == PercentBand(f)
  {
    var raws := Raws(styles);
    var base := ToScore(Blend(raws), scale, tanh);
    var applied := ApplyPatterns(base, ps);
    RoundInRange(base, 1, 99);
    RoundInRange(applied.final, 1, 99);
    SubResult(id, name, Some(styles[StyleIndex(styles)].name), Round(base), applied.bonus,
              applied.fired, Round(applied.final), Grade(applied.final), PercentBand(applied.final))
  }

  /** A styled metric with a single candidate is the unstyled metric of that
      candidate's raw, plus the candidate's name. */
  lemma SingleStyleIsUnstyled(id: int, name: string, s: Style, scale: real,
                              ps: seq<Pattern>, tanh: real -> real)
    requires scale != 0.0
    ensures SubSkillStyled(id, name, [s], scale, ps, tanh) ==
              SubSkill(id, name, s.raw, scale, ps, tanh).(style := Some(s.name))
  {
    assert Blend(Raws([s])) == s.raw;
  }

  /** A styled metric whose candidates blend to 0 and none of whose
      patterns holds scores exactly 50, with nothing fired. */
  lemma NeutralStyledScore(id: int, name: string, styles: seq<Style>, scale: real,
                           ps: seq<Pattern>, tanh: real -> real)
    requires styles != [] && scale != 0.0 && tanh(0.0) == 0.0
    requires Blend(Raws(styles)) == 0.0
    requires forall i :: 0 <= i < |ps| ==> !ps[i].cond
    ensures var r := SubSkillStyled(id, name, styles, scale, ps, tanh);
      r.base == 50 && r.score == 50 && r.bonus == 0.0 && r.fired == [] &&
      r.grade == Grade(50.0) && r.percent == PercentBand(50.0)
  {
    ToScoreOfZero(scale, tanh);
    NothingFires(50.0, ps);
  }

  /** Grades are taken from the unrounded final score, so a score shown as
      82 can carry the grade of the band below 82. */
  lemma GradeIsOfUnroundedScore()
    ensures Round(81.5) == 82
    ensures Grade(81.5) != Grade(82.0) && PercentBand(81.5) != PercentBand(82.0)
  {
    assert Grade(81.5) == "상위" && Grade(82.0) == "최상";
    assert "상위"[0] != "최상"[0];
    assert PercentBand(81.5) == "상위권" && PercentBand(82.0) == "최상위";
    assert "상위권"[0] != "최상위"[0];
  }
}
