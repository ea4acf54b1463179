/** One metric of the pipeline written out in full: sub-metric 1,
    "구조 파악력" (structure insight), with its three styles, its scale 0.45
    and its two patterns, together with the interaction reducer that gives
    it `noise` and `connect`. The other nineteen metrics differ only in
    their constant coefficients and conditions. */
module StructureInsight {
  import opened Numeric
  import opened Classify
  import opened Patterns
  import opened SubSkills

  /** The normalised ten-god proportions 비겁, 식상, 재성, 관성, 인성. */
  datatype TenGods = TenGods(bigyeop: real, siksang: real, jaeseong: real, gwanseong: real, inseong: real)

  /** The normalised element proportions. */
  datatype Elements = Elements(wood: real, fire: real, earth: real, metal: real, water: real)

  /** The interaction counts 합, 충, 형, 파, 해. */
  datatype Interactions = Interactions(he: real, chung: real, hyung: real, pa: real, hae: real)

  /** `noise = 0.50 chung + 0.35 hyung + 0.20 pa + 0.20 hae`: never negative
      for non-negative counts, and unaffected by 합. */
  function Noise(c: Interactions): (n: real)
    ensures c.chung >= 0.0 && c.hyung >= 0.0 && c.pa >= 0.0 && c.hae >= 0.0 ==> n >= 0.0
    ensures c.chung == 0.0 && c.hyung == 0.0 && c.pa == 0.0 && c.hae == 0.0 ==> n == 0.0
  {
    0.50 * c.chung + 0.35 * c.hyung + 0.20 * c.pa + 0.20 * c.hae
  }

  /** `connect = 0.60 he`. */
  function Connect(c: Interactions): (k: real)
    ensures c.he >= 0.0 ==> k >= 0.0
    ensures c.he == 0.0 ==> k == 0.0
  {
    0.60 * c.he
  }

  const Scale: real := 0.45

  function Styles(tg: TenGods, el: Elements, noise: real, connect: real): seq<Style> {
    [ Style("개념형", 1.55 * tg.inseong + 0.95 * tg.siksang - 0.10 * noise),
      Style("판읽기형", 1.35 * tg.gwanseong + 0.70 * el.earth + 0.12 * connect - 0.16 * noise),
      Style("직감형", 1.05 * el.water + 0.70 * tg.inseong + 0.05 * connect - 0.20 * noise) ]
  }

  function Rules(tg: TenGods, noise: real): seq<Pattern> {
    [ Pattern(tg.inseong >= 0.22 && tg.gwanseong >= 0.18, 6.0, "인성+관성 강함"),
      Pattern(noise >= 2.0 && tg.inseong < 0.14, -6.0, "소음 과다+인성 부족") ]
  }

  /** Sub-metric 1 of a profile whose interactions reduce to `noise` and
      `connect`. */
  function Score(tg: TenGods, el: Elements, noise: real, connect: real, tanh: real -> real): (r: SubResult)
    ensures r.id == 1 && r.name == "구조 파악력" && 1 <= r.score <= 99 && |r.fired| <= MaxFired
    ensures r.style.Some? && r.style.value in ["개념형", "판읽기형", "직감형"]
  {
    var styles := Styles(tg, el, noise, connect);
    var r := SubSkillStyled(1, "구조 파악력", styles, Scale, Rules(tg, noise), tanh);
    assert r.style.value == styles[StyleIndex(styles)].name;
    r
  }

  /** A profile with none of the ten-god and element signals this metric
      reads: no 인성, 식상 or 관성, no earth or water. */
  ghost predicate Silent(tg: TenGods, el: Elements) {
    && tg.inseong == 0.0 && tg.siksang == 0.0 && tg.gwanseong == 0.0
    && el.earth == 0.0 && el.water == 0.0
  }

  /** In a silent profile without noise or connection the three candidates
      all have raw 0, so the blend is 0 and the first candidate is the
      dominant one. */
  lemma SilentStyles(tg: TenGods, el: Elements, noise: real, connect: real)
    requires Silent(tg, el) && noise == 0.0 && connect == 0.0
    ensures var st := Styles(tg, el, noise, connect);
      Blend(Raws(st)) == 0.0 && StyleIndex(st) == 0 && st[0].name == "개념형"
  {
    var st := Styles(tg, el, noise, connect);
    var raws := Raws(st);
    assert forall i :: 0 <= i < |raws| ==> raws[i] == 0.0;
    SumAtMost(raws, 0.0);
    SumAtLeast(raws, 0.0);
    assert MaxOf(raws) == 0.0;
  }

  /** Without 인성 and without noise neither rule holds. */
  lemma SilentRules(tg: TenGods, noise: real)
    requires tg.inseong == 0.0 && noise == 0.0
    ensures forall i :: 0 <= i < |Rules(tg, noise)| ==> !Rules(tg, noise)[i].cond
  {
  }

  /** A silent profile without noise or connection: no pattern fires, every
      raw is 0 and the metric scores exactly 50, graded in the lowest band. */
  lemma SilentProfileScoresFifty(tg: TenGods, el: Elements, noise: real, connect: real, tanh: real -> real)
    requires Silent(tg, el) && noise == 0.0 && connect == 0.0 && tanh(0.0) == 0.0
    ensures var r := Score(tg, el, noise, connect, tanh);
      r.base == 50 && r.score == 50 && r.bonus == 0.0 && r.fired == [] &&
      r.grade == "하위" && r.style == Some("개념형")
  {
    SilentStyles(tg, el, noise, connect);
    SilentRules(tg, noise);
    NeutralStyledScore(1, "구조 파악력", Styles(tg, el, noise, connect), Scale, Rules(tg, noise), tanh);
    assert Grade(50.0) == "하위";
  }

  /** With 인성 below 0.14 and noise at least 2.0, the first rule cannot hold
      and the noise rule is the one selected. */
  lemma NoiseRuleSelected(tg: TenGods, noise: real)
    requires tg.inseong < 0.14 && noise >= 2.0
    ensures Selected(Rules(tg, noise)) == [Rules(tg, noise)[1]]
  {
    var ps := Rules(tg, noise);
    var p := ps[1];
    assert ps[1..] == [p] && [p][1..] == [];
    assert Eligible([p]) == [p] + Eligible([]);
    assert Eligible(ps) == [p];
    assert SortByMag([p]) == InsertByMag(p, []);
  }

  /** With noise at least 2.0 and 인성 below 0.14 exactly the noise rule
      fires, once, and takes 6 off the base score. */
  lemma NoiseRuleFires(tg: TenGods, el: Elements, noise: real, connect: real, tanh: real -> real)
    requires tg.inseong < 0.14 && noise >= 2.0
    ensures var r := Score(tg, el, noise, connect, tanh);
      r.fired == ["소음 과다+인성 부족"] && r.bonus == -6.0
  {
    NoiseRuleSelected(tg, noise);
    var p := Rules(tg, noise)[1];
    assert Names([p]) == [p.name];
    assert SumAdds([p]) == p.add + SumAdds([]);
  }

  /** From the interaction counts: four or more 충 (with no negative count
      among 형, 파, 해) give noise at least 2.0, so with 인성 below 0.14
      sub-metric 1 fires exactly the noise rule, with bonus -6, whatever the
      number of 합. */
  lemma FourClashesFireNoiseRule(tg: TenGods, el: Elements, c: Interactions, tanh: real -> real)
    requires tg.inseong < 0.14
    requires c.chung >= 4.0 && c.hyung >= 0.0 && c.pa >= 0.0 && c.hae >= 0.0
    ensures var r := Score(tg, el, Noise(c), Connect(c), tanh);
      r.fired == ["소음 과다+인성 부족"] && r.bonus == -6.0
  {
    var noise, connect := Noise(c), Connect(c);
    assert noise >= 2.0;
    NoiseRuleFires(tg, el, noise, connect, tanh);
  }

  /** From the interaction counts: with no interaction at all a silent
      profile scores exactly 50, fires nothing and reports 개념형. */
  lemma NoInteractionsScoreFifty(tg: TenGods, el: Elements, c: Interactions, tanh: real -> real)
    requires Silent(tg, el) && tanh(0.0) == 0.0
    requires c == Interactions(0.0, 0.0, 0.0, 0.0, 0.0)
    ensures var r := Score(tg, el, Noise(c), Connect(c), tanh);
      r.base == 50 && r.score == 50 && r.bonus == 0.0 && r.fired == [] &&
      r.grade == "하위" && r.style == Some("개념형")
  {
    var noise, connect := Noise(c), Connect(c);
    SilentProfileScoresFifty(tg, el, noise, connect, tanh);
  }
}
