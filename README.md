# Intuition engine scoring pipeline in Dafny

`intuition_engine.js` scores a personal profile. The profile has five ten-god
proportions (비겁, 식상, 재성, 관성, 인성), five element proportions and five
interaction counts (합, 충, 형, 파, 해). The engine produces twenty
"intuition" sub-metrics, four category means, four weighted composites and
an overload risk. Every sub-metric is built the same way:

1. candidate raw signals are blended into one raw;
2. the raw goes through a saturating transform `50 + 38·tanh(raw/scale)`,
   clamped to [1, 99];
3. a pattern bonus engine adds the adjustments of the at most two
   largest-magnitude patterns whose condition holds, and clamps again;
4. the unrounded final score is classified by two five-band threshold
   ladders.

This project models that pipeline generically:

- over a list of candidate `(name, raw)` styles;
- over a list of already-evaluated `(cond, add, name)` patterns;
- together with the proportion normaliser `normalizeAuto` and the
  aggregation at the end of `compute`.

It also proves the properties the code's design promises. Sub-metric 1
(구조 파악력) is written out in full as an example instantiation.

Modules, one per part of the engine:

- `Numeric` (`numeric.dfy`): `clamp`, `pos`, `Math.round`, sums and maxima.
- `Classify` (`classify.dfy`): `grade` and `percentBand`, and the shared band
  index behind them.
- `Patterns` (`patterns.dfy`): `applyPatterns`, with a stable descending sort
  by `|add|`.
- `Normalize` (`normalize.dfy`): `normalizeAuto`. It is a method that fills
  the result map key by key, as the source's `for … in` loops do. It is
  proved against the function `Normalized` on the value sequence.
- `SubSkills` (`subskill.dfy`): `toScore`, the style blender, `subSkill` and
  `subSkillStyled`.
- `Aggregate` (`aggregate.dfy`): the category means, the four composites and
  the overload risk.
- `StructureInsight` (`structure_insight.dfy`): sub-metric 1, its interaction
  reducer (`noise`, `connect`) and two worked scenarios.

The source defines `pos` (line 15) and `subSkill` (lines 76-89) but never
calls them: all twenty metrics go through `subSkillStyled`. `Numeric.Pos` and
`SubSkills.SubSkill` therefore model code that the engine does not run.

`Math.tanh` is a parameter `tanh: real -> real` of every member that needs
it. A lemma that relies on its range or shape states that in its `requires`.

## Model

| member | source | states |
|---|---|---|
| Numeric.Clamp | intuition_engine.js:14 | result in [a, b] when a ≤ b; equals x inside the range, the nearer bound outside it; the lower bound when the bounds are inverted |
| Numeric.ClampIdempotent | intuition_engine.js:14 | clamping a clamped value changes nothing |
| Numeric.ClampMonotone | intuition_engine.js:14 | clamping preserves order |
| Numeric.Pos | intuition_engine.js:15 | result is the positive part: ≥ 0, ≥ x, x itself when x ≥ 0, 0 otherwise |
| Numeric.Round | intuition_engine.js:82 | `Math.round` gives the integer r with r − 0.5 ≤ x < r + 0.5 (halves go up) |
| Numeric.RoundMonotone | intuition_engine.js:85 | rounding preserves order |
| Numeric.RoundInRange | intuition_engine.js:85 | rounding a value between two integers stays between them |
| Numeric.MaxOf | intuition_engine.js:93 | `Math.max(...vs)` is an element of vs and bounds every element |
| SubSkills.ToScore | intuition_engine.js:18-20 | score always in [1, 99]; when tanh lies in (−1, 1) the clamp does not bite, the score is 50 + 38·tanh(raw/scale) and lies in (12, 88) |
| SubSkills.ToScoreMonotone | intuition_engine.js:18-20 | with a non-decreasing tanh and a positive scale, a larger raw never scores lower |
| SubSkills.ToScoreOfZero | intuition_engine.js:18-20 | a zero raw scores exactly 50 when tanh(0) = 0 |
| Classify.Band | intuition_engine.js:22-36 | band index 0..4, where the score reaches threshold i of 82/72/62/52 exactly when the band is i or better |
| Classify.ReachedIsSuffix | intuition_engine.js:22-36 | over descending thresholds the reached ones form a suffix whose length is the count of reached thresholds |
| Classify.BandThresholds | intuition_engine.js:22-36 | the band is at most 0, 1, 2, 3 exactly when the score reaches 82, 72, 62, 52 respectively |
| Classify.Grade | intuition_engine.js:22-28 | the grade of a score is the grade label of its band, so the first threshold it reaches decides |
| Classify.PercentBand | intuition_engine.js:30-36 | the percentile band of a score is the percentile label of the same band |
| Classify.BandMonotone | intuition_engine.js:22-36 | a higher score never yields a lower band |
| Classify.LabelsDistinct | intuition_engine.js:22-36 | the five labels of each ladder are pairwise distinct |
| Classify.GradeMatchesPercentBand | intuition_engine.js:22-36 | two scores get equal grades iff equal percentile bands iff equal band indices |
| Patterns.Eligible | intuition_engine.js:39 | `filter(p => p.cond)` keeps each pattern whose condition holds with its multiplicity, and nothing else |
| Patterns.EligibleIsSubsequence | intuition_engine.js:39 | `filter` keeps declaration order: the eligible patterns are, position by position, the patterns at a strictly increasing index sequence that holds exactly the indices whose condition is true |
| Patterns.SortByMagProps | intuition_engine.js:39 | `SortByMag`, the stable `sort` by `|b.add| − |a.add|`, is non-increasing in the magnitude of `add`, a permutation, and keeps every group of equal magnitude in declaration order (stable) |
| Patterns.InsertByMagSorted | intuition_engine.js:39 | inserting into a non-increasing sequence keeps it non-increasing |
| Patterns.InsertByMagMultiset | intuition_engine.js:39 | insertion adds exactly the inserted pattern |
| Patterns.InsertByMagGroups | intuition_engine.js:39 | the inserted pattern goes in front of every pattern of equal magnitude |
| Patterns.SelectedIsPrefix | intuition_engine.js:39 | the fired patterns are the first min(2, #eligible) elements of the sorted eligible ones |
| Patterns.SelectedAreEligible | intuition_engine.js:39 | only patterns whose condition holds fire, each at most as often as it was declared |
| Patterns.SelectedAreLargest | intuition_engine.js:39 | every eligible pattern left out has a magnitude no larger than the smallest fired one |
| Patterns.SelectedOrder | intuition_engine.js:39 | the fired patterns are non-increasing in magnitude, each magnitude group is a prefix of that group among the eligible ones, and all eligible patterns fire when at most two are eligible |
| Patterns.SelectedIsBest | intuition_engine.js:39 | `Selected`, the `slice(0, 2)` of the sorted eligible patterns, gives the fired patterns: number min(2, #eligible), all eligible, non-increasing, the largest ones, ties resolved to the earliest declared; all of them when at most two are eligible |
| Patterns.ApplyPatterns | intuition_engine.js:38-46 | at most 2 names fire; the names and the bonus are exactly those of the selected patterns; final = clamp(base + bonus, 1, 99), so it lies in [1, 99] and equals base + bonus when that is in range; with no condition true, nothing fires, bonus 0, final = clamp(base) |
| Patterns.NothingFires | intuition_engine.js:39-44 | when no condition holds the result is bonus 0, no names, final clamp(base, 1, 99) |
| Normalize.NormalizeAuto | intuition_engine.js:49-73 | the result has exactly the input keys, and each key holds the normalised value of its property |
| Normalize.FillZeros | intuition_engine.js:55-57 | the fallback loop gives exactly the input keys, each mapped to 0 |
| Normalize.FillValues | intuition_engine.js:64-66 | the pass-through loop gives exactly the input keys, each mapped to its own value |
| Normalize.FillDivided | intuition_engine.js:70-72 | the dividing loop gives exactly the input keys, each mapped to its value divided by the sum |
| Normalize.BranchOf | intuition_engine.js:51-69 | the branch is the zero fallback iff sum ≤ 0; the pass-through iff 0.95 < sum < 1.05 and every value ≤ 1.01; the dividing branch iff sum > 0 and the pass-through test fails |
| Normalize.NormalizedBranches | intuition_engine.js:53-72 | `Normalized`, on the value sequence: sum ≤ 0 gives all zeros; 0.95 < sum < 1.05 with every value ≤ 1.01 gives the input back; otherwise every value is divided by the positive sum and the results sum to exactly 1 |
| Normalize.DividedSumsToOne | intuition_engine.js:69-72 | for a positive sum that fails the pass-through test, every value is divided by the sum and the outputs sum to exactly 1 |
| Normalize.NormalizedSum | intuition_engine.js:53-72 | the outputs sum to 0 when the input sum is ≤ 0, to exactly 1 in the dividing case, and otherwise (passed through) to a value in (0.95, 1.05) |
| Normalize.NormalizedIdempotent | intuition_engine.js:62-72 | normalising twice equals normalising once |
| Normalize.NormalizedBounds | intuition_engine.js:53-72 | for non-negative inputs every output lies in [0, 1.01] |
| Normalize.KeysUpToOnly | intuition_engine.js:56 | every key of the result belongs to a property of the input |
| SubSkills.IndexOf | intuition_engine.js:94 | `indexOf` yields −1 exactly when the value is absent, otherwise the first position that holds it |
| SubSkills.MeanAtMostMax | intuition_engine.js:93-95 | `MeanRaw`, the mean of the raws (line 95), never exceeds their maximum |
| SubSkills.Blend | intuition_engine.js:92-96 | the blended raw lies between the mean and the maximum of the raws, and is the raw itself for a single candidate |
| SubSkills.StyleIndex | intuition_engine.js:93-94 | the reported candidate has the maximum raw, and every earlier candidate has a strictly smaller raw (first maximum wins) |
| SubSkills.FinalScore | intuition_engine.js:98-99 | the unrounded final score lies in [1, 99] |
| SubSkills.SubSkill | intuition_engine.js:76-89 | id and name are kept, no style; base and score in [1, 99]; base is the nearest integer to the transformed score; fired names and bonus are those of the selected patterns; score is the nearest integer to the unrounded final, and grade and percent are of the unrounded final |
| SubSkills.SubSkillStyled | intuition_engine.js:91-112 | as `SubSkill`, with the blended raw; the style is the name of the first candidate with the maximum raw |
| SubSkills.SingleStyleIsUnstyled | intuition_engine.js:76-112 | a styled metric with one candidate is the unstyled metric of that raw plus the candidate's name |
| SubSkills.NeutralStyledScore | intuition_engine.js:91-112 | candidates blending to 0 with no pattern holding score exactly 50, with nothing fired |
| SubSkills.GradeIsOfUnroundedScore | intuition_engine.js:85-87 | a final of 81.5 is shown as 82 but graded in the band below 82 |
| Aggregate.AvgBounds | intuition_engine.js:437 | `Avg`, the `avg` helper: the mean of scores in [lo, hi] lies in [lo, hi] |
| Aggregate.MeansInRange | intuition_engine.js:439-442 | with sub-scores in [1, 99], `InsightAvg`, `TimingAvg`, `SensitivityAvg` and `PremonitionAvg` (the means of sub-metrics 1-5, 6-10, 11-14 and 16-20) lie in [1, 99] |
| Aggregate.RateMean | intuition_engine.js:462-465 | a category's score is within 0.5 of the mean; grade and percent are the labels of the unrounded mean's band |
| Aggregate.RateScore | intuition_engine.js:470-473 | a composite keeps its integer score, and its grade and percent are the labels of that score's band |
| Aggregate.Summarize | intuition_engine.js:437-473 | the overload risk is sub-metric 15's score; each category is rated from its mean (score within 0.5, labels of the unrounded mean's band); each composite's score is its weighted formula (`Business`, `Affinity`, `PremonitionDream`, `RiskAvoidance` of the cited sub-scores and means) and its labels are those of its band; with sub-scores in [1, 99] all eight scores and the risk lie in [1, 99] |
| Aggregate.CompositesInRange | intuition_engine.js:446-449 | `Business`, `Affinity`, `PremonitionDream` and `RiskAvoidance` of means and scores in [1, 99] lie in [1, 99] |
| Aggregate.CompositesMonotone | intuition_engine.js:446-449 | for the composites: a higher overload risk never raises the business or risk-avoidance composite; higher category means never lower the business composite |
| Aggregate.CompositesOfEqualTerms | intuition_engine.js:446-449 | each composite's weights sum to 1: equal terms give that term back |
| StructureInsight.Noise | intuition_engine.js:150 | noise is non-negative for non-negative counts and 0 without 충, 형, 파 or 해 |
| StructureInsight.Connect | intuition_engine.js:151 | connect is non-negative for a non-negative 합 count and 0 without 합 |
| StructureInsight.Score | intuition_engine.js:154-166 | sub-metric 1 has id 1, its own name, a score in [1, 99], at most two fired patterns and one of its three style names |
| StructureInsight.SilentStyles | intuition_engine.js:156-160 | for `Styles`, the three candidates of sub-metric 1: without the signals they read, the blend is 0 and the first style (개념형) is reported |
| StructureInsight.SilentRules | intuition_engine.js:162-165 | for `Rules`, the two patterns of sub-metric 1: without 인성 and noise neither pattern of sub-metric 1 holds |
| StructureInsight.SilentProfileScoresFifty | intuition_engine.js:154-166 | such a profile scores exactly 50 (base and score), fires nothing, is graded 하위 and reports 개념형 |
| StructureInsight.NoiseRuleSelected | intuition_engine.js:162-165 | with 인성 < 0.14 and noise ≥ 2.0 exactly the noise pattern is selected |
| StructureInsight.NoiseRuleFires | intuition_engine.js:154-166 | in that case sub-metric 1 fires only "소음 과다+인성 부족" with bonus −6 |
| StructureInsight.FourClashesFireNoiseRule | intuition_engine.js:150-166 | from the interaction counts: four or more 충 (형, 파, 해 non-negative, any 합) and 인성 < 0.14 make sub-metric 1 fire exactly "소음 과다+인성 부족" with bonus −6 |
| StructureInsight.NoInteractionsScoreFifty | intuition_engine.js:150-166 | from the interaction counts: with no interaction at all a silent profile scores exactly 50, fires nothing, is graded 하위 and reports 개념형 |

## Left out

- `Math.tanh` and IEEE-754 arithmetic: every value is an exact real. tanh is a function parameter, so results that depend on its actual values are not modelled.
- JavaScript coercion is not modelled: `Number(v)`, `isFinite`, `|| 0`, `+x || 50` (lines 50-51, 65, 141-148). Inputs are reals, so NaN, infinities and non-numeric values do not occur.
- The strength score (line 141) is not modelled as an input. It feeds only one pattern condition, sub-metric 6's `strength >= 70 && tg.비겁 >= 0.26` (line 235), and the generic model takes every pattern condition already evaluated.
- The interaction lookups (lines 143-148) are not modelled. Sub-metric 1 takes `noise` and `connect` as values, as the source computes them once. `Noise` and `Connect` model only the reducer at lines 150-151.
- Nineteen of the twenty coefficient tables and their pattern conditions (lines 168-434) are not instantiated. The generic members cover them all.
- `compute` itself is modelled only from line 437 onward, over a sequence of twenty sub-scores. It is never assembled end to end from a profile.
- Console logging, the warning at line 117 and the `window.IntuitionEngine` registration are I/O.
- Normalize.NormalizeAuto: the input object is an ordered sequence of entries with distinct keys, as a JavaScript object's keys are. Idempotence is stated on value sequences, `Normalized(Normalized(vs))`, not on maps.
- SubSkills.SubSkillStyled: requires at least one candidate. With none the source computes `Math.max()` = −Infinity, which has no real counterpart. Every call site passes two or three (sub-metric 15, lines 352-363, passes two).
- SubSkills.SubSkillStyled: the style is `Some(name)` of the first maximal candidate. The source's fallback to `""` (line 104) applies only when that candidate is missing or its name is empty. The first cannot happen with a non-empty list of finite raws; for the second the name is returned unchanged.
- Aggregate.AvgBounds: the mean requires a non-empty list. Every call passes four or five scores, and an empty `avg()` would be NaN.
