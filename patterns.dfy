/** The pattern bonus engine, `applyPatterns`: keep the patterns whose
    condition holds, order them stably by descending magnitude of their
    adjustment, keep the first two, add their adjustments to the base score
    and clamp the result to [1, 99]. */
module Patterns {
  import opened Numeric

  /** One labelled conditional adjustment, already evaluated. */
  datatype Pattern = Pattern(cond: bool, add: real, name: string)

  /** What `applyPatterns` returns. */
  datatype Applied = Applied(bonus: real, fired: seq<string>, final: real)

  /** At most this many patterns fire. */
  const MaxFired: nat := 2

  function Mag(p: Pattern): real {
    Abs(p.add)
  }

  /** `patterns.filter(p => p.cond)`: every pattern whose condition holds,
      with its multiplicity, and nothing else. */
  function Eligible(ps: seq<Pattern>): (r: seq<Pattern>)
    ensures forall p :: multiset(r)[p] == if p.cond then multiset(ps)[p] else 0
  {
    if ps == [] then []
    else
      assert ps == [ps[0]] + ps[1..];
      (if ps[0].cond then [ps[0]] else []) + Eligible(ps[1..])
  }

  /** The positions, from `lo` on, of the patterns whose condition holds,
      in increasing order. */
  function CondIndices(ps: seq<Pattern>, lo: nat): (idx: seq<nat>)
    requires lo <= |ps|
    ensures forall t :: 0 <= t < |idx| ==> lo <= idx[t] < |ps| && ps[idx[t]].cond
    ensures forall t, u :: 0 <= t < u < |idx| ==> idx[t] < idx[u]
    ensures forall i :: lo <= i < |ps| && ps[i].cond ==> i in idx
    decreases |ps| - lo
  {
    if lo == |ps| then []
    else (if ps[lo].cond then [lo] else []) + CondIndices(ps, lo + 1)
  }

  /** One step of the filter from position `lo`. */
  lemma EligibleStep(ps: seq<Pattern>, lo: nat)
    requires lo < |ps|
    ensures Eligible(ps[lo..]) == (if ps[lo].cond then [ps[lo]] else []) + Eligible(ps[lo + 1..])
    ensures CondIndices(ps, lo) == (if ps[lo].cond then [lo] else []) + CondIndices(ps, lo + 1)
  {
    var q := ps[lo..];
    assert q[0] == ps[lo] && q[1..] == ps[lo + 1..];
  }

  /** Putting one more matched pair in front keeps a sequence matched
      position by position to the patterns its index sequence names. */
  lemma ConsMatched(ps: seq<Pattern>, i: nat, rest: seq<Pattern>, restIdx: seq<nat>)
    requires i < |ps| && |rest| == |restIdx|
    requires forall t :: 0 <= t < |restIdx| ==> restIdx[t] < |ps| && rest[t] == ps[restIdx[t]]
    ensures var s, idx := [ps[i]] + rest, [i] + restIdx;
      forall t :: 0 <= t < |idx| ==> idx[t] < |ps| && s[t] == ps[idx[t]]
  {
    var s, idx := [ps[i]] + rest, [i] + restIdx;
    forall t | 0 <= t < |idx| ensures idx[t] < |ps| && s[t] == ps[idx[t]] {
      if t > 0 {
        assert s[t] == rest[t - 1] && idx[t] == restIdx[t - 1];
      }
    }
  }

  lemma {:induction false} EligibleFrom(ps: seq<Pattern>, lo: nat)
    requires lo <= |ps|
    ensures |Eligible(ps[lo..])| == |CondIndices(ps, lo)|
    ensures forall t :: 0 <= t < |CondIndices(ps, lo)| ==>
              Eligible(ps[lo..])[t] == ps[CondIndices(ps, lo)[t]]
    decreases |ps| - lo
  {
    if lo < |ps| {
      EligibleFrom(ps, lo + 1);
      EligibleStep(ps, lo);
      var rest, restIdx := Eligible(ps[lo + 1..]), CondIndices(ps, lo + 1);
      if ps[lo].cond {
        ConsMatched(ps, lo, rest, restIdx);
      } else {
        assert Eligible(ps[lo..]) == rest && CondIndices(ps, lo) == restIdx;
      }
    }
  }

  /** `filter` keeps declaration order: the eligible patterns are the
      patterns at the increasing positions whose condition holds, each of
      those positions taken once. */
  lemma EligibleIsSubsequence(ps: seq<Pattern>)
    ensures var idx := CondIndices(ps, 0);
      && |Eligible(ps)| == |idx|
      && (forall t :: 0 <= t < |idx| ==> Eligible(ps)[t] == ps[idx[t]])
      && (forall t, u :: 0 <= t < u < |idx| ==> idx[t] < idx[u])
      && (forall i :: 0 <= i < |ps| ==> (ps[i].cond <==> i in idx))
  {
    EligibleFrom(ps, 0);
    assert ps[0..] == ps;
  }

  ghost predicate NonIncreasing(s: seq<Pattern>) {
    forall i, j :: 0 <= i < j < |s| ==> Mag(s[i]) >= Mag(s[j])
  }

  /** The patterns of `s` whose magnitude is `k`, in their order in `s`. */
  function WithMag(s: seq<Pattern>, k: real): seq<Pattern> {
    if s == [] then []
    else (if Mag(s[0]) == k then [s[0]] else []) + WithMag(s[1..], k)
  }

  /** Inserts `x` in front of the first element no larger than it, so that
      `x` precedes every element of equal magnitude. */
  function InsertByMag(x: Pattern, s: seq<Pattern>): seq<Pattern> {
    if s == [] || Mag(s[0]) <= Mag(x) then [x] + s
    else [s[0]] + InsertByMag(x, s[1..])
  }

  /** The stable sort of `sort((a, b) => |b.add| - |a.add|)`. */
  function SortByMag(s: seq<Pattern>): seq<Pattern> {
    if s == [] then [] else InsertByMag(s[0], SortByMag(s[1..]))
  }

  /** The first at most two patterns of the sorted eligible ones. */
  function Selected(ps: seq<Pattern>): seq<Pattern> {
    var sorted := SortByMag(Eligible(ps));
    sorted[..if |sorted| < MaxFired then |sorted| else MaxFired]
  }

  function Names(s: seq<Pattern>): (r: seq<string>)
    ensures |r| == |s|
    ensures forall i :: 0 <= i < |s| ==> r[i] == s[i].name
  {
    if s == [] then [] else [s[0].name] + Names(s[1..])
  }

  function SumAdds(s: seq<Pattern>): real {
    if s == [] then 0.0 else s[0].add + SumAdds(s[1..])
  }

  function ApplyPatterns(base: real, ps: seq<Pattern>): (r: Applied)
    ensures |r.fired| <= MaxFired
    ensures r.fired == Names(Selected(ps)) && r.bonus == SumAdds(Selected(ps))
    ensures r.final == Clamp(base + r.bonus, 1.0, 99.0)
    ensures 1.0 <= r.final <= 99.0
    ensures 1.0 <= base + r.bonus <= 99.0 ==> r.final == base + r.bonus
    ensures (forall i :: 0 <= i < |ps| ==> !ps[i].cond) ==>
              r.fired == [] && r.bonus == 0.0 && r.final == Clamp(base, 1.0, 99.0)
  {
    NoneEligible(ps);
    var fired := Selected(ps);
    Applied(SumAdds(fired), Names(fired), Clamp(base + SumAdds(fired), 1.0, 99.0))
  }

  // ----- lemmas about the pieces -----

  lemma {:induction false} WithMagAppend(a: seq<Pattern>, b: seq<Pattern>, k: real)
    ensures WithMag(a + b, k) == WithMag(a, k) + WithMag(b, k)
  {
    if a == [] {
      assert a + b == b;
    } else {
      var head := if Mag(a[0]) == k then [a[0]] else [];
      assert (a + b)[0] == a[0];
      assert (a + b)[1..] == a[1..] + b;
      assert WithMag(a + b, k) == head + WithMag(a[1..] + b, k);
      WithMagAppend(a[1..], b, k);
      assert WithMag(a, k) == head + WithMag(a[1..], k);
    }
  }

  lemma {:induction false} InsertByMagMultiset(x: Pattern, s: seq<Pattern>)
    ensures multiset(InsertByMag(x, s)) == multiset(s) + multiset{x}
  {
    if !(s == [] || Mag(s[0]) <= Mag(x)) {
      InsertByMagMultiset(x, s[1..]);
      assert s == [s[0]] + s[1..];
    }
  }

  /** Inserting a pattern no larger than `b` among patterns no larger than
      `b` leaves every pattern no larger than `b`. */
  lemma {:induction false} InsertByMagBounded(x: Pattern, s: seq<Pattern>, b: real)
    requires Mag(x) <= b && forall i :: 0 <= i < |s| ==> Mag(s[i]) <= b
    ensures forall j :: 0 <= j < |InsertByMag(x, s)| ==> Mag(InsertByMag(x, s)[j]) <= b
  {
    if !(s == [] || Mag(s[0]) <= Mag(x)) {
      assert forall i :: 0 <= i < |s[1..]| ==> s[1..][i] == s[i + 1];
      InsertByMagBounded(x, s[1..], b);
    }
  }

  lemma {:induction false} InsertByMagSorted(x: Pattern, s: seq<Pattern>)
    requires NonIncreasing(s)
    ensures NonIncreasing(InsertByMag(x, s))
  {
    if !(s == [] || Mag(s[0]) <= Mag(x)) {
      var rest := s[1..];
      assert forall i :: 0 <= i < |rest| ==> rest[i] == s[i + 1];
      assert NonIncreasing(rest);
      InsertByMagSorted(x, rest);
      InsertByMagBounded(x, rest, Mag(s[0]));
      var tail := InsertByMag(x, rest);
      var r := [s[0]] + tail;
      assert r == InsertByMag(x, s);
      forall i, j | 0 <= i < j < |r| ensures Mag(r[i]) >= Mag(r[j]) {
        assert r[j] == tail[j - 1];
        if i > 0 {
          assert r[i] == tail[i - 1];
        }
      }
    }
  }

  /** Elements passed over by the insertion are strictly larger than `x`. */
  lemma {:induction false} InsertByMagGroups(x: Pattern, s: seq<Pattern>, k: real)
    ensures WithMag(InsertByMag(x, s), k) == (if Mag(x) == k then [x] else []) + WithMag(s, k)
  {
    if s == [] || Mag(s[0]) <= Mag(x) {
      WithMagAppend([x], s, k);
    } else {
      InsertByMagGroups(x, s[1..], k);
      var tail := InsertByMag(x, s[1..]);
      WithMagAppend([s[0]], tail, k);
      WithMagAppend([s[0]], s[1..], k);
      assert s == [s[0]] + s[1..];
    }
  }

  /** The sort is stable and descending: it is non-increasing in magnitude and
      leaves the order of each group of equal magnitude as it was (hence it
      is also a permutation). */
  lemma {:induction false} SortByMagProps(s: seq<Pattern>)
    ensures NonIncreasing(SortByMag(s))
    ensures multiset(SortByMag(s)) == multiset(s)
    ensures forall k :: WithMag(SortByMag(s), k) == WithMag(s, k)
  {
    if s != [] {
      SortByMagProps(s[1..]);
      InsertByMagSorted(s[0], SortByMag(s[1..]));
      InsertByMagMultiset(s[0], SortByMag(s[1..]));
      assert s == [s[0]] + s[1..];
      forall k ensures WithMag(SortByMag(s), k) == WithMag(s, k) {
        InsertByMagGroups(s[0], SortByMag(s[1..]), k);
        WithMagAppend([s[0]], s[1..], k);
      }
    }
  }

  ghost predicate IsPrefix(a: seq<Pattern>, b: seq<Pattern>) {
    |a| <= |b| && a == b[..|a|]
  }

  lemma {:induction false} WithMagOfPrefix(s: seq<Pattern>, n: nat, k: real)
    requires n <= |s|
    ensures IsPrefix(WithMag(s[..n], k), WithMag(s, k))
  {
    assert s == s[..n] + s[n..];
    WithMagAppend(s[..n], s[n..], k);
  }

  lemma {:induction false} NoneEligible(ps: seq<Pattern>)
    ensures (forall i :: 0 <= i < |ps| ==> !ps[i].cond) ==> Eligible(ps) == [] && Selected(ps) == []
  {
    if ps != [] && forall i :: 0 <= i < |ps| ==> !ps[i].cond {
      assert forall i :: 0 <= i < |ps[1..]| ==> !ps[1..][i].cond by {
        forall i | 0 <= i < |ps[1..]| ensures !ps[1..][i].cond {
          assert ps[1..][i] == ps[i + 1];
        }
      }
      NoneEligible(ps[1..]);
    }
  }

  /** The number of patterns that fire. */
  function FiredCount(ps: seq<Pattern>): nat {
    var m := |Eligible(ps)|;
    if m < MaxFired then m else MaxFired
  }

  /** `Selected` is the first `FiredCount` sorted eligible patterns, and the
      sort keeps every eligible pattern. */
  lemma SelectedIsPrefix(ps: seq<Pattern>)
    ensures |SortByMag(Eligible(ps))| == |Eligible(ps)|
    ensures Selected(ps) == SortByMag(Eligible(ps))[..FiredCount(ps)]
    ensures NonIncreasing(SortByMag(Eligible(ps)))
    ensures multiset(SortByMag(Eligible(ps))) == multiset(Eligible(ps))
    ensures forall k :: WithMag(SortByMag(Eligible(ps)), k) == WithMag(Eligible(ps), k)
  {
    var el := Eligible(ps);
    SortByMagProps(el);
    assert |multiset(SortByMag(el))| == |multiset(el)|;
  }

  /** A prefix holds no element more often than the whole sequence. */
  lemma PrefixMultiset(s: seq<Pattern>, n: nat)
    requires n <= |s|
    ensures multiset(s[..n]) <= multiset(s)
  {
    assert s == s[..n] + s[n..];
  }

  /** Only eligible patterns fire, at most as often as they were declared. */
  lemma SelectedAreEligible(ps: seq<Pattern>)
    ensures multiset(Selected(ps)) <= multiset(Eligible(ps))
    ensures forall i :: 0 <= i < |Selected(ps)| ==> Selected(ps)[i].cond
    ensures forall p :: multiset(Selected(ps))[p] <= if p.cond then multiset(ps)[p] else 0
  {
    SelectedIsPrefix(ps);
    var el := Eligible(ps);
    var sorted, n := SortByMag(el), FiredCount(ps);
    PrefixMultiset(sorted, n);
    var sel := Selected(ps);
    assert multiset(sel) <= multiset(el);
    forall i | 0 <= i < |sel| ensures sel[i].cond {
      assert multiset(sel)[sel[i]] > 0;
      assert multiset(el)[sel[i]] > 0;
    }
    forall p ensures multiset(sel)[p] <= if p.cond then multiset(ps)[p] else 0 {
      assert multiset(sel)[p] <= multiset(el)[p];
    }
  }

  /** Cutting a non-increasing sequence after `n` elements leaves out only
      elements no larger than the last one kept. */
  lemma RestIsSmaller(s: seq<Pattern>, n: nat)
    requires NonIncreasing(s) && 0 < n <= |s|
    ensures forall q :: q in multiset(s) - multiset(s[..n]) ==> Mag(q) <= Mag(s[n - 1])
  {
    assert s == s[..n] + s[n..];
    assert multiset(s) == multiset(s[..n]) + multiset(s[n..]);
    forall q | q in multiset(s) - multiset(s[..n]) ensures Mag(q) <= Mag(s[n - 1]) {
      assert q in multiset(s[n..]);
      var m :| 0 <= m < |s[n..]| && s[n..][m] == q;
      assert s[n + m] == q;
    }
  }

  /** Every eligible pattern left out is no larger than the smallest one
      that fired. */
  lemma SelectedAreLargest(ps: seq<Pattern>)
    ensures forall q :: |Selected(ps)| > 0 && q in multiset(Eligible(ps)) - multiset(Selected(ps)) ==>
                          Mag(q) <= Mag(Selected(ps)[|Selected(ps)| - 1])
  {
    SelectedIsPrefix(ps);
    var sorted, n := SortByMag(Eligible(ps)), FiredCount(ps);
    if n > 0 {
      RestIsSmaller(sorted, n);
      assert Selected(ps)[n - 1] == sorted[n - 1];
    }
  }

  /** A prefix of a non-increasing sequence is non-increasing. */
  lemma PrefixNonIncreasing(s: seq<Pattern>, n: nat)
    requires NonIncreasing(s) && n <= |s|
    ensures NonIncreasing(s[..n])
  {
    forall i, j | 0 <= i < j < n ensures Mag(s[..n][i]) >= Mag(s[..n][j]) {
      assert s[..n][i] == s[i] && s[..n][j] == s[j];
    }
  }

  /** The fired patterns are in non-increasing order of magnitude, each
      group of equal magnitude is a prefix of that group among the eligible
      ones, and when at most two are eligible all of them fire. */
  lemma SelectedOrder(ps: seq<Pattern>)
    ensures NonIncreasing(Selected(ps))
    ensures forall k :: IsPrefix(WithMag(Selected(ps), k), WithMag(Eligible(ps), k))
    ensures |Eligible(ps)| <= MaxFired ==> multiset(Selected(ps)) == multiset(Eligible(ps))
  {
    SelectedIsPrefix(ps);
    var sorted, n := SortByMag(Eligible(ps)), FiredCount(ps);
    var sel := Selected(ps);
    PrefixNonIncreasing(sorted, n);
    forall k ensures IsPrefix(WithMag(sel, k), WithMag(Eligible(ps), k)) {
      WithMagOfPrefix(sorted, n, k);
    }
    if |Eligible(ps)| <= MaxFired {
      assert sel == sorted;
    }
  }

  /** The selection rule: what fires is the (at most two) eligible patterns
      of largest magnitude, non-increasing in magnitude, and among equal
      magnitudes the earliest declared ones, in declaration order. */
  lemma SelectedIsBest(ps: seq<Pattern>)
    ensures var sel := Selected(ps);
      && |sel| == FiredCount(ps)
      && (forall i :: 0 <= i < |sel| ==> sel[i].cond)
      && (forall p :: multiset(sel)[p] <= if p.cond then multiset(ps)[p] else 0)
      && NonIncreasing(sel)
      && (forall q :: |sel| > 0 && q in multiset(Eligible(ps)) - multiset(sel) ==>
                        Mag(q) <= Mag(sel[|sel| - 1]))
      && (forall k :: IsPrefix(WithMag(sel, k), WithMag(Eligible(ps), k)))
      && (|Eligible(ps)| <= MaxFired ==> multiset(sel) == multiset(Eligible(ps)))
  {
    SelectedIsPrefix(ps);
    SelectedAreEligible(ps);
    SelectedAreLargest(ps);
    SelectedOrder(ps);
  }

  /** When no condition holds nothing fires, the bonus is 0 and the final
      score is the clamped base. */
  lemma NothingFires(base: real, ps: seq<Pattern>)
    requires forall i :: 0 <= i < |ps| ==> !ps[i].cond
    ensures ApplyPatterns(base, ps) == Applied(0.0, [], Clamp(base, 1.0, 99.0))
  {
  }
}
