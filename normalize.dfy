/** The normaliser `normalizeAuto`: turns raw magnitudes into proportions,
    with three branches — an all-zero fallback when the sum is not positive,
    a pass-through when the input already looks like a proportion vector,
    and division by the sum otherwise. */
module Normalize {
  import opened Numeric

  /** One property of the input object, in the object's property order. */
  datatype Entry = Entry(key: string, value: real)

  /** The three branches of `normalizeAuto`. */
  datatype Branch = AllZero | AsProportions | Divided

  /** Lower and upper bounds of the sum, and the bound on the largest value,
      under which the input is taken to be a proportion vector already. */
  const SumLow: real := 0.95
  const SumHigh: real := 1.05
  const MaxHigh: real := 1.01

  function Values(obj: seq<Entry>): (vs: seq<real>)
    ensures |vs| == |obj|
    ensures forall i :: 0 <= i < |obj| ==> vs[i] == obj[i].value
  {
    if obj == [] then [] else [obj[0].value] + Values(obj[1..])
  }

  /** The keys of the first `n` properties. */
  function KeysUpTo(obj: seq<Entry>, n: nat): (ks: set<string>)
    requires n <= |obj|
    ensures forall i :: 0 <= i < n ==> obj[i].key in ks
  {
    if n == 0 then {} else KeysUpTo(obj, n - 1) + {obj[n - 1].key}
  }

  function Keys(obj: seq<Entry>): set<string> {
    KeysUpTo(obj, |obj|)
  }

  /** Every key of the first `n` properties belongs to one of them. */
  lemma {:induction false} KeysUpToOnly(obj: seq<Entry>, n: nat, k: string)
    requires n <= |obj| && k in KeysUpTo(obj, n)
    ensures exists i :: 0 <= i < n && obj[i].key == k
  {
    if k != obj[n - 1].key {
      KeysUpToOnly(obj, n - 1, k);
    }
  }

  /** A JavaScript object has no repeated property. */
  ghost predicate DistinctKeys(obj: seq<Entry>) {
    forall i, j :: 0 <= i < j < |obj| ==> obj[i].key != obj[j].key
  }

  /** The input already looks like a proportion vector: its sum lies
      strictly between 0.95 and 1.05 and no value exceeds 1.01. */
  ghost predicate LooksProportional(vs: seq<real>) {
    && SumLow < Sum(vs) < SumHigh
    && forall i :: 0 <= i < |vs| ==> vs[i] <= MaxHigh
  }

  /** The maximum is at most `hi` exactly when every value is. */
  lemma MaxAtMost(vs: seq<real>, hi: real)
    requires vs != []
    ensures MaxOf(vs) <= hi <==> forall i :: 0 <= i < |vs| ==> vs[i] <= hi
  {
    var i :| 0 <= i < |vs| && vs[i] == MaxOf(vs);
  }

  /** Which branch `normalizeAuto` takes: the fallback exactly when the sum
      is not positive, the pass-through exactly when the input looks like a
      proportion vector, and the division otherwise. */
  function BranchOf(vs: seq<real>): (b: Branch)
    ensures b == AllZero <==> Sum(vs) <= 0.0
    ensures b == AsProportions <==> LooksProportional(vs)
    ensures b == Divided <==> Sum(vs) > 0.0 && !LooksProportional(vs)
  {
    var s := Sum(vs);
    if s <= 0.0 then AllZero
    else
      MaxAtMost(vs, MaxHigh);
      if SumLow < s < SumHigh && MaxOf(vs) <= MaxHigh then AsProportions
      else Divided
  }

  function Zeros(n: nat): (r: seq<real>)
    ensures |r| == n
    ensures forall i :: 0 <= i < n ==> r[i] == 0.0
  {
    if n == 0 then [] else [0.0] + Zeros(n - 1)
  }

  function DivideAll(vs: seq<real>, d: real): (r: seq<real>)
    requires d != 0.0
    ensures |r| == |vs|
    ensures forall i :: 0 <= i < |vs| ==> r[i] == vs[i] / d
  {
    if vs == [] then [] else [vs[0] / d] + DivideAll(vs[1..], d)
  }

  /** The values `normalizeAuto` gives the properties, in property order. */
  function Normalized(vs: seq<real>): (r: seq<real>)
    ensures |r| == |vs|
  {
    match BranchOf(vs)
    case AllZero => Zeros(|vs|)
    case AsProportions => vs
    case Divided => DivideAll(vs, Sum(vs))
  }

  /** `normalizeAuto(obj)`: the result object has exactly the keys of `obj`,
      each holding the normalised value of its property. */
  method NormalizeAuto(obj: seq<Entry>) returns (out: map<string, real>)
    requires DistinctKeys(obj)
    ensures out.Keys == Keys(obj)
    ensures forall i :: 0 <= i < |obj| ==> out[obj[i].key] == Normalized(Values(obj))[i]
  {
    var vals := Values(obj);
    var sumRaw := Sum(vals);
    NormalizedBranches(vals);
    if sumRaw <= 0.0 {
      out := FillZeros(obj);
      return;
    }
    var maxVal := MaxOf(vals);
    if SumLow < sumRaw < SumHigh && maxVal <= MaxHigh {
      out := FillValues(obj);
      return;
    }
    assert BranchOf(vals) == Divided;
    out := FillDivided(obj, sumRaw);
  }

  /** The all-zero branch: `for (const k in obj) out[k] = 0`. */
  method FillZeros(obj: seq<Entry>) returns (out: map<string, real>)
    requires DistinctKeys(obj)
    ensures out.Keys == Keys(obj)
    ensures forall i :: 0 <= i < |obj| ==> out[obj[i].key] == 0.0
  {
    out := map[];
    for i := 0 to |obj|
      invariant out.Keys == KeysUpTo(obj, i)
      invariant forall j :: 0 <= j < i ==> out[obj[j].key] == 0.0
    {
      KeyIsNew(obj, i);
      out := out[obj[i].key := 0.0];
    }
  }

  /** The pass-through branch: `for (const k in obj) out[k] = obj[k]`. */
  method FillValues(obj: seq<Entry>) returns (out: map<string, real>)
    requires DistinctKeys(obj)
    ensures out.Keys == Keys(obj)
    ensures forall i :: 0 <= i < |obj| ==> out[obj[i].key] == obj[i].value
  {
    out := map[];
    for i := 0 to |obj|
      invariant out.Keys == KeysUpTo(obj, i)
      invariant forall j :: 0 <= j < i ==> out[obj[j].key] == obj[j].value
    {
      KeyIsNew(obj, i);
      out := out[obj[i].key := obj[i].value];
    }
  }

  /** The dividing branch: `for (const k in obj) out[k] = obj[k] / sumRaw`. */
  method FillDivided(obj: seq<Entry>, sumRaw: real) returns (out: map<string, real>)
    requires DistinctKeys(obj) && sumRaw != 0.0
    ensures out.Keys == Keys(obj)
    ensures forall i :: 0 <= i < |obj| ==> out[obj[i].key] == obj[i].value / sumRaw
  {
    out := map[];
    for i := 0 to |obj|
      invariant out.Keys == KeysUpTo(obj, i)
      invariant forall j :: 0 <= j < i ==> out[obj[j].key] == obj[j].value / sumRaw
    {
      KeyIsNew(obj, i);
      out := out[obj[i].key := obj[i].value / sumRaw];
    }
  }

  /** No earlier property has the key of the next one. */
  lemma KeyIsNew(obj: seq<Entry>, i: nat)
    requires i < |obj| && DistinctKeys(obj)
    ensures forall j :: 0 <= j < i ==> obj[j].key != obj[i].key
  {
  }

  // ----- properties of the normalised values -----

  lemma {:induction false} SumZeros(n: nat)
    ensures Sum(Zeros(n)) == 0.0
  {
    if n > 0 {
      SumZeros(n - 1);
      assert Zeros(n)[1..] == Zeros(n - 1);
    }
  }

  lemma {:induction false} SumDivideAll(vs: seq<real>, d: real)
    requires d != 0.0
    ensures Sum(DivideAll(vs, d)) == Sum(vs) / d
  {
    if vs != [] {
      var rest := vs[1..];
      SumDivideAll(rest, d);
      assert DivideAll(vs, d)[1..] == DivideAll(rest, d);
      assert Sum(DivideAll(vs, d)) == vs[0] / d + Sum(rest) / d;
      DivAdd(vs[0], Sum(rest), d);
    }
  }

  lemma DivAdd(a: real, b: real, d: real)
    requires d != 0.0
    ensures a / d + b / d == (a + b) / d
  {
  }

  lemma DivSelf(x: real)
    requires x != 0.0
    ensures x / x == 1.0
  {
  }

  /** In the dividing branch the values are divided by their positive sum and
      the results sum to exactly 1. */
  lemma DividedSumsToOne(vs: seq<real>)
    requires Sum(vs) > 0.0 && !LooksProportional(vs)
    ensures Normalized(vs) == DivideAll(vs, Sum(vs))
    ensures forall i :: 0 <= i < |vs| ==> Normalized(vs)[i] == vs[i] / Sum(vs)
    ensures Sum(Normalized(vs)) == 1.0
  {
    var s := Sum(vs);
    assert s > 0.0;
    SumDivideAll(vs, s);
    DivSelf(s);
  }

  /** Each branch: a non-positive sum gives all zeros; a vector that already
      looks like proportions comes back unchanged; otherwise every value is
      divided by the sum and the results sum to exactly 1. */
  lemma NormalizedBranches(vs: seq<real>)
    ensures Sum(vs) <= 0.0 ==> forall i :: 0 <= i < |vs| ==> Normalized(vs)[i] == 0.0
    ensures LooksProportional(vs) ==> Normalized(vs) == vs
    ensures Sum(vs) > 0.0 && !LooksProportional(vs) ==>
              (forall i :: 0 <= i < |vs| ==> Normalized(vs)[i] == vs[i] / Sum(vs)) &&
              Sum(Normalized(vs)) == 1.0
  {
    var s := Sum(vs);
    if s <= 0.0 {
      assert Normalized(vs) == Zeros(|vs|);
    } else if !LooksProportional(vs) {
      DividedSumsToOne(vs);
    }
  }

  /** The sum invariant: the normalised values sum to 0, to exactly 1, or
      (when passed through) to a value strictly between 0.95 and 1.05. */
  lemma NormalizedSum(vs: seq<real>)
    ensures var s := Sum(Normalized(vs)); s == 0.0 || SumLow < s < SumHigh
    ensures Sum(vs) > 0.0 && !LooksProportional(vs) ==> Sum(Normalized(vs)) == 1.0
  {
    match BranchOf(vs)
    case AllZero =>
      assert Normalized(vs) == Zeros(|vs|);
      SumZeros(|vs|);
    case AsProportions =>
      assert Normalized(vs) == vs;
    case Divided =>
      DividedSumsToOne(vs);
  }

  /** Normalising twice is normalising once: a second call finds an all-zero
      vector, the same proportion vector, or values summing to exactly 1,
      which it passes through or divides by 1. */
  lemma NormalizedIdempotent(vs: seq<real>)
    ensures Normalized(Normalized(vs)) == Normalized(vs)
  {
    var r := Normalized(vs);
    match BranchOf(vs)
    case AllZero =>
      assert r == Zeros(|vs|);
      SumZeros(|vs|);
      assert BranchOf(r) == AllZero;
    case AsProportions =>
      assert r == vs;
    case Divided =>
      DividedSumsToOne(vs);
      assert Sum(r) == 1.0;
      assert BranchOf(r) != AllZero;
      if BranchOf(r) == Divided {
        assert Normalized(r) == DivideAll(r, 1.0);
        assert DivideAll(r, 1.0) == r;
      }
  }

  /** For non-negative input every normalised value lies in [0, 1.01]. */
  lemma NormalizedBounds(vs: seq<real>)
    requires forall i :: 0 <= i < |vs| ==> vs[i] >= 0.0
    ensures forall i :: 0 <= i < |vs| ==> 0.0 <= Normalized(vs)[i] <= MaxHigh
  {
    match BranchOf(vs)
    case AllZero =>
      assert Normalized(vs) == Zeros(|vs|);
    case AsProportions =>
      assert Normalized(vs) == vs;
      var m := MaxOf(vs);
      assert m <= MaxHigh;
    case Divided =>
      DividedSumsToOne(vs);
      var s := Sum(vs);
      forall i | 0 <= i < |vs| ensures 0.0 <= Normalized(vs)[i] <= 1.0 {
        SumAtLeastElement(vs, i);
        DivAtMostOne(vs[i], s);
      }
  }

  lemma DivAtMostOne(a: real, s: real)
    requires 0.0 <= a <= s && s > 0.0
    ensures 0.0 <= a / s <= 1.0
  {
    assert a / s * s == a;
  }
}
