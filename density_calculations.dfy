/** The simple mass / volume densities of density_calculations.py, over
    integer pitch numbers: the mass is the number of notes, the volume the
    distance from the lowest to the highest note, and the interval density
    the mean distance over all pairs of notes. */
module DensityCalculations {
  import opened Pairwise

  /** `calcular_massa`. */
  function Massa(notas: seq<int>): nat {
    |notas|
  }

  // ---------------------------------------------------------------------
  // sorted(), as an insertion sort

  predicate Sorted(s: seq<int>) {
    forall i, j :: 0 <= i < j < |s| ==> s[i] <= s[j]
  }

  function Insert(x: int, s: seq<int>): (r: seq<int>)
    requires Sorted(s)
    ensures Sorted(r) && multiset(r) == multiset(s) + multiset{x} && |r| == |s| + 1
  {
    if |s| == 0 then [x]
    else if x <= s[0] then
      SortedCons(x, s);
      [x] + s
    else
      var rest := Insert(x, s[1..]);
      assert s == [s[0]] + s[1..];
      LowerBoundKept(s[0], x, s[1..], rest);
      SortedCons(s[0], rest);
      [s[0]] + rest
  }

  lemma SortedCons(y: int, t: seq<int>)
    requires Sorted(t) && forall k :: 0 <= k < |t| ==> y <= t[k]
    ensures Sorted([y] + t)
  {
  }

  /** A lower bound of `t` and of `x` bounds every element of a permutation of `t` plus `x`. */
  lemma LowerBoundKept(y: int, x: int, t: seq<int>, r: seq<int>)
    requires y <= x && forall k :: 0 <= k < |t| ==> y <= t[k]
    requires multiset(r) == multiset(t) + multiset{x}
    ensures forall k :: 0 <= k < |r| ==> y <= r[k]
  {
    forall k | 0 <= k < |r|
      ensures y <= r[k]
    {
      assert r[k] in multiset(r);
      if r[k] != x {
        assert r[k] in multiset(t);
        assert r[k] in t;
      }
    }
  }

  /** Python's `sorted`: an ordered permutation of the input. */
  function SortedOf(s: seq<int>): (r: seq<int>)
    ensures Sorted(r) && multiset(r) == multiset(s)
  {
    if |s| == 0 then []
    else
      assert s == [s[0]] + s[1..];
      Insert(s[0], SortedOf(s[1..]))
  }

  /** `calcular_volume`: 0 for no notes, otherwise last minus first of the sorted notes. */
  function Volume(notas: seq<int>): int {
    if |notas| == 0 then 0
    else
      var s := SortedOf(notas);
      assert |s| == |multiset(s)| == |multiset(notas)| == |notas|;
      s[|s| - 1] - s[0]
  }

  lemma MultisetLength(a: seq<int>, b: seq<int>)
    requires multiset(a) == multiset(b)
    ensures |a| == |b|
  {
    assert |multiset(a)| == |a| && |multiset(b)| == |b|;
  }

  /** Sequences with the same elements have the same largest and smallest element. */
  lemma ExtremesOfPermutation(a: seq<int>, b: seq<int>)
    requires multiset(a) == multiset(b) && |a| > 0
    ensures |b| > 0 && MaxOf(a) == MaxOf(b) && MinOf(a) == MinOf(b)
  {
    MultisetLength(a, b);
    assert MaxOf(a) in multiset(b) && MaxOf(b) in multiset(a);
    assert MinOf(a) in multiset(b) && MinOf(b) in multiset(a);
  }

  /** The volume is the largest minus the smallest note, whatever the order. */
  lemma VolumeIsSpread(notas: seq<int>)
    requires |notas| > 0
    ensures Volume(notas) == MaxOf(notas) - MinOf(notas) >= 0
  {
    var s := SortedOf(notas);
    assert |s| == |notas| by {
      MultisetLength(s, notas);
    }
    assert MaxOf(s) == MaxOf(notas) && MinOf(s) == MinOf(notas) by {
      ExtremesOfPermutation(s, notas);
    }
    SortedExtremes(s);
  }

  /** The ends of a sorted sequence are its extremes. */
  lemma SortedExtremes(s: seq<int>)
    requires Sorted(s) && |s| > 0
    ensures MaxOf(s) == s[|s| - 1] && MinOf(s) == s[0]
  {
    var i :| 0 <= i < |s| && s[i] == MaxOf(s);
    var j :| 0 <= j < |s| && s[j] == MinOf(s);
    assert s[i] <= s[|s| - 1] && s[0] <= s[j];
  }

  lemma VolumeOrderIndependent(a: seq<int>, b: seq<int>)
    requires multiset(a) == multiset(b)
    ensures Volume(a) == Volume(b)
  {
    MultisetLength(a, b);
    if |a| > 0 {
      VolumeIsSpread(a);
      VolumeIsSpread(b);
      ExtremesOfPermutation(a, b);
    }
  }

  // ---------------------------------------------------------------------
  // calcular_densidade_intervalar

  /** Python's `sum` over a list of distances. */
  function SumOf(ds: seq<nat>): nat {
    if |ds| == 0 then 0 else SumOf(ds[..|ds| - 1]) + ds[|ds| - 1]
  }

  /** What `calcular_densidade_intervalar` returns: 0 for fewer than two notes,
      otherwise the mean over all pairs of the absolute difference. */
  function MeanPairDistance(notas: seq<int>): real {
    if |notas| < 2 then 0.0
    else
      var ds := PairDistances(notas);
      PairDistanceAt(notas, 0, 1);
      (SumOf(ds) as real) / (|ds| as real)
  }

  /** `calcular_densidade_intervalar`: the nested loops collect every pair's
      distance, then the sum is divided by the count. */
  method CalcularDensidadeIntervalar(notas: seq<int>) returns (r: real)
    ensures r == MeanPairDistance(notas)
  {
    if |notas| < 2 {
      return 0.0;
    }
    var intervalos: seq<nat> := [];
    var i := 0;
    while i < |notas|
      invariant 0 <= i <= |notas|
      invariant intervalos == RowsBefore(notas, i)
    {
      RowStart(notas, i);
      var j := i + 1;
      while j < |notas|
        invariant i + 1 <= j <= |notas|
        invariant intervalos == RowsBefore(notas, i) + Row(notas, i)[..j - i - 1]
      {
        RowStep(notas, i, j);
        intervalos := intervalos + [AbsDiff(notas[i], notas[j])];
        j := j + 1;
      }
      RowEnd(notas, i);
      i := i + 1;
    }
    PairDistanceAt(notas, 0, 1);
    r := (SumOf(intervalos) as real) / (|intervalos| as real);
  }

  lemma {:induction false} SumOfBound(ds: seq<nat>, b: nat)
    requires forall k :: 0 <= k < |ds| ==> ds[k] <= b
    ensures SumOf(ds) <= |ds| * b
  {
    if |ds| > 0 {
      SumOfBound(ds[..|ds| - 1], b);
    }
  }

  /** The mean distance lies between 0 and the volume of the same notes. */
  lemma MeanWithinVolume(notas: seq<int>)
    ensures 0.0 <= MeanPairDistance(notas) <= Volume(notas) as real
  {
    if |notas| >= 2 {
      var ds := PairDistances(notas);
      VolumeIsSpread(notas);
      var v := MaxOf(notas) - MinOf(notas);
      forall k | 0 <= k < |ds| ensures ds[k] <= v {
        PairDistanceBound(notas, k);
      }
      SumOfBound(ds, v);
      PairDistanceAt(notas, 0, 1);
      QuotientBound(SumOf(ds), |ds|, v);
    }
  }

  lemma QuotientBound(a: nat, n: nat, v: nat)
    requires n > 0 && a <= n * v
    ensures 0.0 <= (a as real) / (n as real) <= v as real
  {
    assert (a as real) <= (n as real) * (v as real);
  }

  lemma QuotientPositive(a: nat, b: int)
    requires b > 0
    ensures (a as real) / (b as real) >= 0.0
    ensures a > 0 ==> (a as real) / (b as real) > 0.0
  {
  }

  // ---------------------------------------------------------------------

  /** `calcular_densidade`: mass over volume, or 0 when the volume is 0. */
  function Densidade(notas: seq<int>): (r: real)
    ensures r >= 0.0
    ensures r == 0.0 <==> Volume(notas) == 0
  {
    var v := Volume(notas);
    if v != 0 then
      VolumeIsSpread(notas);
      QuotientPositive(Massa(notas), v);
      (Massa(notas) as real) / (v as real)
    else 0.0
  }

  /** Away from a single repeated note, the density is the number of notes
      over the distance from the lowest to the highest. */
  lemma DensidadeOfExtremes(notas: seq<int>)
    requires |notas| > 0 && MaxOf(notas) != MinOf(notas)
    ensures Densidade(notas) == (|notas| as real) / ((MaxOf(notas) - MinOf(notas)) as real)
  {
    VolumeIsSpread(notas);
  }

  lemma VolumeExample()
    ensures Volume([]) == 0
    ensures Volume([64, 60, 67]) == 7
  {
    var ns := [64, 60, 67];
    VolumeIsSpread(ns);
    assert ns[1..] == [60, 67] && ns[1..][1..] == [67];
  }

  lemma MeanExample()
    ensures MeanPairDistance([60]) == 0.0
    ensures MeanPairDistance([60, 67]) == 7.0
  {
    var ns := [60, 67];
    assert Row(ns, 0) == [7];
    assert RowsBefore(ns, 1) == [7];
    assert Row(ns, 1) == [];
    assert RowsBefore(ns, 2) == RowsBefore(ns, 1) + Row(ns, 1);
    assert PairDistances(ns) == [7];
    assert SumOf([7]) == SumOf([]) + 7;
  }

  lemma RepeatedNoteExample()
    ensures Densidade([60, 60]) == 0.0
  {
    VolumeIsSpread([60, 60]);
    assert [60, 60][1..] == [60];
  }
}
