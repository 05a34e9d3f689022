/** Unordered pairs of pitch positions, enumerated as the source's nested
    `for i ...: for j in range(i + 1, ...)` loops visit them, and the extreme
    values of a sequence of positions. */
module Pairwise {

  function AbsDiff(a: int, b: int): (d: nat)
    ensures d == 0 <==> a == b
  {
    if a >= b then a - b else b - a
  }

  /** The distances from the element at `i` to every later element, in increasing order of the later index. */
  function Row(ps: seq<int>, i: nat): (r: seq<nat>)
    requires i < |ps|
    ensures |r| == |ps| - i - 1
  {
    seq<nat>(|ps| - i - 1, k requires 0 <= k < |ps| - i - 1 => AbsDiff(ps[i], ps[i + 1 + k]))
  }

  /** Rows `0 .. i-1` concatenated: what the nested loops have produced when the outer index reaches `i`. */
  function RowsBefore(ps: seq<int>, i: nat): seq<nat>
    requires i <= |ps|
  {
    if i == 0 then [] else RowsBefore(ps, i - 1) + Row(ps, i - 1)
  }

  /** `|ps[i] - ps[j]|` for every `i < j`, in the order of the nested loops. */
  function PairDistances(ps: seq<int>): seq<nat> {
    RowsBefore(ps, |ps|)
  }

  lemma {:induction false} RowsBeforeLength(ps: seq<int>, i: nat)
    requires i <= |ps|
    ensures 2 * |RowsBefore(ps, i)| == i * (2 * |ps| - i - 1)
  {
    if i > 0 {
      RowsBeforeLength(ps, i - 1);
      assert 2 * |RowsBefore(ps, i)| == (i - 1) * (2 * |ps| - i) + 2 * (|ps| - i);
    }
  }

  /** k positions give k·(k−1)/2 pairs. */
  lemma PairCount(ps: seq<int>)
    ensures 2 * |PairDistances(ps)| == |ps| * (|ps| - 1)
  {
    RowsBeforeLength(ps, |ps|);
  }

  /** The pair `(i, j)` sits at offset `j - i - 1` of row `i`. */
  lemma {:induction false} RowsBeforeAt(ps: seq<int>, m: nat, i: nat, j: nat)
    requires i < j < |ps| && i < m <= |ps|
    ensures |RowsBefore(ps, i)| + (j - i - 1) < |RowsBefore(ps, m)|
    ensures RowsBefore(ps, m)[|RowsBefore(ps, i)| + (j - i - 1)] == AbsDiff(ps[i], ps[j])
  {
    if m == i + 1 {
      assert RowsBefore(ps, m) == RowsBefore(ps, i) + Row(ps, i);
    } else {
      RowsBeforeAt(ps, m - 1, i, j);
      assert RowsBefore(ps, m) == RowsBefore(ps, m - 1) + Row(ps, m - 1);
    }
  }

  /** Every pair `i < j` contributes its distance, at a known index. */
  lemma PairDistanceAt(ps: seq<int>, i: nat, j: nat)
    requires i < j < |ps|
    ensures |RowsBefore(ps, i)| + (j - i - 1) < |PairDistances(ps)|
    ensures PairDistances(ps)[|RowsBefore(ps, i)| + (j - i - 1)] == AbsDiff(ps[i], ps[j])
  {
    RowsBeforeAt(ps, |ps|, i, j);
  }

  lemma {:induction false} RowsBeforeElement(ps: seq<int>, m: nat, k: nat)
    requires m <= |ps| && k < |RowsBefore(ps, m)|
    ensures exists i, j :: 0 <= i < m && i < j < |ps| && RowsBefore(ps, m)[k] == AbsDiff(ps[i], ps[j])
  {
    assert m > 0;
    var prev := RowsBefore(ps, m - 1);
    assert RowsBefore(ps, m) == prev + Row(ps, m - 1);
    if k < |prev| {
      RowsBeforeElement(ps, m - 1, k);
    } else {
      var j := m + (k - |prev|);
      assert RowsBefore(ps, m)[k] == AbsDiff(ps[m - 1], ps[j]);
    }
  }

  /** Conversely, every entry is the distance of some pair `i < j`. */
  lemma PairDistanceElement(ps: seq<int>, k: nat)
    requires k < |PairDistances(ps)|
    ensures exists i, j :: 0 <= i < j < |ps| && PairDistances(ps)[k] == AbsDiff(ps[i], ps[j])
  {
    RowsBeforeElement(ps, |ps|, k);
  }

  // The three steps of the source's nested loops, stated on the distances they visit.

  lemma RowStart(ps: seq<int>, i: nat)
    requires i < |ps|
    ensures RowsBefore(ps, i) + Row(ps, i)[..0] == RowsBefore(ps, i)
  {
  }

  lemma RowStep(ps: seq<int>, i: nat, j: nat)
    requires i < j < |ps|
    ensures RowsBefore(ps, i) + Row(ps, i)[..j - i] == RowsBefore(ps, i) + Row(ps, i)[..j - i - 1] + [AbsDiff(ps[i], ps[j])]
  {
    var r := Row(ps, i);
    assert r[j - i - 1] == AbsDiff(ps[i], ps[j]);
    PrefixSnoc(RowsBefore(ps, i), r, j - i - 1);
  }

  lemma PrefixSnoc(front: seq<nat>, r: seq<nat>, n: nat)
    requires n < |r|
    ensures front + r[..n + 1] == front + r[..n] + [r[n]]
  {
    assert r[..n + 1] == r[..n] + [r[n]];
  }

  lemma RowEnd(ps: seq<int>, i: nat)
    requires i < |ps|
    ensures RowsBefore(ps, i) + Row(ps, i)[..|ps| - i - 1] == RowsBefore(ps, i + 1)
  {
    assert Row(ps, i)[..|ps| - i - 1] == Row(ps, i);
  }

  /** Python's `max` over a non-empty list. */
  function MaxOf(ps: seq<int>): (r: int)
    requires |ps| > 0
    ensures r in ps
    ensures forall k :: 0 <= k < |ps| ==> ps[k] <= r
  {
    if |ps| == 1 then ps[0]
    else
      var rest := MaxOf(ps[1..]);
      if ps[0] >= rest then ps[0] else rest
  }

  /** Python's `min` over a non-empty list. */
  function MinOf(ps: seq<int>): (r: int)
    requires |ps| > 0
    ensures r in ps
    ensures forall k :: 0 <= k < |ps| ==> r <= ps[k]
  {
    if |ps| == 1 then ps[0]
    else
      var rest := MinOf(ps[1..]);
      if ps[0] <= rest then ps[0] else rest
  }

  /** No pair is further apart than the largest minus the smallest position. */
  lemma PairDistanceBound(ps: seq<int>, k: nat)
    requires k < |PairDistances(ps)|
    ensures |ps| > 0 && PairDistances(ps)[k] <= MaxOf(ps) - MinOf(ps)
  {
    PairDistanceElement(ps, k);
  }

  /** All pair distances vanish exactly when all positions coincide. */
  lemma PairDistancesZero(ps: seq<int>)
    ensures (forall k :: 0 <= k < |PairDistances(ps)| ==> PairDistances(ps)[k] == 0)
        <==> (forall i, j :: 0 <= i < j < |ps| ==> ps[i] == ps[j])
  {
    if forall k :: 0 <= k < |PairDistances(ps)| ==> PairDistances(ps)[k] == 0 {
      forall i, j | 0 <= i < j < |ps| ensures ps[i] == ps[j] {
        PairDistanceAt(ps, i, j);
      }
    }
    if forall i, j :: 0 <= i < j < |ps| ==> ps[i] == ps[j] {
      forall k | 0 <= k < |PairDistances(ps)| ensures PairDistances(ps)[k] == 0 {
        PairDistanceElement(ps, k);
      }
    }
  }
}
