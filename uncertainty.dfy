/** The two uncertainty measures of models/uncertainty.py, over an N x K
    matrix of predicted probabilities given as its N rows.

    Probabilities are reals. The base-2 logarithm is a parameter `log2`:
    nothing here depends on its values except where a lemma says so in its
    requires clause. */
module Uncertainty {
  import opened Wrappers
  import opened Sorting

  /** The lower bound that np.clip applies before the logarithm: 1e-15. */
  const ClipFloor: real := 0.000000000000001

  /** np.clip(p, 1e-15, 1.0) on one entry. */
  function Clip(p: real): (c: real)
    ensures ClipFloor <= c <= 1.0
    ensures ClipFloor <= p <= 1.0 ==> c == p
    ensures p < ClipFloor ==> c == ClipFloor
    ensures p > 1.0 ==> c == 1.0
  {
    if p < ClipFloor then ClipFloor else if p > 1.0 then 1.0 else p
  }

  /** np.clip applied to every entry of a row. */
  function ClipRow(row: seq<real>): (r: seq<real>)
    ensures |r| == |row|
    ensures forall i :: 0 <= i < |r| ==> r[i] == Clip(row[i])
  {
    seq(|row|, i requires 0 <= i < |row| => Clip(row[i]))
  }

  /** The sum of p * log2(p) over the entries of a row. */
  function SumPLogP(log2: real -> real, row: seq<real>): real
  {
    if row == [] then 0.0 else row[0] * log2(row[0]) + SumPLogP(log2, row[1..])
  }

  /** The entropy of one row: -sum(p * log2(p)) over the clipped row. */
  function RowEntropy(log2: real -> real, row: seq<real>): real
  {
    -SumPLogP(log2, ClipRow(row))
  }

  /** calculate_shannon_entropy: one entropy per row of the matrix. */
  function ShannonEntropy(log2: real -> real, probabilities: seq<seq<real>>): (h: seq<real>)
    ensures |h| == |probabilities|
    ensures forall i :: 0 <= i < |h| ==> h[i] == RowEntropy(log2, probabilities[i])
  {
    seq(|probabilities|, i requires 0 <= i < |probabilities| => RowEntropy(log2, probabilities[i]))
  }

  /** Clipping never leaves an entry outside [1e-15, 1.0]. */
  lemma ClipRowInRange(row: seq<real>)
    ensures forall i :: 0 <= i < |row| ==> ClipFloor <= ClipRow(row)[i] <= 1.0
  {
  }

  /** Clipping leaves a row whose entries already lie in [1e-15, 1.0] as it is. */
  lemma {:induction false} ClipRowIdentity(row: seq<real>)
    requires forall i :: 0 <= i < |row| ==> ClipFloor <= row[i] <= 1.0
    ensures ClipRow(row) == row
  {
    assert forall i :: 0 <= i < |row| ==> ClipRow(row)[i] == row[i];
  }

  /** For a two-class row (p, 1 - p) whose entries clipping leaves alone, the
      entropy is the binary formula -[p log2 p + (1 - p) log2 (1 - p)]. */
  lemma BinaryEntropy(log2: real -> real, p: real)
    requires ClipFloor <= p <= 1.0 - ClipFloor
    ensures RowEntropy(log2, [p, 1.0 - p]) == -(p * log2(p) + (1.0 - p) * log2(1.0 - p))
  {
    var row := [p, 1.0 - p];
    ClipRowIdentity(row);
    assert row[1..] == [1.0 - p];
    assert SumPLogP(log2, [1.0 - p]) == (1.0 - p) * log2(1.0 - p) by {
      assert [1.0 - p][1..] == [];
    }
    assert SumPLogP(log2, row) == p * log2(p) + SumPLogP(log2, [1.0 - p]);
  }

  /** A row of k equal entries 1/k (the uniform distribution over k classes)
      has entropy -log2(1/k), that is log2(k), as long as 1/k is not below
      the clipping floor. */
  lemma UniformEntropy(log2: real -> real, k: nat)
    requires 1 <= k <= 1000000000000000
    ensures RowEntropy(log2, seq(k, _ => 1.0 / k as real)) == -log2(1.0 / k as real)
  {
    var u := 1.0 / k as real;
    var row := seq(k, _ => u);
    assert u * (k as real) == 1.0;
    assert ClipFloor <= u <= 1.0 by {
      MulMonotone(u, k as real, 1000000000000000.0);
    }
    ClipRowIdentity(row);
    ConstantSum(log2, u, k);
    assert (k as real) * (u * log2(u)) == ((k as real) * u) * log2(u);
  }

  lemma MulMonotone(u: real, a: real, b: real)
    requires u > 0.0 && a <= b
    ensures u * a <= u * b
  {
  }

  lemma {:induction false} ConstantSum(log2: real -> real, u: real, k: nat)
    ensures SumPLogP(log2, seq(k, _ => u)) == (k as real) * (u * log2(u))
  {
    if k > 0 {
      var row := seq(k, _ => u);
      assert row[1..] == seq(k - 1, _ => u);
      ConstantSum(log2, u, k - 1);
    }
  }

  /** log2 is non-positive on (0, 1], as the true base-2 logarithm is. */
  ghost predicate NonPositiveOnUnit(log2: real -> real) {
    forall p :: 0.0 < p <= 1.0 ==> log2(p) <= 0.0
  }

  lemma {:induction false} SumPLogPNonPositive(log2: real -> real, row: seq<real>)
    requires NonPositiveOnUnit(log2)
    requires forall i :: 0 <= i < |row| ==> 0.0 < row[i] <= 1.0
    ensures SumPLogP(log2, row) <= 0.0
  {
    if row != [] {
      SumPLogPNonPositive(log2, row[1..]);
      var p := row[0];
      assert log2(p) <= 0.0;
      assert p * log2(p) <= 0.0 by { NonNegTimesNonPos(p, log2(p)); }
    }
  }

  lemma NonNegTimesNonPos(a: real, b: real)
    requires a >= 0.0 && b <= 0.0
    ensures a * b <= 0.0
  {
  }

  /** Entropy is never negative, for any log2 that is non-positive on (0, 1]:
      clipping keeps every entry in (0, 1]. */
  lemma EntropyNonNegative(log2: real -> real, row: seq<real>)
    requires NonPositiveOnUnit(log2)
    ensures RowEntropy(log2, row) >= 0.0
  {
    SumPLogPNonPositive(log2, ClipRow(row));
  }

  /** A certain two-class prediction (1, 0) does not have entropy exactly 0:
      the 0 is clipped to 1e-15, whose term remains. */
  lemma CertainBinaryEntropy(log2: real -> real)
    requires log2(1.0) == 0.0
    ensures RowEntropy(log2, [1.0, 0.0]) == -(ClipFloor * log2(ClipFloor))
  {
    var c := ClipRow([1.0, 0.0]);
    assert c == [1.0, ClipFloor];
    assert c[1..] == [ClipFloor];
    assert c[1..][1..] == [];
  }

  /** The test row (0.5, 0.5) has entropy 1, given log2(0.5) = -1. */
  lemma UniformBinaryEntropy(log2: real -> real)
    requires log2(0.5) == -1.0
    ensures RowEntropy(log2, [0.5, 0.5]) == 1.0
  {
    BinaryEntropy(log2, 0.5);
  }

  /** The margin of one row: np.sort it ascending and subtract the
      second-to-last entry from the last. It is the largest entry minus the
      second-largest, and so never negative. */
  function RowMargin(row: seq<real>): (m: real)
    requires |row| >= 2
    ensures m == Max(row) - SecondMax(row)
    ensures m >= 0.0
  {
    var s := SortAscending(row);
    AscendingTopTwo(s, row);
    SecondMaxBounds(row);
    s[|s| - 1] - s[|s| - 2]
  }

  /** The margin is 0 exactly when the largest entry occurs twice or more. */
  lemma MarginZeroIff(row: seq<real>)
    requires |row| >= 2
    ensures RowMargin(row) == 0.0 <==> multiset(row)[Max(row)] >= 2
  {
    SecondMaxBounds(row);
  }

  /** The margin of a row does not depend on the order of its entries: the
      sorted rows of two permutations of each other are equal. */
  lemma MarginOrderIndependent(a: seq<real>, b: seq<real>)
    requires |a| >= 2 && multiset(a) == multiset(b)
    ensures |b| >= 2 && RowMargin(a) == RowMargin(b)
  {
    assert |a| == |multiset(a)| == |multiset(b)| == |b|;
    AscendingUnique(SortAscending(a), SortAscending(b));
  }

  /** sorted_probs[:, -2] raises IndexError when a row has fewer than two
      columns. */
  datatype MarginError = IndexError

  /** calculate_margin_uncertainty on an N x `width` matrix. */
  function MarginUncertainty(width: nat, probabilities: seq<seq<real>>): (r: Result<seq<real>, MarginError>)
    requires forall i :: 0 <= i < |probabilities| ==> |probabilities[i]| == width
    ensures r.Failure? <==> width < 2
    ensures r.Success? ==> |r.value| == |probabilities|
    ensures r.Success? ==> forall i :: 0 <= i < |probabilities| ==>
      r.value[i] == Max(probabilities[i]) - SecondMax(probabilities[i]) && r.value[i] >= 0.0
  {
    if width < 2 then Failure(IndexError)
    else Success(seq(|probabilities|, i requires 0 <= i < |probabilities| => RowMargin(probabilities[i])))
  }
}
