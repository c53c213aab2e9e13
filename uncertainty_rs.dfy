/** The Rust twin of the uncertainty measures (src_rust/src/lib.rs). Both
    functions take the probability matrix flattened into one slice and split
    it with `chunks(num_classes)`, producing one value per chunk. */
module RustUncertainty {
  import opened Sorting
  import Uncertainty

  function Min(a: int, b: int): int {
    if a <= b then a else b
  }

  /** slice::chunks(n): consecutive pieces of n values each, the last one
      shorter when n does not divide the length. */
  function Chunks(s: seq<real>, n: nat): (cs: seq<seq<real>>)
    requires n > 0
    ensures forall i :: 0 <= i < |cs| ==> 0 < |cs[i]| <= n
    decreases |s|
  {
    if s == [] then []
    else if |s| <= n then [s]
    else [s[..n]] + Chunks(s[n..], n)
  }

  /** There are ceil(|s| / n) chunks. */
  lemma {:induction false} ChunksCount(s: seq<real>, n: nat)
    requires n > 0
    ensures |Chunks(s, n)| == (|s| + n - 1) / n
    decreases |s|
  {
    if s == [] {
      DivUnique(n - 1, n, 0, n - 1);
    } else if |s| <= n {
      DivUnique(|s| + n - 1, n, 1, |s| - 1);
    } else {
      ChunksCount(s[n..], n);
      DivPlusOne(|s| + n - 1, n);
    }
  }

  lemma DivPlusOne(a: int, n: int)
    requires 0 < n <= a
    ensures a / n == (a - n) / n + 1
  {
    var q, r := (a - n) / n, (a - n) % n;
    assert a - n == q * n + r && 0 <= r < n;
    assert a == (q + 1) * n + r;
    DivUnique(a, n, q + 1, r);
  }

  /** Euclidean division has one quotient. */
  lemma DivUnique(a: int, n: int, q: int, r: int)
    requires 0 <= r < n && a == q * n + r
    ensures a / n == q
  {
    var q', r' := a / n, a % n;
    assert a == q' * n + r' && 0 <= r' < n;
    assert (q' - q) * n == r - r';
    if q' > q {
      MulAtLeast(q' - q, n);
    } else if q' < q {
      MulAtLeast(q - q', n);
    }
  }

  lemma MulAtLeast(d: int, n: int)
    requires d >= 1 && n > 0
    ensures d * n >= n
  {
  }

  /** Chunk i holds the values at positions i*n up to (i+1)*n, cut at the
      end of the slice. */
  lemma {:induction false} ChunkAt(s: seq<real>, n: nat, i: nat)
    requires n > 0 && i < |Chunks(s, n)|
    ensures i * n < |s|
    ensures Chunks(s, n)[i] == s[i * n .. Min((i + 1) * n, |s|)]
    decreases |s|
  {
    if i > 0 {
      assert |s| > n;
      var t := s[n..];
      assert Chunks(s, n) == [s[..n]] + Chunks(t, n);
      assert Chunks(s, n)[i] == Chunks(t, n)[i - 1];
      ChunkAt(t, n, i - 1);
      MulSucc(i, n);
      DropSlice(s, n, (i - 1) * n, Min(i * n, |t|));
    }
  }

  /** A slice of s[n..] is the slice of s shifted by n. */
  lemma DropSlice(s: seq<real>, n: nat, lo: int, hi: int)
    requires n <= |s| && 0 <= lo <= hi <= |s| - n
    ensures s[n..][lo..hi] == s[lo + n .. hi + n]
  {
  }

  lemma MulSucc(i: int, n: int)
    ensures (i - 1) * n + n == i * n
    ensures i * n + n == (i + 1) * n
  {
  }

  lemma ChunksAt(s: seq<real>, n: nat)
    requires n > 0
    ensures forall i :: 0 <= i < |Chunks(s, n)| ==>
      i * n < |s| && Chunks(s, n)[i] == s[i * n .. Min((i + 1) * n, |s|)]
  {
    forall i | 0 <= i < |Chunks(s, n)|
      ensures i * n < |s| && Chunks(s, n)[i] == s[i * n .. Min((i + 1) * n, |s|)]
    {
      ChunkAt(s, n, i);
    }
  }

  /** The first chunk and the chunks of what follows it. */
  lemma ChunksStep(s: seq<real>, n: nat)
    requires n > 0 && s != []
    ensures Chunks(s, n) == [s[..Min(n, |s|)]] + Chunks(s[Min(n, |s|)..], n)
  {
    if |s| <= n {
      assert s[..|s|] == s;
      assert s[|s|..] == [];
    }
  }

  /** The chunks of p from position start on: the piece of n values (fewer
      at the end) starting there, then the chunks after it. */
  lemma NextChunk(p: seq<real>, start: nat, n: nat)
    requires n > 0 && start < |p|
    ensures Chunks(p[start..], n) == [p[start..Min(start + n, |p|)]] + Chunks(p[Min(start + n, |p|)..], n)
  {
    var rest := p[start..];
    ChunksStep(rest, n);
    assert rest[..Min(n, |rest|)] == p[start..Min(start + n, |p|)];
    assert rest[Min(n, |rest|)..] == p[Min(start + n, |p|)..];
  }

  function Flatten(cs: seq<seq<real>>): seq<real>
  {
    if cs == [] then [] else cs[0] + Flatten(cs[1..])
  }

  /** The chunks, put back together, are the slice: nothing is lost,
      repeated or reordered. */
  lemma {:induction false} ChunksFlatten(s: seq<real>, n: nat)
    requires n > 0
    ensures Flatten(Chunks(s, n)) == s
    decreases |s|
  {
    if |s| > n {
      ChunksFlatten(s[n..], n);
      var cs := Chunks(s, n);
      assert cs[1..] == Chunks(s[n..], n);
      assert s == s[..n] + s[n..];
    } else if s != [] {
      assert Chunks(s, n)[1..] == [];
    }
  }

  /** One chunk's entropy: the sum of -p * log2(p) over the entries with
      p > 0, in slice order; the other entries are filtered out. */
  function ChunkEntropy(log2: real -> real, chunk: seq<real>): real
  {
    if chunk == [] then 0.0
    else (if chunk[0] > 0.0 then -chunk[0] * log2(chunk[0]) else 0.0) + ChunkEntropy(log2, chunk[1..])
  }

  /** calculate_shannon_entropy: one entropy per chunk of num_classes values. */
  function ShannonEntropy(log2: real -> real, probabilities: seq<real>, numClasses: nat): (h: seq<real>)
    requires numClasses > 0
    ensures |h| == (|probabilities| + numClasses - 1) / numClasses
    ensures forall i :: 0 <= i < |h| ==>
      (i * numClasses < |probabilities| &&
       h[i] == ChunkEntropy(log2, probabilities[i * numClasses .. Min((i + 1) * numClasses, |probabilities|)]))
  {
    var cs := Chunks(probabilities, numClasses);
    ChunksCount(probabilities, numClasses);
    ChunksAt(probabilities, numClasses);
    seq(|cs|, i requires 0 <= i < |cs| => ChunkEntropy(log2, cs[i]))
  }

  lemma {:induction false} ChunkEntropyAppend(log2: real -> real, a: seq<real>, b: seq<real>)
    ensures ChunkEntropy(log2, a + b) == ChunkEntropy(log2, a) + ChunkEntropy(log2, b)
  {
    if a == [] {
      assert a + b == b;
    } else {
      assert (a + b)[0] == a[0];
      assert (a + b)[1..] == a[1..] + b;
      ChunkEntropyAppend(log2, a[1..], b);
    }
  }

  /** An entry that is zero or negative contributes nothing, wherever it
      stands in the chunk. */
  lemma NonPositiveEntryIgnored(log2: real -> real, a: seq<real>, p: real, b: seq<real>)
    requires p <= 0.0
    ensures ChunkEntropy(log2, a + [p] + b) == ChunkEntropy(log2, a + b)
  {
    ChunkEntropyAppend(log2, a + [p], b);
    ChunkEntropyAppend(log2, a, [p]);
    ChunkEntropyAppend(log2, a, b);
    assert [p][1..] == [];
  }

  /** A chunk without a positive entry has entropy 0: the sum is empty. */
  lemma {:induction false} NoPositiveEntryZero(log2: real -> real, chunk: seq<real>)
    requires forall i :: 0 <= i < |chunk| ==> chunk[i] <= 0.0
    ensures ChunkEntropy(log2, chunk) == 0.0
  {
    if chunk != [] {
      NoPositiveEntryZero(log2, chunk[1..]);
    }
  }

  /** On a chunk whose entries all lie in [1e-15, 1.0], where neither the
      clipping of the Python version nor the filter of this one acts, the two
      entropies agree. */
  lemma AgreesWithPythonEntropy(log2: real -> real, chunk: seq<real>)
    requires forall i :: 0 <= i < |chunk| ==> Uncertainty.ClipFloor <= chunk[i] <= 1.0
    ensures ChunkEntropy(log2, chunk) == Uncertainty.RowEntropy(log2, chunk)
  {
    Uncertainty.ClipRowIdentity(chunk);
    NegatedSum(log2, chunk);
  }

  lemma {:induction false} NegatedSum(log2: real -> real, chunk: seq<real>)
    requires forall i :: 0 <= i < |chunk| ==> chunk[i] > 0.0
    ensures ChunkEntropy(log2, chunk) == -Uncertainty.SumPLogP(log2, chunk)
  {
    if chunk != [] {
      NegatedSum(log2, chunk[1..]);
    }
  }

  /** The unit test test_entropy: with two classes, [0.5, 0.5, 0.98, 0.02]
      gives entropy 1 for the first chunk and below 0.2 for the second, for
      any log2 within these bounds of the true values
      (log2 0.98 = -0.0291..., log2 0.02 = -5.643...). */
  lemma EntropyUnitTest(log2: real -> real)
    requires log2(0.5) == -1.0
    requires -0.03 <= log2(0.98) <= 0.0
    requires -5.7 <= log2(0.02) <= 0.0
    ensures |ShannonEntropy(log2, [0.5, 0.5, 0.98, 0.02], 2)| == 2
    ensures ShannonEntropy(log2, [0.5, 0.5, 0.98, 0.02], 2)[0] == 1.0
    ensures ShannonEntropy(log2, [0.5, 0.5, 0.98, 0.02], 2)[1] < 0.2
  {
    var s := [0.5, 0.5, 0.98, 0.02];
    var h := ShannonEntropy(log2, s, 2);
    assert s[0..2] == [0.5, 0.5];
    assert s[2..4] == [0.98, 0.02];
    assert ChunkEntropy(log2, [0.5]) == 0.5 by { assert [0.5][1..] == []; }
    assert [0.5, 0.5][1..] == [0.5];
    assert ChunkEntropy(log2, [0.02]) == -0.02 * log2(0.02) by { assert [0.02][1..] == []; }
    assert [0.98, 0.02][1..] == [0.02];
  }

  /** What one chunk's margin is: the largest entry minus the second-largest,
      or the single entry itself when the chunk has only one. */
  function ChunkMarginValue(chunk: seq<real>): real
    requires chunk != []
  {
    if |chunk| >= 2 then Max(chunk) - SecondMax(chunk) else chunk[0]
  }

  /** A chunk of two or more values never has a negative margin. */
  lemma ChunkMarginNonNegative(chunk: seq<real>)
    requires |chunk| >= 2
    ensures ChunkMarginValue(chunk) >= 0.0
  {
    SecondMaxBounds(chunk);
  }

  /** A chunk's margin does not depend on the order of its entries. */
  lemma ChunkMarginOrderIndependent(a: seq<real>, b: seq<real>)
    requires a != [] && multiset(a) == multiset(b)
    ensures b != [] && ChunkMarginValue(a) == ChunkMarginValue(b)
  {
    assert |a| == |multiset(a)| == |multiset(b)| == |b|;
    if |a| >= 2 {
      SecondMaxOfPermutation(a, b);
    } else {
      assert a == [a[0]] && b == [b[0]];
      assert a[0] in multiset(b);
    }
  }

  lemma SecondMaxOfPermutation(a: seq<real>, b: seq<real>)
    requires |a| >= 2 && multiset(a) == multiset(b)
    ensures |b| >= 2 && Max(a) == Max(b) && SecondMax(a) == SecondMax(b)
  {
    assert |a| == |multiset(a)| == |multiset(b)| == |b|;
    MaxOfPermutation(a, b);
    var m := Max(a);
    assert m in multiset(b);
    var ra, rb := RemoveOne(a, m), RemoveOne(b, m);
    assert multiset(ra) == multiset(rb);
    assert |multiset(ra)| == |a| - 1;
    MaxOfPermutation(ra, rb);
  }

  /** On chunks of two or more values the Rust margin and the Python margin
      agree; on a single value the Rust one returns it where Python raises. */
  lemma AgreesWithPythonMargin(chunk: seq<real>)
    requires |chunk| >= 2
    ensures ChunkMarginValue(chunk) == Uncertainty.RowMargin(chunk)
  {
  }

  /** sort_by(|a, b| b.partial_cmp(a)) on the local copy: descending, in
      place. */
  method SortDescending(a: array<real>)
    modifies a
    ensures Descending(a[..])
    ensures multiset(a[..]) == multiset(old(a[..]))
  {
    var i := 0;
    while i < a.Length
      invariant 0 <= i <= a.Length
      invariant forall k, l :: 0 <= k < l < i ==> a[k] >= a[l]
      invariant multiset(a[..]) == multiset(old(a[..]))
    {
      InsertDescending(a, i);
      i := i + 1;
    }
  }

  /** Moves a[i] left past every smaller entry, so that a[..i+1] is
      descending when a[..i] was. */
  method InsertDescending(a: array<real>, i: nat)
    requires i < a.Length
    requires forall k, l :: 0 <= k < l < i ==> a[k] >= a[l]
    modifies a
    ensures forall k, l :: 0 <= k < l <= i ==> a[k] >= a[l]
    ensures multiset(a[..]) == multiset(old(a[..]))
  {
    var j := i;
    while j > 0 && a[j - 1] < a[j]
      invariant 0 <= j <= i
      invariant forall k, l :: 0 <= k < l <= i && k != j && l != j ==> a[k] >= a[l]
      invariant forall l :: j < l <= i ==> a[j] > a[l]
      invariant multiset(a[..]) == multiset(old(a[..]))
    {
      a[j - 1], a[j] := a[j], a[j - 1];
      j := j - 1;
    }
  }

  /** One chunk's margin: copy the chunk, sort the copy descending, and take
      sorted[0] - sorted[1], or sorted[0] alone when the chunk has one value. */
  method ChunkMargin(chunk: seq<real>) returns (m: real)
    requires chunk != []
    ensures |chunk| >= 2 ==> m == Max(chunk) - SecondMax(chunk)
    ensures |chunk| == 1 ==> m == chunk[0]
  {
    var sorted := new real[|chunk|](i requires 0 <= i < |chunk| => chunk[i]);
    assert sorted[..] == chunk;
    SortDescending(sorted);
    if sorted.Length >= 2 {
      DescendingTopTwo(sorted[..], chunk);
      m := sorted[0] - sorted[1];
    } else {
      assert sorted[..] == [sorted[0]];
      assert sorted[0] in multiset(chunk);
      m := sorted[0];
    }
  }

  /** Per-chunk margins, restated over the explicit slices p[i*n .. (i+1)*n]. */
  lemma MarginsBySlices(p: seq<real>, n: nat, margins: seq<real>)
    requires n > 0
    requires |margins| == |Chunks(p, n)|
    requires forall i :: 0 <= i < |margins| ==> margins[i] == ChunkMarginValue(Chunks(p, n)[i])
    ensures |margins| == (|p| + n - 1) / n
    ensures forall i :: 0 <= i < |margins| ==>
      (i * n < |p| && margins[i] == ChunkMarginValue(p[i * n .. Min((i + 1) * n, |p|)]))
  {
    ChunksCount(p, n);
    ChunksAt(p, n);
  }

  /** calculate_margin_uncertainty: one margin per chunk of num_classes
      values. */
  method MarginUncertainty(probabilities: seq<real>, numClasses: nat) returns (margins: seq<real>)
    requires numClasses > 0
    ensures |margins| == (|probabilities| + numClasses - 1) / numClasses
    ensures forall i :: 0 <= i < |margins| ==>
      (i * numClasses < |probabilities| &&
       margins[i] == ChunkMarginValue(probabilities[i * numClasses .. Min((i + 1) * numClasses, |probabilities|)]))
  {
    ghost var chunks := Chunks(probabilities, numClasses);
    margins := [];
    var start := 0;
    while start < |probabilities|
      invariant 0 <= start <= |probabilities|
      invariant |margins| <= |chunks|
      invariant Chunks(probabilities[start..], numClasses) == chunks[|margins|..]
      invariant forall i :: 0 <= i < |margins| ==> margins[i] == ChunkMarginValue(chunks[i])
      decreases |probabilities| - start
    {
      var end := Min(start + numClasses, |probabilities|);
      var chunk := probabilities[start..end];
      NextChunk(probabilities, start, numClasses);
      assert chunks[|margins|..] == [chunk] + Chunks(probabilities[end..], numClasses);
      assert chunks[|margins|] == chunk;
      assert chunks[|margins| + 1..] == Chunks(probabilities[end..], numClasses);
      var m := ChunkMargin(chunk);
      margins := margins + [m];
      start := end;
    }
    MarginsBySlices(probabilities, numClasses, margins);
  }
}
