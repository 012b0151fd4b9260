/** The convex mixer `_mixup` and the shuffled self-mixing of a combined
    batch. The Beta(α, α) draw and the random permutation are parameters:
    `beta` is the drawn coefficient and `shuffle` the drawn permutation. */
module Mixup {
  import opened Wrappers
  import opened Tensor

  /** `max(β, 1 - β)`: the coefficient folded so that the first operand dominates. */
  function Fold(beta: real): (b: real)
    ensures b == beta || b == 1.0 - beta
    ensures b >= beta && b >= 1.0 - beta
  {
    if 1.0 - beta > beta then 1.0 - beta else beta
  }

  /** The folded coefficient lies in [1/2, 1] for every draw in [0, 1]. */
  lemma FoldRange(beta: real)
    requires 0.0 <= beta <= 1.0
    ensures 0.5 <= Fold(beta) <= 1.0
  {
  }

  /** `b * a + (1 - b) * c` on one pair of rows of one width. */
  function MixRow(a: Row, c: Row, b: real): (r: Row)
    requires |a| == |c|
    ensures |r| == |a|
    ensures forall k :: 0 <= k < |r| ==> r[k] == b * a[k] + (1.0 - b) * c[k]
  {
    seq(|a|, k requires 0 <= k < |a| => b * a[k] + (1.0 - b) * c[k])
  }

  /** Two matrices of the same shape. */
  predicate SameShape(m: Matrix, n: Matrix)
  {
    |m| == |n| && forall i :: 0 <= i < |m| ==> |m[i]| == |n[i]|
  }

  /** Elementwise `b * m + (1 - b) * n`; tensors of different shapes cannot be combined. */
  function MixRows(m: Matrix, n: Matrix, b: real): (r: Result<Matrix>)
    ensures r.Ok? <==> SameShape(m, n)
    ensures r.Err? ==> r.error == ShapeMismatch
    ensures r.Ok? ==> SameShape(r.value, m)
    ensures r.Ok? ==> forall i, k :: 0 <= i < |m| && 0 <= k < |m[i]| ==>
      r.value[i][k] == b * m[i][k] + (1.0 - b) * n[i][k]
    ensures r.Ok? ==> forall i :: 0 <= i < |m| ==> r.value[i] == MixRow(m[i], n[i], b)
  {
    if SameShape(m, n) then
      Ok(seq(|m|, i requires 0 <= i < |m| => MixRow(m[i], n[i], b)))
    else
      Err(ShapeMismatch)
  }

  /** `_mixup(x1, y1, x2, y2)` for a drawn coefficient `beta`: inputs and
      targets are mixed with the same folded coefficient. */
  function MixUp(x1: Matrix, y1: Matrix, x2: Matrix, y2: Matrix, beta: real): (r: Result<(Matrix, Matrix)>)
    ensures r.Ok? <==> SameShape(x1, x2) && SameShape(y1, y2)
    ensures r.Ok? ==> SameShape(r.value.0, x1) && SameShape(r.value.1, y1)
    ensures r.Ok? ==> forall i, k :: 0 <= i < |x1| && 0 <= k < |x1[i]| ==>
      r.value.0[i][k] == Fold(beta) * x1[i][k] + (1.0 - Fold(beta)) * x2[i][k]
    ensures r.Ok? ==> forall i, k :: 0 <= i < |y1| && 0 <= k < |y1[i]| ==>
      r.value.1[i][k] == Fold(beta) * y1[i][k] + (1.0 - Fold(beta)) * y2[i][k]
    ensures r.Ok? ==> forall i :: 0 <= i < |x1| ==> r.value.0[i] == MixRow(x1[i], x2[i], Fold(beta))
    ensures r.Ok? ==> forall i :: 0 <= i < |y1| ==> r.value.1[i] == MixRow(y1[i], y2[i], Fold(beta))
  {
    var b := Fold(beta);
    var x :- MixRows(x1, x2, b);
    var y :- MixRows(y1, y2, b);
    Ok((x, y))
  }

  /** Every mixed entry lies between the two entries it mixes. */
  lemma MixUpBetween(x1: Matrix, y1: Matrix, x2: Matrix, y2: Matrix, beta: real)
    requires 0.0 <= beta <= 1.0
    requires MixUp(x1, y1, x2, y2, beta).Ok?
    ensures forall i, k :: 0 <= i < |x1| && 0 <= k < |x1[i]| ==>
      Between(MixUp(x1, y1, x2, y2, beta).value.0[i][k], x1[i][k], x2[i][k])
    ensures forall i, k :: 0 <= i < |y1| && 0 <= k < |y1[i]| ==>
      Between(MixUp(x1, y1, x2, y2, beta).value.1[i][k], y1[i][k], y2[i][k])
  {
    var b := Fold(beta);
    FoldRange(beta);
    forall i, k | 0 <= i < |x1| && 0 <= k < |x1[i]|
      ensures Between(MixUp(x1, y1, x2, y2, beta).value.0[i][k], x1[i][k], x2[i][k])
    {
      ConvexBetween(x1[i][k], x2[i][k], b);
    }
    forall i, k | 0 <= i < |y1| && 0 <= k < |y1[i]|
      ensures Between(MixUp(x1, y1, x2, y2, beta).value.1[i][k], y1[i][k], y2[i][k])
    {
      ConvexBetween(y1[i][k], y2[i][k], b);
    }
  }

  /** `v` lies on the segment between `p` and `q`. */
  predicate Between(v: real, p: real, q: real)
  {
    (p <= v <= q) || (q <= v <= p)
  }

  lemma ConvexBetween(p: real, q: real, b: real)
    requires 0.0 <= b <= 1.0
    ensures Between(b * p + (1.0 - b) * q, p, q)
  {
    if p <= q {
      MulNonNegative(b, q - p);
      MulNonNegative(1.0 - b, q - p);
    } else {
      MulNonNegative(b, p - q);
      MulNonNegative(1.0 - b, p - q);
    }
  }

  /** Mixing a batch with an unshuffled copy of itself returns it unchanged. */
  lemma MixUpSelf(x: Matrix, y: Matrix, beta: real)
    ensures MixUp(x, y, x, y, beta) == Ok((x, y))
  {
    var b := Fold(beta);
    var r := MixUp(x, y, x, y, beta).value;
    forall i | 0 <= i < |x|
      ensures r.0[i] == x[i]
    {
      forall k | 0 <= k < |x[i]|
        ensures r.0[i][k] == x[i][k]
      {
        assert r.0[i][k] == b * x[i][k] + (1.0 - b) * x[i][k];
      }
    }
    forall i | 0 <= i < |y|
      ensures r.1[i] == y[i]
    {
      forall k | 0 <= k < |y[i]|
        ensures r.1[i][k] == y[i][k]
      {
        assert r.1[i][k] == b * y[i][k] + (1.0 - b) * y[i][k];
      }
    }
    assert r.0 == x && r.1 == y;
  }

  /** `p` is a permutation of 0 .. n-1, as drawn by `randperm(n)`. */
  predicate IsPermutation(p: seq<nat>, n: nat)
  {
    && |p| == n
    && (forall i :: 0 <= i < n ==> p[i] < n)
    && (forall i, j :: 0 <= i < j < n ==> p[i] != p[j])
  }

  /** The identity permutation of 0 .. n-1. */
  function Identity(n: nat): (p: seq<nat>)
    ensures IsPermutation(p, n)
    ensures forall i :: 0 <= i < n ==> p[i] == i
  {
    seq(n, i => i)
  }

  /** Row gathering `m[idx]`; an index past the last row is an error. */
  function Gather(m: Matrix, idx: seq<nat>): (r: Result<Matrix>)
    ensures r.Ok? <==> forall i :: 0 <= i < |idx| ==> idx[i] < |m|
    ensures r.Err? ==> r.error == IndexError
    ensures r.Ok? ==> |r.value| == |idx| && forall i :: 0 <= i < |idx| ==> r.value[i] == m[idx[i]]
  {
    if forall i :: 0 <= i < |idx| ==> idx[i] < |m| then
      Ok(seq(|idx|, i requires 0 <= i < |idx| => m[idx[i]]))
    else
      Err(IndexError)
  }

  /** Gathering a rectangular matrix along a permutation of its rows keeps its shape. */
  lemma GatherPermutationShape(m: Matrix, p: seq<nat>)
    requires Rectangular(m) && IsPermutation(p, |m|)
    ensures Gather(m, p).Ok? && SameShape(Gather(m, p).value, m)
  {
  }

  /** `_mixup(Wx, Wy, Wx[shuffle], Wy[shuffle])`: a combined batch mixed with a
      shuffled copy of itself. The gathers happen before the mixing. */
  function MixBatch(wx: Matrix, wy: Matrix, shuffle: seq<nat>, beta: real): (r: Result<(Matrix, Matrix)>)
    ensures (exists i :: 0 <= i < |shuffle| && shuffle[i] >= |wx|) ==> r == Err(IndexError)
    ensures r.Ok? ==> |shuffle| == |wx| == |wy| && forall i :: 0 <= i < |shuffle| ==> shuffle[i] < |wx|
    ensures r.Ok? ==> SameShape(r.value.0, wx) && SameShape(r.value.1, wy)
    ensures r.Ok? ==> forall i :: 0 <= i < |wx| ==>
      |wx[shuffle[i]]| == |wx[i]| && r.value.0[i] == MixRow(wx[i], wx[shuffle[i]], Fold(beta))
    ensures r.Ok? ==> forall i :: 0 <= i < |wy| ==>
      |wy[shuffle[i]]| == |wy[i]| && r.value.1[i] == MixRow(wy[i], wy[shuffle[i]], Fold(beta))
  {
    var x2 :- Gather(wx, shuffle);
    var y2 :- Gather(wy, shuffle);
    MixUp(wx, wy, x2, y2, beta)
  }

  /** `m` is `w` mixed with its rows reordered by `shuffle`, with weight `b`
      on the original: entry `k` of row `i` is `b * w[i][k] + (1 - b) * w[shuffle[i]][k]`. */
  predicate MixedWith(m: Matrix, w: Matrix, shuffle: seq<nat>, b: real)
  {
    && |w| == |shuffle| && SameShape(m, w)
    && (forall i :: 0 <= i < |shuffle| ==> shuffle[i] < |w| && |w[shuffle[i]]| == |w[i]|)
    && (forall i, k :: 0 <= i < |w| && 0 <= k < |w[i]| ==>
          m[i][k] == b * w[i][k] + (1.0 - b) * w[shuffle[i]][k])
  }

  /** Entry `k` of mixed row `i` combines entry `k` of row `i` with entry `k`
      of the row `shuffle[i]` names. */
  lemma MixBatchEntries(wx: Matrix, wy: Matrix, shuffle: seq<nat>, beta: real)
    requires MixBatch(wx, wy, shuffle, beta).Ok?
    ensures var r := MixBatch(wx, wy, shuffle, beta).value;
      MixedWith(r.0, wx, shuffle, Fold(beta)) && MixedWith(r.1, wy, shuffle, Fold(beta))
  {
    var r := MixBatch(wx, wy, shuffle, beta).value;
    MixedEntries(wx, r.0, shuffle, Fold(beta));
    MixedEntries(wy, r.1, shuffle, Fold(beta));
  }

  /** Rows mixed with the rows `shuffle` names, entry by entry. */
  lemma MixedEntries(w: Matrix, m: Matrix, shuffle: seq<nat>, b: real)
    requires |w| == |shuffle| && forall i :: 0 <= i < |shuffle| ==> shuffle[i] < |w|
    requires SameShape(m, w)
    requires forall i :: 0 <= i < |w| ==>
      |w[shuffle[i]]| == |w[i]| && m[i] == MixRow(w[i], w[shuffle[i]], b)
    ensures MixedWith(m, w, shuffle, b)
  {
    forall i, k | 0 <= i < |w| && 0 <= k < |w[i]|
      ensures m[i][k] == b * w[i][k] + (1.0 - b) * w[shuffle[i]][k]
    {
      assert m[i] == MixRow(w[i], w[shuffle[i]], b);
    }
  }

  /** With inputs and targets of equal row count and a permutation of those
      rows, mixing succeeds and keeps both shapes. */
  lemma MixBatchShape(wx: Matrix, wy: Matrix, shuffle: seq<nat>, beta: real)
    requires Rectangular(wx) && Rectangular(wy)
    requires |wx| == |wy| && IsPermutation(shuffle, |wx|)
    ensures MixBatch(wx, wy, shuffle, beta).Ok?
    ensures SameShape(MixBatch(wx, wy, shuffle, beta).value.0, wx)
    ensures SameShape(MixBatch(wx, wy, shuffle, beta).value.1, wy)
  {
    GatherPermutationShape(wx, shuffle);
    GatherPermutationShape(wy, shuffle);
  }

  /** When the targets do not have one row per input row, no permutation of
      the input rows can be mixed. */
  lemma MixBatchRowMismatch(wx: Matrix, wy: Matrix, shuffle: seq<nat>, beta: real)
    requires |wx| != |wy| && |shuffle| == |wx|
    ensures MixBatch(wx, wy, shuffle, beta).Err?
  {
  }

  /** The identity permutation leaves the combined batch unmixed. */
  lemma MixBatchIdentity(wx: Matrix, wy: Matrix, beta: real)
    requires |wx| == |wy|
    ensures MixBatch(wx, wy, Identity(|wx|), beta) == Ok((wx, wy))
  {
    var id := Identity(|wx|);
    assert Gather(wx, id).value == wx;
    assert Gather(wy, id).value == wy;
    MixUpSelf(wx, wy, beta);
  }

  /** The sum of a mixed row is the same mix of the two sums. */
  lemma {:induction false} MixRowSum(a: Row, c: Row, b: real)
    requires |a| == |c|
    ensures Sum(MixRow(a, c, b)) == b * Sum(a) + (1.0 - b) * Sum(c)
  {
    if |a| > 0 {
      MixRowTail(a, c, b);
      MixRowSum(a[1..], c[1..], b);
      MixSumStep(b, a[0], c[0], Sum(a[1..]), Sum(c[1..]));
    }
  }

  /** Mixing commutes with dropping the first entry. */
  lemma MixRowTail(a: Row, c: Row, b: real)
    requires |a| == |c| && |a| > 0
    ensures MixRow(a, c, b)[1..] == MixRow(a[1..], c[1..], b)
  {
    var m, tail := MixRow(a, c, b), MixRow(a[1..], c[1..], b);
    forall k | 0 <= k < |a| - 1
      ensures m[1..][k] == tail[k]
    {
      assert m[k + 1] == b * a[k + 1] + (1.0 - b) * c[k + 1];
    }
  }

  /** The arithmetic of one step of `MixRowSum`: mixing distributes over a sum. */
  lemma MixSumStep(b: real, x: real, y: real, sx: real, sy: real)
    ensures (b * x + (1.0 - b) * y) + (b * sx + (1.0 - b) * sy)
         == b * (x + sx) + (1.0 - b) * (y + sy)
  {
  }

  /** A convex mix of two probability distributions is a probability distribution. */
  lemma MixRowDistribution(a: Row, c: Row, b: real)
    requires |a| == |c| && Distribution(a) && Distribution(c)
    requires 0.0 <= b <= 1.0
    ensures Distribution(MixRow(a, c, b))
  {
    MixRowSum(a, c, b);
    forall k | 0 <= k < |a|
      ensures MixRow(a, c, b)[k] >= 0.0
    {
      MulNonNegative(b, a[k]);
      MulNonNegative(1.0 - b, c[k]);
    }
  }

  /** When every target row is a class distribution, so is every mixed target row. */
  lemma MixBatchTargetDistributions(wx: Matrix, wy: Matrix, shuffle: seq<nat>, beta: real)
    requires 0.0 <= beta <= 1.0
    requires forall i :: 0 <= i < |wy| ==> Distribution(wy[i])
    requires MixBatch(wx, wy, shuffle, beta).Ok?
    ensures forall i :: 0 <= i < |wy| ==> Distribution(MixBatch(wx, wy, shuffle, beta).value.1[i])
  {
    var y2 := Gather(wy, shuffle).value;
    var x2 := Gather(wx, shuffle).value;
    assert MixBatch(wx, wy, shuffle, beta) == MixUp(wx, wy, x2, y2, beta);
    FoldRange(beta);
    forall i | 0 <= i < |wy|
      ensures Distribution(MixBatch(wx, wy, shuffle, beta).value.1[i])
    {
      MixRowDistribution(wy[i], y2[i], Fold(beta));
    }
  }
}
