/** Dense real-valued tensors as nested sequences, with the row sums and
    elementwise operations the rest of the model is stated in. Floating-point
    rounding is not modelled: every entry is an exact real. */
module Tensor {

  /** One row of a 2-D tensor (an example's features or class scores). */
  type Row = seq<real>

  /** A 2-D tensor: a batch of rows. */
  type Matrix = seq<Row>

  /** Sum of the entries of a row (`x.sum()`). */
  function Sum(r: Row): real
  {
    if |r| == 0 then 0.0 else r[0] + Sum(r[1..])
  }

  /** The row of `w` zeros. */
  function Zeros(w: nat): (z: Row)
    ensures |z| == w
    ensures forall k :: 0 <= k < w ==> z[k] == 0.0
  {
    seq(w, _ => 0.0)
  }

  /** Entrywise sum of two rows of one width. */
  function Add(a: Row, b: Row): (c: Row)
    requires |a| == |b|
    ensures |c| == |a|
    ensures forall k :: 0 <= k < |c| ==> c[k] == a[k] + b[k]
  {
    seq(|a|, k requires 0 <= k < |a| => a[k] + b[k])
  }

  /** Every entry multiplied by `f`. */
  function Scale(r: Row, f: real): (s: Row)
    ensures |s| == |r|
    ensures forall k :: 0 <= k < |s| ==> s[k] == r[k] * f
  {
    seq(|r|, k requires 0 <= k < |r| => r[k] * f)
  }

  predicate NonNegative(r: Row)
  {
    forall k :: 0 <= k < |r| ==> r[k] >= 0.0
  }

  /** A probability vector: non-negative entries summing to one. */
  predicate Distribution(r: Row)
  {
    NonNegative(r) && Sum(r) == 1.0
  }

  /** Every row of `m` has `w` columns. */
  predicate HasWidth(m: Matrix, w: nat)
  {
    forall i :: 0 <= i < |m| ==> |m[i]| == w
  }

  /** All rows of `m` have the same number of columns, as in any 2-D tensor. */
  predicate Rectangular(m: Matrix)
  {
    forall i, j :: 0 <= i < |m| && 0 <= j < |m| ==> |m[i]| == |m[j]|
  }

  /** `m` has shape (rows, cols). */
  predicate HasShape(m: Matrix, rows: nat, cols: nat)
  {
    |m| == rows && HasWidth(m, cols)
  }

  lemma {:induction false} SumZeros(w: nat)
    ensures Sum(Zeros(w)) == 0.0
  {
    if w > 0 {
      assert Zeros(w)[1..] == Zeros(w - 1);
      SumZeros(w - 1);
    }
  }

  /** The sum of an entrywise sum is the sum of the sums. */
  lemma {:induction false} SumAdd(a: Row, b: Row)
    requires |a| == |b|
    ensures Sum(Add(a, b)) == Sum(a) + Sum(b)
  {
    if |a| > 0 {
      assert Add(a, b)[1..] == Add(a[1..], b[1..]);
      SumAdd(a[1..], b[1..]);
    }
  }

  /** Scaling every entry scales the sum. */
  lemma {:induction false} SumScale(r: Row, f: real)
    ensures Sum(Scale(r, f)) == Sum(r) * f
  {
    if |r| > 0 {
      forall k | 0 <= k < |r| - 1
        ensures Scale(r, f)[1..][k] == Scale(r[1..], f)[k]
      {
        assert Scale(r, f)[k + 1] == r[k + 1] * f;
      }
      assert Scale(r, f)[1..] == Scale(r[1..], f);
      SumScale(r[1..], f);
    }
  }

  /** A non-negative row has a non-negative sum. */
  lemma {:induction false} SumNonNegative(r: Row)
    requires NonNegative(r)
    ensures Sum(r) >= 0.0
  {
    if |r| > 0 {
      SumNonNegative(r[1..]);
    }
  }

  /** A non-negative row with a positive entry has a positive sum. */
  lemma {:induction false} SumPositive(r: Row, k: nat)
    requires NonNegative(r)
    requires k < |r| && r[k] > 0.0
    ensures Sum(r) > 0.0
  {
    if k == 0 {
      SumNonNegative(r[1..]);
    } else {
      SumPositive(r[1..], k - 1);
    }
  }

  /** A non-negative row whose sum is positive has a positive entry. */
  lemma {:induction false} PositiveEntry(r: Row) returns (k: nat)
    requires NonNegative(r)
    requires Sum(r) > 0.0
    ensures k < |r| && r[k] > 0.0
  {
    if r[0] > 0.0 {
      k := 0;
    } else {
      var k' := PositiveEntry(r[1..]);
      k := k' + 1;
    }
  }

  lemma MulPositive(a: real, b: real)
    requires a > 0.0 && b > 0.0
    ensures a * b > 0.0
  {
  }

  lemma MulNonNegative(a: real, c: real)
    requires a >= 0.0 && c >= 0.0
    ensures a * c >= 0.0
  {
  }

  /** Integer division and remainder are determined by `j == d * q + r` with `0 <= r < d`. */
  lemma DivModUnique(j: int, d: nat, q: int, r: int)
    requires d > 0 && 0 <= r < d && j == d * q + r
    ensures j / d == q && j % d == r
  {
    var q', r' := j / d, j % d;
    assert j == d * q' + r';
    if q' > q {
      assert d * q' >= d * (q + 1) by { MulLe(d, q + 1, q'); }
    } else if q' < q {
      assert d * q >= d * (q' + 1) by { MulLe(d, q' + 1, q); }
    }
  }

  /** Multiplying by a natural keeps order. */
  lemma MulLe(d: nat, a: int, b: int)
    requires a <= b
    ensures d * a <= d * b
  {
    assert d * b - d * a == d * (b - a);
  }

  /** Multiplying by a non-negative factor keeps order. */
  lemma MulMonotone(c: real, d: real, f: real)
    requires c <= d && f >= 0.0
    ensures c * f <= d * f
  {
    assert (d - c) * f >= 0.0;
  }

  lemma InversePositive(s: real)
    requires s > 0.0
    ensures 1.0 / s > 0.0
  {
  }
}
