/** Temperature sharpening of class-probability rows (`sharpen`): every
    entry is raised to the power 1/T and each row is renormalised to sum to
    one. Only T = 1 (power 1) and the default T = 0.5 (power 2) are
    modelled. */
module Sharpening {
  import opened Wrappers
  import opened Tensor

  /** The sharpening temperature T. */
  datatype Temperature =
    | One   // T = 1: entries are kept, the row is only renormalised
    | Half  // T = 0.5, the default: entries are squared

  /** `v ** (1 / T)`. */
  function Power(v: real, t: Temperature): (p: real)
    ensures v >= 0.0 ==> p >= 0.0
  {
    match t
    case One => v
    case Half => v * v
  }

  /** A power of a positive value is positive. */
  lemma PowerPositive(v: real, t: Temperature)
    requires v > 0.0
    ensures Power(v, t) > 0.0
  {
    if t == Half {
      // A copy of `v` that the solver does not see as `v`, so it never faces the square itself.
      var w := v * 1.0;
      MulPositive(v, w);
      assert Power(v, t) == v * w;
    }
  }

  /** A power with a positive exponent keeps the order of non-negative values. */
  lemma PowerMonotone(u: real, v: real, t: Temperature)
    requires 0.0 <= v <= u
    ensures Power(v, t) <= Power(u, t)
  {
    if t == Half {
      // Copies of `v` and `u`, so the solver reasons about two products
      // of distinct factors instead of the squares themselves.
      var v', u' := v * 1.0, u * 1.0;
      MulMonotone(v, u, v');
      MulMonotone(v', u', u);
      assert Power(v, t) == v * v' && Power(u, t) == u' * u;
    }
  }

  /** `x ** (1 / T)` on one row. */
  function PowerRow(r: Row, t: Temperature): (p: Row)
    ensures |p| == |r|
    ensures forall k :: 0 <= k < |r| ==> p[k] == Power(r[k], t)
  {
    seq(|r|, k requires 0 <= k < |r| => Power(r[k], t))
  }

  /** One row divided by its sum. A zero sum is where the division breaks
      down (the tensor library yields NaN entries), modelled as an error. */
  function NormaliseRow(r: Row): (res: Result<Row>)
    ensures res.Ok? <==> Sum(r) != 0.0
    ensures res.Ok? ==> |res.value| == |r|
    ensures res.Ok? ==> forall k :: 0 <= k < |r| ==> res.value[k] == r[k] / Sum(r)
    ensures res.Ok? ==> Sum(res.value) == 1.0
    ensures res.Ok? && NonNegative(r) ==> Distribution(res.value)
  {
    var s := Sum(r);
    if s == 0.0 then
      Err(ZeroRowSum)
    else
      ScaleByInverse(r);
      Ok(Scale(r, 1.0 / s))
  }

  /** Scaling a row with a non-zero sum by the inverse of that sum divides
      every entry by the sum and makes the row sum to 1. */
  lemma ScaleByInverse(r: Row)
    requires Sum(r) != 0.0
    ensures var v := Scale(r, 1.0 / Sum(r));
      && (forall k :: 0 <= k < |r| ==> v[k] == r[k] / Sum(r))
      && Sum(v) == 1.0
      && (NonNegative(r) ==> Distribution(v))
  {
    var s := Sum(r);
    var f := 1.0 / s;
    var v := Scale(r, f);
    SumScale(r, f);
    InverseCancel(s);
    assert Sum(v) == 1.0;
    forall k | 0 <= k < |r|
      ensures v[k] == r[k] / s
    {
      MulInverse(r[k], s);
    }
    if NonNegative(r) {
      SumNonNegative(r);
      InversePositive(s);
      forall k | 0 <= k < |r|
        ensures v[k] >= 0.0
      {
        MulNonNegative(r[k], f);
      }
    }
  }

  /** Row-wise renormalisation `p / p.sum(dim=1, keepdims=True)`; it fails
      exactly when some row sums to zero. */
  function Normalise(m: Matrix): (res: Result<Matrix>)
    ensures res.Ok? <==> forall i :: 0 <= i < |m| ==> Sum(m[i]) != 0.0
    ensures res.Err? ==> res.error == ZeroRowSum
    ensures res.Ok? ==> |res.value| == |m|
    ensures res.Ok? ==> forall i :: 0 <= i < |m| ==> |res.value[i]| == |m[i]|
    ensures res.Ok? ==> forall i, k :: 0 <= i < |m| && 0 <= k < |m[i]| ==>
      res.value[i][k] == m[i][k] / Sum(m[i])
    ensures res.Ok? ==> forall i :: 0 <= i < |m| ==> Sum(res.value[i]) == 1.0
    ensures res.Ok? ==> forall i :: 0 <= i < |m| && NonNegative(m[i]) ==> Distribution(res.value[i])
  {
    if forall i :: 0 <= i < |m| ==> Sum(m[i]) != 0.0 then
      Ok(seq(|m|, i requires 0 <= i < |m| => NormaliseRow(m[i]).value))
    else
      Err(ZeroRowSum)
  }

  /** `sharpen(x, T)`. */
  function Sharpen(x: Matrix, t: Temperature): (res: Result<Matrix>)
    ensures res.Ok? <==> forall i :: 0 <= i < |x| ==> Sum(PowerRow(x[i], t)) != 0.0
    ensures res.Ok? ==> |res.value| == |x|
    ensures res.Ok? ==> forall i :: 0 <= i < |x| ==> |res.value[i]| == |x[i]|
    ensures res.Ok? ==> forall i :: 0 <= i < |x| && NonNegative(x[i]) ==> Distribution(res.value[i])
    ensures res.Ok? ==> forall i, k :: 0 <= i < |x| && 0 <= k < |x[i]| ==>
      res.value[i][k] == Power(x[i][k], t) / Sum(PowerRow(x[i], t))
  {
    var p := seq(|x|, i requires 0 <= i < |x| => PowerRow(x[i], t));
    assert forall i :: 0 <= i < |x| ==> p[i] == PowerRow(x[i], t);
    Normalise(p)
  }

  /** With T = 1 sharpening is plain row renormalisation. */
  lemma SharpenOneIsNormalise(x: Matrix)
    ensures Sharpen(x, One) == Normalise(x)
  {
    var p := seq(|x|, i requires 0 <= i < |x| => PowerRow(x[i], One));
    forall i | 0 <= i < |x|
      ensures p[i] == x[i]
    {
      assert PowerRow(x[i], One) == x[i];
    }
    assert p == x;
  }

  /** Raising a non-negative row with a positive sum to a positive power keeps the sum positive. */
  lemma PowerRowSumPositive(r: Row, t: Temperature)
    requires NonNegative(r) && Sum(r) > 0.0
    ensures Sum(PowerRow(r, t)) > 0.0
  {
    var k := PositiveEntry(r);
    PowerPositive(r[k], t);
    SumPositive(PowerRow(r, t), k);
  }

  /** Rows that are non-negative with a positive sum sharpen into probability
      distributions of the same width. */
  lemma SharpenDistribution(x: Matrix, t: Temperature)
    requires forall i :: 0 <= i < |x| ==> NonNegative(x[i]) && Sum(x[i]) > 0.0
    ensures Sharpen(x, t).Ok?
    ensures forall i :: 0 <= i < |x| ==>
      |Sharpen(x, t).value[i]| == |x[i]| && Distribution(Sharpen(x, t).value[i])
  {
    forall i | 0 <= i < |x|
      ensures Sum(PowerRow(x[i], t)) > 0.0
    {
      PowerRowSumPositive(x[i], t);
    }
  }

  /** An all-zero row makes sharpening divide zero by zero. */
  lemma SharpenZeroRow(x: Matrix, t: Temperature, i: nat)
    requires i < |x|
    requires forall k :: 0 <= k < |x[i]| ==> x[i][k] == 0.0
    ensures Sharpen(x, t) == Err(ZeroRowSum)
  {
    assert PowerRow(x[i], t) == Zeros(|x[i]|);
    SumZeros(|x[i]|);
  }

  /** Renormalising a row with a positive sum keeps the order of its entries. */
  lemma NormaliseRowKeepsOrder(r: Row, a: nat, b: nat)
    requires a < |r| && b < |r|
    requires Sum(r) > 0.0 && r[b] <= r[a]
    ensures NormaliseRow(r).value[b] <= NormaliseRow(r).value[a]
  {
    var s := Sum(r);
    var v := NormaliseRow(r).value;
    assert v[b] == r[b] / s && v[a] == r[a] / s;
    DivMonotone(r[b], r[a], s);
  }

  lemma MulInverse(x: real, s: real)
    requires s != 0.0
    ensures x * (1.0 / s) == x / s
  {
  }

  lemma InverseCancel(s: real)
    requires s != 0.0
    ensures s * (1.0 / s) == 1.0
  {
  }

  lemma DivMonotone(x: real, y: real, s: real)
    requires x <= y && s > 0.0
    ensures x / s <= y / s
  {
    assert y / s - x / s == (y - x) / s;
  }

  /** Sharpening keeps the order of the entries in a non-negative row, so the
      most likely class stays the most likely class. */
  lemma SharpenKeepsOrder(x: Matrix, t: Temperature, i: nat, a: nat, b: nat)
    requires i < |x| && a < |x[i]| && b < |x[i]|
    requires NonNegative(x[i])
    requires x[i][b] <= x[i][a]
    requires Sharpen(x, t).Ok?
    ensures Sharpen(x, t).value[i][b] <= Sharpen(x, t).value[i][a]
  {
    var m := seq(|x|, j requires 0 <= j < |x| => PowerRow(x[j], t));
    assert Sharpen(x, t) == Normalise(m);
    var p := PowerRow(x[i], t);
    assert m[i] == p;
    assert Normalise(m).value[i] == NormaliseRow(p).value;
    assert NonNegative(p);
    SumNonNegative(p);
    PowerMonotone(x[i][a], x[i][b], t);
    NormaliseRowKeepsOrder(p, a, b);
  }
}
