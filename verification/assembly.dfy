/** The batch assembly done at the start of every MixMatch training step
    (`on_batch_begin`, after the labeled batch is drawn): one-hot labeled
    targets, the flattened unlabeled views, the sharpened pseudo-labels and
    their replication, the combined batch `Wx`/`Wy` with the labeled rows
    first, and the shuffled self-mix. The model's class probabilities for
    each view (`softmax(model(last_input[:, i]))`) are a parameter. */
module Assembly {
  import opened Wrappers
  import opened Tensor
  import opened Sharpening
  import opened Mixup

  // ---------------------------------------------------------------------
  // Labeled targets: `torch.eye(n_classes)[Xy]`
  // ---------------------------------------------------------------------

  /** Row `c` of the n-by-n identity matrix. */
  function OneHotRow(n: nat, c: nat): (r: Row)
    requires c < n
    ensures |r| == n
    ensures forall k :: 0 <= k < n ==> r[k] == (if k == c then 1.0 else 0.0)
    ensures Distribution(r)
  {
    var r := seq(n, k => if k == c then 1.0 else 0.0);
    SumOneHot(n, c);
    r
  }

  lemma {:induction false} SumOneHot(n: nat, c: nat)
    requires c < n
    ensures Sum(seq(n, k => if k == c then 1.0 else 0.0)) == 1.0
  {
    var r := seq(n, k => if k == c then 1.0 else 0.0);
    if c == 0 {
      assert r[1..] == Zeros(n - 1);
      SumZeros(n - 1);
    } else {
      assert r[1..] == seq(n - 1, k => if k == c - 1 then 1.0 else 0.0);
      SumOneHot(n - 1, c - 1);
    }
  }

  /** The row a tensor index `c` selects among `n` rows: negative indices count from the end. */
  function Wrap(c: int, n: nat): int
  {
    if c < 0 then c + n else c
  }

  /** `torch.eye(n)[xy]`: one one-hot row per label; a label outside
      -n .. n-1 is an index error. */
  function OneHot(n: nat, xy: seq<int>): (r: Result<Matrix>)
    ensures r.Ok? <==> forall i :: 0 <= i < |xy| ==> -(n as int) <= xy[i] < n
    ensures r.Err? ==> r.error == IndexError
    ensures r.Ok? ==> HasShape(r.value, |xy|, n)
    ensures r.Ok? ==> forall i :: 0 <= i < |xy| ==> Distribution(r.value[i])
    ensures r.Ok? ==> forall i, k :: 0 <= i < |xy| && 0 <= k < n ==>
      r.value[i][k] == (if k == Wrap(xy[i], n) then 1.0 else 0.0)
  {
    if forall i :: 0 <= i < |xy| ==> -(n as int) <= xy[i] < n then
      Ok(seq(|xy|, i requires 0 <= i < |xy| => OneHotRow(n, Wrap(xy[i], n))))
    else
      Err(IndexError)
  }

  /** Labels in 0 .. n-1 select their own row of the identity matrix. */
  lemma OneHotInRange(n: nat, xy: seq<int>)
    requires forall i :: 0 <= i < |xy| ==> 0 <= xy[i] < n
    ensures OneHot(n, xy).Ok?
    ensures forall i :: 0 <= i < |xy| ==> OneHot(n, xy).value[i] == OneHotRow(n, xy[i])
  {
    forall i | 0 <= i < |xy|
      ensures OneHot(n, xy).value[i] == OneHotRow(n, xy[i])
    {
      assert Wrap(xy[i], n) == xy[i];
    }
  }

  // ---------------------------------------------------------------------
  // Unlabeled inputs: `last_input.view([-1] + shape)`
  // ---------------------------------------------------------------------

  /** A batch of unlabeled examples, each with `views` augmented views. */
  predicate ViewBatch(u: seq<Matrix>, views: nat)
  {
    forall b :: 0 <= b < |u| ==> |u[b]| == views
  }

  /** Index `j` past the first block of `d` is one block further on. */
  lemma DivModShift(d: nat)
    requires d > 0
    ensures forall j: int :: j >= d ==> j / d == (j - d) / d + 1 && j % d == (j - d) % d
  {
    forall j: int | j >= d
      ensures j / d == (j - d) / d + 1 && j % d == (j - d) % d
    {
      var q, r := (j - d) / d, (j - d) % d;
      assert j == d * (q + 1) + r;
      DivModUnique(j, d, q + 1, r);
    }
  }

  /** `r` is `u` with its view axis flattened into the batch axis: row j is
      view `j % views` of example `j / views`. */
  predicate FlatRows(u: seq<Matrix>, views: nat, r: Matrix)
  {
    && |r| == |u| * views
    && forall j :: 0 <= j < |r| ==>
         && views > 0 && 0 <= j / views < |u| && j % views < |u[j / views]|
         && r[j] == u[j / views][j % views]
  }

  /** Prepending one example's views to the flattened rest keeps the
      index law of flattening. */
  lemma FlattenStep(u: seq<Matrix>, views: nat, rest: Matrix)
    requires |u| > 0 && ViewBatch(u, views)
    requires FlatRows(u[1..], views, rest)
    ensures FlatRows(u, views, u[0] + rest)
  {
    var r := u[0] + rest;
    assert |u| * views == views + (|u| - 1) * views;
    if views > 0 {
      DivModShift(views);
      forall j | 0 <= j < |r|
        ensures 0 <= j / views < |u| && j % views < |u[j / views]| && r[j] == u[j / views][j % views]
      {
        if j < views {
          DivModUnique(j, views, 0, j);
        } else {
          assert r[j] == rest[j - views];
          assert u[1..][(j - views) / views] == u[j / views];
        }
      }
    }
  }

  /** Flattening the view axis into the batch axis: B examples of K views
      become B·K rows, row j being view `j % K` of example `j / K`. */
  function Flatten(u: seq<Matrix>, views: nat): (r: Matrix)
    requires ViewBatch(u, views)
    ensures FlatRows(u, views, r)
  {
    if |u| == 0 then []
    else
      var rest := Flatten(u[1..], views);
      FlattenStep(u, views, rest);
      u[0] + rest
  }

  // ---------------------------------------------------------------------
  // Pseudo-labels: `sharpen(softmax(stack(preds)).mean(dim=1), T)`
  // ---------------------------------------------------------------------

  /** Column `k` of a batch of rows: entry `k` of every row. */
  function Column(rows: seq<Row>, k: nat): (c: Row)
    requires forall i :: 0 <= i < |rows| ==> k < |rows[i]|
    ensures |c| == |rows|
    ensures forall i :: 0 <= i < |rows| ==> c[i] == rows[i][k]
  {
    seq(|rows|, i requires 0 <= i < |rows| => rows[i][k])
  }

  /** Entrywise sum of rows of width `w`: entry `k` is the sum of column `k`. */
  function SumRows(rows: seq<Row>, w: nat): (s: Row)
    requires HasWidth(rows, w)
    ensures |s| == w
    ensures forall k :: 0 <= k < w ==> s[k] == Sum(Column(rows, k))
  {
    if |rows| == 0 then Zeros(w)
    else
      ColumnTail(rows, w);
      Add(rows[0], SumRows(rows[1..], w))
  }

  /** Dropping the first row drops the first entry of every column. */
  lemma ColumnTail(rows: seq<Row>, w: nat)
    requires |rows| > 0 && HasWidth(rows, w)
    ensures forall k :: 0 <= k < w ==> Sum(Column(rows, k)) == rows[0][k] + Sum(Column(rows[1..], k))
  {
    forall k | 0 <= k < w
      ensures Sum(Column(rows, k)) == rows[0][k] + Sum(Column(rows[1..], k))
    {
      assert Column(rows, k)[1..] == Column(rows[1..], k);
    }
  }

  /** The sum of all entries of all rows. */
  function TotalSum(rows: seq<Row>): real
  {
    if |rows| == 0 then 0.0 else Sum(rows[0]) + TotalSum(rows[1..])
  }

  lemma {:induction false} SumOfSumRows(rows: seq<Row>, w: nat)
    requires HasWidth(rows, w)
    ensures Sum(SumRows(rows, w)) == TotalSum(rows)
  {
    if |rows| == 0 {
      SumZeros(w);
    } else {
      SumAdd(rows[0], SumRows(rows[1..], w));
      SumOfSumRows(rows[1..], w);
    }
  }

  lemma {:induction false} SumRowsNonNegative(rows: seq<Row>, w: nat)
    requires HasWidth(rows, w)
    requires forall i :: 0 <= i < |rows| ==> NonNegative(rows[i])
    ensures NonNegative(SumRows(rows, w))
  {
    if |rows| > 0 {
      SumRowsNonNegative(rows[1..], w);
    }
  }

  lemma {:induction false} TotalOfDistributions(rows: seq<Row>)
    requires forall i :: 0 <= i < |rows| ==> Distribution(rows[i])
    ensures TotalSum(rows) == |rows| as real
  {
    if |rows| > 0 {
      TotalOfDistributions(rows[1..]);
    }
  }

  /** `.mean(dim=1)` over the views of one example: entry `k` is the mean of column `k`. */
  function MeanRow(rows: seq<Row>, w: nat): (m: Row)
    requires |rows| > 0 && HasWidth(rows, w)
    ensures |m| == w
    ensures forall k :: 0 <= k < w ==> m[k] == Sum(Column(rows, k)) / (|rows| as real)
  {
    var n := |rows| as real;
    var s := SumRows(rows, w);
    forall k | 0 <= k < w
      ensures s[k] * (1.0 / n) == Sum(Column(rows, k)) / n
    {
      MulInverse(s[k], n);
    }
    Scale(s, 1.0 / n)
  }

  /** The mean of probability distributions is a probability distribution. */
  lemma MeanOfDistributions(rows: seq<Row>, w: nat)
    requires |rows| > 0 && HasWidth(rows, w)
    requires forall i :: 0 <= i < |rows| ==> Distribution(rows[i])
    ensures Distribution(MeanRow(rows, w))
  {
    MeanTotal(rows, w);
    MeanNonNegative(rows, w);
  }

  /** The entries of a mean of distributions add up to one. */
  lemma MeanTotal(rows: seq<Row>, w: nat)
    requires |rows| > 0 && HasWidth(rows, w)
    requires forall i :: 0 <= i < |rows| ==> Distribution(rows[i])
    ensures Sum(MeanRow(rows, w)) == 1.0
  {
    var n := |rows| as real;
    var s := SumRows(rows, w);
    assert MeanRow(rows, w) == Scale(s, 1.0 / n);
    SumScale(s, 1.0 / n);
    SumOfSumRows(rows, w);
    TotalOfDistributions(rows);
    InverseCancel(n);
  }

  /** The mean of non-negative rows is non-negative. */
  lemma MeanNonNegative(rows: seq<Row>, w: nat)
    requires |rows| > 0 && HasWidth(rows, w)
    requires forall i :: 0 <= i < |rows| ==> Distribution(rows[i])
    ensures NonNegative(MeanRow(rows, w))
  {
    var s := SumRows(rows, w);
    var f := 1.0 / (|rows| as real);
    SumRowsNonNegative(rows, w);
    InversePositive(|rows| as real);
    forall k | 0 <= k < w
      ensures MeanRow(rows, w)[k] >= 0.0
    {
      MulNonNegative(s[k], f);
    }
  }

  /** The per-view predictions can be stacked: at least one, all of one 2-D shape. */
  predicate StackShape(vp: seq<Matrix>)
  {
    |vp| > 0 && Rectangular(vp[0]) && forall i :: 0 <= i < |vp| ==> SameShape(vp[i], vp[0])
  }

  /** The number of classes of a stackable list of predictions. */
  function StackWidth(vp: seq<Matrix>): nat
    requires |vp| > 0
  {
    if |vp[0]| == 0 then 0 else |vp[0][0]|
  }

  /** The predictions for example `b` across all views. */
  function ViewRows(vp: seq<Matrix>, b: nat): (rows: seq<Row>)
    requires StackShape(vp) && b < |vp[0]|
    ensures |rows| == |vp| && HasWidth(rows, StackWidth(vp))
    ensures forall i :: 0 <= i < |vp| ==> rows[i] == vp[i][b]
  {
    seq(|vp|, i requires 0 <= i < |vp| => vp[i][b])
  }

  /** Per example, the mean over the views of its predicted class probabilities. */
  function ViewMeans(vp: seq<Matrix>): (m: Matrix)
    requires StackShape(vp)
    ensures |m| == |vp[0]| && HasWidth(m, StackWidth(vp))
    ensures forall b :: 0 <= b < |vp[0]| ==> m[b] == MeanRow(ViewRows(vp, b), StackWidth(vp))
  {
    seq(|vp[0]|, b requires 0 <= b < |vp[0]| => MeanRow(ViewRows(vp, b), StackWidth(vp)))
  }

  /** The pseudo-labels `Uy`: per example, the sharpened mean of the class
      probabilities predicted for its views. */
  function PseudoLabels(vp: seq<Matrix>, t: Temperature): (r: Result<Matrix>)
    ensures |vp| == 0 ==> r == Err(EmptyStack)
    ensures |vp| > 0 && !StackShape(vp) ==> r == Err(ShapeMismatch)
    ensures r.Ok? <==>
      (|vp| > 0 && StackShape(vp) &&
       forall b :: 0 <= b < |vp[0]| ==> Sum(PowerRow(ViewMeans(vp)[b], t)) != 0.0)
    ensures r.Ok? ==> StackShape(vp) && |r.value| == |vp[0]| && HasWidth(r.value, StackWidth(vp))
    ensures r.Ok? ==> forall b, k :: 0 <= b < |vp[0]| && 0 <= k < StackWidth(vp) ==>
      r.value[b][k] == Power(ViewMeans(vp)[b][k], t) / Sum(PowerRow(ViewMeans(vp)[b], t))
  {
    if |vp| == 0 then Err(EmptyStack)
    else if !StackShape(vp) then Err(ShapeMismatch)
    else Sharpen(ViewMeans(vp), t)
  }

  /** Predictions that are class distributions of width n for every view give
      a class distribution of width n as every pseudo-label. */
  lemma PseudoLabelsDistribution(vp: seq<Matrix>, t: Temperature, rows: nat, n: nat)
    requires |vp| > 0
    requires forall i :: 0 <= i < |vp| ==>
      HasShape(vp[i], rows, n) && forall b :: 0 <= b < rows ==> Distribution(vp[i][b])
    ensures PseudoLabels(vp, t).Ok?
    ensures HasShape(PseudoLabels(vp, t).value, rows, n)
    ensures forall b :: 0 <= b < rows ==> Distribution(PseudoLabels(vp, t).value[b])
  {
    assert StackShape(vp);
    var w := StackWidth(vp);
    var mean := ViewMeans(vp);
    forall b | 0 <= b < rows
      ensures NonNegative(mean[b]) && Sum(mean[b]) > 0.0 && |mean[b]| == n
    {
      MeanOfDistributions(ViewRows(vp, b), w);
    }
    SharpenDistribution(mean, t);
    assert PseudoLabels(vp, t) == Sharpen(mean, t);
  }

  /** `r` holds `copies` consecutive copies of every row of `uy`: row j is row `j / copies`. */
  predicate Replicated(uy: Matrix, copies: nat, r: Matrix)
  {
    && |r| == |uy| * copies
    && forall j :: 0 <= j < |r| ==> copies > 0 && 0 <= j / copies < |uy| && r[j] == uy[j / copies]
  }

  /** Every example's views are copies of its row. */
  function Copies(uy: Matrix, copies: nat): (u: seq<Matrix>)
    ensures |u| == |uy| && ViewBatch(u, copies)
    ensures forall b, m :: 0 <= b < |u| && 0 <= m < copies ==> u[b][m] == uy[b]
  {
    seq(|uy|, b requires 0 <= b < |uy| => seq(copies, _ => uy[b]))
  }

  /** Flattening the copies of every row replicates the rows in place. */
  lemma ReplicateIndex(uy: Matrix, copies: nat, u: seq<Matrix>, r: Matrix)
    requires |u| == |uy| && ViewBatch(u, copies)
    requires forall b, m :: 0 <= b < |u| && 0 <= m < copies ==> u[b][m] == uy[b]
    requires FlatRows(u, copies, r)
    ensures Replicated(uy, copies, r)
  {
    forall j | 0 <= j < |r|
      ensures copies > 0 && 0 <= j / copies < |uy| && r[j] == uy[j / copies]
    {
      assert r[j] == u[j / copies][j % copies];
    }
  }

  /** `Uy.repeat(1, copies).view(-1, C)`: each pseudo-label repeated `copies` times in a row. */
  function Replicate(uy: Matrix, copies: nat): (r: Matrix)
    ensures Replicated(uy, copies, r)
  {
    var u := Copies(uy, copies);
    var r := Flatten(u, copies);
    ReplicateIndex(uy, copies, u, r);
    r
  }

  // ---------------------------------------------------------------------
  // The combined and mixed batch
  // ---------------------------------------------------------------------

  /** `torch.cat((a, b), dim=0)`: rows of different widths cannot be stacked. */
  function Cat(a: Matrix, b: Matrix): (r: Result<Matrix>)
    ensures r.Ok? <==> Rectangular(a + b)
    ensures r.Err? ==> r.error == ShapeMismatch
    ensures r.Ok? ==> |r.value| == |a| + |b|
    ensures r.Ok? ==> forall i :: 0 <= i < |a| ==> r.value[i] == a[i]
    ensures r.Ok? ==> forall j :: 0 <= j < |b| ==> r.value[|a| + j] == b[j]
  {
    if Rectangular(a + b) then Ok(a + b) else Err(ShapeMismatch)
  }

  /** What a training step hands to the training loop: the mixed input, the
      mixed target and the split point `bs` between labeled and unlabeled rows. */
  datatype MixedBatch = MixedBatch(input: Matrix, target: Matrix, bs: nat)

  /** The batch assembly with pseudo-labels repeated `copies` times. */
  function AssembleWith(xx: Matrix, xy: seq<int>, nClasses: nat,
                        lastInput: seq<Matrix>, views: nat, vp: seq<Matrix>, t: Temperature,
                        copies: nat, beta: real, shuffle: seq<nat>): (r: Result<MixedBatch>)
    requires ViewBatch(lastInput, views)
    ensures r.Ok? ==> r.value.bs == |xx| && |vp| > 0
    ensures r.Ok? ==> |r.value.input| == |r.value.target| == |shuffle|
    ensures r.Ok? ==> |r.value.input| == |xx| + |lastInput| * views
    ensures r.Ok? ==> |r.value.target| == |xy| + |vp[0]| * copies
  {
    var pb :- OneHot(nClasses, xy);
    var ux := Flatten(lastInput, views);
    var uy :- PseudoLabels(vp, t);
    var qb := Replicate(uy, copies);
    var wx :- Cat(xx, ux);
    var wy :- Cat(pb, qb);
    var mixed :- MixBatch(wx, wy, shuffle, beta);
    Ok(MixedBatch(mixed.0, mixed.1, |xx|))
  }

  /** What an assembled batch holds: with `Wx` the labeled inputs followed by
      the flattened unlabeled views and `Wy` the one-hot labels followed by
      `copies` copies of the pseudo-labels, row `i` of the mixed input and
      target combines row `i` with row `shuffle[i]`, entry by entry. */
  lemma AssembleMixesRows(xx: Matrix, xy: seq<int>, nClasses: nat,
                          lastInput: seq<Matrix>, views: nat, vp: seq<Matrix>, t: Temperature,
                          copies: nat, beta: real, shuffle: seq<nat>)
    requires ViewBatch(lastInput, views)
    requires AssembleWith(xx, xy, nClasses, lastInput, views, vp, t, copies, beta, shuffle).Ok?
    ensures OneHot(nClasses, xy).Ok? && PseudoLabels(vp, t).Ok?
    ensures var r := AssembleWith(xx, xy, nClasses, lastInput, views, vp, t, copies, beta, shuffle).value;
      var wx := xx + Flatten(lastInput, views);
      var wy := OneHot(nClasses, xy).value + Replicate(PseudoLabels(vp, t).value, copies);
      MixedWith(r.input, wx, shuffle, Fold(beta)) && MixedWith(r.target, wy, shuffle, Fold(beta))
  {
    var pb := OneHot(nClasses, xy).value;
    var uy := PseudoLabels(vp, t).value;
    var wx := xx + Flatten(lastInput, views);
    var wy := pb + Replicate(uy, copies);
    assert Cat(xx, Flatten(lastInput, views)) == Ok(wx);
    assert Cat(pb, Replicate(uy, copies)) == Ok(wy);
    var mixed := MixBatch(wx, wy, shuffle, beta).value;
    AssembleWithSteps(xx, xy, nClasses, lastInput, views, vp, t, copies, beta, shuffle, pb, uy, wx, wy, mixed);
    MixBatchEntries(wx, wy, shuffle, beta);
  }

  /** The assembly as written: pseudo-labels are repeated twice, whatever the number of views. */
  function AssembleAsWritten(xx: Matrix, xy: seq<int>, nClasses: nat,
                             lastInput: seq<Matrix>, views: nat, vp: seq<Matrix>, t: Temperature,
                             beta: real, shuffle: seq<nat>): (r: Result<MixedBatch>)
    requires ViewBatch(lastInput, views)
    ensures r.Ok? ==> r.value.bs == |xx|
    ensures r.Ok? ==> |r.value.input| == |xx| + |lastInput| * views
    ensures r.Ok? ==> |vp| > 0 && |r.value.target| == |xy| + |vp[0]| * 2
  {
    AssembleWith(xx, xy, nClasses, lastInput, views, vp, t, 2, beta, shuffle)
  }

  /** The assembly with every pseudo-label repeated once per view, so that it
      lines up with the flattened views it labels. */
  function Assemble(xx: Matrix, xy: seq<int>, nClasses: nat,
                    lastInput: seq<Matrix>, views: nat, vp: seq<Matrix>, t: Temperature,
                    beta: real, shuffle: seq<nat>): (r: Result<MixedBatch>)
    requires ViewBatch(lastInput, views)
    ensures r.Ok? ==> r.value.bs == |xx|
    ensures r.Ok? ==> |r.value.input| == |r.value.target| == |xx| + |lastInput| * views
  {
    AssembleWith(xx, xy, nClasses, lastInput, views, vp, t, views, beta, shuffle)
  }

  /** The inputs a training step receives from its collaborators: a non-empty
      labeled batch with in-range labels, a non-empty unlabeled batch of
      `views` views per example, every input row of width `d`, per-view class
      distributions of width `nClasses` for every unlabeled example, and a
      permutation of the combined rows. */
  predicate WellFormed(xx: Matrix, xy: seq<int>, nClasses: nat,
                       lastInput: seq<Matrix>, views: nat, vp: seq<Matrix>,
                       shuffle: seq<nat>, d: nat)
  {
    && |xx| > 0 && |xy| == |xx|
    && (forall i :: 0 <= i < |xy| ==> 0 <= xy[i] < nClasses)
    && |lastInput| > 0 && views > 0 && ViewBatch(lastInput, views)
    && HasWidth(xx, d)
    && (forall b, v :: 0 <= b < |lastInput| && 0 <= v < views ==> |lastInput[b][v]| == d)
    && |vp| == views
    && (forall i :: 0 <= i < views ==>
         HasShape(vp[i], |lastInput|, nClasses) &&
         forall b :: 0 <= b < |lastInput| ==> Distribution(vp[i][b]))
    && IsPermutation(shuffle, |xx| + |lastInput| * views)
  }

  /** The flattened unlabeled inputs of a well-formed step all have width `d`. */
  lemma FlattenWidth(lastInput: seq<Matrix>, views: nat, d: nat)
    requires ViewBatch(lastInput, views)
    requires forall b, v :: 0 <= b < |lastInput| && 0 <= v < views ==> |lastInput[b][v]| == d
    ensures HasWidth(Flatten(lastInput, views), d)
  {
    var ux := Flatten(lastInput, views);
    forall j | 0 <= j < |ux|
      ensures |ux[j]| == d
    {
      assert ux[j] == lastInput[j / views][j % views];
    }
  }

  /** Replicated rows keep the width and the distribution property of the rows they copy. */
  lemma ReplicateRows(uy: Matrix, copies: nat, n: nat)
    requires HasWidth(uy, n)
    requires forall b :: 0 <= b < |uy| ==> Distribution(uy[b])
    ensures HasWidth(Replicate(uy, copies), n)
    ensures forall j :: 0 <= j < |Replicate(uy, copies)| ==> Distribution(Replicate(uy, copies)[j])
  {
    var qb := Replicate(uy, copies);
    forall j | 0 <= j < |qb|
      ensures |qb[j]| == n && Distribution(qb[j])
    {
      assert qb[j] == uy[j / copies];
    }
  }

  /** The combined batch `Wx`, `Wy` of a well-formed step, before mixing:
      inputs of width `d`, targets that are class distributions of width
      `nClasses`, and `|xx| + |lastInput| * copies` target rows. */
  lemma CombinedBatch(xx: Matrix, xy: seq<int>, nClasses: nat,
                      lastInput: seq<Matrix>, views: nat, vp: seq<Matrix>, t: Temperature,
                      copies: nat, shuffle: seq<nat>, d: nat)
    requires WellFormed(xx, xy, nClasses, lastInput, views, vp, shuffle, d)
    ensures OneHot(nClasses, xy).Ok? && PseudoLabels(vp, t).Ok?
    ensures var wx := xx + Flatten(lastInput, views);
      && Cat(xx, Flatten(lastInput, views)) == Ok(wx)
      && HasWidth(wx, d)
      && |wx| == |xx| + |lastInput| * views
    ensures var wy := OneHot(nClasses, xy).value + Replicate(PseudoLabels(vp, t).value, copies);
      && Cat(OneHot(nClasses, xy).value, Replicate(PseudoLabels(vp, t).value, copies)) == Ok(wy)
      && HasWidth(wy, nClasses)
      && |wy| == |xx| + |lastInput| * copies
      && forall i :: 0 <= i < |wy| ==> Distribution(wy[i])
  {
    var pb := OneHot(nClasses, xy).value;
    PseudoLabelsDistribution(vp, t, |lastInput|, nClasses);
    var uy := PseudoLabels(vp, t).value;
    var ux := Flatten(lastInput, views);
    FlattenWidth(lastInput, views, d);
    assert HasWidth(xx + ux, d);
    ReplicateRows(uy, copies, nClasses);
    var qb := Replicate(uy, copies);
    assert HasWidth(pb + qb, nClasses);
  }

  /** With one pseudo-label copy per view, every well-formed step assembles a
      mixed batch: one row per labeled and per flattened unlabeled row,
      inputs of width `d`, targets of width `nClasses`, split point `|xx|`. */
  lemma AssembleSucceeds(xx: Matrix, xy: seq<int>, nClasses: nat,
                         lastInput: seq<Matrix>, views: nat, vp: seq<Matrix>, t: Temperature,
                         beta: real, shuffle: seq<nat>, d: nat)
    requires WellFormed(xx, xy, nClasses, lastInput, views, vp, shuffle, d)
    ensures Assemble(xx, xy, nClasses, lastInput, views, vp, t, beta, shuffle).Ok?
    ensures var r := Assemble(xx, xy, nClasses, lastInput, views, vp, t, beta, shuffle).value;
      && r.bs == |xx|
      && |r.input| == |r.target| == |xx| + |lastInput| * views
      && HasWidth(r.input, d) && HasWidth(r.target, nClasses)
  {
    CombinedBatch(xx, xy, nClasses, lastInput, views, vp, t, views, shuffle, d);
    var pb := OneHot(nClasses, xy).value;
    var uy := PseudoLabels(vp, t).value;
    var wx := xx + Flatten(lastInput, views);
    var wy := pb + Replicate(uy, views);
    MixBatchShape(wx, wy, shuffle, beta);
    var mixed := MixBatch(wx, wy, shuffle, beta).value;
    AssembleWithSteps(xx, xy, nClasses, lastInput, views, vp, t, views, beta, shuffle, pb, uy, wx, wy, mixed);
  }

  /** For a coefficient drawn in [0, 1], every mixed target row of a
      well-formed step is a class distribution. */
  lemma AssembleTargetsAreDistributions(xx: Matrix, xy: seq<int>, nClasses: nat,
                                        lastInput: seq<Matrix>, views: nat, vp: seq<Matrix>, t: Temperature,
                                        beta: real, shuffle: seq<nat>, d: nat)
    requires WellFormed(xx, xy, nClasses, lastInput, views, vp, shuffle, d)
    requires 0.0 <= beta <= 1.0
    ensures Assemble(xx, xy, nClasses, lastInput, views, vp, t, beta, shuffle).Ok?
    ensures var r := Assemble(xx, xy, nClasses, lastInput, views, vp, t, beta, shuffle).value;
      forall i :: 0 <= i < |r.target| ==> Distribution(r.target[i])
  {
    AssembleSucceeds(xx, xy, nClasses, lastInput, views, vp, t, beta, shuffle, d);
    CombinedBatch(xx, xy, nClasses, lastInput, views, vp, t, views, shuffle, d);
    var wx := xx + Flatten(lastInput, views);
    var wy := OneHot(nClasses, xy).value + Replicate(PseudoLabels(vp, t).value, views);
    MixBatchTargetDistributions(wx, wy, shuffle, beta);
  }

  /** Through the identity permutation (which leaves the batch unmixed) the
      first `bs` rows are the labeled batch with its one-hot targets. */
  lemma AssembleLabeledRows(xx: Matrix, xy: seq<int>, nClasses: nat,
                            lastInput: seq<Matrix>, views: nat, vp: seq<Matrix>, t: Temperature,
                            beta: real, d: nat)
    requires WellFormed(xx, xy, nClasses, lastInput, views, vp, Identity(|xx| + |lastInput| * views), d)
    ensures var r := Assemble(xx, xy, nClasses, lastInput, views, vp, t, beta, Identity(|xx| + |lastInput| * views));
      && r.Ok? && |xx| <= |r.value.input| && |xx| <= |r.value.target|
      && r.value.input[..|xx|] == xx
      && forall j :: 0 <= j < |xx| ==> r.value.target[j] == OneHotRow(nClasses, xy[j])
  {
    AssembleUnmixed(xx, xy, nClasses, lastInput, views, vp, t, beta, d);
    var ux := Flatten(lastInput, views);
    var pb := OneHot(nClasses, xy).value;
    var qb := Replicate(PseudoLabels(vp, t).value, views);
    assert (xx + ux)[..|xx|] == xx;
    OneHotInRange(nClasses, xy);
    assert forall j :: 0 <= j < |xx| ==> (pb + qb)[j] == pb[j];
  }

  /** Through the identity permutation the rows after the first `bs` are the
      flattened views, row j being view `j % K` of example `j / K`, each
      labeled with its example's pseudo-label. */
  lemma AssembleUnlabeledRows(xx: Matrix, xy: seq<int>, nClasses: nat,
                              lastInput: seq<Matrix>, views: nat, vp: seq<Matrix>, t: Temperature,
                              beta: real, d: nat)
    requires WellFormed(xx, xy, nClasses, lastInput, views, vp, Identity(|xx| + |lastInput| * views), d)
    ensures var r := Assemble(xx, xy, nClasses, lastInput, views, vp, t, beta, Identity(|xx| + |lastInput| * views));
      && r.Ok? && |xx| <= |r.value.input| && |xx| <= |r.value.target|
      && PseudoLabels(vp, t).Ok?
      && FlatRows(lastInput, views, r.value.input[|xx|..])
      && Replicated(PseudoLabels(vp, t).value, views, r.value.target[|xx|..])
  {
    AssembleUnmixed(xx, xy, nClasses, lastInput, views, vp, t, beta, d);
    var ux := Flatten(lastInput, views);
    var pb := OneHot(nClasses, xy).value;
    var qb := Replicate(PseudoLabels(vp, t).value, views);
    assert (xx + ux)[|xx|..] == ux;
    assert |pb| == |xx|;
    assert (pb + qb)[|xx|..] == qb;
  }

  /** Through the identity permutation the assembled batch is the combined
      batch `Wx`/`Wy` itself. */
  lemma AssembleUnmixed(xx: Matrix, xy: seq<int>, nClasses: nat,
                        lastInput: seq<Matrix>, views: nat, vp: seq<Matrix>, t: Temperature,
                        beta: real, d: nat)
    requires WellFormed(xx, xy, nClasses, lastInput, views, vp, Identity(|xx| + |lastInput| * views), d)
    ensures OneHot(nClasses, xy).Ok? && PseudoLabels(vp, t).Ok?
    ensures Assemble(xx, xy, nClasses, lastInput, views, vp, t, beta, Identity(|xx| + |lastInput| * views))
         == Ok(MixedBatch(xx + Flatten(lastInput, views),
                          OneHot(nClasses, xy).value + Replicate(PseudoLabels(vp, t).value, views),
                          |xx|))
  {
    var shuffle := Identity(|xx| + |lastInput| * views);
    CombinedBatch(xx, xy, nClasses, lastInput, views, vp, t, views, shuffle, d);
    var wx := xx + Flatten(lastInput, views);
    var wy := OneHot(nClasses, xy).value + Replicate(PseudoLabels(vp, t).value, views);
    assert |wx| == |xx| + |lastInput| * views;
    assert shuffle == Identity(|wx|);
    MixBatchIdentity(wx, wy, beta);
    AssembleWithSteps(xx, xy, nClasses, lastInput, views, vp, t, views, beta, shuffle,
                      OneHot(nClasses, xy).value, PseudoLabels(vp, t).value, wx, wy, (wx, wy));
  }

  /** The assembly in terms of the values its stages produce. */
  lemma AssembleWithSteps(xx: Matrix, xy: seq<int>, nClasses: nat,
                          lastInput: seq<Matrix>, views: nat, vp: seq<Matrix>, t: Temperature,
                          copies: nat, beta: real, shuffle: seq<nat>,
                          pb: Matrix, uy: Matrix, wx: Matrix, wy: Matrix, mixed: (Matrix, Matrix))
    requires ViewBatch(lastInput, views)
    requires OneHot(nClasses, xy) == Ok(pb) && PseudoLabels(vp, t) == Ok(uy)
    requires Cat(xx, Flatten(lastInput, views)) == Ok(wx) && Cat(pb, Replicate(uy, copies)) == Ok(wy)
    requires MixBatch(wx, wy, shuffle, beta) == Ok(mixed)
    ensures AssembleWith(xx, xy, nClasses, lastInput, views, vp, t, copies, beta, shuffle)
         == Ok(MixedBatch(mixed.0, mixed.1, |xx|))
  {
  }

  lemma MulCancel(b: nat, k: nat, c: nat)
    requires b > 0 && b * k == b * c
    ensures k == c
  {
    if k < c {
      MulLe(b, k + 1, c);
    } else if k > c {
      MulLe(b, c + 1, k);
    }
  }

  /** With the pseudo-labels repeated twice, a well-formed step assembles
      exactly when each unlabeled example comes with two views; for any other
      number of views the targets no longer line up with the inputs. */
  lemma AsWrittenNeedsTwoViews(xx: Matrix, xy: seq<int>, nClasses: nat,
                               lastInput: seq<Matrix>, views: nat, vp: seq<Matrix>, t: Temperature,
                               beta: real, shuffle: seq<nat>, d: nat)
    requires WellFormed(xx, xy, nClasses, lastInput, views, vp, shuffle, d)
    ensures AssembleAsWritten(xx, xy, nClasses, lastInput, views, vp, t, beta, shuffle).Ok? <==> views == 2
  {
    var r := AssembleAsWritten(xx, xy, nClasses, lastInput, views, vp, t, beta, shuffle);
    if views == 2 {
      AssembleSucceeds(xx, xy, nClasses, lastInput, views, vp, t, beta, shuffle, d);
    } else if r.Ok? {
      var rows := |lastInput|;
      assert |xx| + rows * views == |xx| + rows * 2;
      MulCancel(rows, views, 2);
    }
  }

  /** One labeled example and one unlabeled example with three views: the
      as-written assembly fails, the corrected one succeeds. */
  lemma ThreeViewsExample()
    ensures var xx: Matrix := [[0.5]];
      var u: seq<Matrix> := [[[0.1], [0.2], [0.3]]];
      var vp: seq<Matrix> := [[[1.0]], [[1.0]], [[1.0]]];
      && AssembleAsWritten(xx, [0], 1, u, 3, vp, Half, 0.5, [0, 1, 2, 3]).Err?
      && Assemble(xx, [0], 1, u, 3, vp, Half, 0.5, [0, 1, 2, 3]).Ok?
  {
    var xx: Matrix := [[0.5]];
    var u: seq<Matrix> := [[[0.1], [0.2], [0.3]]];
    var vp: seq<Matrix> := [[[1.0]], [[1.0]], [[1.0]]];
    var shuffle: seq<nat> := [0, 1, 2, 3];
    assert Distribution([1.0]);
    assert WellFormed(xx, [0], 1, u, 3, vp, shuffle, 1);
    AsWrittenNeedsTwoViews(xx, [0], 1, u, 3, vp, Half, 0.5, shuffle, 1);
    AssembleSucceeds(xx, [0], 1, u, 3, vp, Half, 0.5, shuffle, 1);
  }
}
