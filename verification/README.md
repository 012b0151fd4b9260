# MixMatch in Dafny

A model of the MixMatch semi-supervised training extension in
`CinemaNet/MixMatch.py`, with proofs of what it promises. MixMatch trains a
classifier on a small labeled set and a large unlabeled set. At every
training step it does four things:

- it draws a labeled batch from a cyclic loader;
- it guesses soft labels for the unlabeled batch by averaging the model's
  class probabilities over K augmented views and sharpening them;
- it concatenates labeled and unlabeled rows;
- it mixes the combined batch with a shuffled copy of itself.

An adapted loss (`MatchMixLoss`) splits the mixed batch at the labeled batch
size `bs`. It computes a labeled term Lx and a consistency term Lu weighted
by λ. At the end of training it gives the original criterion back. A
callback (`MixMatchCallback`) drives the process, and `mixmatch` attaches it
to a learner.

Modules, one per file:

- `Wrappers` (`wrappers.dfy`): the `Result`/`Option` types. They carry the
  errors the Python code raises: index errors, shape mismatches, an empty
  stack, `StopIteration` and `AttributeError`. They also carry `ZeroRowSum`,
  which stands for torch's division by a zero row sum.
- `Tensor` (`tensor.dfy`): rows and matrices of reals. It defines row sums,
  probability distributions and shape predicates.
- `Sharpening` (`sharpen.dfy`): `sharpen`. Row powers are taken for the
  temperatures 1 and 1/2, and each row is renormalised.
- `Mixup` (`mixup.dfy`): `_mixup` with its folded coefficient, and the
  gather by a permutation that `Wx[shuffle]` performs.
- `Assembly` (`assembly.dfy`): the batch assembly of `on_batch_begin`. It
  covers:
  - the one-hot targets;
  - the flattened views;
  - the pseudo-labels and their replication;
  - the combined batch and the self-mix.
- `Loss` (`loss.dfy`): `MatchMixLoss`. It covers construction, `forward`
  and `get_old`. The numeric loss terms are uninterpreted functions.
- `CallbackList` (`callbacks.dfy`): `drop_cb_fn`.
- `MixMatchCallback` (`callback.dfy`): the callback as a state machine over
  immutable records. It has the hooks, a trace of hook and loss calls, and
  the `mixmatch` setup.

The following are parameters of the model:

- the random coefficient β;
- the random permutation;
- the model's softmax outputs for each view;
- the numeric loss terms.

## Model

| member | source | states |
|---|---|---|
| Mixup.Fold | CinemaNet/MixMatch.py:52-53 | the folded coefficient is β or 1-β, whichever is at least the other |
| Mixup.FoldRange | CinemaNet/MixMatch.py:52-53 | for β in [0, 1] the folded coefficient lies in [1/2, 1] |
| Mixup.MixUp | CinemaNet/MixMatch.py:51-56 | succeeds exactly when the two input operands and the two target operands have the same shapes; each input and each target entry is the convex combination of its operands with the one shared folded coefficient |
| Mixup.MixUpBetween | CinemaNet/MixMatch.py:54-55 | every mixed input and target entry lies between the corresponding entries of its two operands |
| Mixup.MixUpSelf | CinemaNet/MixMatch.py:51-56 | mixing a pair with itself returns it unchanged |
| Mixup.Gather | CinemaNet/MixMatch.py:164 | `Wx[shuffle]` picks row `shuffle[i]` at position i and is an index error exactly when some index is out of range |
| Mixup.GatherPermutationShape | CinemaNet/MixMatch.py:163-164 | gathering a rectangular batch by a permutation succeeds and keeps its shape |
| Mixup.MixBatch | CinemaNet/MixMatch.py:163-164 | an out-of-range shuffle index is an index error; on success the shuffle has one in-range index per row of `Wx` and of `Wy`, both shapes are kept, and mixed row i combines row i with row `shuffle[i]` under the folded coefficient |
| Mixup.MixBatchEntries | CinemaNet/MixMatch.py:163-164 | entry k of mixed input row i is β'·Wx[i][k] + (1-β')·Wx[shuffle[i]][k], with β' the folded coefficient, and likewise for the targets |
| Mixup.MixBatchShape | CinemaNet/MixMatch.py:163-164 | with equal row counts and a permutation, the self-mix succeeds and keeps the shapes of `Wx` and `Wy` |
| Mixup.MixBatchRowMismatch | CinemaNet/MixMatch.py:161-164 | when `Wx` and `Wy` have different row counts, the self-mix fails (no broadcasting, see Left out) |
| Mixup.MixBatchIdentity | CinemaNet/MixMatch.py:163-164 | with the identity permutation, the mixed batch is `Wx`/`Wy` unchanged |
| Mixup.MixRowSum | CinemaNet/MixMatch.py:55 | the sum of a mixed row is the same convex combination of the two row sums |
| Mixup.MixBatchTargetDistributions | CinemaNet/MixMatch.py:55 | mixing rows that are probability distributions with β in [0, 1] gives distributions |
| Sharpening.Power | CinemaNet/MixMatch.py:59 | `x**(1/T)` of a non-negative entry is non-negative |
| Sharpening.PowerMonotone | CinemaNet/MixMatch.py:59 | `x**(1/T)` preserves the order of non-negative entries |
| Sharpening.NormaliseRow | CinemaNet/MixMatch.py:60 | dividing a row by its sum succeeds exactly when the sum is non-zero; each new entry is the old entry divided by the row sum; the new row sums to 1, and is a distribution when the row was non-negative |
| Sharpening.Normalise | CinemaNet/MixMatch.py:60 | dividing every row by its sum fails with a zero row sum exactly when some row sums to 0; otherwise each entry is the old entry divided by its row's sum |
| Sharpening.Sharpen | CinemaNet/MixMatch.py:58-60 | fails with a zero row sum exactly when some powered row sums to 0; otherwise it keeps the shape, entry k of row i is `x[i][k]**(1/T)` divided by the sum of the powered row i, and each non-negative row becomes a distribution |
| Sharpening.SharpenOneIsNormalise | CinemaNet/MixMatch.py:58-60 | at T = 1, sharpening is plain row renormalisation |
| Sharpening.SharpenDistribution | CinemaNet/MixMatch.py:58-60 | non-negative rows with positive sums always sharpen to distributions |
| Sharpening.SharpenZeroRow | CinemaNet/MixMatch.py:60 | an all-zero row makes sharpening fail with a zero row sum |
| Sharpening.SharpenKeepsOrder | CinemaNet/MixMatch.py:58-60 | sharpening keeps the order of the entries of a non-negative row |
| CallbackList.KeepMembers | CinemaNet/MixMatch.py:63-69 | the kept entries are exactly those whose name differs from the dropped name |
| CallbackList.DropCbFn | CinemaNet/MixMatch.py:63-69 | the loop produces exactly the order-preserving filter `Keep`: an entry survives iff its name (the wrapped function's name for a partial) differs |
| CallbackList.KeepAppend | CinemaNet/MixMatch.py:65-68 | filtering keeps the original order: filtering a concatenation concatenates the filtered parts |
| CallbackList.KeepStep | CinemaNet/MixMatch.py:65-68 | one more entry of the list is appended to the kept entries exactly when its name differs |
| CallbackList.KeepIdempotent | CinemaNet/MixMatch.py:63-69 | dropping by name twice equals dropping once |
| CallbackList.KeepUnchanged | CinemaNet/MixMatch.py:63-69 | a list with no entry of that name is left unchanged |
| CallbackList.KeepAppended | CinemaNet/MixMatch.py:68 | an appended entry of that name is dropped and the rest is unaffected |
| Loss.Init | CinemaNet/MixMatch.py:75-86 | the adapted loss holds the given criterion, or a new cross-entropy with mode 'mean' when none is given; it remembers the old reduction mode exactly when the criterion has one; the held criterion reduces with 'none'; λ and the reduction are stored, and nothing is stored yet |
| Loss.GetOld | CinemaNet/MixMatch.py:102-106 | gives back the held object, with its remembered reduction mode restored when it had one |
| Loss.GetOldRoundTrip | CinemaNet/MixMatch.py:75-106 | wrapping a criterion and asking for it back returns that same criterion, with the same identity and the same reduction mode |
| Loss.GetOldDefault | CinemaNet/MixMatch.py:77-106 | with no criterion given, the new cross-entropy comes back with mode 'mean' |
| Loss.Forward | CinemaNet/MixMatch.py:88-100 | without `bs`, returns plain cross-entropy and stores nothing; with `bs`, stores Lx and λ·Lu and returns their sum; it never alters the held criterion, λ or what `get_old` returns |
| Loss.LxReadsLabeledRows | CinemaNet/MixMatch.py:92-94 | Lx depends only on rows 0 .. bs-1 of the predictions and the targets |
| Loss.LuReadsUnlabeledRows | CinemaNet/MixMatch.py:96-98 | the stored Lu depends only on the rows from bs onwards and already carries the factor λ |
| Loss.ForwardWeighsLu | CinemaNet/MixMatch.py:98-100 | the returned loss is Lx plus λ times the mean-squared term of the unlabeled rows |
| Assembly.OneHot | CinemaNet/MixMatch.py:149 | `torch.eye(n)[Xy]` succeeds exactly when every label lies in -n .. n-1; it gives one row per label, n columns, each row a distribution with its single 1 at the label (counted from the end for a negative label) |
| Assembly.OneHotInRange | CinemaNet/MixMatch.py:149 | labels in 0 .. n-1 always one-hot encode, each row with its 1 at the label itself |
| Assembly.Flatten | CinemaNet/MixMatch.py:152-153 | the flattened unlabeled batch has B·K rows, and row j is view j mod K of example j div K |
| Assembly.FlattenWidth | CinemaNet/MixMatch.py:152-153 | flattening keeps the width of the views |
| Assembly.SumRows | CinemaNet/MixMatch.py:157 | entry k of the summed rows is the sum of column k |
| Assembly.MeanRow | CinemaNet/MixMatch.py:157 | entry k of `.mean(dim=1)` over one example's views is the sum of column k divided by the number of views |
| Assembly.ViewMeans | CinemaNet/MixMatch.py:155-157 | one mean row per unlabeled example, of the class count's width, taken over that example's rows in every view |
| Assembly.MeanOfDistributions | CinemaNet/MixMatch.py:155-157 | the mean over the views of distributions is a distribution |
| Assembly.PseudoLabels | CinemaNet/MixMatch.py:155-157 | stacking no views is an empty-stack error and views of different shapes a shape error; otherwise it succeeds exactly when every powered mean row has a non-zero sum; then there is one pseudo-label per unlabeled example, and its entry k is the k-th entry of the example's mean over its views raised to 1/T, divided by the sum of that powered mean row |
| Assembly.PseudoLabelsDistribution | CinemaNet/MixMatch.py:155-157 | when every view gives a distribution for every example, the pseudo-labels exist, have the right shape and are distributions |
| Assembly.Replicate | CinemaNet/MixMatch.py:158 | replicating c times gives c·B rows, and row j is the pseudo-label of example j div c |
| Assembly.ReplicateRows | CinemaNet/MixMatch.py:158 | replicated distributions keep their width and stay distributions |
| Assembly.Cat | CinemaNet/MixMatch.py:161-162 | concatenation succeeds exactly when the rows share a width, and puts the first operand's rows before the second's |
| Assembly.AssembleWith | CinemaNet/MixMatch.py:148-166 | a successful assembly has split point `bs`, as many mixed rows as shuffle entries, bs + B·K input rows and bs + c·B target rows |
| Assembly.AssembleMixesRows | CinemaNet/MixMatch.py:148-164 | a successful assembly is `Wx` mixed with `Wx[shuffle]` and `Wy` mixed with `Wy[shuffle]` entry by entry, where `Wx` is the labeled inputs followed by the flattened views and `Wy` is the one-hot rows followed by c copies of each pseudo-label |
| Assembly.AssembleAsWritten | CinemaNet/MixMatch.py:148-166 | with the literal 2, the split point is bs, the inputs have bs + B·K rows and the targets bs + 2·B rows |
| Assembly.Assemble | CinemaNet/MixMatch.py:148-166 | with K copies, the input and the target both have bs + B·K rows, and the split point is `bs` |
| Assembly.CombinedBatch | CinemaNet/MixMatch.py:148-162 | on well-formed inputs both concatenations succeed: `Wx` is the labeled rows followed by the flattened views, bs + B·K rows of the input width; `Wy` is the one-hot rows followed by the replicated pseudo-labels, bs + c·B rows of width n_classes, every row a distribution |
| Assembly.AssembleSucceeds | CinemaNet/MixMatch.py:148-166 | on well-formed inputs, the corrected assembly always succeeds and keeps the row counts and widths |
| Assembly.AssembleTargetsAreDistributions | CinemaNet/MixMatch.py:148-166 | for β in [0, 1], every mixed target row is a probability distribution |
| Assembly.AssembleUnmixed | CinemaNet/MixMatch.py:148-164 | with the identity permutation, the assembled batch is exactly `Wx` (labeled rows, then flattened views) and `Wy` (one-hot rows, then K copies of each pseudo-label), split at bs |
| Assembly.AssembleLabeledRows | CinemaNet/MixMatch.py:148-164 | with the identity permutation, the first bs input rows are the labeled inputs and each of their targets is the one-hot row of its label |
| Assembly.AssembleUnlabeledRows | CinemaNet/MixMatch.py:152-164 | with the identity permutation, unlabeled input row j is view j mod K of example j div K, and its target is that example's pseudo-label |
| Assembly.AsWrittenNeedsTwoViews | CinemaNet/MixMatch.py:158-164 | on well-formed inputs, the code as written succeeds exactly when K = 2 |
| Assembly.ThreeViewsExample | CinemaNet/MixMatch.py:158 | with one example and three views, the code as written fails and the corrected assembly succeeds |
| MixMatchCallback.UnlabeledBatchSizes | CinemaNet/MixMatch.py:200 | the unlabeled training batch size is the smaller of bs and the unlabeled count; the validation batch size is the smaller of 2·bs and the validation count |
| MixMatchCallback.Attach | CinemaNet/MixMatch.py:188-205 | the learner trains on the unlabeled data and has the callback appended; the data it had becomes the callback's labeled data |
| MixMatchCallback.OnTrainBegin | CinemaNet/MixMatch.py:127-136 | the loss becomes the adapted loss with weight λ, and `get_old` of it returns the previous criterion; data and callback list are untouched; the iterator and the counters restart; the planned sample count is `total_samples` for the run's epochs, batches, batch size and K |
| MixMatchCallback.TotalSamples | CinemaNet/MixMatch.py:135-136 | the planned count is zero exactly when there are no epochs, no batches or an empty batch, and is always a multiple of K + 1 |
| MixMatchCallback.TotalSamplesCountsMixedRows | CinemaNet/MixMatch.py:135-136 | `total_samples` = epochs × batches × batch size × (K+1) equals epochs × batches × the input rows of the mixed batch the callback assembles, when labeled and unlabeled batches have the same size |
| MixMatchCallback.TotalSamplesExample | CinemaNet/MixMatch.py:135-136 | 3 epochs of 10 batches of 16 with K = 2 plan 1440 samples |
| MixMatchCallback.Draw | CinemaNet/MixMatch.py:141-145 | the next batch is the one at the cursor, or the first one after a restart when the pass is exhausted; a loader without batches raises `StopIteration` |
| MixMatchCallback.CursorClosed | CinemaNet/MixMatch.py:129-145 | after m draws from a fresh iterator over L batches, the iterator sits just past batch (m-1) mod L |
| MixMatchCallback.DrawInTurn | CinemaNet/MixMatch.py:129-145 | the m-th draw from a fresh iterator over L batches takes batch m mod L |
| MixMatchCallback.OnBatchBegin | CinemaNet/MixMatch.py:139-166 | outside training, no override is returned and the state is unchanged; in training, one labeled batch is drawn, the mixed batch is assembled with the pseudo-labels repeated twice as line 158 does, and it is returned with that batch's size as split point; an empty loader raises `StopIteration` |
| MixMatchCallback.BatchBeginDrawsInTurn | CinemaNet/MixMatch.py:139-166 | the m-th training step mixes labeled batch m mod L; it succeeds exactly when the as-written assembly of that batch succeeds, and then returns that mixed batch with the iterator advanced by one draw |
| MixMatchCallback.BatchBeginNeedsTwoViews | CinemaNet/MixMatch.py:139-166 | a training step on well-formed inputs succeeds exactly when each unlabeled example comes with two views |
| MixMatchCallback.OnBatchEnd | CinemaNet/MixMatch.py:168-172 | outside training nothing changes; in training the stored Lx and λ·Lu are recorded and the counter advances by one, and reading them before they were stored fails |
| MixMatchCallback.OnTrainEnd | CinemaNet/MixMatch.py:177-182 | succeeds exactly when the loss is the adapted one; the loss becomes what `get_old` returns, the data becomes the labeled data, and the callback list is the original one filtered by `Keep`: exactly the entries not named `MixMatchCallback` remain, in their original order and with their multiplicity |
| MixMatchCallback.CallLoss | CinemaNet/MixMatch.py:88-100 | a loss call never changes the data, the callback list or what `get_old` returns |
| MixMatchCallback.StepInvariant | CinemaNet/MixMatch.py:139-172 | one hook or loss call keeps data, callbacks and the saved criterion; it advances the counter on a training batch end and the iterator on a training batch start, and nothing else; over an empty labeled loader no training batch start succeeds and the iterator stays put |
| MixMatchCallback.RunInvariant | CinemaNet/MixMatch.py:139-172 | over any trace, the counter and the recorded values grow by the number of training batch ends; the iterator has advanced once per training batch start, and over an empty labeled loader a successful trace has no training batch start; data, callbacks and the saved criterion are kept |
| MixMatchCallback.TrainingRoundTrip | CinemaNet/MixMatch.py:127-206 | after attaching, training and ending, with any labeled loader including an empty one, the learner has its original loss function and data back, and its callback list without the MixMatch entries; a list that had none is unchanged |

## Left out

- Numerics: softmax, log-softmax, `F.mse_loss`, `F.cross_entropy` and the
  model's forward pass. The loss terms are uninterpreted functions. The
  code calls the model once per view (line 156); each view's class
  probabilities are an input here, so the model's dependence on the batch
  is not modelled.
- Arithmetic is over exact reals, not float32.
- `np.random.beta` and `torch.randperm` are parameters: β and the
  permutation are given.
- `MultiTfmLabelList`, `MultiCollate`, `random_strat_splitter`, and the
  building of the unlabeled data bunch in `mixmatch`. These are data-loading
  plumbing over library types. Only the batch-size arithmetic on line 200 is
  modelled.
- `SmoothenValue`, `recorder.add_metric_names`, `add_metrics` and
  `on_epoch_end`. The smoothing formula belongs to the fastai library, which
  is not part of this model. The callback records the raw sequence of values
  it feeds to the smoothers.
- Device selection, the warnings filter and the `print` lines of
  `on_train_begin`.
- Sharpening.Power: only the temperatures 1 and 1/2 (exponents 1 and 2)
  are modelled; other exponents are not.
- Sharpening.Sharpen: a row whose powered entries sum to zero is a
  `ZeroRowSum` error here. torch raises nothing: it divides by zero, giving
  NaN for a zero entry and ±inf for a non-zero one (a mixed-sign row at
  T = 1). A row of width zero also sums to zero and is a `ZeroRowSum`
  error here, where torch gives the empty row back.
- Sharpening.NormaliseRow: the empty row is a `ZeroRowSum` error, where
  torch returns the empty row.
- Assembly.Cat: a matrix is a sequence of rows and has no column count
  when it has no rows, so an operand with no rows joins one of any width.
  torch.cat raises for a (0, m) and a (1, n) tensor with m ≠ n. The
  batches of a training step are never empty, so the callback does not
  reach this case.
- Mixup.MixBatchRowMismatch: when `Wx` has a single row, the shuffle has
  one index, so `Wy[shuffle]` has one row. torch broadcasts it against `Wy`
  and the mix succeeds. The model does not broadcast (see Mixup.MixUp), so there the
  mix fails.
- Mixup.MixUp: operands of different shapes are a shape error. torch
  would broadcast a single-row operand.
- MixMatchCallback.OnTrainBegin requires the learner's loss to be a base
  criterion. Wrapping an adapted loss a second time, when training begins
  twice without ending, is not modelled.
- MixMatchCallback.Draw: the labeled loader yields the same sequence of
  batches on every pass. Its reshuffling between passes is not modelled.

## Findings

| source | as written | input that shows it | evidently intended | confidence | as-written member | corrected member |
|---|---|---|---|---|---|---|
| CinemaNet/MixMatch.py:158 | `Uy.repeat(1, 2)` replicates each pseudo-label twice, whatever K is | K = 3 views: one labeled row and one unlabeled example give 4 input rows but 3 target rows, so the self-mix cannot match inputs to targets | `Uy.repeat(1, K)`, one copy per view | not executed | Assembly.AssembleAsWritten, Assembly.AsWrittenNeedsTwoViews, Assembly.ThreeViewsExample, MixMatchCallback.OnBatchBegin, MixMatchCallback.BatchBeginNeedsTwoViews | Assembly.Assemble, Assembly.AssembleSucceeds |

K is the number of augmented views per unlabeled example. Line 18
documents it as the number of transformed samples generated per item, and
lines 116 and 186 make it a parameter. Line 156 takes one set of class
probabilities per view, `last_input.shape[1]` of them, and line 153
flattens K input rows per example. Line 158 supplies two target rows per
example whatever K is. The callback model (`MixMatchCallback.OnBatchBegin`)
follows the code as written, so a well-formed training step succeeds
exactly when K = 2 (`MixMatchCallback.BatchBeginNeedsTwoViews`). The
corrected assembly (`Assembly.Assemble`) repeats each pseudo-label K times
and succeeds on every well-formed step.
