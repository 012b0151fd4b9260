/** `MixMatchCallback` as a state machine over immutable records, and the
    `mixmatch` setup that attaches it. The learner is reduced to the three
    things the callback touches: the active loss, the active data bunch and
    the list of callback constructors. The labeled loader is the sequence of
    batches one pass over it yields. */
module MixMatchCallback {
  import opened Wrappers
  import opened Tensor
  import opened Sharpening
  import opened Assembly
  import opened Loss
  import opened CallbackList

  /** One batch of the labeled training loader: inputs and class indices. */
  datatype LabeledBatch = LabeledBatch(x: Matrix, y: seq<int>)

  /** A data bunch, by identity. */
  datatype DataRef = DataRef(id: nat)

  /** The learner's active loss: a base criterion, or the adapted loss wrapping one. */
  datatype LossSlot = Base(crit: Criterion) | Adapted(loss: MatchMixLoss)

  /** The parts of the learner the callback reads and replaces. */
  datatype Learner = Learner(lossFunc: LossSlot, data: DataRef, callbackFns: seq<CallbackFn>)

  /** The callback's construction arguments. */
  datatype Config = Config(
    t: Temperature,                  // T
    k: nat,                          // K
    weight: real,                    // λ
    labeledData: DataRef,            // labeled_data
    labeledBatches: seq<LabeledBatch>,  // one pass over labeled_data.train_dl
    nClasses: nat)                   // labeled_data.c

  /** The callback's mutable state: the position of the labeled iterator, the
      step counter `it`, and the values fed to the two smoothers. */
  datatype State = State(cursor: nat, it: nat, lxSeen: seq<real>, luSeen: seq<real>)

  /** The callback's class name, the name `on_train_end` drops. */
  const CallbackName: string := "MixMatchCallback"

  // ---------------------------------------------------------------------
  // Setup: `mixmatch(...)`
  // ---------------------------------------------------------------------

  /** The batch sizes of the unlabeled data bunch: `min(bs, len(train_ul))`
      for training and `min(2 * bs, len(valid_ll))` for validation. */
  function UnlabeledBatchSizes(bs: nat, nUnlabeled: nat, nValid: nat): (r: (nat, nat))
    ensures r.0 <= bs && r.0 <= nUnlabeled && (r.0 == bs || r.0 == nUnlabeled)
    ensures r.1 <= 2 * bs && r.1 <= nValid && (r.1 == 2 * bs || r.1 == nValid)
  {
    (Min(bs, nUnlabeled), Min(2 * bs, nValid))
  }

  /** `mixmatch(learn, ...)`: the learner now trains on the unlabeled data
      bunch `udata`, the callback constructor is appended, and the data bunch
      it replaced becomes the callback's labeled data. `bound` identifies the
      arguments the appended partial binds. */
  function Attach(learner: Learner, udata: DataRef, t: Temperature, k: nat, weight: real,
                  labeledBatches: seq<LabeledBatch>, nClasses: nat, bound: nat): (r: (Learner, Config))
    ensures r.0.lossFunc == learner.lossFunc && r.0.data == udata
    ensures r.0.callbackFns == learner.callbackFns + [Partial(CallbackName, bound)]
    ensures r.1.labeledData == learner.data
  {
    (learner.(data := udata, callbackFns := learner.callbackFns + [Partial(CallbackName, bound)]),
     Config(t, k, weight, learner.data, labeledBatches, nClasses))
  }

  // ---------------------------------------------------------------------
  // on_train_begin
  // ---------------------------------------------------------------------

  /** `total_samples`: epochs × unlabeled batches per epoch × batch size × (K + 1). */
  function TotalSamples(nEpochs: nat, nBatches: nat, batchSize: nat, k: nat): (r: nat)
    ensures r == 0 <==> nEpochs == 0 || nBatches == 0 || batchSize == 0
    ensures r % (k + 1) == 0
  {
    ZeroProduct(nBatches, batchSize);
    ZeroProduct(nEpochs, nBatches * batchSize);
    ZeroProduct(nEpochs * nBatches * batchSize, k + 1);
    DivModUnique(nEpochs * nBatches * batchSize * (k + 1), k + 1, nEpochs * nBatches * batchSize, 0);
    nEpochs * nBatches * batchSize * (k + 1)
  }

  /** A product of naturals is zero exactly when a factor is. */
  lemma ZeroProduct(a: nat, b: nat)
    ensures a * b == 0 <==> a == 0 || b == 0
  {
    if a > 0 && b > 0 {
      MulLe(a, 1, b);
    }
  }

  /** `on_train_begin`: the base criterion is wrapped in the adapted loss, a
      fresh labeled iterator is started and the step counter is reset. Also
      returns the planned sample count. `freshId` names the default criterion
      the adapted loss would create if it had none. */
  function OnTrainBegin(learner: Learner, cfg: Config, nEpochs: nat, nBatches: nat, batchSize: nat,
                        freshId: nat): (r: (Learner, State, nat))
    requires learner.lossFunc.Base?
    ensures r.0.lossFunc.Adapted? && GetOld(r.0.lossFunc.loss) == learner.lossFunc.crit
    ensures r.0.lossFunc.loss.weight == cfg.weight
    ensures r.0.data == learner.data && r.0.callbackFns == learner.callbackFns
    ensures r.1 == State(0, 0, [], [])
    ensures r.2 == TotalSamples(nEpochs, nBatches, batchSize, cfg.k)
  {
    var loss := Init(Some(learner.lossFunc.crit), "mean", cfg.weight, freshId);
    GetOldRoundTrip(learner.lossFunc.crit, "mean", cfg.weight, freshId);
    (learner.(lossFunc := Adapted(loss)), State(0, 0, [], []), TotalSamples(nEpochs, nBatches, batchSize, cfg.k))
  }

  /** The planned sample count is the number of rows the mixed batches of the
      run hold, when every labeled batch is as large as the unlabeled batch
      and each unlabeled example comes with K views. */
  lemma TotalSamplesCountsMixedRows(nEpochs: nat, nBatches: nat, xx: Matrix, xy: seq<int>, nClasses: nat,
                                    lastInput: seq<Matrix>, k: nat, vp: seq<Matrix>, t: Temperature,
                                    beta: real, shuffle: seq<nat>)
    requires ViewBatch(lastInput, k) && |xx| == |lastInput|
    requires AssembleAsWritten(xx, xy, nClasses, lastInput, k, vp, t, beta, shuffle).Ok?
    ensures TotalSamples(nEpochs, nBatches, |lastInput|, k)
         == nEpochs * nBatches * |AssembleAsWritten(xx, xy, nClasses, lastInput, k, vp, t, beta, shuffle).value.input|
  {
    var rows := |AssembleAsWritten(xx, xy, nClasses, lastInput, k, vp, t, beta, shuffle).value.input|;
    assert rows == |lastInput| + |lastInput| * k;
    TotalSamplesPerStep(nEpochs, nBatches, |lastInput|, k, rows);
  }

  /** When each step holds `b * (k + 1)` rows the plan is that many rows per step. */
  lemma TotalSamplesPerStep(nEpochs: nat, nBatches: nat, b: nat, k: nat, rows: nat)
    requires rows == b + b * k
    ensures TotalSamples(nEpochs, nBatches, b, k) == nEpochs * nBatches * rows
  {
    var steps := nEpochs * nBatches;
    calc {
      TotalSamples(nEpochs, nBatches, b, k);
      steps * b * (k + 1);
      { MulAssoc(steps, b, k + 1); }
      steps * (b * (k + 1));
      steps * rows;
    }
  }

  lemma MulAssoc(a: nat, b: nat, c: nat)
    ensures a * b * c == a * (b * c)
  {
  }

  /** Three epochs of ten unlabeled batches of sixteen examples with two views each plan 1440 samples. */
  lemma TotalSamplesExample()
    ensures TotalSamples(3, 10, 16, 2) == 1440
  {
  }

  // ---------------------------------------------------------------------
  // The cyclic labeled iterator
  // ---------------------------------------------------------------------

  /** `next(self.ldliter)`, restarting the iterator on `StopIteration`: the
      index of the batch drawn and the iterator position after it. A loader
      without batches raises `StopIteration` again from the fresh iterator. */
  function Draw(cursor: nat, n: nat): (r: Result<(nat, nat)>)
    ensures r.Ok? <==> n > 0
    ensures r.Err? ==> r.error == StopIteration
    ensures r.Ok? ==> r.value.0 < n && r.value.1 == r.value.0 + 1
    ensures r.Ok? && cursor < n ==> r.value.0 == cursor
    ensures r.Ok? && cursor >= n ==> r.value.0 == 0
  {
    if cursor < n then Ok((cursor, cursor + 1))
    else if n > 0 then Ok((0, 1))
    else Err(StopIteration)
  }

  /** The iterator position after `m` draws from a fresh iterator over `n` batches. */
  function CursorAfter(m: nat, n: nat): nat
    requires n > 0
  {
    if m == 0 then 0 else Draw(CursorAfter(m - 1, n), n).value.1
  }

  /** After `m` draws the iterator sits just past batch `(m - 1) mod n`. */
  lemma {:induction false} CursorClosed(m: nat, n: nat)
    requires n > 0
    ensures CursorAfter(m, n) == (if m == 0 then 0 else (m - 1) % n + 1)
  {
    if m == 1 {
      DivModUnique(0, n, 0, 0);
    } else if m > 1 {
      CursorClosed(m - 1, n);
      ModSuccessor(m - 2, n);
    }
  }

  /** Draw `m` (counting from zero) takes batch `m mod n`. */
  lemma DrawInTurn(m: nat, n: nat)
    requires n > 0
    ensures CursorAfter(m, n) == (if m == 0 then 0 else (m - 1) % n + 1)
    ensures Draw(CursorAfter(m, n), n) == Ok((m % n, CursorAfter(m + 1, n)))
  {
    CursorClosed(m, n);
    if m == 0 {
      DivModUnique(0, n, 0, 0);
    } else {
      ModSuccessor(m - 1, n);
    }
  }

  /** The remainder of `m + 1` is one more than that of `m`, or wraps to 0. */
  lemma ModSuccessor(m: nat, n: nat)
    requires n > 0
    ensures m % n + 1 < n ==> (m + 1) % n == m % n + 1
    ensures m % n + 1 == n ==> (m + 1) % n == 0
  {
    var q, r := m / n, m % n;
    assert m == n * q + r;
    if r + 1 < n {
      DivModUnique(m + 1, n, q, r + 1);
    } else {
      assert m + 1 == n * (q + 1) + 0;
      DivModUnique(m + 1, n, q + 1, 0);
    }
  }

  // ---------------------------------------------------------------------
  // on_batch_begin / on_batch_end
  // ---------------------------------------------------------------------

  /** `on_batch_begin`: outside training nothing happens; in training the next
      labeled batch is drawn and the mixed batch is assembled, with the
      pseudo-labels repeated twice as the code does, and returned as the
      step's input and target. */
  function OnBatchBegin(cfg: Config, st: State, train: bool,
                        lastInput: seq<Matrix>, views: nat, vp: seq<Matrix>,
                        beta: real, shuffle: seq<nat>): (r: Result<(State, Option<MixedBatch>)>)
    requires ViewBatch(lastInput, views)
    ensures !train ==> r == Ok((st, None))
    ensures train && r.Ok? ==> r.value.1.Some? && |cfg.labeledBatches| > 0
    ensures train && r.Ok? ==>
      var drawn := Draw(st.cursor, |cfg.labeledBatches|).value;
      && r.value.0 == st.(cursor := drawn.1)
      && r.value.1.value.bs == |cfg.labeledBatches[drawn.0].x|
    ensures train && |cfg.labeledBatches| == 0 ==> r == Err(StopIteration)
  {
    if !train then Ok((st, None))
    else
      var drawn :- Draw(st.cursor, |cfg.labeledBatches|);
      var batch := cfg.labeledBatches[drawn.0];
      var mixed :- AssembleAsWritten(batch.x, batch.y, cfg.nClasses, lastInput, views, vp, cfg.t, beta, shuffle);
      Ok((st.(cursor := drawn.1), Some(mixed)))
  }

  /** The m-th training step of a run mixes labeled batch `m mod n` of the `n` labeled batches. */
  lemma BatchBeginDrawsInTurn(cfg: Config, st: State, m: nat,
                              lastInput: seq<Matrix>, views: nat, vp: seq<Matrix>,
                              beta: real, shuffle: seq<nat>)
    requires |cfg.labeledBatches| > 0 && st.cursor == CursorAfter(m, |cfg.labeledBatches|)
    requires ViewBatch(lastInput, views)
    ensures var n := |cfg.labeledBatches|;
      var batch := cfg.labeledBatches[m % n];
      var r := OnBatchBegin(cfg, st, true, lastInput, views, vp, beta, shuffle);
      var a := AssembleAsWritten(batch.x, batch.y, cfg.nClasses, lastInput, views, vp, cfg.t, beta, shuffle);
      && (r.Ok? <==> a.Ok?)
      && (r.Ok? ==> r.value == (st.(cursor := CursorAfter(m + 1, n)), Some(a.value)))
  {
    DrawInTurn(m, |cfg.labeledBatches|);
  }

  /** A training step whose inputs are well formed succeeds exactly when each
      unlabeled example comes with two views. */
  lemma BatchBeginNeedsTwoViews(cfg: Config, st: State, m: nat,
                                lastInput: seq<Matrix>, views: nat, vp: seq<Matrix>,
                                beta: real, shuffle: seq<nat>, d: nat)
    requires |cfg.labeledBatches| > 0 && st.cursor == CursorAfter(m, |cfg.labeledBatches|)
    requires var batch := cfg.labeledBatches[m % |cfg.labeledBatches|];
      WellFormed(batch.x, batch.y, cfg.nClasses, lastInput, views, vp, shuffle, d)
    ensures OnBatchBegin(cfg, st, true, lastInput, views, vp, beta, shuffle).Ok? <==> views == 2
  {
    var batch := cfg.labeledBatches[m % |cfg.labeledBatches|];
    BatchBeginDrawsInTurn(cfg, st, m, lastInput, views, vp, beta, shuffle);
    AsWrittenNeedsTwoViews(batch.x, batch.y, cfg.nClasses, lastInput, views, vp, cfg.t, beta, shuffle, d);
  }

  /** `on_batch_end`: in training, the adapted loss's last Lx and λ·Lu go to
      the smoothers and the step counter advances. Reading them before any
      loss call stored them fails. */
  function OnBatchEnd(learner: Learner, st: State, train: bool): (r: Result<State>)
    ensures !train ==> r == Ok(st)
    ensures train && r.Ok? ==>
      && learner.lossFunc.Adapted? && learner.lossFunc.loss.lx.Some? && learner.lossFunc.loss.lu.Some?
      && r.value == State(st.cursor, st.it + 1,
                          st.lxSeen + [learner.lossFunc.loss.lx.value],
                          st.luSeen + [learner.lossFunc.loss.lu.value])
  {
    if !train then Ok(st)
    else
      match learner.lossFunc
      case Base(_) => Err(AttributeError)
      case Adapted(l) =>
        if l.lx.Some? && l.lu.Some? then
          Ok(State(st.cursor, st.it + 1, st.lxSeen + [l.lx.value], st.luSeen + [l.lu.value]))
        else
          Err(AttributeError)
  }

  // ---------------------------------------------------------------------
  // on_train_end
  // ---------------------------------------------------------------------

  /** `on_train_end`: the base criterion comes back through `get_old`, the
      labeled data bunch is reinstated and the callback drops itself from the
      callback list. */
  function OnTrainEnd(learner: Learner, cfg: Config): (r: Result<Learner>)
    ensures r.Ok? <==> learner.lossFunc.Adapted?
    ensures r.Ok? ==> r.value.lossFunc == Base(GetOld(learner.lossFunc.loss))
    ensures r.Ok? ==> r.value.data == cfg.labeledData
    ensures r.Ok? ==> forall cb :: cb in r.value.callbackFns <==> cb in learner.callbackFns && Name(cb) != CallbackName
    ensures r.Ok? ==> r.value.callbackFns == Keep(learner.callbackFns, CallbackName)
  {
    match learner.lossFunc
    case Base(_) => Err(AttributeError)
    case Adapted(l) =>
      KeepMembers(learner.callbackFns, CallbackName);
      Ok(Learner(Base(GetOld(l)), cfg.labeledData, Keep(learner.callbackFns, CallbackName)))
  }

  // ---------------------------------------------------------------------
  // A training run
  // ---------------------------------------------------------------------

  /** What the training loop does between `on_train_begin` and `on_train_end`. */
  datatype Event =
    | BatchBegin(train: bool, lastInput: seq<Matrix>, views: nat, vp: seq<Matrix>, beta: real, shuffle: seq<nat>)
    | LossCall(preds: Matrix, target: Target)
    | BatchEnd(train: bool)

  /** Every unlabeled batch in the trace is a tensor: one number of views per batch. */
  predicate ValidEvents(events: seq<Event>)
  {
    forall i :: 0 <= i < |events| && events[i].BatchBegin? ==> ViewBatch(events[i].lastInput, events[i].views)
  }

  /** Calling the learner's loss function: the adapted loss stores its terms. */
  function CallLoss(learner: Learner, preds: Matrix, target: Target, terms: LossTerms): (r: Learner)
    ensures r.data == learner.data && r.callbackFns == learner.callbackFns
    ensures r.lossFunc.Adapted? <==> learner.lossFunc.Adapted?
    ensures learner.lossFunc.Adapted? ==> GetOld(r.lossFunc.loss) == GetOld(learner.lossFunc.loss)
  {
    match learner.lossFunc
    case Base(_) => learner
    case Adapted(l) => learner.(lossFunc := Adapted(Forward(l, preds, target, terms).1))
  }

  /** Whether an event starts a training-phase batch. */
  function Begins(e: Event): nat
  {
    if e.BatchBegin? && e.train then 1 else 0
  }

  /** Whether an event ends a training-phase batch. */
  function Ends(e: Event): nat
  {
    if e.BatchEnd? && e.train then 1 else 0
  }

  /** The number of training-phase batch starts in a trace. */
  function TrainBegins(events: seq<Event>): nat
  {
    if |events| == 0 then 0
    else Begins(events[0]) + TrainBegins(events[1..])
  }

  /** The number of training-phase batch ends in a trace. */
  function TrainEnds(events: seq<Event>): nat
  {
    if |events| == 0 then 0
    else Ends(events[0]) + TrainEnds(events[1..])
  }

  /** What a step or a run starting from `learner` and `st` keeps and
      advances, ending in `after`: the data bunch, the callback list and the
      criterion `get_old` gives back are kept and the loss stays adapted; the
      counter and the recorded values grow by `ends`; the labeled iterator
      over `n` batches has made `begins` more draws than the `m` it had made,
      and over no batches it has made none. */
  predicate Kept(n: nat, learner: Learner, st: State, m: nat, after: (Learner, State), ends: nat, begins: nat)
  {
    && after.0.data == learner.data && after.0.callbackFns == learner.callbackFns
    && learner.lossFunc.Adapted? && after.0.lossFunc.Adapted?
    && GetOld(after.0.lossFunc.loss) == GetOld(learner.lossFunc.loss)
    && after.1.it == st.it + ends
    && |after.1.lxSeen| == |st.lxSeen| + ends
    && |after.1.luSeen| == |st.luSeen| + ends
    && (n > 0 ==> after.1.cursor == CursorAfter(m + begins, n))
    && (n == 0 ==> begins == 0 && after.1.cursor == st.cursor)
  }

  lemma KeptTrans(n: nat, learner: Learner, st: State, m: nat, mid: (Learner, State), ends: nat, begins: nat,
                  after: (Learner, State), ends': nat, begins': nat)
    requires Kept(n, learner, st, m, mid, ends, begins)
    requires Kept(n, mid.0, mid.1, m + begins, after, ends', begins')
    ensures Kept(n, learner, st, m, after, ends + ends', begins + begins')
  {
  }

  /** One hook or loss call. */
  function Step(cfg: Config, learner: Learner, st: State, e: Event, terms: LossTerms): (r: Result<(Learner, State)>)
    requires e.BatchBegin? ==> ViewBatch(e.lastInput, e.views)
  {
    match e
    case BatchBegin(train, lastInput, views, vp, beta, shuffle) =>
      var begun :- OnBatchBegin(cfg, st, train, lastInput, views, vp, beta, shuffle);
      Ok((learner, begun.0))
    case LossCall(preds, target) =>
      Ok((CallLoss(learner, preds, target, terms), st))
    case BatchEnd(train) =>
      var ended :- OnBatchEnd(learner, st, train);
      Ok((learner, ended))
  }

  /** A step leaves the data bunch and the callback list alone, keeps the loss
      adapted without disturbing what `get_old` gives back, counts a training
      batch end and draws one labeled batch per training batch start. */
  lemma StepInvariant(cfg: Config, learner: Learner, st: State, e: Event, terms: LossTerms, m: nat)
    requires e.BatchBegin? ==> ViewBatch(e.lastInput, e.views)
    requires learner.lossFunc.Adapted?
    requires |cfg.labeledBatches| > 0 ==> st.cursor == CursorAfter(m, |cfg.labeledBatches|)
    requires Step(cfg, learner, st, e, terms).Ok?
    ensures Kept(|cfg.labeledBatches|, learner, st, m, Step(cfg, learner, st, e, terms).value,
                 Ends(e), Begins(e))
  {
    if e.BatchBegin? && e.train && |cfg.labeledBatches| > 0 {
      DrawInTurn(m, |cfg.labeledBatches|);
    }
  }

  /** The hooks and loss calls of a trace, in order; the first failure ends the run. */
  function Run(cfg: Config, learner: Learner, st: State, events: seq<Event>, terms: LossTerms): (r: Result<(Learner, State)>)
    requires ValidEvents(events)
    decreases |events|
  {
    if |events| == 0 then Ok((learner, st))
    else
      ValidRest(events);
      var next :- Step(cfg, learner, st, events[0], terms);
      Run(cfg, next.0, next.1, events[1..], terms)
  }

  /** Dropping the first event keeps a trace valid. */
  lemma ValidRest(events: seq<Event>)
    requires ValidEvents(events) && |events| > 0
    ensures ValidEvents(events[1..])
    ensures events[0].BatchBegin? ==> ViewBatch(events[0].lastInput, events[0].views)
  {
    var rest := events[1..];
    forall i | 0 <= i < |rest| && rest[i].BatchBegin?
      ensures ViewBatch(rest[i].lastInput, rest[i].views)
    {
      assert rest[i] == events[i + 1];
    }
  }

  /** A run that ends in `result` takes a first step that keeps what `Kept`
      says, and the rest of the trace ends in `result` from there. */
  lemma RunStep(cfg: Config, learner: Learner, st: State, events: seq<Event>, terms: LossTerms,
                m: nat, result: (Learner, State)) returns (next: (Learner, State))
    requires ValidEvents(events) && |events| > 0
    requires learner.lossFunc.Adapted?
    requires |cfg.labeledBatches| > 0 ==> st.cursor == CursorAfter(m, |cfg.labeledBatches|)
    requires Run(cfg, learner, st, events, terms) == Ok(result)
    ensures ValidEvents(events[1..])
    ensures events[0].BatchBegin? ==> ViewBatch(events[0].lastInput, events[0].views)
    ensures Step(cfg, learner, st, events[0], terms) == Ok(next)
    ensures Run(cfg, next.0, next.1, events[1..], terms) == Ok(result)
    ensures Kept(|cfg.labeledBatches|, learner, st, m, next, Ends(events[0]), Begins(events[0]))
  {
    ValidRest(events);
    StepInvariant(cfg, learner, st, events[0], terms, m);
    next := Step(cfg, learner, st, events[0], terms).value;
  }

  /** A run leaves the data bunch and the callback list alone, keeps the loss
      adapted, never disturbs what `get_old` gives back, counts one step per
      training batch end and advances the labeled iterator once per training
      batch start. */
  lemma {:induction false} RunInvariant(cfg: Config, learner: Learner, st: State, events: seq<Event>,
                                        terms: LossTerms, m: nat, result: (Learner, State))
    requires ValidEvents(events)
    requires learner.lossFunc.Adapted?
    requires |cfg.labeledBatches| > 0 ==> st.cursor == CursorAfter(m, |cfg.labeledBatches|)
    requires Run(cfg, learner, st, events, terms) == Ok(result)
    ensures Kept(|cfg.labeledBatches|, learner, st, m, result, TrainEnds(events), TrainBegins(events))
    decreases |events|
  {
    if |events| > 0 {
      var e := events[0];
      var next := RunStep(cfg, learner, st, events, terms, m, result);
      RunInvariant(cfg, next.0, next.1, events[1..], terms, m + Begins(e), result);
      KeptCons(|cfg.labeledBatches|, learner, st, m, events, next, result);
    } else {
      assert result == (learner, st);
      KeptNothing(|cfg.labeledBatches|, learner, st, m);
    }
  }

  /** The empty trace keeps everything and draws nothing. */
  lemma KeptNothing(n: nat, learner: Learner, st: State, m: nat)
    requires learner.lossFunc.Adapted?
    requires n > 0 ==> st.cursor == CursorAfter(m, n)
    ensures Kept(n, learner, st, m, (learner, st), 0, 0)
  {
  }

  /** A first step and the rest of a trace together keep what `Kept` says
      for the whole trace. */
  lemma KeptCons(n: nat, learner: Learner, st: State, m: nat, events: seq<Event>,
                 next: (Learner, State), result: (Learner, State))
    requires |events| > 0
    requires Kept(n, learner, st, m, next, Ends(events[0]), Begins(events[0]))
    requires Kept(n, next.0, next.1, m + Begins(events[0]), result,
                  TrainEnds(events[1..]), TrainBegins(events[1..]))
    ensures Kept(n, learner, st, m, result, TrainEnds(events), TrainBegins(events))
  {
    KeptTrans(n, learner, st, m, next, Ends(events[0]), Begins(events[0]),
              result, TrainEnds(events[1..]), TrainBegins(events[1..]));
  }

  /** Attach the callback, begin training, run the trace and end training. */
  function Training(learner: Learner, udata: DataRef, t: Temperature, k: nat, weight: real,
                    labeledBatches: seq<LabeledBatch>, nClasses: nat, bound: nat,
                    nEpochs: nat, nBatches: nat, batchSize: nat, freshId: nat,
                    events: seq<Event>, terms: LossTerms): (r: Result<Learner>)
    requires learner.lossFunc.Base? && ValidEvents(events)
  {
    var (attached, cfg) := Attach(learner, udata, t, k, weight, labeledBatches, nClasses, bound);
    var (begun, st, _) := OnTrainBegin(attached, cfg, nEpochs, nBatches, batchSize, freshId);
    var (trained, _) :- Run(cfg, begun, st, events, terms);
    OnTrainEnd(trained, cfg)
  }

  /** After a complete run the learner has its original loss function and its
      original (labeled) data bunch back, and its callback list is the
      original one without the MixMatch entries; a list that had none is
      unchanged. */
  lemma TrainingRoundTrip(learner: Learner, udata: DataRef, t: Temperature, k: nat, weight: real,
                          labeledBatches: seq<LabeledBatch>, nClasses: nat, bound: nat,
                          nEpochs: nat, nBatches: nat, batchSize: nat, freshId: nat,
                          events: seq<Event>, terms: LossTerms)
    requires learner.lossFunc.Base? && ValidEvents(events)
    requires Training(learner, udata, t, k, weight, labeledBatches, nClasses, bound,
                      nEpochs, nBatches, batchSize, freshId, events, terms).Ok?
    ensures var final := Training(learner, udata, t, k, weight, labeledBatches, nClasses, bound,
                                  nEpochs, nBatches, batchSize, freshId, events, terms).value;
      && final.lossFunc == learner.lossFunc
      && final.data == learner.data
      && final.callbackFns == Keep(learner.callbackFns, CallbackName)
      && ((forall i :: 0 <= i < |learner.callbackFns| ==> Name(learner.callbackFns[i]) != CallbackName)
          ==> final.callbackFns == learner.callbackFns)
  {
    var (attached, cfg) := Attach(learner, udata, t, k, weight, labeledBatches, nClasses, bound);
    var (begun, st, _) := OnTrainBegin(attached, cfg, nEpochs, nBatches, batchSize, freshId);
    var ran := Run(cfg, begun, st, events, terms).value;
    RunInvariant(cfg, begun, st, events, terms, 0, ran);
    KeepAppended(learner.callbackFns, Partial(CallbackName, bound), CallbackName);
    if forall i :: 0 <= i < |learner.callbackFns| ==> Name(learner.callbackFns[i]) != CallbackName {
      KeepUnchanged(learner.callbackFns, CallbackName);
    }
  }
}
