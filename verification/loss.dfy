/** `MatchMixLoss`: the adapted loss that wraps a base criterion, switches it
    to per-example losses while training, splits a mixed batch at `bs` into a
    labeled term Lx and a consistency term Lu, and gives the base criterion
    back unchanged at the end. The numeric loss terms (softmax, log-softmax,
    cross-entropy, mean squared error) are uninterpreted functions. */
module Loss {
  import opened Wrappers
  import opened Tensor

  /** A base criterion object. `id` stands for its identity; `reduction` is
      its `reduction` attribute, absent for plain loss functions. */
  datatype Criterion = Criterion(id: nat, reduction: Option<string>)

  /** How the adapted loss holds the base criterion. */
  datatype Held =
    | Reconfigured(crit: Criterion, oldRed: string)  // had `reduction`: switched to 'none', old mode kept
    | Bound(oldCrit: Criterion)                       // had none: held as `partial(crit, reduction='none')`

  /** The adapted loss: the held criterion, its own reduction mode, the
      consistency weight λ and the last Lx and λ·Lu it stored. */
  datatype MatchMixLoss = MatchMixLoss(
    held: Held,
    reduction: string,
    weight: real,
    lx: Option<real>,
    lu: Option<real>)

  /** The reduction mode the held criterion actually uses. */
  function EffectiveReduction(h: Held): Option<string>
  {
    match h
    case Reconfigured(c, _) => c.reduction
    case Bound(_) => Some("none")
  }

  /** The object the held criterion is. */
  function HeldId(h: Held): nat
  {
    match h
    case Reconfigured(c, _) => c.id
    case Bound(c) => c.id
  }

  /** The criterion used when none is given: a new `nn.CrossEntropyLoss()`,
      whose reduction mode is 'mean'; `freshId` is the identity of the new object. */
  function DefaultCriterion(freshId: nat): (c: Criterion)
    ensures c.reduction == Some("mean") && c.id == freshId
  {
    Criterion(freshId, Some("mean"))
  }

  /** `MatchMixLoss(crit, reduction, λ)`. */
  function Init(crit: Option<Criterion>, reduction: string, weight: real, freshId: nat): (l: MatchMixLoss)
    ensures var c := if crit.Some? then crit.value else DefaultCriterion(freshId);
      && HeldId(l.held) == c.id
      && (l.held.Reconfigured? <==> c.reduction.Some?)
      && (l.held.Reconfigured? ==> Some(l.held.oldRed) == c.reduction)
    ensures EffectiveReduction(l.held) == Some("none")
    ensures l.reduction == reduction && l.weight == weight
    ensures l.lx.None? && l.lu.None?
  {
    var c := if crit.Some? then crit.value else DefaultCriterion(freshId);
    var held :=
      if c.reduction.Some? then Reconfigured(c.(reduction := Some("none")), c.reduction.value)
      else Bound(c);
    MatchMixLoss(held, reduction, weight, None, None)
  }

  /** `get_old`: the base criterion with its original reduction mode restored. */
  function GetOld(l: MatchMixLoss): (c: Criterion)
    ensures c.id == HeldId(l.held)
    ensures l.held.Reconfigured? ==> c.reduction == Some(l.held.oldRed)
  {
    match l.held
    case Bound(oldCrit) => oldCrit
    case Reconfigured(crit, oldRed) => crit.(reduction := Some(oldRed))
  }

  /** Wrapping a criterion and asking for it back returns that very criterion,
      its reduction mode included. */
  lemma GetOldRoundTrip(c: Criterion, reduction: string, weight: real, freshId: nat)
    ensures GetOld(Init(Some(c), reduction, weight, freshId)) == c
  {
  }

  /** With no criterion given, the default cross-entropy is handed back with mode 'mean'. */
  lemma GetOldDefault(reduction: string, weight: real, freshId: nat)
    ensures GetOld(Init(None, reduction, weight, freshId)) == DefaultCriterion(freshId)
  {
  }

  /** The target a loss call receives: integer labels outside MixMatch
      training (`bs` is None), or the mixed soft targets with the split point `bs`. */
  datatype Target = Labels(classes: seq<int>) | Mixed(soft: Matrix, bs: nat)

  /** The numeric loss terms, as uninterpreted functions of the rows they read. */
  datatype LossTerms = LossTerms(
    crossEntropy: (Matrix, seq<int>) -> real,  // F.cross_entropy(preds, target)
    softNll: (Matrix, Matrix) -> real,         // -(log_softmax(preds) * target).sum(dim=1).mean()
    meanSquared: (Matrix, Matrix) -> real)     // F.mse_loss(softmax(preds), target)

  function Min(a: nat, b: nat): nat
  {
    if a <= b then a else b
  }

  /** `s[:n]`: slicing stops at the end of the sequence. */
  function Take<T>(s: seq<T>, n: nat): (r: seq<T>)
    ensures |r| == Min(n, |s|)
    ensures forall i :: 0 <= i < |r| ==> r[i] == s[i]
  {
    s[..Min(n, |s|)]
  }

  /** `s[n:]`: empty when `n` is past the end. */
  function Drop<T>(s: seq<T>, n: nat): (r: seq<T>)
    ensures |r| == |s| - Min(n, |s|)
    ensures forall i :: 0 <= i < |r| ==> r[i] == s[Min(n, |s|) + i]
    ensures Take(s, n) + r == s
  {
    s[Min(n, |s|)..]
  }

  /** The consistency term scaled by its weight, `Lu * λ`. */
  function Weigh(lu: real, weight: real): real
  {
    lu * weight
  }

  /** `forward(preds, target, bs)`: the loss value and the adapted loss with
      the diagnostics it stored. */
  function Forward(l: MatchMixLoss, preds: Matrix, target: Target, terms: LossTerms): (r: (real, MatchMixLoss))
    ensures target.Labels? ==> r == (terms.crossEntropy(preds, target.classes), l)
    ensures target.Mixed? ==> r.1.lx.Some? && r.1.lu.Some? && r.0 == r.1.lx.value + r.1.lu.value
    ensures r.1.held == l.held && r.1.weight == l.weight && r.1.reduction == l.reduction
    ensures GetOld(r.1) == GetOld(l)
  {
    match target
    case Labels(y) => (terms.crossEntropy(preds, y), l)
    case Mixed(t, bs) =>
      var lx := terms.softNll(Take(preds, bs), Take(t, bs));
      var lu := terms.meanSquared(Drop(preds, bs), Drop(t, bs));
      var weighted := Weigh(lu, l.weight);
      (lx + weighted, l.(lx := Some(lx), lu := Some(weighted)))
  }

  /** Lx reads only the labeled rows 0 .. bs-1 of predictions and targets,
      whatever follows them. */
  lemma LxReadsLabeledRows(l: MatchMixLoss, p: Matrix, t: Matrix, restP: Matrix, restT: Matrix, terms: LossTerms)
    requires |p| == |t|
    ensures Forward(l, p + restP, Mixed(t + restT, |p|), terms).1.lx == Some(terms.softNll(p, t))
  {
    var bs := |p|;
    assert Take(p + restP, bs) == p;
    assert Take(t + restT, bs) == t;
    var lx := terms.softNll(p, t);
    var lu := terms.meanSquared(Drop(p + restP, bs), Drop(t + restT, bs));
    var r := Forward(l, p + restP, Mixed(t + restT, bs), terms);
    assert r.0 == lx + Weigh(lu, l.weight);
  }

  /** The stored Lu reads only the unlabeled rows from bs onwards, whatever
      precedes them, and already carries the weight λ. */
  lemma LuReadsUnlabeledRows(l: MatchMixLoss, p: Matrix, t: Matrix, restP: Matrix, restT: Matrix, terms: LossTerms)
    requires |p| == |t|
    ensures Forward(l, p + restP, Mixed(t + restT, |p|), terms).1.lu
         == Some(Weigh(terms.meanSquared(restP, restT), l.weight))
  {
    var bs := |p|;
    assert Drop(p + restP, bs) == restP;
    assert Drop(t + restT, bs) == restT;
    var lx := terms.softNll(Take(p + restP, bs), Take(t + restT, bs));
    var lu := terms.meanSquared(restP, restT);
    var r := Forward(l, p + restP, Mixed(t + restT, bs), terms);
    assert r.0 == lx + Weigh(lu, l.weight);
  }

  /** The stored Lu already carries the weight λ: the value returned is Lx + λ·Lu. */
  lemma ForwardWeighsLu(l: MatchMixLoss, preds: Matrix, soft: Matrix, bs: nat, terms: LossTerms)
    ensures var r := Forward(l, preds, Mixed(soft, bs), terms);
      r.0 == r.1.lx.value + l.weight * terms.meanSquared(Drop(preds, bs), Drop(soft, bs))
  {
  }
}
