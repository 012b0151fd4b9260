/** The learner's list of callback constructors and `drop_cb_fn`, which
    removes every entry of a given name from it. */
module CallbackList {

  /** One entry of the callback list: a callback class, or a partial
      application of one that binds some of its constructor arguments. */
  datatype CallbackFn =
    | Plain(name: string)                // a class, named by its `__name__`
    | Partial(func: string, bound: nat)  // a partial over the class named `func`; `bound` tells bound arguments apart

  /** The name `drop_cb_fn` compares: the wrapped function's name for a partial. */
  function Name(cb: CallbackFn): string
  {
    match cb
    case Plain(n) => n
    case Partial(f, _) => f
  }

  /** The entries of `fns` whose name is not `n`, in their original order. */
  function Keep(fns: seq<CallbackFn>, n: string): (r: seq<CallbackFn>)
    ensures |r| <= |fns|
  {
    if |fns| == 0 then []
    else if Name(fns[0]) != n then [fns[0]] + Keep(fns[1..], n)
    else Keep(fns[1..], n)
  }

  /** `drop_cb_fn(learn, cb_name)`: the loop that rebuilds the list without
      the entries named `cb_name`. */
  method DropCbFn(fns: seq<CallbackFn>, cbName: string) returns (cbs: seq<CallbackFn>)
    ensures cbs == Keep(fns, cbName)
    ensures forall cb :: cb in cbs <==> cb in fns && Name(cb) != cbName
  {
    cbs := [];
    var i := 0;
    while i < |fns|
      invariant 0 <= i <= |fns|
      invariant cbs == Keep(fns[..i], cbName)
    {
      var cb := fns[i];
      KeepStep(fns, i, cbName);
      if Name(cb) != cbName {
        cbs := cbs + [cb];
      }
      i := i + 1;
    }
    assert fns[..i] == fns;
    KeepMembers(fns, cbName);
  }

  /** The kept entries are exactly the entries whose name differs. */
  lemma {:induction false} KeepMembers(fns: seq<CallbackFn>, n: string)
    ensures forall cb :: cb in Keep(fns, n) <==> cb in fns && Name(cb) != n
  {
    if |fns| > 0 {
      KeepMembers(fns[1..], n);
      assert fns == [fns[0]] + fns[1..];
    }
  }

  /** Filtering distributes over concatenation: kept entries keep their order. */
  lemma {:induction false} KeepAppend(a: seq<CallbackFn>, b: seq<CallbackFn>, n: string)
    ensures Keep(a + b, n) == Keep(a, n) + Keep(b, n)
  {
    if |a| > 0 {
      assert (a + b)[1..] == a[1..] + b;
      KeepAppend(a[1..], b, n);
    } else {
      assert a + b == b;
    }
  }

  /** One more entry of the list: it is kept exactly when its name differs. */
  lemma KeepStep(fns: seq<CallbackFn>, i: nat, n: string)
    requires i < |fns|
    ensures Keep(fns[..i + 1], n)
         == Keep(fns[..i], n) + (if Name(fns[i]) != n then [fns[i]] else [])
  {
    KeepAppend(fns[..i], [fns[i]], n);
    assert fns[..i + 1] == fns[..i] + [fns[i]];
    assert Keep([fns[i]], n) == if Name(fns[i]) != n then [fns[i]] else [];
  }

  /** Dropping a name twice is dropping it once. */
  lemma {:induction false} KeepIdempotent(fns: seq<CallbackFn>, n: string)
    ensures Keep(Keep(fns, n), n) == Keep(fns, n)
  {
    if |fns| > 0 {
      KeepIdempotent(fns[1..], n);
      if Name(fns[0]) != n {
        assert ([fns[0]] + Keep(fns[1..], n))[1..] == Keep(fns[1..], n);
      }
    }
  }

  /** A list with no entry of that name is left as it is. */
  lemma {:induction false} KeepUnchanged(fns: seq<CallbackFn>, n: string)
    requires forall i :: 0 <= i < |fns| ==> Name(fns[i]) != n
    ensures Keep(fns, n) == fns
  {
    if |fns| > 0 {
      KeepUnchanged(fns[1..], n);
      assert [fns[0]] + fns[1..] == fns;
    }
  }

  /** Appending an entry of the dropped name and then dropping it gives back
      what dropping alone gives. */
  lemma KeepAppended(fns: seq<CallbackFn>, cb: CallbackFn, n: string)
    requires Name(cb) == n
    ensures Keep(fns + [cb], n) == Keep(fns, n)
  {
    KeepAppend(fns, [cb], n);
    assert Keep([cb], n) == [];
  }
}
