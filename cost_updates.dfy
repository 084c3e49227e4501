/** What a run of successive `update_cost` calls leaves in an expense. */
module CostUpdates {
  import opened Expenses

  datatype Option<T> = None | Some(value: T)

  /** The cost after calling `update_cost` with each of `updates` in turn,
      starting from `cost`. */
  function CostAfterUpdates(cost: real, updates: seq<real>): (r: real)
    // a positive cost stays positive through any run of calls
    ensures cost > 0.0 ==> r > 0.0
    // the final cost is the initial one or one of the arguments
    ensures r == cost || r in updates
    // it differs from the initial cost only if it is a positive argument
    ensures r != cost ==> r > 0.0 && r in updates
    decreases |updates|
  {
    if updates == [] then cost
    else CostAfterUpdates(CostAfterUpdate(cost, updates[0]), updates[1..])
  }

  /** Reference definition: the last positive argument, if there is one. */
  function LastPositive(updates: seq<real>): (r: Option<real>)
    ensures r.Some? ==> r.value > 0.0 && r.value in updates
    // it is the last one: every argument after it is refused
    ensures r.Some? ==> exists i :: 0 <= i < |updates| && updates[i] == r.value &&
                          forall j :: i < j < |updates| ==> updates[j] <= 0.0
    ensures r.None? ==> forall i :: 0 <= i < |updates| ==> updates[i] <= 0.0
  {
    if updates == [] then None
    else if updates[|updates| - 1] > 0.0 then Some(updates[|updates| - 1])
    else LastPositive(updates[..|updates| - 1])
  }

  /** Two runs of calls one after the other are one run of their concatenation. */
  lemma {:induction false} AppendUpdates(cost: real, xs: seq<real>, ys: seq<real>)
    ensures CostAfterUpdates(cost, xs + ys) == CostAfterUpdates(CostAfterUpdates(cost, xs), ys)
    decreases |xs|
  {
    if xs != [] {
      assert (xs + ys)[0] == xs[0];
      assert (xs + ys)[1..] == xs[1..] + ys;
      AppendUpdates(CostAfterUpdate(cost, xs[0]), xs[1..], ys);
    } else {
      assert xs + ys == ys;
    }
  }

  /** The cost after a run of calls is the last positive argument, or the
      initial cost when every argument was refused. */
  lemma {:induction false} FinalCostIsLastPositive(cost: real, updates: seq<real>)
    ensures CostAfterUpdates(cost, updates) ==
              match LastPositive(updates)
              case None => cost
              case Some(v) => v
    decreases |updates|
  {
    if updates != [] {
      var n := |updates|;
      var prefix, last := updates[..n - 1], updates[n - 1];
      assert updates == prefix + [last];
      AppendUpdates(cost, prefix, [last]);
      FinalCostIsLastPositive(cost, prefix);
      assert CostAfterUpdates(CostAfterUpdates(cost, prefix), [last])
          == CostAfterUpdate(CostAfterUpdates(cost, prefix), last);
    }
  }

  /** Replaying a whole run of calls a second time leaves the same cost as
      running it once. */
  lemma {:induction false} ReplayIsIdempotent(cost: real, updates: seq<real>)
    ensures CostAfterUpdates(cost, updates + updates) == CostAfterUpdates(cost, updates)
  {
    AppendUpdates(cost, updates, updates);
    var once := CostAfterUpdates(cost, updates);
    FinalCostIsLastPositive(cost, updates);
    FinalCostIsLastPositive(once, updates);
  }
}
