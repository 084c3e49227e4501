/** A single travel expense: a mutable record of a description, a cost and a
    category whose cost can be replaced by a later, positive amount. */
module Expenses {

  /** The state of an expense object at one moment, as a value. */
  datatype ExpenseRecord = ExpenseRecord(description: string, cost: real, category: string)

  /** The cost an expense holds after one `update_cost(newCost)` call on an
      expense whose cost was `cost`: a positive amount replaces it, anything
      else is refused and the old cost stays. */
  function CostAfterUpdate(cost: real, newCost: real): (r: real)
    // the call either keeps the old cost or takes the argument, nothing else
    ensures r == cost || r == newCost
    // a positive argument is always taken
    ensures newCost > 0.0 ==> r == newCost
    // the cost only changes to a positive argument
    ensures r != cost ==> r == newCost && newCost > 0.0
    // a positive cost stays positive, whatever the argument
    ensures cost > 0.0 ==> r > 0.0
    // after the call the cost is positive exactly when it was or the argument is
    ensures r > 0.0 <==> cost > 0.0 || newCost > 0.0
  {
    if newCost > 0.0 then newCost else cost
  }

  /** Repeating a call with the same argument changes nothing more. */
  lemma UpdateCostIdempotent(cost: real, newCost: real)
    ensures CostAfterUpdate(CostAfterUpdate(cost, newCost), newCost) == CostAfterUpdate(cost, newCost)
  {
  }

  class Expense {
    var description: string
    var cost: real
    var category: string

    /** The whole state of this expense as a value. */
    ghost function Record(): ExpenseRecord
      reads this
    {
      ExpenseRecord(description, cost, category)
    }

    ghost predicate HasPositiveCost()
      reads this
    {
      cost > 0.0
    }

    /** Stores the three arguments as given; nothing is checked or normalised,
        so a zero or negative cost is accepted here. */
    constructor (description: string, cost: real, category: string)
      ensures Record() == ExpenseRecord(description, cost, category)
      ensures HasPositiveCost() <==> cost > 0.0
    {
      this.description := description;
      this.cost := cost;
      this.category := category;
    }

    /** Replaces the cost by `newCost` when it is positive; otherwise the
        expense stays as it was (the source only prints a message). */
    method UpdateCost(newCost: real)
      modifies this`cost
      ensures cost == CostAfterUpdate(old(cost), newCost)
      ensures newCost > 0.0 ==> cost == newCost
      ensures newCost <= 0.0 ==> Record() == old(Record())
      ensures Record() == old(Record()).(cost := cost)
      ensures old(HasPositiveCost()) ==> HasPositiveCost()
    {
      if newCost > 0.0 {
        cost := newCost;
      }
    }

    /** The stored category; reading it changes nothing. */
    method GetCategory() returns (c: string)
      ensures c == category
    {
      c := category;
    }
  }
}
