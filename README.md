# Travel Budget Tool — the `Expense` record

This project models the `Expense` class of the Travel Budget Tool, a
command-line trip budget planner. An expense is a mutable record holding a
description, a cost and a category. Its constructor stores the three values as
given. `update_cost` replaces the cost when the new amount is positive and
otherwise refuses the amount and leaves the expense as it was.
`get_category` reads the category back.

- `expenses.dfy`, module `Expenses`: the class `Expense` with fields
  `description`, `cost` and `category`, its constructor and the methods
  `UpdateCost` and `GetCategory`. The pure function `CostAfterUpdate` says
  what one `update_cost` call does to the cost. `UpdateCost` is proved
  against it.
- `cost_updates.dfy`, module `CostUpdates`: what a run of successive
  `update_cost` calls leaves in the cost (`CostAfterUpdates`). It is tied to
  an independent reference definition, the last positive argument
  (`LastPositive`). It also proves that replaying a run of calls is idempotent.

The cost is a `real`. The source only compares it with 0 and assigns it, so
no rounding is involved; the float values a `real` cannot hold (infinities and
NaN) are listed under "## Left out". Description and category are strings.

The constructor checks nothing: it accepts a zero or negative cost and any
category string. A positive cost is only ever preserved by `update_cost`; the
constructor never establishes it.

## Model

| member | source | states |
|---|---|---|
| Expenses.Expense.constructor | expenses.py:2-8 | the three arguments are stored exactly as passed, with no check; the cost is positive only if the argument was |
| Expenses.Expense.UpdateCost | expenses.py:14-19 | the new cost is `CostAfterUpdate` of the old cost and the argument; a positive argument becomes the cost; a non-positive one leaves the whole record unchanged; description and category never change; a positive cost stays positive |
| Expenses.Expense.GetCategory | expenses.py:21-23 | returns the stored category and changes nothing |
| Expenses.CostAfterUpdate | expenses.py:16-19 | one call keeps the old cost or takes the argument; a positive argument is always taken; the cost only changes to a positive argument; afterwards the cost is positive exactly when it was before or the argument is |
| Expenses.UpdateCostIdempotent | expenses.py:16-17 | calling `update_cost` twice with the same argument leaves the same cost as calling it once |
| CostUpdates.CostAfterUpdates | expenses.py:14-19 | after any run of calls a positive cost is still positive; the final cost is the initial one or one of the arguments, and differs from the initial one only if it is a positive argument |
| CostUpdates.AppendUpdates | expenses.py:14-19 | two runs of calls one after the other leave the same cost as one run of their concatenation |
| CostUpdates.FinalCostIsLastPositive | expenses.py:16-19 | the cost after a run of calls is the last positive argument, or the initial cost when every argument was refused |
| CostUpdates.ReplayIsIdempotent | expenses.py:16-17 | replaying a whole run of calls a second time leaves the same cost as running it once |

## Left out

- `Expense.__str__` (expenses.py:10-12): it formats the cost as a float with thousands separators and two decimals; the model has no number formatting.
- The message that `update_cost` prints when it refuses an amount (expenses.py:19) is console output; only its outcome, no change of state, is modelled. The Python method returns nothing in both branches, and so does `UpdateCost`.
- Python's dynamic typing: the source accepts any object as description, cost or category. The model fixes them to strings and a real number. A float NaN as new cost fails `> 0` and so is refused, which the model's `real` cannot express.
- `run.py`: console styling, reading the welcome text from a file, the interactive budget prompt `get_budget` (it rests on Python's float parser, which accepts forms like `1e5`, `inf` and `nan`) and the `main` call. These are input and output with no logic of the expense record.
- Expenses.Expense.UpdateCost: its argument is a finite `real`, so two outcomes of the source are not modelled: a `new_cost` that cannot be compared with 0 (a string, `None`) makes `new_cost > 0` raise `TypeError`, and a float infinity is positive and would be stored as the cost; neither has a `real` counterpart.
