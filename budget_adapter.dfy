/**
 * A row of the budget list: the category, the spent-of-limit line, the progress bar's
 * value and whether the bar takes the warning style.
 */
module BudgetAdapter {
  import opened Records
  import Progress

  /** What one bound row shows; `format` stands for the currency formatter. */
  datatype BudgetRow = BudgetRow(category: string, info: string, progress: int, warning: bool)

  const SPENT_OF: string := " spent of "
  const LIMIT_SUFFIX: string := " limit"

  /** `"%s spent of %s limit"` filled with the two formatted amounts. */
  function Info(spentText: string, limitText: string): (r: string)
    ensures |r| == |spentText| + |SPENT_OF| + |limitText| + |LIMIT_SUFFIX|
    ensures r[..|spentText|] == spentText && r[|r| - |LIMIT_SUFFIX|..] == LIMIT_SUFFIX
  {
    spentText + SPENT_OF + limitText + LIMIT_SUFFIX
  }

  /** `onBindViewHolder` for the budget at `position`. */
  function Bind(format: int -> string, budgets: seq<Budget>, position: int): (r: BudgetRow)
    requires 0 <= position < |budgets|
    ensures var b := budgets[position];
      && r.category == b.category
      && r.info == Info(format(b.spentAmount), format(b.limitAmount))
      && r.progress == Progress.Percent(b.spentAmount, b.limitAmount)
      && (r.warning <==> r.progress > 100)
  {
    var b := budgets[position];
    var progress := Progress.Percent(b.spentAmount, b.limitAmount);
    BudgetRow(b.category, Info(format(b.spentAmount), format(b.limitAmount)), progress, progress > 100)
  }

  /** The warning style marks exactly the budgets spent to at least 101 percent of a positive limit. */
  lemma WarningIffOverspent(format: int -> string, budgets: seq<Budget>, position: int)
    requires 0 <= position < |budgets|
    ensures var b := budgets[position];
      Bind(format, budgets, position).warning <==> b.limitAmount > 0 && b.spentAmount * 100 >= 101 * b.limitAmount
  {
    var b := budgets[position];
    Progress.PercentAbove100(b.spentAmount, b.limitAmount);
  }

  /** A budget overspent by less than one percent of its limit shows a full bar and no warning. */
  lemma SlightOverspendNotWarned(format: int -> string, budgets: seq<Budget>, position: int)
    requires 0 <= position < |budgets|
    requires var b := budgets[position]; b.limitAmount > 0 && b.limitAmount < b.spentAmount && b.spentAmount * 100 < 101 * b.limitAmount
    ensures budgets[position].spentAmount > budgets[position].limitAmount
    ensures Bind(format, budgets, position).progress == 100
    ensures !Bind(format, budgets, position).warning
  {
    var b := budgets[position];
    Progress.PercentAbove100(b.spentAmount, b.limitAmount);
    var q := Progress.TruncDiv(b.spentAmount * 100, b.limitAmount);
    Progress.MulCompare(b.spentAmount, b.limitAmount, 100);
    assert (q + 1) * b.limitAmount == q * b.limitAmount + b.limitAmount;
    Progress.MulCompare(q + 1, 100, b.limitAmount);
  }

  /** For instance 201.00 spent of a 200.00 limit, 100.5 percent, is shown as 100 without warning. */
  lemma HalfPercentOverExample(format: int -> string)
    ensures var r := Bind(format, [Budget("Food", 20000, 20100)], 0);
      r.progress == 100 && !r.warning
  {
    SlightOverspendNotWarned(format, [Budget("Food", 20000, 20100)], 0);
  }

  /** `getItemCount`: one row per budget. */
  function ItemCount(budgets: seq<Budget>): (n: nat)
    ensures n == |budgets|
  {
    |budgets|
  }
}
