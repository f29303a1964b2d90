/**
 * A row of the savings goal list: the name, the saved-of-target line, the progress bar's
 * value and the add-money button, which reports the goal of its own row.
 */
module GoalAdapter {
  import opened Records
  import Progress

  datatype GoalRow = GoalRow(goalName: string, progressText: string, progress: int, onAddMoney: SavingGoal)

  const SAVED_PREFIX: string := "Saved "
  const OF: string := " of "

  /** `"Saved %s of %s"` filled with the two formatted amounts. */
  function ProgressText(savedText: string, targetText: string): (r: string)
    ensures |r| == |SAVED_PREFIX| + |savedText| + |OF| + |targetText|
    ensures r[..|SAVED_PREFIX|] == SAVED_PREFIX && r[|r| - |targetText|..] == targetText
  {
    SAVED_PREFIX + savedText + OF + targetText
  }

  /** `onBindViewHolder` for the goal at `position`; `format` stands for the currency formatter. */
  function Bind(format: int -> string, goals: seq<SavingGoal>, position: int): (r: GoalRow)
    requires 0 <= position < |goals|
    ensures var g := goals[position];
      && r.goalName == g.goalName
      && r.progressText == ProgressText(format(g.savedAmount), format(g.targetAmount))
      && r.progress == Progress.Percent(g.savedAmount, g.targetAmount)
      && r.onAddMoney == g
  {
    var g := goals[position];
    GoalRow(g.goalName, ProgressText(format(g.savedAmount), format(g.targetAmount)),
      Progress.Percent(g.savedAmount, g.targetAmount), g)
  }

  /** The bar is not capped: a goal saved past its target shows more than 100. */
  lemma ProgressNotCapped(format: int -> string, goals: seq<SavingGoal>, position: int)
    requires 0 <= position < |goals|
    requires var g := goals[position]; g.targetAmount > 0 && g.savedAmount * 100 >= 101 * g.targetAmount
    ensures Bind(format, goals, position).progress > 100
  {
    var g := goals[position];
    Progress.PercentAbove100(g.savedAmount, g.targetAmount);
  }

  /** Until the target is reached the bar stays within 0 to 100. */
  lemma ProgressWithinTarget(format: int -> string, goals: seq<SavingGoal>, position: int)
    requires 0 <= position < |goals|
    requires var g := goals[position]; g.targetAmount > 0 && 0 <= g.savedAmount <= g.targetAmount
    ensures 0 <= Bind(format, goals, position).progress <= 100
  {
    var g := goals[position];
    Progress.PercentWithinWhole(g.savedAmount, g.targetAmount);
  }

  /** `getItemCount`: one row per goal. */
  function ItemCount(goals: seq<SavingGoal>): (n: nat)
    ensures n == |goals|
  {
    |goals|
  }
}
