/**
 * The financial goals card (src/components/dashboard/financial-goals.tsx):
 * one progress row per goal, in order, showing the goal's current and
 * target amounts and `currentAmount / targetAmount * 100` as its progress.
 */
module FinancialGoals {
  import opened Wrappers

  /** `'asset' | 'liability' | 'net_worth'`. */
  datatype GoalKind = AssetGoal | LiabilityGoal | NetWorthGoal

  datatype Goal = Goal(name: string, currentAmount: real, targetAmount: real, kind: GoalKind)

  /** What one row shows. */
  datatype ProgressRow = ProgressRow(name: string, currentAmount: real, targetAmount: real, progress: Option<real>)

  /**
   * `(goal.currentAmount / goal.targetAmount) * 100`. A zero target gives
   * NaN or Infinity in JavaScript; the model has no progress then.
   */
  function Progress(goal: Goal): (p: Option<real>)
    ensures p.None? <==> goal.targetAmount == 0.0
    ensures p.Some? ==> p.value * goal.targetAmount == goal.currentAmount * 100.0
  {
    if goal.targetAmount == 0.0 then None else Some(goal.currentAmount / goal.targetAmount * 100.0)
  }

  function RowFor(goal: Goal): ProgressRow
  {
    ProgressRow(goal.name, goal.currentAmount, goal.targetAmount, Progress(goal))
  }

  /** Nothing is rendered without goals; otherwise one row per goal, in order. */
  function Rows(goals: seq<Goal>): (r: Option<seq<ProgressRow>>)
    ensures r.None? <==> |goals| == 0
    ensures r.Some? ==> |r.value| == |goals|
    ensures r.Some? ==> forall i :: 0 <= i < |goals| ==>
      r.value[i].name == goals[i].name && r.value[i].currentAmount == goals[i].currentAmount &&
      r.value[i].targetAmount == goals[i].targetAmount && r.value[i].progress == Progress(goals[i])
  {
    if |goals| == 0 then None
    else Some(seq(|goals|, i requires 0 <= i < |goals| => RowFor(goals[i])))
  }

  /**
   * For a positive target the bar is full (100 or more) exactly when the
   * current amount has reached the target, and lies between 0 and 100
   * exactly when the current amount lies between 0 and the target.
   */
  lemma ProgressMeaning(goal: Goal)
    requires goal.targetAmount > 0.0
    ensures Progress(goal).value >= 100.0 <==> goal.currentAmount >= goal.targetAmount
    ensures 0.0 <= Progress(goal).value <= 100.0 <==> 0.0 <= goal.currentAmount <= goal.targetAmount
  {
    var p, t, c := Progress(goal).value, goal.targetAmount, goal.currentAmount;
    Scaled(p, t, c);
  }

  lemma Scaled(p: real, t: real, c: real)
    requires t > 0.0 && p * t == c * 100.0
    ensures p >= 100.0 <==> c >= t
    ensures p >= 0.0 <==> c >= 0.0
    ensures p <= 100.0 <==> c <= t
  {
    assert p == c * 100.0 / t;
  }
}
