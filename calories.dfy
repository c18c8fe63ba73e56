/**
 * The daily calorie target both the survey and the settings page compute:
 * a base of 2000 kcal, moved by the goal and by the activity level.
 */
module Calories {
  import opened Js

  const Base: int := 2000

  /** `goal === "lose" ? -300 : goal === "gain" ? 300 : 0` */
  function GoalAdjust(goal: JsValue): (r: int)
    ensures r == -300 || r == 0 || r == 300
  {
    if goal == Str("lose") then -300 else if goal == Str("gain") then 300 else 0
  }

  /** `activity === "low" ? -150 : activity === "high" ? 150 : 0` */
  function ActivityAdjust(activity: JsValue): (r: int)
    ensures r == -150 || r == 0 || r == 150
  {
    if activity == Str("low") then -150 else if activity == Str("high") then 150 else 0
  }

  /** The recomputed target: it always lies on the 150-kcal grid from 1550 to 2450. */
  function TargetCalories(goal: JsValue, activity: JsValue): (r: int)
    ensures 1550 <= r <= 2450
    ensures (r - 1550) % 150 == 0
  {
    Base + GoalAdjust(goal) + ActivityAdjust(activity)
  }

  /** The seven values the target can take. */
  const Targets: set<int> := {1550, 1700, 1850, 2000, 2150, 2300, 2450}

  /** The goal moves the target by 300 kcal either way and only "lose" and "gain" move it. */
  lemma GoalEffect(goal: JsValue, activity: JsValue)
    ensures TargetCalories(goal, activity) - ActivityAdjust(activity) - Base ==
      (if goal == Str("lose") then -300 else if goal == Str("gain") then 300 else 0)
  {
  }

  /** Every target is one of the seven grid values, and each of them is reached. */
  lemma TargetsAreExactlyTheGrid(t: int)
    ensures t in Targets <==> exists g, a :: TargetCalories(g, a) == t
  {
    if t in Targets {
      var g := if t <= 1850 then Str("lose") else if t >= 2300 then Str("gain") else Str("maintain");
      var a := if t == 1550 then Str("low")
               else if t == 1850 || t == 2150 || t == 2450 then Str("high") else Str("moderate");
      assert TargetCalories(g, a) == t;
    }
  }

  /**
   * Nine goal/activity combinations give only seven targets: "lose"+"high" and
   * "maintain"+"low" collide at 1850, "maintain"+"high" and "gain"+"low" at 2150.
   */
  lemma TargetDoesNotDetermineProfile()
    ensures TargetCalories(Str("lose"), Str("high")) == TargetCalories(Str("maintain"), Str("low")) == 1850
    ensures TargetCalories(Str("maintain"), Str("high")) == TargetCalories(Str("gain"), Str("low")) == 2150
  {
  }

  /** The target is the base exactly when neither the goal nor the activity adjusts it. */
  lemma BaseTargetIffNeutral(goal: JsValue, activity: JsValue)
    ensures TargetCalories(goal, activity) == Base <==>
      goal != Str("lose") && goal != Str("gain") && activity != Str("low") && activity != Str("high")
    ensures TargetCalories(Str("maintain"), Str("moderate")) == 2000
  {
  }

  /** For a fixed activity, "lose" < any other goal < "gain". */
  lemma TargetMonotoneInGoal(other: JsValue, activity: JsValue)
    requires other != Str("lose") && other != Str("gain")
    ensures TargetCalories(Str("lose"), activity) < TargetCalories(other, activity) < TargetCalories(Str("gain"), activity)
  {
  }
}
