/**
 * The survey page: six form fields and, on submit, a summary with the
 * calorie target computed by the same rule as the settings page.
 */
module Survey {
  import opened Js
  import opened Wrappers
  import Calories
  import Settings

  /** The page's form state, one field per `useState` hook. */
  datatype Form = Form(
    goal: JsValue, diet: JsValue, dislikes: JsValue, height: JsValue,
    weight: JsValue, activity: JsValue)

  const Initial: Form := Form(Str("lose"), Str("No preference"), Str(""), Str(""), Str(""), Str("moderate"))

  /** The seven keys of a summary: no cookingTime and no mealPrep. */
  const SummaryKeys: set<string> :=
    {"goal", "diet", "dislikes", "height", "weight", "activity", "targetCalories"}

  /** The summary object `handleSubmit` puts into state. */
  function Summary(f: Form): (r: JsValue)
    ensures r.Obj? && r.fields.Keys == SummaryKeys
  {
    Obj(map[
      "goal" := f.goal, "diet" := f.diet, "dislikes" := f.dislikes, "height" := f.height,
      "weight" := f.weight, "activity" := f.activity,
      "targetCalories" := Num(Calories.TargetCalories(f.goal, f.activity) as real)])
  }

  /**
   * The summary holds exactly seven keys, copies the six fields and carries a
   * target that is one of the seven grid values from 1550 to 2450.
   */
  lemma SummaryShape(f: Form)
    ensures Summary(f).Obj? && Summary(f).fields.Keys == SummaryKeys
    ensures "cookingTime" !in SummaryKeys && "mealPrep" !in SummaryKeys
    ensures Prop(Summary(f), "goal") == f.goal && Prop(Summary(f), "diet") == f.diet
    ensures Prop(Summary(f), "dislikes") == f.dislikes && Prop(Summary(f), "height") == f.height
    ensures Prop(Summary(f), "weight") == f.weight && Prop(Summary(f), "activity") == f.activity
    ensures exists t :: t in Calories.Targets && Prop(Summary(f), "targetCalories") == Num(t as real)
  {
    var t := Calories.TargetCalories(f.goal, f.activity);
    Calories.TargetsAreExactlyTheGrid(t);
    assert t in Calories.Targets;
  }

  /** For the same goal and activity the survey's target is the one the settings page saves. */
  lemma SameTargetAsSettings(f: Form, g: Settings.Form)
    requires f.goal == g.goal && f.activity == g.activity
    ensures Prop(Summary(f), "targetCalories") == Prop(Settings.Profile(g), Settings.TargetKey)
  {
    Settings.ProfileShape(g);
  }

  /** The page: form state, the saving flag and the summary (null until the first submit). */
  class SurveyPage {
    var form: Form
    var saving: bool
    var summary: JsValue

    constructor ()
      ensures form == Initial && !saving && summary == Null
    {
      form := Initial;
      saving := false;
      summary := Null;
    }

    /** `handleSubmit`: compute the summary and clear the saving flag. */
    method Submit()
      modifies this
      ensures summary == Summary(old(form)) && !saving && form == old(form)
    {
      saving := true;
      var targetCalories := Calories.Base + Calories.GoalAdjust(form.goal) + Calories.ActivityAdjust(form.activity);
      summary := Obj(map[
        "goal" := form.goal, "diet" := form.diet, "dislikes" := form.dislikes, "height" := form.height,
        "weight" := form.weight, "activity" := form.activity, "targetCalories" := Num(targetCalories as real)]);
      saving := false;
    }
  }
}
