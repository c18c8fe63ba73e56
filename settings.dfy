/**
 * The settings page: eight form fields held in React state, filled from the
 * stored profile when the page loads, and saved back with a recomputed
 * calorie target when the form is submitted.
 */
module Settings {
  import opened Js
  import opened Wrappers
  import Calories

  /** The page's form state, one field per `useState` hook. */
  datatype Form = Form(
    goal: JsValue, diet: JsValue, dislikes: JsValue, height: JsValue,
    weight: JsValue, activity: JsValue, cookingTime: JsValue, mealPrep: JsValue)

  /** The initial state of the hooks, which is also what loading falls back to. */
  const Defaults: Form := Form(
    Str("lose"), Str("No preference"), Str(""), Str(""),
    Str(""), Str("moderate"), Str("medium"), Str("sometimes"))

  /** The profile keys of the form fields, in field order. */
  const FormKeys: seq<string> :=
    ["goal", "diet", "dislikes", "height", "weight", "activity", "cookingTime", "mealPrep"]

  const TargetKey: string := "targetCalories"

  /** The `i`-th form field, in the order of FormKeys. */
  function FieldAt(f: Form, i: nat): JsValue
    requires i < 8
  {
    match i
    case 0 => f.goal
    case 1 => f.diet
    case 2 => f.dislikes
    case 3 => f.height
    case 4 => f.weight
    case 5 => f.activity
    case 6 => f.cookingTime
    case _ => f.mealPrep
  }

  /** The stored field named `FormKeys[i]`, or its default when it is missing or falsy. */
  function LoadField(existing: JsValue, i: nat): JsValue
    requires i < 8
  {
    Or(Prop(existing, FormKeys[i]), FieldAt(Defaults, i))
  }

  /**
   * The effect run on mount. `None`: no profile is stored (or it is falsy),
   * the page redirects to /survey and sets no field. Otherwise every field is
   * the stored one unless that is missing or falsy, in which case it is the default.
   */
  function LoadedForm(existing: JsValue): (r: Option<Form>)
    ensures r.None? <==> !Truthy(existing)
    ensures r.Some? ==> forall i :: 0 <= i < 8 ==>
      FieldAt(r.value, i) == (if Truthy(Prop(existing, FormKeys[i])) then Prop(existing, FormKeys[i]) else FieldAt(Defaults, i))
  {
    if !Truthy(existing) then None
    else Some(Form(
      LoadField(existing, 0), LoadField(existing, 1), LoadField(existing, 2), LoadField(existing, 3),
      LoadField(existing, 4), LoadField(existing, 5), LoadField(existing, 6), LoadField(existing, 7)))
  }

  /** The object handed to `saveProfile` on submit: the eight fields and the target. */
  function Profile(f: Form): (r: JsValue)
    ensures r.Obj? && r.fields.Keys == ProfileKeys
  {
    Obj(map[
      "goal" := f.goal, "diet" := f.diet, "dislikes" := f.dislikes, "height" := f.height,
      "weight" := f.weight, "activity" := f.activity, "cookingTime" := f.cookingTime,
      "mealPrep" := f.mealPrep,
      TargetKey := Num(Calories.TargetCalories(f.goal, f.activity) as real)])
  }

  /** The nine keys of a saved profile. */
  const ProfileKeys: set<string> :=
    {"goal", "diet", "dislikes", "height", "weight", "activity", "cookingTime", "mealPrep", TargetKey}

  /**
   * The saved profile has exactly nine keys; the eight form fields are copied
   * unchanged and only the target is derived.
   */
  lemma ProfileShape(f: Form)
    ensures Profile(f).Obj? && Profile(f).fields.Keys == ProfileKeys
    ensures forall i :: 0 <= i < 8 ==> Prop(Profile(f), FormKeys[i]) == FieldAt(f, i)
    ensures Prop(Profile(f), TargetKey) == Num(Calories.TargetCalories(f.goal, f.activity) as real)
  {
    forall i | 0 <= i < 8 ensures Prop(Profile(f), FormKeys[i]) == FieldAt(f, i) {
      ProfileField(f, i);
    }
  }

  lemma ProfileField(f: Form, i: nat)
    requires i < 8
    ensures Prop(Profile(f), FormKeys[i]) == FieldAt(f, i)
  {
    var key := FormKeys[i];
    if i == 0 { assert key == "goal"; }
    else if i == 1 { assert key == "diet"; }
    else if i == 2 { assert key == "dislikes"; }
    else if i == 3 { assert key == "height"; }
    else if i == 4 { assert key == "weight"; }
    else if i == 5 { assert key == "activity"; }
    else if i == 6 { assert key == "cookingTime"; }
    else { assert key == "mealPrep"; }
  }

  /** A saved profile has nine keys. */
  lemma ProfileHasNineKeys()
    ensures |ProfileKeys| == 9
  {
  }

  /**
   * Loading what was saved gives the form back exactly when every field is
   * truthy or already its default; any other falsy field comes back as its default.
   */
  lemma ReloadAfterSave(f: Form)
    ensures LoadedForm(Profile(f)).Some?
    ensures forall i :: 0 <= i < 8 ==>
      FieldAt(LoadedForm(Profile(f)).value, i) == (if Truthy(FieldAt(f, i)) then FieldAt(f, i) else FieldAt(Defaults, i))
    ensures LoadedForm(Profile(f)) == Some(f) <==>
      forall i :: 0 <= i < 8 ==> Truthy(FieldAt(f, i)) || FieldAt(f, i) == FieldAt(Defaults, i)
  {
    ProfileShape(f);
    assert Truthy(Profile(f));
    var g := LoadedForm(Profile(f)).value;
    if forall i :: 0 <= i < 8 ==> Truthy(FieldAt(f, i)) || FieldAt(f, i) == FieldAt(Defaults, i) {
      assert forall i :: 0 <= i < 8 ==> FieldAt(g, i) == FieldAt(f, i);
      assert g.goal == f.goal && g.diet == f.diet && g.dislikes == f.dislikes && g.height == f.height;
      assert g.weight == f.weight && g.activity == f.activity && g.cookingTime == f.cookingTime;
      assert g.mealPrep == f.mealPrep;
    }
  }

  /** Saving a loaded form and loading it again changes nothing: the defaulting is idempotent. */
  lemma LoadSaveLoad(existing: JsValue)
    requires Truthy(existing)
    ensures LoadedForm(Profile(LoadedForm(existing).value)) == LoadedForm(existing)
  {
    var f := LoadedForm(existing).value;
    forall i | 0 <= i < 8 ensures Truthy(FieldAt(f, i)) || FieldAt(f, i) == FieldAt(Defaults, i) {
    }
    ReloadAfterSave(f);
  }

  /** The page: its form state, the saving/saved flags, the redirect and the last saved profile. */
  class SettingsPage {
    var form: Form
    var saving: bool
    var saved: bool
    /** Set when the mount effect sends the user to /survey. */
    var redirectedToSurvey: bool
    /** The profile last passed to `saveProfile`. */
    var savedProfile: Option<JsValue>

    constructor ()
      ensures form == Defaults && !saving && !saved && !redirectedToSurvey && savedProfile == None
    {
      form := Defaults;
      saving := false;
      saved := false;
      redirectedToSurvey := false;
      savedProfile := None;
    }

    /** The mount effect, given what `loadProfile` returned (null when nothing is stored). */
    method LoadExisting(existing: JsValue)
      modifies this
      ensures LoadedForm(existing).None? ==> redirectedToSurvey && form == old(form)
      ensures LoadedForm(existing).Some? ==>
        form == LoadedForm(existing).value && redirectedToSurvey == old(redirectedToSurvey)
      ensures saving == old(saving) && saved == old(saved) && savedProfile == old(savedProfile)
    {
      if !Truthy(existing) {
        redirectedToSurvey := true;
        return;
      }
      form := Form(
        Or(Prop(existing, "goal"), Str("lose")),
        Or(Prop(existing, "diet"), Str("No preference")),
        Or(Prop(existing, "dislikes"), Str("")),
        Or(Prop(existing, "height"), Str("")),
        Or(Prop(existing, "weight"), Str("")),
        Or(Prop(existing, "activity"), Str("moderate")),
        Or(Prop(existing, "cookingTime"), Str("medium")),
        Or(Prop(existing, "mealPrep"), Str("sometimes")));
    }

    /** `handleSubmit`: recompute the target, save the profile, and flag it saved. */
    method Submit()
      modifies this
      ensures savedProfile == Some(Profile(old(form)))
      ensures !saving && saved
      ensures form == old(form) && redirectedToSurvey == old(redirectedToSurvey)
    {
      saving := true;
      saved := false;
      var targetCalories := Calories.Base + Calories.GoalAdjust(form.goal) + Calories.ActivityAdjust(form.activity);
      var profile := Obj(map[
        "goal" := form.goal, "diet" := form.diet, "dislikes" := form.dislikes, "height" := form.height,
        "weight" := form.weight, "activity" := form.activity, "cookingTime" := form.cookingTime,
        "mealPrep" := form.mealPrep, TargetKey := Num(targetCalories as real)]);
      savedProfile := Some(profile);
      saving := false;
      saved := true;
    }
  }
}
