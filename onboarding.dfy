/**
 * The profile setup wizard (features/Onboarding.tsx): four steps, each with
 * its own validation rule, forward and back moves, a multi-select toggle for
 * the health conditions that keeps `weightLossGoal` in step with the
 * `weight_loss_goal` condition, and the BMI derived when the profile is saved.
 */
module Onboarding {
  import opened Wrappers
  import opened Text
  import opened Types
  import opened Numbers
  import AppContext

  const TotalSteps := 4

  const PersonalDetailsMessage := "Please fill in all personal details."
  const ConditionsMessage := "Please select at least one health condition or goal."
  const PhysicalStatsMessage := "Please provide your height and current weight."
  const TargetWeightMessage := "Please enter your target weight."
  const LifestyleMessage := "Please provide all your lifestyle details."

  /** The form the wizard starts from. */
  const InitialForm := UserProfile("", None, None, [], map[], Vegetarian, [], false,
                                   None, None, None, None, None, None, None)

  // ---------------------------------------------------------------------------
  // Validation

  /** JavaScript truthiness of a nullable number: present and not zero. */
  predicate Truthy(x: Option<int>) {
    x.Some? && x.value != 0
  }

  predicate TruthyReal(x: Option<real>) {
    x.Some? && x.value != 0.0
  }

  /** The message `validateStep` sets for the form at a step, or none when the step passes. */
  function StepError(form: UserProfile, step: int): (r: Option<string>)
    ensures step == 1 ==> (r.Some? <==> Blank(form.name) || !Truthy(form.age) || form.gender.None?)
    ensures step == 2 ==> (r.Some? <==> form.conditions == [])
    ensures step == 3 ==> (r.Some? <==>
      !Truthy(form.height) || !Truthy(form.currentWeight)
      || (WeightLossGoal in form.conditions && !Truthy(form.targetWeight)))
    ensures step == 4 ==> (r.Some? <==>
      !Truthy(form.waterIntake) || form.activityLevel.None? || !TruthyReal(form.sleepHours))
    ensures !(1 <= step <= TotalSteps) ==> r.None?
  {
    if step == 1 then
      if Trim(form.name) == "" || !Truthy(form.age) || form.gender.None? then Some(PersonalDetailsMessage) else None
    else if step == 2 then
      if |form.conditions| == 0 then Some(ConditionsMessage) else None
    else if step == 3 then
      if !Truthy(form.height) || !Truthy(form.currentWeight) then Some(PhysicalStatsMessage)
      else if WeightLossGoal in form.conditions && !Truthy(form.targetWeight) then Some(TargetWeightMessage)
      else None
    else if step == 4 then
      if !Truthy(form.waterIntake) || form.activityLevel.None? || !TruthyReal(form.sleepHours)
      then Some(LifestyleMessage) else None
    else None
  }

  /** Every step up to `upTo` passes. */
  predicate PassedThrough(form: UserProfile, upTo: int) {
    forall k :: 1 <= k <= upTo ==> StepError(form, k).None?
  }

  // ---------------------------------------------------------------------------
  // Edits

  /** `parseInt(text) || null`, given what `parseInt` read: a zero (or nothing) is null. */
  function OrNull(x: Option<int>): (r: Option<int>)
    ensures r.Some? <==> Truthy(x)
    ensures r.Some? ==> r == x
  {
    if x == Some(0) then None else x
  }

  /** `text.split(',').map(s => s.trim())`: one trimmed entry per comma-separated piece. */
  function AllergiesFrom(text: string): (r: seq<string>)
    ensures |r| == Count(text, ',') + 1
    ensures forall i :: 0 <= i < |r| ==> r[i] == Trim(Split(text, ',')[i])
  {
    var pieces := Split(text, ',');
    seq(|pieces|, i requires 0 <= i < |pieces| => Trim(pieces[i]))
  }

  /** Each entry of the allergy list comes out trimmed and comma-free. */
  lemma AllergiesTrimmed(text: string)
    ensures forall i :: 0 <= i < |AllergiesFrom(text)| ==>
      var a := AllergiesFrom(text)[i];
      ',' !in a && (a == "" || (!IsSpace(a[0]) && !IsSpace(a[|a| - 1])))
  {
    var pieces := Split(text, ',');
    forall i | 0 <= i < |pieces|
      ensures ',' !in Trim(pieces[i])
    {
      var a, e := TrimSlice(pieces[i]);
      assert forall k :: 0 <= k < e - a ==> pieces[i][a..e][k] == pieces[i][a + k];
    }
  }

  /** A change made through one of the step screens (`handleChange`). */
  datatype FormEdit =
    | SetName(name: string)
    | SetAge(age: Option<int>)
    | SetGender(gender: Gender)
    | SetAllergies(text: string)
    | SetDiet(diet: Diet)
    | SetHeight(height: Option<int>)
    | SetCurrentWeight(weight: Option<int>)
    | SetTargetWeight(weight: Option<int>)
    | SetWater(liters: int)
    | SetActivity(level: Activity)
    | SetSleep(hours: real)

  /** The step whose screen offers the edit. */
  function EditStep(e: FormEdit): int {
    match e
    case SetName(_) => 1
    case SetAge(_) => 1
    case SetGender(_) => 1
    case SetAllergies(_) => 2
    case SetDiet(_) => 2
    case SetHeight(_) => 3
    case SetCurrentWeight(_) => 3
    case SetTargetWeight(_) => 3
    case SetWater(_) => 4
    case SetActivity(_) => 4
    case SetSleep(_) => 4
  }

  /** `{ ...prev, [field]: value }` with the value the screen computes. */
  function ApplyEdit(form: UserProfile, e: FormEdit): UserProfile {
    match e
    case SetName(name) => form.(name := name)
    case SetAge(age) => form.(age := OrNull(age))
    case SetGender(g) => form.(gender := Some(g))
    case SetAllergies(text) => form.(allergies := AllergiesFrom(text))
    case SetDiet(d) => form.(dietaryPreference := d)
    case SetHeight(h) => form.(height := OrNull(h))
    case SetCurrentWeight(w) => form.(currentWeight := OrNull(w))
    case SetTargetWeight(w) => form.(targetWeight := OrNull(w))
    case SetWater(n) => form.(waterIntake := Some(n))
    case SetActivity(a) => form.(activityLevel := Some(a))
    case SetSleep(h) => form.(sleepHours := Some(h))
  }

  /** An edit on one step's screen cannot change whether an earlier step passes. */
  lemma EditKeepsEarlierSteps(form: UserProfile, e: FormEdit, k: int)
    requires k < EditStep(e)
    ensures StepError(ApplyEdit(form, e), k) == StepError(form, k)
  {
  }

  /** Toggling a selection: remove the value when present, append it when absent. */
  function Toggle(values: seq<Condition>, v: Condition): (r: seq<Condition>)
    ensures v in r <==> v !in values
    ensures forall c :: c != v ==> (c in r <==> c in values)
    ensures v !in values ==> r == values + [v]
  {
    if v in values then Remove(values, v) else values + [v]
  }

  /** `values.filter(item => item !== v)`. */
  function Remove(values: seq<Condition>, v: Condition): (r: seq<Condition>)
    ensures forall c :: c in r <==> c in values && c != v
  {
    if values == [] then []
    else (if values[0] == v then [] else [values[0]]) + Remove(values[1..], v)
  }

  lemma {:induction false} RemoveAbsent(values: seq<Condition>, v: Condition)
    requires v !in values
    ensures Remove(values, v) == values
  {
    if values != [] {
      RemoveAbsent(values[1..], v);
    }
  }

  /** The filter keeps order: filtering a concatenation filters each part. */
  lemma {:induction false} RemoveAppend(a: seq<Condition>, b: seq<Condition>, v: Condition)
    ensures Remove(a + b, v) == Remove(a, v) + Remove(b, v)
  {
    if a == [] {
      assert a + b == b;
    } else {
      var head := if a[0] == v then [] else [a[0]];
      RemoveAppend(a[1..], b, v);
      assert (a + b)[1..] == a[1..] + b;
      assert (a + b)[0] == a[0];
      assert Remove(a + b, v) == head + Remove(a[1..] + b, v);
      assert head + (Remove(a[1..], v) + Remove(b, v)) == (head + Remove(a[1..], v)) + Remove(b, v);
    }
  }

  lemma {:induction false} RemoveLast(values: seq<Condition>, v: Condition)
    ensures Remove(values + [v], v) == Remove(values, v)
  {
    if values == [] {
      assert [] + [v] == [v];
      assert [v][1..] == [];
    } else {
      RemoveLast(values[1..], v);
      assert (values + [v])[1..] == values[1..] + [v];
    }
  }

  /** Toggling an unselected value twice restores the selection. */
  lemma ToggleTwice(values: seq<Condition>, v: Condition)
    requires v !in values
    ensures Toggle(Toggle(values, v), v) == values
  {
    RemoveLast(values, v);
    RemoveAbsent(values, v);
  }

  /** The form after a click on a condition tile (`handleMultiSelectChange` on `conditions`). */
  function ToggleCondition(form: UserProfile, c: Condition): (r: UserProfile)
    ensures r.conditions == Toggle(form.conditions, c)
    ensures r.weightLossGoal <==> WeightLossGoal in r.conditions
    ensures c in r.conditions <==> c !in form.conditions
    ensures forall d :: d != c ==> (d in r.conditions <==> d in form.conditions)
    ensures r == form.(conditions := r.conditions, weightLossGoal := r.weightLossGoal)
  {
    var selected := Toggle(form.conditions, c);
    form.(conditions := selected, weightLossGoal := WeightLossGoal in selected)
  }

  // ---------------------------------------------------------------------------
  // Saving

  /** `weight / (height / 100) ** 2`: weight in kilograms over the square of height in metres. */
  function ExactBmi(weight: int, height: int): (x: real)
    requires height != 0
    ensures x * (height as real * height as real) == weight as real * 10000.0
  {
    var meters := height as real / 100.0;
    assert meters * meters * 10000.0 == height as real * height as real;
    weight as real / (meters * meters)
  }

  /** The BMI rounded to one decimal, as `parseFloat(bmi.toFixed(1))`. */
  function BmiOf(weight: int, height: int): real
    requires height != 0
  {
    ToFixed1(ExactBmi(weight, height))
  }

  /** The BMI, when both weight and height are given. */
  function Bmi(weight: Option<int>, height: Option<int>): (r: Option<real>)
    ensures r.Some? <==> Truthy(weight) && Truthy(height)
  {
    if Truthy(weight) && Truthy(height) then Some(BmiOf(weight.value, height.value)) else None
  }

  /** The saved BMI is the exact one to within a twentieth, and has at most one decimal. */
  lemma BmiNearExact(weight: int, height: int)
    requires height != 0
    ensures -0.05 <= BmiOf(weight, height) - ExactBmi(weight, height) <= 0.05
    ensures (BmiOf(weight, height) * 10.0).Floor as real == BmiOf(weight, height) * 10.0
    ensures var tenths := ExactBmi(weight, height) * 10.0;
      weight >= 0 && tenths - tenths.Floor as real == 0.5 ==> BmiOf(weight, height) * 10.0 == (tenths.Floor + 1) as real
  {
    var x := ExactBmi(weight, height);
    assert -0.5 <= ToFixed1(x) * 10.0 - x * 10.0 <= 0.5;
    if weight >= 0 {
      assert x * (height as real * height as real) == weight as real * 10000.0;
      assert x >= 0.0;
    }
  }

  /** 89 kg at 200 cm is a BMI of exactly 22.25, and the tie is stored as 22.3. */
  lemma BmiTieExample()
    ensures ExactBmi(89, 200) == 22.25
    ensures BmiOf(89, 200) == 22.3
  {
    var x := ExactBmi(89, 200);
    assert x * 40000.0 == 890000.0;
    assert (x * 10.0).Floor == 222;
  }

  /** `{ ...formData, bmi }`: the form with the derived BMI. */
  function SavedProfile(form: UserProfile): UserProfile {
    form.(bmi := Bmi(form.currentWeight, form.height))
  }

  /** A profile saved from a form that passes every step passes every step too, and has a BMI. */
  lemma SavedProfilePasses(form: UserProfile)
    requires PassedThrough(form, TotalSteps)
    ensures PassedThrough(SavedProfile(form), TotalSteps)
    ensures SavedProfile(form).bmi.Some?
  {
    assert StepError(form, 3).None?;
    forall k | 1 <= k <= TotalSteps
      ensures StepError(SavedProfile(form), k).None?
    {
      assert StepError(form, k).None?;
    }
  }

  // ---------------------------------------------------------------------------
  // The wizard

  class Wizard {
    var step: int
    var formData: UserProfile
    var error: Option<string>

    /** The step is in range and every step before it passes. */
    ghost predicate Valid()
      reads this
    {
      1 <= step <= TotalSteps && PassedThrough(formData, step - 1)
    }

    constructor ()
      ensures step == 1 && formData == InitialForm && error == None
      ensures Valid()
    {
      step := 1;
      formData := InitialForm;
      error := None;
    }

    /** `validateStep`: report whether the step passes, setting the error when it does not. */
    method ValidateStep(currentStep: int) returns (ok: bool)
      modifies this
      ensures ok <==> StepError(formData, currentStep).None?
      ensures error == if ok then old(error) else StepError(formData, currentStep)
      ensures step == old(step) && formData == old(formData)
    {
      var problem := StepError(formData, currentStep);
      if problem.Some? {
        error := problem;
        return false;
      }
      return true;
    }

    /** `handleChange`, from the screen of the current step. */
    method HandleChange(e: FormEdit)
      requires Valid() && EditStep(e) == step
      modifies this
      ensures formData == ApplyEdit(old(formData), e)
      ensures step == old(step) && error == old(error)
      ensures Valid()
    {
      forall k | 1 <= k < step
        ensures StepError(ApplyEdit(formData, e), k) == StepError(formData, k)
      {
        EditKeepsEarlierSteps(formData, e, k);
      }
      formData := ApplyEdit(formData, e);
    }

    /** `handleMultiSelectChange('conditions', c)`, from the second screen. */
    method HandleMultiSelectChange(c: Condition)
      requires Valid() && step == 2
      modifies this
      ensures formData == ToggleCondition(old(formData), c)
      ensures step == old(step) && error == old(error)
      ensures Valid()
    {
      assert StepError(ToggleCondition(formData, c), 1) == StepError(formData, 1);
      formData := ToggleCondition(formData, c);
    }

    /** `handleBack`: one step back, never below the first. */
    method HandleBack()
      requires Valid()
      modifies this
      ensures step == if old(step) > 1 then old(step) - 1 else old(step)
      ensures formData == old(formData) && error == old(error)
      ensures Valid()
    {
      if step > 1 {
        step := step - 1;
      }
    }

    /** `handleSaveProfile`: validate the last step again, then store the profile with its BMI. */
    method HandleSaveProfile(store: AppContext.Store)
      requires Valid() && step == TotalSteps
      modifies this, store
      ensures StepError(formData, TotalSteps).Some? ==>
        error == StepError(formData, TotalSteps) && unchanged(store)
      ensures StepError(formData, TotalSteps).None? ==>
        error == old(error) && store.profile == Some(SavedProfile(formData)) && store.foodLog == []
        && PassedThrough(store.profile.value, TotalSteps)
      ensures step == old(step) && formData == old(formData)
      ensures Valid()
    {
      var ok := ValidateStep(TotalSteps);
      if !ok {
        return;
      }
      SavedProfilePasses(formData);
      store.SetProfile(Some(SavedProfile(formData)));
    }

    /**
     * `handleNext`: a step that fails validation keeps the wizard where it
     * is; otherwise the error clears and the wizard moves on, or saves at
     * the last step.
     */
    method HandleNext(store: AppContext.Store)
      requires Valid()
      modifies this, store
      ensures StepError(old(formData), old(step)).Some? ==>
        step == old(step) && error == StepError(old(formData), old(step)) && unchanged(store)
      ensures StepError(old(formData), old(step)).None? && old(step) < TotalSteps ==>
        step == old(step) + 1 && error == None && unchanged(store)
      ensures StepError(old(formData), old(step)).None? && old(step) == TotalSteps ==>
        step == old(step) && error == None
        && store.profile == Some(SavedProfile(formData)) && store.foodLog == []
      ensures formData == old(formData)
      ensures Valid()
    {
      var ok := ValidateStep(step);
      if !ok {
        return;
      }
      error := None;
      if step < TotalSteps {
        step := step + 1;
      } else {
        HandleSaveProfile(store);
      }
    }
  }
}
