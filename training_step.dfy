/**
 * The safety-training page (components/Step2SafetyTraining.tsx): ticking the
 * box records completion together with the moment it happened.
 */
module TrainingStep {
  import opened Types
  import opened App

  /** The two updates `handleCheckboxChange` sends, in order; `now` stands for `new Date()`. */
  function CheckboxUpdates(isChecked: bool, now: Timestamp): (us: seq<TrainingUpdate>)
    ensures |us| == 2 && us[0] == SetCompleted(isChecked)
    ensures us[1].SetCompletionDate? && (us[1].date.Some? <==> isChecked)
  {
    [SetCompleted(isChecked), SetCompletionDate(if isChecked then Some(now) else None)]
  }

  /** Applies the updates one after the other, as React applies queued state updates. */
  function ApplyTrainingUpdates(t: SafetyTraining, us: seq<TrainingUpdate>): SafetyTraining
    decreases |us|
  {
    if us == [] then t else ApplyTrainingUpdates(UpdateTraining(t, us[0]), us[1..])
  }

  /** A completion date is recorded exactly when the training is marked completed. */
  predicate DateMatchesCompletion(t: SafetyTraining) {
    t.completionDate.Some? <==> t.completed
  }

  /**
   * Checking sets `completed` and a fresh date; unchecking clears both; the
   * slice before the click does not matter.
   */
  lemma CheckboxOutcome(t: SafetyTraining, isChecked: bool, now: Timestamp)
    ensures var r := ApplyTrainingUpdates(t, CheckboxUpdates(isChecked, now));
      && r.completed == isChecked
      && (isChecked ==> r.completionDate == Some(now))
      && (!isChecked ==> r.completionDate == None)
      && DateMatchesCompletion(r)
  {
    var us := CheckboxUpdates(isChecked, now);
    var t1 := UpdateTraining(t, us[0]);
    var t2 := UpdateTraining(t1, us[1]);
    assert ApplyTrainingUpdates(t2, []) == t2;
    assert ApplyTrainingUpdates(t1, us[1..]) == t2;
  }

  /** The initial slice `{false, null}` satisfies the invariant (and `CheckboxOutcome` shows every click re-establishes it). */
  lemma InitialTrainingConsistent()
    ensures DateMatchesCompletion(InitialFormData.safetyTraining)
  {
  }

  /** The page shows a completion date exactly when one is stored. */
  function ShowsCompletionDate(t: SafetyTraining): (shown: bool)
    ensures shown <==> t.completionDate.Some?
    ensures DateMatchesCompletion(t) ==> (shown <==> t.completed)
  {
    t.completionDate.Some?
  }

  /**
   * `handleCheckboxChange`: two `updateData` calls on the wizard. Only the
   * training slice changes, and it ends up as `{isChecked, now or null}`.
   */
  method HandleCheckboxChange(app: Wizard, isChecked: bool, now: Timestamp)
    modifies app
    ensures app.currentStep == old(app.currentStep)
    ensures app.formData == old(app.formData).(safetyTraining :=
      SafetyTraining.SafetyTraining(isChecked, if isChecked then Some(now) else None))
    ensures app.formData.safetyTraining ==
      ApplyTrainingUpdates(old(app.formData.safetyTraining), CheckboxUpdates(isChecked, now))
  {
    CheckboxOutcome(app.formData.safetyTraining, isChecked, now);
    app.UpdateSafetyTraining(SetCompleted(isChecked));
    app.UpdateSafetyTraining(SetCompletionDate(if isChecked then Some(now) else None));
  }
}
