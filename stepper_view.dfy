/**
 * The progress bar above the page (components/Stepper.tsx): a fixed table of
 * the six editable steps, each drawn as done, current or upcoming.
 */
module StepperView {
  import opened Types

  datatype StepEntry = StepEntry(id: Step, name: string)

  /** The table the bar is drawn from; `Submitted` has no entry. */
  const Steps: seq<StepEntry> := [
    StepEntry(Step.ProjectInfo, "프로젝트 정보"),
    StepEntry(Step.SafetyTraining, "안전 교육"),
    StepEntry(Step.RiskAssessment, "위험성 평가"),
    StepEntry(Step.WorkPermit, "작업 허가"),
    StepEntry(Step.SafetyPledge, "안전 서약"),
    StepEntry(Step.Confirmation, "확인")
  ]

  /** Six entries, the i-th for the step with ordinal i + 1, so ids increase and `Submitted` is absent. */
  lemma StepsTable()
    ensures |Steps| == 6
    ensures forall i :: 0 <= i < |Steps| ==> Steps[i].id.Ord() == i + 1
    ensures forall i :: 0 <= i < |Steps| ==> Steps[i].id != Step.Submitted
  {
  }

  datatype Status = Done | Current | Upcoming

  /** Done when the wizard is past the entry, current when on it, upcoming otherwise. */
  function StatusOf(currentStep: Step, id: Step): (st: Status)
    ensures st == Done <==> currentStep.Ord() > id.Ord()
    ensures st == Current <==> currentStep == id
    ensures st == Upcoming <==> currentStep.Ord() < id.Ord()
  {
    if currentStep.Ord() > id.Ord() then Done
    else if currentStep == id then Current
    else Upcoming
  }

  /** The entries' statuses, in table order. */
  function Statuses(currentStep: Step): (sts: seq<Status>)
    ensures |sts| == |Steps|
    ensures forall i :: 0 <= i < |Steps| ==> sts[i] == StatusOf(currentStep, Steps[i].id)
  {
    seq(|Steps|, i requires 0 <= i < |Steps| => StatusOf(currentStep, Steps[i].id))
  }

  /** On any step but `Submitted`, exactly one entry is current: the one at index ordinal - 1. */
  lemma ExactlyOneCurrent(currentStep: Step)
    requires currentStep != Step.Submitted
    ensures Statuses(currentStep)[currentStep.Ord() - 1] == Current
    ensures forall i :: 0 <= i < |Steps| && i != currentStep.Ord() - 1 ==> Statuses(currentStep)[i] != Current
  {
    StepsTable();
  }

  /** Done entries form a prefix of the bar, and upcoming entries a suffix. */
  lemma DoneIsPrefix(currentStep: Step, i: nat, j: nat)
    requires i < j < |Steps|
    ensures Statuses(currentStep)[j] == Done ==> Statuses(currentStep)[i] == Done
    ensures Statuses(currentStep)[i] == Upcoming ==> Statuses(currentStep)[j] == Upcoming
  {
    StepsTable();
  }

  /** Only the current entry draws its name under the circle. */
  function NameLabel(currentStep: Step, e: StepEntry): (shown: Option<string>)
    ensures shown.Some? <==> StatusOf(currentStep, e.id) == Current
    ensures shown.Some? ==> shown.value == e.name
  {
    if currentStep == e.id then Some(e.name) else None
  }
}
