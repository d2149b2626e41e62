/**
 * The wizard itself (App.tsx): the initial record, the five slice updaters,
 * the per-step validator, the navigation handlers, and which navigation
 * controls the page offers at each step.
 */
module App {
  import opened Types

  /** The location value that means "other": the free-text `locationOther` then applies. */
  const OtherLocation: string := "기타"

  /** The record the wizard starts from: every text empty, one worker, nothing agreed. */
  const InitialFormData: FormData := FormData(
    ProjectInfo.ProjectInfo("", Some(""), "", "", ""),
    SafetyTraining.SafetyTraining(false, None),
    [],
    WorkPermit.WorkPermit(Unset, "", "", "", "", "", 1, false, false, []),
    SafetyPledge.SafetyPledge(map[], false, "", ""))

  // ---------------------------------------------------------------------------
  // Slice updaters

  /** The keys `updateProjectInfo` accepts (`keyof ProjectInfo`). */
  datatype ProjectInfoField = Location | LocationOther | ConstructionName | CompanyName | ContactPerson

  /** One property of the project-info slice; an absent `locationOther` reads as `None`. */
  function FieldOf(p: ProjectInfo, f: ProjectInfoField): Option<string> {
    match f
    case Location => Some(p.location)
    case LocationOther => p.locationOther
    case ConstructionName => Some(p.constructionName)
    case CompanyName => Some(p.companyName)
    case ContactPerson => Some(p.contactPerson)
  }

  /** Two project-info records with the same properties are the same record. */
  lemma ProjectInfoExtensionality(p: ProjectInfo, q: ProjectInfo)
    requires forall f :: FieldOf(p, f) == FieldOf(q, f)
    ensures p == q
  {
    assert FieldOf(p, Location) == FieldOf(q, Location);
    assert FieldOf(p, LocationOther) == FieldOf(q, LocationOther);
    assert FieldOf(p, ConstructionName) == FieldOf(q, ConstructionName);
    assert FieldOf(p, CompanyName) == FieldOf(q, CompanyName);
    assert FieldOf(p, ContactPerson) == FieldOf(q, ContactPerson);
  }

  /** `{ ...prev.projectInfo, [field]: value }`: the named property becomes `value`, the others stay. */
  function SetProjectInfoField(p: ProjectInfo, f: ProjectInfoField, value: string): (r: ProjectInfo)
    ensures FieldOf(r, f) == Some(value)
    ensures forall g :: g != f ==> FieldOf(r, g) == FieldOf(p, g)
  {
    match f
    case Location => p.(location := value)
    case LocationOther => p.(locationOther := Some(value))
    case ConstructionName => p.(constructionName := value)
    case CompanyName => p.(companyName := value)
    case ContactPerson => p.(contactPerson := value)
  }

  /** The (key, value) pairs `updateSafetyTraining` is called with. */
  datatype TrainingUpdate = SetCompleted(completed: bool) | SetCompletionDate(date: Option<Timestamp>)

  /** `{ ...prev.safetyTraining, [field]: value }`. */
  function UpdateTraining(t: SafetyTraining, u: TrainingUpdate): (r: SafetyTraining)
    ensures u.SetCompleted? ==> r.completed == u.completed && r.completionDate == t.completionDate
    ensures u.SetCompletionDate? ==> r.completionDate == u.date && r.completed == t.completed
  {
    match u
    case SetCompleted(b) => t.(completed := b)
    case SetCompletionDate(d) => t.(completionDate := d)
  }

  /** `Partial<WorkPermit>`: `None` marks a property the update object does not carry. */
  datatype WorkPermitPatch = WorkPermitPatch(
    kind: Option<PermitType>,
    workDate: Option<string>,
    workStartTime: Option<string>,
    workEndTime: Option<string>,
    location: Option<string>,
    description: Option<string>,
    workerCount: Option<int>,
    hasProcedureDoc: Option<bool>,
    hasRiskAssessment: Option<bool>,
    safetyChecks: Option<seq<string>>)

  const NoPermitChange: WorkPermitPatch :=
    WorkPermitPatch(None, None, None, None, None, None, None, None, None, None)

  /** The value a spread leaves in one property: the update's if it has one, else the old one. */
  function Pick<T>(o: Option<T>, previous: T): T {
    if o.Some? then o.value else previous
  }

  /** Every property the patch carries has that value in `w`. */
  predicate PermitHas(w: WorkPermit, d: WorkPermitPatch) {
    && (d.kind.Some? ==> w.kind == d.kind.value)
    && (d.workDate.Some? ==> w.workDate == d.workDate.value)
    && (d.workStartTime.Some? ==> w.workStartTime == d.workStartTime.value)
    && (d.workEndTime.Some? ==> w.workEndTime == d.workEndTime.value)
    && (d.location.Some? ==> w.location == d.location.value)
    && (d.description.Some? ==> w.description == d.description.value)
    && (d.workerCount.Some? ==> w.workerCount == d.workerCount.value)
    && (d.hasProcedureDoc.Some? ==> w.hasProcedureDoc == d.hasProcedureDoc.value)
    && (d.hasRiskAssessment.Some? ==> w.hasRiskAssessment == d.hasRiskAssessment.value)
    && (d.safetyChecks.Some? ==> w.safetyChecks == d.safetyChecks.value)
  }

  /** Every property the patch does not carry is the same in `w` and `w'`. */
  predicate PermitKeepsRest(w: WorkPermit, w': WorkPermit, d: WorkPermitPatch) {
    && (d.kind.None? ==> w'.kind == w.kind)
    && (d.workDate.None? ==> w'.workDate == w.workDate)
    && (d.workStartTime.None? ==> w'.workStartTime == w.workStartTime)
    && (d.workEndTime.None? ==> w'.workEndTime == w.workEndTime)
    && (d.location.None? ==> w'.location == w.location)
    && (d.description.None? ==> w'.description == w.description)
    && (d.workerCount.None? ==> w'.workerCount == w.workerCount)
    && (d.hasProcedureDoc.None? ==> w'.hasProcedureDoc == w.hasProcedureDoc)
    && (d.hasRiskAssessment.None? ==> w'.hasRiskAssessment == w.hasRiskAssessment)
    && (d.safetyChecks.None? ==> w'.safetyChecks == w.safetyChecks)
  }

  /** `{ ...prev.workPermit, ...data }`. */
  function MergeWorkPermit(w: WorkPermit, d: WorkPermitPatch): (r: WorkPermit)
    ensures PermitHas(r, d) && PermitKeepsRest(w, r, d)
  {
    WorkPermit.WorkPermit(
      Pick(d.kind, w.kind), Pick(d.workDate, w.workDate), Pick(d.workStartTime, w.workStartTime),
      Pick(d.workEndTime, w.workEndTime), Pick(d.location, w.location), Pick(d.description, w.description),
      Pick(d.workerCount, w.workerCount), Pick(d.hasProcedureDoc, w.hasProcedureDoc),
      Pick(d.hasRiskAssessment, w.hasRiskAssessment), Pick(d.safetyChecks, w.safetyChecks))
  }

  /** The empty update changes nothing, and applying the same update twice is applying it once. */
  lemma MergeWorkPermitIdentityAndIdempotent(w: WorkPermit, d: WorkPermitPatch)
    ensures MergeWorkPermit(w, NoPermitChange) == w
    ensures MergeWorkPermit(MergeWorkPermit(w, d), d) == MergeWorkPermit(w, d)
  {
  }

  /** `Partial<SafetyPledge>`. */
  datatype SafetyPledgePatch = SafetyPledgePatch(
    agreements: Option<map<string, bool>>,
    agreeToAll: Option<bool>,
    name: Option<string>,
    signature: Option<string>)

  /** `{ ...prev.safetyPledge, ...data }`: carried properties are replaced, the others kept. */
  function MergePledge(p: SafetyPledge, d: SafetyPledgePatch): (r: SafetyPledge)
    ensures r.agreements == (if d.agreements.Some? then d.agreements.value else p.agreements)
    ensures r.agreeToAll == (if d.agreeToAll.Some? then d.agreeToAll.value else p.agreeToAll)
    ensures r.name == (if d.name.Some? then d.name.value else p.name)
    ensures r.signature == (if d.signature.Some? then d.signature.value else p.signature)
  {
    SafetyPledge.SafetyPledge(
      Pick(d.agreements, p.agreements), Pick(d.agreeToAll, p.agreeToAll),
      Pick(d.name, p.name), Pick(d.signature, p.signature))
  }

  // ---------------------------------------------------------------------------
  // Validators (`isStepValid`), one per step; JavaScript truthiness of a string is non-emptiness.

  /** With location "other" the free text must be present and non-empty, otherwise the location itself. */
  predicate LocationValid(p: ProjectInfo) {
    if p.location == OtherLocation then p.locationOther.Some? && p.locationOther.value != ""
    else p.location != ""
  }

  predicate ProjectInfoValid(p: ProjectInfo) {
    LocationValid(p) && p.constructionName != "" && p.companyName != "" && p.contactPerson != ""
  }

  /** `safetyMeasures`, `likelihood` and `severity` are not checked. */
  predicate RiskItemComplete(item: RiskItem) {
    item.location != "" && item.task != "" && item.hazard != "" && item.reductionMeasures != ""
  }

  predicate RiskAssessmentValid(items: RiskAssessment) {
    forall i :: 0 <= i < |items| ==> RiskItemComplete(items[i])
  }

  predicate WorkPermitValid(w: WorkPermit) {
    && w.kind != Unset && w.workDate != "" && w.workStartTime != "" && w.workEndTime != ""
    && w.location != "" && w.description != "" && w.workerCount > 0
  }

  predicate SafetyPledgeValid(p: SafetyPledge) {
    p.agreeToAll && p.name != "" && p.signature != ""
  }

  /** `isStepValid()`: dispatch on the step; the review step always passes, `Submitted` never does. */
  function IsStepValid(step: Step, data: FormData): (ok: bool)
    ensures step == Step.ProjectInfo ==> (ok <==> ProjectInfoValid(data.projectInfo))
    ensures step == Step.SafetyTraining ==> (ok <==> data.safetyTraining.completed)
    ensures step == Step.RiskAssessment ==> (ok <==> RiskAssessmentValid(data.riskAssessment))
    ensures step == Step.WorkPermit ==> (ok <==> WorkPermitValid(data.workPermit))
    ensures step == Step.SafetyPledge ==> (ok <==> SafetyPledgeValid(data.safetyPledge))
    ensures step == Step.Confirmation ==> ok
    ensures step == Step.Submitted ==> !ok
  {
    match step
    case ProjectInfo => ProjectInfoValid(data.projectInfo)
    case SafetyTraining => data.safetyTraining.completed
    case RiskAssessment => RiskAssessmentValid(data.riskAssessment)
    case WorkPermit => WorkPermitValid(data.workPermit)
    case SafetyPledge => SafetyPledgeValid(data.safetyPledge)
    case Confirmation => true
    case Submitted => false
  }

  /** The two records agree on the slice that `step`'s validator inspects. */
  predicate SameSlice(step: Step, d1: FormData, d2: FormData) {
    match step
    case ProjectInfo => d1.projectInfo == d2.projectInfo
    case SafetyTraining => d1.safetyTraining == d2.safetyTraining
    case RiskAssessment => d1.riskAssessment == d2.riskAssessment
    case WorkPermit => d1.workPermit == d2.workPermit
    case SafetyPledge => d1.safetyPledge == d2.safetyPledge
    case Confirmation => true
    case Submitted => true
  }

  /** Each validator reads only its own slice: editing any other slice cannot change the verdict. */
  lemma ValidatorReadsOnlyItsSlice(step: Step, d1: FormData, d2: FormData)
    requires SameSlice(step, d1, d2)
    ensures IsStepValid(step, d1) == IsStepValid(step, d2)
  {
  }

  /** A fresh form cannot leave the first step; an empty risk list passes its step. */
  lemma InitialFormDataFacts()
    ensures !IsStepValid(Step.ProjectInfo, InitialFormData)
    ensures IsStepValid(Step.RiskAssessment, InitialFormData)
    ensures !IsStepValid(Step.WorkPermit, InitialFormData)
  {
  }

  /** Location "other" with empty free text fails; filling the free text makes the step pass. */
  lemma OtherLocationExample()
    ensures !ProjectInfoValid(ProjectInfo.ProjectInfo(OtherLocation, Some(""), "A", "B", "C"))
    ensures !ProjectInfoValid(ProjectInfo.ProjectInfo(OtherLocation, None, "A", "B", "C"))
    ensures ProjectInfoValid(ProjectInfo.ProjectInfo(OtherLocation, Some("Site X"), "A", "B", "C"))
  {
  }

  // ---------------------------------------------------------------------------
  // Navigation

  /** `Math.min(prev + 1, Step.Submitted)`. */
  function Succ(s: Step): (r: Step)
    ensures s != Step.Submitted ==> r.Ord() == s.Ord() + 1
    ensures s == Step.Submitted ==> r == Step.Submitted
  {
    StepOf(if s.Ord() + 1 < Step.Submitted.Ord() then s.Ord() + 1 else Step.Submitted.Ord())
  }

  /** `Math.max(prev - 1, Step.ProjectInfo)`. */
  function Pred(s: Step): (r: Step)
    ensures s != Step.ProjectInfo ==> r.Ord() == s.Ord() - 1
    ensures s == Step.ProjectInfo ==> r == Step.ProjectInfo
  {
    StepOf(if s.Ord() - 1 > Step.ProjectInfo.Ord() then s.Ord() - 1 else Step.ProjectInfo.Ord())
  }

  /** Going back then forward (or forward then back) away from the ends returns to the same step. */
  lemma SuccPredRoundTrip(s: Step)
    ensures s != Step.ProjectInfo ==> Succ(Pred(s)) == s
    ensures s != Step.Submitted ==> Pred(Succ(s)) == s
  {
    if s != Step.ProjectInfo { OrdInjective(Succ(Pred(s)), s); }
    if s != Step.Submitted { OrdInjective(Pred(Succ(s)), s); }
  }

  /** The forward button: "next" (enabled when the step is valid) or, on the review step, "submit". */
  datatype Forward = NextButton(enabled: bool) | SubmitButton

  /** The navigation bar under the step's page; none is drawn once submitted. */
  datatype Controls = NoControls | Controls(prevEnabled: bool, forward: Forward)

  function ControlsFor(step: Step, data: FormData): (c: Controls)
    ensures c.NoControls? <==> step == Step.Submitted
    ensures c.Controls? ==> (c.prevEnabled <==> step != Step.ProjectInfo)
    ensures c.Controls? ==> (c.forward.SubmitButton? <==> step == Step.Confirmation)
    ensures c.Controls? && c.forward.NextButton? ==> (c.forward.enabled <==> IsStepValid(step, data))
  {
    if step.Ord() < Step.Submitted.Ord() then
      Controls(step != Step.ProjectInfo,
               if step == Step.Confirmation then SubmitButton else NextButton(IsStepValid(step, data)))
    else
      NoControls
  }

  datatype Action = Prev | Next | Submit

  /** The button for `a` is drawn and not disabled. */
  predicate Offered(step: Step, data: FormData, a: Action) {
    var c := ControlsFor(step, data);
    c.Controls? &&
    match a
    case Prev => c.prevEnabled
    case Next => c.forward == NextButton(true)
    case Submit => c.forward == SubmitButton
  }

  /** The step after the handler of `a` runs: `handlePrev`, `handleNext`, `handleSubmit`. */
  function StepAfter(step: Step, data: FormData, a: Action): Step {
    match a
    case Prev => Pred(step)
    case Next => if IsStepValid(step, data) then Succ(step) else step
    case Submit => Step.Submitted
  }

  /**
   * Pressing any button the page offers moves exactly one step back or forward;
   * in particular `Submitted` is entered only from `Confirmation`, although
   * `handleSubmit` itself has no guard.
   */
  lemma OfferedActionMovesOneStep(step: Step, data: FormData, a: Action)
    requires Offered(step, data, a)
    ensures var s' := StepAfter(step, data, a);
      s'.Ord() == step.Ord() + 1 || s'.Ord() == step.Ord() - 1
    ensures StepAfter(step, data, a) == Step.Submitted ==> step == Step.Confirmation
  {
  }

  /** A user session: edits of the record (by any slice updater) and presses of navigation buttons. */
  datatype Event = Edit(data: FormData) | Press(action: Action)

  /** The step reached after `events`; a press on a button that is not offered has no effect. */
  function RunStep(step: Step, data: FormData, events: seq<Event>): Step
    decreases |events|
  {
    if events == [] then step
    else match events[0]
      case Edit(d) => RunStep(step, d, events[1..])
      case Press(a) =>
        RunStep(if Offered(step, data, a) then StepAfter(step, data, a) else step, data, events[1..])
  }

  /** How many presses in `events` are of a forward button. */
  function ForwardPresses(events: seq<Event>): nat {
    if events == [] then 0
    else (if events[0].Press? && events[0].action != Prev then 1 else 0) + ForwardPresses(events[1..])
  }

  /** No session skips a step: the step advances by at most one per forward press. */
  lemma {:induction false} RunNeverSkips(step: Step, data: FormData, events: seq<Event>)
    ensures RunStep(step, data, events).Ord() <= step.Ord() + ForwardPresses(events)
    decreases |events|
  {
    if events != [] {
      match events[0]
      case Edit(d) => RunNeverSkips(step, d, events[1..]);
      case Press(a) =>
        var s' := if Offered(step, data, a) then StepAfter(step, data, a) else step;
        RunNeverSkips(s', data, events[1..]);
    }
  }

  /** Once submitted, no button is left, so no session leaves `Submitted`. */
  lemma {:induction false} SubmittedIsTerminal(data: FormData, events: seq<Event>)
    ensures RunStep(Step.Submitted, data, events) == Step.Submitted
    decreases |events|
  {
    if events != [] {
      match events[0]
      case Edit(d) => SubmittedIsTerminal(d, events[1..]);
      case Press(a) => SubmittedIsTerminal(data, events[1..]);
    }
  }

  // ---------------------------------------------------------------------------
  // The application state

  /** `currentStep` and `formData` are the component's two pieces of React state. */
  class Wizard {
    var currentStep: Step
    var formData: FormData

    constructor ()
      ensures currentStep == Step.ProjectInfo && formData == InitialFormData
    {
      currentStep := Step.ProjectInfo;
      formData := InitialFormData;
    }

    /** `isStepValid()` on the current state. */
    predicate StepValid()
      reads this
    {
      IsStepValid(currentStep, formData)
    }

    method UpdateProjectInfo(field: ProjectInfoField, value: string)
      modifies this
      ensures currentStep == old(currentStep)
      ensures formData == old(formData).(projectInfo := SetProjectInfoField(old(formData.projectInfo), field, value))
    {
      formData := formData.(projectInfo := SetProjectInfoField(formData.projectInfo, field, value));
    }

    method UpdateSafetyTraining(u: TrainingUpdate)
      modifies this
      ensures currentStep == old(currentStep)
      ensures formData == old(formData).(safetyTraining := UpdateTraining(old(formData.safetyTraining), u))
    {
      formData := formData.(safetyTraining := UpdateTraining(formData.safetyTraining, u));
    }

    method SetRiskAssessment(items: RiskAssessment)
      modifies this
      ensures currentStep == old(currentStep)
      ensures formData == old(formData).(riskAssessment := items)
    {
      formData := formData.(riskAssessment := items);
    }

    method UpdateWorkPermit(d: WorkPermitPatch)
      modifies this
      ensures currentStep == old(currentStep)
      ensures formData == old(formData).(workPermit := MergeWorkPermit(old(formData.workPermit), d))
    {
      formData := formData.(workPermit := MergeWorkPermit(formData.workPermit, d));
    }

    method UpdateSafetyPledge(d: SafetyPledgePatch)
      modifies this
      ensures currentStep == old(currentStep)
      ensures formData == old(formData).(safetyPledge := MergePledge(old(formData.safetyPledge), d))
    {
      formData := formData.(safetyPledge := MergePledge(formData.safetyPledge, d));
    }

    /** Advances one step when the current step is valid; otherwise only alerts (`alerted`). */
    method HandleNext() returns (alerted: bool)
      modifies this
      ensures alerted <==> !old(StepValid())
      ensures currentStep == if alerted then old(currentStep) else Succ(old(currentStep))
      ensures currentStep == StepAfter(old(currentStep), old(formData), Next)
      ensures formData == old(formData)
    {
      alerted := !IsStepValid(currentStep, formData);
      if !alerted {
        currentStep := Succ(currentStep);
      }
    }

    /** Goes back one step, never validated, staying at the first step. */
    method HandlePrev()
      modifies this
      ensures currentStep == Pred(old(currentStep))
      ensures formData == old(formData)
    {
      currentStep := Pred(currentStep);
    }

    /** Hands the record to the (absent) sink and enters `Submitted`, whatever the current step. */
    method HandleSubmit() returns (submitted: FormData)
      modifies this
      ensures submitted == old(formData)
      ensures currentStep == Step.Submitted && formData == old(formData)
    {
      submitted := formData;
      currentStep := Step.Submitted;
    }
  }
}
