# Safety-compliance wizard: a Dafny model

This project models the form wizard of a contractor safety-compliance
application. A submission is one record with five slices: project info,
safety training, risk assessment, work permit and safety pledge. The user fills
in the slices one page at a time. "Next" is gated by a per-step validator,
"previous" always works, and a review page ends in "submit".

The model follows the source file by file:

- `types.dfy` (module `Types`): the `Step` enum with its ordinals 1..7, and the
  slice records as datatypes.
- `app.dfy` (module `App`): the initial record, the five slice updaters as
  merge functions, the validator `IsStepValid`, and the navigation bar's
  controls. It also holds the `Wizard` class, whose `currentStep` and
  `formData` fields are updated by `HandleNext`, `HandlePrev`, `HandleSubmit`
  and the updaters. Lemmas show that no session skips a step and that
  `Submitted` is terminal.
- `training_step.dfy`: the training checkbox. It makes two updates, and the
  completion date ends up set exactly when `completed` is true.
- `risk_step.dfy`: the risk rows (score colour, add, update by id, remove by
  id) and the image-analysis append. The `RiskEditor` class holds the page's
  loading, error and file-name state.
- `permit_step.dfy`: the safety-check membership toggle and the one-property
  updates sent by the permit page's inputs.
- `pledge_step.dfy`: the single-item toggle and the agree-to-all loop over the
  pledge keys.
- `confirmation_view.dfy`: what the review page shows for a record.
- `stepper_view.dfy`: the progress bar's table and each entry's status.
- `js.dfy`: the JavaScript semantics the pages rely on: `parseInt(..) || d`
  and `String.prototype.trim`.

The pledge items' keys and the work-permit safety-check labels are constant
tables in the application. Here they are parameters. The timestamp from
`new Date()` and the ids from `crypto.randomUUID()` are parameters too.

Behaviour of the code worth noting:

- `handleSubmit` has no guard. The model's `HandleSubmit` enters `Submitted`
  from any step. `ControlsFor` and `OfferedActionMovesOneStep` show that the
  page offers the submit button only on the review step.
- Likelihood and severity are not clamped to 1..5. Any non-zero parsed
  number is stored (`RatingInputNotClamped`).
- The record is not frozen at `Submitted` by the code itself. An image
  analysis that resolves late still appends its rows. `FinishAnalysis` does
  not look at the current step. What stops further edits is that no editor
  and no navigation control is rendered at `Submitted` (`SubmittedIsTerminal`).
- After a single item click, `agreeToAll` is computed over the keys present
  in the map, not over all pledge items (see Findings).

## Model

| member | source | states |
|---|---|---|
| `Types.Step.Ord` | types.ts:2-10 | ordinals lie in 1..7; `ProjectInfo` is the only 1 and `Submitted` the only 7 |
| `Types.StepOf` | types.ts:2-10 | every ordinal 1..7 belongs to a step |
| `Types.OrdInjective` | types.ts:2-10 | no two steps share an ordinal, so `StepOf` inverts `Ord` |
| `Types.PermitType.Literal` | types.ts:39 | the permit type is exactly one of 'general', 'hazardous', ''; '' means unset |
| `App.ProjectInfoExtensionality` | types.ts:12-18 | a project-info record is determined by its five properties |
| `App.SetProjectInfoField` | App.tsx:24-26 | the updated property reads back as the new value, every other property is unchanged |
| `App.UpdateTraining` | App.tsx:28-30 | the named training property takes the value, the other keeps its value |
| `App.MergeWorkPermit` | App.tsx:36-38 | every property the update carries is set, every other is unchanged |
| `App.MergeWorkPermitIdentityAndIdempotent` | App.tsx:37 | the empty update is the identity; applying an update twice equals applying it once |
| `App.MergePledge` | App.tsx:40-42 | carried pledge properties are replaced, the others kept |
| `App.IsStepValid` | App.tsx:63-85 | per step, valid iff that slice's predicate holds; review always valid, `Submitted` never |
| `App.ValidatorReadsOnlyItsSlice` | App.tsx:63-85 | records agreeing on a step's slice get the same verdict for that step |
| `App.InitialFormDataFacts` | App.tsx:12-18 | the fresh record fails project info and work permit, and passes the (empty) risk list |
| `App.OtherLocationExample` | App.tsx:65-69 | location '기타' needs non-empty free text (absent counts as empty) |
| `App.Succ` | App.tsx:47 | one ordinal forward, saturating at `Submitted` |
| `App.Pred` | App.tsx:54 | one ordinal back, saturating at `ProjectInfo` |
| `App.SuccPredRoundTrip` | App.tsx:45-55 | back then forward (away from the first step) and forward then back (away from the last) return to the same step |
| `App.ControlsFor` | App.tsx:133-145 | no controls at `Submitted`; "previous" disabled only at the first step; submit button iff on the review step; "next" enabled iff the step is valid |
| `App.OfferedActionMovesOneStep` | App.tsx:45-61 | pressing an offered button moves exactly one step; `Submitted` is entered only from `Confirmation` |
| `App.RunNeverSkips` | App.tsx:45-61 | over any session of edits and presses, the step rises by at most the number of forward presses |
| `App.SubmittedIsTerminal` | App.tsx:133-146 | no session leaves `Submitted` |
| `App.Wizard.constructor` | App.tsx:21-22 | starts at `ProjectInfo` with the all-empty record |
| `App.Wizard.UpdateProjectInfo` | App.tsx:24-26 | only the project-info slice changes; the step is unchanged |
| `App.Wizard.UpdateSafetyTraining` | App.tsx:28-30 | only the training slice changes; the step is unchanged |
| `App.Wizard.SetRiskAssessment` | App.tsx:32-34 | the risk list is replaced, nothing else changes |
| `App.Wizard.UpdateWorkPermit` | App.tsx:36-38 | only the permit slice changes, by merge |
| `App.Wizard.UpdateSafetyPledge` | App.tsx:40-42 | only the pledge slice changes, by merge |
| `App.Wizard.HandleNext` | App.tsx:45-51 | advances to `Succ` iff the step is valid; otherwise alerts and changes nothing |
| `App.Wizard.HandlePrev` | App.tsx:53-55 | moves to `Pred`, record unchanged |
| `App.Wizard.HandleSubmit` | App.tsx:57-61 | hands over the record and enters `Submitted` unconditionally |
| `TrainingStep.CheckboxUpdates` | components/Step2SafetyTraining.tsx:12-16 | sends `completed` first, then a date that is present iff checked |
| `TrainingStep.CheckboxOutcome` | components/Step2SafetyTraining.tsx:13-15 | from any slice: checking gives `{true, now}`, unchecking `{false, null}`; date present iff completed |
| `TrainingStep.InitialTrainingConsistent` | App.tsx:14 | the initial training slice has a date iff completed |
| `TrainingStep.ShowsCompletionDate` | components/Step2SafetyTraining.tsx:36-40 | the date is displayed iff one is stored, whatever `completed` says; under the date-iff-completed invariant, iff completed |
| `TrainingStep.HandleCheckboxChange` | components/Step2SafetyTraining.tsx:12-16 | only the training slice changes, to the outcome of the two updates |
| `RiskStep.Band` | components/Step3RiskAssessment.tsx:15-16 | red iff score at least 9, green iff below 4, yellow otherwise |
| `RiskStep.BandMonotone` | components/Step3RiskAssessment.tsx:15-16 | a higher score never gets a milder colour |
| `RiskStep.RatingInput` | components/Step3RiskAssessment.tsx:31 | never 0; NaN or 0 becomes 1; any other parsed number is kept |
| `RiskStep.RatingInputNotClamped` | components/Step3RiskAssessment.tsx:30-35 | 7 and -2 are stored as typed; NaN and 0 become 1 |
| `RiskStep.EditedRow` | components/Step3RiskAssessment.tsx:20-42 | each of the seven edits replaces exactly its own property of the row (texts as typed, ratings through the fallback); the id is kept |
| `RiskStep.AddRow` | components/Step3RiskAssessment.tsx:82-91 | appends, after an unchanged prefix, exactly the row with the fresh id, empty texts and likelihood = severity = 1; the row is green and makes the list invalid |
| `RiskStep.AddRowKeepsIdsUnique` | components/Step3RiskAssessment.tsx:82-91 | a fresh id keeps ids unique |
| `RiskStep.UpdateRow` | components/Step3RiskAssessment.tsx:93-95 | same length and id sequence; matching rows replaced, others unchanged |
| `RiskStep.UpdateRowUnknownId` | components/Step3RiskAssessment.tsx:93-95 | an unknown id leaves the list unchanged |
| `RiskStep.EditRowReplacesOnlyIt` | components/Step3RiskAssessment.tsx:93-95 | with unique ids, editing row k replaces row k only |
| `RiskStep.RemoveRow` | components/Step3RiskAssessment.tsx:97-99 | the list never grows |
| `RiskStep.RemoveRowMembers` | components/Step3RiskAssessment.tsx:98 | a row remains iff it was there and its id differs |
| `RiskStep.RemoveRowUnknownId` | components/Step3RiskAssessment.tsx:97-99 | removing an absent id leaves the list unchanged |
| `RiskStep.RemoveRowConcat` | components/Step3RiskAssessment.tsx:98 | removal distributes over concatenation, so remaining rows keep their order |
| `RiskStep.RemoveRowRemovesExactlyOne` | components/Step3RiskAssessment.tsx:97-99 | with unique ids, removing row k's id yields the list without row k |
| `RiskStep.RemoveRowKeepsValidity` | components/Step3RiskAssessment.tsx:97-99 | removal keeps a list that passes its step passing |
| `RiskStep.RemoveRowKeepsIdsUnique` | components/Step3RiskAssessment.tsx:97-99 | removal keeps ids unique |
| `RiskStep.AnalysisRows` | components/Step3RiskAssessment.tsx:64-73 | one row per hazard in order: fixed location, task = work type, 3/3, empty measures |
| `RiskStep.AnalysisRowsNeedCompletion` | components/Step3RiskAssessment.tsx:64-73 | suggested rows are red and leave the step invalid until completed |
| `RiskStep.ListAfterAnalysis` | components/Step3RiskAssessment.tsx:62-79 | failure: `setData` not called; success: the old list followed by `AnalysisRows`, one row per hazard |
| `RiskStep.AnalysisAppendKeepsIdsUnique` | components/Step3RiskAssessment.tsx:64-74 | distinct fresh ids keep ids unique after the append |
| `RiskStep.WeldingExample` | components/Step3RiskAssessment.tsx:63-74 | welding with two hazards appends exactly two rows, task welding, 3/3, distinct ids |
| `RiskStep.ErrorText` | components/Step3RiskAssessment.tsx:76 | the error's own message when it has one, else 알 수 없는 오류가 발생했습니다.; never empty |
| `RiskStep.RiskEditor.constructor` | components/Step3RiskAssessment.tsx:51-53 | not loading, no error, no file name |
| `RiskStep.RiskEditor.BeginAnalysis` | components/Step3RiskAssessment.tsx:59-61 | loading on, error cleared, file name recorded |
| `RiskStep.RiskEditor.FinishAnalysis` | components/Step3RiskAssessment.tsx:62-79 | success appends the rows to the given list; failure records the error and leaves the record alone; loading ends; the step is untouched |
| `RiskStep.RiskEditor.HandleFileChange` | components/Step3RiskAssessment.tsx:55-80 | without a file nothing changes; otherwise the list becomes `ListAfterAnalysis` of the list at upload time |
| `PermitStep.Without` | components/Step4WorkPermit.tsx:16 | the filtered list is never longer |
| `PermitStep.WithoutMembers` | components/Step4WorkPermit.tsx:16 | exactly the other labels remain |
| `PermitStep.WithoutAbsent` | components/Step4WorkPermit.tsx:16 | filtering an absent label changes nothing |
| `PermitStep.WithoutConcat` | components/Step4WorkPermit.tsx:16 | filtering distributes over concatenation (order kept) |
| `PermitStep.ToggleCheck` | components/Step4WorkPermit.tsx:14-19 | an absent label is appended at the end of the unchanged list; a present label is filtered out (every copy, the rest in order, by `Without`); so its membership flips and every other label's is unchanged |
| `PermitStep.ToggleTwiceRestoresAbsent` | components/Step4WorkPermit.tsx:15-17 | toggling an absent label twice restores the list |
| `PermitStep.ToggleTwiceMovesPresentToEnd` | components/Step4WorkPermit.tsx:15-17 | toggling a present label twice removes all its copies and appends one |
| `PermitStep.WithoutKeepsNoDuplicates` | components/Step4WorkPermit.tsx:16 | filtering keeps a duplicate-free list duplicate-free |
| `PermitStep.ToggleKeepsNoDuplicates` | components/Step4WorkPermit.tsx:15-17 | toggling keeps a duplicate-free list duplicate-free |
| `PermitStep.TogglePatch` | components/Step4WorkPermit.tsx:14-18 | merging the update into any permit replaces only `safetyChecks`, with the toggled list |
| `PermitStep.RadioPatch` | components/Step4WorkPermit.tsx:32-36 | a radio sets only the type, to 'general' or 'hazardous', never '' |
| `PermitStep.WorkerCountPatch` | components/Step4WorkPermit.tsx:89 | only the worker count; NaN or 0 stores 0, other numbers as parsed |
| `PermitStep.FalsyWorkerCountBlocksStep` | components/Step4WorkPermit.tsx:89 | a falsy worker-count input makes the permit step invalid |
| `PermitStep.WorkerCountExample` | App.tsx:74-77 | with all texts filled, 1 worker passes and 0 fails |
| `PermitStep.InputPatch` | components/Step4WorkPermit.tsx:42-96 | for each of the five text inputs and two attachment boxes, merging its update into any permit sets that input's property to the entered value and changes nothing else |
| `PledgeStep.AgreementPatch` | components/Step5SafetyPledge.tsx:15-19 | the update carries the map and a flag equal to "every value in the map is true" |
| `PledgeStep.ToggleAgreement` | components/Step5SafetyPledge.tsx:15-19 | the key flips (missing counts as false), other keys keep their values, the flag is "every present value true", name and signature unchanged |
| `PledgeStep.UncheckingClearsAgreeToAll` | components/Step5SafetyPledge.tsx:16-18 | unchecking any item clears the flag |
| `PledgeStep.AgreeAllMap` | components/Step5SafetyPledge.tsx:23-26 | exactly the pledge keys, each mapped to the given value |
| `PledgeStep.AgreeToAllPatch` | components/Step5SafetyPledge.tsx:21-28 | the loop builds exactly the all-keys map with the negated flag |
| `PledgeStep.AgreeToAll` | components/Step5SafetyPledge.tsx:21-28 | the flag negates; the map holds exactly the pledge keys, all equal to the flag; stray keys are dropped |
| `PledgeStep.AgreeToAllTwice` | components/Step5SafetyPledge.tsx:22 | clicking agree-to-all twice restores the flag |
| `PledgeStep.AgreeAllThenUncheck` | components/Step5SafetyPledge.tsx:21-28 | after agreeing to all, unchecking one item clears the flag |
| `PledgeStep.NamePatch` | components/Step5SafetyPledge.tsx:61 | the name update touches only the name |
| `PledgeStep.SignaturePatch` | components/Step5SafetyPledge.tsx:66 | the signature update touches only the signature |
| `PledgeStep.ClearedSignatureBlocksStep` | components/SignaturePad.tsx:18-21 | a cleared ('') signature makes the pledge step invalid |
| `PledgeStep.SingleClickAgreesToAll` | components/Step5SafetyPledge.tsx:16-18 | as written: one click on a fresh pledge sets the flag while another item is unagreed, and with a name and signature the pledge step passes |
| `PledgeStep.ToggleAgreementOverItems` | components/Step5SafetyPledge.tsx:15-19 | corrected: the flag holds iff every pledge item is agreed |
| `PledgeStep.SingleClickOverItemsBlocksStep` | components/Step5SafetyPledge.tsx:16-18 | corrected: the same single click leaves the flag off and the pledge step blocked |
| `PledgeStep.OverItemsMatchesWhenKeysComplete` | components/Step5SafetyPledge.tsx:15-28 | when the map holds exactly the pledge keys, as-written and corrected toggles agree |
| `ConfirmationView.Field` | components/Step6Confirmation.tsx:16-21 | the placeholder is shown iff the value is falsy ('' , 0 or undefined) |
| `ConfirmationView.DisplayedLocation` | components/Step6Confirmation.tsx:32 | the free text when the location is '기타', otherwise the location |
| `ConfirmationView.ValidProjectInfoShowsLocation` | components/Step6Confirmation.tsx:32 | a project-info slice that passed its step shows a location |
| `ConfirmationView.Schedule` | components/Step6Confirmation.tsx:54-58 | '' without a date; with one, the trim of `date start ~ end`, which is non-empty and has no outer whitespace |
| `ConfirmationView.ScheduleShownIffDate` | components/Step6Confirmation.tsx:54-58 | the date/time line shows the placeholder iff the work date is empty |
| `ConfirmationView.ScheduleUntrimmed` | components/Step6Confirmation.tsx:54-58 | with clean date and end time the line is `date start ~ end` exactly |
| `ConfirmationView.ScheduleWithoutEndTime` | components/Step6Confirmation.tsx:54-58 | with a date and no end time the line is `date start ~`: the trailing blank is trimmed |
| `ConfirmationView.RiskSectionFor` | components/Step6Confirmation.tsx:42-50 | one `task: hazard` line per row in order, or the no-items text iff the list is empty |
| `ConfirmationView.TrainingLineFor` | components/Step6Confirmation.tsx:39 | "completed" with the stored date iff completed |
| `ConfirmationView.AgreeToAllText` | components/Step6Confirmation.tsx:66 | 예 iff agreed, else 아니오; never the placeholder |
| `ConfirmationView.SignatureValue` | components/Step6Confirmation.tsx:67 | an image whose source is the stored signature when signed, else the text 서명 없음; never the placeholder |
| `ConfirmationView.PageFor` | components/Step6Confirmation.tsx:23-72 | every one of the fourteen lines is tied to its value: texts through `Field`; permit type and worker count show the placeholder iff unset or 0; agree-to-all and signature always show `AgreeToAllText` and `SignatureValue`; training, schedule, location and risks by their functions |
| `ConfirmationView.ValidRecordShowsEverything` | components/Step6Confirmation.tsx:30-69 | a record that passed every step shows no placeholder and a completed training line |
| `StepperView.StepsTable` | components/Stepper.tsx:8-15 | six entries, entry i for ordinal i + 1, no `Submitted` |
| `StepperView.StatusOf` | components/Stepper.tsx:29-57 | done iff past the entry, current iff on it, upcoming iff before it |
| `StepperView.Statuses` | components/Stepper.tsx:27-59 | one status per table entry, in table order |
| `StepperView.ExactlyOneCurrent` | components/Stepper.tsx:29-48 | below `Submitted`, exactly one entry is current: the one at index ordinal - 1 |
| `StepperView.DoneIsPrefix` | components/Stepper.tsx:29 | done entries form a prefix and upcoming entries a suffix |
| `StepperView.NameLabel` | components/Stepper.tsx:46 | only the current entry shows its name |
| `Js.OrFallback` | components/Step4WorkPermit.tsx:89 | `parseInt(..) || d`: falsy parse gives d, otherwise the number; 0 only if d is 0 |
| `Js.TrimStart` | components/Step6Confirmation.tsx:56 | the suffix after the leading whitespace; it starts with a non-space |
| `Js.TrimEnd` | components/Step6Confirmation.tsx:56 | the prefix before the trailing whitespace; it ends with a non-space |
| `Js.Trim` | components/Step6Confirmation.tsx:56 | the result is a slice of the input with only whitespace outside it, and it neither starts nor ends with whitespace |
| `Js.TrimKeepsNonWhitespace` | components/Step6Confirmation.tsx:56 | a string with a non-whitespace character trims to a non-empty string |
| `Js.TrimIdentity` | components/Step6Confirmation.tsx:56 | a string without outer whitespace is its own trim |

## Left out

- services/geminiService.ts is not part of this model. It is a network call through an SDK, plus a file reader and JSON parsing. Its result is the `Analysis` value: a work type with hazards, or a failure with a message. A missing API key, a read error, a failed request or a malformed answer are all failures. An answer without a `hazards` array fails inside the page's `try`, so it is a failure too.
- The concurrency of `handleFileChange` is not modelled. The append is one atomic step on the list as it stood when the file was chosen. Edits made while the request is pending would be overwritten in the source; the model does not capture that.
- React state batching is not modelled. The two training updates are applied in order, as functional updates are.
- Rendering is not modelled: JSX, CSS classes, the header image, the numeric score cell and date formatting (`toLocaleString`). `alert` appears only as `HandleNext`'s `alerted` result, and `console.log` only as the record `HandleSubmit` returns.
- `crypto.randomUUID`, `new Date()` and `parseInt` are parameters: an id sequence, a `Timestamp` and a `ParseResult`. Freshness and distinctness of ids are preconditions of the uniqueness lemmas.
- Step1ProjectInfo, the `PLEDGE_ITEMS` and `WORK_PERMIT_SAFETY_CHECKS` constants, and the Input, Checkbox and Spinner components are not part of this model. Project-info edits reach the record through `UpdateProjectInfo`. The constant key and label sets are parameters.
- SignaturePad is reduced to the values it reports: an image string, or '' when cleared.
- App.UpdateTraining: TypeScript lets `updateSafetyTraining` receive any field/value pairing. The model takes only the matching pairs, which are the only ones the training page sends.
- Numbers are integers. `parseInt` yields integers or NaN, and the initial counts are integers. JavaScript's -0 is folded into 0; both are falsy.

## Findings

| source | as written | input that shows it | evidently intended | confidence | as-written member | corrected member |
|---|---|---|---|---|---|---|
| components/Step5SafetyPledge.tsx:16-18 | after one item click, `agreeToAll` is "every value present in the agreements map is true" | fresh pledge (empty map); click one pledge item; the map becomes {item: true}, so `agreeToAll` is true while every other pledge item is unagreed. With a name and a signature the pledge step then passes | `agreeToAll` true only when every pledge item is agreed | high; not executed | `PledgeStep.SingleClickAgreesToAll` | `PledgeStep.ToggleAgreementOverItems` |
