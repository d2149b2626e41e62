/**
 * The work-permit page (components/Step4WorkPermit.tsx): every input sends a
 * one-property update to `updateWorkPermit`; the safety-check boxes toggle a
 * check's membership in a list.
 */
module PermitStep {
  import opened Types
  import opened App
  import opened Js

  // ---------------------------------------------------------------------------
  // Safety-check toggle

  /** `filter(c => c !== check)`. */
  function Without(checks: seq<string>, check: string): (r: seq<string>)
    ensures |r| <= |checks|
  {
    if checks == [] then []
    else (if checks[0] != check then [checks[0]] else []) + Without(checks[1..], check)
  }

  /** Exactly the other labels remain. */
  lemma {:induction false} WithoutMembers(checks: seq<string>, check: string, x: string)
    ensures x in Without(checks, check) <==> x in checks && x != check
  {
    if checks != [] {
      WithoutMembers(checks[1..], check, x);
      assert checks == [checks[0]] + checks[1..];
    }
  }

  /** Filtering out a check that is absent changes nothing. */
  lemma {:induction false} WithoutAbsent(checks: seq<string>, check: string)
    requires check !in checks
    ensures Without(checks, check) == checks
  {
    if checks != [] {
      assert checks == [checks[0]] + checks[1..];
      WithoutAbsent(checks[1..], check);
    }
  }

  /** Filtering distributes over concatenation, so the remaining labels keep their order. */
  lemma {:induction false} WithoutConcat(a: seq<string>, b: seq<string>, check: string)
    ensures Without(a + b, check) == Without(a, check) + Without(b, check)
  {
    if a == [] {
      assert a + b == b;
    } else {
      assert (a + b)[0] == a[0];
      assert (a + b)[1..] == a[1..] + b;
      WithoutConcat(a[1..], b, check);
    }
  }

  /** `handleCheckChange`'s new list: remove every occurrence of a present check, append an absent one. */
  function ToggleCheck(checks: seq<string>, check: string): (r: seq<string>)
    ensures check in r <==> check !in checks
    ensures forall x :: x != check ==> (x in r <==> x in checks)
    ensures check !in checks ==> r == checks + [check]
    ensures check in checks ==> r == Without(checks, check)
  {
    if check in checks then
      var r := Without(checks, check);
      WithoutMembers(checks, check, check);
      assert forall x :: x in r <==> x in checks && x != check by {
        forall x ensures x in r <==> x in checks && x != check {
          WithoutMembers(checks, check, x);
        }
      }
      r
    else
      checks + [check]
  }

  /** Toggling an absent check twice gives back the original list. */
  lemma ToggleTwiceRestoresAbsent(checks: seq<string>, check: string)
    requires check !in checks
    ensures ToggleCheck(ToggleCheck(checks, check), check) == checks
  {
    WithoutConcat(checks, [check], check);
    WithoutAbsent(checks, check);
    assert Without([check], check) == [] + Without([], check);
  }

  /**
   * Toggling a present check twice is not a round trip: all its copies are
   * removed and one is appended at the end.
   */
  lemma ToggleTwiceMovesPresentToEnd(checks: seq<string>, check: string)
    requires check in checks
    ensures ToggleCheck(ToggleCheck(checks, check), check) == Without(checks, check) + [check]
  {
    WithoutMembers(checks, check, check);
  }

  predicate NoDuplicates(s: seq<string>) {
    forall i, j :: 0 <= i < j < |s| ==> s[i] != s[j]
  }

  /** Filtering keeps a duplicate-free list duplicate-free. */
  lemma {:induction false} WithoutKeepsNoDuplicates(checks: seq<string>, check: string)
    requires NoDuplicates(checks)
    ensures NoDuplicates(Without(checks, check))
  {
    if checks != [] {
      var rest := Without(checks[1..], check);
      WithoutKeepsNoDuplicates(checks[1..], check);
      if checks[0] != check {
        var r := [checks[0]] + rest;
        forall i, j | 0 <= i < j < |r| ensures r[i] != r[j] {
          if i == 0 {
            WithoutMembers(checks[1..], check, r[j]);
            var m :| 0 <= m < |checks| - 1 && checks[1..][m] == r[j];
            assert checks[m + 1] == r[j];
          } else {
            assert r[i] == rest[i - 1] && r[j] == rest[j - 1];
          }
        }
      }
    }
  }

  /** A toggle never introduces a duplicate, so the list, which starts empty, never holds one. */
  lemma ToggleKeepsNoDuplicates(checks: seq<string>, check: string)
    requires NoDuplicates(checks)
    ensures NoDuplicates(ToggleCheck(checks, check))
  {
    if check in checks {
      WithoutKeepsNoDuplicates(checks, check);
    }
  }

  /** The update a safety-check box sends: only `safetyChecks`. */
  function TogglePatch(w: WorkPermit, check: string): (d: WorkPermitPatch)
    ensures forall w' :: MergeWorkPermit(w', d) == w'.(safetyChecks := ToggleCheck(w.safetyChecks, check))
  {
    NoPermitChange.(safetyChecks := Some(ToggleCheck(w.safetyChecks, check)))
  }

  // ---------------------------------------------------------------------------
  // The other inputs

  /** The two radio buttons of the work type. */
  datatype RadioChoice = GeneralRadio | HazardousRadio

  /** A radio button sets `type` to its own value, never back to ''. */
  function RadioPatch(c: RadioChoice): (d: WorkPermitPatch)
    ensures d.kind.Some? && d.kind.value != Unset
    ensures d.kind.value.Literal() == (if c == GeneralRadio then "general" else "hazardous")
    ensures d.(kind := None) == NoPermitChange
  {
    NoPermitChange.(kind := Some(if c == GeneralRadio then General else Hazardous))
  }

  /** `parseInt(value) || 0`: a falsy parse stores 0 workers. */
  function WorkerCountPatch(p: ParseResult): (d: WorkPermitPatch)
    ensures d.workerCount.Some? && d.(workerCount := None) == NoPermitChange
    ensures FalsyNumber(p) ==> d.workerCount.value == 0
    ensures !FalsyNumber(p) ==> d.workerCount.value == p.n
  {
    NoPermitChange.(workerCount := Some(OrFallback(p, 0)))
  }

  /** An unreadable or zero worker count keeps the permit step from passing, whatever else is filled in. */
  lemma FalsyWorkerCountBlocksStep(w: WorkPermit, p: ParseResult)
    requires FalsyNumber(p)
    ensures !WorkPermitValid(MergeWorkPermit(w, WorkerCountPatch(p)))
  {
  }

  /** One worker with every required text filled in passes; zero workers does not. */
  lemma WorkerCountExample(w: WorkPermit)
    requires w.kind != Unset && w.workDate != "" && w.workStartTime != "" && w.workEndTime != ""
    requires w.location != "" && w.description != ""
    ensures WorkPermitValid(MergeWorkPermit(w, WorkerCountPatch(Int(1))))
    ensures !WorkPermitValid(MergeWorkPermit(w, WorkerCountPatch(Int(0))))
  {
  }

  /** The text inputs and the two attachment boxes. */
  datatype PermitInput =
    | WorkDateInput(text: string)
    | StartTimeInput(text: string)
    | EndTimeInput(text: string)
    | LocationInput(text: string)
    | DescriptionInput(text: string)
    | ProcedureDocBox(checked: bool)
    | RiskAssessmentBox(checked: bool)

  /** Each input carries its own property only, and the merge writes exactly that property. */
  function InputPatch(i: PermitInput): (d: WorkPermitPatch)
    ensures i.WorkDateInput? ==> forall w :: MergeWorkPermit(w, d) == w.(workDate := i.text)
    ensures i.StartTimeInput? ==> forall w :: MergeWorkPermit(w, d) == w.(workStartTime := i.text)
    ensures i.EndTimeInput? ==> forall w :: MergeWorkPermit(w, d) == w.(workEndTime := i.text)
    ensures i.LocationInput? ==> forall w :: MergeWorkPermit(w, d) == w.(location := i.text)
    ensures i.DescriptionInput? ==> forall w :: MergeWorkPermit(w, d) == w.(description := i.text)
    ensures i.ProcedureDocBox? ==> forall w :: MergeWorkPermit(w, d) == w.(hasProcedureDoc := i.checked)
    ensures i.RiskAssessmentBox? ==> forall w :: MergeWorkPermit(w, d) == w.(hasRiskAssessment := i.checked)
  {
    match i
    case WorkDateInput(t) => NoPermitChange.(workDate := Some(t))
    case StartTimeInput(t) => NoPermitChange.(workStartTime := Some(t))
    case EndTimeInput(t) => NoPermitChange.(workEndTime := Some(t))
    case LocationInput(t) => NoPermitChange.(location := Some(t))
    case DescriptionInput(t) => NoPermitChange.(description := Some(t))
    case ProcedureDocBox(b) => NoPermitChange.(hasProcedureDoc := Some(b))
    case RiskAssessmentBox(b) => NoPermitChange.(hasRiskAssessment := Some(b))
  }
}
