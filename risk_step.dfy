/**
 * The risk-assessment page (components/Step3RiskAssessment.tsx): the editable
 * list of risk rows, each row's score colour, and the image-analysis upload
 * that appends suggested rows.
 */
module RiskStep {
  import opened Types
  import opened App
  import opened Js

  // ---------------------------------------------------------------------------
  // One row

  /** The background colour `RiskRow` gives a row. */
  datatype RiskColor = Red | Yellow | Green

  function RiskScore(item: RiskItem): int {
    item.likelihood * item.severity
  }

  /** Red from a score of 9, yellow from 4, green below. */
  function Band(item: RiskItem): (c: RiskColor)
    ensures c == Red <==> RiskScore(item) >= 9
    ensures c == Green <==> RiskScore(item) < 4
  {
    var score := RiskScore(item);
    if score >= 9 then Red else if score >= 4 then Yellow else Green
  }

  function ColorRank(c: RiskColor): nat {
    match c
    case Green => 0
    case Yellow => 1
    case Red => 2
  }

  /** A higher score never gets a milder colour. */
  lemma BandMonotone(a: RiskItem, b: RiskItem)
    requires RiskScore(a) <= RiskScore(b)
    ensures ColorRank(Band(a)) <= ColorRank(Band(b))
  {
  }

  /** `parseInt(value) || 1`: a falsy parse becomes 1, any other number is kept, even outside 1..5. */
  function RatingInput(p: ParseResult): (r: int)
    ensures r != 0
    ensures FalsyNumber(p) ==> r == 1
    ensures !FalsyNumber(p) ==> r == p.n
  {
    OrFallback(p, 1)
  }

  /** The number inputs' min/max attributes do not clamp what is stored. */
  lemma RatingInputNotClamped()
    ensures RatingInput(Int(7)) == 7 && RatingInput(Int(-2)) == -2
    ensures RatingInput(NaN) == 1 && RatingInput(Int(0)) == 1
  {
  }

  /** The edits a row's inputs send through `onUpdate`. */
  datatype RowEdit =
    | EditLocation(text: string)
    | EditTask(text: string)
    | EditHazard(text: string)
    | EditSafetyMeasures(text: string)
    | EditLikelihood(parsed: ParseResult)
    | EditSeverity(parsed: ParseResult)
    | EditReductionMeasures(text: string)

  /** `{ ...item, [property]: value }`: the row keeps its id. */
  function EditedRow(item: RiskItem, e: RowEdit): (r: RiskItem)
    ensures r.id == item.id
    ensures e.EditLocation? ==> r == item.(location := e.text)
    ensures e.EditTask? ==> r == item.(task := e.text)
    ensures e.EditHazard? ==> r == item.(hazard := e.text)
    ensures e.EditSafetyMeasures? ==> r == item.(safetyMeasures := e.text)
    ensures e.EditReductionMeasures? ==> r == item.(reductionMeasures := e.text)
    ensures e.EditLikelihood? ==> r == item.(likelihood := RatingInput(e.parsed))
    ensures e.EditSeverity? ==> r == item.(severity := RatingInput(e.parsed))
  {
    match e
    case EditLocation(t) => item.(location := t)
    case EditTask(t) => item.(task := t)
    case EditHazard(t) => item.(hazard := t)
    case EditSafetyMeasures(t) => item.(safetyMeasures := t)
    case EditLikelihood(p) => item.(likelihood := RatingInput(p))
    case EditSeverity(p) => item.(severity := RatingInput(p))
    case EditReductionMeasures(t) => item.(reductionMeasures := t)
  }

  // ---------------------------------------------------------------------------
  // The list

  function Ids(items: RiskAssessment): (ids: seq<string>)
    ensures |ids| == |items|
    ensures forall i :: 0 <= i < |items| ==> ids[i] == items[i].id
  {
    seq(|items|, i requires 0 <= i < |items| => items[i].id)
  }

  predicate UniqueIds(items: RiskAssessment) {
    forall i, j :: 0 <= i < j < |items| ==> items[i].id != items[j].id
  }

  /** The row `addRow` creates: empty texts, likelihood and severity 1. */
  function BlankRow(id: string): RiskItem {
    RiskItem.RiskItem(id, "", "", "", "", 1, 1, "")
  }

  /** `addRow`: one blank row at the end, the existing rows untouched. */
  function AddRow(items: RiskAssessment, freshId: string): (r: RiskAssessment)
    ensures |r| == |items| + 1 && r[..|items|] == items
    ensures r[|items|] == RiskItem.RiskItem(freshId, "", "", "", "", 1, 1, "")
    ensures Band(r[|items|]) == Green
    ensures !RiskAssessmentValid(r)
  {
    var r := items + [BlankRow(freshId)];
    assert !RiskItemComplete(r[|items|]);
    r
  }

  /** A fresh id keeps the ids unique. */
  lemma AddRowKeepsIdsUnique(items: RiskAssessment, freshId: string)
    requires UniqueIds(items) && freshId !in Ids(items)
    ensures UniqueIds(AddRow(items, freshId))
  {
    var r := AddRow(items, freshId);
    forall i, j | 0 <= i < j < |r| ensures r[i].id != r[j].id {
      if j == |items| {
        assert Ids(items)[i] == r[i].id;
      }
    }
  }

  /** `updateRow`: every row whose id is the edited row's id is replaced by it. */
  function UpdateRow(items: RiskAssessment, updated: RiskItem): (r: RiskAssessment)
    ensures |r| == |items| && Ids(r) == Ids(items)
    ensures forall i :: 0 <= i < |items| && items[i].id != updated.id ==> r[i] == items[i]
    ensures forall i :: 0 <= i < |items| && items[i].id == updated.id ==> r[i] == updated
  {
    seq(|items|, i requires 0 <= i < |items| => if items[i].id == updated.id then updated else items[i])
  }

  /** An id that is not in the list leaves it as it is. */
  lemma UpdateRowUnknownId(items: RiskAssessment, updated: RiskItem)
    requires updated.id !in Ids(items)
    ensures UpdateRow(items, updated) == items
  {
    var r := UpdateRow(items, updated);
    forall i | 0 <= i < |items| ensures r[i] == items[i] {
      assert Ids(items)[i] == items[i].id;
    }
  }

  /** With unique ids, editing row `k` through its inputs replaces that row and no other. */
  lemma EditRowReplacesOnlyIt(items: RiskAssessment, k: nat, e: RowEdit)
    requires UniqueIds(items) && k < |items|
    ensures UpdateRow(items, EditedRow(items[k], e)) == items[k := EditedRow(items[k], e)]
  {
  }

  /** `removeRow`: `filter(item => item.id !== id)`. */
  function RemoveRow(items: RiskAssessment, id: string): (r: RiskAssessment)
    ensures |r| <= |items|
  {
    if items == [] then []
    else (if items[0].id != id then [items[0]] else []) + RemoveRow(items[1..], id)
  }

  /** The rows that remain are exactly the rows whose id differs from `id`. */
  lemma {:induction false} RemoveRowMembers(items: RiskAssessment, id: string, x: RiskItem)
    ensures x in RemoveRow(items, id) <==> x in items && x.id != id
  {
    if items != [] {
      RemoveRowMembers(items[1..], id, x);
      assert items == [items[0]] + items[1..];
    }
  }

  /** Removing an id that is not in the list leaves it as it is. */
  lemma {:induction false} RemoveRowUnknownId(items: RiskAssessment, id: string)
    requires id !in Ids(items)
    ensures RemoveRow(items, id) == items
  {
    if items != [] {
      assert Ids(items)[0] == items[0].id;
      assert id !in Ids(items[1..]) by {
        forall i | 0 <= i < |items| - 1 ensures Ids(items[1..])[i] != id {
          assert Ids(items)[i + 1] == items[i + 1].id;
        }
      }
      RemoveRowUnknownId(items[1..], id);
    }
  }

  /** Filtering distributes over concatenation: the rows that remain keep their order. */
  lemma {:induction false} RemoveRowConcat(a: RiskAssessment, b: RiskAssessment, id: string)
    ensures RemoveRow(a + b, id) == RemoveRow(a, id) + RemoveRow(b, id)
  {
    if a == [] {
      assert a + b == b;
    } else {
      assert (a + b)[0] == a[0];
      assert (a + b)[1..] == a[1..] + b;
      RemoveRowConcat(a[1..], b, id);
    }
  }

  /** Removing the id of the one row that carries it leaves the rows around it. */
  lemma {:induction false} RemoveRowAround(before: RiskAssessment, x: RiskItem, after: RiskAssessment)
    requires x.id !in Ids(before) && x.id !in Ids(after)
    ensures RemoveRow(before + ([x] + after), x.id) == before + after
  {
    var rx := RemoveRow([x] + after, x.id);
    RemoveRowConcat([x], after, x.id);
    assert [x][1..] == [];
    assert RemoveRow([x], x.id) == [];
    RemoveRowUnknownId(after, x.id);
    assert rx == after;
    RemoveRowConcat(before, [x] + after, x.id);
    RemoveRowUnknownId(before, x.id);
  }

  /** With unique ids, the id of row `k` occurs neither before nor after it. */
  lemma {:induction false} IdOccursOnlyAt(items: RiskAssessment, k: nat)
    requires UniqueIds(items) && k < |items|
    ensures items[k].id !in Ids(items[..k]) && items[k].id !in Ids(items[k + 1..])
  {
    var before, after := Ids(items[..k]), Ids(items[k + 1..]);
    forall i | 0 <= i < |before| ensures before[i] != items[k].id {
      assert before[i] == items[i].id;
    }
    forall i | 0 <= i < |after| ensures after[i] != items[k].id {
      assert after[i] == items[k + 1 + i].id;
    }
  }

  /** With unique ids, removing a row's id removes that row and nothing else. */
  lemma {:induction false} RemoveRowRemovesExactlyOne(items: RiskAssessment, k: nat)
    requires UniqueIds(items) && k < |items|
    ensures RemoveRow(items, items[k].id) == items[..k] + items[k + 1..]
  {
    var before, x, after := items[..k], items[k], items[k + 1..];
    IdOccursOnlyAt(items, k);
    assert items == before + ([x] + after);
    RemoveRowAround(before, x, after);
  }

  /** Removing rows never makes a valid list invalid. */
  lemma RemoveRowKeepsValidity(items: RiskAssessment, id: string)
    requires RiskAssessmentValid(items)
    ensures RiskAssessmentValid(RemoveRow(items, id))
  {
    var r := RemoveRow(items, id);
    forall i | 0 <= i < |r| ensures RiskItemComplete(r[i]) {
      RemoveRowMembers(items, id, r[i]);
    }
  }

  /** An id absent from a list stays absent after a removal. */
  lemma RemoveRowKeepsIdAbsent(items: RiskAssessment, id: string, other: string)
    requires other !in Ids(items)
    ensures other !in Ids(RemoveRow(items, id))
  {
    var r := RemoveRow(items, id);
    forall j | 0 <= j < |r| ensures r[j].id != other {
      RemoveRowMembers(items, id, r[j]);
      var m :| 0 <= m < |items| && items[m] == r[j];
      assert Ids(items)[m] == items[m].id;
    }
  }

  /** Putting a row with a new id in front of a list with unique ids keeps them unique. */
  lemma ConsKeepsIdsUnique(x: RiskItem, rest: RiskAssessment)
    requires UniqueIds(rest) && x.id !in Ids(rest)
    ensures UniqueIds([x] + rest)
  {
    var r := [x] + rest;
    forall i, j | 0 <= i < j < |r| ensures r[i].id != r[j].id {
      assert r[j] == rest[j - 1] && Ids(rest)[j - 1] == rest[j - 1].id;
      if i > 0 {
        assert r[i] == rest[i - 1];
      }
    }
  }

  /** Removing rows keeps the ids unique. */
  lemma {:induction false} RemoveRowKeepsIdsUnique(items: RiskAssessment, id: string)
    requires UniqueIds(items)
    ensures UniqueIds(RemoveRow(items, id))
  {
    if items != [] {
      var rest := RemoveRow(items[1..], id);
      assert UniqueIds(items[1..]) by {
        forall i, j | 0 <= i < j < |items| - 1 ensures items[1..][i].id != items[1..][j].id {
          assert items[1..][i] == items[i + 1] && items[1..][j] == items[j + 1];
        }
      }
      RemoveRowKeepsIdsUnique(items[1..], id);
      if items[0].id != id {
        IdOccursOnlyAt(items, 0);
        RemoveRowKeepsIdAbsent(items[1..], id, items[0].id);
        ConsKeepsIdsUnique(items[0], rest);
      }
    }
  }

  // ---------------------------------------------------------------------------
  // Image analysis

  /** What the analysis service yields: a work type and hazards, or an error with its message. */
  datatype Analysis = Analyzed(workType: string, hazards: seq<string>) | AnalysisFailed(message: string)

  /** The location given to every suggested row. */
  const AnalysisLocation: string := "이미지 분석 결과"

  /** Shown when the error carries no message. */
  const UnknownError: string := "알 수 없는 오류가 발생했습니다."

  /** The suggested rows: one per hazard in order, task = work type, likelihood and severity 3. */
  function AnalysisRows(workType: string, hazards: seq<string>, ids: seq<string>): (rows: RiskAssessment)
    requires |ids| == |hazards|
    ensures |rows| == |hazards|
    ensures forall i :: 0 <= i < |rows| ==>
      rows[i] == RiskItem.RiskItem(ids[i], AnalysisLocation, workType, hazards[i], "", 3, 3, "")
  {
    seq(|hazards|, i requires 0 <= i < |hazards| => RiskItem.RiskItem(ids[i], AnalysisLocation, workType, hazards[i], "", 3, 3, ""))
  }

  /** Suggested rows score 9 (red) and, lacking reduction measures, keep the step from passing. */
  lemma AnalysisRowsNeedCompletion(workType: string, hazards: seq<string>, ids: seq<string>)
    requires |ids| == |hazards| && hazards != []
    ensures var rows := AnalysisRows(workType, hazards, ids);
      (forall i :: 0 <= i < |rows| ==> Band(rows[i]) == Red) && !RiskAssessmentValid(rows)
  {
    var rows := AnalysisRows(workType, hazards, ids);
    assert !RiskItemComplete(rows[0]);
  }

  /** The list passed to `setData`, or `None` when the analysis failed and `setData` is not called. */
  function ListAfterAnalysis(items: RiskAssessment, outcome: Analysis, ids: seq<string>): (r: Option<RiskAssessment>)
    requires outcome.Analyzed? ==> |ids| == |outcome.hazards|
    ensures r.None? <==> outcome.AnalysisFailed?
    ensures r.Some? ==> |r.value| == |items| + |outcome.hazards| && r.value[..|items|] == items
    ensures r.Some? ==> r.value == items + AnalysisRows(outcome.workType, outcome.hazards, ids)
  {
    match outcome
    case Analyzed(workType, hazards) =>
      var r := items + AnalysisRows(workType, hazards, ids);
      assert r[..|items|] == items;
      Some(r)
    case AnalysisFailed(_) => None
  }

  predicate DistinctIds(ids: seq<string>) {
    forall i, j :: 0 <= i < j < |ids| ==> ids[i] != ids[j]
  }

  /** Distinct ids that are new to the list keep the ids unique after the append. */
  lemma AnalysisAppendKeepsIdsUnique(items: RiskAssessment, workType: string, hazards: seq<string>, ids: seq<string>)
    requires |ids| == |hazards| && UniqueIds(items) && DistinctIds(ids)
    requires forall i :: 0 <= i < |ids| ==> ids[i] !in Ids(items)
    ensures UniqueIds(items + AnalysisRows(workType, hazards, ids))
  {
    var rows := AnalysisRows(workType, hazards, ids);
    var r := items + rows;
    forall i, j | 0 <= i < j < |r| ensures r[i].id != r[j].id {
      if j >= |items| {
        assert r[j].id == ids[j - |items|];
        if i < |items| {
          assert Ids(items)[i] == r[i].id;
        } else {
          assert r[i].id == ids[i - |items|];
        }
      }
    }
  }

  /** An analysis that finds two hazards in a welding image appends exactly two rows. */
  lemma WeldingExample(items: RiskAssessment)
    ensures var r := ListAfterAnalysis(items, Analyzed("welding", ["fumes", "sparks"]), ["id1", "id2"]);
      && r.Some? && |r.value| == |items| + 2
      && r.value[|items|].task == "welding" && r.value[|items| + 1].task == "welding"
      && r.value[|items|].hazard == "fumes" && r.value[|items| + 1].hazard == "sparks"
      && r.value[|items|].likelihood == 3 && r.value[|items|].severity == 3
      && r.value[|items|].id != r.value[|items| + 1].id
  {
    var rows := AnalysisRows("welding", ["fumes", "sparks"], ["id1", "id2"]);
    assert (items + rows)[|items|] == rows[0];
    assert (items + rows)[|items| + 1] == rows[1];
  }

  /** The message shown for a failed analysis: the error's own, or a generic one. */
  function ErrorText(message: string): (t: string)
    ensures t != ""
    ensures message != "" ==> t == message
    ensures message == "" ==> t == UnknownError
  {
    if message == "" then UnknownError else message
  }

  /** The page's own state around an upload. */
  class RiskEditor {
    var isLoading: bool
    var error: Option<string>
    var fileName: Option<string>

    constructor ()
      ensures !isLoading && error == None && fileName == None
    {
      isLoading := false;
      error := None;
      fileName := None;
    }

    /** Before the service is awaited: spinner on, previous error cleared, file name shown. */
    method BeginAnalysis(name: string)
      modifies this
      ensures isLoading && error == None && fileName == Some(name)
    {
      isLoading := true;
      error := None;
      fileName := Some(name);
    }

    /**
     * After the service answers: on success the suggested rows are appended to
     * `items` (the list the page was showing) through `setRiskAssessment`; on
     * failure only the error is recorded. Either way loading ends.
     */
    method FinishAnalysis(app: Wizard, items: RiskAssessment, outcome: Analysis, ids: seq<string>)
      requires outcome.Analyzed? ==> |ids| == |outcome.hazards|
      modifies this, app
      ensures !isLoading && fileName == old(fileName)
      ensures error == if outcome.AnalysisFailed? then Some(ErrorText(outcome.message)) else old(error)
      ensures app.currentStep == old(app.currentStep)
      ensures outcome.Analyzed? ==> app.formData == old(app.formData).(riskAssessment :=
        items + AnalysisRows(outcome.workType, outcome.hazards, ids))
      ensures outcome.AnalysisFailed? ==> app.formData == old(app.formData)
    {
      match outcome {
        case Analyzed(workType, hazards) =>
          app.SetRiskAssessment(items + AnalysisRows(workType, hazards, ids));
        case AnalysisFailed(message) =>
          error := Some(ErrorText(message));
      }
      isLoading := false;
    }

    /**
     * `handleFileChange`: nothing happens without a file; otherwise the
     * analysis runs and its rows are appended to the list as it stood when
     * the file was chosen, regardless of the step the wizard is on by then.
     */
    method HandleFileChange(app: Wizard, file: Option<string>, outcome: Analysis, ids: seq<string>)
      requires outcome.Analyzed? ==> |ids| == |outcome.hazards|
      modifies this, app
      ensures file.None? ==> isLoading == old(isLoading) && error == old(error) && fileName == old(fileName)
      ensures file.None? ==> app.formData == old(app.formData)
      ensures file.Some? ==> !isLoading && fileName == file
      ensures file.Some? ==> error == if outcome.AnalysisFailed? then Some(ErrorText(outcome.message)) else None
      ensures file.Some? ==> app.formData == old(app.formData).(riskAssessment :=
        Pick(ListAfterAnalysis(old(app.formData.riskAssessment), outcome, ids), old(app.formData.riskAssessment)))
      ensures app.currentStep == old(app.currentStep)
    {
      if file.Some? {
        var items := app.formData.riskAssessment;
        BeginAnalysis(file.value);
        FinishAnalysis(app, items, outcome, ids);
      }
    }
  }
}
