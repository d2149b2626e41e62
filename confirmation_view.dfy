/**
 * The review page (components/Step6Confirmation.tsx): what each field of the
 * summary shows for a given record.
 */
module ConfirmationView {
  import opened Types
  import opened App
  import opened Js

  /** A value handed to `Field`: a string, a number, `undefined`, or an `<img>` element with its source. */
  datatype FieldValue = Text(s: string) | Count(n: int) | Undefined | Image(src: string)

  /** JavaScript falsiness of those values. */
  predicate Falsy(v: FieldValue) {
    v == Text("") || v == Count(0) || v == Undefined
  }

  /** `value || <placeholder>`: `NotProvided` is the grey "제공되지 않음" text. */
  datatype FieldView = NotProvided | Shown(value: FieldValue)

  function Field(v: FieldValue): (f: FieldView)
    ensures f.NotProvided? <==> Falsy(v)
    ensures f.Shown? ==> f.value == v
  {
    if Falsy(v) then NotProvided else Shown(v)
  }

  /** The location line: the free text when the location is "other", else the location. */
  function DisplayedLocation(p: ProjectInfo): (v: FieldValue)
    ensures p.location == OtherLocation ==> v == (if p.locationOther.Some? then Text(p.locationOther.value) else Undefined)
    ensures p.location != OtherLocation ==> v == Text(p.location)
  {
    if p.location == OtherLocation then
      (if p.locationOther.Some? then Text(p.locationOther.value) else Undefined)
    else Text(p.location)
  }

  /** A project-info slice that passed its step shows a location rather than the placeholder. */
  lemma ValidProjectInfoShowsLocation(p: ProjectInfo)
    requires ProjectInfoValid(p)
    ensures Field(DisplayedLocation(p)).Shown?
  {
  }

  /** The date/time line: '' without a date, else date, start, '~' and end, trimmed. */
  function Schedule(w: WorkPermit): (s: string)
    ensures w.workDate == "" ==> s == ""
    ensures w.workDate != "" ==> s != ""
    ensures w.workDate != "" ==> s == Trim(w.workDate + " " + w.workStartTime + " ~ " + w.workEndTime)
    ensures s == [] || (!IsWhitespace(s[0]) && !IsWhitespace(s[|s| - 1]))
  {
    if w.workDate == "" then ""
    else
      var line := w.workDate + " " + w.workStartTime + " ~ " + w.workEndTime;
      var tilde := |w.workDate| + 1 + |w.workStartTime| + 1;
      assert line[tilde] == '~';
      TrimKeepsNonWhitespace(line, tilde);
      Trim(line)
  }

  /** The date/time line shows the placeholder exactly when no work date is set. */
  lemma ScheduleShownIffDate(w: WorkPermit)
    ensures Field(Text(Schedule(w))).NotProvided? <==> w.workDate == ""
  {
  }

  /** When date and end time are set and carry no outer whitespace, trimming removes nothing. */
  lemma ScheduleUntrimmed(w: WorkPermit)
    requires w.workDate != "" && !IsWhitespace(w.workDate[0])
    requires w.workEndTime != "" && !IsWhitespace(w.workEndTime[|w.workEndTime| - 1])
    ensures Schedule(w) == w.workDate + " " + w.workStartTime + " ~ " + w.workEndTime
  {
    var line := w.workDate + " " + w.workStartTime + " ~ " + w.workEndTime;
    assert line[0] == w.workDate[0];
    assert line[|line| - 1] == w.workEndTime[|w.workEndTime| - 1];
    TrimIdentity(line);
  }

  /** Without an end time the trailing blank is trimmed and the line ends at '~'. */
  lemma ScheduleWithoutEndTime(w: WorkPermit)
    requires w.workDate != "" && !IsWhitespace(w.workDate[0]) && w.workEndTime == ""
    ensures Schedule(w) == w.workDate + " " + w.workStartTime + " ~"
  {
    var line := w.workDate + " " + w.workStartTime + " ~ " + w.workEndTime;
    var shown := w.workDate + " " + w.workStartTime + " ~";
    assert line == shown + " ";
    assert line[0] == w.workDate[0];
    assert TrimStart(line) == line;
    assert line[..|line| - 1] == shown;
    assert TrimEnd(line) == TrimEnd(shown);
    TrimIdentity(shown);
    assert shown[0] == w.workDate[0];
  }

  /** One bullet of the risk section: `task: hazard`. */
  datatype RiskLine = RiskLine(task: string, hazard: string)

  datatype RiskSection = NoRiskItems | RiskLines(lines: seq<RiskLine>)

  /** One line per row, in list order, or the "no risk items" text for an empty list. */
  function RiskSectionFor(items: RiskAssessment): (r: RiskSection)
    ensures r.NoRiskItems? <==> items == []
    ensures r.RiskLines? ==> |r.lines| == |items|
    ensures r.RiskLines? ==> forall i :: 0 <= i < |items| ==> r.lines[i] == RiskLine(items[i].task, items[i].hazard)
  {
    if |items| > 0 then RiskLines(seq(|items|, i requires 0 <= i < |items| => RiskLine(items[i].task, items[i].hazard)))
    else NoRiskItems
  }

  /** The training line: completed with its date, or "not completed". */
  datatype TrainingLine = CompletedOn(date: Option<Timestamp>) | NotCompleted

  function TrainingLineFor(t: SafetyTraining): (l: TrainingLine)
    ensures l.NotCompleted? <==> !t.completed
    ensures l.CompletedOn? ==> l.date == t.completionDate
  {
    if t.completed then CompletedOn(t.completionDate) else NotCompleted
  }

  /** "예" or "아니오" for the agree-to-all flag; never the placeholder. */
  function AgreeToAllText(agreeToAll: bool): (s: string)
    ensures s != "" && Field(Text(s)).Shown?
    ensures agreeToAll <==> s == "예"
    ensures !agreeToAll ==> s == "아니오"
  {
    if agreeToAll then "예" else "아니오"
  }

  /** The text drawn instead of an image when nothing was signed. */
  const NoSignatureText: string := "서명 없음"

  /** The signature line: the image, or the "no signature" text (both truthy, so never the placeholder). */
  function SignatureValue(signature: string): (v: FieldValue)
    ensures !Falsy(v)
    ensures signature != "" ==> v == Image(signature)
    ensures signature == "" ==> v == Text(NoSignatureText)
  {
    if signature != "" then Image(signature) else Text(NoSignatureText)
  }

  /** Everything the review page shows. */
  datatype Page = Page(
    location: FieldView,
    constructionName: FieldView,
    companyName: FieldView,
    contactPerson: FieldView,
    training: TrainingLine,
    risks: RiskSection,
    permitType: FieldView,
    schedule: FieldView,
    permitLocation: FieldView,
    description: FieldView,
    workerCount: FieldView,
    name: FieldView,
    agreeToAll: FieldView,
    signature: FieldView)

  /** The review page: every line is its value through `Field`, or its own section. */
  function PageFor(d: FormData): (pg: Page)
    ensures pg.location == Field(DisplayedLocation(d.projectInfo))
    ensures pg.constructionName == Field(Text(d.projectInfo.constructionName))
    ensures pg.companyName == Field(Text(d.projectInfo.companyName))
    ensures pg.contactPerson == Field(Text(d.projectInfo.contactPerson))
    ensures pg.training == TrainingLineFor(d.safetyTraining)
    ensures pg.risks == RiskSectionFor(d.riskAssessment)
    ensures pg.permitType.NotProvided? <==> d.workPermit.kind == Unset
    ensures pg.permitType.Shown? ==> pg.permitType.value == Text(d.workPermit.kind.Literal())
    ensures pg.schedule == Field(Text(Schedule(d.workPermit)))
    ensures pg.permitLocation == Field(Text(d.workPermit.location))
    ensures pg.description == Field(Text(d.workPermit.description))
    ensures pg.workerCount.NotProvided? <==> d.workPermit.workerCount == 0
    ensures pg.workerCount.Shown? ==> pg.workerCount.value == Count(d.workPermit.workerCount)
    ensures pg.name == Field(Text(d.safetyPledge.name))
    ensures pg.agreeToAll == Shown(Text(AgreeToAllText(d.safetyPledge.agreeToAll)))
    ensures pg.signature == Shown(SignatureValue(d.safetyPledge.signature))
  {
    Page(
      Field(DisplayedLocation(d.projectInfo)),
      Field(Text(d.projectInfo.constructionName)),
      Field(Text(d.projectInfo.companyName)),
      Field(Text(d.projectInfo.contactPerson)),
      TrainingLineFor(d.safetyTraining),
      RiskSectionFor(d.riskAssessment),
      Field(Text(d.workPermit.kind.Literal())),
      Field(Text(Schedule(d.workPermit))),
      Field(Text(d.workPermit.location)),
      Field(Text(d.workPermit.description)),
      Field(Count(d.workPermit.workerCount)),
      Field(Text(d.safetyPledge.name)),
      Field(Text(AgreeToAllText(d.safetyPledge.agreeToAll))),
      Field(SignatureValue(d.safetyPledge.signature)))
  }

  /**
   * A record whose project-info, work-permit and pledge slices passed their
   * steps shows no placeholder anywhere, and the training line is "completed"
   * when the training step passed.
   */
  lemma ValidRecordShowsEverything(d: FormData)
    requires ProjectInfoValid(d.projectInfo) && WorkPermitValid(d.workPermit) && SafetyPledgeValid(d.safetyPledge)
    requires d.safetyTraining.completed
    ensures var pg := PageFor(d);
      && pg.location.Shown? && pg.constructionName.Shown? && pg.companyName.Shown? && pg.contactPerson.Shown?
      && pg.training.CompletedOn?
      && pg.permitType.Shown? && pg.schedule.Shown? && pg.permitLocation.Shown? && pg.description.Shown?
      && pg.workerCount.Shown? && pg.name.Shown? && pg.agreeToAll.Shown? && pg.signature.Shown?
  {
    ValidProjectInfoShowsLocation(d.projectInfo);
  }
}
