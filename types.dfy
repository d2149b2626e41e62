/**
 * The records of the safety-compliance submission and the wizard's step enum
 * (types.ts). Every slice is a value: the application replaces a slice by a
 * merged copy rather than writing into it.
 */
module Types {

  datatype Option<T> = None | Some(value: T)

  /** The seven wizard steps, in order; `Ord` is the enum's numeric value. */
  datatype Step = ProjectInfo | SafetyTraining | RiskAssessment | WorkPermit
                | SafetyPledge | Confirmation | Submitted
  {
    /** Ordinals lie in 1..7, with `ProjectInfo` the least and `Submitted` the greatest. */
    function Ord(): (n: int)
      ensures 1 <= n <= 7
      ensures n == 1 <==> this == Step.ProjectInfo
      ensures n == 7 <==> this == Step.Submitted
    {
      match this
      case ProjectInfo => 1
      case SafetyTraining => 2
      case RiskAssessment => 3
      case WorkPermit => 4
      case SafetyPledge => 5
      case Confirmation => 6
      case Submitted => 7
    }
  }

  /** The step with a given ordinal; together with `Ord` it shows the ordinals are exactly 1..7. */
  function StepOf(n: int): (s: Step)
    requires 1 <= n <= 7
    ensures s.Ord() == n
  {
    if n == 1 then Step.ProjectInfo
    else if n == 2 then Step.SafetyTraining
    else if n == 3 then Step.RiskAssessment
    else if n == 4 then Step.WorkPermit
    else if n == 5 then Step.SafetyPledge
    else if n == 6 then Step.Confirmation
    else Step.Submitted
  }

  /** No two steps share an ordinal, so `StepOf` and `Ord` are inverse bijections. */
  lemma OrdInjective(a: Step, b: Step)
    requires a.Ord() == b.Ord()
    ensures a == b && StepOf(a.Ord()) == a
  {
  }

  /** `locationOther` is an optional property. */
  datatype ProjectInfo = ProjectInfo(
    location: string,
    locationOther: Option<string>,
    constructionName: string,
    companyName: string,
    contactPerson: string)

  /** A `Date`, kept abstract: only its identity matters here. */
  datatype Timestamp = Timestamp(millis: int)

  /** `completionDate` is nullable (`None`), independently of `completed` at the type level. */
  datatype SafetyTraining = SafetyTraining(completed: bool, completionDate: Option<Timestamp>)

  /** `likelihood` and `severity` are plain numbers: nothing at the type level bounds them to 1..5. */
  datatype RiskItem = RiskItem(
    id: string,
    location: string,
    task: string,
    hazard: string,
    safetyMeasures: string,
    likelihood: int,
    severity: int,
    reductionMeasures: string)

  type RiskAssessment = seq<RiskItem>

  /** The permit's `type`: `'general' | 'hazardous' | ''`. */
  datatype PermitType = General | Hazardous | Unset
  {
    /** The string the source stores; the empty string stands for "not chosen yet". */
    function Literal(): (s: string)
      ensures s == "general" || s == "hazardous" || s == ""
      ensures s == "" <==> this == Unset
    {
      match this
      case General => "general"
      case Hazardous => "hazardous"
      case Unset => ""
    }
  }

  /** `kind` is the source's `type` property (a reserved word in Dafny). */
  datatype WorkPermit = WorkPermit(
    kind: PermitType,
    workDate: string,
    workStartTime: string,
    workEndTime: string,
    location: string,
    description: string,
    workerCount: int,
    hasProcedureDoc: bool,
    hasRiskAssessment: bool,
    safetyChecks: seq<string>)

  /** `signature` is an encoded image; the empty string means "not signed". */
  datatype SafetyPledge = SafetyPledge(
    agreements: map<string, bool>,
    agreeToAll: bool,
    name: string,
    signature: string)

  datatype FormData = FormData(
    projectInfo: ProjectInfo,
    safetyTraining: SafetyTraining,
    riskAssessment: RiskAssessment,
    workPermit: WorkPermit,
    safetyPledge: SafetyPledge)
}
