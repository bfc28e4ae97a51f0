/** The entities of the KPI dashboard, its enumerations and its rating tables. */
module Types {
  import opened Wrappers

  datatype PeriodType = Weekly | Monthly | Quarterly {
    /** The string the enumeration member stands for. */
    function Value(): string {
      match this
      case Weekly => "weekly"
      case Monthly => "monthly"
      case Quarterly => "quarterly"
    }
  }

  /** The string a period type is stored as, read back. */
  function ParsePeriodType(s: string): (r: Option<PeriodType>)
    ensures r.Some? ==> r.value.Value() == s
    ensures r.None? ==> forall p: PeriodType :: p.Value() != s
  {
    if s == "weekly" then Some(Weekly)
    else if s == "monthly" then Some(Monthly)
    else if s == "quarterly" then Some(Quarterly)
    else None
  }

  /** The six evaluation levels, from fail to exceptional performance. */
  datatype Level = F | UP | PP | GP | CP | EP {
    function Value(): string {
      match this
      case F => "F"
      case UP => "UP"
      case PP => "PP"
      case GP => "GP"
      case CP => "CP"
      case EP => "EP"
    }
  }

  function ParseLevel(s: string): (r: Option<Level>)
    ensures r.Some? ==> r.value.Value() == s
    ensures r.None? ==> forall l: Level :: l.Value() != s
  {
    if s == "F" then Some(F)
    else if s == "UP" then Some(UP)
    else if s == "PP" then Some(PP)
    else if s == "GP" then Some(GP)
    else if s == "CP" then Some(CP)
    else if s == "EP" then Some(EP)
    else None
  }

  /** Parsing inverts printing: every level survives the string round trip. */
  lemma LevelRoundTrip(l: Level)
    ensures ParseLevel(l.Value()) == Some(l)
  {
  }

  lemma PeriodTypeRoundTrip(p: PeriodType)
    ensures ParsePeriodType(p.Value()) == Some(p)
  {
  }

  const Manager: string := "manager"
  const EmployeeRole: string := "employee"

  /** The level scores of a KPI evaluation, 0 for F up to 5 for EP. */
  function LevelScore(l: Level): (r: nat)
    ensures r <= 5
  {
    match l
    case F => 0
    case UP => 1
    case PP => 2
    case GP => 3
    case CP => 4
    case EP => 5
  }

  /** The position of a level in the scale F < UP < PP < GP < CP < EP. */
  function Rank(l: Level): nat {
    match l
    case F => 0
    case UP => 1
    case PP => 2
    case GP => 3
    case CP => 4
    case EP => 5
  }

  /** The scores rise strictly with the level, so a score identifies its level. */
  lemma LevelScoreStrictlyIncreasing(a: Level, b: Level)
    ensures Rank(a) < Rank(b) <==> LevelScore(a) < LevelScore(b)
    ensures LevelScore(a) == LevelScore(b) <==> a == b
  {
  }

  /** The level a score of 0..5 belongs to, the inverse of `LevelScore`. */
  function LevelOfScore(n: nat): (r: Option<Level>)
    ensures n <= 5 <==> r.Some?
    ensures r.Some? ==> LevelScore(r.value) == n
  {
    if n == 0 then Some(F)
    else if n == 1 then Some(UP)
    else if n == 2 then Some(PP)
    else if n == 3 then Some(GP)
    else if n == 4 then Some(CP)
    else if n == 5 then Some(EP)
    else None
  }

  lemma LevelOfScoreInverse(l: Level)
    ensures LevelOfScore(LevelScore(l)) == Some(l)
  {
  }

  /** The badge colour classes a level is shown with. */
  function LevelColor(l: Level): (r: string)
    ensures r != ""
  {
    match l
    case F => "bg-brand-red text-white"
    case UP => "bg-orange-500 text-white"
    case PP => "bg-yellow-500 text-black"
    case GP => "bg-lime-500 text-black"
    case CP => "bg-brand-green/80 text-white"
    case EP => "bg-brand-green text-white"
  }

  /** Every level has its own colour. */
  lemma LevelColorInjective(a: Level, b: Level)
    ensures LevelColor(a) == LevelColor(b) <==> a == b
  {
  }

  /** The raw competency scores of the annual assessment: 0, 60, 85, 100, 115, 130. */
  function CompetencyScore(l: Level): (r: nat)
    ensures r <= 130
  {
    match l
    case F => 0
    case UP => 60
    case PP => 85
    case GP => 100
    case CP => 115
    case EP => 130
  }

  /** Competency scores also rise strictly with the level. */
  lemma CompetencyScoreStrictlyIncreasing(a: Level, b: Level)
    ensures Rank(a) < Rank(b) <==> CompetencyScore(a) < CompetencyScore(b)
  {
  }

  /** `(score * weight) / 100`, the contribution of a rated item with a percentage weight. */
  function WeightedScore(score: int, weight: int): (r: real)
    ensures 0 <= score && 0 <= weight ==> 0.0 <= r
    ensures weight == 100 ==> r == score as real
    ensures weight == 0 || score == 0 ==> r == 0.0
  {
    (score * weight) as real / 100.0
  }

  /** The weighted score is monotone in the score for a non-negative weight. */
  lemma WeightedScoreMonotone(s1: int, s2: int, weight: nat)
    requires s1 <= s2
    ensures WeightedScore(s1, weight) <= WeightedScore(s2, weight)
  {
    assert s1 * weight <= s2 * weight by {
      assert (s2 - s1) * weight >= 0;
    }
  }

  datatype Department = Department(id: string, code: string, name: string, manager: string)

  /** `role` is a string: after normalisation it holds whatever the sheet held, trimmed
      and lower-cased, which need not be one of the two enumeration values. */
  datatype Employee = Employee(
    id: string, code: string, name: string, departmentId: string, position: string,
    email: string, role: string, password: Option<string>, photoUrl: Option<string>)

  /** A KPI; `evaluationRules` is the partial map from levels to rubric lines. */
  datatype Kpi = Kpi(
    id: string, code: string, name: string, activity: string, weight: int,
    period: PeriodType, description: string,
    evaluationRules: Option<map<Level, seq<string>>>)

  datatype Assignment = Assignment(
    id: string, employeeId: string, kpiId: string, weight: int, assignedDate: string)

  /** No two assignments give the same KPI to the same employee. */
  predicate UniquePairs(xs: seq<Assignment>) {
    forall i, j :: 0 <= i < j < |xs| ==>
      (xs[i].employeeId, xs[i].kpiId) != (xs[j].employeeId, xs[j].kpiId)
  }

  datatype Activity = Activity(
    id: string, kpiId: string, code: string, name: string, description: string, active: bool)

  datatype KpiRecord = KpiRecord(
    id: string, date: string, employeeId: string, kpiId: string, activityId: string,
    activityName: string, period: string, periodDetail: string, level: Level,
    score: int, weight: int, weightedScore: real, note: string, userNote: Option<string>)

  datatype LevelRule = LevelRule(
    id: string, level: Level, employeeId: string, employeeName: string,
    kpiId: string, kpiName: string, description: string)

  /** A competency of the annual assessment. */
  datatype Competency = Competency(
    id: string, topic: string, definition: string, behaviorIndicator: string, weight: int)

  datatype CompetencyRecord = CompetencyRecord(
    id: string, date: string, employeeId: string, competencyId: string, period: string,
    level: Level, score: int, weight: int, weightedScore: real)
}
