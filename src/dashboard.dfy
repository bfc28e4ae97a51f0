/** The dashboard: which employees, records and assignments are in view, the summary
    statistics and status badges, the per-KPI ranking, the manager's team list, and the
    two selection fields its handlers change. */
module Dashboard {
  import opened Wrappers
  import opened SeqUtil
  import opened JsValues
  import opened Types

  /** The select value that means "no filter". */
  const All: string := "all"

  /** `employeeOptions`: every employee, or the selected department's. */
  function EmployeeOptions(employees: seq<Employee>, deptId: string): (r: seq<Employee>)
    ensures deptId == All ==> r == employees
    ensures deptId != All ==> forall e :: e in r <==> e in employees && e.departmentId == deptId
  {
    if deptId == All then employees else Filter(employees, (e: Employee) => e.departmentId == deptId)
  }

  /** Whether an employee is in view: nobody without a user; an employee sees only their
      own entry; anyone else sees the selected department and employee. */
  predicate Shown(user: Option<Employee>, deptId: string, empId: string, e: Employee) {
    && user.Some?
    && if user.value.role == EmployeeRole then e.id == user.value.id
       else (deptId == All || e.departmentId == deptId) && (empId == All || e.id == empId)
  }

  /** `filteredEmployees`. */
  function FilteredEmployees(employees: seq<Employee>, user: Option<Employee>, deptId: string,
                             empId: string): (r: seq<Employee>)
    ensures user.None? ==> r == []
    ensures forall e :: e in r <==> e in employees && Shown(user, deptId, empId, e)
  {
    if user.None? then []
    else if user.value.role == EmployeeRole then Filter(employees, (e: Employee) => e.id == user.value.id)
    else
      var byDept := if deptId != All then Filter(employees, (e: Employee) => e.departmentId == deptId) else employees;
      if empId != All then Filter(byDept, (e: Employee) => e.id == empId) else byDept
  }

  /** In every case the list is the employees in view in their original order: one filter
      by `Shown`. */
  lemma FilteredEmployeesInOrder(employees: seq<Employee>, user: Option<Employee>, deptId: string, empId: string)
    ensures FilteredEmployees(employees, user, deptId, empId)
            == Filter(employees, (e: Employee) => Shown(user, deptId, empId, e))
  {
    var shown := (e: Employee) => Shown(user, deptId, empId, e);
    if user.None? {
      FilterDropsAll(employees, shown);
    } else if user.value.role == EmployeeRole {
      FilterExt(employees, (e: Employee) => e.id == user.value.id, shown);
    } else {
      var inDept := (e: Employee) => e.departmentId == deptId;
      var isEmp := (e: Employee) => e.id == empId;
      if deptId != All && empId != All {
        FilterCompose(employees, inDept, isEmp, shown);
      } else if deptId != All {
        FilterExt(employees, inDept, shown);
      } else if empId != All {
        FilterExt(employees, isEmp, shown);
      } else {
        FilterKeepsAll(employees, shown);
      }
    }
  }

  /** After a department change (which resets the employee choice), a manager's view is
      exactly the department's employee options. */
  lemma DeptChangeShowsOptions(employees: seq<Employee>, user: Employee, deptId: string)
    requires user.role != EmployeeRole
    ensures FilteredEmployees(employees, Some(user), deptId, All) == EmployeeOptions(employees, deptId)
  {
  }

  /** Records or assignments whose employee is in view (`filteredEmployeeIds.includes`). */
  function VisibleRecords(records: seq<KpiRecord>, shown: seq<Employee>): (r: seq<KpiRecord>)
    ensures forall x :: x in r <==> x in records && x.employeeId in Map(shown, (e: Employee) => e.id)
  {
    var ids := Map(shown, (e: Employee) => e.id);
    Filter(records, (x: KpiRecord) => x.employeeId in ids)
  }

  function VisibleAssignments(assignments: seq<Assignment>, shown: seq<Employee>): (r: seq<Assignment>)
    ensures forall x :: x in r <==> x in assignments && x.employeeId in Map(shown, (e: Employee) => e.id)
  {
    var ids := Map(shown, (e: Employee) => e.id);
    Filter(assignments, (x: Assignment) => x.employeeId in ids)
  }

  /** An employee who is still on file sees exactly their own records. */
  lemma EmployeeSeesOwnRecords(employees: seq<Employee>, records: seq<KpiRecord>, user: Employee,
                               deptId: string, empId: string)
    requires user.role == EmployeeRole && user in employees
    ensures forall x :: x in VisibleRecords(records, FilteredEmployees(employees, Some(user), deptId, empId))
                        <==> x in records && x.employeeId == user.id
  {
    var shown := FilteredEmployees(employees, Some(user), deptId, empId);
    var ids := Map(shown, (e: Employee) => e.id);
    assert user in shown;
    var k :| 0 <= k < |shown| && shown[k] == user;
    assert ids[k] == user.id;
    forall i | 0 <= i < |ids| ensures ids[i] == user.id {
      assert shown[i] in shown;
    }
  }

  function Score(r: KpiRecord): real {
    r.score as real
  }

  /** The mean score of some records, 0 when there are none. */
  function MeanScore(recs: seq<KpiRecord>): (avg: real)
    ensures |recs| == 0 ==> avg == 0.0
    ensures |recs| > 0 ==> avg * |recs| as real == SumReal(recs, Score)
  {
    if |recs| == 0 then 0.0 else SumReal(recs, Score) / |recs| as real
  }

  /** Records scored on the level scale average between 0 and 5. */
  lemma MeanScoreBounds(recs: seq<KpiRecord>)
    requires forall i :: 0 <= i < |recs| ==> 0 <= recs[i].score <= 5
    ensures 0.0 <= MeanScore(recs) <= 5.0
  {
    if |recs| > 0 {
      SumRealBounds(recs, Score, 0.0, 5.0);
      QuotientBetween(SumReal(recs, Score), |recs| as real, 0.0, 5.0);
    }
  }

  lemma QuotientBetween(s: real, n: real, lo: real, hi: real)
    requires n > 0.0 && lo * n <= s <= hi * n
    ensures lo <= s / n <= hi
  {
    assert s / n - lo == (s - lo * n) / n;
    assert hi - s / n == (hi * n - s) / n;
  }

  /** Records that all carry the same score average to that score. */
  lemma MeanOfEqualScores(recs: seq<KpiRecord>, s: int)
    requires |recs| > 0 && forall i :: 0 <= i < |recs| ==> recs[i].score == s
    ensures MeanScore(recs) == s as real
  {
    SumRealBounds(recs, Score, s as real, s as real);
  }

  /** `completionRate`: `Math.round(records / assignments * 100)`, or 0 without assignments.
      The rate is the percentage rounded half up, and nothing caps it at 100. */
  function CompletionRate(nRecords: nat, nAssignments: nat): (rate: int)
    ensures nAssignments == 0 ==> rate == 0
    ensures nAssignments > 0 ==>
              2 * nAssignments * rate <= 200 * nRecords + nAssignments < 2 * nAssignments * rate + 2 * nAssignments
  {
    if nAssignments == 0 then 0 else (200 * nRecords + nAssignments) / (2 * nAssignments)
  }

  lemma MulMonotone(c: nat, a: int, b: int)
    requires a <= b
    ensures c * a <= c * b
  {
    assert c * b - c * a == c * (b - a);
  }

  lemma MulCancelLess(c: int, u: int, v: int)
    requires c > 0 && c * u < c * v
    ensures u < v
  {
    if u >= v {
      MulMonotone(c, v, u);
    }
  }

  /** One record per assignment is 100%; twice as many records is 200%. */
  lemma CompletionRateExamples(n: nat)
    requires n > 0
    ensures CompletionRate(n, n) == 100
    ensures CompletionRate(2 * n, n) == 200
  {
    var a := CompletionRate(n, n);
    assert 2 * n * a <= 2 * n * 100 + n < 2 * n * a + 2 * n;
    MulCancelLess(2 * n, a, 101);
    MulCancelLess(2 * n, 99, a);
    var b := CompletionRate(2 * n, n);
    assert 2 * n * b <= 2 * n * 200 + n < 2 * n * b + 2 * n;
    MulCancelLess(2 * n, b, 201);
    MulCancelLess(2 * n, 199, b);
  }

  /** More records never lower the rate. */
  lemma CompletionRateMonotone(r1: nat, r2: nat, a: nat)
    requires r1 <= r2
    ensures CompletionRate(r1, a) <= CompletionRate(r2, a)
  {
    if a > 0 {
      var x, y := CompletionRate(r1, a), CompletionRate(r2, a);
      assert 2 * a * (y + 1) == 2 * a * y + 2 * a;
      MulCancelLess(2 * a, x, y + 1);
    }
  }

  /** `currentLevel`: the level whose score is nearest the average, halves rounding up,
      below 0.5 F and from 4.5 EP. */
  function CurrentLevel(avg: real): (l: Level)
    ensures l == F || avg >= LevelScore(l) as real - 0.5
    ensures l == EP || avg < LevelScore(l) as real + 0.5
  {
    if avg >= 4.5 then EP
    else if avg >= 3.5 then CP
    else if avg >= 2.5 then GP
    else if avg >= 1.5 then PP
    else if avg >= 0.5 then UP
    else F
  }

  /** A higher average never gives a lower level, and the average of a single level is
      that level. */
  lemma CurrentLevelMonotone(a: real, b: real, l: Level)
    requires a <= b
    ensures Rank(CurrentLevel(a)) <= Rank(CurrentLevel(b))
    ensures CurrentLevel(LevelScore(l) as real) == l
  {
  }

  /** The five badges of `getStatusInfo`, lowest first. */
  datatype Status = NeedsSupport | Developing | OnTrack | HighPerformer | ElitePerformer {
    function Label(): string {
      match this
      case NeedsSupport => "Needs Support"
      case Developing => "Developing"
      case OnTrack => "On Track"
      case HighPerformer => "High Performer"
      case ElitePerformer => "Elite Performer"
    }

    function Rank(): nat {
      match this
      case NeedsSupport => 0
      case Developing => 1
      case OnTrack => 2
      case HighPerformer => 3
      case ElitePerformer => 4
    }
  }

  /** `getStatusInfo`: thresholds 4.5, 3.5, 2.5 and 1.5. The badge is one step below the
      level of the same score, UP and F sharing the lowest badge. */
  function StatusOf(score: real): (s: Status)
    ensures s.Rank() == (if Rank(CurrentLevel(score)) == 0 then 0 else Rank(CurrentLevel(score)) - 1)
  {
    if score >= 4.5 then ElitePerformer
    else if score >= 3.5 then HighPerformer
    else if score >= 2.5 then OnTrack
    else if score >= 1.5 then Developing
    else NeedsSupport
  }

  /** A higher score never gets a lower badge, and each badge has its own label. */
  lemma StatusMonotone(a: real, b: real, s: Status, t: Status)
    requires a <= b
    ensures StatusOf(a).Rank() <= StatusOf(b).Rank()
    ensures s.Label() == t.Label() <==> s == t
  {
    CurrentLevelMonotone(a, b, F);
  }

  /** One entry of `kpiPerformance`. */
  datatype KpiStat = KpiStat(id: string, name: string, code: string, avgScore: real, percentage: real, count: nat)

  function AvgKey(s: KpiStat): real {
    s.avgScore
  }

  /** The entry of one KPI id: the code and name of the first KPI with that id, a blank
      name shown as `Unknown` (`Unknown` and `''` when the KPI is gone), and the mean of
      its visible records. */
  function KpiStatOf(id: string, kpis: seq<Kpi>, visible: seq<KpiRecord>): (s: KpiStat)
    ensures s.id == id
    ensures s.count == |Filter(visible, (r: KpiRecord) => r.kpiId == id)|
    ensures s.avgScore == MeanScore(Filter(visible, (r: KpiRecord) => r.kpiId == id))
    ensures s.percentage == s.avgScore * 20.0
    ensures (forall k :: k in kpis ==> k.id != id) ==> s.name == "Unknown" && s.code == ""
    ensures forall k :: (&& 0 <= k < |kpis| && kpis[k].id == id
                         && (forall j :: 0 <= j < k ==> kpis[j].id != id))
                        ==> s.code == kpis[k].code
                            && s.name == (if kpis[k].name == "" then "Unknown" else kpis[k].name)
  {
    var kpi := Find(kpis, (k: Kpi) => k.id == id);
    assert forall k :: (&& 0 <= k < |kpis| && kpis[k].id == id
                        && (forall j :: 0 <= j < k ==> kpis[j].id != id))
                       ==> kpi == Some(kpis[k]) by {
      forall k | && 0 <= k < |kpis| && kpis[k].id == id && (forall j :: 0 <= j < k ==> kpis[j].id != id)
        ensures kpi == Some(kpis[k])
      {
        FindFirst(kpis, (x: Kpi) => x.id == id, k);
      }
    }
    var recs := Filter(visible, (r: KpiRecord) => r.kpiId == id);
    var avg := MeanScore(recs);
    KpiStat(id, StrOr(if kpi.Some? then Some(kpi.value.name) else None, "Unknown"),
            StrOr(if kpi.Some? then Some(kpi.value.code) else None, ""),
            avg, avg / 5.0 * 100.0, |recs|)
  }

  function KpiIds(assignments: seq<Assignment>): seq<string> {
    Distinct(Map(assignments, (a: Assignment) => a.kpiId))
  }

  /** `kpiPerformance`: one entry per distinct KPI among the visible assignments, best
      average first. */
  function KpiPerformance(kpis: seq<Kpi>, visible: seq<KpiRecord>, assignments: seq<Assignment>): (r: seq<KpiStat>)
    ensures SortedDesc(r, AvgKey)
    ensures |r| == |KpiIds(assignments)|
    ensures forall s :: s in r ==> s == KpiStatOf(s.id, kpis, visible) && s.id in Map(assignments, (a: Assignment) => a.kpiId)
    ensures forall id :: id in Map(assignments, (a: Assignment) => a.kpiId) ==> KpiStatOf(id, kpis, visible) in r
  {
    var stats := Map(KpiIds(assignments), (id: string) => KpiStatOf(id, kpis, visible));
    SortDescMembers(stats, AvgKey);
    StatsMembers(KpiIds(assignments), kpis, visible);
    SortDesc(stats, AvgKey)
  }

  /** The entries built from a list of ids are exactly the entries of those ids. */
  lemma StatsMembers(ids: seq<string>, kpis: seq<Kpi>, visible: seq<KpiRecord>)
    ensures forall s :: s in Map(ids, (id: string) => KpiStatOf(id, kpis, visible)) ==>
              s == KpiStatOf(s.id, kpis, visible) && s.id in ids
    ensures forall id :: id in ids ==> KpiStatOf(id, kpis, visible) in Map(ids, (id: string) => KpiStatOf(id, kpis, visible))
  {
    var stats := Map(ids, (id: string) => KpiStatOf(id, kpis, visible));
    forall id | id in ids ensures KpiStatOf(id, kpis, visible) in stats {
      var i :| 0 <= i < |ids| && ids[i] == id;
      assert stats[i] == KpiStatOf(id, kpis, visible);
    }
  }

  /** The ranking is a reordering of the per-id entries. */
  lemma KpiPerformanceIsPermutation(kpis: seq<Kpi>, visible: seq<KpiRecord>, assignments: seq<Assignment>)
    ensures multiset(KpiPerformance(kpis, visible, assignments))
            == multiset(Map(KpiIds(assignments), (id: string) => KpiStatOf(id, kpis, visible)))
  {
  }

  /** Entries built from distinct ids are distinct. */
  lemma StatsDistinct(ids: seq<string>, kpis: seq<Kpi>, visible: seq<KpiRecord>)
    requires NoDuplicates(ids)
    ensures NoDuplicates(Map(ids, (id: string) => KpiStatOf(id, kpis, visible)))
  {
    var stats := Map(ids, (id: string) => KpiStatOf(id, kpis, visible));
    forall i, j | 0 <= i < j < |stats| ensures stats[i] != stats[j] {
      assert stats[i].id == ids[i] && stats[j].id == ids[j];
    }
  }

  /** No KPI appears twice in the ranking. */
  lemma KpiPerformanceDistinct(kpis: seq<Kpi>, visible: seq<KpiRecord>, assignments: seq<Assignment>)
    ensures NoDuplicates(Map(KpiPerformance(kpis, visible, assignments), (s: KpiStat) => s.id))
  {
    var r := KpiPerformance(kpis, visible, assignments);
    var stats := Map(KpiIds(assignments), (id: string) => KpiStatOf(id, kpis, visible));
    KpiPerformanceIsPermutation(kpis, visible, assignments);
    StatsDistinct(KpiIds(assignments), kpis, visible);
    NoDuplicatesMultiset(stats);
    NoDuplicatesMultiset(r);
    var rids := Map(r, (s: KpiStat) => s.id);
    forall i, j | 0 <= i < j < |rids| ensures rids[i] != rids[j] {
      assert r[i] in r && r[j] in r && r[i] != r[j];
      assert r[i] == KpiStatOf(rids[i], kpis, visible) && r[j] == KpiStatOf(rids[j], kpis, visible);
    }
  }

  /** One line of the manager's team list: the employee, the mean of all their records
      and the badge of that mean. */
  datatype TeamRow = TeamRow(employee: Employee, score: real, status: Status)

  function RowScore(row: TeamRow): real {
    row.score
  }

  function TeamRowOf(records: seq<KpiRecord>, e: Employee): (row: TeamRow)
    ensures row.employee == e && row.status == StatusOf(row.score)
    ensures row.score == MeanScore(Filter(records, (r: KpiRecord) => r.employeeId == e.id))
  {
    var score := MeanScore(Filter(records, (r: KpiRecord) => r.employeeId == e.id));
    TeamRow(e, score, StatusOf(score))
  }

  function TeamRows(shown: seq<Employee>, records: seq<KpiRecord>): (rows: seq<TeamRow>)
    ensures |rows| == |shown|
    ensures forall i :: 0 <= i < |shown| ==> rows[i] == TeamRowOf(records, shown[i])
  {
    Map(shown, (e: Employee) => TeamRowOf(records, e))
  }

  /** The team list as written: the rendered rows are sorted by `b.score - a.score`, but a
      rendered row has no `score`, so every comparison is NaN, read as a tie, and the
      stable sort keeps the order of `filteredEmployees` before the first six are taken. */
  function TeamListAsWritten(shown: seq<Employee>, records: seq<KpiRecord>): (r: seq<TeamRow>)
    ensures |r| == if |shown| < 6 then |shown| else 6
    ensures forall i :: 0 <= i < |r| ==> r[i].employee == shown[i]
  {
    Take(TeamRows(shown, records), 6)
  }

  /** The list as written is not a ranking: an employee without records is listed above
      one whose only record scores 5. */
  lemma TeamListAsWrittenIsUnranked(low: Employee, high: Employee, rec: KpiRecord)
    requires low.id != high.id && rec.employeeId == high.id && rec.score == 5
    ensures !SortedDesc(TeamListAsWritten([low, high], [rec]), RowScore)
  {
    var rows := TeamListAsWritten([low, high], [rec]);
    var lows := Filter([rec], (r: KpiRecord) => r.employeeId == low.id);
    var highs := Filter([rec], (r: KpiRecord) => r.employeeId == high.id);
    assert lows == [];
    assert highs == [rec];
    MeanOfEqualScores(highs, 5);
    assert rows[0].score == 0.0 && rows[1].score == 5.0;
  }

  /** The team list as intended: the six best means, best first. */
  function TeamList(shown: seq<Employee>, records: seq<KpiRecord>): (r: seq<TeamRow>)
    ensures |r| == if |shown| < 6 then |shown| else 6
    ensures SortedDesc(r, RowScore)
    ensures forall row :: row in r ==> row in TeamRows(shown, records)
    ensures forall row, x :: row in r && x in TeamRows(shown, records) && x !in r ==> RowScore(row) >= RowScore(x)
  {
    SortedPrefixIsTop(TeamRows(shown, records), RowScore, 6);
    Take(SortDesc(TeamRows(shown, records), RowScore), 6)
  }

  /** The two selection fields of the filter bar. */
  class Filters {
    var selectedDeptId: string
    var selectedEmployeeId: string

    /** All departments, and the logged-in user as the selected employee (`user?.id || 'all'`). */
    constructor(user: Option<Employee>)
      ensures selectedDeptId == All
      ensures selectedEmployeeId == (if user.Some? && user.value.id != "" then user.value.id else All)
    {
      selectedDeptId := All;
      selectedEmployeeId := StrOr(if user.Some? then Some(user.value.id) else None, All);
    }

    /** `handleDeptChange`: a new department resets the employee choice. */
    method HandleDeptChange(deptId: string)
      modifies this
      ensures selectedDeptId == deptId && selectedEmployeeId == All
    {
      selectedDeptId := deptId;
      selectedEmployeeId := All;
    }

    method HandleEmpChange(empId: string)
      modifies this
      ensures selectedEmployeeId == empId && selectedDeptId == old(selectedDeptId)
    {
      selectedEmployeeId := empId;
    }
  }
}
