/** The KPI recording page: which KPIs and activities the form offers, the weight and
    weighted score it computes, the rubric text it fills in, the period keys it lists,
    the records it shows, and the form state its handlers change. */
module KpiRecordPage {
  import opened Wrappers
  import opened SeqUtil
  import opened JsValues
  import opened Types
  import Storage

  /** A KPI offered to the selected employee, with the weight of the assignment. */
  datatype AssignedKpi = AssignedKpi(kpi: Kpi, assignmentWeight: int)

  function KpiById(kpis: seq<Kpi>, id: string): Option<Kpi> {
    Find(kpis, (k: Kpi) => k.id == id)
  }

  function LookupAssigned(a: Assignment, kpis: seq<Kpi>): Option<AssignedKpi> {
    match KpiById(kpis, a.kpiId)
    case Some(k) => Some(AssignedKpi(k, a.weight))
    case None => None
  }

  /** `assignedKPIs`: the employee's assignments mapped to their KPIs, dropping those
      whose KPI does not exist. */
  function AssignedKpis(assignments: seq<Assignment>, kpis: seq<Kpi>, empId: string): seq<AssignedKpi> {
    Somes(Map(Filter(assignments, (a: Assignment) => a.employeeId == empId),
              (a: Assignment) => LookupAssigned(a, kpis)))
  }

  /** The assignments that yield an offered KPI: the employee's own, whose KPI exists. */
  function Offered(assignments: seq<Assignment>, kpis: seq<Kpi>, empId: string): seq<Assignment> {
    Filter(assignments, (a: Assignment) => a.employeeId == empId && KpiById(kpis, a.kpiId).Some?)
  }

  /** `AssignedKpis` and `Offered` one assignment at a time. */
  lemma AssignedKpisCons(assignments: seq<Assignment>, kpis: seq<Kpi>, empId: string)
    requires assignments != []
    ensures var a := assignments[0];
      a.employeeId == empId && KpiById(kpis, a.kpiId).Some? ==>
        && AssignedKpis(assignments, kpis, empId)
           == [AssignedKpi(KpiById(kpis, a.kpiId).value, a.weight)] + AssignedKpis(assignments[1..], kpis, empId)
        && Offered(assignments, kpis, empId) == [a] + Offered(assignments[1..], kpis, empId)
    ensures var a := assignments[0];
      !(a.employeeId == empId && KpiById(kpis, a.kpiId).Some?) ==>
        && AssignedKpis(assignments, kpis, empId) == AssignedKpis(assignments[1..], kpis, empId)
        && Offered(assignments, kpis, empId) == Offered(assignments[1..], kpis, empId)
  {
    var a := assignments[0];
    var own := (x: Assignment) => x.employeeId == empId;
    var look := (x: Assignment) => LookupAssigned(x, kpis);
    if a.employeeId == empId {
      assert Filter(assignments, own) == [a] + Filter(assignments[1..], own);
      var m := Map(Filter(assignments, own), look);
      assert m[1..] == Map(Filter(assignments[1..], own), look);
    } else {
      assert Filter(assignments, own) == Filter(assignments[1..], own);
    }
  }

  /** One entry per assignment of the employee whose KPI exists, in assignment order,
      carrying that KPI and that assignment's weight. */
  lemma {:induction false} AssignedKpisSpec(assignments: seq<Assignment>, kpis: seq<Kpi>, empId: string)
    ensures |AssignedKpis(assignments, kpis, empId)| == |Offered(assignments, kpis, empId)|
    ensures forall i :: 0 <= i < |Offered(assignments, kpis, empId)| ==>
      && AssignedKpis(assignments, kpis, empId)[i].assignmentWeight == Offered(assignments, kpis, empId)[i].weight
      && KpiById(kpis, Offered(assignments, kpis, empId)[i].kpiId)
           == Some(AssignedKpis(assignments, kpis, empId)[i].kpi)
  {
    if assignments != [] {
      AssignedKpisSpec(assignments[1..], kpis, empId);
      AssignedKpisCons(assignments, kpis, empId);
    }
  }

  /** The activity choices: exactly the active activities of the selected KPI. */
  function ActivityChoices(activities: seq<Activity>, kpiId: string): (r: seq<Activity>)
    ensures forall a :: a in r <==> a in activities && a.kpiId == kpiId && a.active
  {
    Filter(activities, (a: Activity) => a.kpiId == kpiId && a.active)
  }

  /** `currentAssignment?.weight || 0`: the weight of the first assignment of this
      employee to this KPI, or 0 when there is none. */
  function CurrentWeight(assignments: seq<Assignment>, empId: string, kpiId: string): (w: int)
    ensures (forall a :: a in assignments ==> !(a.employeeId == empId && a.kpiId == kpiId)) ==> w == 0
    ensures forall k ::
              (&& 0 <= k < |assignments|
               && assignments[k].employeeId == empId && assignments[k].kpiId == kpiId
               && (forall j :: 0 <= j < k ==> !(assignments[j].employeeId == empId && assignments[j].kpiId == kpiId)))
              ==> w == assignments[k].weight
  {
    var found := Find(assignments, (a: Assignment) => a.employeeId == empId && a.kpiId == kpiId);
    assert forall k :: 0 <= k < |assignments|
              && assignments[k].employeeId == empId && assignments[k].kpiId == kpiId
              && (forall j :: 0 <= j < k ==> !(assignments[j].employeeId == empId && assignments[j].kpiId == kpiId))
            ==> found == Some(assignments[k]) by {
      forall k | 0 <= k < |assignments|
              && assignments[k].employeeId == empId && assignments[k].kpiId == kpiId
              && (forall j :: 0 <= j < k ==> !(assignments[j].employeeId == empId && assignments[j].kpiId == kpiId))
        ensures found == Some(assignments[k])
      {
        FindFirst(assignments, (a: Assignment) => a.employeeId == empId && a.kpiId == kpiId, k);
      }
    }
    IntOr(if found.Some? then Some(found.value.weight) else None, 0)
  }

  const DefaultRuleText: string := "Default description based on level."

  /** The text a level change fills the note with: the description of the first level
      rule with that level, whichever KPI it belongs to, or a default text. */
  function RuleText(levelRules: seq<LevelRule>, lvl: Level): (r: string)
    ensures (forall x :: x in levelRules ==> x.level != lvl) ==> r == DefaultRuleText
    ensures forall k ::
              (0 <= k < |levelRules| && levelRules[k].level == lvl
               && (forall j :: 0 <= j < k ==> levelRules[j].level != lvl))
              ==> r == levelRules[k].description
  {
    var found := Find(levelRules, (x: LevelRule) => x.level == lvl);
    assert forall k :: 0 <= k < |levelRules| && levelRules[k].level == lvl
              && (forall j :: 0 <= j < k ==> levelRules[j].level != lvl)
            ==> found == Some(levelRules[k]) by {
      forall k | 0 <= k < |levelRules| && levelRules[k].level == lvl
              && (forall j :: 0 <= j < k ==> levelRules[j].level != lvl)
        ensures found == Some(levelRules[k])
      {
        FindFirst(levelRules, (x: LevelRule) => x.level == lvl, k);
      }
    }
    match found
    case Some(rule) => StrOr(Some(rule.description), "")
    case None => DefaultRuleText
  }

  /** The rubric lookup does not look at the KPI: moving every rule to another KPI
      gives the same text. */
  lemma RuleTextIgnoresKpi(levelRules: seq<LevelRule>, lvl: Level, kpiId: string)
    ensures RuleText(Map(levelRules, (x: LevelRule) => x.(kpiId := kpiId)), lvl) == RuleText(levelRules, lvl)
  {
    var move := (x: LevelRule) => x.(kpiId := kpiId);
    var moved := Map(levelRules, move);
    FindIndexMap(levelRules, move, (x: LevelRule) => x.level == lvl, (x: LevelRule) => x.level == lvl);
    match FindIndex(levelRules, (x: LevelRule) => x.level == lvl)
    case Some(k) =>
      assert Find(moved, (x: LevelRule) => x.level == lvl) == Some(moved[k]);
      assert Find(levelRules, (x: LevelRule) => x.level == lvl) == Some(levelRules[k]);
    case None =>
  }

  /** The form fields of the page. */
  datatype FormState = FormState(
    editingId: Option<string>, selectedEmpId: string, selectedPeriod: string,
    selectedPeriodDetail: string, selectedKpiId: string, selectedActivityId: string,
    selectedLevel: Option<Level>, score: int, note: string, noteAutofilled: bool)

  /** The submit guard: employee, KPI, activity and level must all be chosen. */
  predicate CanSubmit(f: FormState) {
    f.selectedEmpId != "" && f.selectedKpiId != "" && f.selectedActivityId != "" && f.selectedLevel.Some?
  }

  /** Whether the form edits an existing record (`editingId` is truthy). */
  predicate Editing(f: FormState) {
    f.editingId.Some? && f.editingId.value != ""
  }

  /** `currentKPIActivities.find(a => a.id === activityId)?.name || ''`: the name of the
      first active activity of the KPI with that id, or `''` when there is none. */
  function ActivityName(activities: seq<Activity>, kpiId: string, activityId: string): (n: string)
    ensures n != "" ==>
              exists a :: (a in activities && a.id == activityId && a.kpiId == kpiId && a.active && a.name == n)
    ensures var choices := ActivityChoices(activities, kpiId);
            forall k :: (&& 0 <= k < |choices| && choices[k].id == activityId
                         && (forall j :: 0 <= j < k ==> choices[j].id != activityId))
                        ==> n == choices[k].name
  {
    var choices := ActivityChoices(activities, kpiId);
    var activity := Find(choices, (a: Activity) => a.id == activityId);
    assert forall k :: (&& 0 <= k < |choices| && choices[k].id == activityId
                        && (forall j :: 0 <= j < k ==> choices[j].id != activityId))
                       ==> activity == Some(choices[k]) by {
      forall k | && 0 <= k < |choices| && choices[k].id == activityId
                 && (forall j :: 0 <= j < k ==> choices[j].id != activityId)
        ensures activity == Some(choices[k])
      {
        FindFirst(choices, (a: Activity) => a.id == activityId, k);
      }
    }
    StrOr(if activity.Some? then Some(activity.value.name) else None, "")
  }

  /** The record a submit saves. `freshId` stands for `uuidv4()` and `now` for the
      current time as an ISO string. */
  function BuildRecord(f: FormState, records: seq<KpiRecord>, activities: seq<Activity>,
                       assignments: seq<Assignment>, freshId: string, now: string): (r: KpiRecord)
    requires CanSubmit(f)
    ensures r.id == (if Editing(f) then f.editingId.value else freshId)
    ensures !Editing(f) ==> r.date == now
    ensures Editing(f) ==>
      r.date == (match Find(records, (x: KpiRecord) => x.id == f.editingId.value)
                 case Some(orig) => orig.date
                 case None => now)
    ensures (r.employeeId, r.kpiId, r.activityId) == (f.selectedEmpId, f.selectedKpiId, f.selectedActivityId)
    ensures (r.period, r.periodDetail, r.level, r.score, r.note)
            == (f.selectedPeriod, f.selectedPeriodDetail, f.selectedLevel.value, f.score, f.note)
    ensures r.weight == CurrentWeight(assignments, f.selectedEmpId, f.selectedKpiId)
    ensures r.weightedScore == WeightedScore(r.score, r.weight)
    ensures r.userNote.None?
    ensures r.activityName != "" ==>
              exists a :: (a in activities && a.id == f.selectedActivityId
                           && a.kpiId == f.selectedKpiId && a.active && a.name == r.activityName)
    ensures var choices := ActivityChoices(activities, f.selectedKpiId);
            forall k :: (&& 0 <= k < |choices| && choices[k].id == f.selectedActivityId
                         && (forall j :: 0 <= j < k ==> choices[j].id != f.selectedActivityId))
                        ==> r.activityName == choices[k].name
  {
    var original := if Editing(f) then Find(records, (x: KpiRecord) => x.id == f.editingId.value) else None;
    var name := ActivityName(activities, f.selectedKpiId, f.selectedActivityId);
    var weight := CurrentWeight(assignments, f.selectedEmpId, f.selectedKpiId);
    KpiRecord(
      StrOr(f.editingId, freshId),
      if original.Some? then original.value.date else now,
      f.selectedEmpId, f.selectedKpiId, f.selectedActivityId,
      name,
      f.selectedPeriod, f.selectedPeriodDetail, f.selectedLevel.value, f.score,
      weight, WeightedScore(f.score, weight), f.note, None)
  }

  /** Editing a record that had a user note drops the note: the saved record has none. */
  lemma EditDropsUserNote(f: FormState, records: seq<KpiRecord>, activities: seq<Activity>,
                          assignments: seq<Assignment>, freshId: string, now: string, k: nat)
    requires CanSubmit(f) && k < |records| && Editing(f) && records[k].id == f.editingId.value
    requires Storage.UniqueIds(records, Storage.RecordId)
    ensures var saved := Storage.Upsert(records, BuildRecord(f, records, activities, assignments, freshId, now), Storage.RecordId);
            |saved| == |records| && saved[k].userNote.None? && saved[k].date == records[k].date
  {
    var r := BuildRecord(f, records, activities, assignments, freshId, now);
    var ids := Map(records, Storage.RecordId);
    forall j | 0 <= j < k ensures records[j].id != r.id {
      assert ids[j] != ids[k];
    }
    FindFirst(records, (x: KpiRecord) => x.id == f.editingId.value, k);
  }

  /** The options of the period-detail select for a period and a year. */
  function PeriodOptions(period: string, year: int): (r: seq<string>)
    ensures period == "weekly" ==> |r| == 52
    ensures period == "monthly" ==> |r| == 12
    ensures period != "weekly" && period != "monthly" ==> |r| == 4
  {
    var y := IntToString(year);
    if period == "weekly" then seq(52, (i: int) requires 0 <= i => "week-" + NatToString(i + 1) + "-" + y)
    else if period == "monthly" then seq(12, (i: int) requires 0 <= i => "month-" + NatToString(i + 1) + "-" + y)
    else ["q1-" + y, "q2-" + y, "q3-" + y, "q4-" + y]
  }

  /** The numbered keys of one prefix are distinct. */
  lemma NumberedKeysDistinct(prefix: string, i: nat, j: nat, y: string)
    requires prefix + NatToString(i + 1) + "-" + y == prefix + NatToString(j + 1) + "-" + y
    ensures i == j
  {
    assert prefix + NatToString(i + 1) + "-" + y == prefix + NatToString(i + 1) + ("-" + y);
    assert prefix + NatToString(j + 1) + "-" + y == prefix + NatToString(j + 1) + ("-" + y);
    CancelAround(prefix, NatToString(i + 1), NatToString(j + 1), "-" + y);
    NatToStringInjective(i + 1, j + 1);
  }

  /** Every period key is listed once, and the keys carry their number and the year. */
  lemma PeriodOptionsDistinct(period: string, year: int)
    ensures NoDuplicates(PeriodOptions(period, year))
    ensures period == "weekly" ==> forall i :: 0 <= i < 52 ==>
      PeriodOptions(period, year)[i] == "week-" + NatToString(i + 1) + "-" + IntToString(year)
    ensures period == "monthly" ==> forall i :: 0 <= i < 12 ==>
      PeriodOptions(period, year)[i] == "month-" + NatToString(i + 1) + "-" + IntToString(year)
  {
    var r := PeriodOptions(period, year);
    var y := IntToString(year);
    if period == "weekly" {
      forall i, j | 0 <= i < j < |r| ensures r[i] != r[j] {
        if r[i] == r[j] { NumberedKeysDistinct("week-", i, j, y); }
      }
    } else if period == "monthly" {
      forall i, j | 0 <= i < j < |r| ensures r[i] != r[j] {
        if r[i] == r[j] { NumberedKeysDistinct("month-", i, j, y); }
      }
    } else {
      forall i, j | 0 <= i < j < |r| ensures r[i] != r[j] {
        assert r[i][1] != r[j][1];
      }
    }
  }

  /** Any other period lists the quarters: `q1-<year>` to `q4-<year>`, in order. */
  lemma QuarterlyOptions(period: string, year: int)
    requires period != "weekly" && period != "monthly"
    ensures |PeriodOptions(period, year)| == 4
    ensures forall i :: 0 <= i < 4 ==>
      PeriodOptions(period, year)[i] == "q" + NatToString(i + 1) + "-" + IntToString(year)
  {
    var y := IntToString(year);
    assert NatToString(1) == "1" && NatToString(2) == "2" && NatToString(3) == "3" && NatToString(4) == "4";
    assert "q" + "1" + "-" + y == "q1-" + y;
    assert "q" + "2" + "-" + y == "q2-" + y;
    assert "q" + "3" + "-" + y == "q3-" + y;
    assert "q" + "4" + "-" + y == "q4-" + y;
  }

  /** `visibleRecords`: a manager sees every record, anyone else only their own, and
      nobody is shown anything without a user. */
  function VisibleRecords(user: Option<Employee>, records: seq<KpiRecord>): (r: seq<KpiRecord>)
    ensures user.Some? && user.value.role == Manager ==> r == records
    ensures !(user.Some? && user.value.role == Manager) ==>
      forall x :: x in r <==> x in records && user.Some? && x.employeeId == user.value.id
  {
    if user.Some? && user.value.role == Manager then records
    else if user.Some? then Filter(records, (x: KpiRecord) => x.employeeId == user.value.id)
    else []
  }

  /** The history table: the 20 most recent visible records, newest first. */
  function History(visible: seq<KpiRecord>): (r: seq<KpiRecord>)
    ensures |r| == if |visible| < 20 then |visible| else 20
    ensures forall i :: 0 <= i < |r| ==> r[i] == visible[|visible| - 1 - i]
  {
    Take(Reverse(visible), 20)
  }

  /** The page's form state and its handlers. */
  class RecordForm {
    var editingId: Option<string>
    var selectedEmpId: string
    var selectedPeriod: string
    var selectedPeriodDetail: string
    var selectedKpiId: string
    var selectedActivityId: string
    var selectedLevel: Option<Level>
    var score: int
    var note: string
    var noteAutofilled: bool

    function State(): FormState
      reads this
    {
      FormState(editingId, selectedEmpId, selectedPeriod, selectedPeriodDetail, selectedKpiId,
        selectedActivityId, selectedLevel, score, note, noteAutofilled)
    }

    /** A blank form on the monthly period. */
    constructor()
      ensures State() == FormState(None, "", "monthly", "", "", "", None, 0, "", false)
    {
      editingId, selectedEmpId, selectedPeriod, selectedPeriodDetail := None, "", "monthly", "";
      selectedKpiId, selectedActivityId, selectedLevel := "", "", None;
      score, note, noteAutofilled := 0, "", false;
    }

    /** The effect that selects the logged-in employee when not editing. */
    method AutoSelect(user: Option<Employee>)
      modifies this
      ensures user.Some? && user.value.role == EmployeeRole && !Editing(old(State()))
              ==> State() == old(State()).(selectedEmpId := user.value.id)
      ensures !(user.Some? && user.value.role == EmployeeRole && !Editing(old(State()))) ==> State() == old(State())
    {
      if user.Some? && user.value.role == EmployeeRole && !Editing(State()) {
        selectedEmpId := user.value.id;
      }
    }

    /** `handleLevelChange`: the level and its score are set; the note becomes the
        level's rubric text only if it is empty or was itself filled in automatically.
        `None` is the blank option: no level rule has the empty level, so the note gets
        the default text, and the score is `LEVEL_SCORES['']`, which is undefined and is
        written 0 here. A blank level cannot be submitted. */
    method HandleLevelChange(lvl: Option<Level>, levelRules: seq<LevelRule>)
      modifies this
      ensures selectedLevel == lvl
      ensures lvl.Some? ==> score == LevelScore(lvl.value)
      ensures lvl.None? ==> score == 0 && !CanSubmit(State())
      ensures lvl.Some? && (old(note) == "" || old(noteAutofilled)) ==>
                note == RuleText(levelRules, lvl.value) && noteAutofilled
      ensures lvl.None? && (old(note) == "" || old(noteAutofilled)) ==> note == DefaultRuleText && noteAutofilled
      ensures !(old(note) == "" || old(noteAutofilled)) ==> note == old(note) && noteAutofilled == old(noteAutofilled)
      ensures (editingId, selectedEmpId, selectedPeriod, selectedPeriodDetail, selectedKpiId, selectedActivityId)
              == old((editingId, selectedEmpId, selectedPeriod, selectedPeriodDetail, selectedKpiId, selectedActivityId))
    {
      selectedLevel := lvl;
      score := if lvl.Some? then LevelScore(lvl.value) else 0;
      var description := if lvl.Some? then RuleText(levelRules, lvl.value) else DefaultRuleText;
      if note == "" || noteAutofilled {
        note := description;
        noteAutofilled := true;
      }
    }

    /** Typing into the note: the text is kept and is no longer treated as filled in. */
    method HandleNoteInput(text: string)
      modifies this
      ensures State() == old(State()).(note := text, noteAutofilled := false)
    {
      note := text;
      noteAutofilled := false;
    }

    /** `resetForm`: a blank form that keeps the period settings and re-selects the
        logged-in employee. */
    method ResetForm(user: Option<Employee>)
      modifies this
      ensures State() == FormState(None,
        if user.Some? && user.value.role == EmployeeRole then user.value.id else "",
        old(selectedPeriod), old(selectedPeriodDetail), "", "", None, 0, "", false)
    {
      editingId := None;
      if user.Some? && user.value.role == EmployeeRole {
        selectedEmpId := user.value.id;
      } else {
        selectedEmpId := "";
      }
      selectedKpiId, selectedActivityId, selectedLevel := "", "", None;
      score, note, noteAutofilled := 0, "", false;
    }

    /** `handleEdit`: the form takes every field of the record. */
    method HandleEdit(r: KpiRecord)
      modifies this
      ensures State() == FormState(Some(r.id), r.employeeId, r.period, r.periodDetail, r.kpiId,
        r.activityId, Some(r.level), r.score, r.note, false)
    {
      editingId := Some(r.id);
      selectedEmpId, selectedPeriod, selectedPeriodDetail := r.employeeId, r.period, r.periodDetail;
      selectedKpiId, selectedActivityId, selectedLevel := r.kpiId, r.activityId, Some(r.level);
      score, note, noteAutofilled := r.score, r.note, false;
    }

    /** `handleSubmit`: nothing happens unless the guard holds; otherwise the built record
        is saved to the store and the form is reset. */
    method HandleSubmit(store: Storage.Store, user: Option<Employee>, freshId: string, now: string,
                        call: Storage.Remote, resync: Storage.Fetch) returns (saved: Option<KpiRecord>)
      modifies this, store
      ensures !CanSubmit(old(State())) ==>
                saved.None? && State() == old(State()) && store.Snapshot() == old(store.Snapshot())
                && store.loading == old(store.loading)
      ensures CanSubmit(old(State())) ==>
        && saved == Some(BuildRecord(old(State()), old(store.records), old(store.activities),
                                     old(store.assignments), freshId, now))
        && store.Snapshot() == Storage.AfterWrite(
             old(store.Snapshot()).(records := Storage.Upsert(old(store.records), saved.value, Storage.RecordId)),
             store.isConnected, store.seeds, call, resync)
        && State() == FormState(None,
             if user.Some? && user.value.role == EmployeeRole then user.value.id else "",
             old(selectedPeriod), old(selectedPeriodDetail), "", "", None, 0, "", false)
    {
      if !CanSubmit(State()) {
        return None;
      }
      var r := BuildRecord(State(), store.records, store.activities, store.assignments, freshId, now);
      store.SaveRecord(r, call, resync);
      ResetForm(user);
      saved := Some(r);
    }

    /** `handleDelete`: after confirmation, the form is reset if it was editing that
        record, and the record is deleted from the store. */
    method HandleDelete(store: Storage.Store, recordId: string, confirmed: bool, user: Option<Employee>,
                        call: Storage.Remote, resync: Storage.Fetch)
      modifies this, store
      ensures !confirmed ==> State() == old(State()) && store.Snapshot() == old(store.Snapshot())
                             && store.loading == old(store.loading)
      ensures confirmed ==> store.Snapshot() == Storage.AfterWrite(
                old(store.Snapshot()).(records := Storage.RemoveId(old(store.records), recordId, Storage.RecordId)),
                store.isConnected, store.seeds, call, resync)
      ensures confirmed && old(editingId) == Some(recordId) ==> State() == FormState(None,
                if user.Some? && user.value.role == EmployeeRole then user.value.id else "",
                old(selectedPeriod), old(selectedPeriodDetail), "", "", None, 0, "", false)
      ensures confirmed && old(editingId) != Some(recordId) ==> State() == old(State())
    {
      if confirmed {
        if editingId == Some(recordId) {
          ResetForm(user);
        }
        store.DeleteRecord(recordId, call, resync);
      }
    }
  }
}
