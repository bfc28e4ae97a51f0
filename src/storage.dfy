/** The data provider: nine collections held in memory, filled by a refresh from the
    backend (or from the seed data when no backend is configured), and written by
    optimistic saves and deletes that re-synchronise from the backend when the remote
    call fails. */
module Storage {
  import opened Wrappers
  import opened SeqUtil
  import opened JsValues
  import opened Types
  import MockData

  /** Everything the store holds. */
  datatype Collections = Collections(
    departments: seq<Department>, employees: seq<Employee>, kpis: seq<Kpi>,
    assignments: seq<Assignment>, activities: seq<Activity>, records: seq<KpiRecord>,
    levelRules: seq<LevelRule>, competencies: seq<Competency>,
    competencyRecords: seq<CompetencyRecord>)

  /** A payload row: the item as sent, whose `id` cell may be any scalar. */
  datatype Row<T> = Row(id: Scalar, item: T)

  /** An employee row as the sheet sends it, before cleaning. */
  datatype RawEmployee = RawEmployee(
    id: Scalar, code: Scalar, name: string, departmentId: string, position: string,
    email: Scalar, role: Scalar, password: Scalar, photoUrl: Scalar)

  /** The `getAllData` payload; a missing collection is `None`. */
  datatype AllData = AllData(
    departments: Option<seq<Row<Department>>>, employees: Option<seq<RawEmployee>>,
    kpis: Option<seq<Row<Kpi>>>, assignments: Option<seq<Row<Assignment>>>,
    activities: Option<seq<Row<Activity>>>, records: Option<seq<Row<KpiRecord>>>,
    levelRules: Option<seq<LevelRule>>, competencies: Option<seq<Row<Competency>>>,
    competencyRecords: Option<seq<Row<CompetencyRecord>>>)

  /** How `getAllData` ended: it threw, or it answered (possibly with nothing). */
  datatype Fetch = FetchFailed | Fetched(data: Option<AllData>)

  /** How a save or delete call to the backend ended. */
  datatype Remote = Done | Failed

  function DepartmentId(d: Department): string { d.id }
  function EmployeeId(e: Employee): string { e.id }
  function KpiId(k: Kpi): string { k.id }
  function AssignmentId(a: Assignment): string { a.id }
  function ActivityId(a: Activity): string { a.id }
  function RecordId(r: KpiRecord): string { r.id }
  function CompetencyRecordId(r: CompetencyRecord): string { r.id }

  predicate UniqueIds<T(!new)>(xs: seq<T>, id: T -> string) {
    NoDuplicates(Map(xs, id))
  }

  /** The optimistic update of a save: the first item with the same id is replaced in
      place, otherwise the item is appended. */
  function Upsert<T(!new)>(xs: seq<T>, item: T, id: T -> string): (r: seq<T>)
    ensures (forall i :: 0 <= i < |xs| ==> id(xs[i]) != id(item)) ==> r == xs + [item]
    ensures forall k :: 0 <= k < |xs| && id(xs[k]) == id(item)
                && (forall j :: 0 <= j < k ==> id(xs[j]) != id(item))
              ==> r == xs[k := item]
  {
    match FindIndex(xs, x => id(x) == id(item))
    case Some(k) => xs[k := item]
    case None => xs + [item]
  }

  /** After a save, looking the id up finds exactly the saved item. */
  lemma UpsertThenFind<T(!new)>(xs: seq<T>, item: T, id: T -> string)
    ensures Find(Upsert(xs, item, id), x => id(x) == id(item)) == Some(item)
  {
    var r := Upsert(xs, item, id);
    match FindIndex(xs, x => id(x) == id(item))
    case Some(k) => FindFirst(r, x => id(x) == id(item), k);
    case None => FindFirst(r, x => id(x) == id(item), |xs|);
  }

  /** A save never changes the set of ids except by adding the saved one, and keeps
      ids unique. */
  lemma UpsertKeepsIdsUnique<T(!new)>(xs: seq<T>, item: T, id: T -> string)
    requires UniqueIds(xs, id)
    ensures UniqueIds(Upsert(xs, item, id), id)
    ensures forall x :: x in Map(Upsert(xs, item, id), id) <==> x in Map(xs, id) || x == id(item)
  {
    var r := Upsert(xs, item, id);
    var ids, rids := Map(xs, id), Map(r, id);
    match FindIndex(xs, x => id(x) == id(item))
    case Some(k) =>
      assert rids == ids;
    case None =>
      assert rids == ids + [id(item)];
  }

  /** With unique ids, two stored items with the same id are the same item. */
  lemma SameIdSameItem<T(!new)>(xs: seq<T>, id: T -> string, x: T, y: T)
    requires UniqueIds(xs, id) && x in xs && y in xs && id(x) == id(y)
    ensures x == y
  {
    var i :| 0 <= i < |xs| && xs[i] == x;
    var j :| 0 <= j < |xs| && xs[j] == y;
    assert Map(xs, id)[i] == Map(xs, id)[j];
  }

  /** With unique ids, a save holds the saved item and every other item whose id
      differs, and nothing else. */
  lemma UpsertMembers<T(!new)>(xs: seq<T>, item: T, id: T -> string)
    requires UniqueIds(xs, id)
    ensures forall x :: x in Upsert(xs, item, id) <==> x == item || (x in xs && id(x) != id(item))
  {
    match FindIndex(xs, x => id(x) == id(item))
    case Some(k) =>
      var r := xs[k := item];
      forall x | x in xs && id(x) != id(item) ensures x in r {
        var i :| 0 <= i < |xs| && xs[i] == x;
        assert r[i] == x;
      }
      forall x | x in r && x != item ensures x in xs && id(x) != id(item) {
        var i :| 0 <= i < |r| && r[i] == x;
        assert i != k && xs[i] == x;
        assert Map(xs, id)[i] != Map(xs, id)[k];
      }
    case None =>
  }

  /** Saving the same item twice is saving it once. */
  lemma UpsertIdempotent<T(!new)>(xs: seq<T>, item: T, id: T -> string)
    ensures Upsert(Upsert(xs, item, id), item, id) == Upsert(xs, item, id)
  {
    var r := Upsert(xs, item, id);
    match FindIndex(xs, x => id(x) == id(item))
    case Some(k) =>
      assert r[k := item] == r;
    case None =>
      FindFirst(r, x => id(x) == id(item), |xs|);
      assert r[|xs| := item] == r;
  }

  /** Re-saving an item under an id already present keeps the length. */
  lemma UpsertPresentKeepsLength<T(!new)>(xs: seq<T>, item: T, id: T -> string)
    requires exists i :: 0 <= i < |xs| && id(xs[i]) == id(item)
    ensures |Upsert(xs, item, id)| == |xs|
  {
  }

  /** The optimistic update of a delete: every item with that id is dropped. */
  function RemoveId<T(!new)>(xs: seq<T>, key: string, id: T -> string): (r: seq<T>)
    ensures forall x :: x in r <==> x in xs && id(x) != key
  {
    Filter(xs, x => id(x) != key)
  }

  /** Deleting an id that is not there changes nothing. */
  lemma RemoveAbsent<T(!new)>(xs: seq<T>, key: string, id: T -> string)
    requires forall i :: 0 <= i < |xs| ==> id(xs[i]) != key
    ensures RemoveId(xs, key, id) == xs
  {
    FilterKeepsAll(xs, x => id(x) != key);
  }

  /** Deleting twice is deleting once. */
  lemma RemoveIdempotent<T(!new)>(xs: seq<T>, key: string, id: T -> string)
    ensures RemoveId(RemoveId(xs, key, id), key, id) == RemoveId(xs, key, id)
  {
    FilterIdempotent(xs, x => id(x) != key);
  }

  /** With unique ids, deleting a present id removes exactly that one item, in place. */
  lemma RemovePresent<T(!new)>(xs: seq<T>, k: nat, id: T -> string)
    requires UniqueIds(xs, id) && k < |xs|
    ensures RemoveId(xs, id(xs[k]), id) == xs[..k] + xs[k + 1..]
    ensures |RemoveId(xs, id(xs[k]), id)| == |xs| - 1
  {
    var ids := Map(xs, id);
    forall i | 0 <= i < |xs| && i != k ensures id(xs[i]) != id(xs[k]) {
      assert ids[i] == id(xs[i]) && ids[k] == id(xs[k]);
    }
    FilterDropsOne(xs, x => id(x) != id(xs[k]), k);
  }

  /** Saving an item with a new id and then deleting that id restores the collection. */
  lemma SaveThenDeleteNew<T(!new)>(xs: seq<T>, item: T, id: T -> string)
    requires forall i :: 0 <= i < |xs| ==> id(xs[i]) != id(item)
    ensures RemoveId(Upsert(xs, item, id), id(item), id) == xs
  {
    var p := x => id(x) != id(item);
    FilterConcat(xs, [item], p);
    FilterKeepsAll(xs, p);
    assert [item][1..] == [];
  }

  /** `editingId ? xs.find(x => x.id === editingId) : null`: the item a form edits, found
      only when `editingId` is truthy and still names an item. */
  function ExistingItem<T(!new)>(xs: seq<T>, editingId: Option<string>, id: T -> string): (r: Option<T>)
    ensures r.Some? ==> r.value in xs && editingId.Some? && id(r.value) == editingId.value
    ensures r.None? <==> (editingId.None? || editingId.value == ""
                          || forall x :: x in xs ==> id(x) != editingId.value)
  {
    if editingId.Some? && editingId.value != "" then Find(xs, x => id(x) == editingId.value) else None
  }

  /** With unique ids the item being edited is the one a save under its id replaces. */
  lemma ExistingItemIsReplaced<T(!new)>(xs: seq<T>, editingId: Option<string>, item: T, id: T -> string)
    requires UniqueIds(xs, id) && ExistingItem(xs, editingId, id).Some? && id(item) == editingId.value
    ensures exists k :: 0 <= k < |xs| && xs[k] == ExistingItem(xs, editingId, id).value
                        && Upsert(xs, item, id) == xs[k := item]
                        && forall i :: 0 <= i < |xs| && i != k ==> id(xs[i]) != id(item)
  {
    var x := ExistingItem(xs, editingId, id).value;
    var k :| 0 <= k < |xs| && xs[k] == x;
    var ids := Map(xs, id);
    forall i | 0 <= i < |xs| && i != k ensures id(xs[i]) != id(item) {
      assert ids[i] == id(xs[i]) && ids[k] == id(xs[k]);
    }
    assert Upsert(xs, item, id) == xs[k := item];
  }

  /** `(arr || []).map(item => ({ ...item, id: String(item.id) }))` */
  function Normalize<T>(rows: Option<seq<Row<T>>>, setId: (T, string) -> T): (r: seq<T>)
    ensures rows.None? ==> r == []
  {
    match rows
    case None => []
    case Some(xs) => Map(xs, (row: Row<T>) => setId(row.item, ToJsString(row.id)))
  }

  /** After normalisation every id is the string form of the payload's id cell, so a
      numeric id 7 and a textual id "7" become the same key. */
  lemma NormalizeIds<T>(xs: seq<Row<T>>, setId: (T, string) -> T, id: T -> string, i: nat)
    requires forall t, s :: id(setId(t, s)) == s
    requires i < |xs|
    ensures |Normalize(Some(xs), setId)| == |xs|
    ensures id(Normalize(Some(xs), setId)[i]) == ToJsString(xs[i].id)
    ensures xs[i].id == Num(7) ==> id(Normalize(Some(xs), setId)[i]) == "7"
  {
  }

  /** Normalisation changes nothing but the id: putting each item's own id back gives
      the payload item. */
  lemma NormalizeKeepsFields<T>(xs: seq<Row<T>>, setId: (T, string) -> T, id: T -> string, i: nat)
    requires forall t, s :: setId(setId(t, s), id(t)) == t
    requires i < |xs|
    ensures setId(Normalize(Some(xs), setId)[i], id(xs[i].item)) == xs[i].item
  {
    assert Normalize(Some(xs), setId)[i] == setId(xs[i].item, ToJsString(xs[i].id));
  }

  /** The role of a payload employee: trimmed and lower-cased, and anything other than
      the two known roles becomes "employee". */
  function CleanRole(v: Scalar): (r: string)
    ensures r == Manager || r == EmployeeRole
    ensures r == Manager <==> ToLower(Trim(OrEmpty(v))) == Manager
  {
    var role := ToLower(Trim(OrEmpty(v)));
    if role != Manager && role != EmployeeRole then EmployeeRole else role
  }

  /** What the normalisation guarantees of every employee it produces. */
  ghost predicate CleanEmployee(e: Employee) {
    && (e.role == Manager || e.role == EmployeeRole)
    && e.email == ToLower(Trim(e.email))
    && e.code == Trim(e.code)
    && e.password.Some? && e.password.value == Trim(e.password.value)
    && e.photoUrl.Some? && e.photoUrl.value == Trim(e.photoUrl.value)
  }

  /** `(v || '').toString().trim()`: already trimmed. */
  function TrimmedCell(v: Scalar): (s: string)
    ensures s == Trim(OrEmpty(v)) && s == Trim(s)
  {
    TrimIdempotent(OrEmpty(v));
    Trim(OrEmpty(v))
  }

  /** `(v || '').toString().trim().toLowerCase()`: already in normal form. */
  function LoweredCell(v: Scalar): (s: string)
    ensures s == ToLower(Trim(OrEmpty(v))) && s == ToLower(Trim(s))
  {
    LowerTrimIdempotent(OrEmpty(v));
    ToLower(Trim(OrEmpty(v)))
  }

  /** The normalisation of one payload employee. */
  function NormalizeEmployee(raw: RawEmployee): (e: Employee)
    ensures CleanEmployee(e)
    ensures e.id == ToJsString(raw.id)
    ensures e.role == CleanRole(raw.role)
    ensures e.email == ToLower(Trim(OrEmpty(raw.email)))
    ensures e.code == Trim(OrEmpty(raw.code))
    ensures e.password == Some(Trim(OrEmpty(raw.password)))
    ensures e.photoUrl == Some(Trim(OrEmpty(raw.photoUrl)))
    ensures (e.name, e.departmentId, e.position) == (raw.name, raw.departmentId, raw.position)
  {
    Employee(ToJsString(raw.id), TrimmedCell(raw.code), raw.name, raw.departmentId,
      raw.position, LoweredCell(raw.email), CleanRole(raw.role),
      Some(TrimmedCell(raw.password)), Some(TrimmedCell(raw.photoUrl)))
  }

  /** The payload form of an already clean employee, as the backend sends back what was saved. */
  function AsRaw(e: Employee): RawEmployee {
    RawEmployee(Str(e.id), Str(e.code), e.name, e.departmentId, e.position, Str(e.email),
      Str(e.role), Str(e.password.GetOr("")), Str(e.photoUrl.GetOr("")))
  }

  /** The two role names are already in normal form. */
  lemma RoleNamesNormal(role: string)
    requires role == Manager || role == EmployeeRole
    ensures ToLower(Trim(role)) == role
  {
    assert !IsWhitespace(role[0]) && !IsWhitespace(role[|role| - 1]);
    NormalFormFixpoint(role);
  }

  /** Normalisation is a fixpoint on clean employees: loading what was saved gives it back. */
  lemma NormalizeCleanEmployee(e: Employee)
    requires CleanEmployee(e)
    ensures NormalizeEmployee(AsRaw(e)) == e
  {
    var raw := AsRaw(e);
    RoleNamesNormal(e.role);
    assert OrEmpty(raw.role) == e.role;
    assert CleanRole(raw.role) == e.role;
    assert OrEmpty(raw.email) == e.email;
    assert OrEmpty(raw.code) == e.code;
    assert OrEmpty(raw.password) == e.password.value;
    assert OrEmpty(raw.photoUrl) == e.photoUrl.value;
  }

  /** A sheet cell holding the number 0 is falsy, so `(v || '').toString()` makes an
      employee code or password of 0 the empty string rather than "0". */
  lemma ZeroCellBecomesEmpty(raw: RawEmployee)
    requires raw.code == Num(0) && raw.password == Num(0)
    ensures NormalizeEmployee(raw).code == ""
    ensures NormalizeEmployee(raw).password == Some("")
  {
  }

  /** A numeric password such as 1234 becomes the string "1234". */
  lemma NumericPasswordBecomesDigits(raw: RawEmployee, n: nat)
    requires raw.password == Num(n) && n != 0
    ensures NormalizeEmployee(raw).password == Some(NatToString(n))
  {
    var s := NatToString(n);
    assert OrEmpty(raw.password) == s;
    assert IsDigit(s[0]) && IsDigit(s[|s| - 1]);
    TrimOfClean(s);
  }

  function SetDepartmentId(d: Department, id: string): Department { d.(id := id) }
  function SetKpiId(k: Kpi, id: string): Kpi { k.(id := id) }
  function SetAssignmentId(a: Assignment, id: string): Assignment { a.(id := id) }
  function SetActivityId(a: Activity, id: string): Activity { a.(id := id) }
  function SetCompetencyId(c: Competency, id: string): Competency { c.(id := id) }
  function SetCompetencyRecordId(r: CompetencyRecord, id: string): CompetencyRecord { r.(id := id) }

  /** Each id setter changes the id only. */
  lemma IdSettersOnlySetId()
    ensures forall d: Department, s :: SetDepartmentId(SetDepartmentId(d, s), d.id) == d
    ensures forall k: Kpi, s :: SetKpiId(SetKpiId(k, s), k.id) == k
    ensures forall a: Assignment, s :: SetAssignmentId(SetAssignmentId(a, s), a.id) == a
    ensures forall a: Activity, s :: SetActivityId(SetActivityId(a, s), a.id) == a
    ensures forall c: Competency, s :: SetCompetencyId(SetCompetencyId(c, s), c.id) == c
    ensures forall r: CompetencyRecord, s :: SetCompetencyRecordId(SetCompetencyRecordId(r, s), r.id) == r
  {
  }

  /** A payload record: its id normalised and a missing or empty `userNote` made "". */
  function NormalizeRecord(row: Row<KpiRecord>): (r: KpiRecord)
    ensures r.id == ToJsString(row.id)
    ensures r.userNote.Some?
    ensures row.item.userNote.Some? && row.item.userNote.value != "" ==> r.userNote == row.item.userNote
    ensures r.(id := row.item.id, userNote := row.item.userNote) == row.item
  {
    row.item.(id := ToJsString(row.id), userNote := Some(StrOr(row.item.userNote, "")))
  }

  /** The state a successful `getAllData` answer produces. */
  function Loaded(d: AllData, seeds: Collections): Collections {
    Collections(
      Normalize(d.departments, SetDepartmentId),
      match d.employees case None => [] case Some(es) => Map(es, NormalizeEmployee),
      Normalize(d.kpis, SetKpiId),
      Normalize(d.assignments, SetAssignmentId),
      Normalize(d.activities, SetActivityId),
      match d.records case None => [] case Some(rs) => Map(rs, NormalizeRecord),
      d.levelRules.GetOr(seeds.levelRules),
      if d.competencies.Some? && |d.competencies.value| > 0
      then Normalize(d.competencies, SetCompetencyId) else seeds.competencies,
      Normalize(d.competencyRecords, SetCompetencyRecordId))
  }

  /** What a load guarantees: every employee clean, every record with a `userNote`,
      the seed level rules only when the payload has none (an empty list is kept), and
      the seed competencies when the payload's list is missing or empty. */
  lemma LoadedGuarantees(d: AllData, seeds: Collections)
    ensures forall e :: e in Loaded(d, seeds).employees ==> CleanEmployee(e)
    ensures forall r :: r in Loaded(d, seeds).records ==> r.userNote.Some?
    ensures d.levelRules.None? ==> Loaded(d, seeds).levelRules == seeds.levelRules
    ensures d.levelRules == Some([]) ==> Loaded(d, seeds).levelRules == []
    ensures d.competencies.None? || d.competencies == Some([])
            ==> Loaded(d, seeds).competencies == seeds.competencies
    ensures d.departments.None? ==> Loaded(d, seeds).departments == []
  {
    var c := Loaded(d, seeds);
    forall e | e in c.employees ensures CleanEmployee(e) {
      var i :| 0 <= i < |c.employees| && c.employees[i] == e;
    }
    forall r | r in c.records ensures r.userNote.Some? {
      var i :| 0 <= i < |c.records| && c.records[i] == r;
    }
  }

  /** The seed state of a store without a backend. */
  function Seeds(seedCompetencies: seq<Competency>, seedCompetencyRecords: seq<CompetencyRecord>): Collections {
    Collections(MockData.Departments, MockData.Employees, MockData.Kpis, MockData.Assignments,
      MockData.Activities, MockData.Records, MockData.LevelRules, seedCompetencies,
      seedCompetencyRecords)
  }

  /** The state after `refreshData` from state `s`. */
  function Refreshed(s: Collections, connected: bool, seeds: Collections, fetch: Fetch): Collections
  {
    if !connected then seeds
    else match fetch
      case Fetched(Some(d)) => Loaded(d, seeds)
      case Fetched(None) => s
      case FetchFailed => if !connected then seeds else s
  }

  /** Without a backend a refresh always shows the seed data. With one, a failed or
      empty answer leaves the state as it was: the seed fallback in the failure handler
      requires development mode, which excludes a backend, so it never applies. */
  lemma RefreshOutcomes(s: Collections, connected: bool, seeds: Collections, fetch: Fetch)
    ensures !connected ==> Refreshed(s, connected, seeds, fetch) == seeds
    ensures connected && (fetch.FetchFailed? || fetch == Fetched(None))
            ==> Refreshed(s, connected, seeds, fetch) == s
    ensures connected && fetch.Fetched? && fetch.data.Some?
            ==> Refreshed(s, connected, seeds, fetch)
                == Loaded(fetch.data.value, seeds)
  {
  }

  /** The state after an optimistic write produced `s`: unchanged, unless a backend is
      configured and the remote call failed, in which case the store refreshes. */
  function AfterWrite(s: Collections, connected: bool, seeds: Collections, call: Remote,
                      resync: Fetch): Collections
  {
    if connected && call.Failed? then Refreshed(s, connected, seeds, resync) else s
  }

  /** Without a backend, or when the remote call succeeds, the optimistic update is the
      final state. */
  lemma FinalWriteOutcomes(s: Collections, connected: bool, seeds: Collections, call: Remote,
                           resync: Fetch)
    requires !connected || call.Done?
    ensures AfterWrite(s, connected, seeds, call, resync) == s
  {
  }

  /** A failed write is reverted to the server's state when the re-synchronisation
      answers, whatever the optimistic update was; if the re-synchronisation also
      fails, the optimistic update stays. */
  lemma FailedWriteOutcomes(s: Collections, seeds: Collections, resync: Fetch)
    ensures resync.Fetched? && resync.data.Some? ==>
      AfterWrite(s, true, seeds, Failed, resync)
      == Loaded(resync.data.value, seeds)
    ensures resync.FetchFailed? || resync == Fetched(None) ==>
      AfterWrite(s, true, seeds, Failed, resync) == s
  {
  }

  /** The provider: one field per collection and the loading flag. */
  class Store {
    var departments: seq<Department>
    var employees: seq<Employee>
    var kpis: seq<Kpi>
    var assignments: seq<Assignment>
    var activities: seq<Activity>
    var records: seq<KpiRecord>
    var levelRules: seq<LevelRule>
    var competencies: seq<Competency>
    var competencyRecords: seq<CompetencyRecord>
    var loading: bool
    /** Whether a backend is reachable (inside Apps Script or with an API URL). */
    const isConnected: bool
    /** What a refresh without a backend shows, and what a load falls back to. */
    const seeds: Collections

    /** Development mode is exactly the absence of a backend. */
    predicate IsDev() {
      !isConnected
    }

    function Snapshot(): Collections
      reads this
    {
      Collections(departments, employees, kpis, assignments, activities, records, levelRules,
        competencies, competencyRecords)
    }

    /** The first render: every collection empty and `loading` set; the seed collections are fixed here. */
    constructor(isConnected: bool, seedCompetencies: seq<Competency>,
                seedCompetencyRecords: seq<CompetencyRecord>)
      ensures this.isConnected == isConnected
      ensures seeds == Seeds(seedCompetencies, seedCompetencyRecords)
      ensures Snapshot() == Collections([], [], [], [], [], [], [], [], [])
      ensures loading
    {
      this.isConnected := isConnected;
      this.seeds := Seeds(seedCompetencies, seedCompetencyRecords);
      departments, employees, kpis, assignments, activities := [], [], [], [], [];
      records, levelRules, competencies, competencyRecords := [], [], [], [];
      loading := true;
    }

    method SetAll(c: Collections)
      modifies this
      ensures Snapshot() == c && loading == old(loading)
    {
      departments, employees, kpis := c.departments, c.employees, c.kpis;
      assignments, activities, records := c.assignments, c.activities, c.records;
      levelRules, competencies, competencyRecords := c.levelRules, c.competencies, c.competencyRecords;
    }

    /** `refreshData`: `fetch` is how `getAllData` ended, when it is called at all. */
    method RefreshData(fetch: Fetch)
      modifies this
      ensures Snapshot() == Refreshed(old(Snapshot()), isConnected, seeds, fetch)
      ensures !loading
    {
      loading := true;
      if isConnected {
        match fetch
        case Fetched(Some(d)) =>
          SetAll(Loaded(d, seeds));
        case Fetched(None) =>
        case FetchFailed =>
      } else {
        SetAll(seeds);
      }
      loading := false;
    }

    /** The end of `createSaver`/`createDeleter`: re-synchronise when the call failed. */
    method Commit(next: Collections, call: Remote, resync: Fetch)
      modifies this
      ensures Snapshot() == AfterWrite(next, isConnected, seeds, call, resync)
      ensures loading == (old(loading) && !(isConnected && call.Failed?))
    {
      SetAll(next);
      if isConnected && call.Failed? {
        RefreshData(resync);
      }
    }

    method SaveDepartment(d: Department, call: Remote, resync: Fetch)
      modifies this
      ensures Snapshot() == AfterWrite(old(Snapshot()).(departments := Upsert(old(departments), d, DepartmentId)),
                                       isConnected, seeds, call, resync)
      ensures loading == (old(loading) && !(isConnected && call.Failed?))
    {
      Commit(Snapshot().(departments := Upsert(departments, d, DepartmentId)), call, resync);
    }

    method DeleteDepartment(id: string, call: Remote, resync: Fetch)
      modifies this
      ensures Snapshot() == AfterWrite(old(Snapshot()).(departments := RemoveId(old(departments), id, DepartmentId)),
                                       isConnected, seeds, call, resync)
      ensures loading == (old(loading) && !(isConnected && call.Failed?))
    {
      Commit(Snapshot().(departments := RemoveId(departments, id, DepartmentId)), call, resync);
    }

    method SaveEmployee(e: Employee, call: Remote, resync: Fetch)
      modifies this
      ensures Snapshot() == AfterWrite(old(Snapshot()).(employees := Upsert(old(employees), e, EmployeeId)),
                                       isConnected, seeds, call, resync)
      ensures loading == (old(loading) && !(isConnected && call.Failed?))
    {
      Commit(Snapshot().(employees := Upsert(employees, e, EmployeeId)), call, resync);
    }

    method DeleteEmployee(id: string, call: Remote, resync: Fetch)
      modifies this
      ensures Snapshot() == AfterWrite(old(Snapshot()).(employees := RemoveId(old(employees), id, EmployeeId)),
                                       isConnected, seeds, call, resync)
      ensures loading == (old(loading) && !(isConnected && call.Failed?))
    {
      Commit(Snapshot().(employees := RemoveId(employees, id, EmployeeId)), call, resync);
    }

    method SaveKpi(k: Kpi, call: Remote, resync: Fetch)
      modifies this
      ensures Snapshot() == AfterWrite(old(Snapshot()).(kpis := Upsert(old(kpis), k, KpiId)),
                                       isConnected, seeds, call, resync)
      ensures loading == (old(loading) && !(isConnected && call.Failed?))
    {
      Commit(Snapshot().(kpis := Upsert(kpis, k, KpiId)), call, resync);
    }

    method DeleteKpi(id: string, call: Remote, resync: Fetch)
      modifies this
      ensures Snapshot() == AfterWrite(old(Snapshot()).(kpis := RemoveId(old(kpis), id, KpiId)),
                                       isConnected, seeds, call, resync)
      ensures loading == (old(loading) && !(isConnected && call.Failed?))
    {
      Commit(Snapshot().(kpis := RemoveId(kpis, id, KpiId)), call, resync);
    }

    method SaveActivity(a: Activity, call: Remote, resync: Fetch)
      modifies this
      ensures Snapshot() == AfterWrite(old(Snapshot()).(activities := Upsert(old(activities), a, ActivityId)),
                                       isConnected, seeds, call, resync)
      ensures loading == (old(loading) && !(isConnected && call.Failed?))
    {
      Commit(Snapshot().(activities := Upsert(activities, a, ActivityId)), call, resync);
    }

    method DeleteActivity(id: string, call: Remote, resync: Fetch)
      modifies this
      ensures Snapshot() == AfterWrite(old(Snapshot()).(activities := RemoveId(old(activities), id, ActivityId)),
                                       isConnected, seeds, call, resync)
      ensures loading == (old(loading) && !(isConnected && call.Failed?))
    {
      Commit(Snapshot().(activities := RemoveId(activities, id, ActivityId)), call, resync);
    }

    method SaveAssignment(a: Assignment, call: Remote, resync: Fetch)
      modifies this
      ensures Snapshot() == AfterWrite(old(Snapshot()).(assignments := Upsert(old(assignments), a, AssignmentId)),
                                       isConnected, seeds, call, resync)
      ensures loading == (old(loading) && !(isConnected && call.Failed?))
    {
      Commit(Snapshot().(assignments := Upsert(assignments, a, AssignmentId)), call, resync);
    }

    method DeleteAssignment(id: string, call: Remote, resync: Fetch)
      modifies this
      ensures Snapshot() == AfterWrite(old(Snapshot()).(assignments := RemoveId(old(assignments), id, AssignmentId)),
                                       isConnected, seeds, call, resync)
      ensures loading == (old(loading) && !(isConnected && call.Failed?))
    {
      Commit(Snapshot().(assignments := RemoveId(assignments, id, AssignmentId)), call, resync);
    }

    method SaveRecord(r: KpiRecord, call: Remote, resync: Fetch)
      modifies this
      ensures Snapshot() == AfterWrite(old(Snapshot()).(records := Upsert(old(records), r, RecordId)),
                                       isConnected, seeds, call, resync)
      ensures loading == (old(loading) && !(isConnected && call.Failed?))
    {
      Commit(Snapshot().(records := Upsert(records, r, RecordId)), call, resync);
    }

    method DeleteRecord(id: string, call: Remote, resync: Fetch)
      modifies this
      ensures Snapshot() == AfterWrite(old(Snapshot()).(records := RemoveId(old(records), id, RecordId)),
                                       isConnected, seeds, call, resync)
      ensures loading == (old(loading) && !(isConnected && call.Failed?))
    {
      Commit(Snapshot().(records := RemoveId(records, id, RecordId)), call, resync);
    }

    method SaveCompetencyRecord(r: CompetencyRecord, call: Remote, resync: Fetch)
      modifies this
      ensures Snapshot() == AfterWrite(old(Snapshot()).(competencyRecords := Upsert(old(competencyRecords), r, CompetencyRecordId)),
                                       isConnected, seeds, call, resync)
      ensures loading == (old(loading) && !(isConnected && call.Failed?))
    {
      Commit(Snapshot().(competencyRecords := Upsert(competencyRecords, r, CompetencyRecordId)), call, resync);
    }
  }

  /** Mounting the provider without a backend shows the seed data and clears `loading`. */
  method Mount(isConnected: bool, seedCompetencies: seq<Competency>,
               seedCompetencyRecords: seq<CompetencyRecord>, fetch: Fetch) returns (s: Store)
    ensures fresh(s) && s.isConnected == isConnected && !s.loading
    ensures s.seeds == Seeds(seedCompetencies, seedCompetencyRecords)
    ensures !isConnected ==> s.Snapshot() == s.seeds
    ensures isConnected && fetch.Fetched? && fetch.data.Some?
            ==> s.Snapshot() == Loaded(fetch.data.value, s.seeds)
    ensures isConnected && !(fetch.Fetched? && fetch.data.Some?)
            ==> s.Snapshot() == Collections([], [], [], [], [], [], [], [], [])
  {
    s := new Store(isConnected, seedCompetencies, seedCompetencyRecords);
    s.RefreshData(fetch);
  }
}
