/** The annual competency assessment page: the years it offers, the period it starts on,
    the levels it loads for the chosen employee and period, the running totals, and the
    records a save writes into the store. */
module CompetencyAssessment {
  import opened Wrappers
  import opened JsValues
  import opened SeqUtil
  import opened Types
  import Storage

  const StartYear: int := 2026
  const LastListedYear: int := 2030
  const AnnualPrefix: string := "Annual-"

  /** `Math.max(currentYear + 1, 2030)`: the last year the period select offers. */
  function EndYear(currentYear: int): (y: int)
    ensures y >= currentYear + 1 && y >= LastListedYear
    ensures y == currentYear + 1 || y == LastListedYear
  {
    if currentYear + 1 > LastListedYear then currentYear + 1 else LastListedYear
  }

  /** `availableYears`: every year from 2026 to the end year, ascending, each once. */
  method AvailableYears(currentYear: int) returns (years: seq<int>)
    ensures |years| == EndYear(currentYear) - StartYear + 1
    ensures forall i :: 0 <= i < |years| ==> years[i] == StartYear + i
    ensures LastListedYear in years
    ensures currentYear + 1 >= StartYear ==> currentYear + 1 in years
  {
    var endYear := EndYear(currentYear);
    years := [];
    var y := StartYear;
    while y <= endYear
      invariant StartYear <= y <= endYear + 1
      invariant |years| == y - StartYear
      invariant forall i :: 0 <= i < |years| ==> years[i] == StartYear + i
    {
      years := years + [y];
      y := y + 1;
    }
    assert years[endYear - StartYear] == endYear;
    assert years[LastListedYear - StartYear] == LastListedYear;
    if currentYear + 1 >= StartYear {
      assert years[currentYear + 1 - StartYear] == currentYear + 1;
    }
  }

  /** The value of the period option for a year. */
  function PeriodOf(year: int): string {
    AnnualPrefix + IntToString(year)
  }

  /** Different years are different periods, so the period string identifies its year. */
  lemma PeriodOfInjective(a: int, b: int)
    requires PeriodOf(a) == PeriodOf(b)
    ensures a == b
  {
    CancelAround(AnnualPrefix, IntToString(a), IntToString(b), []);
    IntToStringInjective(a, b);
  }

  /** The year the page starts on: the current one, but never before 2026; it is always
      one of the offered years. */
  function DefaultYear(currentYear: int): (y: int)
    ensures StartYear <= y <= EndYear(currentYear)
    ensures currentYear >= StartYear ==> y == currentYear
    ensures currentYear < StartYear ==> y == StartYear
  {
    if currentYear < StartYear then StartYear else currentYear
  }

  function DefaultPeriod(currentYear: int): string {
    PeriodOf(DefaultYear(currentYear))
  }

  /** `localRecords`: competency id to chosen level. `None` is the select's empty option,
      which still stores `''` under the competency's key. */
  type Ratings = map<string, Option<Level>>

  /** `localRecords[id]` as a level: a missing key and `''` are both falsy. */
  function RatingOf(local: Ratings, id: string): Option<Level> {
    if id in local then local[id] else None
  }

  /** The records of the chosen employee and period. */
  function Selected(records: seq<CompetencyRecord>, empId: string, period: string): seq<CompetencyRecord> {
    Filter(records, (r: CompetencyRecord) => r.employeeId == empId && r.period == period)
  }

  /** The `forEach` of the load effect: each record writes its level under its
      competency, a later record overwriting an earlier one. */
  function LevelsOf(rs: seq<CompetencyRecord>): Ratings {
    if rs == [] then map[]
    else LevelsOf(rs[..|rs| - 1])[rs[|rs| - 1].competencyId := Some(rs[|rs| - 1].level)]
  }

  /** The competencies with some record are exactly the keys, and every key has a level. */
  lemma {:induction false} LevelsOfKeys(rs: seq<CompetencyRecord>)
    ensures forall k :: k in LevelsOf(rs) ==> LevelsOf(rs)[k].Some?
    ensures forall k :: k in LevelsOf(rs) <==> exists i :: 0 <= i < |rs| && rs[i].competencyId == k
  {
    if rs != [] {
      var pre := rs[..|rs| - 1];
      LevelsOfKeys(pre);
      forall k ensures k in LevelsOf(rs) <==> exists i :: 0 <= i < |rs| && rs[i].competencyId == k {
        if exists i :: 0 <= i < |pre| && pre[i].competencyId == k {
          var i :| 0 <= i < |pre| && pre[i].competencyId == k;
          assert rs[i].competencyId == k;
        }
        if exists i :: 0 <= i < |rs| && rs[i].competencyId == k {
          var i :| 0 <= i < |rs| && rs[i].competencyId == k;
          if i < |pre| {
            assert pre[i].competencyId == k;
          }
        }
      }
    }
  }

  /** A record's level is the one loaded when no later record of the same competency
      holds another level. */
  lemma {:induction false} LevelsOfLastWins(rs: seq<CompetencyRecord>, i: nat)
    requires i < |rs|
    requires forall j :: i < j < |rs| && rs[j].competencyId == rs[i].competencyId ==> rs[j].level == rs[i].level
    ensures rs[i].competencyId in LevelsOf(rs)
    ensures LevelsOf(rs)[rs[i].competencyId] == Some(rs[i].level)
  {
    var last := |rs| - 1;
    if i < last && rs[last].competencyId != rs[i].competencyId {
      var pre := rs[..last];
      assert pre[i] == rs[i];
      forall j | i < j < |pre| && pre[j].competencyId == pre[i].competencyId
        ensures pre[j].level == pre[i].level
      {
        assert pre[j] == rs[j];
      }
      LevelsOfLastWins(pre, i);
    }
  }

  /** What the load effect sets: the levels of the chosen employee and period, or `{}`
      while either is unchosen. */
  function RecordMap(records: seq<CompetencyRecord>, empId: string, period: string): Ratings {
    if empId == "" || period == "" then map[] else LevelsOf(Selected(records, empId, period))
  }

  /** The loaded keys are the competencies that have a record for the chosen employee
      and period, and each loaded value is a level. */
  lemma RecordMapKeys(records: seq<CompetencyRecord>, empId: string, period: string, k: string)
    requires empId != "" && period != ""
    ensures k in RecordMap(records, empId, period) ==> RecordMap(records, empId, period)[k].Some?
    ensures k in RecordMap(records, empId, period) <==>
            exists r :: r in records && r.employeeId == empId && r.period == period && r.competencyId == k
  {
    var sel := Selected(records, empId, period);
    LevelsOfKeys(sel);
    if exists r :: r in records && r.employeeId == empId && r.period == period && r.competencyId == k {
      var r :| r in records && r.employeeId == empId && r.period == period && r.competencyId == k;
      assert r in sel;
      var i :| 0 <= i < |sel| && sel[i] == r;
    }
    if k in LevelsOf(sel) {
      var i :| 0 <= i < |sel| && sel[i].competencyId == k;
      assert sel[i] in sel;
    }
  }

  /** A competency whose records for the employee and period all hold the same level
      loads that level. */
  lemma LoadShowsSavedLevel(records: seq<CompetencyRecord>, r: CompetencyRecord)
    requires r in records && r.employeeId != "" && r.period != ""
    requires forall x :: (x in records && x.employeeId == r.employeeId && x.period == r.period
                          && x.competencyId == r.competencyId) ==> x.level == r.level
    ensures r.competencyId in RecordMap(records, r.employeeId, r.period)
    ensures RecordMap(records, r.employeeId, r.period)[r.competencyId] == Some(r.level)
  {
    var sel := Selected(records, r.employeeId, r.period);
    assert r in sel;
    var i :| 0 <= i < |sel| && sel[i] == r;
    forall j | i < j < |sel| && sel[j].competencyId == sel[i].competencyId
      ensures sel[j].level == sel[i].level
    {
      assert sel[j] in sel;
    }
    LevelsOfLastWins(sel, i);
  }

  /** The contribution of one competency: its weighted raw score when rated, else 0. */
  function Contribution(c: Competency, local: Ratings): real {
    match RatingOf(local, c.id)
    case Some(l) => WeightedScore(CompetencyScore(l), c.weight)
    case None => 0.0
  }

  /** `totalScore` of `calculateTotal`: the contributions of all competencies. */
  function TotalScore(comps: seq<Competency>, local: Ratings): real {
    if comps == [] then 0.0
    else TotalScore(comps[..|comps| - 1], local) + Contribution(comps[|comps| - 1], local)
  }

  /** `totalWeight`: every competency's weight, rated or not. */
  function TotalWeight(comps: seq<Competency>): int {
    if comps == [] then 0 else TotalWeight(comps[..|comps| - 1]) + comps[|comps| - 1].weight
  }

  /** With non-negative weights the total lies between 0 and 130 % of the total weight,
      the top level's raw score. */
  lemma {:induction false} TotalScoreBounds(comps: seq<Competency>, local: Ratings)
    requires forall i :: 0 <= i < |comps| ==> comps[i].weight >= 0
    ensures 0.0 <= TotalScore(comps, local) <= 1.3 * TotalWeight(comps) as real
  {
    if comps != [] {
      var c := comps[|comps| - 1];
      TotalScoreBounds(comps[..|comps| - 1], local);
      match RatingOf(local, c.id)
      case Some(l) =>
        WeightedScoreMonotone(CompetencyScore(l), 130, c.weight);
      case None =>
    }
  }

  /** GP is the standard: rating every competency GP makes the total equal the total
      weight, since its raw score is 100. */
  lemma {:induction false} StandardRatingScoresTotalWeight(comps: seq<Competency>, local: Ratings)
    requires forall i :: 0 <= i < |comps| ==> RatingOf(local, comps[i].id) == Some(GP)
    ensures TotalScore(comps, local) == TotalWeight(comps) as real
  {
    if comps != [] {
      var c := comps[|comps| - 1];
      StandardRatingScoresTotalWeight(comps[..|comps| - 1], local);
      assert Contribution(c, local) == (100 * c.weight) as real / 100.0;
    }
  }

  /** Nothing rated scores 0, whatever the weights. */
  lemma {:induction false} UnratedScoresZero(comps: seq<Competency>, local: Ratings)
    requires forall i :: 0 <= i < |comps| ==> RatingOf(local, comps[i].id).None?
    ensures TotalScore(comps, local) == 0.0
  {
    if comps != [] {
      UnratedScoresZero(comps[..|comps| - 1], local);
    }
  }

  predicate IsRated(local: Ratings, c: Competency) {
    RatingOf(local, c.id).Some?
  }

  /** The competencies a save writes: the rated ones, in order. */
  function Rated(comps: seq<Competency>, local: Ratings): seq<Competency> {
    Filter(comps, (c: Competency) => IsRated(local, c))
  }

  /** The record a save finds for a competency: the first of the employee, period and
      competency. */
  function ExistingRecord(records: seq<CompetencyRecord>, empId: string, period: string,
                          competencyId: string): Option<CompetencyRecord>
  {
    Find(records, (r: CompetencyRecord) =>
      r.employeeId == empId && r.period == period && r.competencyId == competencyId)
  }

  /** `existing?.id || uuidv4()`. */
  function RecordId(existing: Option<CompetencyRecord>, freshId: string): string {
    if existing.Some? && existing.value.id != "" then existing.value.id else freshId
  }

  /** The record the save builds for a rated competency. `uuids(c.id)` is the id the
      generator would hand out for it. */
  function RecordFor(c: Competency, l: Level, records: seq<CompetencyRecord>, empId: string,
                     period: string, now: string, uuids: string -> string): CompetencyRecord
  {
    var score := CompetencyScore(l);
    CompetencyRecord(RecordId(ExistingRecord(records, empId, period, c.id), uuids(c.id)),
      now, empId, c.id, period, l, score, c.weight, WeightedScore(score, c.weight))
  }

  /** What the save writes for the rated competency `c`: a record of `c` for the chosen
      employee and period, with the chosen level, its raw and weighted score, the
      competency's weight, and the id of the record it replaces or a fresh one. */
  ghost predicate SavedFor(r: CompetencyRecord, c: Competency, local: Ratings,
                           records: seq<CompetencyRecord>, empId: string, period: string,
                           now: string, uuids: string -> string)
  {
    && r.competencyId == c.id && Some(r.level) == RatingOf(local, c.id)
    && r.employeeId == empId && r.period == period && r.date == now
    && r.score == CompetencyScore(r.level) && r.weight == c.weight
    && r.weightedScore == WeightedScore(r.score, c.weight)
    && r.id == RecordId(ExistingRecord(records, empId, period, c.id), uuids(c.id))
  }

  /** The records `handleSaveAll` writes: one per rated competency, in competency
      order. */
  function RecordsToSave(comps: seq<Competency>, local: Ratings, records: seq<CompetencyRecord>,
                         empId: string, period: string, now: string, uuids: string -> string)
    : (rs: seq<CompetencyRecord>)
    ensures |rs| == |Rated(comps, local)|
    ensures forall k :: 0 <= k < |rs| ==>
      SavedFor(rs[k], Rated(comps, local)[k], local, records, empId, period, now, uuids)
  {
    var rated := Rated(comps, local);
    assert forall k :: 0 <= k < |rated| ==> rated[k] in rated;
    // Every competency of `rated` has a rating, so the fallback level is never used.
    Map(rated, (c: Competency) =>
      RecordFor(c, RatingOf(local, c.id).GetOr(F), records, empId, period, now, uuids))
  }

  /** The guard of `handleSaveAll`: an employee and a period are chosen and the rating
      map has some key. */
  predicate CanSave(empId: string, period: string, local: Ratings) {
    empId != "" && period != "" && |local.Keys| > 0
  }

  /** The key-count guard lets through a map whose every entry was reset to the empty
      option, and the save then writes nothing. */
  lemma BlankSelectionsSaveNothing(comps: seq<Competency>, local: Ratings, records: seq<CompetencyRecord>,
                                   empId: string, period: string, now: string, uuids: string -> string)
    requires empId != "" && period != "" && local != map[]
    requires forall k :: k in local ==> local[k].None?
    ensures CanSave(empId, period, local)
    ensures RecordsToSave(comps, local, records, empId, period, now, uuids) == []
  {
    var k :| k in local;
    assert k in local.Keys;
    FilterDropsAll(comps, (c: Competency) => IsRated(local, c));
  }

  /** The optimistic updates of the saves, one after another. */
  function UpsertAll(xs: seq<CompetencyRecord>, rs: seq<CompetencyRecord>): seq<CompetencyRecord> {
    if rs == [] then xs
    else Storage.Upsert(UpsertAll(xs, rs[..|rs| - 1]), rs[|rs| - 1], Storage.CompetencyRecordId)
  }

  /** Saving records that all reuse stored ids replaces them in place: the collection
      keeps its size and its set of ids, which stay unique. */
  lemma {:induction false} UpsertAllExisting(xs: seq<CompetencyRecord>, rs: seq<CompetencyRecord>)
    requires Storage.UniqueIds(xs, Storage.CompetencyRecordId)
    requires forall k :: 0 <= k < |rs| ==> rs[k].id in Map(xs, Storage.CompetencyRecordId)
    ensures |UpsertAll(xs, rs)| == |xs|
    ensures Storage.UniqueIds(UpsertAll(xs, rs), Storage.CompetencyRecordId)
    ensures forall x :: x in Map(UpsertAll(xs, rs), Storage.CompetencyRecordId) <==>
                        x in Map(xs, Storage.CompetencyRecordId)
  {
    if rs != [] {
      var pre := rs[..|rs| - 1];
      var item := rs[|rs| - 1];
      forall k | 0 <= k < |pre| ensures pre[k].id in Map(xs, Storage.CompetencyRecordId) {
        assert pre[k] == rs[k];
      }
      UpsertAllExisting(xs, pre);
      var ys := UpsertAll(xs, pre);
      assert item.id in Map(ys, Storage.CompetencyRecordId);
      var i :| 0 <= i < |ys| && Map(ys, Storage.CompetencyRecordId)[i] == item.id;
      assert Storage.CompetencyRecordId(ys[i]) == Storage.CompetencyRecordId(item);
      Storage.UpsertPresentKeepsLength(ys, item, Storage.CompetencyRecordId);
      Storage.UpsertKeepsIdsUnique(ys, item, Storage.CompetencyRecordId);
    }
  }

  /** Re-assessing an employee whose rated competencies all have a stored record with
      an id does not add records: each save replaces the record it found. */
  lemma ReassessKeepsRecordCount(comps: seq<Competency>, local: Ratings, records: seq<CompetencyRecord>,
                                 empId: string, period: string, now: string, uuids: string -> string)
    requires Storage.UniqueIds(records, Storage.CompetencyRecordId)
    requires forall i :: 0 <= i < |comps| && IsRated(local, comps[i]) ==>
               var e := ExistingRecord(records, empId, period, comps[i].id);
               e.Some? && e.value.id != ""
    ensures |UpsertAll(records, RecordsToSave(comps, local, records, empId, period, now, uuids))| == |records|
  {
    var rs := RecordsToSave(comps, local, records, empId, period, now, uuids);
    var rated := Rated(comps, local);
    forall k | 0 <= k < |rs| ensures rs[k].id in Map(records, Storage.CompetencyRecordId) {
      var c := rated[k];
      assert c in rated;
      var i :| 0 <= i < |comps| && comps[i] == c;
      var e := ExistingRecord(records, empId, period, c.id);
      assert e.Some? && e.value.id != "";
      var j :| 0 <= j < |records| && records[j] == e.value;
      assert Map(records, Storage.CompetencyRecordId)[j] == rs[k].id;
    }
    UpsertAllExisting(records, rs);
  }

  function CompetencyKey(c: Competency): string { c.id }


  /** At most one stored record per employee, period and competency. */
  ghost predicate OneRecordPerKey(records: seq<CompetencyRecord>) {
    forall x, y ::
      (x in records && y in records && x.employeeId == y.employeeId && x.period == y.period
       && x.competencyId == y.competencyId) ==> x == y
  }

  /** What the save expects of the ids: every stored record has an id, and the generator
      gives each competency its own id, which no stored record has. */
  ghost predicate FreshIds(records: seq<CompetencyRecord>, uuids: string -> string) {
    && (forall x :: x in records ==> x.id != "")
    && (forall cid :: uuids(cid) !in Map(records, Storage.CompetencyRecordId))
    && (forall a, b :: uuids(a) == uuids(b) ==> a == b)
  }

  /** Saving records one after another keeps the ids unique; afterwards the collection
      holds the saved records and the stored records whose id was not saved. */
  lemma {:induction false} UpsertAllMembers(xs: seq<CompetencyRecord>, rs: seq<CompetencyRecord>)
    requires Storage.UniqueIds(xs, Storage.CompetencyRecordId)
    requires Storage.UniqueIds(rs, Storage.CompetencyRecordId)
    ensures Storage.UniqueIds(UpsertAll(xs, rs), Storage.CompetencyRecordId)
    ensures forall x :: x in UpsertAll(xs, rs) <==>
              x in rs || (x in xs && x.id !in Map(rs, Storage.CompetencyRecordId))
  {
    if rs != [] {
      var n := |rs| - 1;
      var pre, item := rs[..n], rs[n];
      assert rs == pre + [item];
      assert Map(rs, Storage.CompetencyRecordId) == Map(pre, Storage.CompetencyRecordId) + [item.id];
      assert Storage.UniqueIds(pre, Storage.CompetencyRecordId) by {
        forall i, j | 0 <= i < j < |pre|
          ensures Map(pre, Storage.CompetencyRecordId)[i] != Map(pre, Storage.CompetencyRecordId)[j]
        {
          assert Map(rs, Storage.CompetencyRecordId)[i] != Map(rs, Storage.CompetencyRecordId)[j];
        }
      }
      forall x | x in pre ensures x.id != item.id {
        var i :| 0 <= i < |pre| && pre[i] == x;
        assert Map(rs, Storage.CompetencyRecordId)[i] != Map(rs, Storage.CompetencyRecordId)[n];
      }
      UpsertAllMembers(xs, pre);
      var ys := UpsertAll(xs, pre);
      Storage.UpsertKeepsIdsUnique(ys, item, Storage.CompetencyRecordId);
      Storage.UpsertMembers(ys, item, Storage.CompetencyRecordId);
    }
  }

  /** A stored record of the key is the one the save finds, and the save reuses its id. */
  lemma StoredRecordIdReused(records: seq<CompetencyRecord>, x: CompetencyRecord, freshId: string)
    requires OneRecordPerKey(records) && x in records && x.id != ""
    ensures RecordId(ExistingRecord(records, x.employeeId, x.period, x.competencyId), freshId) == x.id
  {
    var e := ExistingRecord(records, x.employeeId, x.period, x.competencyId);
    assert e.Some?;
  }

  /** The ids the save gives two different competencies differ. */
  lemma SaveIdsDiffer(records: seq<CompetencyRecord>, empId: string, period: string,
                      uuids: string -> string, a: string, b: string)
    requires a != b && Storage.UniqueIds(records, Storage.CompetencyRecordId) && FreshIds(records, uuids)
    ensures RecordId(ExistingRecord(records, empId, period, a), uuids(a))
            != RecordId(ExistingRecord(records, empId, period, b), uuids(b))
  {
    var ea := ExistingRecord(records, empId, period, a);
    var eb := ExistingRecord(records, empId, period, b);
    if ea.Some? {
      var i :| 0 <= i < |records| && records[i] == ea.value;
      assert Map(records, Storage.CompetencyRecordId)[i] == ea.value.id;
    }
    if eb.Some? {
      var j :| 0 <= j < |records| && records[j] == eb.value;
      assert Map(records, Storage.CompetencyRecordId)[j] == eb.value.id;
    }
    if ea.Some? && eb.Some? && ea.value.id == eb.value.id {
      Storage.SameIdSameItem(records, Storage.CompetencyRecordId, ea.value, eb.value);
    }
  }

  /** The records one save writes have distinct competencies and distinct ids. */
  lemma SavedRecordsDistinct(comps: seq<Competency>, local: Ratings, records: seq<CompetencyRecord>,
                             empId: string, period: string, now: string, uuids: string -> string)
    requires DistinctKeys(comps, CompetencyKey)
    requires Storage.UniqueIds(records, Storage.CompetencyRecordId) && FreshIds(records, uuids)
    ensures var rs := RecordsToSave(comps, local, records, empId, period, now, uuids);
            Storage.UniqueIds(rs, Storage.CompetencyRecordId)
            && forall i, j :: 0 <= i < j < |rs| ==> rs[i].competencyId != rs[j].competencyId
  {
    var rs := RecordsToSave(comps, local, records, empId, period, now, uuids);
    var rated := Rated(comps, local);
    FilterKeepsDistinct(comps, (c: Competency) => IsRated(local, c), CompetencyKey);
    forall i, j | 0 <= i < j < |rs|
      ensures rs[i].competencyId != rs[j].competencyId
      ensures Map(rs, Storage.CompetencyRecordId)[i] != Map(rs, Storage.CompetencyRecordId)[j]
    {
      assert CompetencyKey(rated[i]) != CompetencyKey(rated[j]);
      SaveIdsDiffer(records, empId, period, uuids, rated[i].id, rated[j].id);
    }
  }

  /** A stored record of the key of a saved record is replaced by it: the save reused
      its id. */
  lemma SavedReplacesStored(comps: seq<Competency>, local: Ratings, records: seq<CompetencyRecord>,
                            empId: string, period: string, now: string, uuids: string -> string,
                            k: nat, x: CompetencyRecord)
    requires OneRecordPerKey(records) && FreshIds(records, uuids) && x in records
    requires x.employeeId == empId && x.period == period
    requires var rs := RecordsToSave(comps, local, records, empId, period, now, uuids);
             k < |rs| && rs[k].competencyId == x.competencyId
    ensures x.id in Map(RecordsToSave(comps, local, records, empId, period, now, uuids), Storage.CompetencyRecordId)
  {
    var rs := RecordsToSave(comps, local, records, empId, period, now, uuids);
    StoredRecordIdReused(records, x, uuids(x.competencyId));
    assert Map(rs, Storage.CompetencyRecordId)[k] == x.id;
  }

  /** After a save there is still at most one record per employee, period and competency,
      and the ids stay unique. */
  lemma SaveKeepsOneRecordPerKey(comps: seq<Competency>, local: Ratings, records: seq<CompetencyRecord>,
                                 empId: string, period: string, now: string, uuids: string -> string)
    requires DistinctKeys(comps, CompetencyKey)
    requires Storage.UniqueIds(records, Storage.CompetencyRecordId) && FreshIds(records, uuids)
    requires OneRecordPerKey(records)
    ensures var after := UpsertAll(records, RecordsToSave(comps, local, records, empId, period, now, uuids));
            Storage.UniqueIds(after, Storage.CompetencyRecordId) && OneRecordPerKey(after)
  {
    var rs := RecordsToSave(comps, local, records, empId, period, now, uuids);
    SavedRecordsDistinct(comps, local, records, empId, period, now, uuids);
    UpsertAllMembers(records, rs);
    var after := UpsertAll(records, rs);
    forall x, y | x in after && y in after && x.employeeId == y.employeeId && x.period == y.period
                  && x.competencyId == y.competencyId
      ensures x == y
    {
      if x in rs && y in rs {
        var i :| 0 <= i < |rs| && rs[i] == x;
        var j :| 0 <= j < |rs| && rs[j] == y;
        assert !(i < j) && !(j < i);
      } else if x in rs {
        var i :| 0 <= i < |rs| && rs[i] == x;
        SavedReplacesStored(comps, local, records, empId, period, now, uuids, i, y);
      } else if y in rs {
        var j :| 0 <= j < |rs| && rs[j] == y;
        SavedReplacesStored(comps, local, records, empId, period, now, uuids, j, x);
      }
    }
  }

  /** After a save, the saved record of a competency is the only record of its key. */
  lemma SavedIsOnlyOfKey(comps: seq<Competency>, local: Ratings, records: seq<CompetencyRecord>,
                         empId: string, period: string, now: string, uuids: string -> string,
                         k: nat, x: CompetencyRecord)
    requires DistinctKeys(comps, CompetencyKey)
    requires Storage.UniqueIds(records, Storage.CompetencyRecordId) && FreshIds(records, uuids)
    requires OneRecordPerKey(records)
    requires k < |RecordsToSave(comps, local, records, empId, period, now, uuids)|
    requires x in UpsertAll(records, RecordsToSave(comps, local, records, empId, period, now, uuids))
    requires x.employeeId == empId && x.period == period
    requires x.competencyId == RecordsToSave(comps, local, records, empId, period, now, uuids)[k].competencyId
    ensures x == RecordsToSave(comps, local, records, empId, period, now, uuids)[k]
  {
    var rs := RecordsToSave(comps, local, records, empId, period, now, uuids);
    UpsertAllMembers(records, rs) by {
      SavedRecordsDistinct(comps, local, records, empId, period, now, uuids);
    }
    if x in rs {
      var j :| 0 <= j < |rs| && rs[j] == x;
      assert rs[j].competencyId == rs[k].competencyId;
      assert j == k by {
        SavedRecordsDistinct(comps, local, records, empId, period, now, uuids);
      }
    } else {
      SavedReplacesStored(comps, local, records, empId, period, now, uuids, k, x);
    }
  }

  /** The save round trip: after saving, the ratings loaded back for the employee and
      period show the level chosen for every rated competency. */
  lemma SaveThenReloadShowsLevel(comps: seq<Competency>, local: Ratings, records: seq<CompetencyRecord>,
                                 empId: string, period: string, now: string, uuids: string -> string,
                                 c: Competency)
    requires DistinctKeys(comps, CompetencyKey)
    requires Storage.UniqueIds(records, Storage.CompetencyRecordId) && FreshIds(records, uuids)
    requires OneRecordPerKey(records)
    requires empId != "" && period != "" && c in comps && IsRated(local, c)
    ensures var after := UpsertAll(records, RecordsToSave(comps, local, records, empId, period, now, uuids));
            c.id in RecordMap(after, empId, period) && RecordMap(after, empId, period)[c.id] == RatingOf(local, c.id)
  {
    var rs := RecordsToSave(comps, local, records, empId, period, now, uuids);
    var rated := Rated(comps, local);
    assert c in rated;
    var k :| 0 <= k < |rated| && rated[k] == c;
    var r := rs[k];
    var after := UpsertAll(records, rs);
    assert r in after by {
      SavedRecordsDistinct(comps, local, records, empId, period, now, uuids);
      UpsertAllMembers(records, rs);
    }
    forall x | x in after && x.employeeId == r.employeeId && x.period == r.period
               && x.competencyId == r.competencyId
      ensures x.level == r.level
    {
      SavedIsOnlyOfKey(comps, local, records, empId, period, now, uuids, k, x);
    }
    LoadShowsSavedLevel(after, r);
  }

  /** The optimistic half of one save: the record is upserted and nothing else changes. */
  method SaveOne(store: Storage.Store, r: CompetencyRecord, resync: Storage.Fetch)
    modifies store
    ensures store.Snapshot() == old(store.Snapshot()).(competencyRecords :=
              Storage.Upsert(old(store.competencyRecords), r, Storage.CompetencyRecordId))
    ensures store.loading == old(store.loading)
  {
    store.SaveCompetencyRecord(r, Storage.Done, resync);
  }

  /** The optimistic halves of the saves, in order; the remote answers are not awaited
      here. */
  method SaveEach(store: Storage.Store, rs: seq<CompetencyRecord>, resync: Storage.Fetch)
    modifies store
    ensures store.Snapshot() == old(store.Snapshot()).(competencyRecords := UpsertAll(old(store.competencyRecords), rs))
    ensures store.loading == old(store.loading)
  {
    var i := 0;
    while i < |rs|
      invariant 0 <= i <= |rs|
      invariant store.competencyRecords == UpsertAll(old(store.competencyRecords), rs[..i])
      invariant store.Snapshot() == old(store.Snapshot()).(competencyRecords := store.competencyRecords)
      invariant store.loading == old(store.loading)
    {
      assert rs[..i + 1][..i] == rs[..i];
      SaveOne(store, rs[i], resync);
      i := i + 1;
    }
    assert rs[..|rs|] == rs;
  }

  /** The assessment page's state. */
  class AssessmentPage {
    var selectedEmpId: string
    var selectedPeriod: string
    var localRecords: Ratings

    constructor()
      ensures selectedEmpId == "" && selectedPeriod == "" && localRecords == map[]
    {
      selectedEmpId, selectedPeriod, localRecords := "", "", map[];
    }

    /** The initialisation effect: the default period, and an employee assesses
        themself. */
    method InitSelection(user: Option<Employee>, currentYear: int)
      modifies this
      ensures selectedPeriod == DefaultPeriod(currentYear)
      ensures user.Some? && user.value.role == EmployeeRole ==> selectedEmpId == user.value.id
      ensures !(user.Some? && user.value.role == EmployeeRole) ==> selectedEmpId == old(selectedEmpId)
      ensures localRecords == old(localRecords)
    {
      var currentDefault := if currentYear < StartYear then StartYear else currentYear;
      selectedPeriod := AnnualPrefix + IntToString(currentDefault);
      if user.Some? && user.value.role == EmployeeRole {
        selectedEmpId := user.value.id;
      }
    }

    /** The employee select (a manager's only). */
    method SelectEmployee(id: string)
      modifies this
      ensures selectedEmpId == id && selectedPeriod == old(selectedPeriod) && localRecords == old(localRecords)
    {
      selectedEmpId := id;
    }

    /** The period select. */
    method SelectPeriod(period: string)
      modifies this
      ensures selectedPeriod == period && selectedEmpId == old(selectedEmpId) && localRecords == old(localRecords)
    {
      selectedPeriod := period;
    }

    /** The load effect, run whenever the selection or the stored records change. */
    method SyncRecords(records: seq<CompetencyRecord>)
      modifies this
      ensures localRecords == RecordMap(records, selectedEmpId, selectedPeriod)
      ensures selectedEmpId == old(selectedEmpId) && selectedPeriod == old(selectedPeriod)
    {
      if selectedEmpId != "" && selectedPeriod != "" {
        var existing := Selected(records, selectedEmpId, selectedPeriod);
        var recordMap: Ratings := map[];
        var i := 0;
        while i < |existing|
          invariant 0 <= i <= |existing|
          invariant recordMap == LevelsOf(existing[..i])
        {
          assert existing[..i + 1][..i] == existing[..i];
          recordMap := recordMap[existing[i].competencyId := Some(existing[i].level)];
          i := i + 1;
        }
        assert existing[..|existing|] == existing;
        localRecords := recordMap;
      } else {
        localRecords := map[];
      }
    }

    /** `handleScoreChange`: one competency's level is set, the empty option included;
        every other rating stays. */
    method HandleScoreChange(competencyId: string, level: Option<Level>)
      modifies this
      ensures RatingOf(localRecords, competencyId) == level && competencyId in localRecords
      ensures forall k :: k != competencyId ==>
                (k in localRecords <==> k in old(localRecords)) && RatingOf(localRecords, k) == RatingOf(old(localRecords), k)
      ensures selectedEmpId == old(selectedEmpId) && selectedPeriod == old(selectedPeriod)
    {
      localRecords := localRecords[competencyId := level];
    }

    /** `calculateTotal`: the weighted score of the rated competencies and the weight of
        them all. */
    method CalculateTotal(competencies: seq<Competency>) returns (totalScore: real, totalWeight: int)
      ensures totalScore == TotalScore(competencies, localRecords)
      ensures totalWeight == TotalWeight(competencies)
    {
      totalScore, totalWeight := 0.0, 0;
      var i := 0;
      while i < |competencies|
        invariant 0 <= i <= |competencies|
        invariant totalScore == TotalScore(competencies[..i], localRecords)
        invariant totalWeight == TotalWeight(competencies[..i])
      {
        var comp := competencies[i];
        assert competencies[..i + 1][..i] == competencies[..i];
        var level := RatingOf(localRecords, comp.id);
        if level.Some? {
          var rawScore := CompetencyScore(level.value);
          totalScore := totalScore + WeightedScore(rawScore, comp.weight);
        }
        totalWeight := totalWeight + comp.weight;
        i := i + 1;
      }
      assert competencies[..|competencies|] == competencies;
    }

    /** `handleSaveAll`. Past the guard, every rated competency's record is written to
        the store at once; the remote calls answer afterwards, and if any fails the
        store re-synchronises. */
    method HandleSaveAll(store: Storage.Store, now: string, uuids: string -> string,
                         anyFailed: bool, resync: Storage.Fetch)
      returns (saved: seq<CompetencyRecord>)
      modifies store
      ensures !CanSave(selectedEmpId, selectedPeriod, localRecords) ==>
                saved == [] && store.Snapshot() == old(store.Snapshot()) && store.loading == old(store.loading)
      ensures CanSave(selectedEmpId, selectedPeriod, localRecords) ==>
                saved == RecordsToSave(old(store.competencies), localRecords, old(store.competencyRecords),
                                       selectedEmpId, selectedPeriod, now, uuids)
                && store.Snapshot() == Storage.AfterWrite(
                     old(store.Snapshot()).(competencyRecords := UpsertAll(old(store.competencyRecords), saved)),
                     store.isConnected, store.seeds,
                     if anyFailed then Storage.Failed else Storage.Done, resync)
    {
      if !CanSave(selectedEmpId, selectedPeriod, localRecords) {
        return [];
      }
      saved := RecordsToSave(store.competencies, localRecords, store.competencyRecords,
                             selectedEmpId, selectedPeriod, now, uuids);
      SaveEach(store, saved, resync);
      store.Commit(store.Snapshot(), if anyFailed then Storage.Failed else Storage.Done, resync);
    }
  }
}
