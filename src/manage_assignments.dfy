/** The assignment management page: the assignment a save builds from the form and the
    item being edited, the duplicate (employee, KPI) check, and the modal and form state
    its handlers change. */
module ManageAssignments {
  import opened Wrappers
  import opened JsValues
  import opened Types
  import opened SeqUtil
  import Storage

  /** `Partial<Assignment>`: every field of the form may be absent. */
  datatype Draft = Draft(id: Option<string>, employeeId: Option<string>, kpiId: Option<string>,
                         weight: Option<int>, assignedDate: Option<string>)

  const EmptyDraft := Draft(None, None, None, None, None)

  /** `setFormData(item)`: the form holds every field of the item. */
  function DraftOf(a: Assignment): Draft {
    Draft(Some(a.id), Some(a.employeeId), Some(a.kpiId), Some(a.weight), Some(a.assignedDate))
  }

  /** `dataToSave`: each field is the form's value when truthy, else the edited item's,
      else the default (`''`, `0`, or `today`, the date part of the current time). A form
      weight of 0 is falsy, so it never replaces a stored weight. */
  function BuildAssignment(form: Draft, existing: Option<Assignment>, editingId: Option<string>,
                           freshId: string, today: string): (r: Assignment)
    ensures r.id == (if Truthy(editingId) then editingId.value else freshId)
    ensures Truthy(form.employeeId) ==> r.employeeId == form.employeeId.value
    ensures !Truthy(form.employeeId) ==> r.employeeId == (if existing.Some? then existing.value.employeeId else "")
    ensures Truthy(form.kpiId) ==> r.kpiId == form.kpiId.value
    ensures !Truthy(form.kpiId) ==> r.kpiId == (if existing.Some? then existing.value.kpiId else "")
    ensures form.weight.Some? && form.weight.value != 0 ==> r.weight == form.weight.value
    ensures (form.weight.None? || form.weight.value == 0) ==>
              r.weight == (if existing.Some? then existing.value.weight else 0)
    ensures Truthy(form.assignedDate) ==> r.assignedDate == form.assignedDate.value
    ensures !Truthy(form.assignedDate) && existing.Some? && existing.value.assignedDate != "" ==>
              r.assignedDate == existing.value.assignedDate
    ensures !Truthy(form.assignedDate) && (existing.None? || existing.value.assignedDate == "") ==>
              r.assignedDate == today
  {
    Assignment(
      StrOr(editingId, freshId),
      StrOr(form.employeeId, StrOr(if existing.Some? then Some(existing.value.employeeId) else None, "")),
      StrOr(form.kpiId, StrOr(if existing.Some? then Some(existing.value.kpiId) else None, "")),
      IntOr(form.weight, IntOr(if existing.Some? then Some(existing.value.weight) else None, 0)),
      StrOr(form.assignedDate, StrOr(if existing.Some? then Some(existing.value.assignedDate) else None, today)))
  }

  /** Opening an item for editing and saving the form untouched saves the item itself,
      provided it has an id and a date (an item without a date gets `today`). */
  lemma SaveUntouchedEdit(a: Assignment, freshId: string, today: string)
    requires a.id != "" && a.assignedDate != ""
    ensures BuildAssignment(DraftOf(a), Some(a), Some(a.id), freshId, today) == a
  {
  }

  /** The guard of the duplicate check: a new assignment, or an edit whose item still
      exists and whose (employee, KPI) pair changes. */
  predicate ChecksDuplicate(editingId: Option<string>, existing: Option<Assignment>, data: Assignment) {
    || !Truthy(editingId)
    || (existing.Some? && (existing.value.employeeId != data.employeeId || existing.value.kpiId != data.kpiId))
  }

  /** The assignment that already holds the pair, other than the one being edited. */
  function Holder(assignments: seq<Assignment>, data: Assignment, editingId: Option<string>): (r: Option<Assignment>)
    ensures r.Some? ==> && r.value in assignments && r.value.employeeId == data.employeeId
                        && r.value.kpiId == data.kpiId && editingId != Some(r.value.id)
    ensures r.None? <==> forall a :: a in assignments ==>
                           !(a.employeeId == data.employeeId && a.kpiId == data.kpiId && editingId != Some(a.id))
  {
    Find(assignments, (a: Assignment) => a.employeeId == data.employeeId && a.kpiId == data.kpiId && editingId != Some(a.id))
  }

  /** The save is refused: the check runs and finds a holder. */
  predicate Rejected(assignments: seq<Assignment>, editingId: Option<string>, existing: Option<Assignment>,
                     data: Assignment) {
    ChecksDuplicate(editingId, existing, data) && Holder(assignments, data, editingId).Some?
  }

  /** A new assignment whose pair is already assigned is refused. */
  lemma NewDuplicateRejected(assignments: seq<Assignment>, data: Assignment, k: nat)
    requires k < |assignments|
    requires assignments[k].employeeId == data.employeeId && assignments[k].kpiId == data.kpiId
    ensures Rejected(assignments, None, None, data)
  {
    assert assignments[k] in assignments;
  }

  /** An edit that moves the assignment onto a pair another assignment holds is refused. */
  lemma ChangedPairToHeldRejected(assignments: seq<Assignment>, editingId: string, existing: Assignment,
                                  data: Assignment, k: nat)
    requires editingId != "" && k < |assignments| && assignments[k].id != editingId
    requires (existing.employeeId, existing.kpiId) != (data.employeeId, data.kpiId)
    requires assignments[k].employeeId == data.employeeId && assignments[k].kpiId == data.kpiId
    ensures Rejected(assignments, Some(editingId), Some(existing), data)
  {
    assert assignments[k] in assignments;
  }

  /** An edit that keeps its pair is never refused, and neither is an edit whose item has
      disappeared from the collection: the check is skipped in both cases. */
  lemma UncheckedEdits(assignments: seq<Assignment>, editingId: string, existing: Option<Assignment>,
                       data: Assignment)
    requires editingId != ""
    requires existing.Some? ==> (existing.value.employeeId, existing.value.kpiId) == (data.employeeId, data.kpiId)
    ensures !Rejected(assignments, Some(editingId), existing, data)
  {
  }

  /** An edit whose item has meanwhile disappeared is saved unchecked, as a new entry,
      and can then give an employee the same KPI twice. */
  lemma StaleEditDuplicatesPair(held: Assignment, staleId: string, freshId: string, today: string)
    requires staleId != "" && staleId != held.id
    ensures var form := EmptyDraft.(employeeId := Some(held.employeeId), kpiId := Some(held.kpiId));
            var existing := Storage.ExistingItem([held], Some(staleId), Storage.AssignmentId);
            var data := BuildAssignment(form, existing, Some(staleId), freshId, today);
            && !Rejected([held], Some(staleId), existing, data)
            && !UniquePairs(Storage.Upsert([held], data, Storage.AssignmentId))
  {
    var form := EmptyDraft.(employeeId := Some(held.employeeId), kpiId := Some(held.kpiId));
    var existing := Storage.ExistingItem([held], Some(staleId), Storage.AssignmentId);
    assert existing.None?;
    var data := BuildAssignment(form, existing, Some(staleId), freshId, today);
    assert data.id == staleId && data.employeeId == held.employeeId && data.kpiId == held.kpiId;
    assert !ChecksDuplicate(Some(staleId), existing, data);
    var r := Storage.Upsert([held], data, Storage.AssignmentId);
    assert r == [held, data];
    assert (r[0].employeeId, r[0].kpiId) == (r[1].employeeId, r[1].kpiId);
  }

  /** Appending an assignment whose pair no entry holds keeps pairs unique. */
  lemma AppendUnheldKeepsPairs(xs: seq<Assignment>, a: Assignment)
    requires UniquePairs(xs)
    requires forall i :: 0 <= i < |xs| ==> (xs[i].employeeId, xs[i].kpiId) != (a.employeeId, a.kpiId)
    ensures UniquePairs(xs + [a])
  {
  }

  /** Replacing entry `k` by an assignment whose pair no other entry holds keeps pairs
      unique. */
  lemma ReplaceUnheldKeepsPairs(xs: seq<Assignment>, k: nat, a: Assignment)
    requires UniquePairs(xs) && k < |xs|
    requires forall i :: 0 <= i < |xs| && i != k ==> (xs[i].employeeId, xs[i].kpiId) != (a.employeeId, a.kpiId)
    ensures UniquePairs(xs[k := a])
  {
  }

  /** If no two assignments share a pair before a save the check lets through, none do
      after the store's upsert. The fresh id of a new assignment is unused, and an edit's
      item still exists (ids are never empty). */
  lemma AcceptedSaveKeepsPairsUnique(assignments: seq<Assignment>, form: Draft, editingId: Option<string>,
                                     freshId: string, today: string)
    requires Storage.UniqueIds(assignments, Storage.AssignmentId) && UniquePairs(assignments)
    requires editingId.None? ==> forall i :: 0 <= i < |assignments| ==> assignments[i].id != freshId
    requires editingId.Some? ==> Storage.ExistingItem(assignments, editingId, Storage.AssignmentId).Some?
    requires !Rejected(assignments, editingId, Storage.ExistingItem(assignments, editingId, Storage.AssignmentId),
                       BuildAssignment(form, Storage.ExistingItem(assignments, editingId, Storage.AssignmentId),
                                       editingId, freshId, today))
    ensures UniquePairs(Storage.Upsert(assignments,
                                       BuildAssignment(form, Storage.ExistingItem(assignments, editingId, Storage.AssignmentId),
                                                       editingId, freshId, today),
                                       Storage.AssignmentId))
  {
    var existing := Storage.ExistingItem(assignments, editingId, Storage.AssignmentId);
    var data := BuildAssignment(form, existing, editingId, freshId, today);
    if editingId.None? {
      assert Storage.Upsert(assignments, data, Storage.AssignmentId) == assignments + [data];
      forall i | 0 <= i < |assignments|
        ensures (assignments[i].employeeId, assignments[i].kpiId) != (data.employeeId, data.kpiId)
      {
        assert assignments[i] in assignments;
      }
      AppendUnheldKeepsPairs(assignments, data);
    } else {
      Storage.ExistingItemIsReplaced(assignments, editingId, data, Storage.AssignmentId);
      var k :| && 0 <= k < |assignments| && assignments[k] == existing.value
               && Storage.Upsert(assignments, data, Storage.AssignmentId) == assignments[k := data]
               && forall i :: 0 <= i < |assignments| && i != k ==> assignments[i].id != data.id;
      forall i | 0 <= i < |assignments| && i != k
        ensures (assignments[i].employeeId, assignments[i].kpiId) != (data.employeeId, data.kpiId)
      {
        assert assignments[i] in assignments;
        if (existing.value.employeeId, existing.value.kpiId) == (data.employeeId, data.kpiId) {
          assert (assignments[i].employeeId, assignments[i].kpiId) != (assignments[k].employeeId, assignments[k].kpiId)
            by { if i > k { } }
        }
      }
      ReplaceUnheldKeepsPairs(assignments, k, data);
    }
  }

  /** The page's modal and form state and its handlers. */
  class AssignmentsPage {
    var isModalOpen: bool
    var editingId: Option<string>
    var formData: Draft

    constructor()
      ensures !isModalOpen && editingId.None? && formData == EmptyDraft
    {
      isModalOpen, editingId, formData := false, None, EmptyDraft;
    }

    /** `openAdd`: an empty form for a new assignment. */
    method OpenAdd()
      modifies this
      ensures isModalOpen && editingId.None? && formData == EmptyDraft
    {
      editingId, formData, isModalOpen := None, EmptyDraft, true;
    }

    /** `openEdit`: the form holds the whole item. */
    method OpenEdit(item: Assignment)
      modifies this
      ensures isModalOpen && editingId == Some(item.id) && formData == DraftOf(item)
    {
      editingId, formData, isModalOpen := Some(item.id), DraftOf(item), true;
    }

    /** The weight input: `parseInt(value) || 0`. */
    method InputWeight(text: string)
      modifies this
      ensures formData == old(formData).(weight := Some(ParseIntOrZero(text)))
      ensures isModalOpen == old(isModalOpen) && editingId == old(editingId)
    {
      formData := formData.(weight := Some(ParseIntOrZero(text)));
    }

    /** The cancel button only closes the modal. */
    method Cancel()
      modifies this
      ensures !isModalOpen && editingId == old(editingId) && formData == old(formData)
    {
      isModalOpen := false;
    }

    /** `handleSave`: a refused save changes nothing; otherwise the built assignment is
        saved and the modal closes on an empty form. */
    method HandleSave(store: Storage.Store, freshId: string, today: string,
                      call: Storage.Remote, resync: Storage.Fetch) returns (saved: Option<Assignment>)
      modifies this, store
      ensures var existing := Storage.ExistingItem(old(store.assignments), old(editingId), Storage.AssignmentId);
              var data := BuildAssignment(old(formData), existing, old(editingId), freshId, today);
              if Rejected(old(store.assignments), old(editingId), existing, data) then
                && saved.None? && store.Snapshot() == old(store.Snapshot()) && store.loading == old(store.loading)
                && isModalOpen == old(isModalOpen) && editingId == old(editingId) && formData == old(formData)
              else
                && saved == Some(data)
                && store.Snapshot() == Storage.AfterWrite(
                     old(store.Snapshot()).(assignments := Storage.Upsert(old(store.assignments), data, Storage.AssignmentId)),
                     store.isConnected, store.seeds, call, resync)
                && !isModalOpen && editingId.None? && formData == EmptyDraft
    {
      var existing := Storage.ExistingItem(store.assignments, editingId, Storage.AssignmentId);
      var data := BuildAssignment(formData, existing, editingId, freshId, today);
      if ChecksDuplicate(editingId, existing, data) {
        var holder := Holder(store.assignments, data, editingId);
        if holder.Some? {
          return None;
        }
      }
      store.SaveAssignment(data, call, resync);
      isModalOpen, editingId, formData := false, None, EmptyDraft;
      saved := Some(data);
    }

    /** `handleDelete`: the assignment is deleted only when the user confirms. */
    method HandleDelete(store: Storage.Store, item: Assignment, confirmed: bool,
                        call: Storage.Remote, resync: Storage.Fetch)
      modifies store
      ensures confirmed ==> store.Snapshot() == Storage.AfterWrite(
                old(store.Snapshot()).(assignments := Storage.RemoveId(old(store.assignments), item.id, Storage.AssignmentId)),
                store.isConnected, store.seeds, call, resync)
      ensures !confirmed ==> store.Snapshot() == old(store.Snapshot()) && store.loading == old(store.loading)
    {
      if confirmed {
        store.DeleteAssignment(item.id, call, resync);
      }
    }
  }
}
