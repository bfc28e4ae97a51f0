/** The department management page: the department a save builds from the form over the
    item being edited, the per-department head count, and the modal and form state its
    handlers change. */
module ManageDepartments {
  import opened Wrappers
  import opened JsValues
  import opened SeqUtil
  import opened Types
  import Storage

  /** `Partial<Department>`. */
  datatype Draft = Draft(id: Option<string>, code: Option<string>, name: Option<string>, manager: Option<string>)

  const EmptyDraft := Draft(None, None, None, None)

  function DraftOf(d: Department): Draft {
    Draft(Some(d.id), Some(d.code), Some(d.name), Some(d.manager))
  }

  /** The saved department: code, name and manager coalesce with `||` from the form to the
      edited item to `''`. */
  function BuildDepartment(form: Draft, existing: Option<Department>, editingId: Option<string>,
                           freshId: string): (r: Department)
    ensures r.id == (if Truthy(editingId) then editingId.value else freshId)
    ensures Truthy(form.code) ==> r.code == form.code.value
    ensures !Truthy(form.code) ==> r.code == (if existing.Some? then existing.value.code else "")
    ensures Truthy(form.name) ==> r.name == form.name.value
    ensures !Truthy(form.name) ==> r.name == (if existing.Some? then existing.value.name else "")
    ensures Truthy(form.manager) ==> r.manager == form.manager.value
    ensures !Truthy(form.manager) ==> r.manager == (if existing.Some? then existing.value.manager else "")
  {
    var e := existing;
    Department(
      StrOr(editingId, freshId),
      StrOr(form.code, StrOr(if e.Some? then Some(e.value.code) else None, "")),
      StrOr(form.name, StrOr(if e.Some? then Some(e.value.name) else None, "")),
      StrOr(form.manager, StrOr(if e.Some? then Some(e.value.manager) else None, "")))
  }

  /** Opening a department for editing and saving the form untouched saves it unchanged. */
  lemma SaveUntouchedEdit(d: Department, freshId: string)
    requires d.id != ""
    ensures BuildDepartment(DraftOf(d), Some(d), Some(d.id), freshId) == d
  {
  }

  /** `getEmployeeCount`: how many employees belong to the department. */
  function EmployeeCount(employees: seq<Employee>, deptId: string): (n: nat)
    ensures n <= |employees|
    ensures n == 0 <==> forall e :: e in employees ==> e.departmentId != deptId
    ensures n == |employees| <==> forall i :: 0 <= i < |employees| ==> employees[i].departmentId == deptId
  {
    var members := Filter(employees, (e: Employee) => e.departmentId == deptId);
    FilterKeepsLength(employees, (e: Employee) => e.departmentId == deptId);
    assert members != [] ==> members[0] in members;
    |members|
  }

  /** Head counts add up over a split of the employee list. */
  lemma EmployeeCountSplit(xs: seq<Employee>, ys: seq<Employee>, deptId: string)
    ensures EmployeeCount(xs + ys, deptId) == EmployeeCount(xs, deptId) + EmployeeCount(ys, deptId)
  {
    FilterConcat(xs, ys, (e: Employee) => e.departmentId == deptId);
  }

  class DepartmentsPage {
    var isModalOpen: bool
    var editingId: Option<string>
    var formData: Draft

    constructor()
      ensures !isModalOpen && editingId.None? && formData == EmptyDraft
    {
      isModalOpen, editingId, formData := false, None, EmptyDraft;
    }

    method OpenAdd()
      modifies this
      ensures isModalOpen && editingId.None? && formData == EmptyDraft
    {
      editingId, formData, isModalOpen := None, EmptyDraft, true;
    }

    method OpenEdit(item: Department)
      modifies this
      ensures isModalOpen && editingId == Some(item.id) && formData == DraftOf(item)
    {
      editingId, formData, isModalOpen := Some(item.id), DraftOf(item), true;
    }

    method Cancel()
      modifies this
      ensures !isModalOpen && editingId == old(editingId) && formData == old(formData)
    {
      isModalOpen := false;
    }

    /** `handleSave`: the built department is saved, then the modal closes on an empty form. */
    method HandleSave(store: Storage.Store, freshId: string, call: Storage.Remote, resync: Storage.Fetch)
      returns (saved: Department)
      modifies this, store
      ensures saved == BuildDepartment(old(formData),
                         Storage.ExistingItem(old(store.departments), old(editingId), Storage.DepartmentId),
                         old(editingId), freshId)
      ensures store.Snapshot() == Storage.AfterWrite(
                old(store.Snapshot()).(departments := Storage.Upsert(old(store.departments), saved, Storage.DepartmentId)),
                store.isConnected, store.seeds, call, resync)
      ensures !isModalOpen && editingId.None? && formData == EmptyDraft
    {
      var existing := Storage.ExistingItem(store.departments, editingId, Storage.DepartmentId);
      saved := BuildDepartment(formData, existing, editingId, freshId);
      store.SaveDepartment(saved, call, resync);
      isModalOpen, editingId, formData := false, None, EmptyDraft;
    }

    method HandleDelete(store: Storage.Store, item: Department, confirmed: bool,
                        call: Storage.Remote, resync: Storage.Fetch)
      modifies store
      ensures confirmed ==> store.Snapshot() == Storage.AfterWrite(
                old(store.Snapshot()).(departments := Storage.RemoveId(old(store.departments), item.id, Storage.DepartmentId)),
                store.isConnected, store.seeds, call, resync)
      ensures !confirmed ==> store.Snapshot() == old(store.Snapshot()) && store.loading == old(store.loading)
    {
      if confirmed {
        store.DeleteDepartment(item.id, call, resync);
      }
    }
  }
}
