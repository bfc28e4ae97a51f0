/** The employee management page: the employee a save builds from the form over the item
    being edited, the defaults of a new form, the photo field rules, and the modal and
    form state its handlers change. */
module ManageEmployees {
  import opened Wrappers
  import opened JsValues
  import opened Types
  import Storage

  /** `Partial<Employee>` as the page fills it: the form never holds an id. */
  datatype Draft = Draft(code: Option<string>, name: Option<string>, departmentId: Option<string>,
                         position: Option<string>, role: Option<string>, email: Option<string>,
                         photoUrl: Option<string>, password: Option<string>)

  const DefaultPassword: string := "123"

  /** `initialFormState`: empty text fields, the employee role and the default password. */
  const InitialForm := Draft(Some(""), Some(""), Some(""), Some(""), Some(EmployeeRole), Some(""), Some(""),
                             Some(DefaultPassword))

  /** `openEdit`'s form: the employee's fields, `''` for a missing one and the employee
      role for an empty role. */
  function EditDraft(e: Employee): (d: Draft)
    ensures d.photoUrl == Some(e.photoUrl.GetOr("")) && d.password == Some(e.password.GetOr(""))
    ensures d.role == Some(if e.role == "" then EmployeeRole else e.role)
  {
    Draft(Some(e.code), Some(e.name), Some(e.departmentId), Some(e.position),
          Some(StrOr(Some(e.role), EmployeeRole)), Some(e.email),
          Some(StrOr(e.photoUrl, "")), Some(StrOr(e.password, "")))
  }

  function Existing(existing: Option<Employee>, f: Employee -> string): Option<string> {
    if existing.Some? then Some(f(existing.value)) else None
  }

  function ExistingOpt(existing: Option<Employee>, f: Employee -> Option<string>): Option<string> {
    if existing.Some? then f(existing.value) else None
  }

  /** The saved employee. Every field coalesces with `||` from the form to the edited
      employee to its default: `''`, the employee role, or the default password. There is
      no spread, so the result has exactly these fields, and password and photo are always
      present. */
  function BuildEmployee(form: Draft, existing: Option<Employee>, editingId: Option<string>,
                         freshId: string): (r: Employee)
    ensures r.id == (if Truthy(editingId) then editingId.value else freshId)
    ensures Truthy(form.code) ==> r.code == form.code.value
    ensures !Truthy(form.code) ==> r.code == (if existing.Some? then existing.value.code else "")
    ensures Truthy(form.name) ==> r.name == form.name.value
    ensures !Truthy(form.name) ==> r.name == (if existing.Some? then existing.value.name else "")
    ensures Truthy(form.departmentId) ==> r.departmentId == form.departmentId.value
    ensures !Truthy(form.departmentId) ==>
              r.departmentId == (if existing.Some? then existing.value.departmentId else "")
    ensures Truthy(form.position) ==> r.position == form.position.value
    ensures !Truthy(form.position) ==> r.position == (if existing.Some? then existing.value.position else "")
    ensures Truthy(form.email) ==> r.email == form.email.value
    ensures !Truthy(form.email) ==> r.email == (if existing.Some? then existing.value.email else "")
    ensures Truthy(form.role) ==> r.role == form.role.value
    ensures !Truthy(form.role) && existing.Some? && existing.value.role != "" ==> r.role == existing.value.role
    ensures !Truthy(form.role) && (existing.None? || existing.value.role == "") ==> r.role == EmployeeRole
    ensures r.password.Some? && r.photoUrl.Some?
    ensures Truthy(form.password) ==> r.password == form.password
    ensures !Truthy(form.password) && existing.Some? && Truthy(existing.value.password) ==>
              r.password == existing.value.password
    ensures !Truthy(form.password) && !(existing.Some? && Truthy(existing.value.password)) ==>
              r.password == Some(DefaultPassword)
    ensures Truthy(form.photoUrl) ==> r.photoUrl == form.photoUrl
    ensures !Truthy(form.photoUrl) && existing.Some? && Truthy(existing.value.photoUrl) ==>
              r.photoUrl == existing.value.photoUrl
    ensures !Truthy(form.photoUrl) && !(existing.Some? && Truthy(existing.value.photoUrl)) ==>
              r.photoUrl == Some("")
  {
    Employee(
      StrOr(editingId, freshId),
      StrOr(form.code, StrOr(Existing(existing, (e: Employee) => e.code), "")),
      StrOr(form.name, StrOr(Existing(existing, (e: Employee) => e.name), "")),
      StrOr(form.departmentId, StrOr(Existing(existing, (e: Employee) => e.departmentId), "")),
      StrOr(form.position, StrOr(Existing(existing, (e: Employee) => e.position), "")),
      StrOr(form.email, StrOr(Existing(existing, (e: Employee) => e.email), "")),
      StrOr(form.role, StrOr(Existing(existing, (e: Employee) => e.role), EmployeeRole)),
      Some(StrOr(form.password, StrOr(ExistingOpt(existing, (e: Employee) => e.password), DefaultPassword))),
      Some(StrOr(form.photoUrl, StrOr(ExistingOpt(existing, (e: Employee) => e.photoUrl), ""))))
  }

  /** Removing the photo while editing does not remove it: the emptied field falls back to
      the stored photo. */
  lemma RemovedPhotoIsKept(e: Employee, form: Draft, freshId: string)
    requires form.photoUrl == Some("") && Truthy(e.photoUrl)
    ensures BuildEmployee(form, Some(e), Some(e.id), freshId).photoUrl == e.photoUrl
  {
  }

  /** Saving an untouched edit form gives back the employee, with only the missing values
      filled in: the employee role, the default password and an empty photo. */
  lemma SaveUntouchedEdit(e: Employee, freshId: string)
    requires e.id != ""
    ensures BuildEmployee(EditDraft(e), Some(e), Some(e.id), freshId)
            == e.(role := if e.role == "" then EmployeeRole else e.role,
                  password := Some(StrOr(e.password, DefaultPassword)),
                  photoUrl := Some(e.photoUrl.GetOr("")))
  {
  }

  /** An untouched add form creates an employee with the default role and password. */
  lemma SaveUntouchedAdd(freshId: string)
    ensures BuildEmployee(InitialForm, None, None, freshId)
            == Employee(freshId, "", "", "", "", "", EmployeeRole, Some(DefaultPassword), Some(""))
  {
  }

  const DataPrefix: string := "data:"

  /** `formData.photoUrl?.startsWith('data:')`: the photo is an uploaded image rather than
      a link. */
  predicate IsBase64Image(form: Draft) {
    form.photoUrl.Some? && DataPrefix <= form.photoUrl.value
  }

  /** A cropped upload, a data URL, counts as an uploaded image; a web link does not. */
  lemma UploadIsBase64(form: Draft, payload: string, link: string)
    requires |link| >= 5 && link[..5] != DataPrefix
    ensures IsBase64Image(form.(photoUrl := Some(DataPrefix + payload)))
    ensures !IsBase64Image(form.(photoUrl := Some(link)))
  {
    assert (DataPrefix + payload)[..5] == DataPrefix;
  }

  class EmployeesPage {
    var isModalOpen: bool
    var editingId: Option<string>
    var formData: Draft

    constructor()
      ensures !isModalOpen && editingId.None? && formData == InitialForm
    {
      isModalOpen, editingId, formData := false, None, InitialForm;
    }

    /** `openAdd`: the initial form, with the employee role and the default password. */
    method OpenAdd()
      modifies this
      ensures isModalOpen && editingId.None? && formData == InitialForm
    {
      editingId, formData, isModalOpen := None, InitialForm.(role := Some(EmployeeRole), password := Some(DefaultPassword)), true;
    }

    method OpenEdit(item: Employee)
      modifies this
      ensures isModalOpen && editingId == Some(item.id) && formData == EditDraft(item)
    {
      editingId, formData, isModalOpen := Some(item.id), EditDraft(item), true;
    }

    /** The remove-photo button empties the photo field. */
    method RemovePhoto()
      modifies this
      ensures formData == old(formData).(photoUrl := Some("")) && !IsBase64Image(formData)
      ensures isModalOpen == old(isModalOpen) && editingId == old(editingId)
    {
      formData := formData.(photoUrl := Some(""));
    }

    /** What the link input shows: nothing for an uploaded image, else the link. */
    function ShownPhotoLink(): (s: string)
      reads this
      ensures IsBase64Image(formData) ==> s == ""
      ensures !IsBase64Image(formData) ==> s == formData.photoUrl.GetOr("")
    {
      if IsBase64Image(formData) then "" else StrOr(formData.photoUrl, "")
    }

    /** Typing a link replaces the photo only when it is not an uploaded image. */
    method InputPhotoLink(text: string)
      modifies this
      ensures IsBase64Image(old(formData)) ==> formData == old(formData)
      ensures !IsBase64Image(old(formData)) ==> formData == old(formData).(photoUrl := Some(text))
      ensures isModalOpen == old(isModalOpen) && editingId == old(editingId)
    {
      if !IsBase64Image(formData) {
        formData := formData.(photoUrl := Some(text));
      }
    }

    /** Closing the modal; the effect on `isModalOpen` then resets the form and the id. */
    method CloseModal()
      modifies this
      ensures !isModalOpen && editingId.None? && formData == InitialForm
    {
      isModalOpen := false;
      formData, editingId := InitialForm, None;
    }

    /** `handleSave`: the built employee is saved, then the modal closes and the form is
        reset. */
    method HandleSave(store: Storage.Store, freshId: string, call: Storage.Remote, resync: Storage.Fetch)
      returns (saved: Employee)
      modifies this, store
      ensures saved == BuildEmployee(old(formData),
                         Storage.ExistingItem(old(store.employees), old(editingId), Storage.EmployeeId),
                         old(editingId), freshId)
      ensures store.Snapshot() == Storage.AfterWrite(
                old(store.Snapshot()).(employees := Storage.Upsert(old(store.employees), saved, Storage.EmployeeId)),
                store.isConnected, store.seeds, call, resync)
      ensures !isModalOpen && editingId.None? && formData == InitialForm
    {
      var existing := Storage.ExistingItem(store.employees, editingId, Storage.EmployeeId);
      saved := BuildEmployee(formData, existing, editingId, freshId);
      store.SaveEmployee(saved, call, resync);
      CloseModal();
    }

    method HandleDelete(store: Storage.Store, item: Employee, confirmed: bool,
                        call: Storage.Remote, resync: Storage.Fetch)
      modifies store
      ensures confirmed ==> store.Snapshot() == Storage.AfterWrite(
                old(store.Snapshot()).(employees := Storage.RemoveId(old(store.employees), item.id, Storage.EmployeeId)),
                store.isConnected, store.seeds, call, resync)
      ensures !confirmed ==> store.Snapshot() == old(store.Snapshot()) && store.loading == old(store.loading)
    {
      if confirmed {
        store.DeleteEmployee(item.id, call, resync);
      }
    }
  }
}
