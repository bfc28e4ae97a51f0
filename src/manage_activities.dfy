/** The activity management page: the activity a save builds from the form over the item
    being edited, with the nullish rule for `active`, and the modal and form state its
    handlers change. */
module ManageActivities {
  import opened Wrappers
  import opened JsValues
  import opened Types
  import Storage

  /** `Partial<Activity>`. */
  datatype Draft = Draft(id: Option<string>, kpiId: Option<string>, code: Option<string>,
                         name: Option<string>, description: Option<string>, active: Option<bool>)

  const EmptyDraft := Draft(None, None, None, None, None, None)

  /** `openAdd`'s form: only `active`, set. */
  const AddDraft := EmptyDraft.(active := Some(true))

  /** `setFormData(item)`. */
  function DraftOf(a: Activity): Draft {
    Draft(Some(a.id), Some(a.kpiId), Some(a.code), Some(a.name), Some(a.description), Some(a.active))
  }

  /** `formData.active ?? existingItem?.active ?? true`: only a missing value falls back,
      so an explicit `false` is kept. */
  function ActiveField(form: Option<bool>, existing: Option<Activity>): (r: bool)
    ensures form.Some? ==> r == form.value
    ensures form.None? && existing.Some? ==> r == existing.value.active
    ensures form.None? && existing.None? ==> r
  {
    if form.Some? then form.value else if existing.Some? then existing.value.active else true
  }

  /** The saved activity: the text fields coalesce with `||` from the form to the edited
      item to `''`, `active` with `??`. */
  function BuildActivity(form: Draft, existing: Option<Activity>, editingId: Option<string>,
                         freshId: string): (r: Activity)
    ensures r.id == (if Truthy(editingId) then editingId.value else freshId)
    ensures r.active == ActiveField(form.active, existing)
    ensures Truthy(form.code) ==> r.code == form.code.value
    ensures !Truthy(form.code) ==> r.code == (if existing.Some? then existing.value.code else "")
    ensures Truthy(form.name) ==> r.name == form.name.value
    ensures !Truthy(form.name) ==> r.name == (if existing.Some? then existing.value.name else "")
    ensures Truthy(form.kpiId) ==> r.kpiId == form.kpiId.value
    ensures !Truthy(form.kpiId) ==> r.kpiId == (if existing.Some? then existing.value.kpiId else "")
    ensures Truthy(form.description) ==> r.description == form.description.value
    ensures !Truthy(form.description) ==>
              r.description == (if existing.Some? then existing.value.description else "")
  {
    var e := existing;
    Activity(
      StrOr(editingId, freshId),
      StrOr(form.kpiId, StrOr(if e.Some? then Some(e.value.kpiId) else None, "")),
      StrOr(form.code, StrOr(if e.Some? then Some(e.value.code) else None, "")),
      StrOr(form.name, StrOr(if e.Some? then Some(e.value.name) else None, "")),
      StrOr(form.description, StrOr(if e.Some? then Some(e.value.description) else None, "")),
      ActiveField(form.active, e))
  }

  /** Unticking the checkbox on an active activity saves it inactive: `??` keeps the
      `false` that `||` would have replaced. */
  lemma DeactivateIsSaved(a: Activity, form: Draft, freshId: string)
    requires a.active && form.active == Some(false)
    ensures !BuildActivity(form, Some(a), Some(a.id), freshId).active
  {
  }

  /** Opening an activity for editing and saving the form untouched saves the activity. */
  lemma SaveUntouchedEdit(a: Activity, freshId: string)
    requires a.id != ""
    ensures BuildActivity(DraftOf(a), Some(a), Some(a.id), freshId) == a
  {
  }

  class ActivitiesPage {
    var isModalOpen: bool
    var editingId: Option<string>
    var formData: Draft

    constructor()
      ensures !isModalOpen && editingId.None? && formData == EmptyDraft
    {
      isModalOpen, editingId, formData := false, None, EmptyDraft;
    }

    /** `openAdd`: a new activity starts active. */
    method OpenAdd()
      modifies this
      ensures isModalOpen && editingId.None? && formData == AddDraft
    {
      editingId, formData, isModalOpen := None, AddDraft, true;
    }

    method OpenEdit(item: Activity)
      modifies this
      ensures isModalOpen && editingId == Some(item.id) && formData == DraftOf(item)
    {
      editingId, formData, isModalOpen := Some(item.id), DraftOf(item), true;
    }

    /** The checkbox: `checked={formData.active ?? true}`; any form without the key shows
        it ticked. */
    function ShownActive(): (b: bool)
      reads this
      ensures formData.active.None? ==> b
      ensures formData.active.Some? ==> b == formData.active.value
    {
      formData.active.GetOr(true)
    }

    /** Toggling the checkbox stores its new state, which then is what it shows. */
    method ToggleActive(checked: bool)
      modifies this
      ensures formData == old(formData).(active := Some(checked)) && ShownActive() == checked
      ensures isModalOpen == old(isModalOpen) && editingId == old(editingId)
    {
      formData := formData.(active := Some(checked));
    }

    method Cancel()
      modifies this
      ensures !isModalOpen && editingId == old(editingId) && formData == old(formData)
    {
      isModalOpen := false;
    }

    /** `handleSave`: the built activity is saved, then the modal closes on an empty form. */
    method HandleSave(store: Storage.Store, freshId: string, call: Storage.Remote, resync: Storage.Fetch)
      returns (saved: Activity)
      modifies this, store
      ensures saved == BuildActivity(old(formData),
                         Storage.ExistingItem(old(store.activities), old(editingId), Storage.ActivityId),
                         old(editingId), freshId)
      ensures store.Snapshot() == Storage.AfterWrite(
                old(store.Snapshot()).(activities := Storage.Upsert(old(store.activities), saved, Storage.ActivityId)),
                store.isConnected, store.seeds, call, resync)
      ensures !isModalOpen && editingId.None? && formData == EmptyDraft
    {
      var existing := Storage.ExistingItem(store.activities, editingId, Storage.ActivityId);
      saved := BuildActivity(formData, existing, editingId, freshId);
      store.SaveActivity(saved, call, resync);
      isModalOpen, editingId, formData := false, None, EmptyDraft;
    }

    method HandleDelete(store: Storage.Store, item: Activity, confirmed: bool,
                        call: Storage.Remote, resync: Storage.Fetch)
      modifies store
      ensures confirmed ==> store.Snapshot() == Storage.AfterWrite(
                old(store.Snapshot()).(activities := Storage.RemoveId(old(store.activities), item.id, Storage.ActivityId)),
                store.isConnected, store.seeds, call, resync)
      ensures !confirmed ==> store.Snapshot() == old(store.Snapshot()) && store.loading == old(store.loading)
    {
      if confirmed {
        store.DeleteActivity(item.id, call, resync);
      }
    }
  }
}
