/** The KPI management page: the KPI a save builds from the form over the item being
    edited, and the modal and form state its handlers change. */
module ManageKpis {
  import opened Wrappers
  import opened JsValues
  import opened Types
  import Storage

  /** `Partial<KPI>`. `evaluationRules` is doubly optional: the outer option says whether
      the form object has the key at all, since a spread copies a key even when its value
      is undefined. */
  datatype Draft = Draft(id: Option<string>, code: Option<string>, name: Option<string>,
                         activity: Option<string>, weight: Option<int>, period: Option<PeriodType>,
                         description: Option<string>,
                         evaluationRules: Option<Option<map<Level, seq<string>>>>)

  const EmptyDraft := Draft(None, None, None, None, None, None, None, None)

  /** `openAdd`'s form: only the period, set to monthly. */
  const AddDraft := EmptyDraft.(period := Some(Monthly))

  /** `setFormData(item)`: the form holds every field of the item. */
  function DraftOf(k: Kpi): Draft {
    Draft(Some(k.id), Some(k.code), Some(k.name), Some(k.activity), Some(k.weight), Some(k.period),
          Some(k.description), Some(k.evaluationRules))
  }

  /** The text fields fall back from the form to the edited item to `''`. */
  function TextField(form: Option<string>, existing: Option<string>): (r: string)
    ensures Truthy(form) ==> r == form.value
    ensures !Truthy(form) ==> r == existing.GetOr("")
  {
    StrOr(form, StrOr(existing, ""))
  }

  /** The saved KPI: `{ ...existing, ...formData, id, period, weight, code, name, activity,
      description }`. The fields named last coalesce with `||`; `evaluationRules` is not
      named, so the spread gives it the form's value when the form has the key and the
      edited item's otherwise. */
  function BuildKpi(form: Draft, existing: Option<Kpi>, editingId: Option<string>, freshId: string): (r: Kpi)
    ensures r.id == (if Truthy(editingId) then editingId.value else freshId)
    ensures form.period.Some? ==> r.period == form.period.value
    ensures form.period.None? ==> r.period == (if existing.Some? then existing.value.period else Monthly)
    ensures form.weight.Some? && form.weight.value != 0 ==> r.weight == form.weight.value
    ensures (form.weight.None? || form.weight.value == 0) ==>
              r.weight == (if existing.Some? then existing.value.weight else 0)
    ensures Truthy(form.code) ==> r.code == form.code.value
    ensures !Truthy(form.code) ==> r.code == (if existing.Some? then existing.value.code else "")
    ensures Truthy(form.name) ==> r.name == form.name.value
    ensures !Truthy(form.name) ==> r.name == (if existing.Some? then existing.value.name else "")
    ensures Truthy(form.activity) ==> r.activity == form.activity.value
    ensures !Truthy(form.activity) ==> r.activity == (if existing.Some? then existing.value.activity else "")
    ensures Truthy(form.description) ==> r.description == form.description.value
    ensures !Truthy(form.description) ==>
              r.description == (if existing.Some? then existing.value.description else "")
    ensures form.evaluationRules.Some? ==> r.evaluationRules == form.evaluationRules.value
    ensures form.evaluationRules.None? ==>
              r.evaluationRules == (if existing.Some? then existing.value.evaluationRules else None)
  {
    var e := existing;
    Kpi(
      StrOr(editingId, freshId),
      TextField(form.code, if e.Some? then Some(e.value.code) else None),
      TextField(form.name, if e.Some? then Some(e.value.name) else None),
      TextField(form.activity, if e.Some? then Some(e.value.activity) else None),
      IntOr(form.weight, IntOr(if e.Some? then Some(e.value.weight) else None, 0)),
      if form.period.Some? then form.period.value else if e.Some? then e.value.period else Monthly,
      TextField(form.description, if e.Some? then Some(e.value.description) else None),
      if form.evaluationRules.Some? then form.evaluationRules.value
      else if e.Some? then e.value.evaluationRules else None)
  }

  /** Opening a KPI for editing and saving the form untouched saves the KPI itself, its
      rubric included. */
  lemma SaveUntouchedEdit(k: Kpi, freshId: string)
    requires k.id != ""
    ensures BuildKpi(DraftOf(k), Some(k), Some(k.id), freshId) == k
  {
  }

  /** A KPI added through an untouched form is monthly, weightless and has no rubric. */
  lemma SaveUntouchedAdd(freshId: string)
    ensures BuildKpi(AddDraft, None, None, freshId) == Kpi(freshId, "", "", "", 0, Monthly, "", None)
  {
  }

  /** An edit whose form never had the rubric key keeps the stored rubric, whatever else
      it changes. */
  lemma EditKeepsRubric(form: Draft, k: Kpi, freshId: string)
    requires form.evaluationRules.None?
    ensures BuildKpi(form, Some(k), Some(k.id), freshId).evaluationRules == k.evaluationRules
  {
  }

  class KpisPage {
    var isModalOpen: bool
    var editingId: Option<string>
    var formData: Draft

    constructor()
      ensures !isModalOpen && editingId.None? && formData == EmptyDraft
    {
      isModalOpen, editingId, formData := false, None, EmptyDraft;
    }

    /** `openAdd`: a new KPI starts on the monthly period. */
    method OpenAdd()
      modifies this
      ensures isModalOpen && editingId.None? && formData == AddDraft
    {
      editingId, formData, isModalOpen := None, AddDraft, true;
    }

    /** `openEdit`: the form holds the whole KPI. */
    method OpenEdit(item: Kpi)
      modifies this
      ensures isModalOpen && editingId == Some(item.id) && formData == DraftOf(item)
    {
      editingId, formData, isModalOpen := Some(item.id), DraftOf(item), true;
    }

    /** The weight input: `parseInt(value) || 0`. */
    method InputWeight(text: string)
      modifies this
      ensures formData == old(formData).(weight := Some(ParseIntOrZero(text)))
      ensures isModalOpen == old(isModalOpen) && editingId == old(editingId)
    {
      formData := formData.(weight := Some(ParseIntOrZero(text)));
    }

    /** The period select stores one of the three period values. */
    method SelectPeriod(p: PeriodType)
      modifies this
      ensures formData == old(formData).(period := Some(p))
      ensures isModalOpen == old(isModalOpen) && editingId == old(editingId)
    {
      formData := formData.(period := Some(p));
    }

    /** The value the period select shows: `formData.period || MONTHLY`. */
    function ShownPeriod(): (p: PeriodType)
      reads this
      ensures formData.period.None? ==> p == Monthly
      ensures formData.period.Some? ==> p == formData.period.value
    {
      formData.period.GetOr(Monthly)
    }

    method Cancel()
      modifies this
      ensures !isModalOpen && editingId == old(editingId) && formData == old(formData)
    {
      isModalOpen := false;
    }

    /** `handleSave`: the built KPI is saved, then the modal closes on an empty form. */
    method HandleSave(store: Storage.Store, freshId: string, call: Storage.Remote, resync: Storage.Fetch)
      returns (saved: Kpi)
      modifies this, store
      ensures saved == BuildKpi(old(formData), Storage.ExistingItem(old(store.kpis), old(editingId), Storage.KpiId),
                                old(editingId), freshId)
      ensures store.Snapshot() == Storage.AfterWrite(
                old(store.Snapshot()).(kpis := Storage.Upsert(old(store.kpis), saved, Storage.KpiId)),
                store.isConnected, store.seeds, call, resync)
      ensures !isModalOpen && editingId.None? && formData == EmptyDraft
    {
      var existing := Storage.ExistingItem(store.kpis, editingId, Storage.KpiId);
      saved := BuildKpi(formData, existing, editingId, freshId);
      store.SaveKpi(saved, call, resync);
      isModalOpen, editingId, formData := false, None, EmptyDraft;
    }

    /** `handleDelete`: the KPI is deleted only when the user confirms. */
    method HandleDelete(store: Storage.Store, item: Kpi, confirmed: bool, call: Storage.Remote, resync: Storage.Fetch)
      modifies store
      ensures confirmed ==> store.Snapshot() == Storage.AfterWrite(
                old(store.Snapshot()).(kpis := Storage.RemoveId(old(store.kpis), item.id, Storage.KpiId)),
                store.isConnected, store.seeds, call, resync)
      ensures !confirmed ==> store.Snapshot() == old(store.Snapshot()) && store.loading == old(store.loading)
    {
      if confirmed {
        store.DeleteKpi(item.id, call, resync);
      }
    }
  }
}
