/** The zustand store object of app/utils/store.ts: its three data fields are overwritten by each
    action's `set`, whose new values come from the transitions in StoreActions. */
module FormStore {
  import opened Options
  import opened FormModel
  import FieldLists
  import StoreActions

  class Store {
    var forms: map<string, FormData>
    var currentForm: Option<FormData>
    var isHydrated: bool

    /** The store's data as a value. */
    function Snapshot(): StoreActions.State
      reads this
    {
      StoreActions.State(forms, currentForm, isHydrated)
    }

    /** `getInitialState()` when nothing persisted is loaded: on the server (no window) the store
        starts unhydrated; in a browser with nothing stored, or text that does not parse, it
        starts hydrated. Either way it holds no forms and no current form. */
    constructor (hasWindow: bool)
      ensures forms == map[] && currentForm == None && isHydrated == hasWindow
      ensures StoreActions.Consistent(Snapshot())
    {
      forms := map[];
      currentForm := None;
      isHydrated := hasWindow;
    }

    /** `setHydrated()`. */
    method SetHydrated()
      modifies this
      ensures Snapshot() == StoreActions.SetHydrated(old(Snapshot()))
      ensures old(StoreActions.Consistent(Snapshot())) ==> StoreActions.Consistent(Snapshot())
    {
      isHydrated := true;
    }

    /** `createForm(title, description)`; `id` is the `nanoid(10)` it draws, which the code
        assumes to be unused, and `createdAt`, `updatedAt` its two `Date.now()` readings. */
    method CreateForm(title: string, description: string, id: string, createdAt: int, updatedAt: int)
      returns (newId: string)
      requires id !in forms
      modifies this
      ensures newId == id
      ensures Snapshot() == StoreActions.CreateForm(old(Snapshot()), id, title, description, createdAt, updatedAt)
      ensures |forms| == old(|forms|) + 1
      ensures old(StoreActions.Consistent(Snapshot())) ==> StoreActions.Consistent(Snapshot())
    {
      var next := StoreActions.CreateForm(Snapshot(), id, title, description, createdAt, updatedAt);
      if StoreActions.Consistent(Snapshot()) {
        StoreActions.StepKeepsConsistent(Snapshot(), StoreActions.NewForm(id, title, description, createdAt, updatedAt));
      }
      assert next.forms.Keys == forms.Keys + {id};
      forms, currentForm := next.forms, next.currentForm;
      newId := id;
    }

    /** `updateForm(formId, updates)` at time `now`. */
    method UpdateForm(formId: string, updates: FormPatch, now: int)
      modifies this
      ensures Snapshot() == StoreActions.UpdateForm(old(Snapshot()), formId, updates, now)
      ensures old(StoreActions.Consistent(Snapshot())) && (updates.id.None? || updates.id.value == formId) ==>
                StoreActions.Consistent(Snapshot())
    {
      if formId !in forms {
        return;
      }
      var next := StoreActions.UpdateForm(Snapshot(), formId, updates, now);
      if StoreActions.Consistent(Snapshot()) && (updates.id.None? || updates.id.value == formId) {
        StoreActions.StepKeepsConsistent(Snapshot(), StoreActions.EditForm(formId, updates, now));
      }
      forms, currentForm := next.forms, next.currentForm;
    }

    /** `deleteForm(formId)`. */
    method DeleteForm(formId: string)
      modifies this
      ensures Snapshot() == StoreActions.DeleteForm(old(Snapshot()), formId)
      ensures old(StoreActions.Consistent(Snapshot())) ==> StoreActions.Consistent(Snapshot())
    {
      var next := StoreActions.DeleteForm(Snapshot(), formId);
      if StoreActions.Consistent(Snapshot()) {
        StoreActions.StepKeepsConsistent(Snapshot(), StoreActions.DropForm(formId));
      }
      forms, currentForm := next.forms, next.currentForm;
    }

    /** `setCurrentForm(formId)`, `None` standing for `null`. */
    method SetCurrentForm(formId: Option<string>)
      modifies this
      ensures Snapshot() == StoreActions.SetCurrentForm(old(Snapshot()), formId)
      ensures old(StoreActions.Consistent(Snapshot())) ==> StoreActions.Consistent(Snapshot())
    {
      var next := StoreActions.SetCurrentForm(Snapshot(), formId);
      if StoreActions.Consistent(Snapshot()) {
        StoreActions.StepKeepsConsistent(Snapshot(), StoreActions.SelectForm(formId));
      }
      currentForm := next.currentForm;
    }

    /** `addField(field)`; `fieldId` is the `nanoid(8)` it draws, which the code assumes to be
        unused in the current form. */
    method AddField(field: FieldDraft, fieldId: string, now: int)
      requires currentForm.Some? ==> !FieldLists.HasId(currentForm.value.fields, fieldId)
      modifies this
      ensures Snapshot() == StoreActions.AddField(old(Snapshot()), fieldId, field, now)
      ensures old(StoreActions.Consistent(Snapshot())) ==> StoreActions.Consistent(Snapshot())
      ensures old(currentForm.Some? && FieldLists.DistinctIds(currentForm.value.fields)) ==>
                FieldLists.DistinctIds(currentForm.value.fields)
    {
      if currentForm.None? {
        return;
      }
      var next := StoreActions.AddField(Snapshot(), fieldId, field, now);
      if StoreActions.Consistent(Snapshot()) {
        StoreActions.StepKeepsConsistent(Snapshot(), StoreActions.NewField(fieldId, field, now));
      }
      if FieldLists.DistinctIds(currentForm.value.fields) {
        StoreActions.AddFieldKeepsIdsDistinct(Snapshot(), fieldId, field, now);
      }
      currentForm, forms := next.currentForm, next.forms;
    }

    /** `updateField(fieldId, updates)` at time `now`. */
    method UpdateField(fieldId: string, updates: FieldPatch, now: int)
      modifies this
      ensures Snapshot() == StoreActions.UpdateField(old(Snapshot()), fieldId, updates, now)
      ensures old(StoreActions.Consistent(Snapshot())) ==> StoreActions.Consistent(Snapshot())
    {
      if currentForm.None? {
        return;
      }
      var next := StoreActions.UpdateField(Snapshot(), fieldId, updates, now);
      if StoreActions.Consistent(Snapshot()) {
        StoreActions.StepKeepsConsistent(Snapshot(), StoreActions.EditField(fieldId, updates, now));
      }
      currentForm, forms := next.currentForm, next.forms;
    }

    /** `deleteField(fieldId)` at time `now`. */
    method DeleteField(fieldId: string, now: int)
      modifies this
      ensures Snapshot() == StoreActions.DeleteField(old(Snapshot()), fieldId, now)
      ensures old(StoreActions.Consistent(Snapshot())) ==> StoreActions.Consistent(Snapshot())
    {
      if currentForm.None? {
        return;
      }
      var next := StoreActions.DeleteField(Snapshot(), fieldId, now);
      if StoreActions.Consistent(Snapshot()) {
        StoreActions.StepKeepsConsistent(Snapshot(), StoreActions.DropField(fieldId, now));
      }
      currentForm, forms := next.currentForm, next.forms;
    }

    /** `reorderFields(newOrder)` at time `now`. */
    method ReorderFields(newOrder: seq<string>, now: int)
      modifies this
      ensures Snapshot() == StoreActions.ReorderFields(old(Snapshot()), newOrder, now)
      ensures old(StoreActions.Consistent(Snapshot())) ==> StoreActions.Consistent(Snapshot())
    {
      if currentForm.None? {
        return;
      }
      var next := StoreActions.ReorderFields(Snapshot(), newOrder, now);
      if StoreActions.Consistent(Snapshot()) {
        StoreActions.StepKeepsConsistent(Snapshot(), StoreActions.ArrangeFields(newOrder, now));
      }
      currentForm, forms := next.currentForm, next.forms;
    }
  }
}
