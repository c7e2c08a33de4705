/** The state transitions of the form store (app/utils/store.ts, lines 99-316). Each action of the
    zustand store is a `set(state => newState)` whose new state is computed here as a function;
    fresh ids (`nanoid`) and clock readings (`Date.now()`) are parameters. */
module StoreActions {
  import opened Options
  import opened FormModel
  import opened FieldLists

  /** The store's data: `forms`, `currentForm` (`null` is `None`) and `isHydrated`. */
  datatype State = State(forms: map<string, FormData>, currentForm: Option<FormData>, isHydrated: bool)

  /** Every form is stored under its own id. */
  predicate KeysMatch(forms: map<string, FormData>) {
    forall k :: k in forms ==> forms[k].id == k
  }

  /** `currentForm` is absent or is exactly the form stored under its id. */
  predicate CurrentAgrees(s: State) {
    s.currentForm.Some? ==>
      s.currentForm.value.id in s.forms && s.forms[s.currentForm.value.id] == s.currentForm.value
  }

  /** The store invariant that the actions keep. */
  predicate Consistent(s: State) {
    KeysMatch(s.forms) && CurrentAgrees(s)
  }

  /** `setHydrated`. */
  function SetHydrated(s: State): (r: State)
    ensures r.isHydrated
    ensures r.forms == s.forms && r.currentForm == s.currentForm
  {
    s.(isHydrated := true)
  }

  /** `createForm(title, description)` with `nanoid(10)` = `id` and the two `Date.now()` readings
      `createdAt` and `updatedAt`: the new, empty form is stored under `id` and made current. */
  function CreateForm(s: State, id: string, title: string, description: string, createdAt: int, updatedAt: int): (r: State)
    ensures r.forms.Keys == s.forms.Keys + {id}
    ensures forall k :: k in s.forms && k != id ==> r.forms[k] == s.forms[k]
    ensures r.forms[id].id == id && r.forms[id].title == title && r.forms[id].description == description
    ensures r.forms[id].fields == [] && r.forms[id].createdAt == createdAt && r.forms[id].updatedAt == updatedAt
    ensures r.currentForm == Some(r.forms[id])
    ensures r.isHydrated == s.isHydrated
  {
    var form := FormData(id, title, description, [], createdAt, updatedAt);
    State(s.forms[id := form], Some(form), s.isHydrated)
  }

  /** `updateForm(formId, updates)`: an unknown id changes nothing; otherwise the patched form,
      stamped `now`, replaces the stored one, and also the current form when that has the id. */
  function UpdateForm(s: State, formId: string, updates: FormPatch, now: int): (r: State)
    ensures formId !in s.forms ==> r == s
    ensures formId in s.forms ==>
      && r.forms.Keys == s.forms.Keys
      && r.forms[formId] == ApplyFormPatch(s.forms[formId], updates, now)
      && (forall k :: k in s.forms && k != formId ==> r.forms[k] == s.forms[k])
      && r.isHydrated == s.isHydrated
    ensures formId in s.forms && s.currentForm.Some? && s.currentForm.value.id == formId ==>
      r.currentForm == Some(r.forms[formId])
    ensures s.currentForm.None? || s.currentForm.value.id != formId ==> r.currentForm == s.currentForm
  {
    if formId !in s.forms then s
    else
      var updated := ApplyFormPatch(s.forms[formId], updates, now);
      var current := if s.currentForm.Some? && s.currentForm.value.id == formId then Some(updated) else s.currentForm;
      State(s.forms[formId := updated], current, s.isHydrated)
  }

  /** `deleteForm(formId)`: exactly that key leaves the map, and the current form is cleared
      exactly when it is the deleted one. */
  function DeleteForm(s: State, formId: string): (r: State)
    ensures r.forms.Keys == s.forms.Keys - {formId}
    ensures forall k :: k in r.forms ==> r.forms[k] == s.forms[k]
    ensures r.currentForm.None? <==> s.currentForm.None? || s.currentForm.value.id == formId
    ensures r.currentForm.Some? ==> r.currentForm == s.currentForm
    ensures r.isHydrated == s.isHydrated
  {
    var current := if s.currentForm.Some? && s.currentForm.value.id == formId then None else s.currentForm;
    State(s.forms - {formId}, current, s.isHydrated)
  }

  /** `setCurrentForm(formId)`: `null`, the empty string (falsy) and an unknown id leave no
      current form; a known id selects the stored form. */
  function SetCurrentForm(s: State, formId: Option<string>): (r: State)
    ensures r.forms == s.forms && r.isHydrated == s.isHydrated
    ensures r.currentForm.Some? <==> formId.Some? && formId.value != "" && formId.value in s.forms
    ensures r.currentForm.Some? ==> r.currentForm.value == s.forms[formId.value]
  {
    var form := if formId.Some? && formId.value != "" && formId.value in s.forms
                then Some(s.forms[formId.value]) else None;
    s.(currentForm := form)
  }

  /** What every field action does to the store when there is a current form: the current form,
      with field list `fields` and `updatedAt == now`, becomes current and is written under its
      id; every other form and the hydration flag are unchanged. */
  predicate EditsCurrent(s: State, r: State, fields: seq<FormField>, now: int)
    requires s.currentForm.Some?
  {
    var cf := s.currentForm.value;
    && r.currentForm.Some?
    && r.currentForm.value.id == cf.id
    && r.currentForm.value.title == cf.title
    && r.currentForm.value.description == cf.description
    && r.currentForm.value.createdAt == cf.createdAt
    && r.currentForm.value.fields == fields
    && r.currentForm.value.updatedAt == now
    && r.forms.Keys == s.forms.Keys + {cf.id}
    && r.forms[cf.id] == r.currentForm.value
    && (forall k :: k in s.forms && k != cf.id ==> r.forms[k] == s.forms[k])
    && r.isHydrated == s.isHydrated
  }

  /** `{ currentForm: updatedForm, forms: { ...state.forms, [updatedForm.id]: updatedForm } }`
      with `updatedForm = { ...state.currentForm, fields, updatedAt: now }`. */
  function WriteCurrent(s: State, fields: seq<FormField>, now: int): (r: State)
    requires s.currentForm.Some?
    ensures EditsCurrent(s, r, fields, now)
  {
    var updated := s.currentForm.value.(fields := fields, updatedAt := now);
    State(s.forms[updated.id := updated], Some(updated), s.isHydrated)
  }

  /** `addField(field)` with `nanoid(8)` = `fieldId`: the new field is appended. */
  function AddField(s: State, fieldId: string, field: FieldDraft, now: int): (r: State)
    ensures s.currentForm.None? ==> r == s
    ensures s.currentForm.Some? ==>
      EditsCurrent(s, r, s.currentForm.value.fields + [WithId(fieldId, field)], now)
  {
    if s.currentForm.None? then s
    else WriteCurrent(s, s.currentForm.value.fields + [WithId(fieldId, field)], now)
  }

  /** `updateField(fieldId, updates)`: the patch is merged into the fields with that id. */
  function UpdateField(s: State, fieldId: string, updates: FieldPatch, now: int): (r: State)
    ensures s.currentForm.None? ==> r == s
    ensures s.currentForm.Some? ==>
      EditsCurrent(s, r, PatchWhere(s.currentForm.value.fields, fieldId, updates), now)
  {
    if s.currentForm.None? then s
    else WriteCurrent(s, PatchWhere(s.currentForm.value.fields, fieldId, updates), now)
  }

  /** `deleteField(fieldId)`: the fields with that id are filtered out. */
  function DeleteField(s: State, fieldId: string, now: int): (r: State)
    ensures s.currentForm.None? ==> r == s
    ensures s.currentForm.Some? ==>
      EditsCurrent(s, r, RemoveWhere(s.currentForm.value.fields, fieldId), now)
  {
    if s.currentForm.None? then s
    else WriteCurrent(s, RemoveWhere(s.currentForm.value.fields, fieldId), now)
  }

  /** `reorderFields(newOrder)`: the fields are rebuilt in the listed order. */
  function ReorderFields(s: State, newOrder: seq<string>, now: int): (r: State)
    ensures s.currentForm.None? ==> r == s
    ensures s.currentForm.Some? ==>
      EditsCurrent(s, r, Reorder(s.currentForm.value.fields, newOrder), now)
  {
    if s.currentForm.None? then s
    else WriteCurrent(s, Reorder(s.currentForm.value.fields, newOrder), now)
  }

  /** One call of a store action, with the ids and clock readings it draws. */
  datatype Action =
    | Hydrate
    | NewForm(id: string, title: string, description: string, createdAt: int, updatedAt: int)
    | EditForm(formId: string, updates: FormPatch, now: int)
    | DropForm(formId: string)
    | SelectForm(selected: Option<string>)
    | NewField(fieldId: string, field: FieldDraft, now: int)
    | EditField(fieldId: string, fieldUpdates: FieldPatch, now: int)
    | DropField(fieldId: string, now: int)
    | ArrangeFields(newOrder: seq<string>, now: int)

  function Step(s: State, a: Action): State {
    match a
    case Hydrate => SetHydrated(s)
    case NewForm(id, title, description, c, u) => CreateForm(s, id, title, description, c, u)
    case EditForm(formId, updates, now) => UpdateForm(s, formId, updates, now)
    case DropForm(formId) => DeleteForm(s, formId)
    case SelectForm(selected) => SetCurrentForm(s, selected)
    case NewField(fieldId, field, now) => AddField(s, fieldId, field, now)
    case EditField(fieldId, updates, now) => UpdateField(s, fieldId, updates, now)
    case DropField(fieldId, now) => DeleteField(s, fieldId, now)
    case ArrangeFields(newOrder, now) => ReorderFields(s, newOrder, now)
  }

  function Run(s: State, actions: seq<Action>): State
    decreases |actions|
  {
    if actions == [] then s else Run(Step(s, actions[0]), actions[1..])
  }

  /** `updateForm`'s `updates` do not move the form to another id. */
  predicate KeepsIds(a: Action) {
    a.EditForm? ==> a.updates.id.None? || a.updates.id.value == a.formId
  }

  /** Every action keeps the store consistent, provided `updateForm` does not change an id. */
  lemma StepKeepsConsistent(s: State, a: Action)
    requires Consistent(s) && KeepsIds(a)
    ensures Consistent(Step(s, a))
  {
    match a
    case EditForm(formId, updates, now) =>
      var r := UpdateForm(s, formId, updates, now);
      if formId in s.forms {
        assert r.forms[formId].id == formId;
      }
    case _ =>
  }

  /** Any sequence of such actions keeps the store consistent. */
  lemma {:induction false} RunKeepsConsistent(s: State, actions: seq<Action>)
    requires Consistent(s)
    requires forall i :: 0 <= i < |actions| ==> KeepsIds(actions[i])
    ensures Consistent(Run(s, actions))
    decreases |actions|
  {
    if actions != [] {
      StepKeepsConsistent(s, actions[0]);
      RunKeepsConsistent(Step(s, actions[0]), actions[1..]);
    }
  }

  /** An update that moves a form to another id breaks the invariant: the key no longer
      matches the stored form's id. */
  lemma UpdateFormCanMoveId(s: State, formId: string, newId: string, now: int)
    requires formId in s.forms && newId != formId
    ensures !KeysMatch(UpdateForm(s, formId, FormPatch(Some(newId), None, None, None, None, None), now).forms)
  {
    var r := UpdateForm(s, formId, FormPatch(Some(newId), None, None, None, None, None), now);
    assert r.forms[formId].id == newId;
  }

  /** Adding a field under an id the form does not use yet keeps the field ids distinct and
      grows the list by one. */
  lemma AddFieldKeepsIdsDistinct(s: State, fieldId: string, field: FieldDraft, now: int)
    requires s.currentForm.Some? && DistinctIds(s.currentForm.value.fields)
    requires !HasId(s.currentForm.value.fields, fieldId)
    ensures DistinctIds(AddField(s, fieldId, field, now).currentForm.value.fields)
    ensures |AddField(s, fieldId, field, now).currentForm.value.fields| == |s.currentForm.value.fields| + 1
  {
  }

  /** Deleting a field keeps the remaining field ids distinct. */
  lemma DeleteFieldKeepsIdsDistinct(s: State, fieldId: string, now: int)
    requires s.currentForm.Some? && DistinctIds(s.currentForm.value.fields)
    ensures DistinctIds(DeleteField(s, fieldId, now).currentForm.value.fields)
  {
    RemoveWhereKeepsDistinctIds(s.currentForm.value.fields, fieldId);
  }

  /** `updateForm(id, { title })` followed by `setCurrentForm(id)` selects a form that carries the
      new title and the update's time stamp. */
  lemma UpdateThenSelect(s: State, formId: string, title: string, now: int)
    requires formId in s.forms && formId != ""
    ensures var r := SetCurrentForm(UpdateForm(s, formId, FormPatch(None, Some(title), None, None, None, None), now), Some(formId));
      r.currentForm.Some? && r.currentForm.value.title == title && r.currentForm.value.updatedAt == now
  {
  }
}
