/** The record types of the form-builder store (app/utils/store.ts) and the object spreads that
    build and patch them. Timestamps are epoch milliseconds, as `Date.now()` returns them. */
module FormModel {
  import opened Options

  /** `FieldType`. The source's properties `type` and `label` are Dafny keywords, so they are
      `kind` and `labelText` here. */
  datatype FieldType = Text | Textarea | Dropdown | Checkbox | Date | Number | Radio | Email

  /** The field types whose values are chosen from a list of `options`. */
  predicate IsChoice(kind: FieldType) {
    kind == Dropdown || kind == Checkbox || kind == Radio
  }

  /** `FormField`; an optional property is `None` when absent or `undefined`. */
  datatype FormField = FormField(
    id: string,
    kind: FieldType,
    labelText: string,
    placeholder: Option<string>,
    required: bool,
    helpText: Option<string>,
    options: Option<seq<string>>,
    defaultValue: Option<string>)

  /** `FormData`. */
  datatype FormData = FormData(
    id: string,
    title: string,
    description: string,
    fields: seq<FormField>,
    createdAt: int,
    updatedAt: int)

  /** `Omit<FormField, 'id'>`: what the field editor produces and `addField` receives. */
  datatype FieldDraft = FieldDraft(
    kind: FieldType,
    labelText: string,
    placeholder: Option<string>,
    required: bool,
    helpText: Option<string>,
    options: Option<seq<string>>,
    defaultValue: Option<string>)

  /** `Partial<Omit<FormField, 'id'>>`. Each key is `None` when the key is not present in the
      update object. An optional property may be present with the value `undefined`, which the
      spread copies: that is `Some(None)`. */
  datatype FieldPatch = FieldPatch(
    kind: Option<FieldType>,
    labelText: Option<string>,
    placeholder: Option<Option<string>>,
    required: Option<bool>,
    helpText: Option<Option<string>>,
    options: Option<Option<seq<string>>>,
    defaultValue: Option<Option<string>>)

  /** `Partial<FormData>`: `None` for a key the update object does not carry. */
  datatype FormPatch = FormPatch(
    id: Option<string>,
    title: Option<string>,
    description: Option<string>,
    fields: Option<seq<FormField>>,
    createdAt: Option<int>,
    updatedAt: Option<int>)

  /** `{ id, ...draft }` (store.ts, addField). */
  function WithId(id: string, d: FieldDraft): (f: FormField)
    ensures f.id == id && DraftOf(f) == d
  {
    FormField(id, d.kind, d.labelText, d.placeholder, d.required, d.helpText, d.options, d.defaultValue)
  }

  /** The field without its id. */
  function DraftOf(f: FormField): FieldDraft {
    FieldDraft(f.kind, f.labelText, f.placeholder, f.required, f.helpText, f.options, f.defaultValue)
  }

  /** `{ ...field, ...updates }` (store.ts, updateField): a key present in the patch wins, every
      other key keeps the field's value, and the id is never touched. */
  function ApplyFieldPatch(f: FormField, p: FieldPatch): (g: FormField)
    ensures g.id == f.id
    ensures p.kind.None? ==> g.kind == f.kind
    ensures p.kind.Some? ==> g.kind == p.kind.value
    ensures p.labelText.None? ==> g.labelText == f.labelText
    ensures p.labelText.Some? ==> g.labelText == p.labelText.value
    ensures p.placeholder.None? ==> g.placeholder == f.placeholder
    ensures p.placeholder.Some? ==> g.placeholder == p.placeholder.value
    ensures p.required.None? ==> g.required == f.required
    ensures p.required.Some? ==> g.required == p.required.value
    ensures p.helpText.None? ==> g.helpText == f.helpText
    ensures p.helpText.Some? ==> g.helpText == p.helpText.value
    ensures p.options.None? ==> g.options == f.options
    ensures p.options.Some? ==> g.options == p.options.value
    ensures p.defaultValue.None? ==> g.defaultValue == f.defaultValue
    ensures p.defaultValue.Some? ==> g.defaultValue == p.defaultValue.value
  {
    FormField(
      f.id,
      p.kind.GetOr(f.kind),
      p.labelText.GetOr(f.labelText),
      p.placeholder.GetOr(f.placeholder),
      p.required.GetOr(f.required),
      p.helpText.GetOr(f.helpText),
      p.options.GetOr(f.options),
      p.defaultValue.GetOr(f.defaultValue))
  }

  /** The update object that carries every key of a draft, as the field editor's `fieldData` does
      (its optional keys are present even when `undefined`). */
  function PatchOf(d: FieldDraft): FieldPatch {
    FieldPatch(Some(d.kind), Some(d.labelText), Some(d.placeholder), Some(d.required),
               Some(d.helpText), Some(d.options), Some(d.defaultValue))
  }

  /** Updating a field with a full draft replaces everything but its id, so edited fields keep
      their identity and lose any optional value the editor left empty. */
  lemma PatchWithDraftReplaces(f: FormField, d: FieldDraft)
    ensures ApplyFieldPatch(f, PatchOf(d)) == WithId(f.id, d)
  {
  }

  /** `{ ...form, ...updates, updatedAt: now }` (store.ts, updateForm): supplied keys win, the
      others are kept, and `updatedAt` is `now` whatever the update carried. */
  function ApplyFormPatch(form: FormData, p: FormPatch, now: int): (r: FormData)
    ensures r.updatedAt == now
    ensures p.id.None? ==> r.id == form.id
    ensures p.id.Some? ==> r.id == p.id.value
    ensures p.title.None? ==> r.title == form.title
    ensures p.title.Some? ==> r.title == p.title.value
    ensures p.description.None? ==> r.description == form.description
    ensures p.description.Some? ==> r.description == p.description.value
    ensures p.fields.None? ==> r.fields == form.fields
    ensures p.fields.Some? ==> r.fields == p.fields.value
    ensures p.createdAt.None? ==> r.createdAt == form.createdAt
    ensures p.createdAt.Some? ==> r.createdAt == p.createdAt.value
  {
    FormData(
      p.id.GetOr(form.id),
      p.title.GetOr(form.title),
      p.description.GetOr(form.description),
      p.fields.GetOr(form.fields),
      p.createdAt.GetOr(form.createdAt),
      now)
  }
}
