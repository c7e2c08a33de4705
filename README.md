# Form builder: store, field editor and local-storage repository

A Dafny model of the logic in a client-side form-building web application. Users create forms,
add, edit, delete and reorder typed fields, and share a link to a form. Three parts of the code
carry that logic:

- **The form store** (`app/utils/store.ts`). A zustand store holds three things: a map `forms`
  from form id to form, a `currentForm` (`null` or a form) and an `isHydrated` flag. Each action
  replaces them through `set`. Two modules model it:
  - `StoreActions` computes each action's new state as a function of the old state. This covers
    `setHydrated`, `createForm`, `updateForm`, `deleteForm`, `setCurrentForm`, `addField`,
    `updateField`, `deleteField` and `reorderFields`.
  - `FormStore.Store` is a class with the three fields. Each action is a method that assigns the
    keys its `set` returns.
- **Field-list operations** (`FieldLists`). These model the `map`, `filter` and lookup that the
  field actions apply to the current form's fields.
- **Record types** (`FormModel`). These model the store's records and the object spreads that
  build and patch them.
- **The field editor** (`app/components/form-builder/FieldEditor.tsx`, module `FieldEditor`).
  Loading fills the inputs from a field: options are joined with line feeds and an absent
  optional string becomes `''`. A new field gets default inputs. `handleSubmit` turns the inputs
  back into field data: for the choice types it splits the options text on line feeds and keeps
  the non-blank lines; empty optional strings become absent.
- **The local-storage repository** (`app/utils/storage.ts`, module `Storage`). Its records come
  from `app/models/form.ts`. The two storage keys hold abstract sequences of records. A key can
  also be missing or hold text that does not parse. `Storage.Repository` is a class whose methods
  update those sequences.

Three facts about the code that a reader might expect otherwise:

- Nothing keeps a choice field's options non-blank. Whitespace-only options text saves `[]`
  (`FieldEditor.OptionLinesOneLine`, `FieldEditor.OptionsRoundTrip`).
- `updateForm` copies any `createdAt` it is given, so `updatedAt ≥ createdAt` is not kept.
- No id is checked for collisions. The methods that draw one require it fresh.

Inputs the code takes from its environment are parameters:

- a fresh id from `nanoid` is `id` or `fieldId`;
- a clock reading from `Date.now()` or `new Date()` is `now`, or `createdAt` and `updatedAt`;
- `typeof window !== 'undefined'` is `hasWindow`;
- `window.location.origin` is `origin`.

## Model

| member | source | states |
|---|---|---|
| FormModel.WithId | app/utils/store.ts:189-192 | the new field carries the drawn id, and removing that id gives back exactly the draft it was built from |
| FormModel.ApplyFieldPatch | app/utils/store.ts:212 | `{...field, ...updates}`: a key present in the update wins (including an explicit `undefined`), every absent key keeps its value, and the id is never changed |
| FormModel.PatchWithDraftReplaces | app/utils/store.ts:211-213 | updating a field with a full set of editor data (all keys present) replaces every attribute except the id |
| FormModel.ApplyFormPatch | app/utils/store.ts:153-157 | supplied keys overwrite, unsupplied keys are kept, and `updatedAt` is `now` even when the update carries its own `updatedAt` |
| FieldLists.PatchWhere | app/utils/store.ts:211-213 | same length and order; exactly the fields whose id matches receive the patch, every other field is unchanged |
| FieldLists.PatchWhereKeepsIds | app/utils/store.ts:211-213 | updating fields never changes the list of ids |
| FieldLists.PatchWhereUnknownId | app/utils/store.ts:211-213 | with an id no field carries, the list is unchanged |
| FieldLists.RemoveWhere | app/utils/store.ts:254-256 | every remaining field lacks the id; every field without the id remains |
| FieldLists.RemoveWhereExactly | app/utils/store.ts:254-256 | removal keeps the rest in order (it distributes over concatenation); a field with the id has multiplicity 0, any other keeps its multiplicity |
| FieldLists.RemoveWhereLength | app/utils/store.ts:254-256 | with distinct ids, deleting a present id shortens the list by one, and deleting an absent id leaves it unchanged |
| FieldLists.RemoveWhereKeepsDistinctIds | app/utils/store.ts:254-256 | deleting fields keeps field ids distinct |
| FieldLists.LastWithId | app/utils/store.ts:296-298 | the `Object.fromEntries` lookup is absent exactly when no field has the id; otherwise it is the last field with that id |
| FieldLists.Reorder | app/utils/store.ts:301-303 | no longer than the requested order; every produced field is one of the current fields |
| FieldLists.ReorderConcat | app/utils/store.ts:301-303 | each listed id is handled on its own, in the listed order, so a repeated id repeats its field |
| FieldLists.ReorderFollowsOrder | app/utils/store.ts:301-303 | every produced field's id is listed; when every listed id exists, there is one field per listed id, in the listed order |
| FieldLists.ReorderPermutes | app/utils/store.ts:296-303 | if the new order is a permutation of the distinct current ids, the result is a permutation of the fields, contents unchanged, with ids in the new order |
| FieldLists.ReorderByOwnIds | app/utils/store.ts:296-303 | reordering by the current id list changes nothing when ids are distinct |
| StoreActions.SetHydrated | app/utils/store.ts:99-102 | sets the flag and leaves forms and current form alone |
| StoreActions.CreateForm | app/utils/store.ts:104-118 | adds exactly the new key; it holds an empty form with the given title, description and the two timestamps; the form becomes current; other forms are unchanged |
| StoreActions.UpdateForm | app/utils/store.ts:149-166 | an unknown id leaves the state unchanged; otherwise only that form is replaced by the patched form stamped `now`, and the current form is replaced only if its id is `formId` |
| StoreActions.DeleteForm | app/utils/store.ts:168-176 | exactly that key is removed (an absent key changes nothing); the current form is cleared exactly when its id is the deleted id |
| StoreActions.SetCurrentForm | app/utils/store.ts:178-182 | `null`, `''` and unknown ids leave no current form; a known id selects `forms[id]`; forms untouched |
| StoreActions.WriteCurrent | app/utils/store.ts:194-203 | the shared write of every field action: the edited current form, stamped `now`, is current and is stored under its id; nothing else changes |
| StoreActions.AddField | app/utils/store.ts:184-205 | no current form: unchanged; otherwise the new field is appended last, after the earlier fields in order, written to both places and stamped `now` |
| StoreActions.UpdateField | app/utils/store.ts:207-224 | no current form: unchanged; otherwise the field list is `PatchWhere` of the old one, written to both places, stamped `now` even when no field matched |
| StoreActions.DeleteField | app/utils/store.ts:248-267 | no current form: unchanged; otherwise the field list is `RemoveWhere` of the old one, written to both places, stamped `now` |
| StoreActions.ReorderFields | app/utils/store.ts:291-316 | no current form: unchanged; otherwise the field list is `Reorder` of the old one by `newOrder`, written to both places, stamped `now` |
| StoreActions.StepKeepsConsistent | app/utils/store.ts:99-316 | every action preserves "each form is stored under its id, and `currentForm` is absent or equals `forms[currentForm.id]`", provided `updateForm` does not change the id |
| StoreActions.RunKeepsConsistent | app/utils/store.ts:99-316 | any sequence of such actions preserves that invariant |
| StoreActions.UpdateFormCanMoveId | app/utils/store.ts:153-160 | an update carrying a different `id` breaks the key/id agreement, so the proviso above is needed |
| StoreActions.AddFieldKeepsIdsDistinct | app/utils/store.ts:188-196 | with a fresh field id, field ids stay distinct and the list grows by exactly one |
| StoreActions.DeleteFieldKeepsIdsDistinct | app/utils/store.ts:254-256 | deleting a field keeps field ids distinct |
| StoreActions.UpdateThenSelect | app/utils/store.ts:149-182 | `updateForm(id, {title})` then `setCurrentForm(id)` selects a form with that title stamped with the update's time |
| FormStore.Store.constructor | app/utils/store.ts:64-91 | the initial state when nothing persisted is loaded: no forms, no current form, consistent; unhydrated on the server (lines 69-70), hydrated in a browser (line 90) |
| FormStore.Store.SetHydrated | app/utils/store.ts:99-102 | new state is `SetHydrated` of the old; consistency kept |
| FormStore.Store.CreateForm | app/utils/store.ts:104-147 | returns the drawn id; new state is `CreateForm` of the old; with a fresh id the store grows by one form; consistency kept |
| FormStore.Store.UpdateForm | app/utils/store.ts:149-166 | new state is `UpdateForm` of the old; consistency kept when the update does not change the id |
| FormStore.Store.DeleteForm | app/utils/store.ts:168-176 | new state is `DeleteForm` of the old; consistency kept |
| FormStore.Store.SetCurrentForm | app/utils/store.ts:178-182 | new state is `SetCurrentForm` of the old; consistency kept |
| FormStore.Store.AddField | app/utils/store.ts:184-205 | new state is `AddField` of the old; consistency and distinct field ids kept |
| FormStore.Store.UpdateField | app/utils/store.ts:207-246 | new state is `UpdateField` of the old; consistency kept |
| FormStore.Store.DeleteField | app/utils/store.ts:248-289 | new state is `DeleteField` of the old; consistency kept |
| FormStore.Store.ReorderFields | app/utils/store.ts:291-316 | new state is `ReorderFields` of the old; consistency kept |
| FieldEditor.IsWhitespace | app/components/form-builder/FieldEditor.tsx:47 | the characters `trim` removes: ECMAScript's white space and line terminators, written out (used by the trim lemmas below) |
| FieldEditor.TrimStart | app/components/form-builder/FieldEditor.tsx:47 | the result is a suffix; every dropped character is whitespace; it is empty exactly for all-whitespace input, and otherwise starts with a non-whitespace character |
| FieldEditor.TrimEnd | app/components/form-builder/FieldEditor.tsx:47 | the result is a prefix; every dropped character is whitespace; it is empty exactly for all-whitespace input, and otherwise ends with a non-whitespace character |
| FieldEditor.Trim | app/components/form-builder/FieldEditor.tsx:47 | `option.trim().length > 0` holds exactly when the line has a non-whitespace character |
| FieldEditor.Split | app/components/form-builder/FieldEditor.tsx:47 | `split('\n')` gives at least one piece, and no piece contains a line feed |
| FieldEditor.JoinSplit | app/components/form-builder/FieldEditor.tsx:47 | joining the pieces of a split with line feeds rebuilds the text |
| FieldEditor.SplitJoin | app/components/form-builder/FieldEditor.tsx:16 | splitting a line-feed join of one or more line-feed-free strings gives them back |
| FieldEditor.OptionLines | app/components/form-builder/FieldEditor.tsx:47 | every kept option has a non-whitespace character and no line feed |
| FieldEditor.OptionLinesAreNonBlankLines | app/components/form-builder/FieldEditor.tsx:47 | a line followed by a line feed is kept, untrimmed, exactly when non-blank, ahead of the kept lines after it |
| FieldEditor.OptionLinesOneLine | app/components/form-builder/FieldEditor.tsx:47 | a last or only line is kept exactly when non-blank, so whitespace-only options text yields no options |
| FieldEditor.Join | app/components/form-builder/FieldEditor.tsx:16 | `join('\n')`; its partners `JoinSplit` and `SplitJoin` make it the inverse of `Split` on line-feed-free pieces |
| FieldEditor.OptionsText | app/components/form-builder/FieldEditor.tsx:28 | absent options load as the empty text |
| FieldEditor.Load | app/components/form-builder/FieldEditor.tsx:20-40 | a new field starts as text type with empty label, placeholder, help text, options and default value, not required; an edited field's type, label and required flag are copied |
| FieldEditor.NonEmpty | app/components/form-builder/FieldEditor.tsx:53-57 | the empty string becomes absent; any other string is kept verbatim |
| FieldEditor.SavedOptions | app/components/form-builder/FieldEditor.tsx:46-48 | options are present exactly for dropdown, checkbox and radio; each kept option has a non-whitespace character and no line feed |
| FieldEditor.Save | app/components/form-builder/FieldEditor.tsx:43-62 | type, label and required are copied; empty placeholder, help text and default value become absent; the result is data the editor can reload unchanged |
| FieldEditor.OptionsRoundTrip | app/components/form-builder/FieldEditor.tsx:16-47 | loading non-blank, single-line options with `join('\n')` and saving with split/filter gives the list back, including the empty list |
| FieldEditor.EditRoundTrip | app/components/form-builder/FieldEditor.tsx:20-62 | opening a field the editor could have saved and saving it unchanged gives back the same field data |
| FieldEditor.SaveIsStable | app/components/form-builder/FieldEditor.tsx:20-62 | saving, reopening and saving again without a change reproduces the first save |
| FieldEditor.NewFieldData | app/components/form-builder/FieldEditor.tsx:33-62 | `handleSubmit` applied to the reset inputs gives a non-required text field with an empty label and no optional values (the browser's `required` check on the label input sits outside this model) |
| Storage.Records | app/utils/storage.ts:53-67 | a missing key or unparsable text reads as the empty list; a stored array reads as itself |
| Storage.AllRecords | app/utils/storage.ts:49-69 | `getAllForms` (and, alike, `getAllSubmission` at lines 97-121): empty without a window, or when the key is missing or unreadable; otherwise the stored records |
| Storage.Repository.GetAllForms | app/utils/storage.ts:49-69 | the repository's forms read through `AllRecords` |
| Storage.Repository.GetAllSubmission | app/utils/storage.ts:97-121 | the repository's submissions read through `AllRecords` |
| Seqs.Filter | app/utils/storage.ts:90-92 | `Array.prototype.filter`: no longer than the input; every kept element is an input element that passes; every passing input element is kept; `FilterConcat` and `FilterCount` give order and multiplicity |
| Storage.SaveFormAsWritten | app/utils/storage.ts:9-31 | `saveForm` as written; what it does is stated by `SaveFormAsWrittenLosesForms` and `SaveFormAsWrittenNotFound` |
| Storage.SaveFormIntended | app/utils/storage.ts:9-31 | `saveForm` with the guard corrected; read-after-save is stated by `SaveFormIntendedThenFind` |
| Storage.MatchesAsWritten | app/utils/storage.ts:90-92 | the block-bodied callback, which returns `undefined`; `FormSubmissionsAsWrittenEmpty` states that it keeps nothing |
| Storage.FormSubmissionsAsWritten | app/utils/storage.ts:85-93 | `getFormSubmissions` as written; `FormSubmissionsAsWrittenEmpty` states that it is always empty |
| Storage.ShareURL | app/utils/storage.ts:125-131 | `origin + '/form-viewer/' + formId`, or `' '` without a window; `ShareURLRoundTrip` states that the id can be read back |
| Storage.FindIndex | app/utils/storage.ts:13 | -1 exactly when no form has the id; otherwise the first index holding it |
| Storage.FindById | app/utils/storage.ts:41-43 | absent exactly when no form has the id; otherwise the first form with it |
| Storage.Upsert | app/utils/storage.ts:13-26 | an existing id: same length, the first match replaced in place by the form stamped `now`, every other entry unchanged; a new id: the form appended unchanged, earlier entries kept |
| Storage.SaveIntoList | app/utils/storage.ts:12-26 | the in-place replace-or-push equals `Upsert`, after which the form's id is found |
| Storage.UpsertThenFind | app/utils/storage.ts:13-43 | after saving, `find` by that id yields the saved form (stamped if it replaced one), and other ids find what they found before |
| Storage.UpsertTwice | app/utils/storage.ts:13-21 | saving the same form again keeps the length and only restamps its entry |
| Storage.SaveFormAsWrittenLosesForms | app/utils/storage.ts:9-31 | as written, `saveForm` is a no-op in a browser, and without a window it replaces the stored list by the one form |
| Storage.SaveFormAsWrittenNotFound | app/utils/storage.ts:10 | in a browser with an empty list stored, a saved form is not found again |
| Storage.SaveFormIntendedThenFind | app/utils/storage.ts:9-43 | with the guard corrected, a saved form is found again by id and every other stored form is found as before |
| Storage.FormSubmissionsIntended | app/utils/storage.ts:85-93 | with the callback corrected, exactly the stored submissions of the requested form: every listed one belongs to it, and every stored one that belongs to it is listed |
| Storage.FormSubmissionsAsWrittenEmpty | app/utils/storage.ts:90-92 | as written, `getFormSubmissions` returns the empty list for every id and every stored list |
| Storage.Append | app/utils/storage.ts:78 | exactly one submission added, last, earlier ones unchanged |
| Storage.SaveSubmissionThenList | app/utils/storage.ts:73-93 | with the callback corrected, a saved submission is listed last for its form, after those listed before |
| Storage.ShareURLRoundTrip | app/utils/storage.ts:125-131 | stripping `origin + '/form-viewer/'` from the shared URL gives back the form id; the single-space placeholder without a window does not start with that prefix |
| Storage.Repository.constructor | app/utils/storage.ts:3-4 | a repository over the given window, origin and the contents of the two keys |
| Storage.Repository.GetFormById | app/utils/storage.ts:36-44 | null without a window; otherwise the first stored form with the id, or null if there is none (through `FindById`) |
| Storage.Repository.GetFormSubmissions | app/utils/storage.ts:85-93 | always the empty list |
| Storage.Repository.GetFormSharableURL | app/utils/storage.ts:125-131 | a URL which, with `origin + '/form-viewer/'` stripped, gives back the form id; a single space without a window |
| Storage.Repository.SaveForm | app/utils/storage.ts:9-31 | the stored forms become `SaveFormAsWritten` of the old ones; submissions untouched |
| Storage.Repository.SaveSubmission | app/utils/storage.ts:73-81 | in a browser, the stored submissions become the old list (empty if missing or unreadable) with the submission appended; without a window nothing changes; forms untouched |

## Findings

| source | as written | input that shows it | evidently intended | confidence | as-written member | corrected member |
|---|---|---|---|---|---|---|
| app/utils/storage.ts:10 | `if(typeof window !== 'undefined') return;` returns in every browser; without a window `getAllForms()` yields `[]`, so the stored list is overwritten by the one form | in a browser with `[]` stored, `saveForm(f)` then `getFormById(f.id)` gives null | `=== 'undefined'`, as in every other function of the file | high; not executed | Storage.SaveFormAsWrittenNotFound | Storage.SaveFormIntendedThenFind |
| app/utils/storage.ts:90-92 | the callback's block body `{ s.id === id; }` returns `undefined`, so `filter` keeps nothing | a stored submission `s`: `getFormSubmissions(s.formId)` gives `[]` | `s => s.formId === id` | high for the missing `return`, medium that `formId` was meant rather than `id`; not executed | Storage.FormSubmissionsAsWrittenEmpty | Storage.SaveSubmissionThenList |

`Storage.Repository` follows the code as written. The corrected definitions
(`Storage.SaveFormIntended`, `Storage.FormSubmissionsIntended`) sit beside it, and the lemmas
about persisting and reading back forms and submissions are proved about them.

## Left out

- Browser I/O in the store is not modelled. This covers the direct `localStorage` writes in
  `createForm`, `updateField` and `deleteField`, `syncWithLocalStorage`, `getInitialState`'s
  loading of persisted state, and the zustand `persist` middleware. The `Store` constructor is
  the state with nothing loaded. On the server that state is unhydrated (store.ts lines 69-70).
  In a browser with nothing stored, or with text that does not parse, it is hydrated (line 90).
  The browser's initial state with persisted forms loaded (lines 77-83) is not modelled.
- `nanoid` randomness and the clock are not modelled. Ids and times are parameters.
  - FormStore.Store.CreateForm: requires the drawn id to be unused. The code relies on `nanoid`
    for this and never checks; a collision would silently replace a form.
  - FormStore.Store.AddField: requires the drawn field id to be unused in the current form, for
    the same reason.
  - StoreActions.CreateForm: `createdAt` and `updatedAt` are two separate `Date.now()` readings
    (store.ts lines 111-112). They are left unrelated, because `Date.now()` reads the wall clock,
    which may step back. `FormStore.Store.CreateForm` likewise does not promise
    `createdAt ≤ updatedAt`.
- Lookups such as `state.forms[formId]` and `fieldsMap[id]` run on plain JavaScript objects. A
  key such as `"constructor"` finds an inherited `Object.prototype` member. The model treats
  only stored keys as present.
- `Partial<FormData>` can carry a required key with the value `undefined`. `FormPatch` covers
  only absent keys and keys with a value. `FieldPatch` does model an explicit `undefined` for
  optional keys, because the editor passes one.
- JavaScript strings are UTF-16 code units. Dafny strings are sequences of Unicode scalar values.
  Lone surrogates are not modelled. Every character `trim` removes lies in the Basic
  Multilingual Plane, so `trim` behaves the same.
- Timestamps are JavaScript numbers (floating point). They are modelled as integers of
  milliseconds. The JSON round trip of a `Date` through an ISO string is taken as the identity.
  Invalid dates are not modelled.
- Storage records are simplified. `data: Record<string, any>` is a map from strings to strings.
  Numeric validation bounds are integers.
- Storage.Repository.SaveSubmission and Storage.SaveFormIntended promise the write
  unconditionally. But `localStorage.setItem` can throw: the quota may be exceeded, or storage
  may be disabled. `saveSubmission` (storage.ts line 80) and `saveForm` (line 29) do not catch
  this, so such a call throws and the stored list stays as it was. The model assumes every
  write succeeds.
- Without a window there is normally no `localStorage` either. There, the code's
  `localStorage.setItem` in `saveForm` would throw. The model assumes a storage object exists.
- Presentation code is not modelled. This covers `FormBuilder.tsx` (effects, the debounced
  auto-save, drag and drop through `arrayMove`), `FormList.tsx`, `FormFields.tsx`,
  `FormPreview.tsx`, `theme-provider.tsx`, `formUtils.ts` and the route modules. They render
  views or call the modelled operations.
- The browser's form validation is not modelled. The label input (FieldEditor.tsx line 100) and
  the options textarea (line 154) are `required`, so the browser blocks a submit with an empty
  label, or with empty options text for a choice type. `Save` is `handleSubmit` on any inputs.
  FieldEditor.NewFieldData therefore describes a submit that the browser would block.
- Storage.ShareURLRoundTrip: the viewer route's parameter is modelled as the text after
  `origin + '/form-viewer/'`. The Remix router is idealised. It matches one non-empty path
  segment, so an empty id, or one with `/`, `?` or `#`, would not come back. Ids from `nanoid`
  avoid those characters.
- The editor's React state setters are not modelled. `Load` gives the inputs after the reset
  effect at lines 20-40. For every field that effect agrees with the initial `useState` values.
