/** The local-storage repository of app/utils/storage.ts, over the record types of
    app/models/form.ts. The two storage keys hold abstract sequences of records; dates are epoch
    milliseconds, so the `new Date(...)` revival of a stored date gives back the same value. */
module Storage {
  import opened Options
  import opened Seqs

  /** `FieldType` of app/models/form.ts (a different list from the store's). */
  datatype FieldType = Text | Textarea | Dropdown | Checkbox | Radio | Number | Email | Password

  /** `FieldValidation`; numbers are taken to be integers. */
  datatype FieldValidation = FieldValidation(
    required: Option<bool>,
    minLength: Option<int>,
    maxLength: Option<int>,
    min: Option<int>,
    max: Option<int>,
    pattern: Option<string>)

  /** `FieldOptions`, one choice: the property `label` is `labelText`. */
  datatype FieldOption = FieldOption(labelText: string, value: string)

  /** `FormField` of app/models/form.ts. */
  datatype Field = Field(
    id: string,
    kind: FieldType,
    labelText: string,
    name: string,
    placeholder: Option<string>,
    options: Option<seq<FieldOption>>,
    validation: Option<FieldValidation>)

  /** `FormSubmission`; the answers (`Record<string, any>`) are taken to be strings. */
  datatype FormSubmission = FormSubmission(id: string, formId: string, data: map<string, string>, submittedAt: int)

  /** `Form`. */
  datatype Form = Form(
    id: string,
    title: string,
    description: string,
    createdAt: int,
    updatedAt: int,
    isPublished: bool,
    fields: seq<Field>,
    submissions: seq<FormSubmission>)

  /** The content of one local-storage key: nothing (`null` or the empty string), text that
      does not parse as an array of records, or a stored array. */
  datatype Item<T> = Missing | Unreadable | Stored(records: seq<T>)

  /** What `getAllForms` and `getAllSubmission` return in a browser: the stored array, or the
      empty list when the key is missing or the text cannot be parsed. */
  function Records<T>(item: Item<T>): (r: seq<T>)
    ensures !item.Stored? ==> r == []
    ensures item.Stored? ==> r == item.records
  {
    if item.Stored? then item.records else []
  }

  /** `forms.findIndex(f => f.id === id)`: the first index with the id, or -1. */
  function FindIndex(forms: seq<Form>, id: string): (r: int)
    ensures -1 <= r < |forms|
    ensures r == -1 <==> forall j :: 0 <= j < |forms| ==> forms[j].id != id
    ensures r >= 0 ==> forms[r].id == id && forall j :: 0 <= j < r ==> forms[j].id != id
  {
    if forms == [] then -1
    else if forms[0].id == id then 0
    else
      var k := FindIndex(forms[1..], id);
      if k == -1 then -1 else k + 1
  }

  /** `forms.find(f => f.id === id) || null`: the first form with the id. */
  function FindById(forms: seq<Form>, id: string): (r: Option<Form>)
    ensures r.None? <==> forall j :: 0 <= j < |forms| ==> forms[j].id != id
    ensures r.Some? ==> exists i :: 0 <= i < |forms| && forms[i] == r.value && r.value.id == id &&
                          forall j :: 0 <= j < i ==> forms[j].id != id
  {
    var i := FindIndex(forms, id);
    if i < 0 then None else Some(forms[i])
  }

  /** The list update at the heart of `saveForm`: the first form with the same id is replaced
      in place by the given form stamped `now`; without one the form is appended unchanged. */
  function Upsert(forms: seq<Form>, form: Form, now: int): (r: seq<Form>)
    ensures FindIndex(forms, form.id) >= 0 ==>
      && |r| == |forms|
      && r[FindIndex(forms, form.id)] == form.(updatedAt := now)
      && forall j :: 0 <= j < |forms| && j != FindIndex(forms, form.id) ==> r[j] == forms[j]
    ensures FindIndex(forms, form.id) < 0 ==>
      |r| == |forms| + 1 && r[..|forms|] == forms && r[|forms|] == form
  {
    var i := FindIndex(forms, form.id);
    if i >= 0 then forms[i := form.(updatedAt := now)] else forms + [form]
  }

  /** Lines 12-26 of `saveForm` on the array it read: replace at the found index, or push. */
  method SaveIntoList(list: seq<Form>, form: Form, now: int) returns (saved: seq<Form>)
    ensures saved == Upsert(list, form, now)
    ensures FindById(saved, form.id).Some?
  {
    saved := list;
    var existing := FindIndex(saved, form.id);
    if existing >= 0 {
      saved := saved[existing := form.(updatedAt := now)];
    } else {
      saved := saved + [form];
    }
    UpsertThenFind(list, form, now, form.id);
  }

  /** After an upsert, looking up the saved id finds the saved form, and every other id finds
      what it found before. */
  lemma UpsertThenFind(forms: seq<Form>, form: Form, now: int, id: string)
    ensures FindById(Upsert(forms, form, now), form.id) ==
              Some(if FindIndex(forms, form.id) >= 0 then form.(updatedAt := now) else form)
    ensures id != form.id ==> FindById(Upsert(forms, form, now), id) == FindById(forms, id)
  {
    var r := Upsert(forms, form, now);
    var i := FindIndex(forms, form.id);
    if i >= 0 {
      assert r[i].id == form.id;
    } else {
      assert r[|forms|].id == form.id;
    }
    if id != form.id {
      var k := FindIndex(forms, id);
      var k' := FindIndex(r, id);
      if k >= 0 {
        assert r[k].id == id;
        assert k' == k;
      } else {
        assert forall j :: 0 <= j < |r| ==> r[j].id != id by {
          forall j | 0 <= j < |r| ensures r[j].id != id {
            if j < |forms| && j != i { assert r[j] == forms[j]; }
          }
        }
      }
    }
  }

  /** Upserting a form a second time changes only its time stamp. */
  lemma UpsertTwice(forms: seq<Form>, form: Form, now: int, later: int)
    ensures Upsert(Upsert(forms, form, now), form, later) ==
              Upsert(forms, form, now)[FindIndex(Upsert(forms, form, now), form.id) := form.(updatedAt := later)]
    ensures |Upsert(Upsert(forms, form, now), form, later)| == |Upsert(forms, form, now)|
  {
    UpsertThenFind(forms, form, now, form.id);
  }

  /** `saveForm(form)` at time `now` as written: its guard returns whenever `window` IS defined,
      so in a browser nothing is written; elsewhere `getAllForms()` returns `[]` (its own guard),
      so the stored list becomes the one form. */
  function SaveFormAsWritten(hasWindow: bool, stored: Item<Form>, form: Form, now: int): Item<Form> {
    if hasWindow then stored
    else Stored(Upsert(AllRecords(hasWindow, stored), form, now))
  }

  /** The evident intent of `saveForm`: in a browser, upsert into the stored list. */
  function SaveFormIntended(hasWindow: bool, stored: Item<Form>, form: Form, now: int): Item<Form> {
    if !hasWindow then stored
    else Stored(Upsert(AllRecords(hasWindow, stored), form, now))
  }

  /** `getAllForms()` and `getAllSubmission()`: nothing without a window, otherwise what the
      key holds. */
  function AllRecords<T>(hasWindow: bool, stored: Item<T>): (r: seq<T>)
    ensures !hasWindow ==> r == []
    ensures hasWindow && stored.Stored? ==> r == stored.records
    ensures hasWindow && !stored.Stored? ==> r == []
  {
    if !hasWindow then [] else Records(stored)
  }

  /** As written, `saveForm` never stores a form in a browser, and outside one it replaces the
      whole stored list by the one form. */
  lemma SaveFormAsWrittenLosesForms(hasWindow: bool, stored: Item<Form>, form: Form, now: int)
    ensures hasWindow ==> SaveFormAsWritten(hasWindow, stored, form, now) == stored
    ensures !hasWindow ==> SaveFormAsWritten(hasWindow, stored, form, now) == Stored([form])
  {
  }

  /** A concrete case: in a browser with an empty list stored, saving a form and reading it
      back by id finds nothing. */
  lemma SaveFormAsWrittenNotFound(form: Form, now: int)
    ensures FindById(AllRecords(true, SaveFormAsWritten(true, Stored([]), form, now)), form.id).None?
  {
  }

  /** With the guard corrected, a saved form is found again by id (stamped `now` when it
      replaced an earlier entry), and every other stored form is still found as before. */
  lemma SaveFormIntendedThenFind(stored: Item<Form>, form: Form, now: int, id: string)
    ensures FindById(AllRecords(true, SaveFormIntended(true, stored, form, now)), form.id) ==
              Some(if FindIndex(Records(stored), form.id) >= 0 then form.(updatedAt := now) else form)
    ensures id != form.id ==>
              FindById(AllRecords(true, SaveFormIntended(true, stored, form, now)), id) ==
              FindById(AllRecords(true, stored), id)
  {
    UpsertThenFind(Records(stored), form, now, id);
  }

  /** The callback `(s) => { s.id === id; }` as written: its block body discards the comparison
      and returns `undefined`, which `filter` treats as false. */
  function MatchesAsWritten(id: string): FormSubmission -> bool {
    (s: FormSubmission) => false
  }

  /** The evident intent of the callback: the submission belongs to the form. */
  function BelongsTo(formId: string): FormSubmission -> bool {
    (s: FormSubmission) => s.formId == formId
  }

  /** `getFormSubmissions(id)` as written. */
  function FormSubmissionsAsWritten(hasWindow: bool, stored: Item<FormSubmission>, id: string): seq<FormSubmission> {
    Filter(AllRecords(hasWindow, stored), MatchesAsWritten(id))
  }

  /** `getFormSubmissions(id)` as intended. */
  function FormSubmissionsIntended(hasWindow: bool, stored: Item<FormSubmission>, formId: string): (r: seq<FormSubmission>)
    ensures forall i :: 0 <= i < |r| ==> r[i].formId == formId
    ensures forall i :: 0 <= i < |AllRecords(hasWindow, stored)| && AllRecords(hasWindow, stored)[i].formId == formId ==>
              AllRecords(hasWindow, stored)[i] in r
  {
    var all := AllRecords(hasWindow, stored);
    var r := Filter(all, BelongsTo(formId));
    assert forall i :: 0 <= i < |r| ==> BelongsTo(formId)(r[i]);
    r
  }

  /** As written, `getFormSubmissions` returns the empty list for every id and every store. */
  lemma {:induction false} FormSubmissionsAsWrittenEmpty(hasWindow: bool, stored: Item<FormSubmission>, id: string)
    ensures FormSubmissionsAsWritten(hasWindow, stored, id) == []
  {
    var all := AllRecords(hasWindow, stored);
    NothingPasses(all, MatchesAsWritten(id));
  }

  lemma {:induction false} NothingPasses<T>(s: seq<T>, keep: T -> bool)
    requires forall x :: !keep(x)
    ensures Filter(s, keep) == []
  {
    if s != [] {
      NothingPasses(s[1..], keep);
    }
  }

  /** `saveSubmission`'s list update: the submission goes last. */
  function Append(submissions: seq<FormSubmission>, submission: FormSubmission): (r: seq<FormSubmission>)
    ensures |r| == |submissions| + 1 && r[..|submissions|] == submissions && r[|submissions|] == submission
  {
    submissions + [submission]
  }

  /** With the callback corrected, a saved submission is the last one listed for its form, after
      those listed before. */
  lemma SaveSubmissionThenList(stored: Item<FormSubmission>, submission: FormSubmission)
    ensures FormSubmissionsIntended(true, Stored(Append(Records(stored), submission)), submission.formId) ==
              FormSubmissionsIntended(true, stored, submission.formId) + [submission]
  {
    FilterConcat(Records(stored), [submission], BelongsTo(submission.formId));
  }

  /** `getFormSharableURL(formId)`: `window.location.origin + '/form-viewer/' + formId`, or a
      single space without a window. */
  function ShareURL(hasWindow: bool, origin: string, formId: string): string {
    if !hasWindow then " " else origin + "/form-viewer/" + formId
  }

  /** The text after `origin + "/form-viewer/"` in a URL that starts with it (the route's
      parameter, with the router's own parsing left aside). */
  function ViewerFormId(origin: string, url: string): Option<string> {
    var prefix := origin + "/form-viewer/";
    if |prefix| <= |url| && url[..|prefix|] == prefix then Some(url[|prefix|..]) else None
  }

  /** A shared link leads back to its form; the placeholder without a window leads nowhere. */
  lemma ShareURLRoundTrip(hasWindow: bool, origin: string, formId: string)
    ensures hasWindow ==> ViewerFormId(origin, ShareURL(hasWindow, origin, formId)) == Some(formId)
    ensures !hasWindow ==> ViewerFormId(origin, ShareURL(hasWindow, origin, formId)).None?
  {
    var prefix := origin + "/form-viewer/";
    if hasWindow {
      assert ShareURL(hasWindow, origin, formId) == prefix + formId;
      assert (prefix + formId)[..|prefix|] == prefix;
      assert (prefix + formId)[|prefix|..] == formId;
    }
  }

  /** The browser's local storage as this module sees it: whether a `window` exists, the page's
      origin, and the two keys `form-builder-forms` and `form-builder-submissions`. */
  class Repository {
    const hasWindow: bool
    const origin: string
    var forms: Item<Form>
    var submissions: Item<FormSubmission>

    constructor (hasWindow: bool, origin: string, forms: Item<Form>, submissions: Item<FormSubmission>)
      ensures this.hasWindow == hasWindow && this.origin == origin
      ensures this.forms == forms && this.submissions == submissions
    {
      this.hasWindow := hasWindow;
      this.origin := origin;
      this.forms := forms;
      this.submissions := submissions;
    }

    /** `getAllForms()`. */
    function GetAllForms(): seq<Form>
      reads this
    {
      AllRecords(hasWindow, forms)
    }

    /** `getAllSubmission()`. */
    function GetAllSubmission(): seq<FormSubmission>
      reads this
    {
      AllRecords(hasWindow, submissions)
    }

    /** `getFormById(id)`. */
    function GetFormById(id: string): (r: Option<Form>)
      reads this
      ensures !hasWindow ==> r.None?
      ensures r.Some? ==> r.value.id == id && r.value in GetAllForms()
      ensures hasWindow ==> r == FindById(GetAllForms(), id)
    {
      if !hasWindow then None else FindById(GetAllForms(), id)
    }

    /** `getFormSubmissions(id)`, callback as written. */
    function GetFormSubmissions(id: string): (r: seq<FormSubmission>)
      reads this
      ensures r == []
    {
      FormSubmissionsAsWrittenEmpty(hasWindow, submissions, id);
      FormSubmissionsAsWritten(hasWindow, submissions, id)
    }

    /** `getFormSharableURL(formId)`. */
    function GetFormSharableURL(formId: string): (url: string)
      reads this
      ensures hasWindow ==> ViewerFormId(origin, url) == Some(formId)
      ensures !hasWindow ==> url == " "
    {
      ShareURLRoundTrip(hasWindow, origin, formId);
      ShareURL(hasWindow, origin, formId)
    }

    /** `saveForm(form)` at time `now`, as written: the inverted guard returns in a browser. */
    method SaveForm(form: Form, now: int)
      modifies this
      ensures forms == SaveFormAsWritten(hasWindow, old(forms), form, now)
      ensures submissions == old(submissions)
    {
      if hasWindow {
        return;
      }
      ghost var before := forms;
      var list := GetAllForms();
      list := SaveIntoList(list, form, now);
      assert Stored(list) == SaveFormAsWritten(hasWindow, before, form, now);
      forms := Stored(list);
    }

    /** `saveSubmission(submission)`: appends in a browser, does nothing elsewhere. */
    method SaveSubmission(submission: FormSubmission)
      modifies this
      ensures hasWindow ==> submissions == Stored(Append(Records(old(submissions)), submission))
      ensures !hasWindow ==> submissions == old(submissions)
      ensures forms == old(forms)
    {
      if !hasWindow {
        return;
      }
      var list := GetAllSubmission();
      list := list + [submission];
      submissions := Stored(list);
    }
  }
}
