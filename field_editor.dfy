/** The field editor (app/components/form-builder/FieldEditor.tsx): how its inputs are loaded from
    a field (or reset for a new one) and how `handleSubmit` turns them back into field data. */
module FieldEditor {
  import opened Options
  import opened FormModel
  import opened Seqs

  /** The characters `String.prototype.trim` removes: ECMAScript's WhiteSpace (tab, vertical
      tab, form feed, zero-width no-break space and the Unicode space separators) and
      LineTerminator (line feed, carriage return, line and paragraph separators). */
  predicate IsWhitespace(c: char) {
    || c == '\t' || c == '\n' || c == '\U{000B}' || c == '\U{000C}' || c == '\r' || c == ' '
    || c == '\U{00A0}' || c == '\U{1680}' || ('\U{2000}' <= c <= '\U{200A}')
    || c == '\U{2028}' || c == '\U{2029}' || c == '\U{202F}' || c == '\U{205F}'
    || c == '\U{3000}' || c == '\U{FEFF}'
  }

  /** The string has a character that is not whitespace. */
  predicate HasNonWhitespace(s: string) {
    exists i :: 0 <= i < |s| && !IsWhitespace(s[i])
  }

  /** Drops leading whitespace. */
  function TrimStart(s: string): (r: string)
    ensures |r| <= |s| && r == s[|s| - |r|..]
    ensures r == [] <==> !HasNonWhitespace(s)
    ensures r != [] ==> !IsWhitespace(r[0])
    ensures forall i :: 0 <= i < |s| - |r| ==> IsWhitespace(s[i])
  {
    if s == [] then s
    else if IsWhitespace(s[0]) then
      var r := TrimStart(s[1..]);
      assert forall i :: 1 <= i < |s| - |r| ==> s[i] == s[1..][i - 1];
      assert HasNonWhitespace(s) ==> HasNonWhitespace(s[1..]) by {
        if HasNonWhitespace(s) {
          var i :| 0 <= i < |s| && !IsWhitespace(s[i]);
          assert s[1..][i - 1] == s[i];
        }
      }
      r
    else s
  }

  /** Drops trailing whitespace. */
  function TrimEnd(s: string): (r: string)
    ensures |r| <= |s| && r == s[..|r|]
    ensures r == [] <==> !HasNonWhitespace(s)
    ensures r != [] ==> !IsWhitespace(r[|r| - 1])
    ensures forall i :: |r| <= i < |s| ==> IsWhitespace(s[i])
  {
    if s == [] then s
    else if IsWhitespace(s[|s| - 1]) then
      var r := TrimEnd(s[..|s| - 1]);
      assert forall i :: |r| <= i < |s| - 1 ==> s[i] == s[..|s| - 1][i];
      assert HasNonWhitespace(s) ==> HasNonWhitespace(s[..|s| - 1]) by {
        if HasNonWhitespace(s) {
          var i :| 0 <= i < |s| && !IsWhitespace(s[i]);
          assert s[..|s| - 1][i] == s[i];
        }
      }
      r
    else s
  }

  /** `s.trim()`. */
  function Trim(s: string): (r: string)
    ensures |r| > 0 <==> HasNonWhitespace(s)
  {
    var t := TrimStart(s);
    assert t != [] ==> HasNonWhitespace(t) by {
      if t != [] { assert !IsWhitespace(t[0]); }
    }
    TrimEnd(t)
  }

  /** `s.split('\n')`: the pieces between line feeds, at least one, none holding a line feed. */
  function Split(s: string): (r: seq<string>)
    ensures |r| >= 1
    ensures forall i :: 0 <= i < |r| ==> '\n' !in r[i]
  {
    if s == [] then [""]
    else
      var rest := Split(s[1..]);
      if s[0] == '\n' then [""] + rest
      else [[s[0]] + rest[0]] + rest[1..]
  }

  /** `xs.join('\n')`. */
  function Join(xs: seq<string>): string {
    if |xs| == 0 then ""
    else if |xs| == 1 then xs[0]
    else xs[0] + "\n" + Join(xs[1..])
  }

  /** Splitting undoes joining. */
  lemma {:induction false} JoinSplit(s: string)
    ensures Join(Split(s)) == s
  {
    if s != [] {
      JoinSplit(s[1..]);
      var rest := Split(s[1..]);
      if s[0] == '\n' {
        assert [""] + rest == [""] + rest[..];
        assert s == "\n" + s[1..];
      } else if |rest| == 1 {
        assert s == [s[0]] + s[1..];
      } else {
        assert Join(rest) == rest[0] + "\n" + Join(rest[1..]);
        var r := [[s[0]] + rest[0]] + rest[1..];
        assert r[1..] == rest[1..];
        assert s == [s[0]] + s[1..];
      }
    }
  }

  /** A line-feed-free prefix sticks to the first piece. */
  lemma {:induction false} SplitPrefix(a: string, s: string)
    requires '\n' !in a
    ensures Split(a + s) == [a + Split(s)[0]] + Split(s)[1..]
  {
    if a != [] {
      assert (a + s)[1..] == a[1..] + s;
      assert a[0] in a && (a + s)[0] == a[0];
      SplitPrefix(a[1..], s);
      var rest := Split(a[1..] + s);
      assert Split(a + s) == [[a[0]] + rest[0]] + rest[1..];
      assert [a[0]] + (a[1..] + Split(s)[0]) == a + Split(s)[0];
    } else {
      assert a + s == s;
      assert a + Split(s)[0] == Split(s)[0];
      assert Split(s) == [Split(s)[0]] + Split(s)[1..];
    }
  }

  /** Joining undoes splitting for line-feed-free pieces. */
  lemma {:induction false} SplitJoin(xs: seq<string>)
    requires |xs| >= 1
    requires forall i :: 0 <= i < |xs| ==> '\n' !in xs[i]
    ensures Split(Join(xs)) == xs
  {
    if |xs| == 1 {
      SplitPrefix(xs[0], "");
      assert xs[0] + "" == xs[0];
    } else {
      SplitJoin(xs[1..]);
      SplitAtLineFeed(xs[0], Join(xs[1..]));
      assert xs == [xs[0]] + xs[1..];
    }
  }

  /** A line feed after a line-feed-free piece ends the first line. */
  lemma SplitAtLineFeed(a: string, b: string)
    requires '\n' !in a
    ensures Split(a + "\n" + b) == [a] + Split(b)
  {
    var t := "\n" + b;
    assert t[0] == '\n' && t[1..] == b;
    assert Split(t) == [""] + Split(b);
    assert a + "\n" + b == a + t;
    SplitPrefix(a, t);
    assert a + "" == a;
  }

  /** The callback `option => option.trim().length > 0`. */
  function IsNonBlank(): string -> bool {
    (line: string) => |Trim(line)| > 0
  }

  /** `optionsText.split('\n').filter(option => option.trim().length > 0)`. */
  function OptionLines(optionsText: string): (r: seq<string>)
    ensures forall i :: 0 <= i < |r| ==> HasNonWhitespace(r[i]) && '\n' !in r[i]
  {
    var lines := Split(optionsText);
    var r := Filter(lines, IsNonBlank());
    assert forall i :: 0 <= i < |r| ==> HasNonWhitespace(r[i]) && '\n' !in r[i] by {
      forall i | 0 <= i < |r| ensures HasNonWhitespace(r[i]) && '\n' !in r[i] {
        assert IsNonBlank()(r[i]) && r[i] in lines;
      }
    }
    r
  }

  /** The kept lines are exactly the non-blank lines of the text, verbatim and in order. */
  lemma OptionLinesAreNonBlankLines(a: string, b: string)
    requires '\n' !in a
    ensures OptionLines(a + "\n" + b) == (if HasNonWhitespace(a) then [a] else []) + OptionLines(b)
  {
    SplitAtLineFeed(a, b);
    FilterConcat([a], Split(b), IsNonBlank());
  }

  /** A last (or only) line is kept exactly when it is non-blank; so whitespace-only options
      text saves no options. */
  lemma OptionLinesOneLine(a: string)
    requires '\n' !in a
    ensures OptionLines(a) == (if HasNonWhitespace(a) then [a] else [])
  {
    SplitPrefix(a, "");
    assert a + "" == a;
  }

  /** The editor's input values. */
  datatype Editor = Editor(
    kind: FieldType,
    labelText: string,
    placeholder: string,
    required: bool,
    helpText: string,
    optionsText: string,
    defaultValue: string)

  /** `value || ''` for an optional string. */
  function OrEmpty(o: Option<string>): string {
    o.GetOr("")
  }

  /** `field.options?.join('\n') || ''`. */
  function OptionsText(options: Option<seq<string>>): (t: string)
    ensures options.None? ==> t == ""
  {
    if options.Some? then Join(options.value) else ""
  }

  /** The inputs for a field to edit, or the defaults for a new field (`None`). */
  function Load(field: Option<FormField>): (e: Editor)
    ensures field.None? ==>
      e.kind == Text && e.labelText == "" && e.placeholder == "" && !e.required &&
      e.helpText == "" && e.optionsText == "" && e.defaultValue == ""
    ensures field.Some? ==>
      e.kind == field.value.kind && e.labelText == field.value.labelText && e.required == field.value.required
  {
    match field
    case None => Editor(Text, "", "", false, "", "", "")
    case Some(f) =>
      Editor(f.kind, f.labelText, OrEmpty(f.placeholder), f.required, OrEmpty(f.helpText),
             OptionsText(f.options), OrEmpty(f.defaultValue))
  }

  /** `value || undefined`: the empty string becomes absent. */
  function NonEmpty(s: string): (r: Option<string>)
    ensures r.None? <==> s == ""
    ensures r.Some? ==> r.value == s
  {
    if s == "" then None else Some(s)
  }

  /** The `options` that `handleSubmit` saves: the non-blank lines for a choice type, absent
      for every other type. */
  function SavedOptions(kind: FieldType, optionsText: string): (r: Option<seq<string>>)
    ensures r.Some? <==> IsChoice(kind)
    ensures r.Some? ==> forall i :: 0 <= i < |r.value| ==> HasNonWhitespace(r.value[i]) && '\n' !in r.value[i]
  {
    if IsChoice(kind) then Some(OptionLines(optionsText)) else None
  }

  /** `handleSubmit`'s `fieldData`. */
  function Save(e: Editor): (d: FieldDraft)
    ensures d.kind == e.kind && d.labelText == e.labelText && d.required == e.required
    ensures d.placeholder == NonEmpty(e.placeholder)
    ensures d.helpText == NonEmpty(e.helpText)
    ensures d.defaultValue == NonEmpty(e.defaultValue)
    ensures d.options.Some? <==> IsChoice(e.kind)
    ensures Saveable(d)
  {
    FieldDraft(e.kind, e.labelText, NonEmpty(e.placeholder), e.required, NonEmpty(e.helpText),
               SavedOptions(e.kind, e.optionsText), NonEmpty(e.defaultValue))
  }

  /** Field data the editor can produce: no empty optional string, options present exactly for
      the choice types, each option non-blank and on one line. */
  predicate Saveable(d: FieldDraft) {
    && (d.placeholder.Some? ==> d.placeholder.value != "")
    && (d.helpText.Some? ==> d.helpText.value != "")
    && (d.defaultValue.Some? ==> d.defaultValue.value != "")
    && (d.options.Some? <==> IsChoice(d.kind))
    && (d.options.Some? ==>
          forall i :: 0 <= i < |d.options.value| ==>
            HasNonWhitespace(d.options.value[i]) && '\n' !in d.options.value[i])
  }

  /** Loading a list of non-blank, single-line options with `join('\n')` and saving it with
      split-and-filter gives the list back; the empty list comes back empty. */
  lemma {:induction false} OptionsRoundTrip(options: seq<string>)
    requires forall i :: 0 <= i < |options| ==> HasNonWhitespace(options[i]) && '\n' !in options[i]
    ensures OptionLines(Join(options)) == options
  {
    if options == [] {
      assert Split("") == [""];
      assert Filter([""], IsNonBlank()) == [] by {
        assert !HasNonWhitespace("");
      }
    } else {
      SplitJoin(options);
      FilterAll(options, IsNonBlank());
    }
  }

  /** Opening a field the editor could have saved and saving it unchanged gives back the same
      field data. */
  lemma EditRoundTrip(f: FormField)
    requires Saveable(DraftOf(f))
    ensures Save(Load(Some(f))) == DraftOf(f)
  {
    if f.options.Some? {
      OptionsRoundTrip(f.options.value);
    }
  }

  /** Saving is idempotent across a reopen: editing a saved field and saving it again without a
      change reproduces the saved data. */
  lemma SaveIsStable(e: Editor, id: string)
    ensures Save(Load(Some(WithId(id, Save(e))))) == Save(e)
  {
    EditRoundTrip(WithId(id, Save(e)));
  }

  /** A new field's data: a required-less text field with an empty label and nothing else. */
  lemma NewFieldData()
    ensures Save(Load(None)) == FieldDraft(Text, "", None, false, None, None, None)
  {
  }
}
