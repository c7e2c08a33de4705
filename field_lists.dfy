/** The list operations that the store's field actions apply to the current form's fields
    (app/utils/store.ts): the `map` of updateField, the `filter` of deleteField and the
    lookup-and-filter of reorderFields. Appending (addField) is `fields + [field]`. */
module FieldLists {
  import opened Options
  import opened FormModel
  import opened Seqs

  /** The ids of a field list, in order. */
  function Ids(fields: seq<FormField>): seq<string> {
    seq(|fields|, i requires 0 <= i < |fields| => fields[i].id)
  }

  /** No two fields share an id. */
  predicate DistinctIds(fields: seq<FormField>) {
    forall i, j :: 0 <= i < j < |fields| ==> fields[i].id != fields[j].id
  }

  /** `fields.map(field => field.id === fieldId ? { ...field, ...updates } : field)`:
      same length and order, the patch merged into exactly the fields with that id. */
  function PatchWhere(fields: seq<FormField>, fieldId: string, p: FieldPatch): (r: seq<FormField>)
    ensures |r| == |fields|
    ensures forall i :: 0 <= i < |fields| && fields[i].id == fieldId ==> r[i] == ApplyFieldPatch(fields[i], p)
    ensures forall i :: 0 <= i < |fields| && fields[i].id != fieldId ==> r[i] == fields[i]
  {
    if fields == [] then []
    else
      var head := if fields[0].id == fieldId then ApplyFieldPatch(fields[0], p) else fields[0];
      [head] + PatchWhere(fields[1..], fieldId, p)
  }

  /** Patching never changes an id, so a list with distinct ids keeps them. */
  lemma PatchWhereKeepsIds(fields: seq<FormField>, fieldId: string, p: FieldPatch)
    ensures Ids(PatchWhere(fields, fieldId, p)) == Ids(fields)
  {
  }

  /** An id that no field carries leaves the list as it was. */
  lemma PatchWhereUnknownId(fields: seq<FormField>, fieldId: string, p: FieldPatch)
    requires !HasId(fields, fieldId)
    ensures PatchWhere(fields, fieldId, p) == fields
  {
  }

  /** The callback `field => field.id !== fieldId`. */
  function NotWithId(fieldId: string): FormField -> bool {
    (f: FormField) => f.id != fieldId
  }

  /** `fields.filter(field => field.id !== fieldId)`. */
  function RemoveWhere(fields: seq<FormField>, fieldId: string): (r: seq<FormField>)
    ensures forall i :: 0 <= i < |r| ==> r[i].id != fieldId && r[i] in fields
    ensures forall i :: 0 <= i < |fields| && fields[i].id != fieldId ==> fields[i] in r
  {
    Filter(fields, NotWithId(fieldId))
  }

  /** Removal keeps the surviving fields in their order, drops every field with the id and keeps
      every other one as often as it occurred. */
  lemma RemoveWhereExactly(a: seq<FormField>, b: seq<FormField>, fieldId: string, f: FormField)
    ensures RemoveWhere(a + b, fieldId) == RemoveWhere(a, fieldId) + RemoveWhere(b, fieldId)
    ensures multiset(RemoveWhere(a, fieldId))[f] == if f.id == fieldId then 0 else multiset(a)[f]
  {
    FilterConcat(a, b, NotWithId(fieldId));
    FilterCount(a, NotWithId(fieldId), f);
  }

  /** With distinct ids, deleting a present field shortens the list by one and deleting an
      absent one changes nothing. */
  lemma {:induction false} RemoveWhereLength(fields: seq<FormField>, fieldId: string)
    requires DistinctIds(fields)
    ensures HasId(fields, fieldId) ==> |RemoveWhere(fields, fieldId)| == |fields| - 1
    ensures !HasId(fields, fieldId) ==> RemoveWhere(fields, fieldId) == fields
  {
    if fields == [] {
    } else {
      var rest := fields[1..];
      assert DistinctIds(rest);
      RemoveWhereLength(rest, fieldId);
      assert fields == [fields[0]] + rest;
      FilterConcat([fields[0]], rest, NotWithId(fieldId));
      if fields[0].id == fieldId {
        assert !HasId(rest, fieldId);
      } else {
        assert HasId(fields, fieldId) ==> HasId(rest, fieldId);
      }
    }
  }

  /** Some field carries the id. */
  predicate HasId(fields: seq<FormField>, id: string) {
    exists i :: 0 <= i < |fields| && fields[i].id == id
  }

  lemma HasIdInIds(fields: seq<FormField>, id: string)
    ensures HasId(fields, id) <==> id in Ids(fields)
  {
    if id in Ids(fields) {
      var i :| 0 <= i < |fields| && Ids(fields)[i] == id;
    }
    if HasId(fields, id) {
      var i :| 0 <= i < |fields| && fields[i].id == id;
      assert Ids(fields)[i] == id;
    }
  }

  /** Removing fields keeps the remaining ids distinct. */
  lemma {:induction false} RemoveWhereKeepsDistinctIds(fields: seq<FormField>, fieldId: string)
    requires DistinctIds(fields)
    ensures DistinctIds(RemoveWhere(fields, fieldId))
  {
    if fields != [] {
      var rest := fields[1..];
      RemoveWhereKeepsDistinctIds(rest, fieldId);
      assert fields == [fields[0]] + rest;
      FilterConcat([fields[0]], rest, NotWithId(fieldId));
      var tail := RemoveWhere(rest, fieldId);
      forall i | 0 <= i < |tail| ensures tail[i].id != fields[0].id {
        assert tail[i] in rest;
      }
    }
  }

  /** `Object.fromEntries(fields.map(f => [f.id, f]))[id]`: a later entry with the same key
      overwrites an earlier one, so the lookup finds the LAST field with the id. */
  function LastWithId(fields: seq<FormField>, id: string): (r: Option<FormField>)
    ensures r.None? <==> !HasId(fields, id)
    ensures r.Some? ==> exists i :: 0 <= i < |fields| && fields[i] == r.value && fields[i].id == id &&
                          forall j :: i < j < |fields| ==> fields[j].id != id
  {
    if fields == [] then None
    else
      var n := |fields| - 1;
      if fields[n].id == id then Some(fields[n])
      else
        var r := LastWithId(fields[..n], id);
        assert HasId(fields, id) ==> HasId(fields[..n], id);
        r
  }

  /** `newOrder.map(id => fieldsMap[id]).filter(Boolean)`: for each listed id in turn, the field
      with that id; ids with no field are dropped, fields whose id is not listed are dropped. */
  function Reorder(fields: seq<FormField>, newOrder: seq<string>): (r: seq<FormField>)
    ensures |r| <= |newOrder|
    ensures forall i :: 0 <= i < |r| ==> r[i] in fields
  {
    if newOrder == [] then []
    else
      var found := LastWithId(fields, newOrder[0]);
      (if found.Some? then [found.value] else []) + Reorder(fields, newOrder[1..])
  }

  /** Reordering handles each listed id on its own: the result for a concatenated order is the
      concatenation of the results, so a repeated id repeats its field. */
  lemma {:induction false} ReorderConcat(fields: seq<FormField>, a: seq<string>, b: seq<string>)
    ensures Reorder(fields, a + b) == Reorder(fields, a) + Reorder(fields, b)
  {
    if a == [] {
      assert a + b == b;
    } else {
      assert (a + b)[1..] == a[1..] + b;
      ReorderConcat(fields, a[1..], b);
    }
  }

  /** Every field produced carries a listed id; when every listed id belongs to a field, the
      result has one field per listed id, with that id. */
  lemma {:induction false} ReorderFollowsOrder(fields: seq<FormField>, newOrder: seq<string>)
    ensures forall i :: 0 <= i < |Reorder(fields, newOrder)| ==> Reorder(fields, newOrder)[i].id in newOrder
    ensures (forall k :: 0 <= k < |newOrder| ==> HasId(fields, newOrder[k])) ==>
              |Reorder(fields, newOrder)| == |newOrder| &&
              forall k :: 0 <= k < |newOrder| ==> Reorder(fields, newOrder)[k].id == newOrder[k]
  {
    if newOrder != [] {
      ReorderFollowsOrder(fields, newOrder[1..]);
      var rest := Reorder(fields, newOrder[1..]);
      assert forall i :: 0 <= i < |rest| ==> rest[i].id in newOrder;
    }
  }

  /** When the new order is a permutation of the (distinct) current ids, reordering yields the
      same fields, unchanged, each exactly once, in the listed order. */
  lemma ReorderPermutes(fields: seq<FormField>, newOrder: seq<string>)
    requires DistinctIds(fields)
    requires multiset(newOrder) == multiset(Ids(fields))
    ensures Ids(Reorder(fields, newOrder)) == newOrder
    ensures multiset(Reorder(fields, newOrder)) == multiset(fields)
  {
    var r := Reorder(fields, newOrder);
    PermutedIdsArePresent(fields, newOrder);
    ReorderFollowsOrder(fields, newOrder);
    assert Ids(r) == newOrder;
    DistinctIdsDistinct(fields);
    IdsDistinct(fields);
    PermutationKeepsDistinct(newOrder, Ids(fields));
    DistinctIdsDistinct(r);
    DistinctSameElements(r, fields);
  }

  lemma PermutedIdsArePresent(fields: seq<FormField>, newOrder: seq<string>)
    requires multiset(newOrder) == multiset(Ids(fields))
    ensures |newOrder| == |fields|
    ensures forall k :: 0 <= k < |newOrder| ==> HasId(fields, newOrder[k])
  {
    assert |newOrder| == |Ids(fields)| by {
      assert |multiset(newOrder)| == |multiset(Ids(fields))|;
    }
    forall k | 0 <= k < |newOrder| ensures HasId(fields, newOrder[k]) {
      assert newOrder[k] in multiset(newOrder);
      HasIdInIds(fields, newOrder[k]);
    }
  }

  /** Reordering by the current id list is the identity when ids are distinct. */
  lemma ReorderByOwnIds(fields: seq<FormField>)
    requires DistinctIds(fields)
    ensures Reorder(fields, Ids(fields)) == fields
  {
    var order := Ids(fields);
    forall k | 0 <= k < |order| ensures HasId(fields, order[k]) {
      assert fields[k].id == order[k];
    }
    ReorderFollowsOrder(fields, order);
    var r := Reorder(fields, order);
    forall k | 0 <= k < |fields| ensures r[k] == fields[k] {
      assert r[k].id == fields[k].id && r[k] in fields;
    }
  }

  lemma IdsDistinct(fields: seq<FormField>)
    requires DistinctIds(fields)
    ensures Distinct(Ids(fields))
  {
  }

  lemma DistinctIdsDistinct(fields: seq<FormField>)
    requires DistinctIds(fields)
    ensures Distinct(fields)
  {
  }
}
