/** Sequence facts shared by the field-list, editor and storage models. */
module Seqs {

  /** `Array.prototype.filter` with a callback that returns a boolean: keeps, in order,
      the elements on which `keep` holds. */
  function Filter<T>(s: seq<T>, keep: T -> bool): (r: seq<T>)
    ensures |r| <= |s|
    ensures forall i :: 0 <= i < |r| ==> r[i] in s && keep(r[i])
    ensures forall i :: 0 <= i < |s| && keep(s[i]) ==> s[i] in r
  {
    if s == [] then []
    else
      var rest := Filter(s[1..], keep);
      assert forall i :: 0 <= i < |s[1..]| && keep(s[1..][i]) ==> s[1..][i] in rest;
      (if keep(s[0]) then [s[0]] else []) + rest
  }

  /** When every element passes, filtering changes nothing. */
  lemma {:induction false} FilterAll<T>(s: seq<T>, keep: T -> bool)
    requires forall i :: 0 <= i < |s| ==> keep(s[i])
    ensures Filter(s, keep) == s
  {
    if s != [] {
      FilterAll(s[1..], keep);
    }
  }

  /** Filtering distributes over concatenation: what is kept stays in its original order. */
  lemma {:induction false} FilterConcat<T>(a: seq<T>, b: seq<T>, keep: T -> bool)
    ensures Filter(a + b, keep) == Filter(a, keep) + Filter(b, keep)
  {
    if a == [] {
      assert a + b == b;
    } else {
      assert (a + b)[1..] == a[1..] + b;
      FilterConcat(a[1..], b, keep);
    }
  }

  /** Each element that passes the test is kept with its full multiplicity, each that fails is dropped. */
  lemma {:induction false} FilterCount<T>(s: seq<T>, keep: T -> bool, x: T)
    ensures multiset(Filter(s, keep))[x] == if keep(x) then multiset(s)[x] else 0
  {
    if s != [] {
      FilterCount(s[1..], keep, x);
      assert s == [s[0]] + s[1..];
    }
  }

  /** No element occurs twice. */
  predicate Distinct<T(==)>(s: seq<T>) {
    forall i, j :: 0 <= i < j < |s| ==> s[i] != s[j]
  }

  /** Two duplicate-free sequences of equal length, one drawn from the other, are permutations
      of each other. */
  lemma {:induction false} DistinctSameElements<T>(s: seq<T>, t: seq<T>)
    requires Distinct(s) && Distinct(t) && |s| == |t|
    requires forall k :: 0 <= k < |s| ==> s[k] in t
    ensures multiset(s) == multiset(t)
  {
    if s != [] {
      var i :| 0 <= i < |t| && t[i] == s[0];
      var t' := t[..i] + t[i + 1..];
      TailDrawnFromRest(s, t, i);
      DistinctAfterRemoval(t, i);
      DistinctTail(s);
      DistinctSameElements(s[1..], t');
      MultisetAfterRemoval(t, i);
      MultisetAfterRemoval(s, 0);
    }
  }

  lemma TailDrawnFromRest<T>(s: seq<T>, t: seq<T>, i: nat)
    requires Distinct(s) && |s| > 0 && i < |t| && t[i] == s[0]
    requires forall k :: 0 <= k < |s| ==> s[k] in t
    ensures forall k :: 0 <= k < |s[1..]| ==> s[1..][k] in t[..i] + t[i + 1..]
  {
    forall k | 0 <= k < |s[1..]| ensures s[1..][k] in t[..i] + t[i + 1..] {
      assert s[1..][k] == s[k + 1] != s[0];
      RemainsAfterRemoval(t, i, s[k + 1]);
    }
  }

  lemma DistinctTail<T>(s: seq<T>)
    requires |s| > 0 && Distinct(s)
    ensures Distinct(s[1..])
  {
    forall a, b | 0 <= a < b < |s| - 1 ensures s[1..][a] != s[1..][b] {
      assert s[1..][a] == s[a + 1] && s[1..][b] == s[b + 1];
    }
  }

  lemma MultisetAfterRemoval<T>(t: seq<T>, i: nat)
    requires i < |t|
    ensures multiset(t) == multiset(t[..i] + t[i + 1..]) + multiset{t[i]}
  {
    assert t == t[..i] + [t[i]] + t[i + 1..];
  }

  lemma RemainsAfterRemoval<T>(t: seq<T>, i: nat, y: T)
    requires i < |t| && y in t && y != t[i]
    ensures y in t[..i] + t[i + 1..]
  {
    var m :| 0 <= m < |t| && t[m] == y;
    if m < i {
      assert (t[..i] + t[i + 1..])[m] == y;
    } else {
      assert (t[..i] + t[i + 1..])[m - 1] == y;
    }
  }

  lemma DistinctAfterRemoval<T>(t: seq<T>, i: nat)
    requires i < |t| && Distinct(t)
    ensures Distinct(t[..i] + t[i + 1..])
  {
    var t' := t[..i] + t[i + 1..];
    forall a, b | 0 <= a < b < |t'| ensures t'[a] != t'[b] {
      var a' := if a < i then a else a + 1;
      var b' := if b < i then b else b + 1;
      assert t'[a] == t[a'] && t'[b] == t[b'];
    }
  }

  /** A duplicate-free sequence holds each value at most once. */
  lemma {:induction false} DistinctCountsAtMostOne<T>(s: seq<T>, x: T)
    requires Distinct(s)
    ensures multiset(s)[x] <= 1
  {
    if s != [] {
      DistinctTail(s);
      DistinctCountsAtMostOne(s[1..], x);
      assert s == [s[0]] + s[1..];
      if s[0] == x {
        assert x !in s[1..];
      }
    }
  }

  /** A permutation of a duplicate-free sequence is duplicate-free. */
  lemma PermutationKeepsDistinct<T>(s: seq<T>, t: seq<T>)
    requires Distinct(t) && multiset(s) == multiset(t)
    ensures Distinct(s)
  {
    forall a, b | 0 <= a < b < |s| ensures s[a] != s[b] {
      if s[a] == s[b] {
        assert s == s[..a] + [s[a]] + s[a + 1..b] + [s[b]] + s[b + 1..];
        assert multiset(s)[s[a]] >= 2;
        DistinctCountsAtMostOne(t, s[a]);
      }
    }
  }
}
