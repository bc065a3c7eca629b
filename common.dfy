/** Values shared by the account, listing and booking rules: optional request
    fields, database ids, JavaScript truthiness of string fields, and the
    filter that a `find({field: id})` query performs over a collection. */
module Common {

  /** A request or document field that may be absent (`undefined` or `null`). */
  datatype Option<+T> = None | Some(value: T)

  /** A database id (a mongoose ObjectId); the store hands them out from a counter. */
  type ObjectId = nat

  /** A `Date` field, as milliseconds since the epoch; no ordering is imposed on it. */
  type Date = int

  /** `!v` for a string field of a JSON request body: true for a missing field
      and for the empty string. */
  predicate Blank(v: Option<string>)
  {
    v.None? || v.value == ""
  }

  /** The elements of `s` that `keep` accepts, in their original order: what a
      query with an equality filter returns from a collection. */
  function Filter<T>(s: seq<T>, keep: T -> bool): (r: seq<T>)
    ensures |r| <= |s|
    ensures forall i :: 0 <= i < |r| ==> r[i] in s && keep(r[i])
    ensures forall i :: 0 <= i < |s| && keep(s[i]) ==> s[i] in r
  {
    if s == [] then []
    else
      var rest := Filter(s[1..], keep);
      if keep(s[0]) then [s[0]] + rest else rest
  }

  /** Filtering keeps every accepted element as many times as it occurs and
      drops every other element: the result is exactly the accepted part. */
  lemma {:induction false} FilterCount<T>(s: seq<T>, keep: T -> bool, x: T)
    ensures multiset(Filter(s, keep))[x] == if keep(x) then multiset(s)[x] else 0
  {
    if s != [] {
      FilterCount(s[1..], keep, x);
      assert s == [s[0]] + s[1..];
      assert multiset(s) == multiset([s[0]]) + multiset(s[1..]);
    }
  }

  /** Filtering a collection that grew at the end is filtering the old part and
      the new part separately. */
  lemma {:induction false} FilterAppend<T>(a: seq<T>, b: seq<T>, keep: T -> bool)
    ensures Filter(a + b, keep) == Filter(a, keep) + Filter(b, keep)
  {
    if a == [] {
      assert a + b == b;
    } else {
      var ab := a + b;
      assert ab[0] == a[0];
      assert ab[1..] == a[1..] + b;
      FilterAppend(a[1..], b, keep);
      var tail := Filter(a[1..], keep) + Filter(b, keep);
      assert Filter(ab, keep) == if keep(a[0]) then [a[0]] + tail else tail;
      assert Filter(a, keep) == if keep(a[0]) then [a[0]] + Filter(a[1..], keep) else Filter(a[1..], keep);
    }
  }
}
