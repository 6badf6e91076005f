/**
 * The queryset operations the views chain together: `filter`, `order_by`
 * with up to two keys and `first`. A database leaves the order of rows with
 * equal keys open; here they keep the order they had before sorting.
 */
module Query {
  import opened Wrappers

  /** A two-part sort key, compared lexicographically (`order_by(a, b)`). */
  datatype Key = Key(major: int, minor: int)

  predicate KeyLe(a: Key, b: Key) {
    a.major < b.major || (a.major == b.major && a.minor <= b.minor)
  }

  /** `filter`: the rows satisfying `p`, in their original order. */
  function Filter<T(!new)>(s: seq<T>, p: T -> bool): (r: seq<T>)
    ensures |r| <= |s|
    ensures forall i :: 0 <= i < |r| ==> p(r[i])
    ensures forall x :: x in r <==> x in s && p(x)
    ensures multiset(r) <= multiset(s)
  {
    if s == [] then []
    else
      var rest := Filter(s[1..], p);
      assert s == [s[0]] + s[1..];
      if p(s[0]) then [s[0]] + rest else rest
  }

  /** Filtering twice is filtering once by both conditions. */
  lemma {:induction false} FilterFilter<T(!new)>(s: seq<T>, p: T -> bool, q: T -> bool, both: T -> bool)
    requires forall x :: both(x) == (p(x) && q(x))
    ensures Filter(Filter(s, p), q) == Filter(s, both)
  {
    if s != [] {
      FilterFilter(s[1..], p, q, both);
    }
  }

  /** Filters by conditions that agree everywhere give the same rows. */
  lemma {:induction false} FilterExtensional<T(!new)>(s: seq<T>, p: T -> bool, q: T -> bool)
    requires forall x :: p(x) == q(x)
    ensures Filter(s, p) == Filter(s, q)
  {
    if s != [] { FilterExtensional(s[1..], p, q); }
  }

  predicate SortedBy<T>(s: seq<T>, key: T -> Key) {
    forall i, j :: 0 <= i < j < |s| ==> KeyLe(key(s[i]), key(s[j]))
  }

  /** Puts `x` in front of the first element whose key is not below its own. */
  function Insert<T>(x: T, s: seq<T>, key: T -> Key): (r: seq<T>)
    requires SortedBy(s, key)
    ensures SortedBy(r, key)
    ensures multiset(r) == multiset(s) + multiset{x}
    ensures |r| == |s| + 1
  {
    if s == [] || KeyLe(key(x), key(s[0])) then
      [x] + s
    else
      var rest := Insert(x, s[1..], key);
      assert multiset(s) == multiset{s[0]} + multiset(s[1..]) by { assert s == [s[0]] + s[1..]; }
      BoundKept(rest, s[1..], x, key, key(s[0]));
      [s[0]] + rest
  }

  /** A lower bound of `s` and of `x` bounds every element of a permutation of `s` plus `x`. */
  lemma BoundKept<T>(r: seq<T>, s: seq<T>, x: T, key: T -> Key, b: Key)
    requires multiset(r) == multiset(s) + multiset{x}
    requires KeyLe(b, key(x))
    requires forall k :: 0 <= k < |s| ==> KeyLe(b, key(s[k]))
    ensures forall k :: 0 <= k < |r| ==> KeyLe(b, key(r[k]))
  {
    forall k | 0 <= k < |r| ensures KeyLe(b, key(r[k])) {
      assert r[k] in multiset(r);
      if r[k] != x {
        assert r[k] in multiset(s);
        var m :| 0 <= m < |s| && s[m] == r[k];
      }
    }
  }

  /** `order_by` on `key`: a sorted permutation of `s`. */
  function SortBy<T>(s: seq<T>, key: T -> Key): (r: seq<T>)
    ensures SortedBy(r, key)
    ensures multiset(r) == multiset(s)
    ensures |r| == |s|
  {
    if s == [] then []
    else
      assert s == [s[0]] + s[1..];
      Insert(s[0], SortBy(s[1..], key), key)
  }

  /** Sorting keeps exactly the same rows. */
  lemma SortByMembers<T>(s: seq<T>, key: T -> Key)
    ensures forall x :: x in SortBy(s, key) <==> x in s
  {
    var r := SortBy(s, key);
    forall x ensures x in r <==> x in s {
      assert x in r <==> x in multiset(r);
      assert x in s <==> x in multiset(s);
    }
  }

  /** `first()` of an ordered queryset: a row with the least key, or `None` when there is none. */
  function First<T(!new)>(s: seq<T>, key: T -> Key): (r: Option<T>)
    ensures r.None? <==> s == []
    ensures r.Some? ==> r.value in s
    ensures r.Some? ==> forall y :: y in s ==> KeyLe(key(r.value), key(y))
  {
    var sorted := SortBy(s, key);
    if sorted == [] then None
    else
      assert sorted[0] in multiset(sorted);
      assert forall y :: y in s ==> KeyLe(key(sorted[0]), key(y)) by {
        forall y | y in s ensures KeyLe(key(sorted[0]), key(y)) {
          assert y in multiset(sorted);
          var k :| 0 <= k < |sorted| && sorted[k] == y;
        }
      }
      Some(sorted[0])
  }
}
