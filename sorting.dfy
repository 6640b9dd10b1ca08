/**
 * Ordering by a string key, ascending or descending: MongoDB's
 * `.sort(field, 1)` and `.sort(field, -1)` over string or ISO-8601 fields.
 * MongoDB leaves the order of equal keys unspecified; the sort here is one
 * stable choice, and the contracts below promise only what MongoDB promises.
 */
module Sorting {
  import opened Text

  /** Key a may come before key b in the requested direction. */
  predicate Before(a: string, b: string, descending: bool) {
    if descending then LexLe(b, a) else LexLe(a, b)
  }

  predicate SortedBy<T>(s: seq<T>, key: T -> string, descending: bool) {
    forall i, j :: 0 <= i < j < |s| ==> Before(key(s[i]), key(s[j]), descending)
  }

  lemma BeforeTotal(a: string, b: string, descending: bool)
    ensures Before(a, b, descending) || Before(b, a, descending)
  {
    LexLeTotal(a, b);
  }

  lemma BeforeTransitive(a: string, b: string, c: string, descending: bool)
    requires Before(a, b, descending) && Before(b, c, descending)
    ensures Before(a, c, descending)
  {
    if descending { LexLeTransitive(c, b, a); } else { LexLeTransitive(a, b, c); }
  }

  /** x may precede every element of a sorted list whose head it may precede. */
  lemma BeforeAll<T>(x: T, s: seq<T>, key: T -> string, descending: bool)
    requires SortedBy(s, key, descending) && s != [] && Before(key(x), key(s[0]), descending)
    ensures forall j :: 0 <= j < |s| ==> Before(key(x), key(s[j]), descending)
  {
    forall j | 0 < j < |s|
      ensures Before(key(x), key(s[j]), descending)
    {
      BeforeTransitive(key(x), key(s[0]), key(s[j]), descending);
    }
  }

  /** The head of a sorted list precedes whatever is made of x and the tail, when it precedes x. */
  lemma HeadBeforeRest<T>(h: T, x: T, tail: seq<T>, rest: seq<T>, key: T -> string, descending: bool)
    requires SortedBy([h] + tail, key, descending) && Before(key(h), key(x), descending)
    requires multiset(rest) == multiset(tail) + multiset{x}
    ensures forall j :: 0 <= j < |rest| ==> Before(key(h), key(rest[j]), descending)
  {
    var s := [h] + tail;
    forall j | 0 <= j < |rest|
      ensures Before(key(h), key(rest[j]), descending)
    {
      assert rest[j] in multiset(rest);
      if rest[j] != x {
        assert rest[j] in multiset(tail);
        var m :| 0 <= m < |tail| && tail[m] == rest[j];
        assert s[m + 1] == rest[j] && s[0] == h;
      }
    }
  }

  /** Puts x into a sorted list at the first place where it fits. */
  function Insert<T(==)>(x: T, s: seq<T>, key: T -> string, descending: bool): (r: seq<T>)
    requires SortedBy(s, key, descending)
    ensures SortedBy(r, key, descending)
    ensures multiset(r) == multiset(s) + multiset{x}
    ensures |r| == |s| + 1
    decreases |s|
  {
    if s == [] then [x]
    else if Before(key(x), key(s[0]), descending) then
      BeforeAll(x, s, key, descending);
      [x] + s
    else
      BeforeTotal(key(x), key(s[0]), descending);
      assert s == [s[0]] + s[1..];
      var rest := Insert(x, s[1..], key, descending);
      HeadBeforeRest(s[0], x, s[1..], rest, key, descending);
      [s[0]] + rest
  }

  /** The list sorted by `key`: an ordered permutation of the input. */
  function SortBy<T(==)>(s: seq<T>, key: T -> string, descending: bool): (r: seq<T>)
    ensures SortedBy(r, key, descending)
    ensures multiset(r) == multiset(s)
    ensures |r| == |s|
  {
    if s == [] then []
    else
      MultisetCons(s);
      Insert(s[0], SortBy(s[1..], key, descending), key, descending)
  }

  lemma MultisetCons<T>(s: seq<T>)
    requires s != []
    ensures multiset(s) == multiset{s[0]} + multiset(s[1..])
  {
    assert s == [s[0]] + s[1..];
  }

  /** Taking a prefix of a sorted list keeps it sorted: a `limit` after a `sort`. */
  lemma TakeSorted<T>(s: seq<T>, n: nat, key: T -> string, descending: bool)
    requires SortedBy(s, key, descending) && n <= |s|
    ensures SortedBy(s[..n], key, descending)
  {
  }

  /**
   * `r` holds the first elements of `s` in the order: each comes from `s`,
   * and an element of `s` that `r` leaves out comes no earlier than any
   * element `r` keeps.
   */
  predicate FirstInOrder<T(==)>(r: seq<T>, s: seq<T>, key: T -> string, descending: bool) {
    multiset(r) <= multiset(s)
    && forall x, k :: x in s && x !in r && 0 <= k < |r| ==> Before(key(r[k]), key(x), descending)
  }

  /** `sort(...)` then `limit(n)` keeps the first n elements in the order. */
  lemma TakeSortByFirst<T>(s: seq<T>, n: nat, key: T -> string, descending: bool)
    ensures FirstInOrder(Take(SortBy(s, key, descending), n), s, key, descending)
  {
    var t := SortBy(s, key, descending);
    var r := Take(t, n);
    assert t == r + t[|r|..];
    forall x, k | x in s && x !in r && 0 <= k < |r|
      ensures Before(key(r[k]), key(x), descending)
    {
      assert x in multiset(t);
      var j :| 0 <= j < |t| && t[j] == x;
      assert r[k] == t[k];
      assert k < j;
    }
  }

  /** The first `n` elements, or all of them: MongoDB's `limit(n)` and `to_list(length = n)`, Python's `s[:n]`. */
  function Take<T>(s: seq<T>, n: nat): (r: seq<T>)
    ensures |r| == if |s| < n then |s| else n
    ensures r == s[..|r|]
  {
    if |s| <= n then s else s[..n]
  }
}
