/**
 * List combinators shared by the services and the screens: filtering, mapping,
 * summing, first-seen de-duplication and grouped counts (what a Python dict of
 * counters or a MongoDB `$group` with `$sum: 1` yields).
 */
module Lists {

  /** Python's list comprehension with an `if`, JavaScript's `Array.prototype.filter`. */
  function Filter<T>(s: seq<T>, p: T -> bool): (r: seq<T>)
    ensures |r| <= |s|
    ensures forall k :: 0 <= k < |r| ==> r[k] in s && p(r[k])
    decreases |s|
  {
    if s == [] then []
    else (if p(s[0]) then [s[0]] else []) + Filter(s[1..], p)
  }

  /** Every element that passes is kept. */
  lemma {:induction false} FilterKeeps<T>(s: seq<T>, p: T -> bool, i: nat)
    requires i < |s| && p(s[i])
    ensures s[i] in Filter(s, p)
    decreases |s|
  {
    if i > 0 {
      FilterKeeps(s[1..], p, i - 1);
    }
  }

  /** The first element kept is the first element that passes. */
  lemma {:induction false} FilterFirst<T>(s: seq<T>, p: T -> bool, i: nat)
    requires i < |s| && p(s[i])
    requires forall k :: 0 <= k < i ==> !p(s[k])
    ensures Filter(s, p) != [] && Filter(s, p)[0] == s[i]
    decreases |s|
  {
    if i > 0 {
      FilterFirst(s[1..], p, i - 1);
    }
  }

  /** Filtering distributes over concatenation: it keeps the order of what it keeps. */
  lemma {:induction false} FilterConcat<T>(a: seq<T>, b: seq<T>, p: T -> bool)
    ensures Filter(a + b, p) == Filter(a, p) + Filter(b, p)
    decreases |a|
  {
    if a != [] {
      assert (a + b)[0] == a[0];
      assert (a + b)[1..] == a[1..] + b;
      FilterConcat(a[1..], b, p);
    } else {
      assert a + b == b;
    }
  }

  /** Appending one element appends it to the filtered list iff it passes. */
  lemma FilterSnoc<T>(s: seq<T>, x: T, p: T -> bool)
    ensures Filter(s + [x], p) == Filter(s, p) + (if p(x) then [x] else [])
  {
    FilterConcat(s, [x], p);
    assert Filter([x], p) == (if p(x) then [x] else []) + Filter([], p);
  }

  /** A filter that every element passes keeps the list as it is. */
  lemma {:induction false} FilterKeepsAll<T>(s: seq<T>, p: T -> bool)
    requires forall k :: 0 <= k < |s| ==> p(s[k])
    ensures Filter(s, p) == s
    decreases |s|
  {
    if s != [] {
      FilterKeepsAll(s[1..], p);
    }
  }

  /** Nothing passes a filter that rejects every element. */
  lemma {:induction false} FilterKeepsAllOut<T>(s: seq<T>, p: T -> bool)
    requires forall k :: 0 <= k < |s| ==> !p(s[k])
    ensures Filter(s, p) == []
    decreases |s|
  {
    if s != [] {
      FilterKeepsAllOut(s[1..], p);
    }
  }

  /** Filtering twice keeps what passes both filters. */
  lemma {:induction false} FilterFilter<T>(s: seq<T>, p: T -> bool, q: T -> bool)
    ensures Filter(Filter(s, p), q) == Filter(s, x => p(x) && q(x))
    decreases |s|
  {
    if s != [] {
      FilterFilter(s[1..], p, q);
      var head := if p(s[0]) then [s[0]] else [];
      FilterConcat(head, Filter(s[1..], p), q);
      if p(s[0]) {
        assert Filter(head, q) == (if q(s[0]) then [s[0]] else []) + Filter([], q);
      }
    }
  }

  /** Two filters that agree on every element keep the same elements. */
  lemma {:induction false} FilterSame<T>(s: seq<T>, p: T -> bool, q: T -> bool)
    requires forall x :: p(x) == q(x)
    ensures Filter(s, p) == Filter(s, q)
    decreases |s|
  {
    if s != [] {
      FilterSame(s[1..], p, q);
    }
  }
  /** `a` is `s` with some elements left out, the rest in their order. */
  predicate Subseq<T(==)>(a: seq<T>, s: seq<T>)
    decreases |s|
  {
    a == [] || (s != [] && ((a[0] == s[0] && Subseq(a[1..], s[1..])) || Subseq(a, s[1..])))
  }

  /** A subsequence whose elements all pass `p` is a subsequence of the filter. */
  lemma {:induction false} SubseqOfFilter<T>(a: seq<T>, s: seq<T>, p: T -> bool)
    requires Subseq(a, s)
    requires forall k :: 0 <= k < |a| ==> p(a[k])
    ensures Subseq(a, Filter(s, p))
    decreases |s|
  {
    if a != [] {
      var f := Filter(s[1..], p);
      if a[0] == s[0] && Subseq(a[1..], s[1..]) {
        SubseqOfFilter(a[1..], s[1..], p);
        assert Filter(s, p) == [s[0]] + f;
        assert ([s[0]] + f)[1..] == f;
      } else {
        SubseqOfFilter(a, s[1..], p);
        assert Filter(s, p) == (if p(s[0]) then [s[0]] else []) + f;
        if p(s[0]) {
          assert ([s[0]] + f)[1..] == f;
        } else {
          assert [] + f == f;
        }
      }
    }
  }

  /** A subsequence never exceeds its host. */
  lemma {:induction false} SubseqLength<T>(a: seq<T>, s: seq<T>)
    requires Subseq(a, s)
    ensures |a| <= |s|
    decreases |s|
  {
    if a != [] {
      if a[0] == s[0] && Subseq(a[1..], s[1..]) {
        SubseqLength(a[1..], s[1..]);
      } else {
        SubseqLength(a, s[1..]);
      }
    }
  }

  /** A subsequence as long as its host is the host. */
  lemma {:induction false} SubseqSameLength<T>(a: seq<T>, s: seq<T>)
    requires Subseq(a, s) && |a| == |s|
    ensures a == s
    decreases |s|
  {
    if a != [] {
      if a[0] == s[0] && Subseq(a[1..], s[1..]) {
        SubseqSameLength(a[1..], s[1..]);
        assert a == [a[0]] + a[1..];
        assert s == [s[0]] + s[1..];
      } else {
        SubseqLength(a, s[1..]);
      }
    }
  }

  /** A subsequence of passing elements as long as the filter is the filter. */
  lemma SubseqFilterIsFilter<T>(a: seq<T>, s: seq<T>, p: T -> bool)
    requires Subseq(a, s)
    requires forall k :: 0 <= k < |a| ==> p(a[k])
    requires |a| == |Filter(s, p)|
    ensures a == Filter(s, p)
  {
    SubseqOfFilter(a, s, p);
    SubseqSameLength(a, Filter(s, p));
  }

  /** Filtering keeps the order of what it keeps. */
  lemma {:induction false} FilterSubseq<T>(s: seq<T>, p: T -> bool)
    ensures Subseq(Filter(s, p), s)
    decreases |s|
  {
    if s != [] {
      FilterSubseq(s[1..], p);
      if p(s[0]) {
        assert Filter(s, p) == [s[0]] + Filter(s[1..], p);
      } else {
        assert Filter(s, p) == Filter(s[1..], p);
      }
    }
  }

  /** JavaScript's `Array.prototype.map`. */
  function MapSeq<T, U>(s: seq<T>, f: T -> U): (r: seq<U>)
    ensures |r| == |s|
    ensures forall k :: 0 <= k < |s| ==> r[k] == f(s[k])
  {
    if s == [] then [] else [f(s[0])] + MapSeq(s[1..], f)
  }

  /** Mapping distributes over concatenation. */
  lemma MapSeqConcat<T, U>(a: seq<T>, b: seq<T>, f: T -> U)
    ensures MapSeq(a + b, f) == MapSeq(a, f) + MapSeq(b, f)
  {
    assert forall k :: 0 <= k < |a + b| ==> MapSeq(a + b, f)[k] == (MapSeq(a, f) + MapSeq(b, f))[k];
  }

  /** A list is its part before j, its element at j and its part after j. */
  lemma Splice<T>(b: seq<T>, j: nat)
    requires j < |b|
    ensures b[..j] + [b[j]] + b[j + 1..] == b
  {
  }

  /** Removing the element at j removes one occurrence of it. */
  lemma MultisetRemove<T>(b: seq<T>, j: nat)
    requires j < |b|
    ensures multiset(b[..j] + b[j + 1..]) == multiset(b) - multiset{b[j]}
  {
    assert b == b[..j] + [b[j]] + b[j + 1..];
  }

  /** The image of `front + [x] + back`, as a multiset, is the images of its three parts. */
  lemma MapSeqSplit<T, U>(front: seq<T>, x: T, back: seq<T>, f: T -> U)
    ensures multiset(MapSeq(front + [x] + back, f)) == multiset(MapSeq(front, f)) + multiset{f(x)} + multiset(MapSeq(back, f))
  {
    MapSeqConcat(front + [x], back, f);
    MapSeqConcat(front, [x], f);
    assert MapSeq([x], f) == [f(x)];
  }

  /** Mapping the list with the element at j removed leaves out one occurrence of its image. */
  lemma MapSeqRemove<T, U>(b: seq<T>, j: nat, f: T -> U)
    requires j < |b|
    ensures multiset(MapSeq(b, f)) == multiset(MapSeq(b[..j] + b[j + 1..], f)) + multiset{f(b[j])}
  {
    var front, back := b[..j], b[j + 1..];
    assert MapSeq(front + [b[j]] + back, f) == MapSeq(b, f) by {
      Splice(b, j);
    }
    MapSeqSplit(front, b[j], back, f);
    MapSeqJoin(front, back, f);
    UnionSwap(multiset(MapSeq(front, f)), multiset{f(b[j])}, multiset(MapSeq(back, f)));
  }

  /** Multiset union can take its last two operands in either order. */
  lemma UnionSwap<U>(p: multiset<U>, q: multiset<U>, r: multiset<U>)
    ensures p + q + r == p + r + q
  {
  }

  /** The image of a concatenation, as a multiset, is the images of its two parts. */
  lemma MapSeqJoin<T, U>(front: seq<T>, back: seq<T>, f: T -> U)
    ensures multiset(MapSeq(front + back, f)) == multiset(MapSeq(front, f)) + multiset(MapSeq(back, f))
  {
    MapSeqConcat(front, back, f);
  }

  /** Where the head of a list sits in a list with the same elements, and what remains of both. */
  lemma MultisetRemoveMatch<T>(a: seq<T>, b: seq<T>) returns (j: nat)
    requires a != [] && multiset(a) == multiset(b)
    ensures j < |b| && b[j] == a[0]
    ensures multiset(a[1..]) == multiset(b[..j] + b[j + 1..])
  {
    assert a[0] in multiset(b);
    j :| 0 <= j < |b| && b[j] == a[0];
    calc {
      multiset(a[1..]);
    == { assert a[..0] + a[1..] == a[1..]; MultisetRemove(a, 0); }
      multiset(a) - multiset{a[0]};
    == { MultisetRemove(b, j); }
      multiset(b[..j] + b[j + 1..]);
    }
  }

  /** The mapped lists agree once their first element and its match at j are set aside. */
  lemma MapSeqMultisetStep<T, U>(a: seq<T>, b: seq<T>, j: nat, f: T -> U)
    requires a != [] && j < |b| && b[j] == a[0]
    requires multiset(MapSeq(a[1..], f)) == multiset(MapSeq(b[..j] + b[j + 1..], f))
    ensures multiset(MapSeq(a, f)) == multiset(MapSeq(b, f))
  {
    assert a[..0] + a[1..] == a[1..];
    MapSeqRemove(a, 0, f);
    MapSeqRemove(b, j, f);
  }

  /** Lists with the same elements map to lists with the same elements. */
  lemma {:induction false} MapSeqMultiset<T, U>(a: seq<T>, b: seq<T>, f: T -> U)
    requires multiset(a) == multiset(b)
    ensures multiset(MapSeq(a, f)) == multiset(MapSeq(b, f))
    decreases |a|
  {
    if a == [] {
      assert |multiset(b)| == 0;
    } else {
      var j := MultisetRemoveMatch(a, b);
      MapSeqMultiset(a[1..], b[..j] + b[j + 1..], f);
      MapSeqMultisetStep(a, b, j, f);
    }
  }

  /** The sum of `f` over the list, added left to right (Python's `sum`, JavaScript's `reduce`). */
  function SumOf<T>(s: seq<T>, f: T -> int): int {
    if s == [] then 0 else SumOf(s[..|s| - 1], f) + f(s[|s| - 1])
  }

  lemma {:induction false} SumOfConcat<T>(a: seq<T>, b: seq<T>, f: T -> int)
    ensures SumOf(a + b, f) == SumOf(a, f) + SumOf(b, f)
    decreases |b|
  {
    if b == [] {
      assert a + b == a;
    } else {
      assert (a + b)[..|a + b| - 1] == a + b[..|b| - 1];
      SumOfConcat(a, b[..|b| - 1], f);
    }
  }

  /** Replacing one element changes the sum by the difference of the two terms. */
  lemma {:induction false} SumOfUpdate<T>(s: seq<T>, i: nat, x: T, f: T -> int)
    requires i < |s|
    ensures SumOf(s[i := x], f) == SumOf(s, f) - f(s[i]) + f(x)
  {
    var n := |s| - 1;
    if i < n {
      assert s[i := x][..n] == s[..n][i := x];
      SumOfUpdate(s[..n], i, x, f);
    } else {
      assert s[i := x][..n] == s[..n];
    }
  }

  /** A sum of non-negative terms is non-negative. */
  lemma {:induction false} SumOfNonNegative<T>(s: seq<T>, f: T -> int)
    requires forall k :: 0 <= k < |s| ==> f(s[k]) >= 0
    ensures SumOf(s, f) >= 0
  {
    if s != [] {
      SumOfNonNegative(s[..|s| - 1], f);
    }
  }

  /** How many elements of `s` have key `k`. */
  function Occurrences<T, K(==)>(s: seq<T>, key: T -> K, k: K): nat {
    if s == [] then 0
    else Occurrences(s[..|s| - 1], key, k) + (if key(s[|s| - 1]) == k then 1 else 0)
  }

  /** A key that no element has occurs zero times. */
  lemma {:induction false} OccurrencesAbsent<T, K>(s: seq<T>, key: T -> K, k: K)
    requires forall i :: 0 <= i < |s| ==> key(s[i]) != k
    ensures Occurrences(s, key, k) == 0
  {
    if s != [] {
      OccurrencesAbsent(s[..|s| - 1], key, k);
    }
  }

  predicate NoDuplicates<T(==)>(s: seq<T>) {
    forall i, j :: 0 <= i < j < |s| ==> s[i] != s[j]
  }

  /** Filtering a list without repeats leaves none. */
  lemma {:induction false} FilterNoDuplicates<T>(s: seq<T>, p: T -> bool)
    requires NoDuplicates(s)
    ensures NoDuplicates(Filter(s, p))
    decreases |s|
  {
    if s != [] {
      FilterNoDuplicates(s[1..], p);
      assert forall j :: 0 <= j < |s[1..]| ==> s[1..][j] == s[j + 1];
    }
  }

  /** The distinct elements in order of first occurrence (`[...new Set(s)]`). */
  function Distinct<T(==)>(s: seq<T>): (r: seq<T>)
    ensures NoDuplicates(r)
    ensures forall k :: 0 <= k < |r| ==> r[k] in s
  {
    if s == [] then []
    else
      var d := Distinct(s[..|s| - 1]);
      if s[|s| - 1] in d then d else d + [s[|s| - 1]]
  }

  /** Every element of `s` is kept by Distinct. */
  lemma {:induction false} DistinctCovers<T>(s: seq<T>, i: nat)
    requires i < |s|
    ensures s[i] in Distinct(s)
  {
    if i < |s| - 1 {
      DistinctCovers(s[..|s| - 1], i);
    }
  }

  /** Distinct keeps nothing that is not in `s`. */
  lemma {:induction false} DistinctWithin<T>(s: seq<T>, x: T)
    requires x in Distinct(s)
    ensures x in s
  {
    if s != [] && x != s[|s| - 1] {
      DistinctWithin(s[..|s| - 1], x);
      assert s == s[..|s| - 1] + [s[|s| - 1]];
    }
  }

  /** The position of the first occurrence of x. */
  function FirstIndex<T(==)>(s: seq<T>, x: T): (r: nat)
    requires x in s
    ensures r < |s| && s[r] == x && x !in s[..r]
  {
    if s[0] == x then 0
    else
      var r := FirstIndex(s[1..], x);
      assert s[..r + 1] == [s[0]] + s[1..][..r];
      r + 1
  }

  /** In a prefix that holds x, x is first found where it is first found in the whole list. */
  lemma FirstIndexPrefix<T>(s: seq<T>, n: nat, x: T)
    requires n <= |s| && x in s[..n]
    ensures x in s && FirstIndex(s, x) == FirstIndex(s[..n], x)
  {
    var i := FirstIndex(s[..n], x);
    var j := FirstIndex(s, x);
    assert s[..n][..i] == s[..i];
  }

  /** Distinct lists the elements in the order they are first seen. */
  lemma {:induction false} DistinctFirstSeen<T>(s: seq<T>, i: nat, j: nat)
    requires i < j < |Distinct(s)|
    ensures Distinct(s)[i] in s && Distinct(s)[j] in s
    ensures FirstIndex(s, Distinct(s)[i]) < FirstIndex(s, Distinct(s)[j])
    decreases |s|
  {
    var n := |s| - 1;
    var d := Distinct(s[..n]);
    DistinctWithin(s, Distinct(s)[i]);
    DistinctWithin(s, Distinct(s)[j]);
    if j < |d| {
      assert Distinct(s)[i] == d[i] && Distinct(s)[j] == d[j];
      DistinctFirstSeen(s[..n], i, j);
      DistinctWithin(s[..n], d[i]);
      DistinctWithin(s[..n], d[j]);
      FirstIndexPrefix(s, n, d[i]);
      FirstIndexPrefix(s, n, d[j]);
    } else {
      assert Distinct(s) == d + [s[n]] && s[n] !in d;
      assert Distinct(s)[j] == s[n] && Distinct(s)[i] == d[i];
      DistinctWithin(s[..n], d[i]);
      FirstIndexPrefix(s, n, d[i]);
      if s[n] in s[..n] {
        var k :| 0 <= k < n && s[..n][k] == s[n];
        DistinctCovers(s[..n], k);
      }
    }
  }

  // ---------------------------------------------------------------------------
  // Grouped counts
  // ---------------------------------------------------------------------------

  /** A list of (key, count) entries. */
  type Tally<K> = seq<(K, nat)>

  function Keys<K>(t: Tally<K>): seq<K> {
    seq(|t|, j requires 0 <= j < |t| => t[j].0)
  }

  function Count<K>(e: (K, nat)): int {
    e.1
  }

  /** The sum of all counts. */
  function Total<K>(t: Tally<K>): int {
    SumOf(t, Count)
  }

  /** No entry has key `k`. */
  predicate KeyAbsent<K(==)>(t: Tally<K>, k: K) {
    forall j :: 0 <= j < |t| ==> t[j].0 != k
  }

  /** The position of the entry of `k`, or -1. */
  function IndexOfKey<K(==)>(t: Tally<K>, k: K): (r: int)
    ensures -1 <= r < |t|
    ensures r >= 0 ==> t[r].0 == k
    ensures r < 0 ==> KeyAbsent(t, k)
  {
    if t == [] then -1
    else if t[|t| - 1].0 == k then |t| - 1
    else IndexOfKey(t[..|t| - 1], k)
  }

  /** Adds one to the entry of `k`, or appends (k, 1): `d[k] = d.get(k, 0) + 1`. */
  function Bump<K(==)>(t: Tally<K>, k: K): (r: Tally<K>)
    requires NoDuplicates(Keys(t))
    ensures Keys(r) == if k in Keys(t) then Keys(t) else Keys(t) + [k]
    ensures NoDuplicates(Keys(r))
    ensures Total(r) == Total(t) + 1
    ensures forall j :: 0 <= j < |t| ==> r[j].1 == t[j].1 + (if t[j].0 == k then 1 else 0)
    ensures |r| > |t| ==> r[|t|] == (k, 1)
  {
    var i := IndexOfKey(t, k);
    if i < 0 then
      BumpNew(t, k);
      t + [(k, 1)]
    else
      BumpExisting(t, k, i);
      t[i := (k, t[i].1 + 1)]
  }

  lemma BumpNew<K>(t: Tally<K>, k: K)
    requires NoDuplicates(Keys(t)) && KeyAbsent(t, k)
    ensures k !in Keys(t)
    ensures Keys(t + [(k, 1)]) == Keys(t) + [k]
    ensures NoDuplicates(Keys(t + [(k, 1)]))
    ensures Total(t + [(k, 1)]) == Total(t) + 1
  {
    assert (t + [(k, 1)])[..|t|] == t;
  }

  lemma BumpExisting<K>(t: Tally<K>, k: K, i: nat)
    requires NoDuplicates(Keys(t)) && i < |t| && t[i].0 == k
    ensures k in Keys(t)
    ensures Keys(t[i := (k, t[i].1 + 1)]) == Keys(t)
    ensures Total(t[i := (k, t[i].1 + 1)]) == Total(t) + 1
    ensures forall j :: 0 <= j < |t| && j != i ==> t[j].0 != k
  {
    assert Keys(t)[i] == k;
    SumOfUpdate(t, i, (k, t[i].1 + 1), Count);
    forall j | 0 <= j < |t| && j != i
      ensures t[j].0 != k
    {
      assert Keys(t)[j] != Keys(t)[i];
    }
  }

  /** The properties of a tally of `s`. */
  predicate TalliesOf<T, K(==)>(t: Tally<K>, s: seq<T>, key: T -> K) {
    && NoDuplicates(Keys(t))
    && Keys(t) == Distinct(MapSeq(s, key))
    && Total(t) == |s|
    && forall j :: 0 <= j < |t| ==> t[j].1 == Occurrences(s, key, t[j].0)
  }

  /** Counting one more element keeps a tally a tally. */
  lemma BumpTallies<T, K>(s: seq<T>, key: T -> K, t: Tally<K>)
    requires s != [] && TalliesOf(t, s[..|s| - 1], key)
    ensures TalliesOf(Bump(t, key(s[|s| - 1])), s, key)
  {
    var r := Bump(t, key(s[|s| - 1]));
    BumpKeys(s, key, t);
    forall j | 0 <= j < |r|
      ensures r[j].1 == Occurrences(s, key, r[j].0)
    {
      BumpCountAt(s, key, t, j);
    }
  }

  /** Counting one more element keeps the keys the first-seen keys of the list. */
  lemma BumpKeys<T, K>(s: seq<T>, key: T -> K, t: Tally<K>)
    requires s != [] && TalliesOf(t, s[..|s| - 1], key)
    ensures Keys(Bump(t, key(s[|s| - 1]))) == Distinct(MapSeq(s, key))
  {
    var m := MapSeq(s, key);
    var k := key(s[|s| - 1]);
    var d := Distinct(MapSeq(s[..|s| - 1], key));
    assert m[..|m| - 1] == MapSeq(s[..|s| - 1], key);
    assert m[|m| - 1] == k;
    assert Distinct(m) == if k in d then d else d + [k];
    assert Keys(t) == d;
  }

  lemma BumpCountAt<T, K>(s: seq<T>, key: T -> K, t: Tally<K>, j: nat)
    requires s != [] && TalliesOf(t, s[..|s| - 1], key)
    requires j < |Bump(t, key(s[|s| - 1]))|
    ensures Bump(t, key(s[|s| - 1]))[j].1 == Occurrences(s, key, Bump(t, key(s[|s| - 1]))[j].0)
  {
    var init := s[..|s| - 1];
    var k := key(s[|s| - 1]);
    var r := Bump(t, k);
    var x := r[j].0;
    assert x == Keys(r)[j];
    assert Occurrences(s, key, x) == Occurrences(init, key, x) + (if k == x then 1 else 0);
    if j >= |t| {
      assert k !in Keys(t);
      forall i | 0 <= i < |init|
        ensures key(init[i]) != k
      {
        DistinctCovers(MapSeq(init, key), i);
      }
      OccurrencesAbsent(init, key, k);
    }
  }

  /**
   * The count of every key of `s`, keys in first-seen order: the dictionary a
   * `for` loop of `counts[key] = counts.get(key, 0) + 1` leaves behind.
   */
  function TallyBy<T, K(==)>(s: seq<T>, key: T -> K): (r: Tally<K>)
    ensures NoDuplicates(Keys(r))
  {
    if s == [] then []
    else Bump(TallyBy(s[..|s| - 1], key), key(s[|s| - 1]))
  }

  /** The tally has the first-seen keys of `s`, each with its number of occurrences, and counts |s| in all. */
  lemma {:induction false} TallyByTallies<T, K>(s: seq<T>, key: T -> K)
    ensures TalliesOf(TallyBy(s, key), s, key)
  {
    if s != [] {
      TallyByTallies(s[..|s| - 1], key);
      BumpTallies(s, key, TallyBy(s[..|s| - 1], key));
    }
  }

  /** Every key of the tally is the key of some element, and every count is positive. */
  lemma {:induction false} TallyKeysOccur<T, K>(s: seq<T>, key: T -> K, j: nat)
    requires j < |TallyBy(s, key)|
    ensures TallyBy(s, key)[j].1 >= 1
    ensures exists i :: 0 <= i < |s| && key(s[i]) == TallyBy(s, key)[j].0
  {
    var t := TallyBy(s, key);
    var k := t[j].0;
    TallyByTallies(s, key);
    assert Keys(t)[j] == k;
    DistinctWithin(MapSeq(s, key), k);
    var i :| 0 <= i < |s| && MapSeq(s, key)[i] == k;
    OccursPositive(s, key, i);
  }

  lemma {:induction false} OccursPositive<T, K>(s: seq<T>, key: T -> K, i: nat)
    requires i < |s|
    ensures Occurrences(s, key, key(s[i])) >= 1
  {
    if i < |s| - 1 {
      OccursPositive(s[..|s| - 1], key, i);
    }
  }
}
