/**
 * The sequence operations behind the SQL the store runs: `WHERE` keeps the rows a
 * predicate accepts, in table order, and `ORDER BY` is a stable sort on an integer key.
 */
module Rows {

  /** The elements of `s` that `keep` accepts, in their order in `s`. */
  function Filter<T(!new)>(s: seq<T>, keep: T -> bool): (r: seq<T>)
    ensures |r| <= |s|
    ensures forall x :: x in r <==> x in s && keep(x)
    ensures forall i :: 0 <= i < |r| ==> keep(r[i])
  {
    if s == [] then []
    else if keep(s[0]) then [s[0]] + Filter(s[1..], keep)
    else Filter(s[1..], keep)
  }

  /** Filtering distributes over concatenation. */
  lemma {:induction false} FilterAppend<T(!new)>(s: seq<T>, t: seq<T>, keep: T -> bool)
    ensures Filter(s + t, keep) == Filter(s, keep) + Filter(t, keep)
  {
    if s == [] {
      assert s + t == t;
    } else {
      assert (s + t)[1..] == s[1..] + t;
      FilterAppend(s[1..], t, keep);
    }
  }

  /** Filtering by a predicate after one it implies is filtering by it alone. */
  lemma {:induction false} FilterNarrower<T(!new)>(s: seq<T>, wide: T -> bool, narrow: T -> bool)
    requires forall x :: narrow(x) ==> wide(x)
    ensures Filter(Filter(s, wide), narrow) == Filter(s, narrow)
  {
    if s != [] {
      FilterNarrower(s[1..], wide, narrow);
    }
  }

  /** A predicate that implies another keeps at most as many elements. */
  lemma {:induction false} FilterCountMonotone<T(!new)>(s: seq<T>, wide: T -> bool, narrow: T -> bool)
    requires forall x :: narrow(x) ==> wide(x)
    ensures |Filter(s, narrow)| <= |Filter(s, wide)|
  {
    if s != [] {
      FilterCountMonotone(s[1..], wide, narrow);
    }
  }

  /** A filter that accepts every element changes nothing. */
  lemma {:induction false} FilterAll<T(!new)>(s: seq<T>, keep: T -> bool)
    requires forall x :: x in s ==> keep(x)
    ensures Filter(s, keep) == s
  {
    if s != [] {
      assert forall x :: x in s[1..] ==> x in s;
      FilterAll(s[1..], keep);
    }
  }

  /** No two elements of `s` have the same key: the key is a primary key of `s`. */
  predicate DistinctBy<T>(s: seq<T>, key: T -> int) {
    forall i, j | 0 <= i < j < |s| :: key(s[i]) != key(s[j])
  }

  /** Filtering keeps keys distinct: it only drops elements. */
  lemma {:induction false} FilterDistinct<T(!new)>(s: seq<T>, keep: T -> bool, key: T -> int)
    requires DistinctBy(s, key)
    ensures DistinctBy(Filter(s, keep), key)
  {
    if s != [] {
      var tail := s[1..];
      assert DistinctBy(tail, key) by {
        forall i, j | 0 <= i < j < |tail| ensures key(tail[i]) != key(tail[j]) {
          assert tail[i] == s[i + 1] && tail[j] == s[j + 1];
        }
      }
      FilterDistinct(tail, keep, key);
      if keep(s[0]) {
        forall x | x in Filter(tail, keep) ensures key(x) != key(s[0]) {
          var k :| 0 <= k < |tail| && tail[k] == x;
          assert x == s[k + 1];
        }
        ConsDistinct(s[0], Filter(tail, keep), key);
      }
    }
  }

  /** An element whose key no element of a distinct sequence has can go in front of it. */
  lemma ConsDistinct<T>(h: T, s: seq<T>, key: T -> int)
    requires DistinctBy(s, key)
    requires forall x | x in s :: key(x) != key(h)
    ensures DistinctBy([h] + s, key)
  {
    var r := [h] + s;
    forall i, j | 0 <= i < j < |r| ensures key(r[i]) != key(r[j]) {
      assert r[j] == s[j - 1];
      if i > 0 {
        assert r[i] == s[i - 1];
      } else {
        assert s[j - 1] in s;
      }
    }
  }

  /** Two sequences with distinct keys and no key in common concatenate to one with distinct keys. */
  lemma AppendDistinct<T>(a: seq<T>, b: seq<T>, key: T -> int)
    requires DistinctBy(a, key) && DistinctBy(b, key)
    requires forall x, y | x in a && y in b :: key(x) != key(y)
    ensures DistinctBy(a + b, key)
  {
    var r := a + b;
    forall i, j | 0 <= i < j < |r| ensures key(r[i]) != key(r[j]) {
      if j < |a| {
        assert r[i] == a[i] && r[j] == a[j];
      } else if i >= |a| {
        assert r[i] == b[i - |a|] && r[j] == b[j - |a|];
      } else {
        assert r[i] == a[i] && r[j] == b[j - |a|];
        assert a[i] in a && b[j - |a|] in b;
      }
    }
  }

  /** The rows, each one mapped. */
  function MapRows<T, U>(s: seq<T>, f: T -> U): (r: seq<U>)
    ensures |r| == |s| && forall i :: 0 <= i < |s| ==> r[i] == f(s[i])
  {
    if s == [] then [] else [f(s[0])] + MapRows(s[1..], f)
  }

  /** Mapping distributes over concatenation. */
  lemma MapRowsAppend<T, U>(a: seq<T>, b: seq<T>, f: T -> U)
    ensures MapRows(a + b, f) == MapRows(a, f) + MapRows(b, f)
  {
  }

  /** Taking one row out of a sequence takes one occurrence out of its multiset. */
  lemma RemoveOne<T>(s: seq<T>, k: nat)
    requires k < |s|
    ensures multiset(s) == multiset{s[k]} + multiset(s[..k] + s[k + 1..])
  {
    assert s == s[..k] + [s[k]] + s[k + 1..];
  }

  /** Taking one row out before mapping takes its image out of the mapped multiset. */
  lemma MapRowsRemove<T, U>(s: seq<T>, k: nat, f: T -> U)
    requires k < |s|
    ensures multiset(MapRows(s, f)) == multiset{f(s[k])} + multiset(MapRows(s[..k] + s[k + 1..], f))
  {
    var ms := MapRows(s, f);
    RemoveOne(ms, k);
    MapRowsAppend(s[..k], s[k + 1..], f);
    assert ms[..k] == MapRows(s[..k], f);
    assert ms[k + 1..] == MapRows(s[k + 1..], f);
  }

  lemma MultisetCancel<T>(x: T, a: multiset<T>, b: multiset<T>)
    requires multiset{x} + a == multiset{x} + b
    ensures a == b
  {
    forall z ensures a[z] == b[z] {
      assert (multiset{x} + a)[z] == (multiset{x} + b)[z];
    }
  }

  /** Two rearrangements of the same rows stay so once the first row, and one copy of it, go. */
  lemma PermutationTail<T>(s: seq<T>, s': seq<T>, k: nat)
    requires multiset(s) == multiset(s') && s != [] && k < |s'| && s'[k] == s[0]
    ensures multiset(s[1..]) == multiset(s'[..k] + s'[k + 1..])
  {
    RemoveOne(s, 0);
    RemoveOne(s', k);
    assert s[..0] + s[1..] == s[1..];
    MultisetCancel(s[0], multiset(s[1..]), multiset(s'[..k] + s'[k + 1..]));
  }

  /** Mapping two rearrangements of the same rows gives two rearrangements of the same results. */
  lemma {:induction false} MapPermutation<T, U>(s: seq<T>, s': seq<T>, f: T -> U)
    requires multiset(s) == multiset(s')
    ensures multiset(MapRows(s, f)) == multiset(MapRows(s', f))
    decreases |s|
  {
    if s == [] {
      assert |s'| == |multiset(s')|;
      assert MapRows(s, f) == [] == MapRows(s', f);
    } else {
      assert s[0] in multiset(s');
      var k :| 0 <= k < |s'| && s'[k] == s[0];
      var rest := s'[..k] + s'[k + 1..];
      PermutationTail(s, s', k);
      MapPermutation(s[1..], rest, f);
      MapRowsRemove(s, 0, f);
      assert s[..0] + s[1..] == s[1..];
      MapRowsRemove(s', k, f);
    }
  }

  predicate SortedBy<T>(s: seq<T>, key: T -> int) {
    forall i, j :: 0 <= i < j < |s| ==> key(s[i]) <= key(s[j])
  }

  /** Places `x` before the first element whose key is not smaller than its own. */
  function InsertBy<T>(x: T, s: seq<T>, key: T -> int): (r: seq<T>)
    requires SortedBy(s, key)
    ensures SortedBy(r, key)
    ensures multiset(r) == multiset(s) + multiset{x}
    ensures |r| == |s| + 1
    ensures r[0] == x || (s != [] && r[0] == s[0])
  {
    if s == [] || key(x) <= key(s[0]) then
      ConsSorted(x, s, key);
      [x] + s
    else
      var rest := InsertBy(x, s[1..], key);
      assert s == [s[0]] + s[1..];
      assert multiset(s) == multiset{s[0]} + multiset(s[1..]);
      assert multiset([s[0]] + rest) == multiset{s[0]} + multiset(rest);
      ConsSorted(s[0], rest, key);
      [s[0]] + rest
  }

  /** A sorted sequence stays sorted behind an element whose key is at most that of its head. */
  lemma ConsSorted<T>(h: T, s: seq<T>, key: T -> int)
    requires SortedBy(s, key)
    requires s != [] ==> key(h) <= key(s[0])
    ensures SortedBy([h] + s, key)
  {
    var r := [h] + s;
    forall i, j | 0 <= i < j < |r| ensures key(r[i]) <= key(r[j]) {
      if i > 0 {
        assert r[i] == s[i - 1] && r[j] == s[j - 1];
      } else {
        assert r[j] == s[j - 1];
        assert key(s[0]) <= key(s[j - 1]);
      }
    }
  }

  /** The elements of `s` in ascending key order; equal keys keep their order in `s`. */
  function SortBy<T>(s: seq<T>, key: T -> int): (r: seq<T>)
    ensures SortedBy(r, key)
    ensures multiset(r) == multiset(s)
    ensures |r| == |s|
  {
    if s == [] then []
    else
      assert s == [s[0]] + s[1..];
      InsertBy(s[0], SortBy(s[1..], key), key)
  }
}
