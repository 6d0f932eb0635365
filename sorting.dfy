/** Array.prototype.sort with a numeric comparator `(a, b) => key(a) - key(b)`.
    Since ES2019 that sort is stable, so its result is the one of a stable insertion
    sort: `SortBy` below is that result as a function, and `SortInPlace` computes it
    in place on an array. */
module Sorting {

  /** The keys never decrease along `s`. */
  predicate SortedBy<T>(s: seq<T>, key: T -> real)
  {
    forall i, j :: 0 <= i < j < |s| ==> key(s[i]) <= key(s[j])
  }

  /** Inserts `x` after every trailing element whose key is not greater than its own. */
  function Insert<T>(x: T, s: seq<T>, key: T -> real): (r: seq<T>)
    ensures |r| == |s| + 1
  {
    if s == [] || key(s[|s| - 1]) <= key(x) then s + [x]
    else Insert(x, s[..|s| - 1], key) + [s[|s| - 1]]
  }

  /** Stable sort by ascending key: sort all but the last element, then insert the last. */
  function SortBy<T>(s: seq<T>, key: T -> real): (r: seq<T>)
    ensures |r| == |s|
  {
    if s == [] then [] else Insert(s[|s| - 1], SortBy(s[..|s| - 1], key), key)
  }

  lemma {:induction false} InsertPermutes<T>(x: T, s: seq<T>, key: T -> real)
    ensures multiset(Insert(x, s, key)) == multiset(s) + multiset{x}
  {
    if !(s == [] || key(s[|s| - 1]) <= key(x)) {
      var n := |s| - 1;
      InsertPermutes(x, s[..n], key);
      assert s == s[..n] + [s[n]];
    }
  }

  lemma {:induction false} InsertSorted<T>(x: T, s: seq<T>, key: T -> real)
    requires SortedBy(s, key)
    ensures SortedBy(Insert(x, s, key), key)
  {
    if !(s == [] || key(s[|s| - 1]) <= key(x)) {
      var n := |s| - 1;
      var last := s[n];
      var r := Insert(x, s[..n], key);
      InsertSorted(x, s[..n], key);
      InsertPermutes(x, s[..n], key);
      forall i | 0 <= i < |r|
        ensures key(r[i]) <= key(last)
      {
        assert r[i] in multiset(r);
        assert r[i] in multiset(s[..n]) || r[i] == x;
        if r[i] != x {
          var k :| 0 <= k < n && s[..n][k] == r[i];
        }
      }
    }
  }

  /** The sort produces a reordering of its input ... */
  lemma {:induction false} SortByPermutes<T>(s: seq<T>, key: T -> real)
    ensures multiset(SortBy(s, key)) == multiset(s)
  {
    if s != [] {
      var n := |s| - 1;
      SortByPermutes(s[..n], key);
      InsertPermutes(s[n], SortBy(s[..n], key), key);
      assert s == s[..n] + [s[n]];
    }
  }

  /** ... whose keys are in ascending order. */
  lemma {:induction false} SortBySorted<T>(s: seq<T>, key: T -> real)
    ensures SortedBy(SortBy(s, key), key)
  {
    if s != [] {
      var n := |s| - 1;
      SortBySorted(s[..n], key);
      InsertSorted(s[n], SortBy(s[..n], key), key);
    }
  }

  /** Where `Insert` puts `x`: after the prefix s[..j] when everything from j on has a larger key. */
  lemma {:induction false} InsertAt<T>(x: T, s: seq<T>, j: nat, key: T -> real)
    requires j <= |s|
    requires j == 0 || key(s[j - 1]) <= key(x)
    requires forall k :: j <= k < |s| ==> key(s[k]) > key(x)
    ensures Insert(x, s, key) == s[..j] + [x] + s[j..]
    decreases |s|
  {
    if j == |s| {
      assert s[..j] == s && s[j..] == [];
    } else {
      var n := |s| - 1;
      InsertAt(x, s[..n], j, key);
      assert s[..n][..j] == s[..j];
      assert s[..n][j..] + [s[n]] == s[j..];
    }
  }

  /** One step of insertion sort: slides a[i] left past the larger keys of the sorted
      prefix a[..i], leaving the rest of the array alone. */
  method InsertInPlace<T>(a: array<T>, i: nat, key: T -> real)
    requires i < a.Length
    modifies a
    ensures a[..i + 1] == Insert(old(a[i]), old(a[..i]), key)
    ensures a[i + 1..] == old(a[i + 1..])
  {
    var x := a[i];
    ghost var sorted := a[..i];
    var j := i;
    while j > 0 && key(a[j - 1]) > key(x)
      invariant 0 <= j <= i
      invariant a[..i + 1] == sorted[..j] + [x] + sorted[j..]
      invariant a[i + 1..] == old(a[i + 1..])
      invariant forall k :: j <= k < i ==> key(sorted[k]) > key(x)
    {
      a[j], a[j - 1] := a[j - 1], x;
      j := j - 1;
      assert a[..i + 1] == sorted[..j] + [x] + sorted[j..] by {
        assert sorted[j..] == [sorted[j]] + sorted[j + 1..];
      }
    }
    InsertAt(x, sorted, j, key);
  }

  /** Insertion sort in place: on return the array holds SortBy of its old contents. */
  method SortInPlace<T>(a: array<T>, key: T -> real)
    modifies a
    ensures a[..] == SortBy(old(a[..]), key)
    ensures SortedBy(a[..], key) && multiset(a[..]) == multiset(old(a[..]))
  {
    ghost var original := a[..];
    var i := 0;
    while i < a.Length
      invariant 0 <= i <= a.Length
      invariant a[..i] == SortBy(original[..i], key)
      invariant a[i..] == original[i..]
    {
      InsertInPlace(a, i, key);
      assert original[..i + 1][..i] == original[..i];
      assert a[..i + 1] == SortBy(original[..i + 1], key);
      i := i + 1;
    }
    assert a[..] == a[..a.Length] && original == original[..a.Length];
    SortBySorted(original, key);
    SortByPermutes(original, key);
  }
}
