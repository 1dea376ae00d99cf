/** `np.argsort` on a vector of reals: the indices of the vector in ascending order of their keys.
    numpy's default sort does not promise any order among equal keys; the model picks one, the
    stable order (ties in index order), built by insertion. */
module Sorting {

  /** No index occurs twice. */
  predicate Distinct(s: seq<nat>) {
    forall a, b :: 0 <= a < b < |s| ==> s[a] != s[b]
  }

  /** Every index is below `n`. */
  predicate InRange(s: seq<nat>, n: nat) {
    forall k :: 0 <= k < |s| ==> s[k] < n
  }

  /** `s` lists each of `0 .. n-1` exactly once. */
  predicate IsPermutation(s: seq<nat>, n: nat) {
    |s| == n && InRange(s, n) && Distinct(s)
  }

  /** The keys read along `s` never decrease. */
  predicate SortedBy(keys: seq<real>, s: seq<nat>)
    requires InRange(s, |keys|)
  {
    forall a, b :: 0 <= a < b < |s| ==> keys[s[a]] <= keys[s[b]]
  }

  /** Indices with equal keys keep their ascending order. */
  predicate StableBy(keys: seq<real>, s: seq<nat>)
    requires InRange(s, |keys|)
  {
    forall a, b :: 0 <= a < b < |s| && keys[s[a]] == keys[s[b]] ==> s[a] < s[b]
  }

  /** One step of the insertion sort: `i` goes in front of the first index whose key is strictly
      greater, that is behind every index with an equal key. */
  function Insert(keys: seq<real>, order: seq<nat>, i: nat): (r: seq<nat>)
    requires i < |keys| && InRange(order, |keys|)
    ensures |r| == |order| + 1
    ensures forall x :: x in r <==> x in order || x == i
    ensures InRange(r, |keys|)
    decreases |order|
  {
    if order == [] then [i]
    else if keys[i] < keys[order[0]] then [i] + order
    else [order[0]] + Insert(keys, order[1..], i)
  }

  /** In a sorted, stable order the first index's key bounds every later one's, and an equal later
      key belongs to a larger index. */
  lemma HeadBoundsTail(keys: seq<real>, order: seq<nat>)
    requires order != [] && InRange(order, |keys|) && SortedBy(keys, order) && StableBy(keys, order)
    ensures forall x :: x in order[1..] ==> keys[order[0]] <= keys[x] && (keys[order[0]] == keys[x] ==> order[0] < x)
    ensures InRange(order[1..], |keys|) && SortedBy(keys, order[1..]) && StableBy(keys, order[1..])
    ensures forall x :: x in order <==> x == order[0] || x in order[1..]
  {
    assert order == [order[0]] + order[1..];
    forall x | x in order[1..] ensures keys[order[0]] <= keys[x] && (keys[order[0]] == keys[x] ==> order[0] < x) {
      var m :| 0 <= m < |order[1..]| && order[1..][m] == x;
      assert order[m + 1] == x;
    }
  }

  lemma {:induction false} InsertSorted(keys: seq<real>, order: seq<nat>, i: nat)
    requires i < |keys| && InRange(order, |keys|) && SortedBy(keys, order)
    ensures SortedBy(keys, Insert(keys, order, i))
    decreases |order|
  {
    if order != [] && keys[order[0]] <= keys[i] {
      var rest := Insert(keys, order[1..], i);
      InsertSorted(keys, order[1..], i);
      forall k | 0 <= k < |rest| ensures keys[order[0]] <= keys[rest[k]] {
        if rest[k] != i {
          assert rest[k] in order[1..];
          var m :| 0 <= m < |order[1..]| && order[1..][m] == rest[k];
          assert order[m + 1] == rest[k];
        }
      }
    }
  }

  lemma {:induction false} InsertDistinct(keys: seq<real>, order: seq<nat>, i: nat)
    requires i < |keys| && InRange(order, |keys|) && Distinct(order) && i !in order
    ensures Distinct(Insert(keys, order, i))
    decreases |order|
  {
    if order != [] && keys[order[0]] <= keys[i] {
      assert order[0] !in order[1..];
      assert i !in order[1..];
      InsertDistinct(keys, order[1..], i);
    }
  }

  /** Putting in front of a stable order an index whose key is at most every other key, and below
      every index with an equal key, keeps the order stable. */
  lemma ConsStable(keys: seq<real>, h: nat, rest: seq<nat>)
    requires h < |keys| && InRange(rest, |keys|) && StableBy(keys, rest)
    requires forall x :: x in rest ==> keys[h] <= keys[x] && (keys[h] == keys[x] ==> h < x)
    ensures StableBy(keys, [h] + rest)
  {
    var r := [h] + rest;
    forall a, b | 0 <= a < b < |r| && keys[r[a]] == keys[r[b]] ensures r[a] < r[b] {
      assert r[b] == rest[b - 1];
      if a == 0 {
        assert rest[b - 1] in rest;
      } else {
        assert r[a] == rest[a - 1];
      }
    }
  }

  lemma {:induction false} InsertStable(keys: seq<real>, order: seq<nat>, i: nat)
    requires i < |keys| && InRange(order, |keys|) && SortedBy(keys, order) && StableBy(keys, order)
    requires forall x :: x in order ==> x < i
    ensures StableBy(keys, Insert(keys, order, i))
    decreases |order|
  {
    if order != [] {
      HeadBoundsTail(keys, order);
      if keys[order[0]] <= keys[i] {
        var rest := Insert(keys, order[1..], i);
        InsertStable(keys, order[1..], i);
        assert order[0] in order;
        ConsStable(keys, order[0], rest);
      } else {
        ConsStable(keys, i, order);
      }
    }
  }

  /** The insertion sort after it has placed the indices `0 .. n-1`. */
  function ArgsortPrefix(keys: seq<real>, n: nat): (r: seq<nat>)
    requires n <= |keys|
    ensures |r| == n && InRange(r, |keys|)
    ensures forall x: nat :: x in r <==> x < n
    ensures Distinct(r) && SortedBy(keys, r) && StableBy(keys, r)
  {
    if n == 0 then []
    else
      var o := ArgsortPrefix(keys, n - 1);
      assert forall x :: x in o ==> x < n - 1;
      InsertSorted(keys, o, n - 1);
      InsertDistinct(keys, o, n - 1);
      InsertStable(keys, o, n - 1);
      var r := Insert(keys, o, n - 1);
      assert forall x: nat :: x in r <==> x < n;
      r
  }

  /** `np.argsort(keys)`: every index once, keys ascending; among equal keys the model picks
      index order. */
  function Argsort(keys: seq<real>): (r: seq<nat>)
    ensures IsPermutation(r, |keys|)
    ensures SortedBy(keys, r) && StableBy(keys, r)
  {
    ArgsortPrefix(keys, |keys|)
  }

  /** `s[::-1]`. */
  function Reverse<T>(s: seq<T>): (r: seq<T>)
    ensures |r| == |s|
    ensures forall k :: 0 <= k < |s| ==> r[k] == s[|s| - 1 - k]
  {
    seq(|s|, k requires 0 <= k < |s| => s[|s| - 1 - k])
  }

  /** Reading `s` through the permutation `p`: `s[p]` in numpy's fancy indexing. */
  function Gather<T>(s: seq<T>, p: seq<nat>): (r: seq<T>)
    requires InRange(p, |s|)
    ensures |r| == |p|
    ensures forall k :: 0 <= k < |p| ==> r[k] == s[p[k]]
  {
    seq(|p|, k requires 0 <= k < |p| => s[p[k]])
  }

  /** Re-sorting by the keys read along a permutation `first` (`first[argsort(keys[first])]`)
      gives a permutation sorted by those keys. */
  lemma {:induction false} ResortedPermutation(keys: seq<real>, first: seq<nat>, second: seq<nat>)
    requires IsPermutation(first, |keys|)
    requires IsPermutation(second, |keys|) && SortedBy(Gather(keys, first), second)
    ensures IsPermutation(Gather(first, second), |keys|)
    ensures SortedBy(keys, Gather(first, second))
  {
    var g := Gather(first, second);
    var k := Gather(keys, first);
    forall a, b | 0 <= a < b < |g| ensures g[a] != g[b] {
      assert second[a] != second[b];
    }
    forall a, b | 0 <= a < b < |g| ensures keys[g[a]] <= keys[g[b]] {
      assert keys[g[a]] == k[second[a]] && keys[g[b]] == k[second[b]];
    }
  }

  /** Reversing an ascending permutation gives a descending one. */
  lemma {:induction false} ReverseDescending(keys: seq<real>, s: seq<nat>)
    requires IsPermutation(s, |keys|) && SortedBy(keys, s)
    ensures IsPermutation(Reverse(s), |keys|)
    ensures forall a, b :: 0 <= a < b < |s| ==> keys[Reverse(s)[b]] <= keys[Reverse(s)[a]]
  {
    var r := Reverse(s);
    forall a, b | 0 <= a < b < |r| ensures r[a] != r[b] && keys[r[b]] <= keys[r[a]] {
      assert r[a] == s[|s| - 1 - a] && r[b] == s[|s| - 1 - b];
    }
  }
}
