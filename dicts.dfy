/** Python's `dict` with string keys: insertion-ordered, one entry per key.
    Assigning to a present key replaces its value in place; assigning a new key appends it. */
module Dicts {
  import opened Wrappers

  predicate DistinctKeys<V>(d: seq<(string, V)>) {
    forall i, j :: 0 <= i < j < |d| ==> d[i].0 != d[j].0
  }

  type Dict<V> = d: seq<(string, V)> | DistinctKeys(d) witness []

  function Keys<V>(d: seq<(string, V)>): (ks: seq<string>)
    ensures |ks| == |d| && forall i :: 0 <= i < |d| ==> ks[i] == d[i].0
  {
    seq(|d|, i requires 0 <= i < |d| => d[i].0)
  }

  predicate HasKey<V>(d: seq<(string, V)>, k: string) {
    exists i :: 0 <= i < |d| && d[i].0 == k
  }

  /** `d.get(k)`: the value stored under `k`, if any. */
  function Get<V>(d: seq<(string, V)>, k: string): (r: Option<V>)
    ensures r.Some? <==> HasKey(d, k)
    ensures forall i :: 0 <= i < |d| && d[i].0 == k && DistinctKeys(d) ==> r == Some(d[i].1)
  {
    if d == [] then None
    else if d[|d| - 1].0 == k then Some(d[|d| - 1].1)
    else Get(d[..|d| - 1], k)
  }

  function IndexOf<V>(d: Dict<V>, k: string): (i: nat)
    requires HasKey(d, k)
    ensures i < |d| && d[i].0 == k
  {
    if d[|d| - 1].0 == k then |d| - 1 else IndexOf(d[..|d| - 1], k)
  }

  /** `d[k] = v`. */
  function Put<V>(d: Dict<V>, k: string, v: V): (r: Dict<V>)
    ensures Get(r, k) == Some(v)
    ensures forall k' :: k' != k ==> Get(r, k') == Get(d, k')
    ensures HasKey(d, k) ==> Keys(r) == Keys(d)
    ensures !HasKey(d, k) ==> Keys(r) == Keys(d) + [k]
  {
    if HasKey(d, k) then
      var i := IndexOf(d, k);
      var r := d[i := (k, v)];
      assert Keys(r) == Keys(d);
      r
    else
      var r := d + [(k, v)];
      assert Keys(r) == Keys(d) + [k];
      r
  }

  /** `{**a, **b}`: the entries of `a`, then each entry of `b` assigned in order. */
  function Merge<V>(a: Dict<V>, b: Dict<V>): (r: Dict<V>)
    decreases |b|
  {
    if b == [] then a else Put(Merge(a, b[..|b| - 1]), b[|b| - 1].0, b[|b| - 1].1)
  }

  lemma {:induction false} MergeGet<V>(a: Dict<V>, b: Dict<V>, k: string)
    ensures Get(Merge(a, b), k) == if HasKey(b, k) then Get(b, k) else Get(a, k)
    decreases |b|
  {
    if b != [] {
      var b' := b[..|b| - 1];
      var last := b[|b| - 1];
      MergeGet(a, b', k);
      HasKeySnoc(b, k);
      assert Get(b, k) == if last.0 == k then Some(last.1) else Get(b', k);
    }
  }

  lemma HasKeySnoc<V>(b: seq<(string, V)>, k: string)
    requires b != []
    ensures HasKey(b, k) <==> HasKey(b[..|b| - 1], k) || b[|b| - 1].0 == k
  {
    if HasKey(b[..|b| - 1], k) {
      var i :| 0 <= i < |b| - 1 && b[..|b| - 1][i].0 == k;
      assert b[i].0 == k;
    }
  }

  /** Merging a dict into itself leaves it as it was: every re-assignment writes the value already there. */
  lemma {:induction false} MergeSelf<V>(a: Dict<V>)
    ensures Merge(a, a) == a
  {
    MergeIntoSuperset(a, a, |a|);
    assert a[..|a|] == a;
  }

  lemma {:induction false} MergeIntoSuperset<V>(a: Dict<V>, b: Dict<V>, n: nat)
    requires n <= |b| == |a| && b == a
    ensures Merge(a, b[..n]) == a
  {
    if n > 0 {
      MergeIntoSuperset(a, b, n - 1);
      assert b[..n][..n - 1] == b[..n - 1];
      var k := b[n - 1].0;
      PutExisting(a, n - 1);
    }
  }

  /** Re-assigning the value a key already has changes nothing. */
  lemma PutExisting<V>(d: Dict<V>, i: nat)
    requires i < |d|
    ensures Put(d, d[i].0, d[i].1) == d
  {
    var k := d[i].0;
    assert HasKey(d, k);
    var j := IndexOf(d, k);
    assert j == i;
    assert d[j := (k, d[i].1)] == d;
  }
}
