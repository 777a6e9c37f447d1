/** Python's stable sort, as the order in which it visits the indices of its input. */
module Sorting {

  /** `o` lists every index below n exactly once. */
  ghost predicate IsOrder(o: seq<nat>, n: nat) {
    && |o| == n
    && (forall a :: 0 <= a < n ==> o[a] < n)
    && (forall a, b :: 0 <= a < b < n ==> o[a] != o[b])
    && (forall i :: 0 <= i < n ==> i in o)
  }

  ghost predicate Ascending(o: seq<nat>, keys: seq<int>)
    requires forall a :: 0 <= a < |o| ==> o[a] < |keys|
  {
    forall a, b :: 0 <= a < b < |o| ==> keys[o[a]] <= keys[o[b]]
  }

  ghost predicate Stable(o: seq<nat>, keys: seq<int>)
    requires forall a :: 0 <= a < |o| ==> o[a] < |keys|
  {
    forall a, b :: 0 <= a < b < |o| && keys[o[a]] == keys[o[b]] ==> o[a] < o[b]
  }

  /** Where an index with key k goes: after everything not larger. */
  function Place(o: seq<nat>, keys: seq<int>, k: int): (p: nat)
    requires forall a :: 0 <= a < |o| ==> o[a] < |keys|
    requires Ascending(o, keys)
    ensures p <= |o|
    ensures forall a :: 0 <= a < p ==> keys[o[a]] <= k
    ensures forall a :: p <= a < |o| ==> k < keys[o[a]]
  {
    if o == [] then 0
    else if keys[o[|o| - 1]] <= k then |o|
    else Place(o[..|o| - 1], keys, k)
  }

  /** sorted(range(len(keys)), key=lambda i: keys[i]) */
  function Order(keys: seq<int>): (o: seq<nat>)
    ensures IsOrder(o, |keys|) && Ascending(o, keys) && Stable(o, keys)
  {
    if keys == [] then []
    else
      var n := |keys| - 1;
      var o := Order(keys[..n]);
      var p := Place(o, keys[..n], keys[n]);
      Inserted(o, n, p);
      InsertedSorted(o, keys, p);
      o[..p] + [n] + o[p..]
  }

  lemma {:induction false} Inserted(o: seq<nat>, n: nat, p: nat)
    requires IsOrder(o, n) && p <= n
    ensures IsOrder(o[..p] + [n] + o[p..], n + 1)
  {
    var r := o[..p] + [n] + o[p..];
    forall i | 0 <= i < n ensures i in r {
      assert i in o;
      var a :| 0 <= a < |o| && o[a] == i;
      assert r[if a < p then a else a + 1] == i;
    }
    assert r[p] == n;
  }

  lemma {:induction false} InsertedSorted(o: seq<nat>, keys: seq<int>, p: nat)
    requires keys != [] && IsOrder(o, |keys| - 1) && p <= |o|
    requires Ascending(o, keys[..|keys| - 1]) && Stable(o, keys[..|keys| - 1])
    requires forall a :: 0 <= a < p ==> keys[o[a]] <= keys[|keys| - 1]
    requires forall a :: p <= a < |o| ==> keys[|keys| - 1] < keys[o[a]]
    requires IsOrder(o[..p] + [|keys| - 1] + o[p..], |keys|)
    ensures Ascending(o[..p] + [|keys| - 1] + o[p..], keys)
    ensures Stable(o[..p] + [|keys| - 1] + o[p..], keys)
  {
    var r := o[..p] + [|keys| - 1] + o[p..];
    forall a, b | 0 <= a < b < |r|
      ensures keys[r[a]] <= keys[r[b]]
      ensures keys[r[a]] == keys[r[b]] ==> r[a] < r[b]
    {
      InsertedPair(o, keys, p, a, b);
    }
  }

  lemma {:induction false} InsertedPair(o: seq<nat>, keys: seq<int>, p: nat, a: nat, b: nat)
    requires keys != [] && |o| == |keys| - 1 && p <= |o| && a < b <= |o|
    requires forall i :: 0 <= i < |o| ==> o[i] < |keys| - 1
    requires Ascending(o, keys[..|keys| - 1]) && Stable(o, keys[..|keys| - 1])
    requires forall i :: 0 <= i < p ==> keys[o[i]] <= keys[|keys| - 1]
    requires forall i :: p <= i < |o| ==> keys[|keys| - 1] < keys[o[i]]
    ensures var r := o[..p] + [|keys| - 1] + o[p..];
      keys[r[a]] <= keys[r[b]] && (keys[r[a]] == keys[r[b]] ==> r[a] < r[b])
  {
    var a', b' := if a < p then a else a - 1, if b < p then b else b - 1;
    var r := o[..p] + [|keys| - 1] + o[p..];
    assert a != p ==> r[a] == o[a'];
    assert b != p ==> r[b] == o[b'];
    if a != p && b != p {
      assert keys[..|keys| - 1][o[a']] <= keys[..|keys| - 1][o[b']];
    }
  }
}
