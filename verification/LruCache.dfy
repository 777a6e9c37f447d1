/** The LRU of projected vectors (src-clm/src/seon_clm/engine.py), against the history of requests. */
module LruCache {
  import opened Options
  import opened SetSizes

  type Vec = seq<real>

  /** A namespace names exact weights. */
  datatype Key = Key(namespace: string, text: string)

  // ---- Recency ----

  function Remove(s: seq<Key>, k: Key): seq<Key>
  {
    if s == [] then []
    else Remove(s[..|s| - 1], k) + (if s[|s| - 1] == k then [] else [s[|s| - 1]])
  }

  lemma {:induction false} InRemove(s: seq<Key>, k: Key)
    ensures forall x :: x in Remove(s, k) <==> x in s && x != k
  {
    if s != [] { InRemove(s[..|s| - 1], k); }
  }

  function Touch(s: seq<Key>, k: Key): seq<Key> {
    Remove(s, k) + [k]
  }

  /** move_to_end for each key of ks in turn. */
  function TouchAll(s: seq<Key>, ks: seq<Key>): seq<Key> {
    if ks == [] then s else Touch(TouchAll(s, ks[..|ks| - 1]), ks[|ks| - 1])
  }

  /** The distinct keys of a request history, least recently requested first. */
  function Recency(history: seq<Key>): seq<Key> {
    TouchAll([], history)
  }

  function Minus(s: seq<Key>, ks: seq<Key>): seq<Key>
  {
    if s == [] then []
    else Minus(s[..|s| - 1], ks) + (if s[|s| - 1] in ks then [] else [s[|s| - 1]])
  }

  lemma {:induction false} InMinus(s: seq<Key>, ks: seq<Key>)
    ensures forall x :: x in Minus(s, ks) <==> x in s && x !in ks
  {
    if s != [] { InMinus(s[..|s| - 1], ks); }
  }

  function LastN(s: seq<Key>, n: nat): seq<Key> {
    if |s| <= n then s else s[|s| - n..]
  }

  ghost predicate Distinct(s: seq<Key>) {
    forall i, j :: 0 <= i < j < |s| ==> s[i] != s[j]
  }

  lemma {:induction false} RemoveConcat(a: seq<Key>, b: seq<Key>, k: Key)
    ensures Remove(a + b, k) == Remove(a, k) + Remove(b, k)
  {
    if b == [] {
      assert a + b == a;
    } else {
      RemoveConcat(a, b[..|b| - 1], k);
      assert (a + b)[..|a + b| - 1] == a + b[..|b| - 1];
    }
  }

  lemma {:induction false} MinusConcat(a: seq<Key>, b: seq<Key>, ks: seq<Key>)
    ensures Minus(a + b, ks) == Minus(a, ks) + Minus(b, ks)
  {
    if b == [] {
      assert a + b == a;
    } else {
      MinusConcat(a, b[..|b| - 1], ks);
      assert (a + b)[..|a + b| - 1] == a + b[..|b| - 1];
    }
  }

  lemma {:induction false} MinusMore(s: seq<Key>, ks: seq<Key>, k: Key)
    ensures Minus(s, ks + [k]) == Remove(Minus(s, ks), k)
  {
    if s != [] {
      var m, x := s[..|s| - 1], s[|s| - 1];
      MinusMore(m, ks, k);
      RemoveConcat(Minus(m, ks), if x in ks then [] else [x], k);
      assert x in ks + [k] <==> x in ks || x == k;
      assert [x][..0] == [];
    }
  }

  lemma {:induction false} TouchLast(s: seq<Key>, m: seq<Key>, k: Key)
    ensures TouchAll(s, m + [k]) == Remove(TouchAll(s, m), k) + [k]
  {
    assert (m + [k])[..|m|] == m;
  }

  /** Touching keys takes them out and lists them by recency at the end. */
  lemma {:induction false} TouchAllShape(s: seq<Key>, ks: seq<Key>)
    ensures TouchAll(s, ks) == Minus(s, ks) + Recency(ks)
  {
    if ks == [] {
      MinusNothing(s);
    } else {
      var m, k := ks[..|ks| - 1], ks[|ks| - 1];
      assert m + [k] == ks;
      TouchAllShape(s, m);
      TouchLast(s, m, k);
      TouchLast([], m, k);
      RemoveConcat(Minus(s, m), Recency(m), k);
      MinusMore(s, m, k);
    }
  }

  lemma {:induction false} MinusNothing(s: seq<Key>)
    ensures Minus(s, []) == s
  {
    if s != [] {
      MinusNothing(s[..|s| - 1]);
    }
  }

  lemma {:induction false} TouchAllConcat(s: seq<Key>, a: seq<Key>, b: seq<Key>)
    ensures TouchAll(s, a + b) == TouchAll(TouchAll(s, a), b)
  {
    if b == [] {
      assert a + b == a;
    } else {
      TouchAllConcat(s, a, b[..|b| - 1]);
      assert (a + b)[..|a + b| - 1] == a + b[..|b| - 1];
    }
  }

  lemma {:induction false} TouchAllDistinct(s: seq<Key>, ks: seq<Key>)
    requires Distinct(s)
    ensures Distinct(TouchAll(s, ks)) && forall x :: x in TouchAll(s, ks) <==> x in s || x in ks
  {
    if ks != [] {
      var m, k := ks[..|ks| - 1], ks[|ks| - 1];
      assert m + [k] == ks;
      TouchAllDistinct(s, m);
      TouchLast(s, m, k);
      RemoveDistinct(TouchAll(s, m), k);
      InRemove(TouchAll(s, m), k);
      assert k !in Remove(TouchAll(s, m), k);
    }
  }

  lemma {:induction false} RecencyDistinct(ks: seq<Key>)
    ensures Distinct(Recency(ks)) && forall x :: x in Recency(ks) <==> x in ks
  {
    TouchAllDistinct([], ks);
  }

  lemma {:induction false} RemoveDistinct(s: seq<Key>, k: Key)
    requires Distinct(s)
    ensures Distinct(Remove(s, k))
  {
    if s != [] {
      RemoveDistinct(s[..|s| - 1], k);
      InRemove(s[..|s| - 1], k);
      assert s[|s| - 1] !in s[..|s| - 1];
    }
  }

  lemma {:induction false} MinusDistinct(s: seq<Key>, ks: seq<Key>)
    requires Distinct(s)
    ensures Distinct(Minus(s, ks))
  {
    if s != [] {
      MinusDistinct(s[..|s| - 1], ks);
      InMinus(s[..|s| - 1], ks);
      assert s[|s| - 1] !in s[..|s| - 1];
    }
  }

  function AsSet(s: seq<Key>): set<Key> {
    set x | x in s
  }

  lemma {:induction false} DistinctSize(s: seq<Key>)
    requires Distinct(s)
    ensures |AsSet(s)| == |s|
  {
    if s != [] {
      var m := s[..|s| - 1];
      DistinctSize(m);
      assert AsSet(s) == AsSet(m) + {s[|s| - 1]};
      assert s[|s| - 1] !in m;
    } else {
      assert AsSet(s) == {};
    }
  }

  lemma {:induction false} DropOldest(s: seq<Key>)
    requires s != [] && Distinct(s)
    ensures Distinct(s[1..]) && AsSet(s[1..]) == AsSet(s) - {s[0]}
  {
    assert forall x :: x in s <==> x == s[0] || x in s[1..];
  }

  /** What a batch takes out of a list it gives back: the list does not get shorter. */
  lemma {:induction false} TouchSize(s: seq<Key>, ks: seq<Key>)
    requires Distinct(s)
    ensures |s| <= |Minus(s, ks)| + |Recency(ks)|
  {
    MinusDistinct(s, ks);
    InMinus(s, ks);
    RecencyDistinct(ks);
    DistinctSize(s);
    DistinctSize(Minus(s, ks));
    DistinctSize(Recency(ks));
    assert AsSet(s) <= AsSet(Minus(s, ks)) + AsSet(Recency(ks));
    Smaller(AsSet(s), AsSet(Minus(s, ks)) + AsSet(Recency(ks)));
  }

  /** The list after the batch: the batch's misses (`extra`) leave no trace but their recency. */
  lemma {:induction false} TouchedShape(order: seq<Key>, extra: seq<Key>, ks: seq<Key>)
    requires forall x :: x in extra ==> x in ks
    ensures TouchAll(order + extra, ks) == Minus(order, ks) + Recency(ks)
  {
    TouchAllShape(order + extra, ks);
    var whole, r := Minus(order + extra, ks), Recency(ks);
    assert whole == Minus(order, ks) by {
      MinusConcat(order, extra, ks);
      EmptyMinus(extra, ks);
    }
  }

  /** The recency list of the longer history. */
  lemma {:induction false} HistoryShape(history: seq<Key>, older: seq<Key>, order: seq<Key>, ks: seq<Key>)
    requires Recency(history) == older + order
    ensures Recency(history + ks) == Minus(older, ks) + (Minus(order, ks) + Recency(ks))
  {
    var r := Recency(ks);
    assert Recency(history + ks) == TouchAll(older + order, ks) by { TouchAllConcat([], history, ks); }
    assert TouchAll(older + order, ks) == Minus(older + order, ks) + r by { TouchAllShape(older + order, ks); }
    MinusConcat(older, order, ks);
  }

  /** One batch on a cache that holds the last `n` of the history leaves the last `n` of the longer
      history, however many duplicates the batch has and however it compares with the capacity. */
  lemma {:induction false} BatchRecency(history: seq<Key>, order: seq<Key>, extra: seq<Key>, ks: seq<Key>, n: nat)
    requires order == LastN(Recency(history), n)
    requires forall x :: x in extra ==> x in ks
    ensures LastN(TouchAll(order + extra, ks), n) == LastN(Recency(history + ks), n)
  {
    var whole := Recency(history);
    var older := whole[..|whole| - |order|];
    TouchedShape(order, extra, ks);
    HistoryShape(history, older, order, ks);
    var tail := Minus(order, ks) + Recency(ks);
    if older == [] {
      assert Minus(older, ks) + tail == tail;
    } else {
      RecencyDistinct(history);
      SuffixDistinct(older, order);
      TouchSize(order, ks);
      LastNSuffix(Minus(older, ks), tail, n);
    }
  }

  lemma {:induction false} SuffixDistinct(a: seq<Key>, b: seq<Key>)
    requires Distinct(a + b)
    ensures Distinct(b)
  {
    forall i, j | 0 <= i < j < |b| ensures b[i] != b[j] {
      assert b[i] == (a + b)[|a| + i] && b[j] == (a + b)[|a| + j];
    }
  }

  lemma {:induction false} LastNSuffix(a: seq<Key>, b: seq<Key>, n: nat)
    requires n <= |b|
    ensures LastN(a + b, n) == LastN(b, n)
  {
  }

  lemma EmptyMinus(s: seq<Key>, ks: seq<Key>)
    requires forall x :: x in s ==> x in ks
    ensures Minus(s, ks) == []
  {
    InMinus(s, ks);
    if Minus(s, ks) != [] {
      assert Minus(s, ks)[0] in Minus(s, ks);
    }
  }

  // ---- What is retained, told from the history ----

  /** k is requested at i for the last time. */
  ghost predicate LastAt(history: seq<Key>, i: nat, k: Key) {
    i < |history| && history[i] == k && forall j :: i < j < |history| ==> history[j] != k
  }

  /** The distinct keys requested from a place on. */
  ghost function KeysFrom(history: seq<Key>, from: nat): set<Key> {
    set j | from <= j < |history| :: history[j]
  }

  /** A key has a row exactly if fewer than `capacity` distinct keys were requested since its own last request; no more
      rows than these and no fewer than the capacity and the keys allow; and the list goes by last request. */
  ghost predicate Retained(history: seq<Key>, capacity: nat, order: seq<Key>, rows: map<Key, Vec>) {
    && (forall k :: k in rows <==> exists i: nat :: LastAt(history, i, k) && |KeysFrom(history, i + 1)| < capacity)
    && |rows| == (if capacity <= |KeysFrom(history, 0)| then capacity else |KeysFrom(history, 0)|)
    && |order| == |rows| && (forall k :: k in order <==> k in rows)
    && (forall a, b, i: nat, j: nat ::
         0 <= a < b < |order| && LastAt(history, i, order[a]) && LastAt(history, j, order[b]) ==> i < j)
  }

  /** What stands after the last x. */
  ghost function Since(s: seq<Key>, x: Key): set<Key> {
    if s == [] || s[|s| - 1] == x then {} else Since(s[..|s| - 1], x) + {s[|s| - 1]}
  }

  lemma {:induction false} SinceRemove(s: seq<Key>, k: Key, x: Key)
    requires x in s && x != k
    ensures Since(Remove(s, k), x) == Since(s, x) - {k}
  {
    var m, y := s[..|s| - 1], s[|s| - 1];
    var w := Remove(m, k);
    if y == k {
      SinceRemove(m, k, x);
      assert w + [] == w;
    } else {
      assert (w + [y])[..|w|] == w && (w + [y])[|w|] == y;
      if y != x { SinceRemove(m, k, x); }
    }
  }

  /** The recency list has after a key what the history has after its last request. */
  lemma {:induction false} SinceRecency(history: seq<Key>, x: Key)
    requires x in history
    ensures Since(Recency(history), x) == Since(history, x)
  {
    var m, k := history[..|history| - 1], history[|history| - 1];
    assert m + [k] == history;
    TouchLast([], m, k);
    SinceMore(Remove(Recency(m), k), k, x);
    SinceMore(m, k, x);
    if k != x {
      SinceRecency(m, x);
      RecencyDistinct(m);
      SinceRemove(Recency(m), k, x);
    }
  }

  lemma {:induction false} SinceMore(s: seq<Key>, y: Key, x: Key)
    ensures Since(s + [y], x) == if y == x then {} else Since(s, x) + {y}
  {
    assert (s + [y])[..|s|] == s;
  }

  lemma {:induction false} SinceAt(s: seq<Key>, a: nat)
    requires a < |s| && Distinct(s)
    ensures |Since(s, s[a])| == |s| - a - 1 && forall b :: a < b < |s| ==> s[b] in Since(s, s[a])
  {
    if a < |s| - 1 {
      var m, y := s[..|s| - 1], s[|s| - 1];
      SinceAt(m, a);
      SinceWithin(m, s[a]);
      assert y !in m && y != s[a];
      forall b | a < b < |s| ensures s[b] in Since(s, s[a]) {
        if b < |m| { assert m[b] in Since(m, s[a]); }
      }
    }
  }

  lemma {:induction false} SinceWithin(s: seq<Key>, x: Key)
    ensures forall y :: y in Since(s, x) ==> y in s
  {
    if s != [] { SinceWithin(s[..|s| - 1], x); }
  }

  lemma {:induction false} SinceFrom(history: seq<Key>, i: nat, k: Key)
    requires LastAt(history, i, k)
    ensures Since(history, k) == KeysFrom(history, i + 1)
  {
    if i < |history| - 1 {
      var m := history[..|history| - 1];
      SinceFrom(m, i, k);
      assert KeysFrom(history, i + 1) == KeysFrom(m, i + 1) + {history[|history| - 1]};
    }
  }

  lemma {:induction false} LastPlace(history: seq<Key>, k: Key) returns (i: nat)
    requires k in history
    ensures LastAt(history, i, k)
  {
    var n := |history| - 1;
    if history[n] == k { i := n; } else { i := LastPlace(history[..n], k); }
  }

  /** Where a key stands in the recency list. */
  lemma {:induction false} PlaceInRecency(history: seq<Key>, a: nat, i: nat)
    requires a < |Recency(history)| && LastAt(history, i, Recency(history)[a])
    ensures |KeysFrom(history, i + 1)| == |Recency(history)| - a - 1
    ensures forall b :: a < b < |Recency(history)| ==> Recency(history)[b] in KeysFrom(history, i + 1)
  {
    RecencyDistinct(history);
    SinceRecency(history, Recency(history)[a]);
    SinceAt(Recency(history), a);
    SinceFrom(history, i, Recency(history)[a]);
  }

  lemma {:induction false} RecencySize(history: seq<Key>)
    ensures |KeysFrom(history, 0)| == |Recency(history)|
  {
    RecencyDistinct(history);
    DistinctSize(Recency(history));
    assert KeysFrom(history, 0) == AsSet(Recency(history));
  }

  /** The last `n` of the recency list are what is to be retained. */
  lemma {:induction false} RetainsExactly(history: seq<Key>, n: nat, order: seq<Key>, rows: map<Key, Vec>)
    requires order == LastN(Recency(history), n) && rows.Keys == AsSet(order)
    ensures Retained(history, n, order, rows)
  {
    forall k ensures k in rows <==> exists i: nat :: LastAt(history, i, k) && |KeysFrom(history, i + 1)| < n {
      RetainsKey(history, n, order, k);
      assert k in rows <==> k in rows.Keys;
    }
    RetainsSize(history, n, order, rows);
    RetainsOrder(history, n, order);
  }

  lemma {:induction false} RetainsSize(history: seq<Key>, n: nat, order: seq<Key>, rows: map<Key, Vec>)
    requires order == LastN(Recency(history), n) && rows.Keys == AsSet(order)
    ensures |rows| == (if n <= |KeysFrom(history, 0)| then n else |KeysFrom(history, 0)|)
    ensures |order| == |rows| && forall k :: k in order <==> k in rows
  {
    RecencySize(history);
    RetainedDistinct(history, n);
    DistinctSize(order);
    assert |rows| == |rows.Keys|;
    assert forall k :: k in rows <==> k in rows.Keys;
  }

  lemma {:induction false} RetainsOrder(history: seq<Key>, n: nat, order: seq<Key>)
    requires order == LastN(Recency(history), n)
    ensures forall a, b, i: nat, j: nat ::
      0 <= a < b < |order| && LastAt(history, i, order[a]) && LastAt(history, j, order[b]) ==> i < j
  {
    var skip := |Recency(history)| - |order|;
    forall a, b, i: nat, j: nat | 0 <= a < b < |order| && LastAt(history, i, order[a]) && LastAt(history, j, order[b])
      ensures i < j
    {
      PlaceInRecency(history, skip + a, i);
      assert Recency(history)[skip + b] in KeysFrom(history, i + 1);
    }
  }

  lemma {:induction false} RetainsKey(history: seq<Key>, n: nat, order: seq<Key>, k: Key)
    requires order == LastN(Recency(history), n)
    ensures k in order <==> exists i: nat :: LastAt(history, i, k) && |KeysFrom(history, i + 1)| < n
  {
    var r := Recency(history);
    var skip := |r| - |order|;
    RecencyDistinct(history);
    if k in order {
      var a :| 0 <= a < |order| && order[a] == k;
      assert r[skip + a] == k;
      var i := LastPlace(history, k);
      PlaceInRecency(history, skip + a, i);
    }
    if i: nat :| LastAt(history, i, k) && |KeysFrom(history, i + 1)| < n {
      assert history[i] in history;
      var a :| 0 <= a < |r| && r[a] == k;
      PlaceInRecency(history, a, i);
      assert order[a - skip] == k;
    }
  }

  // ---- The cache ----

  function KeysOf(namespace: string, texts: seq<string>): (ks: seq<Key>)
    ensures |ks| == |texts|
  {
    seq(|texts|, i requires 0 <= i < |texts| => Key(namespace, texts[i]))
  }

  /** dict.fromkeys of the texts not in the cache: each missing text once, in first-request order. */
  function Missing(rows: map<Key, Vec>, namespace: string, texts: seq<string>): (todo: seq<string>)
    ensures forall t :: t in todo <==> t in texts && Key(namespace, t) !in rows
    ensures forall i, j :: 0 <= i < j < |todo| ==> todo[i] != todo[j]
    ensures |todo| <= |texts|
  {
    if texts == [] then []
    else
      var m, t := texts[..|texts| - 1], texts[|texts| - 1];
      var todo := Missing(rows, namespace, m);
      assert texts == m + [t];
      if Key(namespace, t) in rows || t in todo then todo else todo + [t]
  }

  /** The missing texts are listed in the order in which they are first asked for: those of a part of the request come
      first. */
  lemma {:induction false} MissingPrefix(rows: map<Key, Vec>, namespace: string, texts: seq<string>, n: nat)
    requires n <= |texts|
    ensures Missing(rows, namespace, texts[..n]) <= Missing(rows, namespace, texts)
  {
    if n < |texts| {
      MissingPrefix(rows, namespace, texts[..|texts| - 1], n);
      assert texts[..|texts| - 1][..n] == texts[..n];
    } else {
      assert texts[..n] == texts;
    }
  }

  /** The rows once the computed vectors are stored. */
  function Stored(rows: map<Key, Vec>, namespace: string, todo: seq<string>, computed: seq<Vec>): (all: map<Key, Vec>)
    requires |computed| == |todo|
    ensures all.Keys == rows.Keys + AsSet(KeysOf(namespace, todo))
  {
    if todo == [] then rows
    else
      var n := |todo| - 1;
      assert KeysOf(namespace, todo) == KeysOf(namespace, todo[..n]) + [Key(namespace, todo[n])];
      assert AsSet(KeysOf(namespace, todo)) == AsSet(KeysOf(namespace, todo[..n])) + {Key(namespace, todo[n])};
      Stored(rows, namespace, todo[..n], computed[..n])[Key(namespace, todo[n]) := computed[n]]
  }

  /** Cached rows keep their vectors, and what is added is for the missing texts. */
  lemma {:induction false} StoredOld(rows: map<Key, Vec>, namespace: string, todo: seq<string>, computed: seq<Vec>, k: Key)
    requires |computed| == |todo| && k in Stored(rows, namespace, todo, computed)
    ensures k !in rows ==> k.namespace == namespace && k.text in todo
    ensures k.namespace != namespace || k.text !in todo ==> k in rows && Stored(rows, namespace, todo, computed)[k] == rows[k]
  {
    if todo != [] {
      var n := |todo| - 1;
      assert todo == todo[..n] + [todo[n]];
      if k != Key(namespace, todo[n]) {
        StoredOld(rows, namespace, todo[..n], computed[..n], k);
      }
    }
  }

  /** The i-th missing text gets the i-th computed vector. */
  lemma {:induction false} StoredNew(rows: map<Key, Vec>, namespace: string, todo: seq<string>, computed: seq<Vec>, i: nat)
    requires |computed| == |todo| && (forall i, j :: 0 <= i < j < |todo| ==> todo[i] != todo[j]) && i < |todo|
    ensures Key(namespace, todo[i]) in Stored(rows, namespace, todo, computed)
    ensures Stored(rows, namespace, todo, computed)[Key(namespace, todo[i])] == computed[i]
  {
    var n := |todo| - 1;
    if i < n {
      StoredNew(rows, namespace, todo[..n], computed[..n], i);
      assert todo[i] != todo[n];
    }
  }

  /** The stacked answer: each key's row. */
  ghost predicate Answers(rows: map<Key, Vec>, keys: seq<Key>, out: seq<Vec>) {
    |out| == |keys| && forall i :: 0 <= i < |keys| ==> keys[i] in rows && out[i] == rows[keys[i]]
  }

  ghost predicate Part(rows: map<Key, Vec>, all: map<Key, Vec>) {
    forall k :: k in rows ==> k in all && rows[k] == all[k]
  }

  datatype CacheError = NothingToStack | ComputeRaised

  /** `order` and `rows` are the OrderedDict: its keys from oldest to newest, and its values. */
  class VectorCache {
    const capacity: nat
    var order: seq<Key>
    var rows: map<Key, Vec>
    var hits: nat
    var misses: nat
    /** Every key of every answered request, in order. */
    ghost var history: seq<Key>

    ghost predicate Valid()
      reads this
    {
      && order == LastN(Recency(history), capacity)
      && rows.Keys == AsSet(order)
    }

    constructor (capacity: nat)
      ensures Valid() && this.capacity == capacity && history == [] && rows == map[] && hits == misses == 0
    {
      this.capacity := capacity;
      order, rows, hits, misses, history := [], map[], 0, 0, [];
    }

    /** Vectors for `texts`, computing what is missing in one call. Asking for nothing raises (there is
        nothing to stack), and so does a computation that raises: the counters have moved by then,
        the rows have not. */
    method Get(namespace: string, texts: seq<string>, compute: seq<string> -> Option<seq<Vec>>)
      returns (r: Result<seq<Vec>, CacheError>)
      requires Valid() && forall xs :: compute(xs).Some? ==> |compute(xs).value| == |xs|
      modifies this
      ensures Valid()
      ensures hits + misses == old(hits) + old(misses) + |texts|
      ensures misses == old(misses) + |Missing(old(rows), namespace, texts)|
      ensures r == Err(NothingToStack) <==> texts == []
      ensures r.Err? ==> r == Err(NothingToStack) || r == Err(ComputeRaised)
      ensures r == Err(ComputeRaised) <==> var todo := Missing(old(rows), namespace, texts); todo != [] && compute(todo).None?
      ensures r.Err? ==> history == old(history) && order == old(order) && rows == old(rows)
      ensures r.Ok? ==> history == old(history) + KeysOf(namespace, texts)
      ensures r.Ok? ==> var todo := Missing(old(rows), namespace, texts);
        var all := Stored(old(rows), namespace, todo, if todo == [] then [] else compute(todo).value);
        Answers(all, KeysOf(namespace, texts), r.value) && Part(rows, all)
      ensures Retained(history, capacity, order, rows)
    {
      RetainsExactly(history, capacity, order, rows);
      var keys := KeysOf(namespace, texts);
      var todo := Missing(rows, namespace, texts);
      misses := misses + |todo|;
      hits := hits + (|texts| - |todo|);
      RequestFacts(rows, order, history, namespace, texts, capacity);
      var fetched := Fetch(namespace, todo, compute);
      if !fetched { return Err(ComputeRaised); }
      if texts == [] { return Err(NothingToStack); }
      var out := Serve(keys);
      RetainsExactly(history, capacity, order, rows);
      r := Ok(out);
    }

    /** The rows for the missing texts, computed in one call if there are any. */
    method Fetch(namespace: string, todo: seq<string>, compute: seq<string> -> Option<seq<Vec>>) returns (ok: bool)
      requires forall xs :: compute(xs).Some? ==> |compute(xs).value| == |xs|
      modifies this`order, this`rows
      ensures ok <==> todo == [] || compute(todo).Some?
      ensures !ok ==> order == old(order) && rows == old(rows)
      ensures ok ==> order == old(order) + KeysOf(namespace, todo)
      ensures ok ==> rows == Stored(old(rows), namespace, todo, if todo == [] then [] else compute(todo).value)
    {
      if todo != [] {
        var c := compute(todo);
        if c.None? { return false; }
        Insert(namespace, todo, c.value);
      }
      ok := true;
    }

    /** The rest of a request once its keys are all present: recency, the stacked rows, eviction. */
    method Serve(keys: seq<Key>) returns (out: seq<Vec>)
      requires forall i :: 0 <= i < |keys| ==> keys[i] in rows
      requires Distinct(TouchAll(order, keys)) && rows.Keys == AsSet(TouchAll(order, keys))
      requires LastN(TouchAll(order, keys), capacity) == LastN(Recency(history + keys), capacity)
      modifies this`order, this`rows, this`history
      ensures Valid() && history == old(history) + keys
      ensures Answers(old(rows), keys, out) && Part(rows, old(rows))
    {
      MoveToEnd(keys);
      out := seq(|keys|, i requires 0 <= i < |keys| && keys[i] in rows reads this => rows[keys[i]]);
      Evict();
      history := history + keys;
    }

    /** self.rows[(namespace, t)] = v for the computed vectors. */
    method Insert(namespace: string, todo: seq<string>, computed: seq<Vec>)
      requires |computed| == |todo|
      modifies this`order, this`rows
      ensures order == old(order) + KeysOf(namespace, todo)
      ensures rows == Stored(old(rows), namespace, todo, computed)
    {
      assert todo[..0] == [] && computed[..0] == [];
      for i := 0 to |todo|
        invariant order == old(order) + KeysOf(namespace, todo[..i])
        invariant rows == Stored(old(rows), namespace, todo[..i], computed[..i])
      {
        assert todo[..i + 1][..i] == todo[..i] && computed[..i + 1][..i] == computed[..i];
        assert KeysOf(namespace, todo[..i + 1]) == KeysOf(namespace, todo[..i]) + [Key(namespace, todo[i])];
        order := order + [Key(namespace, todo[i])];
        rows := rows[Key(namespace, todo[i]) := computed[i]];
      }
      assert todo[..|todo|] == todo && computed[..|computed|] == computed;
    }

    /** self.rows.move_to_end(k) for every requested key. */
    method MoveToEnd(keys: seq<Key>)
      modifies this`order
      ensures order == TouchAll(old(order), keys)
    {
      for i := 0 to |keys|
        invariant order == TouchAll(old(order), keys[..i])
      {
        assert keys[..i + 1] == keys[..i] + [keys[i]];
        TouchLast(old(order), keys[..i], keys[i]);
        order := Remove(order, keys[i]) + [keys[i]];
      }
      assert keys[..|keys|] == keys;
    }

    /** popitem(last=False) while over capacity. */
    method Evict()
      requires Distinct(order) && rows.Keys == AsSet(order)
      modifies this`order, this`rows
      ensures order == LastN(old(order), capacity) && rows.Keys == AsSet(order)
      ensures |order| == (if |old(order)| <= capacity then |old(order)| else capacity)
      ensures order == old(order)[|old(order)| - |order|..]
      ensures Part(rows, old(rows))
    {
      ghost var n := 0;
      while |order| > capacity
        invariant n <= |old(order)| && order == old(order)[n..] && (n == 0 || |order| >= capacity)
        invariant rows.Keys == AsSet(order) && Distinct(order)
        invariant Part(rows, old(rows))
      {
        DropOldest(order);
        rows := rows - {order[0]};
        order := order[1..];
        n := n + 1;
      }
    }
  }

  /** A request's misses make room for themselves: facts about the lists, before any of it is stored. */
  lemma {:induction false} RequestFacts(rows: map<Key, Vec>, order: seq<Key>, history: seq<Key>, namespace: string, texts: seq<string>, n: nat)
    requires order == LastN(Recency(history), n) && rows.Keys == AsSet(order)
    ensures var keys, extra := KeysOf(namespace, texts), KeysOf(namespace, Missing(rows, namespace, texts));
      && Distinct(TouchAll(order + extra, keys))
      && AsSet(TouchAll(order + extra, keys)) == rows.Keys + AsSet(extra)
      && (forall i :: 0 <= i < |keys| ==> keys[i] in rows.Keys + AsSet(extra))
      && LastN(TouchAll(order + extra, keys), n) == LastN(Recency(history + keys), n)
  {
    var keys, extra := KeysOf(namespace, texts), KeysOf(namespace, Missing(rows, namespace, texts));
    TodoKeys(rows, namespace, texts);
    RetainedDistinct(history, n);
    AppendDistinct(order, extra);
    BatchRecency(history, order, extra, keys, n);
    TouchAllDistinct(order + extra, keys);
    RequestPresent(rows, namespace, texts);
    assert AsSet(order + extra) == rows.Keys + AsSet(extra);
  }

  lemma {:induction false} RequestPresent(rows: map<Key, Vec>, namespace: string, texts: seq<string>)
    ensures forall i :: 0 <= i < |texts| ==>
      KeysOf(namespace, texts)[i] in rows.Keys + AsSet(KeysOf(namespace, Missing(rows, namespace, texts)))
  {
    TodoKeys(rows, namespace, texts);
    var keys := KeysOf(namespace, texts);
    assert forall i :: 0 <= i < |texts| ==> keys[i] in keys;
  }

  lemma {:induction false} TodoKeys(rows: map<Key, Vec>, namespace: string, texts: seq<string>)
    ensures var ks := KeysOf(namespace, Missing(rows, namespace, texts));
      && Distinct(ks)
      && (forall k :: k in ks <==> k in KeysOf(namespace, texts) && k !in rows)
  {
    var todo := Missing(rows, namespace, texts);
    var ks, all := KeysOf(namespace, todo), KeysOf(namespace, texts);
    forall k | k in ks ensures k in all && k !in rows {
      var i :| 0 <= i < |ks| && ks[i] == k;
      assert todo[i] in todo;
      var j :| 0 <= j < |texts| && texts[j] == todo[i];
      assert all[j] == k;
    }
    forall k | k in all && k !in rows ensures k in ks {
      var j :| 0 <= j < |all| && all[j] == k;
      assert texts[j] in todo;
      var i :| 0 <= i < |todo| && todo[i] == texts[j];
      assert ks[i] == k;
    }
  }

  lemma {:induction false} RetainedDistinct(history: seq<Key>, capacity: nat)
    ensures Distinct(LastN(Recency(history), capacity))
  {
    RecencyDistinct(history);
  }

  lemma {:induction false} AppendDistinct(a: seq<Key>, b: seq<Key>)
    requires Distinct(a) && Distinct(b) && forall k :: k in b ==> k !in a
    ensures Distinct(a + b)
  {
    forall i, j | 0 <= i < j < |a + b| ensures (a + b)[i] != (a + b)[j] {
      if i < |a| <= j {
        assert (a + b)[j] in b && (a + b)[i] in a;
      }
    }
  }
}
