/** The two budgeted packers: longest-first `pack_batches` (src-needle/src/seon_needle/extend.py)
    and shortest-first `Encoder.embed` (src-clm/src/seon_clm/encoder.py). Both use as few batches
    as any packing under the same budget can. */
module Packing {
  import opened Sorting
  import opened Tensors
  import opened SetSizes

  // ---- What any packing is ----

  /** A batch is a set of indices; alone it may exceed the budget, in company it may not. */
  ghost predicate Feasible(lens: seq<nat>, budget: int, b: set<nat>) {
    && b != {}
    && (forall i :: i in b ==> i < |lens|)
    && (|b| >= 2 ==> forall i :: i in b ==> |b| * lens[i] <= budget)
  }

  /** A packing of the indices in `all`: feasible batches that use it up, each index once. */
  ghost predicate IsPacking(lens: seq<nat>, budget: int, all: set<nat>, p: seq<set<nat>>) {
    if p == [] then all == {}
    else Feasible(lens, budget, p[0]) && p[0] <= all && IsPacking(lens, budget, all - p[0], p[1..])
  }

  function Without<T>(p: seq<T>, k: nat): (q: seq<T>)
    requires k < |p|
    ensures |q| == |p| - 1
  {
    p[..k] + p[k + 1..]
  }

  lemma {:induction false} BatchOf(lens: seq<nat>, budget: int, all: set<nat>, p: seq<set<nat>>, m: nat) returns (k: nat)
    requires IsPacking(lens, budget, all, p) && m in all
    ensures k < |p| && m in p[k]
  {
    if m in p[0] {
      k := 0;
    } else {
      var k' := BatchOf(lens, budget, all - p[0], p[1..], m);
      k := k' + 1;
    }
  }

  /** Any batch may be taken out of a packing. */
  lemma {:induction false} PackingWithout(lens: seq<nat>, budget: int, all: set<nat>, p: seq<set<nat>>, k: nat)
    requires IsPacking(lens, budget, all, p) && k < |p|
    ensures Feasible(lens, budget, p[k]) && p[k] <= all
    ensures IsPacking(lens, budget, all - p[k], Without(p, k))
  {
    if k == 0 {
      assert Without(p, 0) == p[1..];
    } else {
      PackingWithout(lens, budget, all - p[0], p[1..], k - 1);
      assert Without(p, k)[1..] == Without(p[1..], k - 1);
      assert all - p[k] - p[0] == all - p[0] - p[k];
    }
  }

  /** An index of greatest length. */
  lemma {:induction false} Longest(lens: seq<nat>, all: set<nat>) returns (m: nat)
    requires all != {} && forall i :: i in all ==> i < |lens|
    ensures m in all && forall i :: i in all ==> lens[i] <= lens[m]
    decreases |all|
  {
    m :| m in all;
    if all != {m} {
      var m' := Longest(lens, all - {m});
      if lens[m'] > lens[m] { m := m'; }
    }
  }

  /** Padded size of n rows of length l, n * l, by repeated addition so that counting batches needs no
      multiplication. */
  function Padded(n: nat, l: nat): nat {
    if n == 0 then 0 else l + Padded(n - 1, l)
  }

  lemma {:induction false} PaddedIs(n: nat, l: nat)
    ensures Padded(n, l) == n * l
  {
    if n > 0 {
      PaddedIs(n - 1, l);
      assert n * l == l + (n - 1) * l;
    }
  }

  lemma {:induction false} PaddedMono(n: nat, l: nat, n': nat, l': nat)
    requires n' <= n && l' <= l
    ensures Padded(n', l') <= Padded(n, l)
  {
    if n' > 0 {
      PaddedMono(n - 1, l, n' - 1, l');
    }
  }

  /** Whether count rows padded to l keep the budget. */
  predicate Fits(l: nat, count: nat, budget: int): (r: bool)
    ensures r == (Padded(count, l) <= budget)
  {
    PaddedIs(count, l);
    l * count <= budget
  }

  // ---- Longest first ----

  /** Most texts a batch whose longest has length l can hold. */
  predicate Holds(budget: int, l: nat, n: nat) {
    n <= 1 || Padded(n, l) <= budget
  }

  lemma {:induction false} FeasibleHolds(lens: seq<nat>, budget: int, b: set<nat>, m: nat)
    requires Feasible(lens, budget, b) && m in b
    ensures Holds(budget, lens[m], |b|)
  {
    PaddedIs(|b|, lens[m]);
  }

  lemma {:induction false} HoldsFewer(budget: int, l: nat, n: nat, l': nat, n': nat)
    requires Holds(budget, l, n) && l' <= l && n' <= n
    ensures Holds(budget, l', n')
  {
    PaddedMono(n, l, n', l');
  }

  /** Lengths in the order the packer visits them. */
  function Lengths(lens: seq<nat>, order: seq<nat>): (ls: seq<nat>)
    requires forall a :: 0 <= a < |order| ==> order[a] < |lens|
    ensures |ls| == |order|
  {
    seq(|order|, a requires 0 <= a < |order| => lens[order[a]])
  }

  ghost predicate Descending(ls: seq<nat>) {
    forall a, b :: 0 <= a < b < |ls| ==> ls[a] >= ls[b]
  }

  /** The end of the longest-first batch that starts at place s, found so far to reach e. */
  function DescEnd(ls: seq<nat>, budget: int, s: nat, e: nat): (r: nat)
    requires s < e <= |ls|
    ensures e <= r <= |ls|
    decreases |ls| - e
  {
    if e < |ls| && Padded(e - s + 1, ls[s]) <= budget then DescEnd(ls, budget, s, e + 1) else e
  }

  /** Number of longest-first batches for ls[s..]. */
  function DescCount(ls: seq<nat>, budget: int, s: nat): nat
    requires s <= |ls|
    decreases |ls| - s
  {
    if s == |ls| then 0 else 1 + DescCount(ls, budget, DescEnd(ls, budget, s, s + 1))
  }

  /** The batch takes all the places it could. */
  lemma {:induction false} DescReach(ls: seq<nat>, budget: int, s: nat, e: nat, n: nat)
    requires s < e <= s + n <= |ls| && Holds(budget, ls[s], n)
    ensures s + n <= DescEnd(ls, budget, s, e)
    decreases |ls| - e
  {
    if e < s + n {
      HoldsFewer(budget, ls[s], n, ls[s], e - s + 1);
      DescReach(ls, budget, s, e + 1, n);
    }
  }

  lemma {:induction false} DescHolds(ls: seq<nat>, budget: int, s: nat, e: nat)
    requires s < e <= |ls| && Holds(budget, ls[s], e - s)
    ensures Holds(budget, ls[s], DescEnd(ls, budget, s, e) - s)
    decreases |ls| - e
  {
    if e < |ls| && Padded(e - s + 1, ls[s]) <= budget {
      DescHolds(ls, budget, s, e + 1);
    }
  }

  /** Starting later never needs more batches. */
  lemma {:induction false} DescMonotone(ls: seq<nat>, budget: int, s: nat, t: nat)
    requires s <= t <= |ls| && Descending(ls)
    ensures DescCount(ls, budget, t) <= DescCount(ls, budget, s)
    decreases |ls| - s
  {
    if t < |ls| {
      var e, f := DescEnd(ls, budget, s, s + 1), DescEnd(ls, budget, t, t + 1);
      if e <= t {
        DescMonotone(ls, budget, e, t);
      } else {
        DescHolds(ls, budget, s, s + 1);
        HoldsFewer(budget, ls[s], e - s, ls[t], e - t);
        DescReach(ls, budget, t, t + 1, e - t);
        DescMonotone(ls, budget, e, f);
      }
    }
  }

  /** Any packing of a set of indices has at least as many batches as the greedy one needs for equally
      many of the shortest texts: induction on the packing, removing the batch of a longest index. */
  lemma {:induction false} DescOptimal(lens: seq<nat>, order: seq<nat>, budget: int, all: set<nat>, p: seq<set<nat>>)
    requires IsOrder(order, |lens|) && Descending(Lengths(lens, order))
    requires IsPacking(lens, budget, all, p) && forall i :: i in all ==> i < |lens|
    ensures |all| <= |order|
    ensures DescCount(Lengths(lens, order), budget, |order| - |all|) <= |p|
    decreases |p|
  {
    AllBounded(all, |lens|);
    if all != {} {
      var m := Longest(lens, all);
      var k := BatchOf(lens, budget, all, p, m);
      PackingWithout(lens, budget, all, p, k);
      DescOptimal(lens, order, budget, all - p[k], Without(p, k));
      FeasibleHolds(lens, budget, p[k], m);
      DescOne(lens, order, budget, all, p[k], m);
    }
  }

  lemma {:induction false} DescOne(lens: seq<nat>, order: seq<nat>, budget: int, all: set<nat>, b: set<nat>, m: nat)
    requires IsOrder(order, |lens|) && Descending(Lengths(lens, order)) && |all| <= |order|
    requires (forall i :: i in all ==> i < |lens|) && b <= all
    requires m in b && Holds(budget, lens[m], |b|) && forall i :: i in all ==> lens[i] <= lens[m]
    ensures DescCount(Lengths(lens, order), budget, |order| - |all|)
         <= 1 + DescCount(Lengths(lens, order), budget, |order| - |all - b|)
  {
    var ls, s := Lengths(lens, order), |order| - |all|;
    assert all == (all - b) + b;
    RankOfLongest(lens, order, all, m);
    HoldsFewer(budget, lens[m], |b|, ls[s], |b|);
    Smaller({m}, b);
    DescReach(ls, budget, s, s + 1, |b|);
    DescMonotone(ls, budget, s + |b|, DescEnd(ls, budget, s, s + 1));
  }

  lemma {:induction false} AllBounded(all: set<nat>, n: nat)
    requires forall i :: i in all ==> i < n
    ensures |all| <= n
  {
    if n == 0 {
      assert all == {};
    } else {
      AllBounded(all - {n - 1}, n - 1);
    }
  }

  /** The longest of a set cannot be shorter than the text that leaves room for the whole set after it. */
  lemma {:induction false} RankOfLongest(lens: seq<nat>, order: seq<nat>, all: set<nat>, m: nat)
    requires IsOrder(order, |lens|) && Descending(Lengths(lens, order)) && all != {} && |all| <= |order|
    requires forall i :: i in all ==> i < |lens|
    requires m in all && forall i :: i in all ==> lens[i] <= lens[m]
    ensures Lengths(lens, order)[|order| - |all|] <= lens[m]
  {
    var ls := Lengths(lens, order);
    var s := |order| - |all|;
    if ls[s] > lens[m] {
      var later := Tail(order, s + 1);
      forall i | i in all ensures i in later {
        assert i in order;
        var a :| 0 <= a < |order| && order[a] == i;
        assert ls[a] <= lens[m] < ls[s];
      }
      CountOrder(order, s + 1);
      Smaller(all, later);
    }
  }

  /** The texts from place s on. */
  ghost function Tail(order: seq<nat>, s: nat): set<nat> {
    set a | s <= a < |order| :: order[a]
  }

  lemma {:induction false} CountOrder(order: seq<nat>, s: nat)
    requires s <= |order| && forall a, b :: 0 <= a < b < |order| ==> order[a] != order[b]
    ensures |Tail(order, s)| == |order| - s
    decreases |order| - s
  {
    if s < |order| {
      CountOrder(order, s + 1);
      assert Tail(order, s) == Tail(order, s + 1) + {order[s]};
    } else {
      assert Tail(order, s) == {};
    }
  }

  // ---- Shortest first ----

  ghost predicate Rising(ls: seq<nat>) {
    forall a, b :: 0 <= a < b < |ls| ==> ls[a] <= ls[b]
  }

  /** The end of the shortest-first batch that starts at place s, found so far to reach e. */
  function AscEnd(ls: seq<nat>, budget: int, s: nat, e: nat): (r: nat)
    requires s < e <= |ls|
    ensures e <= r <= |ls|
    decreases |ls| - e
  {
    if e < |ls| && Padded(e - s + 1, ls[e]) <= budget then AscEnd(ls, budget, s, e + 1) else e
  }

  function AscCount(ls: seq<nat>, budget: int, s: nat): nat
    requires s <= |ls|
    decreases |ls| - s
  {
    if s == |ls| then 0 else 1 + AscCount(ls, budget, AscEnd(ls, budget, s, s + 1))
  }

  /** The place reached after m shortest-first batches. */
  function AscAfter(ls: seq<nat>, budget: int, m: nat): (r: nat)
    ensures r <= |ls|
  {
    if m == 0 then 0
    else
      var s := AscAfter(ls, budget, m - 1);
      if s == |ls| then s else AscEnd(ls, budget, s, s + 1)
  }

  lemma {:induction false} AscReach(ls: seq<nat>, budget: int, s: nat, e: nat, t: nat)
    requires s < e <= t <= |ls| && Rising(ls) && Holds(budget, ls[t - 1], t - s)
    ensures t <= AscEnd(ls, budget, s, e)
    decreases |ls| - e
  {
    if e < t {
      HoldsFewer(budget, ls[t - 1], t - s, ls[e], e - s + 1);
      AscReach(ls, budget, s, e + 1, t);
    }
  }

  lemma {:induction false} AscHolds(ls: seq<nat>, budget: int, s: nat, e: nat)
    requires s < e <= |ls| && Holds(budget, ls[e - 1], e - s)
    ensures Holds(budget, ls[AscEnd(ls, budget, s, e) - 1], AscEnd(ls, budget, s, e) - s)
    decreases |ls| - e
  {
    if e < |ls| && Padded(e - s + 1, ls[e]) <= budget {
      AscHolds(ls, budget, s, e + 1);
    }
  }

  /** A set is no longer, at its longest, than the last of equally many shortest texts. */
  lemma {:induction false} RankAscending(lens: seq<nat>, order: seq<nat>, all: set<nat>, m: nat)
    requires IsOrder(order, |lens|) && Rising(Lengths(lens, order)) && all != {} && |all| <= |order|
    requires forall i :: i in all ==> i < |lens|
    requires m in all && forall i :: i in all ==> lens[i] <= lens[m]
    ensures Lengths(lens, order)[|all| - 1] <= lens[m]
  {
    var ls, n := Lengths(lens, order), |all|;
    if ls[n - 1] > lens[m] {
      forall i | i in all ensures i in Head(order, n - 1) {
        assert i in order;
        var a :| 0 <= a < |order| && order[a] == i;
        assert ls[a] <= lens[m] < ls[n - 1];
      }
      HeadSize(order, n - 1);
      Smaller(all, Head(order, n - 1));
    }
  }

  ghost function Head(order: seq<nat>, n: nat): set<nat> {
    set a | 0 <= a < |order| && a < n :: order[a]
  }

  lemma {:induction false} HeadSize(order: seq<nat>, n: nat)
    requires n <= |order|
    ensures |Head(order, n)| <= n
  {
    if n > 0 {
      HeadSize(order, n - 1);
      assert Head(order, n) == Head(order, n - 1) + {order[n - 1]};
    } else {
      assert Head(order, n) == {};
    }
  }

  /** In as many batches as any packing of a set has, the greedy sweep has covered at least as many
      texts: induction on the packing, removing the batch of a longest index. */
  lemma {:induction false} AscAhead(lens: seq<nat>, order: seq<nat>, budget: int, all: set<nat>, p: seq<set<nat>>)
    requires IsOrder(order, |lens|) && Rising(Lengths(lens, order))
    requires IsPacking(lens, budget, all, p) && forall i :: i in all ==> i < |lens|
    ensures |all| <= AscAfter(Lengths(lens, order), budget, |p|)
    decreases |p|
  {
    if all != {} {
      var m := Longest(lens, all);
      var k := BatchOf(lens, budget, all, p, m);
      PackingWithout(lens, budget, all, p, k);
      AscAhead(lens, order, budget, all - p[k], Without(p, k));
      FeasibleHolds(lens, budget, p[k], m);
      AscOne(lens, order, budget, all, p[k], m, |p|);
    }
  }

  lemma {:induction false} AscOne(lens: seq<nat>, order: seq<nat>, budget: int, all: set<nat>, b: set<nat>, m: nat, n: nat)
    requires IsOrder(order, |lens|) && Rising(Lengths(lens, order)) && n > 0
    requires (forall i :: i in all ==> i < |lens|) && b <= all
    requires m in b && Holds(budget, lens[m], |b|) && forall i :: i in all ==> lens[i] <= lens[m]
    requires |all - b| <= AscAfter(Lengths(lens, order), budget, n - 1)
    ensures |all| <= AscAfter(Lengths(lens, order), budget, n)
  {
    var ls := Lengths(lens, order);
    var s := AscAfter(ls, budget, n - 1);
    assert all == (all - b) + b;
    AllBounded(all, |lens|);
    if s < |all| {
      AscRoom(lens, order, budget, all, b, m, |all| - s);
      AscNext(ls, budget, n, |all|);
    }
  }

  /** The last of the |all| shortest texts can stand in a batch no larger than m's. */
  lemma {:induction false} AscRoom(lens: seq<nat>, order: seq<nat>, budget: int, all: set<nat>, b: set<nat>, m: nat, size: nat)
    requires IsOrder(order, |lens|) && Rising(Lengths(lens, order)) && |all| <= |order|
    requires forall i :: i in all ==> i < |lens|
    requires m in all && Holds(budget, lens[m], |b|) && forall i :: i in all ==> lens[i] <= lens[m]
    requires size <= |b|
    ensures Holds(budget, Lengths(lens, order)[|all| - 1], size)
  {
    RankAscending(lens, order, all, m);
    HoldsFewer(budget, lens[m], |b|, Lengths(lens, order)[|all| - 1], size);
  }

  lemma {:induction false} AscNext(ls: seq<nat>, budget: int, n: nat, t: nat)
    requires n > 0 && Rising(ls) && AscAfter(ls, budget, n - 1) < t <= |ls|
    requires Holds(budget, ls[t - 1], t - AscAfter(ls, budget, n - 1))
    ensures t <= AscAfter(ls, budget, n)
  {
    var s := AscAfter(ls, budget, n - 1);
    AscReach(ls, budget, s, s + 1, t);
  }

  /** A sweep that has covered everything after m batches needs at most m. */
  lemma {:induction false} AscEnough(ls: seq<nat>, budget: int, k: nat, m: nat)
    requires k <= m && AscAfter(ls, budget, m) == |ls|
    ensures AscCount(ls, budget, AscAfter(ls, budget, k)) <= m - k
    decreases m - k
  {
    if k < m {
      AscEnough(ls, budget, k + 1, m);
    }
  }

  lemma {:induction false} AscOptimal(lens: seq<nat>, order: seq<nat>, budget: int, all: set<nat>, p: seq<set<nat>>)
    requires IsOrder(order, |lens|) && Rising(Lengths(lens, order))
    requires IsPacking(lens, budget, all, p) && forall i :: i in all <==> 0 <= i < |lens|
    ensures AscCount(Lengths(lens, order), budget, 0) <= |p|
  {
    AscAhead(lens, order, budget, all, p);
    assert all == Tail(order, 0) by {
      assert forall i :: i in all ==> i in order;
    }
    CountOrder(order, 0);
    AscEnough(Lengths(lens, order), budget, 0, |p|);
  }

  // ---- The packers ----

  function AsSet(b: seq<nat>): set<nat> {
    set i | i in b
  }

  /** Every index below n. */
  function All(n: nat): (r: set<nat>)
    ensures forall i :: i in r <==> 0 <= i < n
  {
    if n == 0 then {} else All(n - 1) + {n - 1}
  }

  /** The batches as sets, and their concatenation as the sweep's order. */
  ghost function Sets(batches: seq<seq<nat>>): seq<set<nat>> {
    seq(|batches|, k requires 0 <= k < |batches| => AsSet(batches[k]))
  }

  ghost predicate GoodBatch(lens: seq<nat>, budget: int, b: seq<nat>) {
    && b != []
    && (forall a :: 0 <= a < |b| ==> b[a] < |lens|)
    && (|b| >= 2 ==> forall a :: 0 <= a < |b| ==> |b| * lens[b[a]] <= budget)
  }

  lemma {:induction false} SetOf(b: seq<nat>)
    requires forall a, c :: 0 <= a < c < |b| ==> b[a] != b[c]
    ensures |AsSet(b)| == |b|
  {
    if b != [] {
      SetOf(b[1..]);
      assert AsSet(b) == AsSet(b[1..]) + {b[0]};
    } else {
      assert AsSet(b) == {};
    }
  }

  /** Consecutive good pieces of an order are a packing. */
  lemma {:induction false} PiecesPack(lens: seq<nat>, budget: int, batches: seq<seq<nat>>)
    requires forall k :: 0 <= k < |batches| ==> GoodBatch(lens, budget, batches[k])
    requires forall a, c :: 0 <= a < c < |Flatten(batches)| ==> Flatten(batches)[a] != Flatten(batches)[c]
    ensures IsPacking(lens, budget, AsSet(Flatten(batches)), Sets(batches))
  {
    if batches != [] {
      var b, rest := batches[0], batches[1..];
      var all := Flatten(batches);
      assert all == b + Flatten(rest);
      assert forall a :: 0 <= a < |b| ==> all[a] == b[a];
      assert forall a :: 0 <= a < |Flatten(rest)| ==> all[|b| + a] == Flatten(rest)[a];
      PiecesPack(lens, budget, rest);
      SetOf(b);
      assert Sets(batches)[1..] == Sets(rest);
      assert AsSet(all) - AsSet(b) == AsSet(Flatten(rest));
      assert b[0] in AsSet(b);
    }
  }

  function MaxLen(lens: seq<nat>, idx: seq<nat>): (m: nat)
    requires forall a :: 0 <= a < |idx| ==> idx[a] < |lens|
    ensures forall a :: 0 <= a < |idx| ==> lens[idx[a]] <= m
    ensures m == 0 || exists a :: 0 <= a < |idx| && lens[idx[a]] == m
  {
    if idx == [] then 0
    else
      var n := |idx| - 1;
      var m := MaxLen(lens, idx[..n]);
      if lens[idx[n]] > m then lens[idx[n]] else m
  }

  /** What both packers promise: every index once, in the order of the sweep; batches of two or more
      within the budget; and no packing of the same texts with fewer batches. */
  ghost predicate Optimal(lens: seq<nat>, budget: int, order: seq<nat>, batches: seq<seq<nat>>) {
    && IsOrder(order, |lens|) && Flatten(batches) == order
    && (forall k :: 0 <= k < |batches| ==> GoodBatch(lens, budget, batches[k]))
    && IsPacking(lens, budget, All(|lens|), Sets(batches))
    && (forall p :: IsPacking(lens, budget, All(|lens|), p) ==> |batches| <= |p|)
  }

  lemma {:induction false} DescPackingIsOptimal(lens: seq<nat>, order: seq<nat>, budget: int, batches: seq<seq<nat>>)
    requires IsOrder(order, |lens|) && Descending(Lengths(lens, order)) && Flatten(batches) == order
    requires forall k :: 0 <= k < |batches| ==> GoodBatch(lens, budget, batches[k])
    requires |batches| == DescCount(Lengths(lens, order), budget, 0)
    ensures Optimal(lens, budget, order, batches)
  {
    PiecesPack(lens, budget, batches);
    assert AsSet(order) == All(|lens|);
    SetOf(order);
    forall p | IsPacking(lens, budget, All(|lens|), p) ensures |batches| <= |p| {
      DescOptimal(lens, order, budget, All(|lens|), p);
    }
  }

  lemma {:induction false} AscPackingIsOptimal(lens: seq<nat>, order: seq<nat>, budget: int, batches: seq<seq<nat>>)
    requires IsOrder(order, |lens|) && Rising(Lengths(lens, order)) && Flatten(batches) == order
    requires forall k :: 0 <= k < |batches| ==> GoodBatch(lens, budget, batches[k])
    requires |batches| == AscCount(Lengths(lens, order), budget, 0)
    ensures Optimal(lens, budget, order, batches)
  {
    PiecesPack(lens, budget, batches);
    assert AsSet(order) == All(|lens|);
    forall p | IsPacking(lens, budget, All(|lens|), p) ensures |batches| <= |p| {
      AscOptimal(lens, order, budget, All(|lens|), p);
    }
  }

  /** A piece of a descending order whose first length it can hold is a good batch. */
  lemma {:induction false} PieceIsGood(lens: seq<nat>, order: seq<nat>, budget: int, s: nat, e: nat, l: nat)
    requires s < e <= |order| && forall a :: 0 <= a < |order| ==> order[a] < |lens|
    requires Holds(budget, l, e - s) && forall a :: s <= a < e ==> lens[order[a]] <= l
    ensures GoodBatch(lens, budget, order[s..e])
  {
    forall a | 0 <= a < e - s && e - s >= 2 ensures (e - s) * lens[order[s..e][a]] <= budget {
      HoldsFewer(budget, l, e - s, lens[order[s + a]], e - s);
      PaddedIs(e - s, lens[order[s + a]]);
    }
  }

  /** key=lambda i: -enc_lengths[i] */
  function Negated(lens: seq<nat>): (keys: seq<int>)
    ensures |keys| == |lens|
  {
    var zero: int := 0;
    seq(|lens|, i requires 0 <= i < |lens| => zero - lens[i])
  }

  /** The sweep so far: flushed batches up to place s, the current one from s to a, and the count the
      whole sweep will come to. */
  ghost predicate DescSwept(lens: seq<nat>, order: seq<nat>, budget: int, batches: seq<seq<nat>>, s: nat, a: nat)
    requires forall c :: 0 <= c < |order| ==> order[c] < |lens|
  {
    && s <= a <= |order| && Flatten(batches) == order[..s]
    && (forall k :: 0 <= k < |batches| ==> GoodBatch(lens, budget, batches[k]))
    && |batches| + DescCount(Lengths(lens, order), budget, s) == DescCount(Lengths(lens, order), budget, 0)
    && (s < a ==> Holds(budget, Lengths(lens, order)[s], a - s))
    && (s < a ==> DescEnd(Lengths(lens, order), budget, s, s + 1) == DescEnd(Lengths(lens, order), budget, s, a))
  }

  /** Flushing is right when the next text does not fit, or there is none. */
  lemma {:induction false} DescFlush(lens: seq<nat>, order: seq<nat>, budget: int, batches: seq<seq<nat>>, s: nat, a: nat)
    requires (forall c :: 0 <= c < |order| ==> order[c] < |lens|) && Descending(Lengths(lens, order))
    requires DescSwept(lens, order, budget, batches, s, a) && s < a
    requires a < |order| ==> Padded(a - s + 1, Lengths(lens, order)[s]) > budget
    ensures DescSwept(lens, order, budget, batches + [order[s..a]], a, a)
  {
    var ls := Lengths(lens, order);
    assert forall c :: s <= c < a ==> lens[order[c]] == ls[c] <= ls[s];
    PieceIsGood(lens, order, budget, s, a, ls[s]);
    FlattenMore(batches, order[s..a]);
    assert order[..s] + order[s..a] == order[..a];
  }

  lemma {:induction false} DescGrow(lens: seq<nat>, order: seq<nat>, budget: int, batches: seq<seq<nat>>, s: nat, a: nat)
    requires forall c :: 0 <= c < |order| ==> order[c] < |lens|
    requires DescSwept(lens, order, budget, batches, s, a) && a < |order|
    requires s == a || Padded(a - s + 1, Lengths(lens, order)[s]) <= budget
    ensures DescSwept(lens, order, budget, batches, s, a + 1)
  {
  }

  lemma {:induction false} PieceMore(order: seq<nat>, s: nat, a: nat)
    requires s <= a < |order|
    ensures order[s..a] + [order[a]] == order[s..a + 1]
  {
  }

  /** One turn of pack_batches' loop: flush if text a does not fit, then take it. */
  method PlaceText(lens: seq<nat>, order: seq<nat>, budget: int, batches0: seq<seq<nat>>, current0: seq<nat>,
                   ghost s0: nat, a: nat)
    returns (batches: seq<seq<nat>>, current: seq<nat>, ghost s: nat)
    requires (forall c :: 0 <= c < |order| ==> order[c] < |lens|) && Descending(Lengths(lens, order))
    requires DescSwept(lens, order, budget, batches0, s0, a) && current0 == order[s0..a] && a < |order|
    ensures DescSwept(lens, order, budget, batches, s, a + 1) && s <= a && current == order[s..a + 1]
  {
    batches, current, s := batches0, current0, s0;
    var i := order[a];
    var longest := MaxLen(lens, current);
    var padded := if lens[i] > longest then lens[i] else longest;
    CurrentLongest(lens, order, current, s, a, padded);
    if current != [] && !Fits(padded, |current| + 1, budget) {
      DescFlush(lens, order, budget, batches, s, a);
      batches, current, s := batches + [current], [], a;
    }
    DescGrow(lens, order, budget, batches, s, a);
    PieceMore(order, s, a);
    current := current + [i];
  }

  /** The loop of pack_batches over its sorted order. */
  method PackOrder(lens: seq<nat>, order: seq<nat>, budget: int) returns (batches: seq<seq<nat>>)
    requires (forall c :: 0 <= c < |order| ==> order[c] < |lens|) && Descending(Lengths(lens, order))
    ensures DescSwept(lens, order, budget, batches, |order|, |order|)
  {
    batches := [];
    var current: seq<nat> := [];
    ghost var s: nat := 0;
    for a := 0 to |order|
      invariant DescSwept(lens, order, budget, batches, s, a) && current == order[s..a]
    {
      batches, current, s := PlaceText(lens, order, budget, batches, current, s, a);
    }
    if current != [] {
      DescFlush(lens, order, budget, batches, s, |order|);
      batches := batches + [current];
    }
  }

  /** pack_batches: indices longest first, a batch flushed when one more would break the budget. */
  method PackBatches(lens: seq<nat>, budget: int) returns (batches: seq<seq<nat>>)
    ensures Optimal(lens, budget, Order(Negated(lens)), batches)
  {
    var order := Order(Negated(lens));
    assert Descending(Lengths(lens, order));
    batches := PackOrder(lens, order, budget);
    assert order[..|order|] == order;
    DescPackingIsOptimal(lens, order, budget, batches);
  }

  /** In a descending order the padded length of the current batch is its first text's. */
  lemma {:induction false} CurrentLongest(lens: seq<nat>, order: seq<nat>, current: seq<nat>, s: nat, a: nat, padded: nat)
    requires s <= a < |order| && (forall c :: 0 <= c < |order| ==> order[c] < |lens|) && Descending(Lengths(lens, order))
    requires current == order[s..a]
    requires padded == if lens[order[a]] > MaxLen(lens, current) then lens[order[a]] else MaxLen(lens, current)
    ensures padded == lens[order[s]]
  {
    var ls := Lengths(lens, order);
    assert ls[a] == lens[order[a]] && ls[s] == lens[order[s]];
    assert forall c :: 0 <= c < |current| ==> lens[current[c]] == ls[s + c];
    if s < a {
      assert lens[current[0]] == ls[s];
    }
  }
}
