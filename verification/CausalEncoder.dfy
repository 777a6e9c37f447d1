/** The last-token encoder (src-clm/src/seon_clm/encoder.py): right-padded batches of similar
    lengths give every text the vector it has alone, in the fewest possible forward passes. */
module CausalEncoder {
  import opened Sorting
  import opened Tensors
  import opened Packing

  type Tok = int
  type Vec = seq<real>

  /** A causal transformer layer: the key and value of a state at its position, and the new state from the
      old one and the keys and values its query admits. */
  datatype Layer = Layer(kv: (nat, Vec) -> (Vec, Vec), out: (nat, Vec, seq<(Vec, Vec)>) -> Vec)

  /** Embeddings, layers and final norm; `l2` normalises. */
  datatype Body = Body(embed: Tok -> Vec, layers: seq<Layer>, norm: Vec -> Vec, l2: Vec -> Vec)

  /** What the query at p admits under the causal mask, of the positions from j on, in order. */
  function Admitted(l: Layer, h: seq<Vec>, p: nat, j: nat): seq<(Vec, Vec)>
    requires j <= |h|
    decreases |h| - j
  {
    if j == |h| then [] else (if p >= j then [l.kv(j, h[j])] else []) + Admitted(l, h, p, j + 1)
  }

  function LayerStates(l: Layer, h: seq<Vec>): (r: seq<Vec>)
    ensures |r| == |h|
  {
    seq(|h|, p requires 0 <= p < |h| => l.out(p, h[p], Admitted(l, h, p, 0)))
  }

  /** The states after k layers. */
  function After(body: Body, k: nat, x: seq<Tok>): (h: seq<Vec>)
    requires k <= |body.layers|
    ensures |h| == |x|
  {
    if k == 0 then seq(|x|, p requires 0 <= p < |x| => body.embed(x[p]))
    else LayerStates(body.layers[k - 1], After(body, k - 1, x))
  }

  /** body(x) of one row: the final state of every position. */
  function States(body: Body, x: seq<Tok>): (h: seq<Vec>)
    ensures |h| == |x|
  {
    var h := After(body, |body.layers|, x);
    seq(|x|, p requires 0 <= p < |x| => body.norm(h[p]))
  }

  /** The text's vector: the final state of its last token when the text is encoded alone. */
  function LastState(body: Body, t: seq<Tok>): Vec
    requires t != []
  {
    States(body, t)[|t| - 1]
  }

  // ---- One text alone, written out position by position ----

  /** The states after k layers: a position's query attends the keys and values up to its own, in order. */
  function StatesAt(body: Body, k: nat, t: seq<Tok>): (h: seq<Vec>)
    requires k <= |body.layers|
    ensures |h| == |t|
  {
    if k == 0 then seq(|t|, p requires 0 <= p < |t| => body.embed(t[p]))
    else
      var l, h := body.layers[k - 1], StatesAt(body, k - 1, t);
      seq(|t|, p requires 0 <= p < |t| => l.out(p, h[p], seq(p + 1, j requires 0 <= j <= p => l.kv(j, h[j]))))
  }

  /** The normed final state of the last token. */
  function VectorAt(body: Body, t: seq<Tok>): Vec
    requires t != []
  {
    body.norm(StatesAt(body, |body.layers|, t)[|t| - 1])
  }

  lemma {:induction false} AdmittedAre(l: Layer, h: seq<Vec>, p: nat, j: nat)
    requires j <= p + 1 <= |h|
    ensures Admitted(l, h, p, j) == seq(p + 1 - j, i requires 0 <= i < p + 1 - j => l.kv(j + i, h[j + i]))
    decreases p + 1 - j
  {
    if j == p + 1 {
      AdmittedPast(l, h, p, j);
    } else {
      AdmittedAre(l, h, p, j + 1);
    }
  }

  lemma {:induction false} AfterIs(body: Body, k: nat, t: seq<Tok>)
    requires k <= |body.layers|
    ensures After(body, k, t) == StatesAt(body, k, t)
  {
    if k > 0 {
      AfterIs(body, k - 1, t);
      var l, h := body.layers[k - 1], After(body, k - 1, t);
      forall p | 0 <= p < |t| ensures LayerStates(l, h)[p] == StatesAt(body, k, t)[p] {
        AdmittedAre(l, h, p, 0);
        assert Admitted(l, h, p, 0) == seq(p + 1, j requires 0 <= j <= p => l.kv(j, h[j]));
      }
    }
  }

  lemma {:induction false} LastStateIs(body: Body, t: seq<Tok>)
    requires t != []
    ensures LastState(body, t) == VectorAt(body, t)
  {
    AfterIs(body, |body.layers|, t);
  }

  // ---- Padding after a text does not reach it ----

  lemma {:induction false} AdmittedPast(l: Layer, h: seq<Vec>, p: nat, j: nat)
    requires p < j <= |h|
    ensures Admitted(l, h, p, j) == []
    decreases |h| - j
  {
    if j < |h| { AdmittedPast(l, h, p, j + 1); }
  }

  lemma {:induction false} AdmittedCut(l: Layer, h: seq<Vec>, n: nat, p: nat, j: nat)
    requires p < n && j <= n <= |h|
    ensures Admitted(l, h, p, j) == Admitted(l, h[..n], p, j)
    decreases n - j
  {
    if j < n {
      AdmittedCut(l, h, n, p, j + 1);
    } else {
      AdmittedPast(l, h, p, n);
    }
  }

  lemma {:induction false} LayerCut(l: Layer, h: seq<Vec>, n: nat)
    requires n <= |h|
    ensures LayerStates(l, h)[..n] == LayerStates(l, h[..n])
  {
    forall p | 0 <= p < n ensures LayerStates(l, h)[p] == LayerStates(l, h[..n])[p] {
      AdmittedCut(l, h, n, p, 0);
    }
  }

  lemma {:induction false} AfterCut(body: Body, k: nat, x: seq<Tok>, n: nat)
    requires k <= |body.layers| && n <= |x|
    ensures After(body, k, x)[..n] == After(body, k, x[..n])
  {
    if k > 0 {
      AfterCut(body, k - 1, x, n);
      LayerCut(body.layers[k - 1], After(body, k - 1, x), n);
    }
  }

  /** The states of a text do not depend on what is appended to it. */
  lemma {:induction false} StatesCut(body: Body, t: seq<Tok>, pad: seq<Tok>)
    ensures States(body, t + pad)[..|t|] == States(body, t)
  {
    var x := t + pad;
    assert x[..|t|] == t;
    AfterCut(body, |body.layers|, x, |t|);
    forall p | 0 <= p < |t| ensures States(body, x)[p] == States(body, t)[p] {
      assert After(body, |body.layers|, x)[..|t|][p] == After(body, |body.layers|, x)[p];
    }
  }

  const BUCKET := 64

  function Bucket(n: nat): nat {
    (n + BUCKET - 1) / BUCKET * BUCKET
  }

  lemma {:induction false} BucketBounds(n: nat)
    ensures n <= Bucket(n) < n + BUCKET && Bucket(n) % BUCKET == 0
  {
  }

  lemma {:induction false} BucketMonotone(n: nat, m: nat)
    requires n <= m
    ensures Bucket(n) <= Bucket(m)
  {
  }

  function TextLengths(rows: seq<seq<Tok>>): (lens: seq<nat>)
    ensures |lens| == |rows|
  {
    seq(|rows|, i requires 0 <= i < |rows| => |rows[i]|)
  }

  function Buckets(lens: seq<nat>): (bs: seq<nat>)
    ensures |bs| == |lens|
  {
    seq(|lens|, i requires 0 <= i < |lens| => Bucket(lens[i]))
  }

  function Sum(lens: seq<nat>): nat {
    if lens == [] then 0 else Sum(lens[..|lens| - 1]) + lens[|lens| - 1]
  }

  /** `_forward`: pad to the bucket of the longest row, read each row's last real position. */
  method ForwardRows(body: Body, rows: seq<seq<Tok>>) returns (v: seq<Vec>)
    requires rows != [] && forall r :: 0 <= r < |rows| ==> rows[r] != []
    ensures |v| == |rows| && forall r :: 0 <= r < |rows| ==> v[r] == LastState(body, rows[r])
  {
    var lens := TextLengths(rows);
    var longest := MaxLen(lens, seq(|rows|, r requires 0 <= r < |rows| => r));
    BucketBounds(longest);
    var width := Bucket(longest);
    forall r | 0 <= r < |rows| ensures |rows[r]| <= width {
      assert lens[seq(|rows|, r requires 0 <= r < |rows| => r)[r]] <= longest;
    }
    var x := seq(|rows|, r requires 0 <= r < |rows| => rows[r] + seq(width - |rows[r]|, _ => 0));
    v := seq(|rows|, r requires 0 <= r < |rows| => States(body, x[r])[|rows[r]| - 1]);
    forall r | 0 <= r < |rows| ensures v[r] == LastState(body, rows[r]) {
      StatesCut(body, rows[r], seq(width - |rows[r]|, _ => 0));
      assert States(body, x[r])[..|rows[r]|][|rows[r]| - 1] == v[r];
    }
  }

  /** The sweep so far: batches up to place s, and the count the whole sweep will come to. */
  ghost predicate AscSwept(lens: seq<nat>, order: seq<nat>, budget: int, batches: seq<seq<nat>>, s: nat)
    requires forall c :: 0 <= c < |order| ==> order[c] < |lens|
  {
    && s <= |order| && Flatten(batches) == order[..s]
    && (forall k :: 0 <= k < |batches| ==> GoodBatch(lens, budget, batches[k]))
    && |batches| + AscCount(Lengths(lens, order), budget, s) == AscCount(Lengths(lens, order), budget, 0)
  }

  lemma {:induction false} AscFlush(lens: seq<nat>, order: seq<nat>, budget: int, batches: seq<seq<nat>>, s: nat, e: nat)
    requires (forall c :: 0 <= c < |order| ==> order[c] < |lens|) && Rising(Lengths(lens, order))
    requires AscSwept(lens, order, budget, batches, s) && s < e <= |order|
    requires e == AscEnd(Lengths(lens, order), budget, s, s + 1)
    ensures AscSwept(lens, order, budget, batches + [order[s..e]], e)
  {
    var ls := Lengths(lens, order);
    AscHolds(ls, budget, s, s + 1);
    assert forall c :: s <= c < e ==> lens[order[c]] == ls[c] <= ls[e - 1];
    PieceIsGood(lens, order, budget, s, e, ls[e - 1]);
    FlattenMore(batches, order[s..e]);
    assert order[..s] + order[s..e] == order[..e];
  }

  /** The inner loop: j moves while one more text, padded to its own bucket, fits the budget. */
  method BatchEnd(buckets: seq<nat>, order: seq<nat>, budget: int, i: nat) returns (j: nat)
    requires (forall c :: 0 <= c < |order| ==> order[c] < |buckets|) && i < |order|
    ensures i < j <= |order| && j == AscEnd(Lengths(buckets, order), budget, i, i + 1)
  {
    ghost var ls := Lengths(buckets, order);
    j := i + 1;
    while j < |order| && Fits(buckets[order[j]], j - i + 1, budget)
      invariant i < j <= |order| && AscEnd(ls, budget, i, i + 1) == AscEnd(ls, budget, i, j)
      decreases |order| - j
    {
      j := j + 1;
    }
  }

  /** Encoder.embed: each text's own vector in its place, the token total, and (as `batches`) the
      fewest forward passes any batching within the same padded budget could use. */
  method Embed(body: Body, rows: seq<seq<Tok>>, batchTokens: int)
    returns (out: array<Vec>, tokens: nat, ghost batches: seq<seq<nat>>)
    requires forall i :: 0 <= i < |rows| ==> rows[i] != []
    ensures fresh(out) && out.Length == |rows|
    ensures forall i :: 0 <= i < |rows| ==> out[i] == body.l2(LastState(body, rows[i]))
    ensures forall i :: 0 <= i < |rows| ==> out[i] == body.l2(VectorAt(body, rows[i]))
    ensures tokens == Sum(TextLengths(rows))
    ensures Optimal(Buckets(TextLengths(rows)), batchTokens, Order(TextLengths(rows)), batches)
  {
    out := new Vec[|rows|](_ => []);
    batches := SweepAll(body, rows, batchTokens, out);
    Normalise(body, out);
    forall i | 0 <= i < |rows| ensures LastState(body, rows[i]) == VectorAt(body, rows[i]) {
      LastStateIs(body, rows[i]);
    }
    tokens := Sum(TextLengths(rows));
  }

  /** The sweep over the texts by length: every text's own state in its place. */
  method SweepAll(body: Body, rows: seq<seq<Tok>>, batchTokens: int, out: array<Vec>) returns (ghost batches: seq<seq<nat>>)
    requires out.Length == |rows| && forall i :: 0 <= i < |rows| ==> rows[i] != []
    modifies out
    ensures forall i :: 0 <= i < |rows| ==> out[i] == LastState(body, rows[i])
    ensures Optimal(Buckets(TextLengths(rows)), batchTokens, Order(TextLengths(rows)), batches)
  {
    var lens := TextLengths(rows);
    var order := Order(lens);
    OrderRises(lens);
    batches := SweepRows(body, rows, Buckets(lens), order, batchTokens, out);
    assert order[..|order|] == order;
    AscPackingIsOptimal(Buckets(lens), order, batchTokens, batches);
    forall i | 0 <= i < |rows| ensures out[i] == LastState(body, rows[i]) {
      assert i in order;
    }
  }

  /** l2(out) */
  method Normalise(body: Body, out: array<Vec>)
    modifies out
    ensures forall a :: 0 <= a < out.Length ==> out[a] == body.l2(old(out[a]))
  {
    for i := 0 to out.Length
      invariant forall a :: 0 <= a < i ==> out[a] == body.l2(old(out[a]))
      invariant forall a :: i <= a < out.Length ==> out[a] == old(out[a])
    {
      out[i] := body.l2(out[i]);
    }
  }

  lemma {:induction false} OrderRises(lens: seq<nat>)
    ensures Rising(Lengths(Buckets(lens), Order(lens)))
  {
    var order := Order(lens);
    forall a, b | 0 <= a < b < |order|
      ensures Lengths(Buckets(lens), order)[a] <= Lengths(Buckets(lens), order)[b]
    {
      BucketMonotone(lens[order[a]], lens[order[b]]);
    }
  }

  /** out[idx] = self._forward([rows[k] for k in idx]) */
  method PlaceBatch(body: Body, rows: seq<seq<Tok>>, idx: seq<nat>, out: array<Vec>)
    requires |rows| == out.Length && idx != [] && forall i :: 0 <= i < |rows| ==> rows[i] != []
    requires forall k :: 0 <= k < |idx| ==> idx[k] < |rows|
    modifies out
    ensures forall k :: 0 <= k < |idx| ==> out[idx[k]] == LastState(body, rows[idx[k]])
    ensures forall a :: 0 <= a < out.Length ==> out[a] == if a in idx then LastState(body, rows[a]) else old(out[a])
  {
    var v := ForwardRows(body, seq(|idx|, k requires 0 <= k < |idx| => rows[idx[k]]));
    for k := 0 to |idx|
      invariant forall a :: 0 <= a < out.Length ==>
        out[a] == if a in idx[..k] then LastState(body, rows[a]) else old(out[a])
    {
      out[idx[k]] := v[k];
    }
    assert idx[..|idx|] == idx;
  }

  /** The outer loop, writing each batch's rows to their places. */
  method SweepRows(body: Body, rows: seq<seq<Tok>>, buckets: seq<nat>, order: seq<nat>, batchTokens: int, out: array<Vec>)
    returns (ghost batches: seq<seq<nat>>)
    requires |buckets| == |rows| == out.Length && forall i :: 0 <= i < |rows| ==> rows[i] != []
    requires (forall c :: 0 <= c < |order| ==> order[c] < |buckets|) && Rising(Lengths(buckets, order))
    modifies out
    ensures AscSwept(buckets, order, batchTokens, batches, |order|)
    ensures forall a :: 0 <= a < |order| ==> out[order[a]] == LastState(body, rows[order[a]])
  {
    batches := [];
    var i: nat := 0;
    while i < |order|
      invariant AscSwept(buckets, order, batchTokens, batches, i)
      invariant forall a :: 0 <= a < i ==> out[order[a]] == LastState(body, rows[order[a]])
    {
      var j := BatchEnd(buckets, order, batchTokens, i);
      var idx := order[i..j];
      PlaceBatch(body, rows, idx, out);
      assert forall a :: i <= a < j ==> order[a] == idx[a - i];
      AscFlush(buckets, order, batchTokens, batches, i, j);
      batches := batches + [idx];
      i := j;
    }
  }
}
