/** Sliding-window attention by blocks (script/embed/gemma_text.py): the banded path over key
    blocks b-1, b, b+1, the dense windowed path and the short path admit the same keys.

    The head dimension is never reshaped, so a tensor element here is a whole head vector. */
module Banded {
  import opened Options
  import opened Tensors

  type Vec = seq<real>

  /** Attention arithmetic: `attend(q, kvs)` over the admitted pairs in key order, `level(kvs)`
      what masked scores alone give. */
  datatype Soft = Soft(attend: (Vec, seq<(Vec, Vec)>) -> Vec, level: seq<(Vec, Vec)> -> Vec)

  // ---- Admitted keys as a selection from an interval of positions ----

  /** f(q) for the q in [lo, hi) with ok(q), in order. */
  function Select<T>(lo: int, hi: int, ok: int -> bool, f: int -> T): seq<T>
    decreases hi - lo
  {
    if hi <= lo then []
    else Select(lo, hi - 1, ok, f) + (if ok(hi - 1) then [f(hi - 1)] else [])
  }

  lemma {:induction false} SelectSame<T>(lo: int, hi: int, ok: int -> bool, f: int -> T, ok': int -> bool, f': int -> T)
    requires forall q :: lo <= q < hi ==> ok(q) == ok'(q)
    requires forall q :: lo <= q < hi && ok(q) ==> f(q) == f'(q)
    ensures Select(lo, hi, ok, f) == Select(lo, hi, ok', f')
    decreases hi - lo
  {
    if lo < hi {
      SelectSame(lo, hi - 1, ok, f, ok', f');
    }
  }

  /** Positions where nothing is admitted may be added at either end. */
  lemma {:induction false} SelectWider<T>(lo: int, hi: int, lo': int, hi': int, ok: int -> bool, f: int -> T)
    requires lo <= lo' <= hi' <= hi
    requires forall q :: lo <= q < lo' || hi' <= q < hi ==> !ok(q)
    ensures Select(lo, hi, ok, f) == Select(lo', hi', ok, f)
    decreases hi - lo
  {
    if hi' < hi {
      SelectWider(lo, hi - 1, lo', hi', ok, f);
    } else if lo' < hi {
      SelectWider(lo, hi - 1, lo', hi - 1, ok, f);
    } else if lo < hi {
      SelectNone(lo, hi, ok, f);
    }
  }

  lemma {:induction false} SelectNone<T>(lo: int, hi: int, ok: int -> bool, f: int -> T)
    requires forall q :: lo <= q < hi ==> !ok(q)
    ensures Select(lo, hi, ok, f) == []
    decreases hi - lo
  {
    if lo < hi {
      SelectNone(lo, hi - 1, ok, f);
    }
  }

  lemma {:induction false} SelectShift<T>(lo: int, hi: int, d: int, ok: int -> bool, f: int -> T,
                                          ok': int -> bool, f': int -> T)
    requires forall s :: lo <= s < hi ==> ok'(s) == ok(s + d)
    requires forall s :: lo <= s < hi && ok'(s) ==> f'(s) == f(s + d)
    ensures Select(lo, hi, ok', f') == Select(lo + d, hi + d, ok, f)
    decreases hi - lo
  {
    if lo < hi {
      SelectShift(lo, hi - 1, d, ok, f, ok', f');
    }
  }

  lemma {:induction false} SelectSome<T>(lo: int, hi: int, ok: int -> bool, f: int -> T, q: int)
    requires lo <= q < hi && ok(q)
    ensures Select(lo, hi, ok, f) != []
    decreases hi - lo
  {
    if q < hi - 1 {
      SelectSome(lo, hi - 1, ok, f, q);
    }
  }

  // ---- scaled_dot_product_attention ----

  /** One query over n keys, given which it sees. */
  function SdpaAt(soft: Soft, q: Vec, k: seq<Vec>, v: seq<Vec>, ok: int -> bool): Vec
    requires |k| == |v|
  {
    var admitted := Select(0, |k|, ok, Pairs(k, v));
    if admitted == [] then soft.level(Select(0, |k|, (j: int) => true, Pairs(k, v))) else soft.attend(q, admitted)
  }

  function Pairs(k: seq<Vec>, v: seq<Vec>): int -> (Vec, Vec)
    requires |k| == |v|
  {
    (j: int) => if 0 <= j < |k| then (k[j], v[j]) else ([], [])
  }

  /** q is [rows, heads, nq], k and v are [rows, kvHeads, nk]; heads share key heads in consecutive
      groups, and sees(r, i) are the keys query i of row r sees. */
  function Sdpa(soft: Soft, q: T3<Vec>, k: T3<Vec>, v: T3<Vec>, sees: (nat, nat) -> int -> bool,
                rows: nat, heads: nat, kvHeads: nat, nq: nat, nk: nat): (o: T3<Vec>)
    requires Shape3(q, rows, heads, nq) && Shape3(k, rows, kvHeads, nk) && Shape3(v, rows, kvHeads, nk)
    requires kvHeads > 0 && heads % kvHeads == 0
    ensures Shape3(o, rows, heads, nq)
    ensures forall r, h :: 0 <= r < rows && 0 <= h < heads ==>
      o[r][h] == SdpaHead(soft, q[r][h], k[r][Group(h, heads, kvHeads)], v[r][Group(h, heads, kvHeads)], r, sees)
  {
    seq(rows, r requires 0 <= r < rows =>
      seq(heads, h requires 0 <= h < heads =>
        SdpaHead(soft, q[r][h], k[r][Group(h, heads, kvHeads)], v[r][Group(h, heads, kvHeads)], r, sees)))
  }

  function SdpaHead(soft: Soft, q: seq<Vec>, k: seq<Vec>, v: seq<Vec>, r: nat, sees: (nat, nat) -> int -> bool): (o: seq<Vec>)
    requires |k| == |v|
    ensures |o| == |q|
  {
    seq(|q|, i requires 0 <= i < |q| => SdpaAt(soft, q[i], k, v, sees(r, i)))
  }

  function Group(h: nat, heads: nat, kvHeads: nat): (g: nat)
    requires kvHeads > 0 && heads % kvHeads == 0 && h < heads
    ensures g < kvHeads
  {
    var size := heads / kvHeads;
    assert heads == kvHeads * size;
    assert size > 0;
    DivLess(h, kvHeads, size);
    h / size
  }

  lemma {:induction false} DivLess(f: nat, n: nat, size: nat)
    requires size > 0 && f < n * size
    ensures f / size < n
  {
    var q := f / size;
    assert f == q * size + f % size;
    if q >= n {
      Room(n, q + 1, size);
    }
  }

  // ---- The index maps of `banded` ----

  /** mx.pad by c on both sides of the last axis. */
  function Pad<T>(x: seq<T>, c: nat, zero: T): (r: seq<T>)
    ensures |r| == |x| + 2 * c
  {
    seq(c, _ => zero) + x + seq(c, _ => zero)
  }

  /** The slices [0:n], [1:n+1], [2:n+2] of the padded blocks, stacked: each block between its neighbours. */
  function Windows<T>(p: seq<seq<T>>, n: nat, c: nat): (r: T3<T>)
    requires Shape2(p, n + 2, c)
    ensures Shape3(r, n, 3, c)
  {
    var left, mid, right := p[0..n], p[1..n + 1], p[2..n + 2];
    seq(n, b requires 0 <= b < n => [left[b], mid[b], right[b]])
  }

  lemma {:induction false} PaddedLength(n: nat, c: nat)
    ensures n * c + 2 * c == (n + 2) * c
  {
  }

  /** mx.reshape merging the three neighbours of a window. */
  function Join3<T>(w: seq<seq<T>>, ghost c: nat): (r: seq<T>)
    requires Shape2(w, 3, c)
    ensures |r| == 3 * c && r == w[0] + w[1] + w[2]
  {
    assert w == [w[0]] + [w[1]] + [w[2]];
    assert w[1..] == [w[1]] + [w[2]] && w[1..][1..] == [w[2]] && w[1..][1..][1..] == [];
    assert Flatten(w) == w[0] + Flatten(w[1..]);
    assert Flatten(w[1..]) == w[1] + Flatten(w[1..][1..]);
    assert Flatten(w[1..][1..]) == w[2] + [];
    Flatten(w)
  }

  /** One head's key blocks: pad, cut into blocks, stack neighbours, merge the window. */
  function HeadBlocks<T>(x: seq<T>, n: nat, c: nat, zero: T): (r: seq<seq<T>>)
    requires |x| == n * c
    ensures Shape2(r, n, 3 * c)
  {
    PaddedLength(n, c);
    JoinAll(Windows(Chunks(Pad(x, c, zero), n + 2, c), n, c), n, c)
  }

  function JoinAll<T>(w: T3<T>, n: nat, ghost c: nat): (r: seq<seq<T>>)
    requires Shape3(w, n, 3, c)
    ensures Shape2(r, n, 3 * c)
  {
    seq(n, b requires 0 <= b < n => Join3(w[b], c))
  }

  /** Block b holds the padded positions b*c .. b*c + 3c, that is keys (b-1)*c .. (b+2)*c. */
  lemma {:induction false} HeadBlocksAt<T>(x: seq<T>, n: nat, c: nat, zero: T, b: nat)
    requires |x| == n * c && b < n
    ensures b * c + 3 * c <= |x| + 2 * c
    ensures HeadBlocks(x, n, c, zero)[b] == Pad(x, c, zero)[b * c..b * c + 3 * c]
  {
    PaddedLength(n, c);
    var p := Pad(x, c, zero);
    Room(b + 2, n + 2, c);
    JoinChunks(p, n + 2, c, b);
  }

  lemma {:induction false} JoinChunks<T>(p: seq<T>, n: nat, c: nat, b: nat)
    requires |p| == n * c && b + 2 < n
    ensures b * c + 3 * c <= |p|
    ensures Chunk(p, n, c, b) + Chunk(p, n, c, b + 1) + Chunk(p, n, c, b + 2) == p[b * c..b * c + 3 * c]
  {
    var at := b * c;
    Room(b + 2, n, c);
    assert (b + 1) * c == at + c && (b + 2) * c == at + 2 * c;
  }

  /** blocks(t): [rows, heads, n * c] to [rows * n, heads, 3 * c]. */
  function Blocks<T>(t: T3<T>, rows: nat, heads: nat, n: nat, c: nat, zero: T): (r: T3<T>)
    requires Shape3(t, rows, heads, n * c)
    ensures |r| == rows * n
  {
    var w: T4<T> := seq(rows, r requires 0 <= r < rows =>
      seq(heads, h requires 0 <= h < heads => HeadBlocks(t[r][h], n, c, zero)));
    var s := Swap12(w, rows, heads, n, 3 * c);
    FlattenLength(s, rows, n);
    Flatten(s)
  }

  lemma {:induction false} BlocksAt<T>(t: T3<T>, rows: nat, heads: nat, n: nat, c: nat, zero: T, r: nat, b: nat, rb: nat)
    requires Shape3(t, rows, heads, n * c) && r < rows && b < n && rb == r * n + b
    ensures rb < rows * n
    ensures Shape2(Blocks(t, rows, heads, n, c, zero)[rb], heads, 3 * c)
    ensures forall h :: 0 <= h < heads ==>
      Blocks(t, rows, heads, n, c, zero)[rb][h] == HeadBlocks(t[r][h], n, c, zero)[b]
  {
    var w: T4<T> := seq(rows, r requires 0 <= r < rows =>
      seq(heads, h requires 0 <= h < heads => HeadBlocks(t[r][h], n, c, zero)));
    var s := Swap12(w, rows, heads, n, 3 * c);
    FlattenAt(s, rows, n, r, b);
  }

  /** The key mask through the same pad, cut and stack: [rows, n * c] to [rows * n, 3 * c]. */
  function MaskBlocks(mask: seq<seq<bool>>, rows: nat, n: nat, c: nat): (r: seq<seq<bool>>)
    requires Shape2(mask, rows, n * c)
    ensures |r| == rows * n
  {
    var w: T3<bool> := seq(rows, r requires 0 <= r < rows => HeadBlocks(mask[r], n, c, false));
    FlattenLength(w, rows, n);
    Flatten(w)
  }

  lemma {:induction false} MaskBlocksAt(mask: seq<seq<bool>>, rows: nat, n: nat, c: nat, r: nat, b: nat, rb: nat)
    requires Shape2(mask, rows, n * c) && r < rows && b < n && rb == r * n + b
    ensures rb < rows * n && MaskBlocks(mask, rows, n, c)[rb] == HeadBlocks(mask[r], n, c, false)[b]
  {
    var w: T3<bool> := seq(rows, r requires 0 <= r < rows => HeadBlocks(mask[r], n, c, false));
    FlattenAt(w, rows, n, r, b);
  }

  /** q.reshape(B, H, n, C).transpose(0, 2, 1, 3).reshape(B * n, H, C) */
  function QueryBlocks<T>(t: T3<T>, rows: nat, heads: nat, n: nat, c: nat): (r: T3<T>)
    requires Shape3(t, rows, heads, n * c)
    ensures |r| == rows * n
  {
    var w: T4<T> := seq(rows, r requires 0 <= r < rows =>
      seq(heads, h requires 0 <= h < heads => Chunks(t[r][h], n, c)));
    var s := Swap12(w, rows, heads, n, c);
    FlattenLength(s, rows, n);
    Flatten(s)
  }

  lemma {:induction false} QueryBlocksAt<T>(t: T3<T>, rows: nat, heads: nat, n: nat, c: nat, r: nat, b: nat, rb: nat)
    requires Shape3(t, rows, heads, n * c) && r < rows && b < n && rb == r * n + b
    ensures rb < rows * n && Shape2(QueryBlocks(t, rows, heads, n, c)[rb], heads, c)
    ensures forall h :: 0 <= h < heads ==> QueryBlocks(t, rows, heads, n, c)[rb][h] == Chunk(t[r][h], n, c, b)
  {
    var w: T4<T> := seq(rows, r requires 0 <= r < rows =>
      seq(heads, h requires 0 <= h < heads => Chunks(t[r][h], n, c)));
    FlattenAt(Swap12(w, rows, heads, n, c), rows, n, r, b);
  }

  lemma {:induction false} ChunksShape<T>(o: T3<T>, rows: nat, n: nat, heads: nat, c: nat)
    requires Shape3(o, rows * n, heads, c)
    ensures Shape4(Chunks(o, rows, n), rows, n, heads, c)
  {
    forall r, b | 0 <= r < rows && 0 <= b < n ensures Shape2(Chunks(o, rows, n)[r][b], heads, c) {
      Digit(r, rows, b, n);
      ChunkAt(o, rows, n, r, b, r * n + b);
    }
  }

  /** o.reshape(B, n, H, C).transpose(0, 2, 1, 3).reshape(B, H, L) */
  function Unblock<T>(o: T3<T>, rows: nat, heads: nat, n: nat, c: nat): (r: T3<T>)
    requires Shape3(o, rows * n, heads, c)
    ensures Shape3(r, rows, heads, n * c)
  {
    ChunksShape(o, rows, n, heads, c);
    var s := Swap12(Chunks(o, rows, n), rows, n, heads, c);
    seq(rows, r requires 0 <= r < rows =>
      seq(heads, h requires 0 <= h < heads => Join(s[r][h], n, c)))
  }

  lemma {:induction false} UnblockAt<T>(o: T3<T>, rows: nat, heads: nat, n: nat, c: nat, r: nat, h: nat, b: nat, i: nat, rb: nat, p: nat)
    requires Shape3(o, rows * n, heads, c) && r < rows && h < heads && b < n && i < c
    requires rb == r * n + b && p == b * c + i
    ensures rb < rows * n && p < n * c && Unblock(o, rows, heads, n, c)[r][h][p] == o[rb][h][i]
  {
    ChunksShape(o, rows, n, heads, c);
    var s := Swap12(Chunks(o, rows, n), rows, n, heads, c);
    FlattenAt(s[r][h], n, c, b, i);
    ChunkAt(o, rows, n, r, b, rb);
  }

  /** All of QueryBlocks, Blocks and MaskBlocks are rectangular. */
  lemma {:induction false} BlockShapes(q: T3<Vec>, k: T3<Vec>, rows: nat, heads: nat, kvHeads: nat, n: nat, c: nat, zero: Vec)
    requires Shape3(q, rows, heads, n * c) && Shape3(k, rows, kvHeads, n * c)
    ensures Shape3(QueryBlocks(q, rows, heads, n, c), rows * n, heads, c)
    ensures Shape3(Blocks(k, rows, kvHeads, n, c, zero), rows * n, kvHeads, 3 * c)
  {
    forall rb | 0 <= rb < rows * n
      ensures Shape2(QueryBlocks(q, rows, heads, n, c)[rb], heads, c)
      ensures Shape2(Blocks(k, rows, kvHeads, n, c, zero)[rb], kvHeads, 3 * c)
    {
      var r, b := Lead(rb, rows, n);
      QueryBlocksAt(q, rows, heads, n, c, r, b, rb);
      BlocksAt(k, rows, kvHeads, n, c, zero, r, b, rb);
    }
  }

  // ---- The three paths ----

  function Abs(x: int): nat {
    if x < 0 then -x else x
  }

  /** A row of m["band"]: real keys of the three blocks within c of the query, c being the query's own offset. */
  function BandRow(kv: seq<bool>, c: nat, i: nat): int -> bool {
    (s: int) => 0 <= s < |kv| && kv[s] && Abs(i - s + c) <= c
  }

  function Band(kv: seq<seq<bool>>, c: nat): (nat, nat) -> int -> bool {
    (rb: nat, i: nat) => if rb < |kv| then BandRow(kv[rb], c, i) else (s: int) => false
  }

  /** A row of m["full"] without a window, of m["slide"] with one: real keys, within the window. */
  function DenseRow(mask: seq<bool>, window: Option<nat>, i: nat): int -> bool {
    (j: int) => 0 <= j < |mask| && mask[j] && (window.Some? ==> Abs(i - j) <= window.value)
  }

  function Dense(mask: seq<seq<bool>>, window: Option<nat>): (nat, nat) -> int -> bool {
    (r: nat, i: nat) => if r < |mask| then DenseRow(mask[r], window, i) else (j: int) => false
  }

  /** The attention over blocks, before its rows are put back. */
  function BlockAttention(soft: Soft, q: T3<Vec>, k: T3<Vec>, v: T3<Vec>, mask: seq<seq<bool>>,
                          rows: nat, heads: nat, kvHeads: nat, n: nat, c: nat): (o: T3<Vec>)
    requires Shape3(q, rows, heads, n * c) && Shape3(k, rows, kvHeads, n * c) && Shape3(v, rows, kvHeads, n * c)
    requires Shape2(mask, rows, n * c) && kvHeads > 0 && heads % kvHeads == 0
    ensures Shape3(o, rows * n, heads, c)
  {
    BlockShapes(q, k, rows, heads, kvHeads, n, c, []);
    BlockShapes(q, v, rows, heads, kvHeads, n, c, []);
    Sdpa(soft, QueryBlocks(q, rows, heads, n, c), Blocks(k, rows, kvHeads, n, c, []),
         Blocks(v, rows, kvHeads, n, c, []), Band(MaskBlocks(mask, rows, n, c), c),
         rows * n, heads, kvHeads, c, 3 * c)
  }

  function BandedAttention(soft: Soft, q: T3<Vec>, k: T3<Vec>, v: T3<Vec>, mask: seq<seq<bool>>,
                           rows: nat, heads: nat, kvHeads: nat, n: nat, c: nat): (o: T3<Vec>)
    requires Shape3(q, rows, heads, n * c) && Shape3(k, rows, kvHeads, n * c) && Shape3(v, rows, kvHeads, n * c)
    requires Shape2(mask, rows, n * c) && kvHeads > 0 && heads % kvHeads == 0
    ensures Shape3(o, rows, heads, n * c)
  {
    Unblock(BlockAttention(soft, q, k, v, mask, rows, heads, kvHeads, n, c), rows, heads, n, c)
  }

  /** A block of 3c slots whose first slot is position d: padding outside [0, |x|). */
  ghost predicate IsBlock<T>(block: seq<T>, x: seq<T>, c: nat, zero: T, d: int) {
    && |block| == 3 * c
    && forall s :: 0 <= s < 3 * c ==> block[s] == if 0 <= s + d < |x| then x[s + d] else zero
  }

  lemma {:induction false} HeadBlockIs<T>(x: seq<T>, n: nat, c: nat, zero: T, b: nat)
    requires |x| == n * c && b < n
    ensures IsBlock(HeadBlocks(x, n, c, zero)[b], x, c, zero, b * c - c)
  {
    HeadBlocksAt(x, n, c, zero, b);
    PadSlice(x, c, zero, b * c);
  }

  lemma {:induction false} PadSlice<T>(x: seq<T>, c: nat, zero: T, at: nat)
    requires at + 3 * c <= |x| + 2 * c
    ensures IsBlock(Pad(x, c, zero)[at..at + 3 * c], x, c, zero, at - c)
  {
  }

  /** The keys a block's query i selects are the keys within c of its position, in order. */
  lemma {:induction false} BandSelects(k: seq<Vec>, v: seq<Vec>, mask: seq<bool>, kb: seq<Vec>, vb: seq<Vec>, mb: seq<bool>,
                    c: nat, d: int, i: nat, p: nat)
    requires |k| == |v| == |mask| && i < c && p == d + c + i && p < |k|
    requires IsBlock(kb, k, c, [], d) && IsBlock(vb, v, c, [], d) && IsBlock(mb, mask, c, false, d)
    ensures Select(0, 3 * c, BandRow(mb, c, i), Pairs(kb, vb)) == Select(0, |k|, DenseRow(mask, Some(c), p), Pairs(k, v))
  {
    var L, ok, pairs := |k|, DenseRow(mask, Some(c), p), Pairs(k, v);
    SelectShift(0, 3 * c, d, ok, pairs, BandRow(mb, c, i), Pairs(kb, vb));
    var lo, hi := if d < 0 then 0 else d, if 3 * c + d > L then L else 3 * c + d;
    SelectWider(d, 3 * c + d, lo, hi, ok, pairs);
    SelectWider(0, L, lo, hi, ok, pairs);
  }

  /** A query of a block, when some key near it is real. */
  lemma {:induction false} BlockQuery(soft: Soft, qv: Vec, k: seq<Vec>, v: seq<Vec>, mask: seq<bool>, kb: seq<Vec>, vb: seq<Vec>,
                   mb: seq<bool>, c: nat, d: int, i: nat, p: nat, near: nat)
    requires |k| == |v| == |mask| && i < c && p == d + c + i && p < |k|
    requires IsBlock(kb, k, c, [], d) && IsBlock(vb, v, c, [], d) && IsBlock(mb, mask, c, false, d)
    requires near < |k| && DenseRow(mask, Some(c), p)(near)
    ensures SdpaAt(soft, qv, kb, vb, BandRow(mb, c, i)) == SdpaAt(soft, qv, k, v, DenseRow(mask, Some(c), p))
  {
    BandSelects(k, v, mask, kb, vb, mb, c, d, i, p);
    SelectSome(0, |k|, DenseRow(mask, Some(c), p), Pairs(k, v), near);
  }

  /** What query i of block b gets from the three blocks of its row and head. */
  function BlockAnswer(soft: Soft, qv: Vec, k: seq<Vec>, v: seq<Vec>, mask: seq<bool>, n: nat, c: nat, b: nat, i: nat): Vec
    requires |k| == |v| == |mask| == n * c && b < n && i < c
  {
    SdpaAt(soft, qv, HeadBlocks(k, n, c, [])[b], HeadBlocks(v, n, c, [])[b], BandRow(HeadBlocks(mask, n, c, false)[b], c, i))
  }

  /** Query i of block b attends the three blocks of its own row and head. */
  lemma {:induction false} BlockAttentionAt(soft: Soft, q: T3<Vec>, k: T3<Vec>, v: T3<Vec>, mask: seq<seq<bool>>,
                         rows: nat, heads: nat, kvHeads: nat, n: nat, c: nat, r: nat, h: nat, g: nat, b: nat, i: nat,
                         rb: nat)
    requires Shape3(q, rows, heads, n * c) && Shape3(k, rows, kvHeads, n * c) && Shape3(v, rows, kvHeads, n * c)
    requires Shape2(mask, rows, n * c) && kvHeads > 0 && heads % kvHeads == 0
    requires r < rows && h < heads && b < n && i < c && rb == r * n + b && g == Group(h, heads, kvHeads)
    ensures rb < rows * n
    ensures BlockAttention(soft, q, k, v, mask, rows, heads, kvHeads, n, c)[rb][h][i]
         == BlockAnswer(soft, Chunk(q[r][h], n, c, b)[i], k[r][g], v[r][g], mask[r], n, c, b, i)
  {
    BlockShapes(q, k, rows, heads, kvHeads, n, c, []);
    BlockShapes(q, v, rows, heads, kvHeads, n, c, []);
    QueryBlocksAt(q, rows, heads, n, c, r, b, rb);
    BlocksAt(k, rows, kvHeads, n, c, [], r, b, rb);
    BlocksAt(v, rows, kvHeads, n, c, [], r, b, rb);
    MaskBlocksAt(mask, rows, n, c, r, b, rb);
  }

  lemma {:induction false} BandedAt(soft: Soft, q: T3<Vec>, k: T3<Vec>, v: T3<Vec>, mask: seq<seq<bool>>,
                 rows: nat, heads: nat, kvHeads: nat, n: nat, c: nat, r: nat, h: nat, g: nat, b: nat, i: nat, rb: nat, p: nat)
    requires Shape3(q, rows, heads, n * c) && Shape3(k, rows, kvHeads, n * c) && Shape3(v, rows, kvHeads, n * c)
    requires Shape2(mask, rows, n * c) && kvHeads > 0 && heads % kvHeads == 0
    requires r < rows && h < heads && b < n && i < c && p == b * c + i
    requires g == Group(h, heads, kvHeads) && rb == r * n + b
    ensures p < n * c
    ensures BandedAttention(soft, q, k, v, mask, rows, heads, kvHeads, n, c)[r][h][p]
      == BlockAnswer(soft, q[r][h][p], k[r][g], v[r][g], mask[r], n, c, b, i)
  {
    BlockAttentionAt(soft, q, k, v, mask, rows, heads, kvHeads, n, c, r, h, g, b, i, rb);
    BandedIsBlock(soft, q, k, v, mask, rows, heads, kvHeads, n, c, r, h, b, i, rb, p);
    ChunkAt(q[r][h], n, c, b, i, p);
  }

  /** Where the banded path's output at a position comes from. */
  lemma {:induction false} BandedIsBlock(soft: Soft, q: T3<Vec>, k: T3<Vec>, v: T3<Vec>, mask: seq<seq<bool>>,
                      rows: nat, heads: nat, kvHeads: nat, n: nat, c: nat, r: nat, h: nat, b: nat, i: nat, rb: nat, p: nat)
    requires Shape3(q, rows, heads, n * c) && Shape3(k, rows, kvHeads, n * c) && Shape3(v, rows, kvHeads, n * c)
    requires Shape2(mask, rows, n * c) && kvHeads > 0 && heads % kvHeads == 0
    requires r < rows && h < heads && b < n && i < c && rb == r * n + b && p == b * c + i
    ensures rb < rows * n && p < n * c
    ensures BandedAttention(soft, q, k, v, mask, rows, heads, kvHeads, n, c)[r][h][p]
         == BlockAttention(soft, q, k, v, mask, rows, heads, kvHeads, n, c)[rb][h][i]
  {
    UnblockAt(BlockAttention(soft, q, k, v, mask, rows, heads, kvHeads, n, c), rows, heads, n, c, r, h, b, i, rb, p);
  }

  lemma {:induction false} NearBlock(soft: Soft, qv: Vec, k: seq<Vec>, v: seq<Vec>, mask: seq<bool>, n: nat, c: nat, b: nat, i: nat,
                  p: nat, near: nat)
    requires |k| == |v| == |mask| == n * c && b < n && i < c && p == b * c + i
    requires near < n * c && DenseRow(mask, Some(c), p)(near)
    ensures BlockAnswer(soft, qv, k, v, mask, n, c, b, i) == SdpaAt(soft, qv, k, v, DenseRow(mask, Some(c), p))
  {
    HeadBlockIs(k, n, c, [], b);
    HeadBlockIs(v, n, c, [], b);
    HeadBlockIs(mask, n, c, false, b);
    Digit(b, n, i, c);
    BlockQuery(soft, qv, k, v, mask, HeadBlocks(k, n, c, [])[b], HeadBlocks(v, n, c, [])[b],
               HeadBlocks(mask, n, c, false)[b], c, b * c - c, i, p, near);
  }

  lemma {:induction false} RowBlock(r: nat, n: nat, b: nat) returns (rb: nat)
    ensures rb == r * n + b
  {
    rb := r * n + b;
  }

  /** The same where the key's head and the block of the position are known. */
  lemma {:induction false} DenseInBlock(soft: Soft, q: T3<Vec>, k: T3<Vec>, v: T3<Vec>, mask: seq<seq<bool>>,
                     rows: nat, heads: nat, kvHeads: nat, n: nat, c: nat, r: nat, h: nat, g: nat, b: nat, i: nat, p: nat,
                     near: nat)
    requires Shape3(q, rows, heads, n * c) && Shape3(k, rows, kvHeads, n * c) && Shape3(v, rows, kvHeads, n * c)
    requires Shape2(mask, rows, n * c) && kvHeads > 0 && heads % kvHeads == 0
    requires r < rows && h < heads && b < n && i < c && p == b * c + i < n * c && g == Group(h, heads, kvHeads)
    requires near < n * c && DenseRow(mask[r], Some(c), p)(near)
    ensures BandedAttention(soft, q, k, v, mask, rows, heads, kvHeads, n, c)[r][h][p]
         == SdpaAt(soft, q[r][h][p], k[r][g], v[r][g], DenseRow(mask[r], Some(c), p))
  {
    var qv, ks, vs, ms := q[r][h][p], k[r][g], v[r][g], mask[r];
    assert |ks| == n * c && |vs| == n * c && |ms| == n * c;
    NearBlock(soft, qv, ks, vs, ms, n, c, b, i, p, near);
    var rb := RowBlock(r, n, b);
    BandedAt(soft, q, k, v, mask, rows, heads, kvHeads, n, c, r, h, g, b, i, rb, p);
  }

  /** With an admitted key, the banded path gives what dense windowed attention gives, for every
      row, head and query position. */
  lemma {:induction false} BandedIsDense(soft: Soft, q: T3<Vec>, k: T3<Vec>, v: T3<Vec>, mask: seq<seq<bool>>,
                      rows: nat, heads: nat, kvHeads: nat, n: nat, c: nat, r: nat, h: nat, p: nat, near: nat)
    requires Shape3(q, rows, heads, n * c) && Shape3(k, rows, kvHeads, n * c) && Shape3(v, rows, kvHeads, n * c)
    requires Shape2(mask, rows, n * c) && kvHeads > 0 && heads % kvHeads == 0
    requires r < rows && h < heads && p < n * c
    requires near < n * c && DenseRow(mask[r], Some(c), p)(near)
    ensures BandedAttention(soft, q, k, v, mask, rows, heads, kvHeads, n, c)[r][h][p]
         == SdpaAt(soft, q[r][h][p], k[r][Group(h, heads, kvHeads)], v[r][Group(h, heads, kvHeads)],
                   DenseRow(mask[r], Some(c), p))
  {
    var b, i := Lead(p, n, c);
    DenseInBlock(soft, q, k, v, mask, rows, heads, kvHeads, n, c, r, h, Group(h, heads, kvHeads), b, i, p, near);
  }
}
