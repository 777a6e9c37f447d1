/** The text embedder (script/embed/gemma_text.py): what a padded batch computes for each of its
    rows is what the model computes for that text alone. */
module GemmaText {
  import opened Options
  import opened Tensors
  import opened Banded
  import opened Sorting

  type Tok = int

  /** One transformer layer. `combine(x, a, p)` is everything after the attention at a position. */
  datatype Layer = Layer(
    sliding: bool, heads: nat, kvHeads: nat, inNorm: Vec -> Vec,
    qHead: (nat, Vec) -> Vec, kHead: (nat, Vec) -> Vec, vHead: (nat, Vec) -> Vec, rope: (Vec, nat) -> Vec,
    out: seq<Vec> -> Vec, combine: (Vec, Vec, Vec) -> Vec)

  /** `pool` takes the final states of the real positions to the embedding; `cut` shortens and
      renormalises an embedding. */
  datatype Net = Net(
    window: nat, dim: nat, soft: Soft, embed: Tok -> Vec, ple: (nat, Vec) -> Vec, layers: seq<Layer>,
    pool: seq<Vec> -> Vec, cut: (Vec, nat) -> Vec)
  {
    ghost predicate Valid() {
      && window > 0
      && forall l :: 0 <= l < |layers| ==> layers[l].kvHeads > 0 && layers[l].heads % layers[l].kvHeads == 0
    }
  }

  // ---- One text alone, with dense windowed attention and no padding ----

  function Keys(lay: Layer, g: nat, x: seq<Vec>): (k: seq<Vec>)
    ensures |k| == |x|
  {
    seq(|x|, p requires 0 <= p < |x| => lay.rope(lay.kHead(g, lay.inNorm(x[p])), p))
  }

  function Values(lay: Layer, g: nat, x: seq<Vec>): (v: seq<Vec>)
    ensures |v| == |x|
  {
    seq(|x|, p requires 0 <= p < |x| => lay.vHead(g, lay.inNorm(x[p])))
  }

  function QueryAt(lay: Layer, h: nat, x: Vec, p: nat): Vec {
    lay.rope(lay.qHead(h, lay.inNorm(x)), p)
  }

  function Trues(n: nat): (m: seq<bool>)
    ensures |m| == n && forall j :: 0 <= j < n ==> m[j]
  {
    seq(n, _ => true)
  }

  function Window(net: Net, lay: Layer): Option<nat> {
    if lay.sliding then Some(net.window) else None
  }

  function AloneHead(net: Net, lay: Layer, x: seq<Vec>, p: nat, h: nat): Vec
    requires lay.kvHeads > 0 && lay.heads % lay.kvHeads == 0 && h < lay.heads && p < |x|
  {
    var g := Group(h, lay.heads, lay.kvHeads);
    SdpaAt(net.soft, QueryAt(lay, h, x[p], p), Keys(lay, g, x), Values(lay, g, x), DenseRow(Trues(|x|), Window(net, lay), p))
  }

  function AloneLayer(net: Net, l: nat, x: seq<Vec>, x0: seq<Vec>): (r: seq<Vec>)
    requires net.Valid() && l < |net.layers| && |x0| == |x|
    ensures |r| == |x|
  {
    var lay := net.layers[l];
    seq(|x|, p requires 0 <= p < |x| =>
      lay.combine(x[p], lay.out(seq(lay.heads, h requires 0 <= h < lay.heads => AloneHead(net, lay, x, p, h))),
                  net.ple(l, x0[p])))
  }

  function Embedded(net: Net, ids: seq<Tok>): seq<Vec> {
    seq(|ids|, p requires 0 <= p < |ids| => net.embed(ids[p]))
  }

  function AloneX(net: Net, l: nat, ids: seq<Tok>): (r: seq<Vec>)
    requires net.Valid() && l <= |net.layers|
    ensures |r| == |ids|
  {
    if l == 0 then Embedded(net, ids) else AloneLayer(net, l - 1, AloneX(net, l - 1, ids), Embedded(net, ids))
  }

  /** The embedding of one text. */
  function Embedding(net: Net, ids: seq<Tok>): Vec
    requires net.Valid()
  {
    net.pool(AloneX(net, |net.layers|, ids))
  }

  /** Matryoshka truncation, when the requested dimension is positive and smaller. */
  function Shrunk(net: Net, e: Vec, dim: Option<nat>): Vec {
    if dim.Some? && 0 < dim.value < net.dim then net.cut(e, dim.value) else e
  }

  // ---- One text alone, written out position by position ----

  /** The positions below n within the window of p, all of them without a window, in order. */
  function Near(window: Option<nat>, p: nat, n: nat): seq<nat> {
    if n == 0 then []
    else
      var j := n - 1;
      var near := window.None? || (if j < p then p - j else j - p) <= window.value;
      Near(window, p, n - 1) + (if near then [j] else [])
  }

  lemma {:induction false} NearBelow(window: Option<nat>, p: nat, n: nat)
    ensures forall a :: 0 <= a < |Near(window, p, n)| ==> Near(window, p, n)[a] < n
    ensures forall a, b :: 0 <= a < b < |Near(window, p, n)| ==> Near(window, p, n)[a] < Near(window, p, n)[b]
  {
    if n > 0 { NearBelow(window, p, n - 1); }
  }

  lemma {:induction false} NearExactly(window: Option<nat>, p: nat, n: nat, j: nat)
    ensures j in Near(window, p, n) <==> j < n && (window.Some? ==> p <= j + window.value && j <= p + window.value)
  {
    if n > 0 { NearExactly(window, p, n - 1, j); }
  }

  /** Head h at position p: the roped query attends the roped keys and the values of the head's group, at the
      positions it is near. */
  function HeadAt(net: Net, lay: Layer, x: seq<Vec>, p: nat, h: nat): Vec
    requires lay.kvHeads > 0 && lay.heads % lay.kvHeads == 0 && h < lay.heads && p < |x|
  {
    var g := GroupNumber(h, lay.heads, lay.kvHeads);
    var js := Near(if lay.sliding then Some(net.window) else None, p, |x|);
    NearBelow(if lay.sliding then Some(net.window) else None, p, |x|);
    net.soft.attend(lay.rope(lay.qHead(h, lay.inNorm(x[p])), p),
                    seq(|js|, a requires 0 <= a < |js| =>
                      (lay.rope(lay.kHead(g, lay.inNorm(x[js[a]])), js[a]), lay.vHead(g, lay.inNorm(x[js[a]])))))
  }

  /** Consecutive heads share a key-value head. */
  function GroupNumber(h: nat, heads: nat, kvHeads: nat): nat
    requires kvHeads > 0 && heads % kvHeads == 0 && h < heads
  {
    assert heads == kvHeads * (heads / kvHeads);
    h / (heads / kvHeads)
  }

  /** The states of a text after l layers. */
  function StatesAt(net: Net, l: nat, ids: seq<Tok>): (x: seq<Vec>)
    requires net.Valid() && l <= |net.layers|
    ensures |x| == |ids|
  {
    if l == 0 then seq(|ids|, p requires 0 <= p < |ids| => net.embed(ids[p]))
    else
      var lay, x := net.layers[l - 1], StatesAt(net, l - 1, ids);
      seq(|ids|, p requires 0 <= p < |ids| =>
        lay.combine(x[p], lay.out(seq(lay.heads, h requires 0 <= h < lay.heads => HeadAt(net, lay, x, p, h))),
                    net.ple(l - 1, net.embed(ids[p]))))
  }

  /** The embedding of a text, cut to a requested dimension that is positive and smaller. */
  function EmbeddingAt(net: Net, ids: seq<Tok>, dim: Option<nat>): Vec
    requires net.Valid()
  {
    var e := net.pool(StatesAt(net, |net.layers|, ids));
    if dim.Some? && 0 < dim.value && dim.value < net.dim then net.cut(e, dim.value) else e
  }

  lemma {:induction false} SelectNear<T>(window: Option<nat>, p: nat, n: nat, ok: int -> bool, f: int -> T)
    requires forall j: nat :: j < n ==> ok(j) == (window.Some? ==> p <= j + window.value && j <= p + window.value)
    ensures var js := Near(window, p, n); Select(0, n, ok, f) == seq(|js|, a requires 0 <= a < |js| => f(js[a]))
  {
    if n > 0 {
      SelectNear(window, p, n - 1, ok, f);
      assert ok(n - 1) == (window.Some? ==> p <= n - 1 + window.value && n - 1 <= p + window.value);
    }
  }

  /** The reference the batch is proved against is this. */
  lemma {:induction false} AloneHeadIs(net: Net, lay: Layer, x: seq<Vec>, p: nat, h: nat)
    requires lay.kvHeads > 0 && lay.heads % lay.kvHeads == 0 && h < lay.heads && p < |x|
    ensures AloneHead(net, lay, x, p, h) == HeadAt(net, lay, x, p, h)
  {
    var g := Group(h, lay.heads, lay.kvHeads);
    assert g == GroupNumber(h, lay.heads, lay.kvHeads);
    NearBelow(Window(net, lay), p, |x|);
    AloneSelects(lay, g, x, Window(net, lay), p);
  }

  lemma {:induction false} AloneSelects(lay: Layer, g: nat, x: seq<Vec>, window: Option<nat>, p: nat)
    requires p < |x| && forall a :: 0 <= a < |Near(window, p, |x|)| ==> Near(window, p, |x|)[a] < |x|
    ensures var js := Near(window, p, |x|);
      var kvs := Select(0, |x|, DenseRow(Trues(|x|), window, p), Pairs(Keys(lay, g, x), Values(lay, g, x)));
      kvs != [] && kvs == seq(|js|, a requires 0 <= a < |js| =>
        (lay.rope(lay.kHead(g, lay.inNorm(x[js[a]])), js[a]), lay.vHead(g, lay.inNorm(x[js[a]]))))
  {
    var js, ok := Near(window, p, |x|), DenseRow(Trues(|x|), window, p);
    var k, v := Keys(lay, g, x), Values(lay, g, x);
    forall j: nat | j < |x| ensures ok(j) == (window.Some? ==> p <= j + window.value && j <= p + window.value) {
      assert Trues(|x|)[j];
    }
    SelectNear(window, p, |x|, ok, Pairs(k, v));
    SelectSome(0, |x|, ok, Pairs(k, v), p);
    PairsAre(lay, g, x, js);
  }

  lemma {:induction false} PairsAre(lay: Layer, g: nat, x: seq<Vec>, js: seq<nat>)
    requires forall a :: 0 <= a < |js| ==> js[a] < |x|
    ensures seq(|js|, a requires 0 <= a < |js| => Pairs(Keys(lay, g, x), Values(lay, g, x))(js[a]))
         == seq(|js|, a requires 0 <= a < |js| =>
              (lay.rope(lay.kHead(g, lay.inNorm(x[js[a]])), js[a]), lay.vHead(g, lay.inNorm(x[js[a]]))))
  {
    var f := Pairs(Keys(lay, g, x), Values(lay, g, x));
    forall a | 0 <= a < |js|
      ensures f(js[a]) == (lay.rope(lay.kHead(g, lay.inNorm(x[js[a]])), js[a]), lay.vHead(g, lay.inNorm(x[js[a]])))
    {
      var j := js[a];
      assert Keys(lay, g, x)[j] == lay.rope(lay.kHead(g, lay.inNorm(x[j])), j);
    }
  }

  lemma {:induction false} AloneXIs(net: Net, l: nat, ids: seq<Tok>)
    requires net.Valid() && l <= |net.layers|
    ensures AloneX(net, l, ids) == StatesAt(net, l, ids)
  {
    if l > 0 {
      AloneXIs(net, l - 1, ids);
      var lay, x := net.layers[l - 1], AloneX(net, l - 1, ids);
      forall p | 0 <= p < |ids| ensures AloneX(net, l, ids)[p] == StatesAt(net, l, ids)[p] {
        OutIs(net, lay, x, p);
      }
    }
  }

  lemma {:induction false} OutIs(net: Net, lay: Layer, x: seq<Vec>, p: nat)
    requires lay.kvHeads > 0 && lay.heads % lay.kvHeads == 0 && p < |x|
    ensures seq(lay.heads, h requires 0 <= h < lay.heads => AloneHead(net, lay, x, p, h))
         == seq(lay.heads, h requires 0 <= h < lay.heads => HeadAt(net, lay, x, p, h))
  {
    forall h | 0 <= h < lay.heads ensures AloneHead(net, lay, x, p, h) == HeadAt(net, lay, x, p, h) {
      AloneHeadIs(net, lay, x, p, h);
    }
  }

  lemma {:induction false} EmbeddingIs(net: Net, ids: seq<Tok>, dim: Option<nat>)
    requires net.Valid()
    ensures Shrunk(net, Embedding(net, ids), dim) == EmbeddingAt(net, ids, dim)
  {
    AloneXIs(net, |net.layers|, ids);
  }

  // ---- The padded batch ----

  /** A row of a padded batch: its text, then zeros, and a mask of the text's length. */
  ghost predicate PaddedRow(row: seq<Tok>, mask: seq<bool>, ids: seq<Tok>, L: nat) {
    && |row| == |mask| == L && |ids| <= L && row[..|ids|] == ids
    && forall p :: 0 <= p < L ==> mask[p] == (p < |ids|)
  }

  ghost predicate PaddedBatch(a: seq<seq<Tok>>, mask: seq<seq<bool>>, ids: seq<seq<Tok>>, L: nat) {
    |a| == |mask| == |ids| && forall r :: 0 <= r < |ids| ==> PaddedRow(a[r], mask[r], ids[r], L)
  }

  function QueryTensor(lay: Layer, x: seq<seq<Vec>>, L: nat): (q: T3<Vec>)
    requires Shape2(x, |x|, L)
    ensures Shape3(q, |x|, lay.heads, L)
  {
    seq(|x|, r requires 0 <= r < |x| =>
      seq(lay.heads, h requires 0 <= h < lay.heads =>
        seq(L, p requires 0 <= p < L => QueryAt(lay, h, x[r][p], p))))
  }

  function KeyTensor(lay: Layer, x: seq<seq<Vec>>, L: nat): (k: T3<Vec>)
    requires Shape2(x, |x|, L)
    ensures Shape3(k, |x|, lay.kvHeads, L)
  {
    seq(|x|, r requires 0 <= r < |x| => seq(lay.kvHeads, g requires 0 <= g < lay.kvHeads => Keys(lay, g, x[r])))
  }

  function ValueTensor(lay: Layer, x: seq<seq<Vec>>, L: nat): (v: T3<Vec>)
    requires Shape2(x, |x|, L)
    ensures Shape3(v, |x|, lay.kvHeads, L)
  {
    seq(|x|, r requires 0 <= r < |x| => seq(lay.kvHeads, g requires 0 <= g < lay.kvHeads => Values(lay, g, x[r])))
  }

  /** The masks TextModel builds once per batch: `slide` is the window of the dense sliding mask, if
      it has one, and `band` says that sliding layers take the banded path. */
  datatype Masks = Masks(keys: seq<seq<bool>>, slide: Option<nat>, band: bool)

  function BuildMasks(net: Net, mask: seq<seq<bool>>, L: nat, bandOk: bool): Masks {
    if L > net.window + 1 then
      if bandOk then Masks(mask, None, true) else Masks(mask, Some(net.window), false)
    else Masks(mask, None, false)
  }

  /** Attention.__call__ up to the output projection. */
  function Attend(net: Net, lay: Layer, x: seq<seq<Vec>>, m: Masks, L: nat): (o: T3<Vec>)
    requires lay.kvHeads > 0 && lay.heads % lay.kvHeads == 0 && net.window > 0
    requires Shape2(x, |x|, L) && Shape2(m.keys, |x|, L) && (m.band ==> L % net.window == 0)
    ensures Shape3(o, |x|, lay.heads, L)
  {
    var q, k, v := QueryTensor(lay, x, L), KeyTensor(lay, x, L), ValueTensor(lay, x, L);
    if lay.sliding && m.band then
      assert L == L / net.window * net.window;
      BandedAttention(net.soft, q, k, v, m.keys, |x|, lay.heads, lay.kvHeads, L / net.window, net.window)
    else
      Sdpa(net.soft, q, k, v, Dense(m.keys, if lay.sliding then m.slide else None), |x|, lay.heads, lay.kvHeads, L, L)
  }

  /** Keys past the text are masked: the selection is that of the text alone. */
  lemma {:induction false} PadSelect(k: seq<Vec>, v: seq<Vec>, k': seq<Vec>, v': seq<Vec>, mask: seq<bool>, n: nat, p: nat,
                  w: Option<nat>, w': Option<nat>, soft: Soft, q: Vec)
    requires |k| == |v| == n <= |mask| && |k'| == |v'| == |mask| && k'[..n] == k && v'[..n] == v
    requires forall j :: 0 <= j < |mask| ==> mask[j] == (j < n)
    requires p < n && (w == w' || (w'.None? && w.Some? && |mask| <= w.value + 1))
    ensures SdpaAt(soft, q, k', v', DenseRow(mask, w', p)) == SdpaAt(soft, q, k, v, DenseRow(Trues(n), w, p))
  {
    var ok, ok' := DenseRow(Trues(n), w, p), DenseRow(mask, w', p);
    SelectWider(0, |mask|, 0, n, ok', Pairs(k', v'));
    assert forall j :: 0 <= j < n ==> k'[j] == k'[..n][j] && v'[j] == v'[..n][j];
    assert forall j :: 0 <= j < n ==> ok(j) == ok'(j) by {
      assert forall j :: 0 <= j < n ==> Trues(n)[j] && mask[j];
    }
    assert ok(p) by { assert Trues(n)[p]; }
    SelectSame(0, n, ok', Pairs(k', v'), ok, Pairs(k, v));
    SelectSome(0, n, ok, Pairs(k, v), p);
  }

  /** How far apart query and key may be, whichever path is taken. */
  function Reach(net: Net, lay: Layer, m: Masks): Option<nat> {
    if !lay.sliding then None else if m.band then Some(net.window) else m.slide
  }

  /** One query of a batch, on the dense path and on the banded one. */
  lemma {:induction false} AttendAt(net: Net, lay: Layer, x: seq<seq<Vec>>, m: Masks, L: nat, r: nat, p: nat, h: nat)
    requires net.window > 0 && lay.kvHeads > 0 && lay.heads % lay.kvHeads == 0
    requires Shape2(x, |x|, L) && Shape2(m.keys, |x|, L) && (m.band ==> L % net.window == 0)
    requires r < |x| && p < L && h < lay.heads && m.keys[r][p]
    ensures var g := Group(h, lay.heads, lay.kvHeads);
      Attend(net, lay, x, m, L)[r][h][p]
      == SdpaAt(net.soft, QueryAt(lay, h, x[r][p], p), Keys(lay, g, x[r]), Values(lay, g, x[r]),
                DenseRow(m.keys[r], Reach(net, lay, m), p))
  {
    if lay.sliding && m.band {
      assert L == L / net.window * net.window;
      BandedIsDense(net.soft, QueryTensor(lay, x, L), KeyTensor(lay, x, L), ValueTensor(lay, x, L), m.keys,
                    |x|, lay.heads, lay.kvHeads, L / net.window, net.window, r, h, p, p);
    }
  }

  /** All three paths give a real query what the text alone gives it. */
  lemma {:induction false} AttendIsAlone(net: Net, lay: Layer, x: seq<seq<Vec>>, mask: seq<seq<bool>>, L: nat, bandOk: bool,
                      r: nat, alone: seq<Vec>, p: nat, h: nat)
    requires net.window > 0 && lay.kvHeads > 0 && lay.heads % lay.kvHeads == 0
    requires Shape2(x, |x|, L) && Shape2(mask, |x|, L) && (bandOk ==> L % net.window == 0)
    requires r < |x| && p < |alone| <= L && h < lay.heads && x[r][..|alone|] == alone
    requires forall j :: 0 <= j < L ==> mask[r][j] == (j < |alone|)
    ensures Attend(net, lay, x, BuildMasks(net, mask, L, bandOk), L)[r][h][p] == AloneHead(net, lay, alone, p, h)
  {
    var g := Group(h, lay.heads, lay.kvHeads);
    var k, v := Keys(lay, g, alone), Values(lay, g, alone);
    var k', v' := Keys(lay, g, x[r]), Values(lay, g, x[r]);
    assert forall j :: 0 <= j < |alone| ==> x[r][j] == x[r][..|alone|][j];
    assert k'[..|alone|] == k && v'[..|alone|] == v;
    assert mask[r][p] && x[r][p] == alone[p];
    var m := BuildMasks(net, mask, L, bandOk);
    AttendAt(net, lay, x, m, L, r, p, h);
    PadSelect(k, v, k', v', mask[r], |alone|, p, Window(net, lay), Reach(net, lay, m), net.soft, QueryAt(lay, h, alone[p], p));
  }

  function LayerBatch(net: Net, l: nat, x: seq<seq<Vec>>, x0: seq<seq<Vec>>, m: Masks, L: nat): (y: seq<seq<Vec>>)
    requires net.Valid() && l < |net.layers| && |x0| == |x| && Shape2(x, |x|, L) && Shape2(x0, |x|, L)
    requires Shape2(m.keys, |x|, L) && (m.band ==> L % net.window == 0)
    ensures Shape2(y, |x|, L)
  {
    var lay := net.layers[l];
    var o := Attend(net, lay, x, m, L);
    seq(|x|, r requires 0 <= r < |x| =>
      seq(L, p requires 0 <= p < L =>
        lay.combine(x[r][p], lay.out(seq(lay.heads, h requires 0 <= h < lay.heads => o[r][h][p])), net.ple(l, x0[r][p]))))
  }

  lemma {:induction false} LayerIsAlone(net: Net, l: nat, x: seq<seq<Vec>>, x0: seq<seq<Vec>>, mask: seq<seq<bool>>, L: nat, bandOk: bool,
                     r: nat, alone: seq<Vec>, alone0: seq<Vec>)
    requires net.Valid() && l < |net.layers| && |x0| == |x| && Shape2(x, |x|, L) && Shape2(x0, |x|, L)
    requires Shape2(mask, |x|, L) && (bandOk ==> L % net.window == 0)
    requires r < |x| && |alone| == |alone0| <= L && x[r][..|alone|] == alone && x0[r][..|alone|] == alone0
    requires forall j :: 0 <= j < L ==> mask[r][j] == (j < |alone|)
    ensures LayerBatch(net, l, x, x0, BuildMasks(net, mask, L, bandOk), L)[r][..|alone|] == AloneLayer(net, l, alone, alone0)
  {
    var lay, m := net.layers[l], BuildMasks(net, mask, L, bandOk);
    var o, y := Attend(net, lay, x, m, L), LayerBatch(net, l, x, x0, m, L);
    forall p | 0 <= p < |alone| ensures y[r][p] == AloneLayer(net, l, alone, alone0)[p] {
      assert x[r][p] == x[r][..|alone|][p] && x0[r][p] == x0[r][..|alone|][p];
      forall h | 0 <= h < lay.heads ensures o[r][h][p] == AloneHead(net, lay, alone, p, h) {
        AttendIsAlone(net, lay, x, mask, L, bandOk, r, alone, p, h);
      }
      assert seq(lay.heads, h requires 0 <= h < lay.heads => o[r][h][p])
          == seq(lay.heads, h requires 0 <= h < lay.heads => AloneHead(net, lay, alone, p, h));
    }
  }

  /** The rows a mask keeps, in order (the masked mean ignores the others). */
  function Kept(x: seq<Vec>, mask: seq<bool>): seq<Vec>
    requires |x| == |mask|
  {
    if x == [] then []
    else Kept(x[..|x| - 1], mask[..|x| - 1]) + (if mask[|x| - 1] then [x[|x| - 1]] else [])
  }

  lemma {:induction false} KeptPrefix(x: seq<Vec>, mask: seq<bool>, n: nat)
    requires |x| == |mask| && n <= |x| && forall p :: 0 <= p < |x| ==> mask[p] == (p < n)
    ensures Kept(x, mask) == x[..n]
  {
    if x != [] {
      var m := |x| - 1;
      KeptPrefix(x[..m], mask[..m], if n <= m then n else m);
    }
  }

  /** The rows of the batch hold, in front, the states of their texts alone after l layers. */
  ghost predicate HoldsAlone(net: Net, l: nat, x: seq<seq<Vec>>, ids: seq<seq<Tok>>, L: nat)
    requires net.Valid() && l <= |net.layers|
  {
    && |x| == |ids| && Shape2(x, |ids|, L)
    && forall r :: 0 <= r < |ids| ==> |ids[r]| <= L && x[r][..|ids[r]|] == AloneX(net, l, ids[r])
  }

  ghost predicate MaskOf(mask: seq<seq<bool>>, ids: seq<seq<Tok>>, L: nat) {
    Shape2(mask, |ids|, L) && forall r, p :: 0 <= r < |ids| && 0 <= p < L ==> mask[r][p] == (p < |ids[r]|)
  }

  function EmbeddedRows(net: Net, a: seq<seq<Tok>>): seq<seq<Vec>> {
    seq(|a|, r requires 0 <= r < |a| => Embedded(net, a[r]))
  }

  lemma {:induction false} StartsAlone(net: Net, a: seq<seq<Tok>>, mask: seq<seq<bool>>, ids: seq<seq<Tok>>, L: nat)
    requires net.Valid() && PaddedBatch(a, mask, ids, L)
    ensures HoldsAlone(net, 0, EmbeddedRows(net, a), ids, L) && MaskOf(mask, ids, L)
  {
    var x0 := EmbeddedRows(net, a);
    forall r | 0 <= r < |a| ensures |a[r]| == |mask[r]| == L && x0[r][..|ids[r]|] == Embedded(net, ids[r]) {
      assert PaddedRow(a[r], mask[r], ids[r], L);
      assert forall p :: 0 <= p < |ids[r]| ==> a[r][p] == a[r][..|ids[r]|][p];
    }
  }

  /** One layer keeps every row of the batch the state of its text alone. */
  lemma {:induction false} StaysAlone(net: Net, l: nat, x: seq<seq<Vec>>, x0: seq<seq<Vec>>, mask: seq<seq<bool>>, L: nat,
                                      bandOk: bool, ids: seq<seq<Tok>>)
    requires net.Valid() && l < |net.layers| && HoldsAlone(net, l, x, ids, L) && HoldsAlone(net, 0, x0, ids, L)
    requires MaskOf(mask, ids, L) && (bandOk ==> L % net.window == 0)
    ensures HoldsAlone(net, l + 1, LayerBatch(net, l, x, x0, BuildMasks(net, mask, L, bandOk), L), ids, L)
  {
    forall r | 0 <= r < |x|
      ensures LayerBatch(net, l, x, x0, BuildMasks(net, mask, L, bandOk), L)[r][..|ids[r]|] == AloneX(net, l + 1, ids[r])
    {
      LayerIsAlone(net, l, x, x0, mask, L, bandOk, r, AloneX(net, l, ids[r]), Embedded(net, ids[r]));
    }
  }

  /** TextModel.__call__: for every padded batch, and whichever attention path the length selects,
      each row's embedding is that of its text alone. */
  method TextModel(net: Net, a: seq<seq<Tok>>, mask: seq<seq<bool>>, L: nat, bandOk: bool, ghost ids: seq<seq<Tok>>)
    returns (e: seq<Vec>)
    requires net.Valid() && PaddedBatch(a, mask, ids, L) && (bandOk ==> L % net.window == 0)
    ensures |e| == |ids| && forall r :: 0 <= r < |ids| ==> e[r] == Embedding(net, ids[r]) == EmbeddingAt(net, ids[r], None)
  {
    StartsAlone(net, a, mask, ids, L);
    var x0 := EmbeddedRows(net, a);
    var m := BuildMasks(net, mask, L, bandOk);
    var x := RunLayers(net, x0, mask, m, L, bandOk, ids);
    e := Pooled(net, x, mask, L, ids);
  }

  /** for i, layer in enumerate(self.layers) */
  method RunLayers(net: Net, x0: seq<seq<Vec>>, ghost mask: seq<seq<bool>>, m: Masks, L: nat, ghost bandOk: bool,
                   ghost ids: seq<seq<Tok>>) returns (x: seq<seq<Vec>>)
    requires net.Valid() && HoldsAlone(net, 0, x0, ids, L)
    requires MaskOf(mask, ids, L) && (bandOk ==> L % net.window == 0) && m == BuildMasks(net, mask, L, bandOk)
    ensures HoldsAlone(net, |net.layers|, x, ids, L)
  {
    x := x0;
    for l := 0 to |net.layers|
      invariant HoldsAlone(net, l, x, ids, L)
    {
      x := RunLayer(net, l, x, x0, mask, m, L, bandOk, ids);
    }
  }

  lemma {:induction false} EmbeddingsAre(net: Net, ids: seq<seq<Tok>>)
    requires net.Valid()
    ensures forall r :: 0 <= r < |ids| ==> Embedding(net, ids[r]) == EmbeddingAt(net, ids[r], None)
  {
    forall r | 0 <= r < |ids| ensures Embedding(net, ids[r]) == EmbeddingAt(net, ids[r], None) {
      EmbeddingIs(net, ids[r], None);
    }
  }

  method RunLayer(net: Net, l: nat, x: seq<seq<Vec>>, x0: seq<seq<Vec>>, ghost mask: seq<seq<bool>>, m: Masks, L: nat,
                  ghost bandOk: bool, ghost ids: seq<seq<Tok>>) returns (y: seq<seq<Vec>>)
    requires net.Valid() && l < |net.layers| && HoldsAlone(net, l, x, ids, L) && HoldsAlone(net, 0, x0, ids, L)
    requires MaskOf(mask, ids, L) && (bandOk ==> L % net.window == 0) && m == BuildMasks(net, mask, L, bandOk)
    ensures HoldsAlone(net, l + 1, y, ids, L)
  {
    StaysAlone(net, l, x, x0, mask, L, bandOk, ids);
    y := LayerBatch(net, l, x, x0, m, L);
  }

  /** The masked mean and the output projection. */
  method Pooled(net: Net, x: seq<seq<Vec>>, mask: seq<seq<bool>>, L: nat, ghost ids: seq<seq<Tok>>) returns (e: seq<Vec>)
    requires net.Valid() && HoldsAlone(net, |net.layers|, x, ids, L) && MaskOf(mask, ids, L)
    ensures |e| == |ids| && forall r :: 0 <= r < |ids| ==> e[r] == Embedding(net, ids[r]) == EmbeddingAt(net, ids[r], None)
  {
    EmbeddingsAre(net, ids);
    e := seq(|x|, r requires 0 <= r < |x| => net.pool(Kept(x[r], mask[r])));
    forall r | 0 <= r < |x| ensures e[r] == Embedding(net, ids[r]) {
      KeptPrefix(x[r], mask[r], |ids[r]|);
    }
  }

  // ---- Padded lengths ----

  function CeilDiv(n: nat, d: nat): nat
    requires d > 0
  {
    (n + d - 1) / d
  }

  function RoundLen(n: nat): (L: nat) {
    if n <= 512 then (var m := CeilDiv(n, 16) * 16; if m < 16 then 16 else m)
    else if n <= 1536 then CeilDiv(n, 64) * 64
    else CeilDiv(n, 512) * 512
  }

  /** A padded length holds the text, wastes less than one step of its size class, and is a multiple
      of 512 whenever it is long enough for the banded path. */
  lemma {:induction false} RoundLenBounds(n: nat)
    ensures n <= RoundLen(n) && 16 <= RoundLen(n)
    ensures RoundLen(n) - n < (if n == 0 then 17 else if n <= 512 then 16 else if n <= 1536 then 64 else 512)
    ensures RoundLen(n) > 1536 ==> RoundLen(n) % 512 == 0
    ensures RoundLen(n) > 1536 <==> n > 1536
    ensures RoundLen(n) % (if n <= 512 then 16 else if n <= 1536 then 64 else 512) == 0
  {
  }

  lemma {:induction false} RoundLenMonotone(n: nat, m: nat)
    requires n <= m
    ensures RoundLen(n) <= RoundLen(m)
  {
    CeilMonotone(n, m, 16);
    CeilMonotone(n, m, 64);
    CeilMonotone(n, m, 512);
    RoundLenBounds(n);
    RoundLenBounds(m);
  }

  lemma {:induction false} CeilMonotone(n: nat, m: nat, d: nat)
    requires n <= m && (d == 16 || d == 64 || d == 512)
    ensures CeilDiv(n, d) * d <= CeilDiv(m, d) * d
  {
  }

  // ---- Batches ----

  datatype Batch = Batch(idx: seq<nat>, L: nat)

  function Room0(budget: int, L: nat): int {
    if budget > L then budget else L
  }

  /** The inner loop's condition for taking one more text at `e`. */
  predicate Takes(lens: seq<nat>, order: seq<nat>, budget: int, maxBatch: int, L: nat, s: nat, e: nat)
    requires s <= e <= |order| && forall a :: 0 <= a < |order| ==> order[a] < |lens|
  {
    e < |order| && RoundLen(lens[order[e]]) == L && (e - s + 1) * L <= Room0(budget, L) && e - s < maxBatch
  }

  /** The sweep moves past its start exactly when the batch limit allows a text at all. */
  lemma {:induction false} SweepAdvances(lens: seq<nat>, order: seq<nat>, budget: int, maxBatch: int, s: nat)
    requires s < |order| && forall a :: 0 <= a < |order| ==> order[a] < |lens|
    ensures Takes(lens, order, budget, maxBatch, RoundLen(lens[order[s]]), s, s) <==> 1 <= maxBatch
  {
  }

  /** What one batch promises. */
  ghost predicate GoodBatch(lens: seq<nat>, budget: int, maxBatch: int, b: Batch) {
    && 1 <= |b.idx| <= maxBatch
    && (forall a :: 0 <= a < |b.idx| ==> b.idx[a] < |lens| && lens[b.idx[a]] <= b.L == RoundLen(lens[b.idx[a]]))
    && (2 <= |b.idx| ==> |b.idx| * b.L <= budget)
    && (b.L > 1536 ==> b.L % 512 == 0)
  }

  /** A batch ends because the next text has another padded length or would break a limit. */
  ghost predicate Closed(lens: seq<nat>, budget: int, maxBatch: int, b: Batch, next: nat)
    requires next < |lens|
  {
    RoundLen(lens[next]) != b.L || (|b.idx| + 1) * b.L > Room0(budget, b.L) || |b.idx| == maxBatch
  }

  /** A sweep over the texts in `order`: good batches, each closed by the text after it. */
  ghost predicate Sweep(lens: seq<nat>, budget: int, maxBatch: int, bs: seq<Batch>, order: seq<nat>) {
    && Indices(bs) == order
    && (forall k :: 0 <= k < |bs| ==> GoodBatch(lens, budget, maxBatch, bs[k]))
    && (forall k :: 0 < k < |bs| ==> Closed(lens, budget, maxBatch, bs[k - 1], bs[k].idx[0]))
  }

  function Indices(bs: seq<Batch>): seq<nat> {
    if bs == [] then [] else Indices(bs[..|bs| - 1]) + bs[|bs| - 1].idx
  }

  lemma {:induction false} InIndices(bs: seq<Batch>, i: nat) returns (k: nat)
    requires i in Indices(bs)
    ensures k < |bs| && i in bs[k].idx
  {
    var n := |bs| - 1;
    if i in bs[n].idx {
      k := n;
    } else {
      k := InIndices(bs[..n], i);
    }
  }

  /** The inner loop: one past the last text of the batch starting at s. */
  method BatchEnd(lens: seq<nat>, order: seq<nat>, budget: int, maxBatch: int, L: nat, s: nat) returns (e: nat)
    requires s < |order| && forall a :: 0 <= a < |order| ==> order[a] < |lens|
    requires 1 <= maxBatch && L == RoundLen(lens[order[s]])
    ensures s < e <= |order| && GoodBatch(lens, budget, maxBatch, Batch(order[s..e], L))
    ensures e < |order| ==> Closed(lens, budget, maxBatch, Batch(order[s..e], L), order[e])
  {
    e := s;
    while Takes(lens, order, budget, maxBatch, L, s, e)
      invariant s <= e <= |order| && e - s <= maxBatch && (e - s) * L <= Room0(budget, L)
      invariant forall a :: s <= a < e ==> RoundLen(lens[order[a]]) == L
      decreases |order| - e
    {
      e := e + 1;
    }
    SweepAdvances(lens, order, budget, maxBatch, s);
    BatchIsGood(lens, order[s..e], budget, maxBatch, L);
  }

  /** The sweep of Encoder.batches over its sorted order. */
  method SweepOrder(lens: seq<nat>, order: seq<nat>, budget: int, maxBatch: int) returns (bs: seq<Batch>)
    requires order != [] ==> 1 <= maxBatch
    requires forall a :: 0 <= a < |order| ==> order[a] < |lens|
    ensures Sweep(lens, budget, maxBatch, bs, order)
  {
    bs := [];
    var s := 0;
    while s < |order|
      invariant s <= |order| && Sweep(lens, budget, maxBatch, bs, order[..s])
      invariant bs != [] && s < |order| ==> Closed(lens, budget, maxBatch, bs[|bs| - 1], order[s])
    {
      var L := RoundLen(lens[order[s]]);
      var e := BatchEnd(lens, order, budget, maxBatch, L, s);
      SweepMore(lens, budget, maxBatch, bs, order, s, e, L);
      bs := bs + [Batch(order[s..e], L)];
      s := e;
    }
    assert order[..s] == order;
  }

  /** Encoder.batches. A batch limit below one makes the sweep stand still (SweepAdvances). */
  method Batches(lens: seq<nat>, budget: int, maxBatch: int) returns (bs: seq<Batch>)
    requires lens != [] ==> 1 <= maxBatch
    ensures Sweep(lens, budget, maxBatch, bs, Order(lens))
  {
    bs := SweepOrder(lens, Order(lens), budget, maxBatch);
  }

  lemma {:induction false} BatchIsGood(lens: seq<nat>, idx: seq<nat>, budget: int, maxBatch: int, L: nat)
    requires 1 <= |idx| <= maxBatch && |idx| * L <= Room0(budget, L)
    requires forall a :: 0 <= a < |idx| ==> idx[a] < |lens| && RoundLen(lens[idx[a]]) == L
    ensures GoodBatch(lens, budget, maxBatch, Batch(idx, L))
  {
    forall a | 0 <= a < |idx| ensures lens[idx[a]] <= L && 16 <= L && (L > 1536 ==> L % 512 == 0) {
      RoundLenBounds(lens[idx[a]]);
    }
    assert L == RoundLen(lens[idx[0]]);
    if 2 <= |idx| {
      Room(1, |idx|, L);
    }
  }

  lemma {:induction false} SweepMore(lens: seq<nat>, budget: int, maxBatch: int, bs: seq<Batch>, order: seq<nat>, s: nat, e: nat, L: nat)
    requires s < e <= |order| && Sweep(lens, budget, maxBatch, bs, order[..s])
    requires GoodBatch(lens, budget, maxBatch, Batch(order[s..e], L))
    requires bs != [] ==> order[s] < |lens| && Closed(lens, budget, maxBatch, bs[|bs| - 1], order[s])
    ensures Sweep(lens, budget, maxBatch, bs + [Batch(order[s..e], L)], order[..e])
  {
    assert (bs + [Batch(order[s..e], L)])[..|bs|] == bs;
    assert order[..s] + order[s..e] == order[..e];
  }

  // ---- Embedding lists of texts ----

  /** Encoder.forward: zero-padded ids and masks, and the banded path for long rows. */
  method Forward(net: Net, idsList: seq<seq<Tok>>, L: nat) returns (e: seq<Vec>)
    requires net.Valid() && net.window == 512
    requires forall r :: 0 <= r < |idsList| ==> |idsList[r]| <= L
    ensures |e| == |idsList| && forall r :: 0 <= r < |idsList| ==> e[r] == Embedding(net, idsList[r])
  {
    var a := seq(|idsList|, r requires 0 <= r < |idsList| => idsList[r] + seq(L - |idsList[r]|, _ => 0));
    var m := seq(|idsList|, r requires 0 <= r < |idsList| =>
      seq(|idsList[r]|, _ => true) + seq(L - |idsList[r]|, _ => false));
    e := TextModel(net, a, m, L, L > 1536 && L % 512 == 0, idsList);
  }

  /** out[idx] = rows */
  method Scatter(out: array<Vec>, idx: seq<nat>, rows: seq<Vec>, ghost want: nat -> Vec)
    requires |rows| == |idx| && forall a :: 0 <= a < |idx| ==> idx[a] < out.Length && rows[a] == want(idx[a])
    modifies out
    ensures forall a :: 0 <= a < |idx| ==> out[idx[a]] == want(idx[a])
    ensures forall i :: 0 <= i < out.Length && i !in idx ==> out[i] == old(out[i])
  {
    for a := 0 to |idx|
      invariant forall c :: 0 <= c < a ==> out[idx[c]] == want(idx[c])
      invariant forall i :: 0 <= i < out.Length && i !in idx ==> out[i] == old(out[i])
    {
      out[idx[a]] := rows[a];
    }
  }

  /** The batches, which together hold every text. */
  method CoveringBatches(lens: seq<nat>, budget: int, maxBatch: int) returns (bs: seq<Batch>)
    requires lens != [] ==> 1 <= maxBatch
    ensures forall k :: 0 <= k < |bs| ==> GoodBatch(lens, budget, maxBatch, bs[k])
    ensures forall i :: 0 <= i < |lens| ==> i in Indices(bs)
  {
    bs := Batches(lens, budget, maxBatch);
  }

  /** One batch's embeddings, shrunk to `dim`. */
  method EmbedBatch(net: Net, b: Batch, ids: seq<seq<Tok>>, dim: Option<nat>) returns (e: seq<Vec>)
    requires net.Valid() && net.window == 512
    requires forall a :: 0 <= a < |b.idx| ==> b.idx[a] < |ids| && |ids[b.idx[a]]| <= b.L
    ensures |e| == |b.idx| && forall a :: 0 <= a < |e| ==> e[a] == Shrunk(net, Embedding(net, ids[b.idx[a]]), dim)
  {
    e := Forward(net, seq(|b.idx|, a requires 0 <= a < |b.idx| => ids[b.idx[a]]), b.L);
    e := seq(|e|, a requires 0 <= a < |e| => Shrunk(net, e[a], dim));
  }

  /** Encoder.embed_ids: batches run with one in flight, written back one batch late; the result is
      every text's own embedding in its own place. */
  method EmbedIds(net: Net, budget: int, maxBatch: int, ids: seq<seq<Tok>>, dim: Option<nat>) returns (out: array<Vec>)
    requires net.Valid() && net.window == 512 && (ids != [] ==> 1 <= maxBatch)
    ensures fresh(out) && out.Length == |ids|
    ensures forall i :: 0 <= i < |ids| ==> out[i] == Shrunk(net, Embedding(net, ids[i]), dim)
    ensures forall i :: 0 <= i < |ids| ==> out[i] == EmbeddingAt(net, ids[i], dim)
  {
    var want := (i: nat) => if i < |ids| then Shrunk(net, Embedding(net, ids[i]), dim) else [];
    out := new Vec[|ids|](_ => []);
    var lens := seq(|ids|, i requires 0 <= i < |ids| => |ids[i]|);
    var bs := CoveringBatches(lens, budget, maxBatch);
    var prev: Option<(seq<nat>, seq<Vec>)> := None;
    for k := 0 to |bs|
      invariant prev.None? <==> k == 0
      invariant prev.Some? ==> prev.value.0 == bs[k - 1].idx && RowsOf(prev.value.0, prev.value.1, want)
      invariant Written(bs, if k == 0 then 0 else k - 1, out[..], want)
    {
      var b := bs[k];
      assert GoodBatch(lens, budget, maxBatch, b);
      var e := EmbedBatch(net, b, ids, dim);
      if prev.Some? { WriteBack(out, bs, k - 1, prev.value.0, prev.value.1, want); }
      prev := Some((b.idx, e));
    }
    if prev.Some? { WriteBack(out, bs, |bs| - 1, prev.value.0, prev.value.1, want); }
    AllWritten(bs, out[..], want);
    EmbeddingsCut(net, ids, dim);
  }

  lemma {:induction false} EmbeddingsCut(net: Net, ids: seq<seq<Tok>>, dim: Option<nat>)
    requires net.Valid()
    ensures forall i :: 0 <= i < |ids| ==> Shrunk(net, Embedding(net, ids[i]), dim) == EmbeddingAt(net, ids[i], dim)
  {
    forall i | 0 <= i < |ids| ensures Shrunk(net, Embedding(net, ids[i]), dim) == EmbeddingAt(net, ids[i], dim) {
      EmbeddingIs(net, ids[i], dim);
    }
  }

  /** out[idx] = rows for the batch k, after those before it. */
  method WriteBack(out: array<Vec>, ghost bs: seq<Batch>, ghost k: nat, idx: seq<nat>, rows: seq<Vec>, ghost want: nat -> Vec)
    requires k < |bs| && idx == bs[k].idx && Written(bs, k, out[..], want) && RowsOf(idx, rows, want)
    requires forall a :: 0 <= a < |idx| ==> idx[a] < out.Length
    modifies out
    ensures Written(bs, k + 1, out[..], want)
  {
    ghost var was := out[..];
    Scatter(out, idx, rows, want);
    WrittenMore(bs, k, was, out[..], want);
  }

  ghost predicate RowsOf(idx: seq<nat>, rows: seq<Vec>, want: nat -> Vec) {
    |rows| == |idx| && forall a :: 0 <= a < |idx| ==> rows[a] == want(idx[a])
  }

  /** The texts of the first n batches have their embeddings. */
  ghost predicate Written(bs: seq<Batch>, n: nat, out: seq<Vec>, want: nat -> Vec)
    requires n <= |bs|
  {
    forall j, a :: 0 <= j < n && 0 <= a < |bs[j].idx| ==> bs[j].idx[a] < |out| && out[bs[j].idx[a]] == want(bs[j].idx[a])
  }

  lemma {:induction false} WrittenMore(bs: seq<Batch>, n: nat, out: seq<Vec>, out': seq<Vec>, want: nat -> Vec)
    requires n < |bs| && Written(bs, n, out, want) && |out'| == |out|
    requires forall a :: 0 <= a < |bs[n].idx| ==> bs[n].idx[a] < |out| && out'[bs[n].idx[a]] == want(bs[n].idx[a])
    requires forall i :: 0 <= i < |out| && i !in bs[n].idx ==> out'[i] == out[i]
    ensures Written(bs, n + 1, out', want)
  {
    forall j, a | 0 <= j < n + 1 && 0 <= a < |bs[j].idx|
      ensures bs[j].idx[a] < |out'| && out'[bs[j].idx[a]] == want(bs[j].idx[a])
    {
      var i := bs[j].idx[a];
      if j < n && i in bs[n].idx {
        var c :| 0 <= c < |bs[n].idx| && bs[n].idx[c] == i;
      }
    }
  }

  /** Every text is in some batch, and every batch has been written back. */
  lemma {:induction false} AllWritten(bs: seq<Batch>, out: seq<Vec>, want: nat -> Vec)
    requires Written(bs, |bs|, out, want) && forall i :: 0 <= i < |out| ==> i in Indices(bs)
    ensures forall i :: 0 <= i < |out| ==> out[i] == want(i)
  {
    forall i | 0 <= i < |out| ensures out[i] == want(i) {
      var k := InIndices(bs, i);
      var a :| 0 <= a < |bs[k].idx| && bs[k].idx[a] == i;
    }
  }
}
