/** One row of the needle transformer (src-needle/src/seon_needle/model.py), on values.

    Weights and arithmetic are arbitrary total functions carried by a `Net`; what this
    module fixes is which position is rotated by which table row, which keys a query
    admits and in which order, and what a cache holds. `Decoder` is the cached form the
    code runs; `Full` is the whole-sequence causal form it has to agree with. */
module NeedleSpec {
  import opened Options

  type Vec = seq<real>
  type Tok = int

  datatype RopeRow = RopeRow(cos: Vec, sin: Vec)

  /** An attention sublayer. `qHead(h, x)` is the h-th head of the reshaped projection of x. */
  datatype AttnW = AttnW(
    qHead: (nat, Vec) -> Vec, kHead: (nat, Vec) -> Vec, vHead: (nat, Vec) -> Vec,
    qNorm: Vec -> Vec, kNorm: Vec -> Vec, out: seq<Vec> -> Vec)

  /** `add(x, h)` is the gated residual x + sigmoid(gate) * h. */
  datatype EncLayer = EncLayer(norm: Vec -> Vec, attn: AttnW, add: (Vec, Vec) -> Vec)

  datatype DecLayer = DecLayer(
    norm0: Vec -> Vec, selfAttn: AttnW, addSelf: (Vec, Vec) -> Vec,
    norm1: Vec -> Vec, crossAttn: AttnW, addCross: (Vec, Vec) -> Vec)

  /** `attend(q, kvs)` is softmax attention of q over the admitted pairs in position order;
      `level(vs)` is the mean a softmax over nothing but masked scores degenerates to. */
  datatype Net = Net(
    heads: nat, kvHeads: nat, encScale: real,
    embed: Tok -> Vec, enc: seq<EncLayer>, encNorm: Vec -> Vec,
    dec: seq<DecLayer>, decNorm: Vec -> Vec, logits: Vec -> Vec,
    ropeRow: real -> RopeRow, rotate: (Vec, RopeRow) -> Vec,
    attend: (Vec, seq<(Vec, Vec)>) -> Vec, level: seq<Vec> -> Vec, argmax: Vec -> Tok)
  {
    /** The head counts reshape and repeat accept, and a usable position-interpolation factor. */
    ghost predicate Valid() {
      && 0 < kvHeads && 0 < heads && heads % kvHeads == 0
      && encScale != 0.0
    }
  }

  /** Keys and values of one position, one vector per kv head. */
  datatype KV = KV(k: seq<Vec>, v: seq<Vec>)

  type Cache = Option<seq<KV>>

  datatype LayerCache = LayerCache(self: Cache, cross: Cache)

  /** Which keys a query sees. `Keys` is a padding mask, the same for every query. */
  datatype Mask = NoMask | Causal | Keys(ok: seq<bool>)

  predicate Admits(mask: Mask, i: nat, j: nat) {
    match mask
    case NoMask => true
    case Causal => i >= j
    case Keys(ok) => j < |ok| && ok[j]
  }

  predicate Shaped(net: Net, kvs: seq<KV>) {
    forall j :: 0 <= j < |kvs| ==> |kvs[j].k| == net.kvHeads && |kvs[j].v| == net.kvHeads
  }

  /** Row t of the table for `scale` (rope_freqs). */
  function RopeAt(net: Net, scale: real, t: nat): RopeRow
    requires scale != 0.0
  {
    net.ropeRow(t as real / scale)
  }

  /** The row rotating position t; without a rope nothing is rotated. */
  function Rotation(net: Net, scale: Option<real>, t: nat): Option<RopeRow>
    requires scale != Some(0.0)
  {
    if scale.Some? then Some(RopeAt(net, scale.value, t)) else None
  }

  function Rotated(net: Net, x: Vec, row: Option<RopeRow>): Vec {
    match row
    case None => x
    case Some(r) => net.rotate(x, r)
  }

  function Query(net: Net, w: AttnW, x: Vec, row: Option<RopeRow>): (q: seq<Vec>) {
    seq(net.heads, h requires 0 <= h < net.heads => Rotated(net, w.qNorm(w.qHead(h, x)), row))
  }

  function Entry(net: Net, w: AttnW, x: Vec, row: Option<RopeRow>): (kv: KV) {
    KV(seq(net.kvHeads, h requires 0 <= h < net.kvHeads => Rotated(net, w.kNorm(w.kHead(h, x)), row)),
       seq(net.kvHeads, h requires 0 <= h < net.kvHeads => w.vHead(h, x)))
  }

  /** The rotations of positions offset, offset + 1, ... */
  function Rotations(net: Net, scale: Option<real>, offset: nat, n: nat): (rows: seq<Option<RopeRow>>)
    requires scale != Some(0.0)
    ensures |rows| == n
  {
    seq(n, t requires 0 <= t < n => Rotation(net, scale, offset + t))
  }

  function Entries(net: Net, w: AttnW, xs: seq<Vec>, rows: seq<Option<RopeRow>>): (kvs: seq<KV>)
    requires |rows| == |xs|
    ensures |kvs| == |xs| && Shaped(net, kvs)
  {
    seq(|xs|, t requires 0 <= t < |xs| => Entry(net, w, xs[t], rows[t]))
  }

  /** The keys query i admits, in position order. */
  function Admitted(net: Net, kvs: seq<KV>, mask: Mask, i: nat): (r: seq<KV>)
    requires Shaped(net, kvs)
    ensures Shaped(net, r)
  {
    if kvs == [] then []
    else
      var n := |kvs| - 1;
      Admitted(net, kvs[..n], mask, i) + (if Admits(mask, i, n) then [kvs[n]] else [])
  }

  /** Grouped-query attention: mx.repeat on the head axis. */
  function Repeat(hs: seq<Vec>, times: nat): seq<Vec>
  {
    seq(|hs| * times, h requires 0 <= h < |hs| * times => hs[RepeatSource(|hs|, times, h)])
  }

  function RepeatSource(n: nat, times: nat, h: nat): (g: nat)
    requires h < n * times
    ensures g < n && g * times <= h < (g + 1) * times
  {
    if h < times then (assert n > 0; 0) else
      assert h - times < (n - 1) * times;
      1 + RepeatSource(n - 1, times, h - times)
  }

  function Repeated(net: Net, hs: seq<Vec>): (r: seq<Vec>)
    requires net.Valid() && |hs| == net.kvHeads
    ensures |r| == net.heads
  {
    Repeat(hs, net.heads / net.kvHeads)
  }

  function HeadPairs(net: Net, kvs: seq<KV>, h: nat): seq<(Vec, Vec)>
    requires net.Valid() && Shaped(net, kvs) && h < net.heads
  {
    seq(|kvs|, j requires 0 <= j < |kvs| => (Repeated(net, kvs[j].k)[h], Repeated(net, kvs[j].v)[h]))
  }

  /** One head over the admitted keys; with no admitted key every score is the same masked constant. */
  function AttendHead(net: Net, q: Vec, kvs: seq<KV>, admitted: seq<KV>, h: nat): Vec
    requires net.Valid() && Shaped(net, kvs) && Shaped(net, admitted) && h < net.heads
  {
    if admitted == [] then net.level(seq(|kvs|, j requires 0 <= j < |kvs| => Repeated(net, kvs[j].v)[h]))
    else net.attend(q, HeadPairs(net, admitted, h))
  }

  function AttendAt(net: Net, w: AttnW, q: seq<Vec>, kvs: seq<KV>, mask: Mask, i: nat): Vec
    requires net.Valid() && Shaped(net, kvs) && |q| == net.heads
  {
    w.out(seq(net.heads, h requires 0 <= h < net.heads =>
      AttendHead(net, q[h], kvs, Admitted(net, kvs, mask, i), h)))
  }

  function AttendRow(net: Net, w: AttnW, xs: seq<Vec>, kvs: seq<KV>, mask: Mask,
                     rows: seq<Option<RopeRow>>): (r: seq<Vec>)
    requires net.Valid() && Shaped(net, kvs) && |rows| == |xs|
  {
    seq(|xs|, i requires 0 <= i < |xs| => AttendAt(net, w, Query(net, w, xs[i], rows[i]), kvs, mask, i))
  }

  /** Keys and values one `_attention` call uses, which are also what it leaves in its cache:
      a call without new keys reads the cache, a call on a filled cache appends to it, and a
      call without a cache rotates its keys from position 0 whatever the query offset is. */
  function KvsRow(net: Net, w: AttnW, kvIn: Option<seq<Vec>>, scale: Option<real>, offset: nat,
                  cache: Option<Cache>): (kvs: seq<KV>)
    requires scale != Some(0.0)
    requires cache.Some? && cache.value.Some? ==> Shaped(net, cache.value.value)
    requires kvIn.None? ==> cache.Some? && cache.value.Some?
    ensures Shaped(net, kvs)
  {
    if kvIn.None? then cache.value.value
    else
      var appended := Entries(net, w, kvIn.value,
                              Rotations(net, scale, if cache.Some? then offset else 0, |kvIn.value|));
      if cache.Some? && cache.value.Some? then cache.value.value + appended else appended
  }

  function Map1(f: Vec -> Vec, xs: seq<Vec>): seq<Vec> {
    seq(|xs|, i requires 0 <= i < |xs| => f(xs[i]))
  }

  function Map2(f: (Vec, Vec) -> Vec, xs: seq<Vec>, ys: seq<Vec>): seq<Vec>
    requires |xs| == |ys|
  {
    seq(|xs|, i requires 0 <= i < |xs| => f(xs[i], ys[i]))
  }

  function Embedded(net: Net, toks: seq<Tok>): seq<Vec> {
    seq(|toks|, i requires 0 <= i < |toks| => net.embed(toks[i]))
  }

  // ---- Encoder ----

  function PadMask(toks: seq<Tok>, pad: Tok): Mask {
    Keys(seq(|toks|, i requires 0 <= i < |toks| => toks[i] != pad))
  }

  function EncLayerRow(net: Net, lw: EncLayer, x: seq<Vec>, mask: Mask): (r: seq<Vec>)
    requires net.Valid()
    ensures |r| == |x|
  {
    var h := Map1(lw.norm, x);
    Map2(lw.add, x, AttendRow(net, lw.attn, h, KvsRow(net, lw.attn, Some(h), Some(net.encScale), 0, None),
                              mask, Rotations(net, Some(net.encScale), 0, |h|)))
  }

  /** Encoder states after `l` layers. */
  function EncX(net: Net, l: nat, toks: seq<Tok>, mask: Mask): (r: seq<Vec>)
    requires net.Valid() && l <= |net.enc|
    ensures |r| == |toks|
  {
    if l == 0 then Embedded(net, toks)
    else EncLayerRow(net, net.enc[l - 1], EncX(net, l - 1, toks, mask), mask)
  }

  function Encode(net: Net, toks: seq<Tok>, mask: Mask): (r: seq<Vec>)
    requires net.Valid()
    ensures |r| == |toks|
  {
    Map1(net.encNorm, EncX(net, |net.enc|, toks, mask))
  }

  // ---- Decoder with caches, as the code computes it ----

  function SelfKvs(net: Net, lw: DecLayer, x: seq<Vec>, offset: nat, cache: Option<Cache>): (r: seq<KV>)
    requires net.Valid() && (cache.Some? && cache.value.Some? ==> Shaped(net, cache.value.value))
    ensures Shaped(net, r)
  {
    KvsRow(net, lw.selfAttn, Some(Map1(lw.norm0, x)), Some(1.0), offset, cache)
  }

  /** Cross attention reads the cache once it is filled and never projects again. */
  function CrossKvs(net: Net, lw: DecLayer, encOut: seq<Vec>, cache: Option<Cache>): (r: seq<KV>)
    requires net.Valid() && (cache.Some? && cache.value.Some? ==> Shaped(net, cache.value.value))
    ensures Shaped(net, r)
  {
    KvsRow(net, lw.crossAttn, if cache.Some? && cache.value.Some? then None else Some(encOut), None, 0, cache)
  }

  function SelfOut(net: Net, lw: DecLayer, x: seq<Vec>, kvs: seq<KV>, mask: Mask, offset: nat): (r: seq<Vec>)
    requires net.Valid() && Shaped(net, kvs)
    ensures |r| == |x|
  {
    Map2(lw.addSelf, x, AttendRow(net, lw.selfAttn, Map1(lw.norm0, x), kvs, mask,
                                    Rotations(net, Some(1.0), offset, |x|)))
  }

  function CrossOut(net: Net, lw: DecLayer, x: seq<Vec>, kvs: seq<KV>, mask: Mask): (r: seq<Vec>)
    requires net.Valid() && Shaped(net, kvs)
    ensures |r| == |x|
  {
    Map2(lw.addCross, x, AttendRow(net, lw.crossAttn, Map1(lw.norm1, x), kvs, mask,
                                     Rotations(net, None, 0, |x|)))
  }

  predicate CacheShaped(net: Net, c: LayerCache) {
    && (c.self.Some? ==> Shaped(net, c.self.value))
    && (c.cross.Some? ==> Shaped(net, c.cross.value))
  }

  function LayerRow(net: Net, lw: DecLayer, x: seq<Vec>, encOut: seq<Vec>, selfMask: Mask, crossMask: Mask,
                    offset: nat, cache: Option<LayerCache>): (r: (seq<Vec>, LayerCache))
    requires net.Valid() && (cache.Some? ==> CacheShaped(net, cache.value))
    ensures |r.0| == |x| && CacheShaped(net, r.1)
  {
    var kvs := SelfKvs(net, lw, x, offset, if cache.Some? then Some(cache.value.self) else None);
    var ckvs := CrossKvs(net, lw, encOut, if cache.Some? then Some(cache.value.cross) else None);
    (CrossOut(net, lw, SelfOut(net, lw, x, kvs, selfMask, offset), ckvs, crossMask),
     LayerCache(Some(kvs), Some(ckvs)))
  }

  predicate CachesShaped(net: Net, caches: Option<seq<LayerCache>>) {
    caches.Some? ==> |caches.value| == |net.dec| && forall l :: 0 <= l < |net.dec| ==> CacheShaped(net, caches.value[l])
  }

  /** Decoder states before layer l; `caches` are those at the start of the call. */
  function DecX(net: Net, l: nat, toks: seq<Tok>, encOut: seq<Vec>, selfMask: Mask, crossMask: Mask,
                offset: nat, caches: Option<seq<LayerCache>>): (r: seq<Vec>)
    requires net.Valid() && l <= |net.dec| && CachesShaped(net, caches)
    ensures |r| == |toks|
    decreases l, 0
  {
    if l == 0 then Embedded(net, toks)
    else DecLayerAt(net, l - 1, toks, encOut, selfMask, crossMask, offset, caches).0
  }

  /** What layer l returns and leaves in its caches. */
  function DecLayerAt(net: Net, l: nat, toks: seq<Tok>, encOut: seq<Vec>, selfMask: Mask, crossMask: Mask,
                      offset: nat, caches: Option<seq<LayerCache>>): (r: (seq<Vec>, LayerCache))
    requires net.Valid() && l < |net.dec| && CachesShaped(net, caches)
    ensures |r.0| == |toks| && CacheShaped(net, r.1)
    decreases l, 1
  {
    LayerRow(net, net.dec[l], DecX(net, l, toks, encOut, selfMask, crossMask, offset, caches), encOut,
             selfMask, crossMask, offset, if caches.Some? then Some(caches.value[l]) else None)
  }

  function Logits(net: Net, x: seq<Vec>): seq<Vec> {
    Map1(net.logits, Map1(net.decNorm, x))
  }

  function DecodeRow(net: Net, toks: seq<Tok>, encOut: seq<Vec>, selfMask: Mask, crossMask: Mask,
                     offset: nat, caches: Option<seq<LayerCache>>): (r: seq<Vec>)
    requires net.Valid() && CachesShaped(net, caches)
    ensures |r| == |toks|
  {
    Logits(net, DecX(net, |net.dec|, toks, encOut, selfMask, crossMask, offset, caches))
  }

  function CachesAfter(net: Net, toks: seq<Tok>, encOut: seq<Vec>, selfMask: Mask, crossMask: Mask,
                       offset: nat, caches: seq<LayerCache>): (r: seq<LayerCache>)
    requires net.Valid() && CachesShaped(net, Some(caches))
    ensures CachesShaped(net, Some(r))
  {
    seq(|net.dec|, l requires 0 <= l < |net.dec| =>
      DecLayerAt(net, l, toks, encOut, selfMask, crossMask, offset, Some(caches)).1)
  }

  // ---- The whole-sequence causal decode it must agree with ----

  /** States before layer l of one uncached, causally masked pass over `toks`. */
  function FullX(net: Net, l: nat, toks: seq<Tok>, encOut: seq<Vec>, crossMask: Mask): (r: seq<Vec>)
    requires net.Valid() && l <= |net.dec|
    ensures |r| == |toks|
  {
    DecX(net, l, toks, encOut, Causal, crossMask, 0, None)
  }

  function FullLogits(net: Net, toks: seq<Tok>, encOut: seq<Vec>, crossMask: Mask): (r: seq<Vec>)
    requires net.Valid()
    ensures |r| == |toks|
  {
    DecodeRow(net, toks, encOut, Causal, crossMask, 0, None)
  }

  /** Self-attention keys and values of layer l over `toks` in that pass. */
  function FullKvs(net: Net, l: nat, toks: seq<Tok>, encOut: seq<Vec>, crossMask: Mask): (r: seq<KV>)
    requires net.Valid() && l < |net.dec|
    ensures |r| == |toks| && Shaped(net, r)
  {
    SelfKvs(net, net.dec[l], FullX(net, l, toks, encOut, crossMask), 0, None)
  }

  /** The cache of layer l after `prefix`: its roped keys and values, and the frozen cross entries. */
  function CacheOf(net: Net, l: nat, prefix: seq<Tok>, encOut: seq<Vec>, crossMask: Mask): (r: LayerCache)
    requires net.Valid() && l < |net.dec|
    ensures CacheShaped(net, r)
  {
    if prefix == [] then LayerCache(None, None)
    else LayerCache(Some(FullKvs(net, l, prefix, encOut, crossMask)),
                    Some(CrossKvs(net, net.dec[l], encOut, None)))
  }

  /** The caches are exactly those of an incremental decode that has consumed `prefix`. */
  ghost predicate Holds(net: Net, prefix: seq<Tok>, encOut: seq<Vec>, crossMask: Mask, caches: seq<LayerCache>)
    requires net.Valid()
  {
    && |caches| == |net.dec|
    && forall l :: 0 <= l < |net.dec| ==> caches[l] == CacheOf(net, l, prefix, encOut, crossMask)
  }
}
