/** The batched, stateful needle model (src-needle/src/seon_needle/model.py): rope tables that
    grow, kv caches that append or freeze, and the layer loops, proved against NeedleSpec. */
module NeedleModel {
  import opened Options
  import opened NeedleSpec
  import opened NeedleRows

  type Batch = seq<seq<Vec>>

  // ---- Rope tables ----

  /** int.bit_length: of the absolute value. */
  function BitLength(n: int): nat
    decreases n < 0, if n < 0 then -n else n
  {
    if n == 0 then 0 else if n < 0 then BitLength(-n) else 1 + BitLength(n / 2)
  }

  function Shl1(k: nat): (r: nat)
    ensures r > 0
  {
    if k == 0 then 1 else 2 * Shl1(k - 1)
  }

  ghost predicate IsPowerOfTwo(n: nat) {
    exists k: nat :: n == Shl1(k)
  }

  lemma {:induction false} BitLengthBounds(n: nat)
    ensures n < Shl1(BitLength(n))
    ensures n > 0 ==> Shl1(BitLength(n)) <= 2 * n
  {
    if n > 0 {
      BitLengthBounds(n / 2);
    }
  }

  function TableLength(seqLen: nat): nat {
    var p := Shl1(BitLength(seqLen - 1));
    if p < 512 then 512 else p
  }

  /** A table is a power of two, long enough for the request and less than twice too long. */
  lemma {:induction false} TableLengthBounds(seqLen: nat)
    ensures seqLen <= TableLength(seqLen) && IsPowerOfTwo(TableLength(seqLen))
    ensures TableLength(seqLen) == 512 || TableLength(seqLen) < 2 * seqLen
  {
    if seqLen > 0 {
      BitLengthBounds(seqLen - 1);
    }
    assert Shl1(9) == 512 by {
      assert Shl1(4) == 16;
      assert Shl1(8) == 256;
    }
  }

  datatype RopeTable = RopeTable(n: nat, rows: seq<RopeRow>)

  function RopeFreqs(net: Net, n: nat, scale: real): seq<RopeRow>
    requires scale != 0.0
  {
    seq(n, t requires 0 <= t < n => RopeAt(net, scale, t))
  }

  ghost predicate GoodTable(net: Net, scale: real, table: RopeTable) {
    && scale != 0.0 && 512 <= table.n && IsPowerOfTwo(table.n)
    && table.rows == RopeFreqs(net, table.n, scale)
  }

  class RopeTables {
    const net: Net
    var tables: map<real, RopeTable>

    ghost predicate Valid()
      reads this
    {
      net.Valid() && forall s :: s in tables ==> GoodTable(net, s, tables[s])
    }

    constructor (net: Net)
      requires net.Valid()
      ensures Valid() && this.net == net && tables == map[]
    {
      this.net := net;
      tables := map[];
    }

    /** A table of at least seqLen rows; a longer table replaces a shorter one and begins with it. */
    method Rope(seqLen: nat, scale: real) returns (rows: seq<RopeRow>)
      requires Valid() && scale != 0.0
      modifies this
      ensures Valid()
      ensures scale in tables && rows == tables[scale].rows && seqLen <= |rows|
      ensures forall t :: 0 <= t < |rows| ==> rows[t] == RopeAt(net, scale, t)
      ensures forall s :: s in old(tables) ==> s in tables && old(tables[s].rows) <= tables[s].rows
      ensures tables.Keys == old(tables).Keys + {scale}
      ensures forall s :: s in old(tables) && s != scale ==> tables[s] == old(tables)[s]
      ensures scale in old(tables) && seqLen <= old(tables)[scale].n ==> tables == old(tables)
    {
      if scale !in tables || tables[scale].n < seqLen {
        var n := TableLength(seqLen);
        TableLengthBounds(seqLen);
        tables := tables[scale := RopeTable(n, RopeFreqs(net, n, scale))];
      }
      return tables[scale].rows;
    }
  }

  /** apply_rope's slice of the table at an offset. */
  function Sliced(rope: Option<seq<RopeRow>>, offset: nat, n: nat): (r: seq<Option<RopeRow>>)
    requires rope.Some? ==> offset + n <= |rope.value|
    ensures |r| == n
  {
    if rope.None? then seq(n, _ => None)
    else
      var part := rope.value[offset..offset + n];
      seq(n, t requires 0 <= t < n => Some(part[t]))
  }

  ghost predicate RowsOf(net: Net, scale: Option<real>, rope: Option<seq<RopeRow>>) {
    && scale != Some(0.0) && (scale.Some? <==> rope.Some?)
    && (rope.Some? ==> forall t :: 0 <= t < |rope.value| ==> rope.value[t] == RopeAt(net, scale.value, t))
  }

  lemma {:induction false} SlicedRows(net: Net, scale: Option<real>, rope: Option<seq<RopeRow>>, offset: nat, n: nat)
    requires RowsOf(net, scale, rope) && (rope.Some? ==> offset + n <= |rope.value|)
    ensures Sliced(rope, offset, n) == Rotations(net, scale, offset, n)
  {
    forall t | 0 <= t < n
      ensures Sliced(rope, offset, n)[t] == Rotations(net, scale, offset, n)[t]
    {
      assert Rotations(net, scale, offset, n)[t] == Rotation(net, scale, offset + t);
      if rope.Some? {
        assert Sliced(rope, offset, n)[t] == Some(rope.value[offset..offset + n][t]);
        assert rope.value[offset + t] == RopeAt(net, scale.value, offset + t);
      } else {
        assert Sliced(rope, offset, n)[t] == None;
      }
    }
  }

  // ---- Attention over a kv cache ----

  /** What a kv dict holds: nothing, or one list of entries per batch row. */
  type Kv = Option<seq<seq<KV>>>

  class KvCache {
    var kv: Kv

    constructor ()
      ensures kv == None
    {
      kv := None;
    }
  }

  /** The part row b of the batch uses. */
  function KvRow(kv: Kv, b: nat): Cache
    requires kv.Some? ==> b < |kv.value|
  {
    if kv.None? then None else Some(kv.value[b])
  }

  ghost predicate KvFits(net: Net, kv: Kv, rows: nat) {
    kv.Some? ==> |kv.value| == rows && forall b :: 0 <= b < rows ==> Shaped(net, kv.value[b])
  }

  ghost predicate Rect<T>(x: seq<seq<T>>, rows: nat, n: nat) {
    |x| == rows && forall b :: 0 <= b < rows ==> |x[b]| == n
  }

  function OptRow<T>(x: Option<seq<T>>, b: nat): Option<T>
    requires x.Some? ==> b < |x.value|
  {
    if x.None? then None else Some(x.value[b])
  }

  /** `_attention` on a batch. `scale` names the table `rope` was built for. */
  method Attention(net: Net, w: AttnW, qIn: Batch, tq: nat, kvIn: Option<Batch>, tk: nat, mask: seq<Mask>,
                   rope: Option<seq<RopeRow>>, ghost scale: Option<real>, qOffset: nat, cache: KvCache?)
    returns (out: Batch)
    requires net.Valid() && Rect(qIn, |mask|, tq) && (kvIn.Some? ==> Rect(kvIn.value, |mask|, tk))
    requires cache != null ==> KvFits(net, cache.kv, |mask|)
    requires kvIn.None? ==> cache != null && cache.kv.Some?
    requires RowsOf(net, scale, rope)
    requires rope.Some? ==> qOffset + tq <= |rope.value| && qOffset + tk <= |rope.value|
    modifies cache
    ensures Rect(out, |mask|, tq)
    ensures forall b :: 0 <= b < |mask| ==>
      out[b] == AttendRow(net, w, qIn[b],
                          KvsRow(net, w, OptRow(kvIn, b), scale, qOffset,
                                 if cache == null then None else Some(KvRow(old(cache.kv), b))),
                          mask[b], Rotations(net, scale, qOffset, tq))
    ensures cache != null ==> KvFits(net, cache.kv, |mask|) && cache.kv.Some? && forall b :: 0 <= b < |mask| ==>
      KvRow(cache.kv, b) == Some(KvsRow(net, w, OptRow(kvIn, b), scale, qOffset, Some(KvRow(old(cache.kv), b))))
  {
    SlicedRows(net, scale, rope, qOffset, tq);
    var qRows := Sliced(rope, qOffset, tq);
    var kvs: seq<seq<KV>>;
    if kvIn.None? {
      kvs := cache.kv.value;
    } else {
      var kOffset := if cache != null then qOffset else 0;
      SlicedRows(net, scale, rope, kOffset, tk);
      var kRows := Sliced(rope, kOffset, tk);
      kvs := seq(|mask|, b requires 0 <= b < |mask| => Entries(net, w, kvIn.value[b], kRows));
      if cache != null {
        if cache.kv.Some? {
          var was := cache.kv.value;
          var now := kvs;
          kvs := seq(|mask|, b requires 0 <= b < |mask| => was[b] + now[b]);
        }
        cache.kv := Some(kvs);
      }
    }
    assert forall b :: 0 <= b < |mask| ==>
      kvs[b] == KvsRow(net, w, OptRow(kvIn, b), scale, qOffset,
                       if cache == null then None else Some(KvRow(old(cache.kv), b)));
    out := seq(|mask|, b requires 0 <= b < |mask| => AttendRow(net, w, qIn[b], kvs[b], mask[b], qRows));
  }

  function BatchMap1(f: Vec -> Vec, x: Batch): Batch {
    seq(|x|, b requires 0 <= b < |x| => Map1(f, x[b]))
  }

  function BatchMap2(f: (Vec, Vec) -> Vec, x: Batch, y: Batch): Batch
    requires |x| == |y| && forall b :: 0 <= b < |x| ==> |x[b]| == |y[b]|
  {
    seq(|x|, b requires 0 <= b < |x| => Map2(f, x[b], y[b]))
  }

  function BatchEmbed(net: Net, toks: seq<seq<Tok>>): Batch {
    seq(|toks|, b requires 0 <= b < |toks| => Embedded(net, toks[b]))
  }

  /** The states of every row after l encoder blocks. */
  ghost predicate EncStates(net: Net, l: nat, src: seq<seq<Tok>>, mask: seq<Mask>, len: nat, x: Batch)
    requires net.Valid() && l <= |net.enc| && |src| == |mask|
  {
    Rect(x, |mask|, len) && forall b :: 0 <= b < |mask| ==> x[b] == EncX(net, l, src[b], mask[b])
  }

  lemma {:induction false} EncNext(net: Net, l: nat, src: seq<seq<Tok>>, mask: seq<Mask>, len: nat, x: Batch, y: Batch)
    requires net.Valid() && l < |net.enc| && |src| == |mask| && EncStates(net, l, src, mask, len, x)
    requires Rect(y, |mask|, len) && forall b :: 0 <= b < |mask| ==> y[b] == EncLayerRow(net, net.enc[l], x[b], mask[b])
    ensures EncStates(net, l + 1, src, mask, len, y)
  {
  }

  lemma {:induction false} EncStart(net: Net, src: seq<seq<Tok>>, mask: seq<Mask>, len: nat)
    requires net.Valid() && Rect(src, |mask|, len)
    ensures EncStates(net, 0, src, mask, len, BatchEmbed(net, src))
  {
  }

  lemma {:induction false} EncEnd(net: Net, src: seq<seq<Tok>>, mask: seq<Mask>, len: nat, x: Batch)
    requires net.Valid() && |src| == |mask| && EncStates(net, |net.enc|, src, mask, len, x)
    ensures Rect(BatchMap1(net.encNorm, x), |mask|, len)
    ensures forall b :: 0 <= b < |mask| ==> BatchMap1(net.encNorm, x)[b] == Encode(net, src[b], mask[b])
  {
  }

  /** Encoder pass over a padded batch: every row is the row-level encoder of that row, written out as EncodePoints. */
  method EncodeBatch(ropes: RopeTables, src: seq<seq<Tok>>, len: nat, mask: seq<Mask>) returns (out: Batch)
    requires ropes.Valid() && Rect(src, |mask|, len)
    modifies ropes
    ensures ropes.Valid()
    ensures Rect(out, |mask|, len)
    ensures forall b :: 0 <= b < |mask| ==> out[b] == Encode(ropes.net, src[b], mask[b])
    ensures forall b :: 0 <= b < |mask| ==> out[b] == EncodePoints(ropes.net, src[b], mask[b])
  {
    var net := ropes.net;
    var x := BatchEmbed(net, src);
    var rope := ropes.Rope(len, net.encScale);
    EncStart(net, src, mask, len);
    for l := 0 to |net.enc|
      invariant ropes.Valid() && EncStates(net, l, src, mask, len, x)
    {
      var y := EncodeLayer(net, net.enc[l], x, len, mask, rope);
      EncNext(net, l, src, mask, len, x, y);
      x := y;
    }
    EncEnd(net, src, mask, len, x);
    out := BatchMap1(net.encNorm, x);
    forall b | 0 <= b < |mask| ensures out[b] == EncodePoints(net, src[b], mask[b]) {
      EncodeIs(net, src[b], mask[b]);
    }
  }

  /** One encoder block. */
  method EncodeLayer(net: Net, lw: EncLayer, x: Batch, len: nat, mask: seq<Mask>, rope: seq<RopeRow>) returns (y: Batch)
    requires net.Valid() && Rect(x, |mask|, len) && RowsOf(net, Some(net.encScale), Some(rope)) && len <= |rope|
    ensures Rect(y, |mask|, len)
    ensures forall b :: 0 <= b < |mask| ==> y[b] == EncLayerRow(net, lw, x[b], mask[b])
  {
    var h := BatchMap1(lw.norm, x);
    var a := Attention(net, lw.attn, h, len, Some(h), len, mask, Some(rope), Some(net.encScale), 0, null);
    y := BatchMap2(lw.add, x, a);
  }

  // ---- Decoder ----

  /** The two kv dicts of a decoder layer, and what they hold. */
  datatype LayerCaches = LayerCaches(self: KvCache, cross: KvCache)

  datatype LayerState = LayerState(self: Kv, cross: Kv)

  ghost predicate StateFits(net: Net, st: LayerState, rows: nat) {
    KvFits(net, st.self, rows) && KvFits(net, st.cross, rows)
  }

  ghost function StateRow(net: Net, st: LayerState, rows: nat, b: nat): (r: LayerCache)
    requires StateFits(net, st, rows) && b < rows
    ensures CacheShaped(net, r)
  {
    LayerCache(KvRow(st.self, b), KvRow(st.cross, b))
  }

  ghost predicate StatesFit(net: Net, sts: seq<LayerState>, rows: nat) {
    |sts| == |net.dec| && forall l :: 0 <= l < |sts| ==> StateFits(net, sts[l], rows)
  }

  /** The caches of all layers as row b of the batch sees them. */
  ghost function StatesRow(net: Net, sts: seq<LayerState>, rows: nat, b: nat): (r: seq<LayerCache>)
    requires StatesFit(net, sts, rows) && b < rows
    ensures CachesShaped(net, Some(r))
  {
    seq(|sts|, l requires 0 <= l < |sts| => StateRow(net, sts[l], rows, b))
  }

  ghost predicate Distinct(caches: seq<LayerCaches>) {
    && (forall l, m :: 0 <= l < |caches| && 0 <= m < |caches| ==> caches[l].self != caches[m].cross)
    && (forall l, m :: 0 <= l < m < |caches| ==> caches[l].self != caches[m].self && caches[l].cross != caches[m].cross)
  }

  ghost function Objects(caches: seq<LayerCaches>): set<object> {
    (set l | 0 <= l < |caches| :: caches[l].self) + (set l | 0 <= l < |caches| :: caches[l].cross)
  }

  /** The caches are distinct dicts holding `sts`. */
  ghost predicate Hold(caches: seq<LayerCaches>, sts: seq<LayerState>)
    reads Objects(caches)
  {
    && |caches| == |sts| && Distinct(caches)
    && forall l :: 0 <= l < |caches| ==> LayerState(caches[l].self.kv, caches[l].cross.kv) == sts[l]
  }

  method NewCaches(net: Net) returns (caches: seq<LayerCaches>)
    ensures fresh(Objects(caches)) && Hold(caches, seq(|net.dec|, _ => LayerState(None, None)))
  {
    caches := [];
    for l := 0 to |net.dec|
      invariant |caches| == l && Distinct(caches)
      invariant forall m :: 0 <= m < l ==> fresh(caches[m].self) && caches[m].self.kv == None
      invariant forall m :: 0 <= m < l ==> fresh(caches[m].cross) && caches[m].cross.kv == None
    {
      var self := new KvCache();
      var cross := new KvCache();
      caches := caches + [LayerCaches(self, cross)];
    }
  }

  /** One decoder layer on a batch: self attention over an appending cache, then cross attention
      over a cache that is projected on its first use only. */
  method DecodeLayer(net: Net, lw: DecLayer, x: Batch, len: nat, encOut: Batch, encLen: nat, selfMask: Mask,
                     crossMask: seq<Mask>, rope: seq<RopeRow>, offset: nat, self: KvCache?, cross: KvCache?,
                     ghost st: LayerState)
    returns (y: Batch, ghost st': LayerState)
    requires net.Valid() && Rect(x, |crossMask|, len) && Rect(encOut, |crossMask|, encLen)
    requires RowsOf(net, Some(1.0), Some(rope)) && offset + len <= |rope|
    requires (self == null) == (cross == null) && StateFits(net, st, |crossMask|)
    requires self != null ==> self != cross && st == LayerState(self.kv, cross.kv)
    modifies self, cross
    ensures self != null ==> st' == LayerState(self.kv, cross.kv)
    ensures StateFits(net, st', |crossMask|) && Rect(y, |crossMask|, len)
    ensures forall b :: 0 <= b < |crossMask| ==>
      y[b] == LayerRow(net, lw, x[b], encOut[b], selfMask, crossMask[b], offset,
                       if self == null then None else Some(StateRow(net, st, |crossMask|, b))).0
    ensures self != null ==> forall b :: 0 <= b < |crossMask| ==>
      StateRow(net, st', |crossMask|, b)
      == LayerRow(net, lw, x[b], encOut[b], selfMask, crossMask[b], offset, Some(StateRow(net, st, |crossMask|, b))).1
  {
    var h := BatchMap1(lw.norm0, x);
    var a := Attention(net, lw.selfAttn, h, len, Some(h), len, seq(|crossMask|, _ => selfMask),
                       Some(rope), Some(1.0), offset, self);
    var s := BatchMap2(lw.addSelf, x, a);
    h := BatchMap1(lw.norm1, s);
    var useCached := cross != null && cross.kv.Some?;
    a := Attention(net, lw.crossAttn, h, len, if useCached then None else Some(encOut), encLen, crossMask,
                   None, None, 0, cross);
    y := BatchMap2(lw.addCross, s, a);
    st' := if self == null then st else LayerState(self.kv, cross.kv);
  }

  /** The arguments of one decoder call, as the row-level decoder takes them for row b. */
  datatype Call = Call(tgt: seq<seq<Tok>>, encOut: Batch, selfMask: Mask, crossMask: seq<Mask>, offset: nat,
                       cached: bool, sts: seq<LayerState>)
  {
    ghost predicate Fits(net: Net, len: nat, encLen: nat) {
      && net.Valid() && Rect(tgt, |crossMask|, len) && Rect(encOut, |crossMask|, encLen)
      && StatesFit(net, sts, |crossMask|)
    }

    /** Row b's caches at the start of the call. */
    ghost function Caches(net: Net, b: nat): (r: Option<seq<LayerCache>>)
      requires StatesFit(net, sts, |crossMask|) && b < |crossMask|
      ensures CachesShaped(net, r)
    {
      if cached then Some(StatesRow(net, sts, |crossMask|, b)) else None
    }

    ghost function X(net: Net, len: nat, encLen: nat, l: nat, b: nat): (r: seq<Vec>)
      requires Fits(net, len, encLen) && l <= |net.dec| && b < |crossMask|
      ensures |r| == len
    {
      DecX(net, l, tgt[b], encOut[b], selfMask, crossMask[b], offset, Caches(net, b))
    }

    ghost function Left(net: Net, len: nat, encLen: nat, l: nat, b: nat): (r: LayerCache)
      requires Fits(net, len, encLen) && l < |net.dec| && b < |crossMask|
    {
      DecLayerAt(net, l, tgt[b], encOut[b], selfMask, crossMask[b], offset, Caches(net, b)).1
    }

    lemma {:induction false} Step(net: Net, len: nat, encLen: nat, l: nat, b: nat)
      requires Fits(net, len, encLen) && l < |net.dec| && b < |crossMask|
      ensures LayerRow(net, net.dec[l], X(net, len, encLen, l, b), encOut[b], selfMask, crossMask[b], offset,
                       if cached then Some(StateRow(net, sts[l], |crossMask|, b)) else None)
           == (X(net, len, encLen, l + 1, b), Left(net, len, encLen, l, b))
    {
      assert X(net, len, encLen, l + 1, b)
          == DecLayerAt(net, l, tgt[b], encOut[b], selfMask, crossMask[b], offset, Caches(net, b)).0;
    }
  }

  ghost predicate RowsAt(net: Net, c: Call, len: nat, encLen: nat, l: nat, x: Batch)
    requires c.Fits(net, len, encLen) && l <= |net.dec|
  {
    |x| == |c.crossMask| && forall b :: 0 <= b < |x| ==> x[b] == c.X(net, len, encLen, l, b)
  }

  ghost predicate LayerLeft(net: Net, c: Call, len: nat, encLen: nat, l: nat, st: LayerState)
    requires c.Fits(net, len, encLen) && l < |net.dec|
  {
    && StateFits(net, st, |c.crossMask|)
    && forall b :: 0 <= b < |c.crossMask| ==> StateRow(net, st, |c.crossMask|, b) == c.Left(net, len, encLen, l, b)
  }

  /** Layer l of the loop, on the caches of that layer; `cur` is what the caches hold before it. */
  method LayerPass(net: Net, l: nat, x: Batch, ghost c: Call, len: nat, encOut: Batch, encLen: nat, selfMask: Mask,
                   crossMask: seq<Mask>, rope: seq<RopeRow>, offset: nat, caches: Option<seq<LayerCaches>>,
                   ghost cur: seq<LayerState>)
    returns (y: Batch, ghost st: LayerState)
    requires c == Call(c.tgt, encOut, selfMask, crossMask, offset, caches.Some?, c.sts)
    requires c.Fits(net, len, encLen) && l < |net.dec| && RowsAt(net, c, len, encLen, l, x)
    requires RowsOf(net, Some(1.0), Some(rope)) && offset + len <= |rope|
    requires StatesFit(net, cur, |crossMask|) && cur[l] == c.sts[l]
    requires caches.Some? ==> Hold(caches.value, cur)
    modifies if caches.Some? then {caches.value[l].self, caches.value[l].cross} else {}
    ensures RowsAt(net, c, len, encLen, l + 1, y)
    ensures StateFits(net, st, |crossMask|)
    ensures caches.Some? ==> Hold(caches.value, cur[l := st]) && LayerLeft(net, c, len, encLen, l, st)
  {
    if caches.None? {
      y, st := DecodeLayer(net, net.dec[l], x, len, encOut, encLen, selfMask, crossMask, rope, offset,
                           null, null, cur[l]);
    } else {
      y, st := DecodeLayer(net, net.dec[l], x, len, encOut, encLen, selfMask, crossMask, rope, offset,
                           caches.value[l].self, caches.value[l].cross, cur[l]);
    }
    forall b | 0 <= b < |crossMask| {
      c.Step(net, len, encLen, l, b);
    }
  }

  /** `_decoder_x` up to the final norm: the loop over the layers. */
  method DecoderLayers(ropes: RopeTables, tgt: seq<seq<Tok>>, len: nat, encOut: Batch, encLen: nat, selfMask: Mask,
                       crossMask: seq<Mask>, offset: nat, caches: Option<seq<LayerCaches>>, ghost sts: seq<LayerState>)
    returns (x: Batch, ghost sts': seq<LayerState>)
    requires ropes.Valid() && Call(tgt, encOut, selfMask, crossMask, offset, caches.Some?, sts).Fits(ropes.net, len, encLen)
    requires caches.Some? ==> Hold(caches.value, sts)
    modifies ropes, if caches.Some? then Objects(caches.value) else {}
    ensures ropes.Valid() && |sts'| == |sts|
    ensures caches.Some? ==> Hold(caches.value, sts')
    ensures var c := Call(tgt, encOut, selfMask, crossMask, offset, caches.Some?, sts);
      && RowsAt(ropes.net, c, len, encLen, |ropes.net.dec|, x)
      && (caches.Some? ==> forall l :: 0 <= l < |sts'| ==> LayerLeft(ropes.net, c, len, encLen, l, sts'[l]))
  {
    var net := ropes.net;
    ghost var c := Call(tgt, encOut, selfMask, crossMask, offset, caches.Some?, sts);
    sts' := sts;
    x := BatchEmbed(net, tgt);
    var rope := ropes.Rope(offset + len, 1.0);
    for l := 0 to |net.dec|
      invariant ropes.Valid() && StatesFit(net, sts', |crossMask|)
      invariant caches.Some? ==> Hold(caches.value, sts')
      invariant RowsAt(net, c, len, encLen, l, x)
      invariant forall m :: l <= m < |net.dec| ==> sts'[m] == sts[m]
      invariant caches.Some? ==> forall m :: 0 <= m < l ==> LayerLeft(net, c, len, encLen, m, sts'[m])
    {
      ghost var st;
      x, st := LayerPass(net, l, x, c, len, encOut, encLen, selfMask, crossMask, rope, offset, caches, sts');
      sts' := sts'[l := st];
    }
  }

  /** Decoder pass over a batch, with or without caches: every row, written out as DecodePoints, and every row's
      caches are those of the row-level decoder. `sts` names what the caches hold at the start. */
  method DecodeBatch(ropes: RopeTables, tgt: seq<seq<Tok>>, len: nat, encOut: Batch, encLen: nat, selfMask: Mask,
                     crossMask: seq<Mask>, offset: nat, caches: Option<seq<LayerCaches>>, ghost sts: seq<LayerState>)
    returns (out: Batch, ghost sts': seq<LayerState>)
    requires ropes.Valid() && Call(tgt, encOut, selfMask, crossMask, offset, caches.Some?, sts).Fits(ropes.net, len, encLen)
    requires caches.Some? ==> Hold(caches.value, sts)
    modifies ropes, if caches.Some? then Objects(caches.value) else {}
    ensures ropes.Valid() && |out| == |crossMask|
    ensures forall b :: 0 <= b < |crossMask| ==>
      out[b] == DecodeRow(ropes.net, tgt[b], encOut[b], selfMask, crossMask[b], offset,
                          Call(tgt, encOut, selfMask, crossMask, offset, caches.Some?, sts).Caches(ropes.net, b))
    ensures forall b :: 0 <= b < |crossMask| ==>
      out[b] == DecodePoints(ropes.net, tgt[b], encOut[b], selfMask, crossMask[b], offset,
                             Call(tgt, encOut, selfMask, crossMask, offset, caches.Some?, sts).Caches(ropes.net, b))
    ensures caches.Some? ==> Hold(caches.value, sts') && StatesFit(ropes.net, sts', |crossMask|)
    ensures caches.Some? ==> forall b :: 0 <= b < |crossMask| ==>
      StatesRow(ropes.net, sts', |crossMask|, b)
      == CachesAfter(ropes.net, tgt[b], encOut[b], selfMask, crossMask[b], offset,
                     StatesRow(ropes.net, sts, |crossMask|, b))
  {
    var x;
    x, sts' := DecoderLayers(ropes, tgt, len, encOut, encLen, selfMask, crossMask, offset, caches, sts);
    out := BatchMap1(ropes.net.logits, BatchMap1(ropes.net.decNorm, x));
    ghost var c := Call(tgt, encOut, selfMask, crossMask, offset, caches.Some?, sts);
    forall b | 0 <= b < |crossMask| {
      DecodeIs(ropes.net, tgt[b], encOut[b], selfMask, crossMask[b], offset, c.Caches(ropes.net, b));
    }
  }
}
