/** What the needle transformer (src-needle/src/seon_needle/model.py) computes for one position, written out over
    its weights and the positions a query sees. The batched, cached and recursive forms of the other modules are
    proved equal to this. */
module NeedleRows {
  import opened Options
  import opened NeedleSpec

  // ---- What a query sees ----

  /** The positions below n that query i sees, in order. */
  function Seen(mask: Mask, i: nat, n: nat): seq<nat> {
    if n == 0 then []
    else
      var sees := match mask
        case NoMask => true
        case Causal => n - 1 <= i
        case Keys(ok) => n - 1 < |ok| && ok[n - 1];
      Seen(mask, i, n - 1) + (if sees then [n - 1] else [])
  }

  lemma {:induction false} SeenBelow(mask: Mask, i: nat, n: nat)
    ensures forall a :: 0 <= a < |Seen(mask, i, n)| ==> Seen(mask, i, n)[a] < n
    ensures forall a, b :: 0 <= a < b < |Seen(mask, i, n)| ==> Seen(mask, i, n)[a] < Seen(mask, i, n)[b]
  {
    if n > 0 { SeenBelow(mask, i, n - 1); }
  }

  /** Exactly the earlier positions and the query's own, or the keys that are not padding. */
  lemma {:induction false} SeenExactly(mask: Mask, i: nat, n: nat, j: nat)
    ensures j in Seen(mask, i, n) <==>
      j < n && (mask.Causal? ==> j <= i) && (mask.Keys? ==> j < |mask.ok| && mask.ok[j])
  {
    if n > 0 { SeenExactly(mask, i, n - 1, j); }
  }

  /** The key-value head a head shares: heads are repeated in consecutive groups. */
  lemma {:induction false} GroupOf(net: Net, h: nat)
    requires net.Valid() && h < net.heads
    ensures h / (net.heads / net.kvHeads) < net.kvHeads
  {
    var size := net.heads / net.kvHeads;
    assert net.heads == net.kvHeads * size;
    var g := RepeatSource(net.kvHeads, size, h);
    QuotientIs(h, size, g);
  }

  lemma {:induction false} QuotientIs(h: nat, size: nat, g: nat)
    requires g * size <= h < (g + 1) * size
    ensures size > 0 && h / size == g
  {
    assert (g + 1) * size == g * size + size;
    assert h == g * size + (h - g * size);
    QuotientUnique(h, size, g, h - g * size);
  }

  lemma {:induction false} QuotientUnique(h: nat, size: nat, g: nat, rest: nat)
    requires h == g * size + rest && rest < size
    ensures h / size == g
  {
    var q, r := h / size, h % size;
    assert h == q * size + r;
    if q < g {
      LessTimes(q, g, size);
    } else if q > g {
      LessTimes(g, q, size);
    }
  }

  lemma {:induction false} LessTimes(a: nat, b: nat, size: nat)
    requires a < b
    ensures a * size + size <= b * size
    decreases b - a
  {
    assert (b - 1) * size + size == b * size;
    if a < b - 1 { LessTimes(a, b - 1, size); }
  }

  // ---- One position of a layer ----

  /** Heads h of a query over keys and values: each attends the positions seen with the keys and values of its group,
      and where none is seen takes the mean over all. */
  function Heads(net: Net, q: seq<Vec>, kvs: seq<KV>, js: seq<nat>): seq<Vec>
    requires net.Valid() && |q| == net.heads && Shaped(net, kvs) && forall a :: 0 <= a < |js| ==> js[a] < |kvs|
  {
    seq(net.heads, h requires 0 <= h < net.heads =>
      var g := h / (net.heads / net.kvHeads);
      GroupOf(net, h);
      if js == [] then net.level(seq(|kvs|, j requires 0 <= j < |kvs| => kvs[j].v[g]))
      else net.attend(q[h], seq(|js|, a requires 0 <= a < |js| => (kvs[js[a]].k[g], kvs[js[a]].v[g]))))
  }

  /** The key of position t of an encoder row, turned by t divided by the scale, and its value. */
  function EncEntry(net: Net, lw: EncLayer, v: Vec, t: nat): KV
    requires net.Valid()
  {
    var w := lw.attn;
    KV(seq(net.kvHeads, g requires 0 <= g < net.kvHeads =>
         net.rotate(w.kNorm(w.kHead(g, lw.norm(v))), net.ropeRow(t as real / net.encScale))),
       seq(net.kvHeads, g requires 0 <= g < net.kvHeads => w.vHead(g, lw.norm(v))))
  }

  /** Position i of an encoder layer: the query is turned like the keys. */
  function EncPoint(net: Net, lw: EncLayer, x: seq<Vec>, i: nat, mask: Mask): Vec
    requires net.Valid() && i < |x|
  {
    var w := lw.attn;
    var q := seq(net.heads, h requires 0 <= h < net.heads =>
      net.rotate(w.qNorm(w.qHead(h, lw.norm(x[i]))), net.ropeRow(i as real / net.encScale)));
    var kvs := seq(|x|, j requires 0 <= j < |x| => EncEntry(net, lw, x[j], j));
    SeenBelow(mask, i, |x|);
    lw.add(x[i], w.out(Heads(net, q, kvs, Seen(mask, i, |x|))))
  }

  /** The key of position t of the sequence, turned by t, and its value. */
  function SelfEntry(net: Net, lw: DecLayer, v: Vec, t: nat): KV {
    var w := lw.selfAttn;
    KV(seq(net.kvHeads, g requires 0 <= g < net.kvHeads =>
         net.rotate(w.kNorm(w.kHead(g, lw.norm0(v))), net.ropeRow(t as real))),
       seq(net.kvHeads, g requires 0 <= g < net.kvHeads => w.vHead(g, lw.norm0(v))))
  }

  /** What self attention attends: the cached entries, then those of x, which start at the offset if there is a cache. */
  function SelfEntries(net: Net, lw: DecLayer, x: seq<Vec>, offset: nat, cache: Option<LayerCache>): (kvs: seq<KV>)
    requires cache.Some? ==> CacheShaped(net, cache.value)
    ensures Shaped(net, kvs)
  {
    var start := if cache.Some? then offset else 0;
    (if cache.Some? && cache.value.self.Some? then cache.value.self.value else [])
    + seq(|x|, j requires 0 <= j < |x| => SelfEntry(net, lw, x[j], start + j))
  }

  /** What cross attention attends: the frozen entries if there are any, else those of the encoder states. */
  function CrossEntries(net: Net, lw: DecLayer, encOut: seq<Vec>, cache: Option<LayerCache>): (kvs: seq<KV>)
    requires cache.Some? ==> CacheShaped(net, cache.value)
    ensures Shaped(net, kvs)
  {
    var w := lw.crossAttn;
    if cache.Some? && cache.value.cross.Some? then cache.value.cross.value
    else
      seq(|encOut|, j requires 0 <= j < |encOut| => KV(
        seq(net.kvHeads, g requires 0 <= g < net.kvHeads => w.kNorm(w.kHead(g, encOut[j]))),
        seq(net.kvHeads, g requires 0 <= g < net.kvHeads => w.vHead(g, encOut[j]))))
  }

  /** Position i after self attention. */
  function SelfPoint(net: Net, lw: DecLayer, x: seq<Vec>, i: nat, mask: Mask, offset: nat, cache: Option<LayerCache>): Vec
    requires net.Valid() && i < |x| && (cache.Some? ==> CacheShaped(net, cache.value))
  {
    var w, kvs := lw.selfAttn, SelfEntries(net, lw, x, offset, cache);
    var q := seq(net.heads, h requires 0 <= h < net.heads =>
      net.rotate(w.qNorm(w.qHead(h, lw.norm0(x[i]))), net.ropeRow((offset + i) as real)));
    SeenBelow(mask, i, |kvs|);
    lw.addSelf(x[i], w.out(Heads(net, q, kvs, Seen(mask, i, |kvs|))))
  }

  /** Position i of a decoder layer: self attention, then cross attention without any turning. */
  function DecPoint(net: Net, lw: DecLayer, x: seq<Vec>, i: nat, encOut: seq<Vec>, selfMask: Mask, crossMask: Mask,
                    offset: nat, cache: Option<LayerCache>): Vec
    requires net.Valid() && i < |x| && (cache.Some? ==> CacheShaped(net, cache.value))
  {
    var w, s := lw.crossAttn, SelfPoint(net, lw, x, i, selfMask, offset, cache);
    var kvs := CrossEntries(net, lw, encOut, cache);
    var q := seq(net.heads, h requires 0 <= h < net.heads => w.qNorm(w.qHead(h, lw.norm1(s))));
    SeenBelow(crossMask, i, |kvs|);
    lw.addCross(s, w.out(Heads(net, q, kvs, Seen(crossMask, i, |kvs|))))
  }

  // ---- Whole passes ----

  /** The states after l encoder layers. */
  function EncPoints(net: Net, l: nat, toks: seq<Tok>, mask: Mask): (x: seq<Vec>)
    requires net.Valid() && l <= |net.enc|
    ensures |x| == |toks|
  {
    if l == 0 then seq(|toks|, i requires 0 <= i < |toks| => net.embed(toks[i]))
    else
      var x := EncPoints(net, l - 1, toks, mask);
      seq(|toks|, i requires 0 <= i < |toks| => EncPoint(net, net.enc[l - 1], x, i, mask))
  }

  /** encode() of one row. */
  function EncodePoints(net: Net, toks: seq<Tok>, mask: Mask): (x: seq<Vec>)
    requires net.Valid()
    ensures |x| == |toks|
  {
    var x := EncPoints(net, |net.enc|, toks, mask);
    seq(|toks|, i requires 0 <= i < |toks| => net.encNorm(x[i]))
  }

  /** The states after l decoder layers. */
  function DecPoints(net: Net, l: nat, toks: seq<Tok>, encOut: seq<Vec>, selfMask: Mask, crossMask: Mask, offset: nat,
                     caches: Option<seq<LayerCache>>): (x: seq<Vec>)
    requires net.Valid() && l <= |net.dec| && CachesShaped(net, caches)
    ensures |x| == |toks|
  {
    if l == 0 then seq(|toks|, i requires 0 <= i < |toks| => net.embed(toks[i]))
    else
      var x := DecPoints(net, l - 1, toks, encOut, selfMask, crossMask, offset, caches);
      seq(|toks|, i requires 0 <= i < |toks| =>
        DecPoint(net, net.dec[l - 1], x, i, encOut, selfMask, crossMask, offset,
                 if caches.Some? then Some(caches.value[l - 1]) else None))
  }

  /** decode() of one row: the logits of every position. */
  function DecodePoints(net: Net, toks: seq<Tok>, encOut: seq<Vec>, selfMask: Mask, crossMask: Mask, offset: nat,
                        caches: Option<seq<LayerCache>>): (r: seq<Vec>)
    requires net.Valid() && CachesShaped(net, caches)
    ensures |r| == |toks|
  {
    var x := DecPoints(net, |net.dec|, toks, encOut, selfMask, crossMask, offset, caches);
    seq(|toks|, i requires 0 <= i < |toks| => net.logits(net.decNorm(x[i])))
  }

  // ---- The row-level forms compute this ----

  lemma {:induction false} RepeatedAt(net: Net, hs: seq<Vec>, h: nat)
    requires net.Valid() && |hs| == net.kvHeads && h < net.heads
    ensures h / (net.heads / net.kvHeads) < net.kvHeads && Repeated(net, hs)[h] == hs[h / (net.heads / net.kvHeads)]
  {
    var size := net.heads / net.kvHeads;
    assert net.heads == net.kvHeads * size;
    QuotientIs(h, size, RepeatSource(net.kvHeads, size, h));
  }

  lemma {:induction false} AdmittedAre(net: Net, kvs: seq<KV>, mask: Mask, i: nat)
    requires Shaped(net, kvs)
    ensures forall a :: 0 <= a < |Seen(mask, i, |kvs|)| ==> Seen(mask, i, |kvs|)[a] < |kvs|
    ensures var js := Seen(mask, i, |kvs|); Admitted(net, kvs, mask, i) == seq(|js|, a requires 0 <= a < |js| => kvs[js[a]])
  {
    SeenBelow(mask, i, |kvs|);
    if kvs != [] {
      var n := |kvs| - 1;
      AdmittedAre(net, kvs[..n], mask, i);
      var js, js' := Seen(mask, i, n), Seen(mask, i, |kvs|);
      assert forall a :: 0 <= a < |js| ==> kvs[..n][js[a]] == kvs[js[a]];
    }
  }

  lemma {:induction false} HeadIs(net: Net, q: seq<Vec>, kvs: seq<KV>, mask: Mask, i: nat, h: nat)
    requires net.Valid() && |q| == net.heads && Shaped(net, kvs) && h < net.heads
    requires forall a :: 0 <= a < |Seen(mask, i, |kvs|)| ==> Seen(mask, i, |kvs|)[a] < |kvs|
    ensures AttendHead(net, q[h], kvs, Admitted(net, kvs, mask, i), h) == Heads(net, q, kvs, Seen(mask, i, |kvs|))[h]
  {
    var g, js := h / (net.heads / net.kvHeads), Seen(mask, i, |kvs|);
    GroupOf(net, h);
    AdmittedAre(net, kvs, mask, i);
    var admitted := Admitted(net, kvs, mask, i);
    forall j | 0 <= j < |kvs| ensures Repeated(net, kvs[j].k)[h] == kvs[j].k[g] && Repeated(net, kvs[j].v)[h] == kvs[j].v[g] {
      RepeatedAt(net, kvs[j].k, h);
      RepeatedAt(net, kvs[j].v, h);
    }
    if js == [] {
      assert seq(|kvs|, j requires 0 <= j < |kvs| => Repeated(net, kvs[j].v)[h])
          == seq(|kvs|, j requires 0 <= j < |kvs| => kvs[j].v[g]);
    } else {
      assert HeadPairs(net, admitted, h) == seq(|js|, a requires 0 <= a < |js| => (kvs[js[a]].k[g], kvs[js[a]].v[g]));
    }
  }

  lemma {:induction false} AttendIs(net: Net, w: AttnW, q: seq<Vec>, kvs: seq<KV>, mask: Mask, i: nat)
    requires net.Valid() && |q| == net.heads && Shaped(net, kvs)
    ensures forall a :: 0 <= a < |Seen(mask, i, |kvs|)| ==> Seen(mask, i, |kvs|)[a] < |kvs|
    ensures AttendAt(net, w, q, kvs, mask, i) == w.out(Heads(net, q, kvs, Seen(mask, i, |kvs|)))
  {
    SeenBelow(mask, i, |kvs|);
    var hs := seq(net.heads, h requires 0 <= h < net.heads => AttendHead(net, q[h], kvs, Admitted(net, kvs, mask, i), h));
    forall h | 0 <= h < net.heads ensures hs[h] == Heads(net, q, kvs, Seen(mask, i, |kvs|))[h] {
      HeadIs(net, q, kvs, mask, i, h);
    }
    assert hs == Heads(net, q, kvs, Seen(mask, i, |kvs|));
  }

  lemma {:induction false} EntryIs(net: Net, w: AttnW, v: Vec, r: RopeRow)
    ensures Entry(net, w, v, Some(r)) == KV(
      seq(net.kvHeads, g requires 0 <= g < net.kvHeads => net.rotate(w.kNorm(w.kHead(g, v)), r)),
      seq(net.kvHeads, g requires 0 <= g < net.kvHeads => w.vHead(g, v)))
    ensures Entry(net, w, v, None) == KV(
      seq(net.kvHeads, g requires 0 <= g < net.kvHeads => w.kNorm(w.kHead(g, v))),
      seq(net.kvHeads, g requires 0 <= g < net.kvHeads => w.vHead(g, v)))
  {
    assert Entry(net, w, v, None).k == seq(net.kvHeads, g requires 0 <= g < net.kvHeads => w.kNorm(w.kHead(g, v)));
  }

  lemma {:induction false} QueryIs(net: Net, w: AttnW, v: Vec, r: RopeRow)
    ensures Query(net, w, v, Some(r))
         == seq(net.heads, h requires 0 <= h < net.heads => net.rotate(w.qNorm(w.qHead(h, v)), r))
    ensures Query(net, w, v, None) == seq(net.heads, h requires 0 <= h < net.heads => w.qNorm(w.qHead(h, v)))
  {
  }

  lemma {:induction false} EncLayerIs(net: Net, lw: EncLayer, x: seq<Vec>, i: nat, mask: Mask)
    requires net.Valid() && i < |x|
    ensures EncLayerRow(net, lw, x, mask)[i] == EncPoint(net, lw, x, i, mask)
  {
    var w, h := lw.attn, Map1(lw.norm, x);
    var kvs := KvsRow(net, w, Some(h), Some(net.encScale), 0, None);
    EncNew(net, lw, x);
    QueryIs(net, w, lw.norm(x[i]), net.ropeRow(i as real / net.encScale));
    AttendIs(net, w, Query(net, w, h[i], Rotation(net, Some(net.encScale), i)), kvs, mask, i);
    assert Rotations(net, Some(net.encScale), 0, |h|)[i] == Rotation(net, Some(net.encScale), i);
  }

  lemma {:induction false} EncNew(net: Net, lw: EncLayer, x: seq<Vec>)
    requires net.Valid()
    ensures KvsRow(net, lw.attn, Some(Map1(lw.norm, x)), Some(net.encScale), 0, None)
         == seq(|x|, j requires 0 <= j < |x| => EncEntry(net, lw, x[j], j))
  {
    var kvs := KvsRow(net, lw.attn, Some(Map1(lw.norm, x)), Some(net.encScale), 0, None);
    forall j | 0 <= j < |x| ensures kvs[j] == EncEntry(net, lw, x[j], j) {
      assert kvs[j] == Entry(net, lw.attn, lw.norm(x[j]), Rotation(net, Some(net.encScale), 0 + j));
      EntryIs(net, lw.attn, lw.norm(x[j]), net.ropeRow(j as real / net.encScale));
    }
  }

  lemma {:induction false} RopeIs(net: Net, t: nat)
    ensures Rotation(net, Some(1.0), t) == Some(net.ropeRow(t as real))
  {
    assert t as real / 1.0 == t as real;
  }

  lemma {:induction false} SelfKvsAre(net: Net, lw: DecLayer, x: seq<Vec>, offset: nat, cache: Option<LayerCache>)
    requires net.Valid() && (cache.Some? ==> CacheShaped(net, cache.value))
    ensures SelfKvs(net, lw, x, offset, if cache.Some? then Some(cache.value.self) else None)
         == SelfEntries(net, lw, x, offset, cache)
  {
    SelfNew(net, lw, x, if cache.Some? then offset else 0);
  }

  lemma {:induction false} SelfNew(net: Net, lw: DecLayer, x: seq<Vec>, start: nat)
    ensures Entries(net, lw.selfAttn, Map1(lw.norm0, x), Rotations(net, Some(1.0), start, |x|))
         == seq(|x|, j requires 0 <= j < |x| => SelfEntry(net, lw, x[j], start + j))
  {
    var new1 := Entries(net, lw.selfAttn, Map1(lw.norm0, x), Rotations(net, Some(1.0), start, |x|));
    forall j | 0 <= j < |x| ensures new1[j] == SelfEntry(net, lw, x[j], start + j) {
      assert new1[j] == Entry(net, lw.selfAttn, lw.norm0(x[j]), Rotation(net, Some(1.0), start + j));
      RopeIs(net, start + j);
      EntryIs(net, lw.selfAttn, lw.norm0(x[j]), net.ropeRow((start + j) as real));
    }
  }

  lemma {:induction false} CrossKvsAre(net: Net, lw: DecLayer, encOut: seq<Vec>, cache: Option<LayerCache>)
    requires net.Valid() && (cache.Some? ==> CacheShaped(net, cache.value))
    ensures CrossKvs(net, lw, encOut, if cache.Some? then Some(cache.value.cross) else None)
         == CrossEntries(net, lw, encOut, cache)
  {
    var w := lw.crossAttn;
    if !(cache.Some? && cache.value.cross.Some?) {
      var rows := Rotations(net, None, 0, |encOut|);
      var new1, new2 := Entries(net, w, encOut, rows), CrossEntries(net, lw, encOut, cache);
      forall j | 0 <= j < |encOut| ensures new1[j] == new2[j] {
        assert new1[j] == Entry(net, w, encOut[j], None);
        EntryIs(net, w, encOut[j], net.ropeRow(0.0));
      }
      assert new1 == new2;
    }
  }

  lemma {:induction false} SelfOutIs(net: Net, lw: DecLayer, x: seq<Vec>, i: nat, mask: Mask, offset: nat,
                                     cache: Option<LayerCache>)
    requires net.Valid() && i < |x| && (cache.Some? ==> CacheShaped(net, cache.value))
    ensures SelfOut(net, lw, x, SelfEntries(net, lw, x, offset, cache), mask, offset)[i]
         == SelfPoint(net, lw, x, i, mask, offset, cache)
  {
    var w, h, kvs := lw.selfAttn, Map1(lw.norm0, x), SelfEntries(net, lw, x, offset, cache);
    var rows := Rotations(net, Some(1.0), offset, |x|);
    RopeIs(net, offset + i);
    assert rows[i] == Rotation(net, Some(1.0), offset + i);
    var q := Query(net, w, h[i], rows[i]);
    QueryIs(net, w, lw.norm0(x[i]), net.ropeRow((offset + i) as real));
    AttendIs(net, w, q, kvs, mask, i);
  }

  lemma {:induction false} CrossOutIs(net: Net, lw: DecLayer, x: seq<Vec>, i: nat, kvs: seq<KV>, mask: Mask)
    requires net.Valid() && i < |x| && Shaped(net, kvs)
    ensures forall a :: 0 <= a < |Seen(mask, i, |kvs|)| ==> Seen(mask, i, |kvs|)[a] < |kvs|
    ensures var w := lw.crossAttn;
      var q := seq(net.heads, h requires 0 <= h < net.heads => w.qNorm(w.qHead(h, lw.norm1(x[i]))));
      CrossOut(net, lw, x, kvs, mask)[i] == lw.addCross(x[i], w.out(Heads(net, q, kvs, Seen(mask, i, |kvs|))))
  {
    var w, h := lw.crossAttn, Map1(lw.norm1, x);
    var rows := Rotations(net, None, 0, |x|);
    assert rows[i] == None;
    var q := Query(net, w, h[i], rows[i]);
    QueryIs(net, w, lw.norm1(x[i]), net.ropeRow(0.0));
    AttendIs(net, w, q, kvs, mask, i);
  }

  lemma {:induction false} DecLayerIs(net: Net, lw: DecLayer, x: seq<Vec>, i: nat, encOut: seq<Vec>, selfMask: Mask,
                                      crossMask: Mask, offset: nat, cache: Option<LayerCache>)
    requires net.Valid() && i < |x| && (cache.Some? ==> CacheShaped(net, cache.value))
    ensures LayerRow(net, lw, x, encOut, selfMask, crossMask, offset, cache).0[i]
         == DecPoint(net, lw, x, i, encOut, selfMask, crossMask, offset, cache)
  {
    SelfKvsAre(net, lw, x, offset, cache);
    CrossKvsAre(net, lw, encOut, cache);
    var kvs, ckvs := SelfEntries(net, lw, x, offset, cache), CrossEntries(net, lw, encOut, cache);
    SelfOutIs(net, lw, x, i, selfMask, offset, cache);
    CrossOutIs(net, lw, SelfOut(net, lw, x, kvs, selfMask, offset), i, ckvs, crossMask);
  }

  /** A layer leaves in its caches what its two attentions attended. */
  lemma {:induction false} LayerCacheIs(net: Net, lw: DecLayer, x: seq<Vec>, encOut: seq<Vec>, selfMask: Mask,
                                        crossMask: Mask, offset: nat, cache: Option<LayerCache>)
    requires net.Valid() && (cache.Some? ==> CacheShaped(net, cache.value))
    ensures LayerRow(net, lw, x, encOut, selfMask, crossMask, offset, cache).1
         == LayerCache(Some(SelfEntries(net, lw, x, offset, cache)), Some(CrossEntries(net, lw, encOut, cache)))
  {
    SelfKvsAre(net, lw, x, offset, cache);
    CrossKvsAre(net, lw, encOut, cache);
  }

  lemma {:induction false} EncXIs(net: Net, l: nat, toks: seq<Tok>, mask: Mask)
    requires net.Valid() && l <= |net.enc|
    ensures EncX(net, l, toks, mask) == EncPoints(net, l, toks, mask)
  {
    if l > 0 {
      EncXIs(net, l - 1, toks, mask);
      forall i | 0 <= i < |toks| ensures EncX(net, l, toks, mask)[i] == EncPoints(net, l, toks, mask)[i] {
        EncLayerIs(net, net.enc[l - 1], EncX(net, l - 1, toks, mask), i, mask);
      }
    }
  }

  /** The row-level encoder is the one written out here. */
  lemma {:induction false} EncodeIs(net: Net, toks: seq<Tok>, mask: Mask)
    requires net.Valid()
    ensures Encode(net, toks, mask) == EncodePoints(net, toks, mask)
  {
    EncXIs(net, |net.enc|, toks, mask);
  }

  lemma {:induction false} DecXIs(net: Net, l: nat, toks: seq<Tok>, encOut: seq<Vec>, selfMask: Mask, crossMask: Mask,
                                  offset: nat, caches: Option<seq<LayerCache>>)
    requires net.Valid() && l <= |net.dec| && CachesShaped(net, caches)
    ensures DecX(net, l, toks, encOut, selfMask, crossMask, offset, caches)
         == DecPoints(net, l, toks, encOut, selfMask, crossMask, offset, caches)
  {
    if l > 0 {
      DecXIs(net, l - 1, toks, encOut, selfMask, crossMask, offset, caches);
      var x := DecX(net, l - 1, toks, encOut, selfMask, crossMask, offset, caches);
      forall i | 0 <= i < |toks|
        ensures DecX(net, l, toks, encOut, selfMask, crossMask, offset, caches)[i]
             == DecPoints(net, l, toks, encOut, selfMask, crossMask, offset, caches)[i]
      {
        DecLayerIs(net, net.dec[l - 1], x, i, encOut, selfMask, crossMask, offset,
                   if caches.Some? then Some(caches.value[l - 1]) else None);
      }
    }
  }

  /** The row-level decoder, with or without caches, is the one written out here. */
  lemma {:induction false} DecodeIs(net: Net, toks: seq<Tok>, encOut: seq<Vec>, selfMask: Mask, crossMask: Mask, offset: nat,
                                    caches: Option<seq<LayerCache>>)
    requires net.Valid() && CachesShaped(net, caches)
    ensures DecodeRow(net, toks, encOut, selfMask, crossMask, offset, caches)
         == DecodePoints(net, toks, encOut, selfMask, crossMask, offset, caches)
  {
    DecXIs(net, |net.dec|, toks, encOut, selfMask, crossMask, offset, caches);
  }
}
