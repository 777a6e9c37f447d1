/** Incremental decode refines the whole-sequence causal decode, and padding is invisible. */
module NeedleDecode {
  import opened Options
  import opened NeedleSpec

  // ---- Admitted keys ----

  lemma {:induction false} AdmittedCut(net: Net, kvs: seq<KV>, mask: Mask, i: nat, n: nat)
    requires Shaped(net, kvs) && n <= |kvs|
    requires forall j :: n <= j < |kvs| ==> !Admits(mask, i, j)
    ensures Admitted(net, kvs, mask, i) == Admitted(net, kvs[..n], mask, i)
  {
    if n < |kvs| {
      var m := |kvs| - 1;
      AdmittedCut(net, kvs[..m], mask, i, n);
      assert kvs[..m][..n] == kvs[..n];
    } else {
      assert kvs[..n] == kvs;
    }
  }

  lemma {:induction false} AdmittedAgree(net: Net, kvs: seq<KV>, m1: Mask, i1: nat, m2: Mask, i2: nat)
    requires Shaped(net, kvs)
    requires forall j :: 0 <= j < |kvs| ==> Admits(m1, i1, j) == Admits(m2, i2, j)
    ensures Admitted(net, kvs, m1, i1) == Admitted(net, kvs, m2, i2)
  {
    if kvs != [] {
      AdmittedAgree(net, kvs[..|kvs| - 1], m1, i1, m2, i2);
    }
  }

  lemma {:induction false} AdmittedSome(net: Net, kvs: seq<KV>, mask: Mask, i: nat, j: nat)
    requires Shaped(net, kvs) && j < |kvs| && Admits(mask, i, j)
    ensures Admitted(net, kvs, mask, i) != []
  {
    if j < |kvs| - 1 {
      AdmittedSome(net, kvs[..|kvs| - 1], mask, i, j);
    }
  }

  /** A query with an admitted key sees nothing but its admitted keys. */
  lemma {:induction false} AttendSame(net: Net, w: AttnW, q: seq<Vec>, kvs1: seq<KV>, m1: Mask, i1: nat, kvs2: seq<KV>, m2: Mask, i2: nat)
    requires net.Valid() && Shaped(net, kvs1) && Shaped(net, kvs2) && |q| == net.heads
    requires Admitted(net, kvs1, m1, i1) == Admitted(net, kvs2, m2, i2) != []
    ensures AttendAt(net, w, q, kvs1, m1, i1) == AttendAt(net, w, q, kvs2, m2, i2)
  {
    var a1 := seq(net.heads, h requires 0 <= h < net.heads =>
      AttendHead(net, q[h], kvs1, Admitted(net, kvs1, m1, i1), h));
    var a2 := seq(net.heads, h requires 0 <= h < net.heads =>
      AttendHead(net, q[h], kvs2, Admitted(net, kvs2, m2, i2), h));
    assert a1 == a2;
  }

  // ---- Causality: a prefix never depends on what follows it ----

  lemma {:induction false} LayerPrefix(net: Net, lw: DecLayer, x: seq<Vec>, n: nat, encOut: seq<Vec>, crossMask: Mask)
    requires net.Valid() && n <= |x|
    ensures LayerRow(net, lw, x, encOut, Causal, crossMask, 0, None).0[..n]
         == LayerRow(net, lw, x[..n], encOut, Causal, crossMask, 0, None).0
    ensures SelfKvs(net, lw, x, 0, None)[..n] == SelfKvs(net, lw, x[..n], 0, None)
  {
    var kvs, kvs' := SelfKvs(net, lw, x, 0, None), SelfKvs(net, lw, x[..n], 0, None);
    assert kvs[..n] == kvs';
    var s, s' := SelfOut(net, lw, x, kvs, Causal, 0), SelfOut(net, lw, x[..n], kvs', Causal, 0);
    forall i | 0 <= i < n ensures s[i] == s'[i] {
      var q := Query(net, lw.selfAttn, lw.norm0(x[i]), Rotation(net, Some(1.0), i));
      AdmittedCut(net, kvs, Causal, i, n);
      AdmittedSome(net, kvs, Causal, i, i);
      AttendSame(net, lw.selfAttn, q, kvs, Causal, i, kvs', Causal, i);
    }
    assert s[..n] == s';
    var ckvs := CrossKvs(net, lw, encOut, None);
    var c, c' := CrossOut(net, lw, s, ckvs, crossMask), CrossOut(net, lw, s', ckvs, crossMask);
    CrossPointwise(net, lw, s, s', n, ckvs, crossMask);
    assert c[..n] == c';
  }

  /** Cross attention works position by position. */
  lemma {:induction false} CrossPointwise(net: Net, lw: DecLayer, s: seq<Vec>, s': seq<Vec>, n: nat, ckvs: seq<KV>, crossMask: Mask)
    requires net.Valid() && Shaped(net, ckvs) && |s'| == n <= |s| && s[..n] == s'
    ensures CrossOut(net, lw, s, ckvs, crossMask)[..n] == CrossOut(net, lw, s', ckvs, crossMask)
  {
    var c, c' := CrossOut(net, lw, s, ckvs, crossMask), CrossOut(net, lw, s', ckvs, crossMask);
    forall i | 0 <= i < n ensures c[i] == c'[i] {
      assert s[i] == s'[i];
    }
  }

  /** One layer of the whole-sequence pass. */
  lemma {:induction false} FullStep(net: Net, l: nat, toks: seq<Tok>, encOut: seq<Vec>, crossMask: Mask)
    requires net.Valid() && 0 < l <= |net.dec|
    ensures FullX(net, l, toks, encOut, crossMask)
         == LayerRow(net, net.dec[l - 1], FullX(net, l - 1, toks, encOut, crossMask), encOut, Causal, crossMask, 0, None).0
  {
    assert FullX(net, l, toks, encOut, crossMask) == DecLayerAt(net, l - 1, toks, encOut, Causal, crossMask, 0, None).0;
  }

  lemma {:induction false} FullPrefix(net: Net, l: nat, toks: seq<Tok>, n: nat, encOut: seq<Vec>, crossMask: Mask)
    requires net.Valid() && l <= |net.dec| && n <= |toks|
    ensures FullX(net, l, toks, encOut, crossMask)[..n] == FullX(net, l, toks[..n], encOut, crossMask)
  {
    if l == 0 {
      assert Embedded(net, toks)[..n] == Embedded(net, toks[..n]);
    } else {
      FullStep(net, l, toks, encOut, crossMask);
      FullStep(net, l, toks[..n], encOut, crossMask);
      FullPrefix(net, l - 1, toks, n, encOut, crossMask);
      LayerPrefix(net, net.dec[l - 1], FullX(net, l - 1, toks, encOut, crossMask), n, encOut, crossMask);
    }
  }

  // ---- One cached step is the last row of the whole-sequence decode ----

  /** The step's self attention over the extended cache is the causal row of the full pass. */
  lemma {:induction false} StepSelf(net: Net, lw: DecLayer, x: seq<Vec>, cache: Cache)
    requires net.Valid() && x != []
    requires cache == if |x| == 1 then None else Some(SelfKvs(net, lw, x[..|x| - 1], 0, None))
    ensures SelfKvs(net, lw, [x[|x| - 1]], |x| - 1, Some(cache)) == SelfKvs(net, lw, x, 0, None)
    ensures var kvs := SelfKvs(net, lw, x, 0, None);
            SelfOut(net, lw, [x[|x| - 1]], kvs, NoMask, |x| - 1) == [SelfOut(net, lw, x, kvs, Causal, 0)[|x| - 1]]
  {
    var pos := |x| - 1;
    var kvs := SelfKvs(net, lw, x, 0, None);
    StepKvs(net, lw, x, cache);
    AdmittedAgree(net, kvs, NoMask, 0, Causal, pos);
    AdmittedSome(net, kvs, Causal, pos, pos);
    var q := Query(net, lw.selfAttn, lw.norm0(x[pos]), Rotation(net, Some(1.0), pos));
    AttendSame(net, lw.selfAttn, q, kvs, NoMask, 0, kvs, Causal, pos);
  }

  /** The cache of a prefix and the entry of the next token are the entries of both. */
  lemma {:induction false} StepKvs(net: Net, lw: DecLayer, x: seq<Vec>, cache: Cache)
    requires net.Valid() && x != []
    requires cache == if |x| == 1 then None else Some(SelfKvs(net, lw, x[..|x| - 1], 0, None))
    ensures SelfKvs(net, lw, [x[|x| - 1]], |x| - 1, Some(cache)) == SelfKvs(net, lw, x, 0, None)
  {
  }

  /** A padding mask does not look at the query index. */
  lemma {:induction false} StepCross(net: Net, lw: DecLayer, s: seq<Vec>, ckvs: seq<KV>, crossMask: Mask)
    requires net.Valid() && s != [] && Shaped(net, ckvs) && !crossMask.Causal?
    ensures CrossOut(net, lw, [s[|s| - 1]], ckvs, crossMask) == [CrossOut(net, lw, s, ckvs, crossMask)[|s| - 1]]
  {
    AdmittedAgree(net, ckvs, crossMask, 0, crossMask, |s| - 1);
    var q := Query(net, lw.crossAttn, lw.norm1(s[|s| - 1]), None);
    assert AttendAt(net, lw.crossAttn, q, ckvs, crossMask, 0) == AttendAt(net, lw.crossAttn, q, ckvs, crossMask, |s| - 1);
  }

  /** One layer of the step, given the state the previous layers left for the new position. */
  lemma {:induction false} StepLayer(net: Net, l: nat, prefix: seq<Tok>, t: Tok, encOut: seq<Vec>, crossMask: Mask)
    requires net.Valid() && l < |net.dec| && !crossMask.Causal?
    ensures LayerRow(net, net.dec[l], [FullX(net, l, prefix + [t], encOut, crossMask)[|prefix|]], encOut,
                     NoMask, crossMask, |prefix|, Some(CacheOf(net, l, prefix, encOut, crossMask)))
         == ([FullX(net, l + 1, prefix + [t], encOut, crossMask)[|prefix|]],
             CacheOf(net, l, prefix + [t], encOut, crossMask))
  {
    var toks := prefix + [t];
    var lw, x := net.dec[l], FullX(net, l, toks, encOut, crossMask);
    FullStep(net, l + 1, toks, encOut, crossMask);
    FullPrefix(net, l, toks, |prefix|, encOut, crossMask);
    assert toks[..|prefix|] == prefix;
    var kvs, ckvs := SelfKvs(net, lw, x, 0, None), CrossKvs(net, lw, encOut, None);
    var cache := CacheOf(net, l, prefix, encOut, crossMask);
    StepSelf(net, lw, x, cache.self);
    StepCross(net, lw, SelfOut(net, lw, x, kvs, Causal, 0), ckvs, crossMask);
    assert CrossKvs(net, lw, encOut, Some(cache.cross)) == ckvs;
  }

  lemma {:induction false} StepLayers(net: Net, l: nat, prefix: seq<Tok>, t: Tok, encOut: seq<Vec>, crossMask: Mask,
                                      caches: seq<LayerCache>)
    requires net.Valid() && l <= |net.dec| && !crossMask.Causal?
    requires Holds(net, prefix, encOut, crossMask, caches) && CachesShaped(net, Some(caches))
    ensures DecX(net, l, [t], encOut, NoMask, crossMask, |prefix|, Some(caches))
         == [FullX(net, l, prefix + [t], encOut, crossMask)[|prefix|]]
  {
    if l > 0 {
      var k, pos := l - 1, |prefix|;
      StepLayers(net, k, prefix, t, encOut, crossMask, caches);
      StepLayer(net, k, prefix, t, encOut, crossMask);
      var x := DecX(net, k, [t], encOut, NoMask, crossMask, pos, Some(caches));
      assert caches[k] == CacheOf(net, k, prefix, encOut, crossMask);
      assert DecLayerAt(net, k, [t], encOut, NoMask, crossMask, pos, Some(caches))
          == LayerRow(net, net.dec[k], x, encOut, NoMask, crossMask, pos, Some(caches[k]));
    }
  }

  lemma {:induction false} StepCaches(net: Net, l: nat, prefix: seq<Tok>, t: Tok, encOut: seq<Vec>, crossMask: Mask,
                   caches: seq<LayerCache>)
    requires net.Valid() && l < |net.dec| && !crossMask.Causal?
    requires Holds(net, prefix, encOut, crossMask, caches) && CachesShaped(net, Some(caches))
    ensures DecLayerAt(net, l, [t], encOut, NoMask, crossMask, |prefix|, Some(caches)).1
         == CacheOf(net, l, prefix + [t], encOut, crossMask)
  {
    StepLayers(net, l, prefix, t, encOut, crossMask, caches);
    StepLayer(net, l, prefix, t, encOut, crossMask);
  }

  /** Feeding one token to the caches of `prefix` gives the last row of the causal decode of the
      extended sequence, and leaves exactly its caches. */
  lemma {:induction false} StepRefinesFull(net: Net, prefix: seq<Tok>, t: Tok, encOut: seq<Vec>, crossMask: Mask, caches: seq<LayerCache>)
    requires net.Valid() && !crossMask.Causal?
    requires Holds(net, prefix, encOut, crossMask, caches) && CachesShaped(net, Some(caches))
    ensures DecodeRow(net, [t], encOut, NoMask, crossMask, |prefix|, Some(caches))
         == [FullLogits(net, prefix + [t], encOut, crossMask)[|prefix|]]
    ensures Holds(net, prefix + [t], encOut, crossMask,
                  CachesAfter(net, [t], encOut, NoMask, crossMask, |prefix|, caches))
  {
    StepLayers(net, |net.dec|, prefix, t, encOut, crossMask, caches);
    forall l | 0 <= l < |net.dec|
      ensures DecLayerAt(net, l, [t], encOut, NoMask, crossMask, |prefix|, Some(caches)).1
           == CacheOf(net, l, prefix + [t], encOut, crossMask)
    {
      StepCaches(net, l, prefix, t, encOut, crossMask, caches);
    }
  }

  // ---- Padding ----

  ghost predicate HasReal(toks: seq<Tok>, pad: Tok) {
    exists i :: 0 <= i < |toks| && toks[i] != pad
  }

  /** Keys past the unpadded end are masked, so they change no query that has a real key. */
  lemma {:induction false} PaddedAttend(net: Net, w: AttnW, q: seq<Vec>, toks: seq<Tok>, more: seq<Tok>, pad: Tok,
                     kvs: seq<KV>, kvs': seq<KV>, i: nat)
    requires net.Valid() && Shaped(net, kvs) && Shaped(net, kvs') && |q| == net.heads
    requires |kvs| == |toks| && |kvs'| == |toks| + |more| && kvs'[..|toks|] == kvs
    requires HasReal(toks, pad) && forall j :: 0 <= j < |more| ==> more[j] == pad
    ensures AttendAt(net, w, q, kvs', PadMask(toks + more, pad), i) == AttendAt(net, w, q, kvs, PadMask(toks, pad), i)
  {
    var m, m' := PadMask(toks, pad), PadMask(toks + more, pad);
    AdmittedCut(net, kvs', m', i, |toks|);
    AdmittedAgree(net, kvs, m, i, m', i);
    var j :| 0 <= j < |toks| && toks[j] != pad;
    AdmittedSome(net, kvs, m, i, j);
    AttendSame(net, w, q, kvs', m', i, kvs, m, i);
  }

  lemma {:induction false} EncPadded(net: Net, l: nat, toks: seq<Tok>, more: seq<Tok>, pad: Tok)
    requires net.Valid() && l <= |net.enc| && HasReal(toks, pad)
    requires forall j :: 0 <= j < |more| ==> more[j] == pad
    ensures EncX(net, l, toks + more, PadMask(toks + more, pad))[..|toks|] == EncX(net, l, toks, PadMask(toks, pad))
  {
    var n := |toks|;
    var m, m' := PadMask(toks, pad), PadMask(toks + more, pad);
    if l == 0 {
      assert Embedded(net, toks + more)[..n] == Embedded(net, toks);
    } else {
      EncPadded(net, l - 1, toks, more, pad);
      var lw := net.enc[l - 1];
      var x, x' := EncX(net, l - 1, toks, m), EncX(net, l - 1, toks + more, m');
      var kvs := KvsRow(net, lw.attn, Some(Map1(lw.norm, x)), Some(net.encScale), 0, None);
      var kvs' := KvsRow(net, lw.attn, Some(Map1(lw.norm, x')), Some(net.encScale), 0, None);
      assert forall i :: 0 <= i < n ==> x'[i] == x'[..n][i];
      assert kvs'[..n] == kvs;
      forall i | 0 <= i < n
        ensures EncLayerRow(net, lw, x', m')[i] == EncLayerRow(net, lw, x, m)[i]
      {
        var q := Query(net, lw.attn, lw.norm(x[i]), Rotation(net, Some(net.encScale), i));
        PaddedAttend(net, lw.attn, q, toks, more, pad, kvs, kvs', i);
      }
      assert EncLayerRow(net, lw, x', m')[..n] == EncLayerRow(net, lw, x, m);
    }
  }

  /** Encoder padding reaches no decoder state. */
  lemma {:induction false} FullPadded(net: Net, l: nat, toks: seq<Tok>, src: seq<Tok>, more: seq<Tok>, pad: Tok)
    requires net.Valid() && l <= |net.dec| && HasReal(src, pad)
    requires forall j :: 0 <= j < |more| ==> more[j] == pad
    ensures FullX(net, l, toks, Encode(net, src + more, PadMask(src + more, pad)), PadMask(src + more, pad))
         == FullX(net, l, toks, Encode(net, src, PadMask(src, pad)), PadMask(src, pad))
  {
    var m, m' := PadMask(src, pad), PadMask(src + more, pad);
    var e, e' := Encode(net, src, m), Encode(net, src + more, m');
    if l > 0 {
      FullStep(net, l, toks, e, m);
      FullStep(net, l, toks, e', m');
      FullPadded(net, l - 1, toks, src, more, pad);
      EncPadded(net, |net.enc|, src, more, pad);
      var u := EncX(net, |net.enc|, src + more, m');
      assert forall i :: 0 <= i < |src| ==> u[i] == u[..|src|][i];
      var lw, x := net.dec[l - 1], FullX(net, l - 1, toks, e, m);
      var kvs, kvs' := CrossKvs(net, lw, e, None), CrossKvs(net, lw, e', None);
      assert kvs'[..|src|] == kvs;
      var s := SelfOut(net, lw, x, SelfKvs(net, lw, x, 0, None), Causal, 0);
      forall i | 0 <= i < |s|
        ensures CrossOut(net, lw, s, kvs', m')[i] == CrossOut(net, lw, s, kvs, m)[i]
      {
        PaddedAttend(net, lw.crossAttn, Query(net, lw.crossAttn, lw.norm1(s[i]), Rotation(net, None, i)), src, more, pad, kvs, kvs', i);
      }
      assert CrossOut(net, lw, s, kvs', m') == CrossOut(net, lw, s, kvs, m);
    }
  }
}
