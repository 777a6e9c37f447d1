/** Batched greedy decoding (src-needle/src/seon_needle/generate.py). */
module Generate {
  import opened Options
  import opened NeedleSpec
  import opened NeedleDecode
  import opened NeedleRows
  import opened NeedleModel

  /** The tokenizer: total functions between texts and token ids, and the special ids. */
  datatype Tokenizer = Tokenizer(encode: string -> seq<Tok>, decode: seq<Tok> -> string,
                                 pad: Tok, eos: Tok, tools: Tok)

  // ---- Encoder input ----

  /** Python's s[:k], for any integer k. */
  function PyTake<T>(s: seq<T>, k: int): (r: seq<T>)
    ensures r <= s
  {
    if k >= |s| then s else if k >= 0 then s[..k] else if |s| + k > 0 then s[..|s| + k] else []
  }

  /** [query..., <tools>, tools...], truncated to maxEncLen. */
  function EncoderInput(tok: Tokenizer, query: string, tools: string, maxEncLen: int): seq<Tok> {
    var q := tok.encode(query);
    var maxQuery := maxEncLen - 2;
    var q' := if |q| > maxQuery then PyTake(q, maxQuery) else q;
    var remaining := maxEncLen - |q'| - 1;
    q' + [tok.tools] + PyTake(tok.encode(tools), remaining)
  }

  /** With room for a query token slot and the separator, the input fits, keeps <tools> and as much
      of the query and then of the tools as there is room for. */
  lemma {:induction false} EncoderInputShape(tok: Tokenizer, query: string, tools: string, maxEncLen: int)
    requires 2 <= maxEncLen
    ensures var r, q, t := EncoderInput(tok, query, tools, maxEncLen), tok.encode(query), tok.encode(tools);
      && |r| <= maxEncLen
      && exists i: nat, j: nat | i <= |q| && j <= |t| ::
           && r == q[..i] + [tok.tools] + t[..j]
           && (i == |q| <= maxEncLen - 2 || i == maxEncLen - 2 < |q|)
           && (j == |t| || |r| == maxEncLen)
  {
    var q, t := tok.encode(query), tok.encode(tools);
    var i: nat := if |q| > maxEncLen - 2 then maxEncLen - 2 else |q|;
    var room := maxEncLen - i - 1;
    var j: nat := if |t| > room then room else |t|;
    assert EncoderInput(tok, query, tools, maxEncLen) == q[..i] + [tok.tools] + t[..j];
  }

  ghost predicate AlwaysFits(maxEncLen: int) {
    forall tok: Tokenizer, query: string, tools: string :: |EncoderInput(tok, query, tools, maxEncLen)| <= maxEncLen
  }

  /** Python's negative slice bounds make every smaller limit overflow on some input. */
  lemma {:induction false} FitsIff(maxEncLen: int)
    ensures AlwaysFits(maxEncLen) <==> 2 <= maxEncLen
  {
    if 2 <= maxEncLen {
      forall tok: Tokenizer, query: string, tools: string
        ensures |EncoderInput(tok, query, tools, maxEncLen)| <= maxEncLen
      {
        EncoderInputShape(tok, query, tools, maxEncLen);
      }
    } else {
      var tok := Tokenizer((s: string) => [7, 7], (s: seq<Tok>) => "", 0, 1, 5);
      assert tok.encode("") == [7, 7];
      assert |EncoderInput(tok, "", "", maxEncLen)| > maxEncLen;
    }
  }

  /** Whatever the limit, the separator survives, so a real key is never missing. */
  lemma {:induction false} KeepsTools(tok: Tokenizer, query: string, tools: string, maxEncLen: int)
    requires tok.tools != tok.pad
    ensures HasReal(EncoderInput(tok, query, tools, maxEncLen), tok.pad)
  {
    var q := tok.encode(query);
    var q' := if |q| > maxEncLen - 2 then PyTake(q, maxEncLen - 2) else q;
    assert EncoderInput(tok, query, tools, maxEncLen)[|q'|] == tok.tools;
  }

  function Padded(toks: seq<Tok>, n: nat, pad: Tok): (r: seq<Tok>)
    requires |toks| <= n
    ensures |r| == n
  {
    toks + seq(n - |toks|, _ => pad)
  }

  // ---- The reference: one text alone, the whole decoder re-run for every token ----

  /** The most likely token after `gen`, from a whole-sequence pass over the unpadded input. */
  function NextToken(net: Net, tok: Tokenizer, src: seq<Tok>, gen: seq<Tok>): Tok
    requires net.Valid()
  {
    var mask := PadMask(src, tok.pad);
    net.argmax(FullLogits(net, [tok.eos] + gen, Encode(net, src, mask), mask)[|gen|])
  }

  /** Written out: the most likely token of the last position of one causal pass over <eos> and what was generated,
      whose cross attention reads the encoder's states of the tokens that are not padding. */
  lemma {:induction false} NextTokenIs(net: Net, tok: Tokenizer, src: seq<Tok>, gen: seq<Tok>)
    requires net.Valid()
    ensures var keys := Keys(seq(|src|, j requires 0 <= j < |src| => src[j] != tok.pad));
      NextToken(net, tok, src, gen)
      == net.argmax(DecodePoints(net, [tok.eos] + gen, EncodePoints(net, src, keys), Causal, keys, 0, None)[|gen|])
  {
    var keys := Keys(seq(|src|, j requires 0 <= j < |src| => src[j] != tok.pad));
    assert PadMask(src, tok.pad) == keys;
    EncodeIs(net, src, keys);
    DecodeIs(net, [tok.eos] + gen, Encode(net, src, keys), Causal, keys, 0, None);
  }

  function Greedy(net: Net, tok: Tokenizer, src: seq<Tok>, steps: nat, gen: seq<Tok>): seq<Tok>
    requires net.Valid()
    decreases steps
  {
    if steps == 0 then gen
    else
      var t := NextToken(net, tok, src, gen);
      if t == tok.eos then gen else Greedy(net, tok, src, steps - 1, gen + [t])
  }

  /** Greedy decoding emits the most likely token each time, never <eos>, and stops only when
      <eos> is next or the step limit is reached. */
  lemma {:induction false} GreedyMeaning(net: Net, tok: Tokenizer, src: seq<Tok>, steps: nat, gen: seq<Tok>)
    requires net.Valid()
    ensures var r := Greedy(net, tok, src, steps, gen);
      && gen <= r && |r| <= |gen| + steps
      && (forall k :: |gen| <= k < |r| ==> r[k] == NextToken(net, tok, src, r[..k]) && r[k] != tok.eos)
      && (|r| < |gen| + steps ==> NextToken(net, tok, src, r) == tok.eos)
    decreases steps
  {
    if steps > 0 {
      var t := NextToken(net, tok, src, gen);
      if t != tok.eos {
        GreedyMeaning(net, tok, src, steps - 1, gen + [t]);
        var r := Greedy(net, tok, src, steps, gen);
        assert r[..|gen|] == gen && r[|gen|] == t;
      }
    }
  }

  /** A leading marker leaves, and nothing else does. */
  function StripToolCall(text: string): (r: string)
    ensures text == if "<tool_call>" <= text then "<tool_call>" + r else r
  {
    if "<tool_call>" <= text then text[|"<tool_call>"|..] else text
  }

  function MaxLen(rows: seq<seq<Tok>>): (n: nat)
    requires rows != []
    ensures forall b :: 0 <= b < |rows| ==> |rows[b]| <= n
  {
    if |rows| == 1 then |rows[0]|
    else
      var m := MaxLen(rows[..|rows| - 1]);
      assert forall b :: 0 <= b < |rows| - 1 ==> rows[b] == rows[..|rows| - 1][b];
      if m < |rows[|rows| - 1]| then |rows[|rows| - 1]| else m
  }

  // ---- The batch loop ----

  /** What one row of the batch has been fed and has produced, against its own greedy decode. */
  ghost predicate RowOk(net: Net, tok: Tokenizer, src: seq<Tok>, steps: nat, pos: nat, fed: seq<Tok>,
                        finished: bool, gen: seq<Tok>)
    requires net.Valid() && pos <= steps
  {
    && |fed| == pos + 1
    && (finished ==> gen == Greedy(net, tok, src, steps, []))
    && (!finished ==> fed == [tok.eos] + gen)
    && (!finished ==> Greedy(net, tok, src, steps, []) == Greedy(net, tok, src, steps - pos, gen))
  }

  /** One row's share of the step: its token, and what is appended and fed next. */
  lemma {:induction false} RowStep(net: Net, tok: Tokenizer, src: seq<Tok>, steps: nat, pos: nat, fed: seq<Tok>, finished: bool,
                gen: seq<Tok>, t: Tok)
    requires net.Valid() && pos < steps && RowOk(net, tok, src, steps, pos, fed, finished, gen)
    requires !finished ==> t == NextToken(net, tok, src, gen)
    ensures var finished' := finished || t == tok.eos;
      RowOk(net, tok, src, steps, pos + 1, fed + [if finished' then tok.pad else t], finished',
            if finished' then gen else gen + [t])
  {
  }

  /** One row of the padded encoder batch; a row without a real token is as long as the batch. */
  ghost predicate RowEncoded(net: Net, tok: Tokenizer, src: seq<Tok>, n: nat, mask: Mask, encOut: seq<Vec>)
    requires net.Valid()
  {
    && |src| <= n && (HasReal(src, tok.pad) || |src| == n)
    && mask == PadMask(Padded(src, n, tok.pad), tok.pad)
    && encOut == Encode(net, Padded(src, n, tok.pad), mask)
  }

  /** The last logits row of the cached, padded decode names the row's own next token, and the
      caches have then consumed every fed token. */
  lemma {:induction false} RowNext(net: Net, tok: Tokenizer, src: seq<Tok>, n: nat, mask: Mask, encOut: seq<Vec>, prefix: seq<Tok>,
                t: Tok, gen: seq<Tok>, caches: seq<LayerCache>)
    requires net.Valid() && RowEncoded(net, tok, src, n, mask, encOut)
    requires CachesShaped(net, Some(caches)) && Holds(net, prefix, encOut, mask, caches)
    ensures Holds(net, prefix + [t], encOut, mask,
                  CachesAfter(net, [t], encOut, NoMask, mask, |prefix|, caches))
    ensures prefix + [t] == [tok.eos] + gen ==>
      net.argmax(DecodeRow(net, [t], encOut, NoMask, mask, |prefix|, Some(caches))[0]) == NextToken(net, tok, src, gen)
  {
    StepRefinesFull(net, prefix, t, encOut, mask, caches);
    if HasReal(src, tok.pad) {
      FullPadded(net, |net.dec|, [tok.eos] + gen, src, seq(n - |src|, _ => tok.pad), tok.pad);
    } else {
      assert Padded(src, n, tok.pad) == src;
    }
  }

  ghost predicate Encoded(net: Net, tok: Tokenizer, srcs: seq<seq<Tok>>, n: nat, mask: seq<Mask>, encOut: Batch)
    requires net.Valid()
  {
    && |mask| == |srcs| && Rect(encOut, |srcs|, n)
    && forall b :: 0 <= b < |srcs| ==> RowEncoded(net, tok, srcs[b], n, mask[b], encOut[b])
  }

  /** Row b's caches have consumed `fed[b]`. */
  ghost predicate CachesOk(net: Net, mask: seq<Mask>, encOut: Batch, fed: seq<seq<Tok>>, sts: seq<LayerState>)
    requires net.Valid() && |mask| == |encOut| == |fed|
  {
    && StatesFit(net, sts, |mask|)
    && forall b :: 0 <= b < |mask| ==> Holds(net, fed[b], encOut[b], mask[b], StatesRow(net, sts, |mask|, b))
  }

  function Singletons(toks: seq<Tok>): seq<seq<Tok>> {
    seq(|toks|, b requires 0 <= b < |toks| => [toks[b]])
  }

  ghost function FedMore(fed: seq<seq<Tok>>, tokens: seq<Tok>): seq<seq<Tok>>
    requires |fed| == |tokens|
  {
    seq(|fed|, b requires 0 <= b < |fed| => fed[b] + [tokens[b]])
  }

  /** t is the token that follows for a row that has consumed `fed`. */
  ghost predicate AnswersRow(net: Net, tok: Tokenizer, src: seq<Tok>, fed: seq<Tok>, t: Tok)
    requires net.Valid()
  {
    forall gen :: fed == [tok.eos] + gen ==> t == NextToken(net, tok, src, gen)
  }

  lemma {:induction false} RowAnswer(net: Net, tok: Tokenizer, src: seq<Tok>, n: nat, mask: Mask, encOut: seq<Vec>, prefix: seq<Tok>,
                  t: Tok, caches: seq<LayerCache>)
    requires net.Valid() && RowEncoded(net, tok, src, n, mask, encOut)
    requires CachesShaped(net, Some(caches)) && Holds(net, prefix, encOut, mask, caches)
    ensures AnswersRow(net, tok, src, prefix + [t],
                       net.argmax(DecodeRow(net, [t], encOut, NoMask, mask, |prefix|, Some(caches))[0]))
  {
    forall gen | prefix + [t] == [tok.eos] + gen
      ensures net.argmax(DecodeRow(net, [t], encOut, NoMask, mask, |prefix|, Some(caches))[0]) == NextToken(net, tok, src, gen)
    {
      RowNext(net, tok, src, n, mask, encOut, prefix, t, gen, caches);
    }
  }

  lemma {:induction false} StepOneRow(net: Net, tok: Tokenizer, src: seq<Tok>, n: nat, mask: Mask, encOut: seq<Vec>, prefix: seq<Tok>,
                   t: Tok, caches: seq<LayerCache>, row: seq<Vec>, caches': seq<LayerCache>)
    requires net.Valid() && RowEncoded(net, tok, src, n, mask, encOut)
    requires CachesShaped(net, Some(caches)) && Holds(net, prefix, encOut, mask, caches)
    requires row == DecodeRow(net, [t], encOut, NoMask, mask, |prefix|, Some(caches))
    requires caches' == CachesAfter(net, [t], encOut, NoMask, mask, |prefix|, caches)
    ensures Holds(net, prefix + [t], encOut, mask, caches')
    ensures AnswersRow(net, tok, src, prefix + [t], net.argmax(row[|row| - 1]))
  {
    RowNext(net, tok, src, n, mask, encOut, prefix, t, [], caches);
    RowAnswer(net, tok, src, n, mask, encOut, prefix, t, caches);
  }

  /** One decode call of the loop: every row's argmax, and caches that have consumed one more token. */
  method BatchStep(ropes: RopeTables, tok: Tokenizer, ghost srcs: seq<seq<Tok>>, tokens: seq<Tok>, encOut: Batch,
                   n: nat, mask: seq<Mask>, pos: nat, caches: seq<LayerCaches>, ghost fed: seq<seq<Tok>>,
                   ghost sts: seq<LayerState>)
    returns (next: seq<Tok>, ghost sts': seq<LayerState>)
    requires ropes.Valid() && Encoded(ropes.net, tok, srcs, n, mask, encOut) && Rect(fed, |srcs|, pos)
    requires |tokens| == |srcs| && CachesOk(ropes.net, mask, encOut, fed, sts) && Hold(caches, sts)
    modifies ropes, Objects(caches)
    ensures ropes.Valid() && |next| == |srcs| && Hold(caches, sts')
    ensures CachesOk(ropes.net, mask, encOut, FedMore(fed, tokens), sts')
    ensures forall b :: 0 <= b < |srcs| ==> AnswersRow(ropes.net, tok, srcs[b], fed[b] + [tokens[b]], next[b])
  {
    var net := ropes.net;
    var logits;
    logits, sts' := DecodeBatch(ropes, Singletons(tokens), 1, encOut, n, NoMask, mask, pos, Some(caches), sts);
    next := seq(|mask|, b requires 0 <= b < |mask| => net.argmax(logits[b][|logits[b]| - 1]));
    forall b | 0 <= b < |srcs|
      ensures Holds(net, fed[b] + [tokens[b]], encOut[b], mask[b], StatesRow(net, sts', |mask|, b))
      ensures AnswersRow(net, tok, srcs[b], fed[b] + [tokens[b]], next[b])
    {
      StepOneRow(net, tok, srcs[b], n, mask[b], encOut[b], fed[b], tokens[b], StatesRow(net, sts, |mask|, b), logits[b],
                 StatesRow(net, sts', |mask|, b));
    }
  }

  /** The bookkeeping after a step: finished flags stick, unfinished rows take their token, and
      finished rows are fed padding from then on. */
  method Advance(tok: Tokenizer, next: seq<Tok>, finished0: seq<bool>, gens0: seq<seq<Tok>>)
    returns (finished: seq<bool>, gens: seq<seq<Tok>>, step: seq<Tok>)
    requires |next| == |finished0| == |gens0|
    ensures |next| == |finished| == |gens| == |step|
    ensures forall b :: 0 <= b < |next| ==> finished[b] == (finished0[b] || next[b] == tok.eos)
    ensures forall b :: 0 <= b < |next| ==> gens[b] == if finished[b] then gens0[b] else gens0[b] + [next[b]]
    ensures forall b :: 0 <= b < |next| ==> step[b] == if finished[b] then tok.pad else next[b]
  {
    finished, gens, step := finished0, gens0, [];
    for i := 0 to |next|
      invariant |step| == i && |finished| == |gens| == |next|
      invariant forall b :: 0 <= b < i ==> finished[b] == (finished0[b] || next[b] == tok.eos)
      invariant forall b :: 0 <= b < i ==> gens[b] == if finished[b] then gens0[b] else gens0[b] + [next[b]]
      invariant forall b :: 0 <= b < i ==> step[b] == if finished[b] then tok.pad else next[b]
      invariant forall b :: i <= b < |next| ==> finished[b] == finished0[b] && gens[b] == gens0[b]
    {
      var t := next[i];
      if !finished[i] {
        if t == tok.eos {
          finished := finished[i := true];
        } else {
          gens := gens[i := gens[i] + [t]];
        }
      }
      step := step + [if finished[i] then tok.pad else t];
    }
  }

  /** Every row of the batch is on its own greedy path, fed `fed` and then `tokens`. */
  ghost predicate RowsOk(net: Net, tok: Tokenizer, srcs: seq<seq<Tok>>, steps: nat, pos: nat, fed: seq<seq<Tok>>,
                         tokens: seq<Tok>, finished: seq<bool>, gens: seq<seq<Tok>>)
    requires net.Valid() && pos <= steps
  {
    && |fed| == |tokens| == |finished| == |gens| == |srcs|
    && forall b :: 0 <= b < |srcs| ==>
      RowOk(net, tok, srcs[b], steps, pos, fed[b] + [tokens[b]], finished[b], gens[b])
  }

  lemma {:induction false} RowsStep(net: Net, tok: Tokenizer, srcs: seq<seq<Tok>>, steps: nat, pos: nat, fed: seq<seq<Tok>>,
                 tokens: seq<Tok>, finished: seq<bool>, gens: seq<seq<Tok>>, next: seq<Tok>,
                 finished': seq<bool>, gens': seq<seq<Tok>>, step: seq<Tok>)
    requires net.Valid() && pos < steps && RowsOk(net, tok, srcs, steps, pos, fed, tokens, finished, gens)
    requires |next| == |finished'| == |gens'| == |step| == |srcs|
    requires forall b, gen :: 0 <= b < |srcs| && fed[b] + [tokens[b]] == [tok.eos] + gen ==>
      next[b] == NextToken(net, tok, srcs[b], gen)
    requires forall b :: 0 <= b < |next| ==> finished'[b] == (finished[b] || next[b] == tok.eos)
    requires forall b :: 0 <= b < |next| ==> gens'[b] == if finished'[b] then gens[b] else gens[b] + [next[b]]
    requires forall b :: 0 <= b < |next| ==> step[b] == if finished'[b] then tok.pad else next[b]
    ensures RowsOk(net, tok, srcs, steps, pos + 1, FedMore(fed, tokens), step, finished', gens')
  {
    forall b | 0 <= b < |srcs|
      ensures RowOk(net, tok, srcs[b], steps, pos + 1, FedMore(fed, tokens)[b] + [step[b]], finished'[b], gens'[b])
    {
      RowStep(net, tok, srcs[b], steps, pos, fed[b] + [tokens[b]], finished[b], gens[b], next[b]);
    }
  }

  /** Fresh caches, which have consumed nothing. */
  method Start(net: Net, mask: seq<Mask>, ghost encOut: Batch)
    returns (caches: seq<LayerCaches>, ghost sts: seq<LayerState>)
    requires net.Valid() && |encOut| == |mask|
    ensures fresh(Objects(caches)) && Hold(caches, sts)
    ensures CachesOk(net, mask, encOut, seq(|mask|, _ => []), sts)
  {
    caches := NewCaches(net);
    sts := seq(|net.dec|, _ => LayerState(None, None));
  }

  /** The decode loop: every row ends with the greedy decode of its own unpadded input. */
  method DecodeLoop(ropes: RopeTables, tok: Tokenizer, ghost srcs: seq<seq<Tok>>, n: nat, mask: seq<Mask>,
                    encOut: Batch, steps: nat)
    returns (gens: seq<seq<Tok>>)
    requires ropes.Valid() && Encoded(ropes.net, tok, srcs, n, mask, encOut)
    modifies ropes
    ensures ropes.Valid() && |gens| == |srcs|
    ensures forall b :: 0 <= b < |srcs| ==> gens[b] == Greedy(ropes.net, tok, srcs[b], steps, [])
  {
    var net, B := ropes.net, |mask|;
    var caches; ghost var sts;
    caches, sts := Start(net, mask, encOut);
    var tokens := seq(B, _ => tok.eos);
    ghost var fed: seq<seq<Tok>> := seq(B, _ => []);
    var finished := seq(B, _ => false);
    gens := seq(B, _ => []);
    var pos := 0;
    while pos < steps
      invariant pos <= steps && ropes.Valid() && fresh(Objects(caches))
      invariant Rect(fed, B, pos) && RowsOk(net, tok, srcs, steps, pos, fed, tokens, finished, gens)
      invariant CachesOk(net, mask, encOut, fed, sts) && Hold(caches, sts)
    {
      var next;
      next, sts := BatchStep(ropes, tok, srcs, tokens, encOut, n, mask, pos, caches, fed, sts);
      var finished', gens', step := Advance(tok, next, finished, gens);
      RowsStep(net, tok, srcs, steps, pos, fed, tokens, finished, gens, next, finished', gens', step);
      fed := FedMore(fed, tokens);
      finished, gens, pos := finished', gens', pos + 1;
      if forall b :: 0 <= b < B ==> finished[b] { break; }
      tokens := step;
    }
  }

  /** [build_encoder_input(q, t) for q, t in zip(queries, toolsList)] */
  function EncLists(tok: Tokenizer, queries: seq<string>, toolsList: seq<string>, maxEncLen: int): (srcs: seq<seq<Tok>>)
    ensures |srcs| <= |queries| && |srcs| <= |toolsList| && (|srcs| == |queries| || |srcs| == |toolsList|)
  {
    var m := if |queries| <= |toolsList| then |queries| else |toolsList|;
    seq(m, b requires 0 <= b < m => EncoderInput(tok, queries[b], toolsList[b], maxEncLen))
  }

  /** The rows of the encoder batch, before padding: a query without a tool list leaves its row all padding. */
  function RowSource(srcs: seq<seq<Tok>>, b: nat, pad: Tok): (src: seq<Tok>)
    requires srcs != []
    ensures |src| <= MaxLen(srcs)
  {
    if b < |srcs| then srcs[b] else seq(MaxLen(srcs), _ => pad)
  }

  /** A row's mask admits a key exactly if its query has a tool list. */
  lemma {:induction false} RowHasReal(tok: Tokenizer, queries: seq<string>, toolsList: seq<string>, maxEncLen: int, b: nat)
    requires tok.tools != tok.pad && b < |queries| && toolsList != []
    ensures var srcs := EncLists(tok, queries, toolsList, maxEncLen);
      HasReal(Padded(RowSource(srcs, b, tok.pad), MaxLen(srcs), tok.pad), tok.pad) <==> b < |toolsList|
  {
    var srcs := EncLists(tok, queries, toolsList, maxEncLen);
    var src := RowSource(srcs, b, tok.pad);
    if b < |toolsList| {
      KeepsTools(tok, queries[b], toolsList[b], maxEncLen);
      var i :| 0 <= i < |src| && src[i] != tok.pad;
      assert Padded(src, MaxLen(srcs), tok.pad)[i] == src[i];
    } else {
      var row := Padded(src, MaxLen(srcs), tok.pad);
      assert forall i :: 0 <= i < |row| ==> row[i] == tok.pad;
    }
  }

  /** No row is without an admitted key if and only if there are at least as many tool lists as queries. */
  lemma {:induction false} AllRowsReal(tok: Tokenizer, queries: seq<string>, toolsList: seq<string>, maxEncLen: int)
    requires tok.tools != tok.pad && toolsList != [] && queries != []
    ensures var srcs := EncLists(tok, queries, toolsList, maxEncLen);
      (forall b :: 0 <= b < |queries| ==> HasReal(Padded(RowSource(srcs, b, tok.pad), MaxLen(srcs), tok.pad), tok.pad))
      <==> |queries| <= |toolsList|
  {
    var srcs := EncLists(tok, queries, toolsList, maxEncLen);
    forall b | 0 <= b < |queries|
      ensures HasReal(Padded(RowSource(srcs, b, tok.pad), MaxLen(srcs), tok.pad), tok.pad) <==> b < |toolsList|
    {
      RowHasReal(tok, queries, toolsList, maxEncLen, b);
    }
    var b := |toolsList|;
    if b < |queries| { assert !HasReal(Padded(RowSource(srcs, b, tok.pad), MaxLen(srcs), tok.pad), tok.pad); }
  }

  /** Every row of the batch gets exactly the greedy decode of its own unpadded input, computed
      with one cached decode call per token; a query without a tool list gets that of the padding it is left with.
      Nothing to encode is an error (max of nothing). */
  method GenerateBatch(ropes: RopeTables, tok: Tokenizer, queries: seq<string>, toolsList: seq<string>,
                       maxGenLen: int, maxEncLen: int)
    returns (r: Option<(seq<string>, seq<seq<Tok>>)>)
    requires ropes.Valid() && tok.tools != tok.pad
    modifies ropes
    ensures ropes.Valid()
    ensures r.None? <==> queries == [] || toolsList == []
    ensures r.Some? ==> |r.value.0| == |r.value.1| == |queries|
    ensures r.Some? ==> forall b :: 0 <= b < |queries| ==>
      r.value.1[b] == Greedy(ropes.net, tok, RowSource(EncLists(tok, queries, toolsList, maxEncLen), b, tok.pad),
                             if maxGenLen > 1 then maxGenLen - 1 else 0, [])
    ensures r.Some? ==> forall b :: 0 <= b < |queries| ==> r.value.0[b] == StripToolCall(tok.decode(r.value.1[b]))
  {
    var encLists := EncLists(tok, queries, toolsList, maxEncLen);
    if encLists == [] { return None; }
    var B, n := |queries|, MaxLen(encLists);
    var enc := seq(B, b requires 0 <= b < B => Padded(RowSource(encLists, b, tok.pad), n, tok.pad));
    var mask := seq(B, b requires 0 <= b < B => PadMask(enc[b], tok.pad));
    var encOut := EncodeBatch(ropes, enc, n, mask);
    ghost var srcs := seq(B, b requires 0 <= b < B => RowSource(encLists, b, tok.pad));
    forall b | 0 <= b < B ensures RowEncoded(ropes.net, tok, srcs[b], n, mask[b], encOut[b]) {
      if b < |encLists| { KeepsTools(tok, queries[b], toolsList[b], maxEncLen); }
    }
    var gens := DecodeLoop(ropes, tok, srcs, n, mask, encOut, if maxGenLen > 1 then maxGenLen - 1 else 0);
    var texts := seq(B, b requires 0 <= b < B => StripToolCall(tok.decode(gens[b])));
    r := Some((texts, gens));
  }

  /** A single text is a batch of one. */
  method GenerateOne(ropes: RopeTables, tok: Tokenizer, query: string, tools: string, maxGenLen: int, maxEncLen: int)
    returns (text: string, gen: seq<Tok>)
    requires ropes.Valid() && tok.tools != tok.pad
    modifies ropes
    ensures ropes.Valid()
    ensures gen == Greedy(ropes.net, tok, EncoderInput(tok, query, tools, maxEncLen),
                          if maxGenLen > 1 then maxGenLen - 1 else 0, [])
    ensures text == StripToolCall(tok.decode(gen))
  {
    var r := GenerateBatch(ropes, tok, [query], [tools], maxGenLen, maxEncLen);
    return r.value.0[0], r.value.1[0];
  }
}
