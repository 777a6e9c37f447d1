/** Call collection, and the reply parser
    (evals/runs/2026-07-05-bfcl-ast-dev-form/bfcl_adapter_form.py). */
module FormCalls {
  import opened FormReader
  import opened FormSpans

  datatype Call = Call(name: string, args: seq<(string, Datum)>)

  function FirstDict(items: seq<Datum>): seq<(string, Datum)> {
    if items == [] then []
    else if items[0].Dict? then items[0].entries
    else FirstDict(items[1..])
  }

  predicate IsCall(d: Datum) {
    d.List? && d.items != [] && d.items[0].Sym?
  }

  /** A list headed by a symbol is a call, and its arguments are not searched. */
  function Calls(d: Datum): seq<Call>
    decreases d, if d.List? || d.Vec? then |d.items| + 1 else 0
  {
    if IsCall(d) then [Call(d.items[0].t, FirstDict(d.items[1..]))]
    else if d.List? || d.Vec? then CallsWithin(d, |d.items|)
    else []
  }

  /** The calls in the first n elements. */
  function CallsWithin(d: Datum, n: nat): seq<Call>
    requires (d.List? || d.Vec?) && n <= |d.items|
    decreases d, n
  {
    if n == 0 then [] else CallsWithin(d, n - 1) + Calls(d.items[n - 1])
  }

  /** A span whose reading raises gives no call at all. */
  function SpanCalls(lex: Lex, span: string): seq<Call> {
    var forms := ReadForms(lex, span);
    if forms.None? then [] else Calls(Vec(forms.value))
  }

  function AllCalls(lex: Lex, spans: seq<string>): seq<Call> {
    if spans == [] then [] else AllCalls(lex, spans[..|spans| - 1]) + SpanCalls(lex, spans[|spans| - 1])
  }

  function Native(c: Call): Call {
    Call(c.name, Pyify(Dict(c.args)).entries)
  }

  function Normal(name: string): string {
    seq(|name|, i requires 0 <= i < |name| => if name[i] == '.' then '_' else name[i])
  }

  function Matched(calls: seq<Call>, candidates: seq<string>): seq<Call> {
    if calls == [] then []
    else
      (if exists i :: 0 <= i < |candidates| && Normal(candidates[i]) == Normal(calls[0].name) then [calls[0]] else [])
      + Matched(calls[1..], candidates)
  }

  /** Candidates are preferred only if some call names one. */
  function Kept(calls: seq<Call>, candidates: seq<string>): seq<Call> {
    var matched := Matched(calls, candidates);
    if matched == [] then calls else matched
  }

  function Natives(calls: seq<Call>): (r: seq<Call>)
    ensures |r| == |calls|
  {
    seq(|calls|, i requires 0 <= i < |calls| => Native(calls[i]))
  }

  /** All calls, or the last. */
  function Chosen(calls: seq<Call>, parallel: bool): seq<Call> {
    if parallel || calls == [] then calls else [calls[|calls| - 1]]
  }

  function Parsed(lex: Lex, reply: string, candidates: seq<string>, parallel: bool): seq<Call> {
    Chosen(Natives(Kept(AllCalls(lex, SpanTexts(reply)), candidates)), parallel)
  }

  lemma {:induction false} EmptyReply(lex: Lex, candidates: seq<string>, parallel: bool)
    ensures Parsed(lex, [], candidates, parallel) == []
  {
    assert Run(BEGIN, []) == BEGIN;
  }

  method CollectCalls(d: Datum, out: seq<Call>) returns (r: seq<Call>)
    ensures r == out + Calls(d)
  {
    r := out;
    if IsCall(d) {
      r := r + [Call(d.items[0].t, FirstDict(d.items[1..]))];
      return;
    }
    if d.List? || d.Vec? {
      for k := 0 to |d.items|
        invariant r == out + CallsWithin(d, k)
      {
        r := CollectCalls(d.items[k], r);
      }
    }
  }

  lemma NoCandidates(calls: seq<Call>)
    ensures Matched(calls, []) == []
  {
  }

  // ---- Which calls the candidates pick ----

  /** Names that are equal up to '.' and '_'. */
  predicate SameName(a: string, b: string) {
    |a| == |b| && forall i :: 0 <= i < |a| ==> a[i] == b[i] || (a[i] in "._" && b[i] in "._")
  }

  ghost predicate NamesOne(c: Call, candidates: seq<string>) {
    exists i :: 0 <= i < |candidates| && SameName(c.name, candidates[i])
  }

  /** js are the places of the calls that name a candidate, in order. */
  ghost predicate Picks(js: seq<nat>, calls: seq<Call>, candidates: seq<string>) {
    && (forall a, b :: 0 <= a < b < |js| ==> js[a] < js[b])
    && (forall a :: 0 <= a < |js| ==> js[a] < |calls|)
    && forall j: nat :: j < |calls| ==> (j in js <==> NamesOne(calls[j], candidates))
  }

  /** The calls at these places, or all where there is no place. */
  function Picked(calls: seq<Call>, js: seq<nat>): (r: seq<Call>)
    requires forall a :: 0 <= a < |js| ==> js[a] < |calls|
  {
    if js == [] then calls else seq(|js|, a requires 0 <= a < |js| => calls[js[a]])
  }

  lemma {:induction false} NormalSame(a: string, b: string)
    ensures Normal(a) == Normal(b) <==> SameName(a, b)
  {
    assert |Normal(a)| == |a| && |Normal(b)| == |b|;
    if Normal(a) == Normal(b) {
      forall i | 0 <= i < |a| ensures a[i] == b[i] || (a[i] in "._" && b[i] in "._") {
        assert Normal(a)[i] == Normal(b)[i];
      }
    }
  }

  lemma {:induction false} MatchedOne(c: Call, candidates: seq<string>)
    ensures NamesOne(c, candidates)
      <==> exists i :: 0 <= i < |candidates| && Normal(candidates[i]) == Normal(c.name)
  {
    if i :| 0 <= i < |candidates| && SameName(c.name, candidates[i]) {
      NormalSame(c.name, candidates[i]);
      assert Normal(candidates[i]) == Normal(c.name);
    }
    if i :| 0 <= i < |candidates| && Normal(candidates[i]) == Normal(c.name) {
      NormalSame(c.name, candidates[i]);
      assert SameName(c.name, candidates[i]);
    }
  }

  lemma {:induction false} MatchedLast(calls: seq<Call>, c: Call, candidates: seq<string>)
    ensures Matched(calls + [c], candidates) == Matched(calls, candidates) + (if NamesOne(c, candidates) then [c] else [])
  {
    MatchedOne(c, candidates);
    if calls == [] {
      assert [] + [c] == [c] && [c][1..] == [];
    } else {
      MatchedLast(calls[1..], c, candidates);
      assert (calls + [c])[1..] == calls[1..] + [c];
    }
  }

  lemma {:induction false} MatchedAre(calls: seq<Call>, candidates: seq<string>, js: seq<nat>)
    requires Picks(js, calls, candidates)
    ensures Matched(calls, candidates) == seq(|js|, a requires 0 <= a < |js| => calls[js[a]])
  {
    if calls != [] {
      var n := |calls| - 1;
      var m, c := calls[..n], calls[n];
      assert calls == m + [c];
      MatchedLast(m, c, candidates);
      PicksFewer(js, calls, candidates);
      MatchedAre(m, candidates, if n in js then js[..|js| - 1] else js);
      PlacesLast(calls, js);
      assert n in js <==> NamesOne(c, candidates);
    } else {
      NoPlaces(js, |calls|);
    }
  }

  lemma {:induction false} NoPlaces(js: seq<nat>, n: nat)
    requires forall a :: 0 <= a < |js| ==> js[a] < n
    ensures n == 0 ==> js == []
  {
    if js != [] { assert js[0] < n; }
  }

  lemma {:induction false} PlacesLast(calls: seq<Call>, js: seq<nat>)
    requires calls != [] && forall a :: 0 <= a < |js| ==> js[a] < |calls|
    requires var n := |calls| - 1;
      if n in js then js != [] && js[|js| - 1] == n && n !in js[..|js| - 1] else true
    ensures var n := |calls| - 1; var js' := if n in js then js[..|js| - 1] else js;
      && (forall a :: 0 <= a < |js'| ==> js'[a] < n)
      && seq(|js|, a requires 0 <= a < |js| => calls[js[a]])
         == seq(|js'|, a requires 0 <= a < |js'| => calls[..n][js'[a]]) + (if n in js then [calls[n]] else [])
  {
    var n := |calls| - 1;
    var js' := if n in js then js[..|js| - 1] else js;
    forall a | 0 <= a < |js'| ensures js'[a] < n {
      assert js'[a] in js' && js'[a] == js[a];
    }
  }

  lemma {:induction false} PicksFewer(js: seq<nat>, calls: seq<Call>, candidates: seq<string>)
    requires calls != [] && Picks(js, calls, candidates)
    ensures var n := |calls| - 1; var js' := if n in js then js[..|js| - 1] else js;
      Picks(js', calls[..n], candidates) && (n in js ==> js != [] && js[|js| - 1] == n && n !in js[..|js| - 1])
  {
    var n := |calls| - 1;
    if n in js {
      var a :| 0 <= a < |js| && js[a] == n;
      assert forall b :: 0 <= b < |js| - 1 ==> js[b] < js[|js| - 1];
      assert js[|js| - 1] < |calls| && a == |js| - 1;
      forall j: nat | j < n ensures j in js[..|js| - 1] <==> NamesOne(calls[..n][j], candidates) {
        if j in js {
          var b :| 0 <= b < |js| && js[b] == j;
          assert js[..|js| - 1][b] == j;
        }
      }
    }
  }

  /** With candidates just the calls that name one are kept, or all where none does. */
  lemma {:induction false} KeptAre(calls: seq<Call>, candidates: seq<string>, js: seq<nat>)
    requires Picks(js, calls, candidates)
    ensures Kept(calls, candidates) == Picked(calls, js)
  {
    MatchedAre(calls, candidates, js);
    if js != [] { assert |Matched(calls, candidates)| == |js|; }
  }

  lemma {:induction false} PickedNatives(calls: seq<Call>, js: seq<nat>)
    requires Natives(calls) == calls && forall a :: 0 <= a < |js| ==> js[a] < |calls|
    ensures Natives(Picked(calls, js)) == Picked(calls, js)
  {
    forall i | 0 <= i < |Picked(calls, js)| ensures Native(Picked(calls, js)[i]) == Picked(calls, js)[i] {
      var j := if js == [] then i else js[i];
      assert Natives(calls)[j] == calls[j];
    }
  }

  /** What is answered for calls whose arguments are native already. */
  lemma {:induction false} ChosenPicked(calls: seq<Call>, candidates: seq<string>, js: seq<nat>)
    requires Natives(calls) == calls && Picks(js, calls, candidates)
    ensures var kept := Natives(Kept(calls, candidates));
      && Chosen(kept, true) == Picked(calls, js)
      && (js != [] ==> Chosen(kept, false) == [calls[js[|js| - 1]]])
      && (js == [] && calls != [] ==> Chosen(kept, false) == [calls[|calls| - 1]])
  {
    KeptAre(calls, candidates, js);
    PickedNatives(calls, js);
  }

  // ---- Which data are calls ----

  /** The arguments are the first map. */
  lemma {:induction false} FirstDictIs(items: seq<Datum>, k: nat)
    requires k <= |items| && forall i :: 0 <= i < k ==> !items[i].Dict?
    ensures k == |items| ==> FirstDict(items) == []
    ensures k < |items| && items[k].Dict? ==> FirstDict(items) == items[k].entries
  {
    if k > 0 { FirstDictIs(items[1..], k - 1); }
  }

  lemma {:induction false} CallsPrefix(d: Datum, e: Datum, n: nat)
    requires (d.List? || d.Vec?) && (e.List? || e.Vec?) && n <= |d.items| && n <= |e.items| && d.items[..n] == e.items[..n]
    ensures CallsWithin(d, n) == CallsWithin(e, n)
  {
    if n > 0 {
      assert d.items[n - 1] == d.items[..n][n - 1] == e.items[n - 1];
      assert d.items[..n - 1] == d.items[..n][..n - 1] == e.items[..n - 1];
      CallsPrefix(d, e, n - 1);
    }
  }

  /** Only lists headed by a symbol are calls, with their symbol as name; other lists and vectors give the calls of their
      elements, in order; other data, maps among them, give none. */
  lemma {:induction false} CallsAre(d: Datum, item: Datum)
    ensures d.List? && d.items != [] && d.items[0].Sym? ==> Calls(d) == [Call(d.items[0].t, FirstDict(d.items[1..]))]
    ensures (d.List? && (d.items == [] || !d.items[0].Sym?)) ==> Calls(d) == Calls(Vec(d.items))
    ensures d.Vec? ==> Calls(Vec(d.items + [item])) == Calls(d) + Calls(item)
    ensures d == Vec([]) || (!d.List? && !d.Vec?) ==> Calls(d) == []
  {
    if d.List? { CallsPrefix(d, Vec(d.items), |d.items|); }
    if d.Vec? {
      var more := d.items + [item];
      assert more[..|d.items|] == d.items[..|d.items|];
      CallsPrefix(Vec(more), d, |d.items|);
    }
  }

  method CallsOf(lex: Lex, spans: seq<string>) returns (calls: seq<Call>)
    ensures calls == AllCalls(lex, spans)
  {
    calls := [];
    for k := 0 to |spans|
      invariant calls == AllCalls(lex, spans[..k])
    {
      assert spans[..k + 1][..k] == spans[..k];
      var forms := ReadAll(lex, spans[k]);
      if forms.Some? { calls := CollectCalls(Vec(forms.value), calls); }
    }
    assert spans[..|spans|] == spans;
  }

  /** matched, if there is any. */
  method Prefer(calls: seq<Call>, candidates: seq<string>) returns (r: seq<Call>)
    ensures r == Kept(calls, candidates)
  {
    var matched := Matched(calls, candidates);
    r := if matched != [] then matched else calls;
  }

  method ParseCalls(lex: Lex, reply: string, candidates: seq<string>, parallel: bool) returns (r: seq<Call>)
    ensures r == Parsed(lex, reply, candidates, parallel)
  {
    EmptyReply(lex, candidates, parallel);
    if reply == [] { return []; }
    var spans := Spanned(reply);
    var calls := CallsOf(lex, spans);
    NoCandidates(calls);
    if calls == [] { return []; }
    if candidates != [] { calls := Prefer(calls, candidates); }
    calls := Natives(calls);
    if parallel { return calls; }
    r := [calls[|calls| - 1]];
  }
}
