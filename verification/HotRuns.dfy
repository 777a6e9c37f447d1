/** What whole runs of the engine (src-clm/src/seon_clm/engine.py) reply and keep, when weights files
    are replaced, fail to load or come back. */
module HotRuns {
  import opened Options
  import opened LruCache
  import opened HotReload

  // ---- Runs in which no file is replaced inside a call ----

  /** The second look of a call finds the file the first one found. */
  predicate Unreplaced(view1: FileView, view2: FileView) {
    view1.Gone? || (view2.Seen? && view2.mtime == view1.mtime)
  }

  datatype Look = Look(model: string, view: FileView)

  function LookOf(q: Request): Look {
    Look(q.model, q.view1)
  }

  function Looked(raw: string, heads: Heads, l: Look): Heads {
    if l.model == raw || l.model !in heads then heads else heads[l.model := Ensured(heads[l.model], l.view)]
  }

  function HeadsAfter(raw: string, heads: Heads, looks: seq<Look>, k: nat): Heads
    requires k <= |looks|
  {
    if k == 0 then heads else Looked(raw, HeadsAfter(raw, heads, looks, k - 1), looks[k - 1])
  }

  ghost predicate StaleLook(raw: string, heads: Heads, l: Look)
    requires AllReady(heads)
  {
    l.model != raw && l.model in heads && Stale(heads[l.model], l.view)
  }

  /** A reply has the vectors its namespace promises. */
  ghost predicate OwnReply(fns: Fns, raw: string, heads: Heads, q: Request, r: Result<seq<Vec>, ProjectError>)
    requires AllReady(heads)
  {
    r.Ok? && SideOf(q.side).Some? ==>
      if q.model == raw then RawReply(fns, q.texts, r.value)
      else if q.model !in heads then false
      else
        var h1 := Ensured(heads[q.model], q.view1);
        EnsuredReady(heads[q.model], q.view1);
        UsesWeights(fns, SideOf(q.side).value, q.texts, r.value, Named(h1))
  }

  lemma {:induction false} StepHeads(fns: Fns, raw: string, w: World, q: Request, r: Result<seq<Vec>, ProjectError>, w': World)
    requires AllReady(w.heads) && Step(fns, raw, w, q, r, w') && SideOf(q.side).Some? && Unreplaced(q.view1, q.view2)
    ensures w'.heads == Looked(raw, w.heads, LookOf(q))
  {
    if q.model != raw && q.model in w.heads {
      var h := w.heads[q.model];
      assert !Raises(h, q.view1) ==> Unchanged(Ensured(h, q.view1), q.view2);
    }
  }

  /** A call whose file is not replaced and whose look is not stale replies with its generation's vectors and keeps
      every row its own generation's. */
  lemma {:induction false} StepOwn(fns: Fns, raw: string, w: World, q: Request, r: Result<seq<Vec>, ProjectError>, w': World)
    requires AllReady(w.heads) && OwnRows(fns, Made(w.heads), w.rows) && Step(fns, raw, w, q, r, w')
    requires Unreplaced(q.view1, q.view2) && !StaleLook(raw, w.heads, LookOf(q))
    ensures OwnReply(fns, raw, w.heads, q, r)
    ensures OwnRows(fns, Made(w'.heads), w'.rows)
  {
    StepReady(fns, raw, w, q, r, w');
    var side := SideOf(q.side);
    if side.Some? && q.model == raw {
      RowsStayOwn(fns, Made(w.heads), Made(w'.heads), Raw(side.value), q.texts, w.rows, None, r.Ok?, w'.rows);
    } else if side.Some? && q.model in w.heads {
      StepHeads(fns, raw, w, q, r, w');
      var h := w.heads[q.model];
      var h1 := Ensured(h, q.view1);
      EnsuredReady(h, q.view1);
      var sp := HeadSpace(q.model, h1.generation, side.value);
      assert Made(w'.heads)[q.model] == h1.past;
      RowsStayOwn(fns, Made(w.heads), Made(w'.heads), sp, q.texts, w.rows, h1.weights, r.Ok?, w'.rows);
      if r.Ok? { OwnServed(fns, Made(w.heads), q.model, h1, side.value, q.texts, w.rows, h1.weights, r.value); }
    }
  }

  lemma {:induction false} OwnServed(fns: Fns, was: Pasts, model: string, h1: HeadState, side: Side, texts: seq<string>,
                                     rows: map<Key, Vec>, w: Option<Weights>, out: seq<Vec>)
    requires Ready(h1) && model in was && forall g :: g in was[model] ==> g in h1.past && h1.past[g] == was[model][g]
    requires OwnRows(fns, was, rows) && w == Some(Named(h1))
    requires Served(fns, side, texts, SpaceName(HeadSpace(model, h1.generation, side)), rows, w, out)
    ensures UsesWeights(fns, side, texts, out, Named(h1))
  {
    var sp := HeadSpace(model, h1.generation, side);
    forall i | 0 <= i < |texts| ensures out[i] == fns.head(Named(h1), side, fns.embed(texts[i])) {
      if Key(SpaceName(sp), texts[i]) in rows { assert Own(fns, was, sp, texts[i], rows[Key(SpaceName(sp), texts[i])]); }
    }
  }

  /** The calls of a run make these looks, in whatever words. */
  ghost predicate Asks(qs: seq<Request>, looks: seq<Look>) {
    && |qs| == |looks|
    && forall k :: 0 <= k < |qs| ==>
      SideOf(qs[k].side).Some? && LookOf(qs[k]) == looks[k] && Unreplaced(qs[k].view1, qs[k].view2)
  }

  ghost predicate RunFrom(fns: Fns, raw: string, heads: Heads, looks: seq<Look>, qs: seq<Request>, ws: seq<World>,
                          rs: seq<Result<seq<Vec>, ProjectError>>)
  {
    Asks(qs, looks) && RunOf(fns, raw, qs, ws, rs) && ws[0] == World(heads, map[])
  }

  ghost predicate OwnAt(fns: Fns, raw: string, w: World, q: Request, r: Result<seq<Vec>, ProjectError>, w': World) {
    AllReady(w.heads) && OwnReply(fns, raw, w.heads, q, r) && OwnRows(fns, Made(w'.heads), w'.rows)
  }

  ghost predicate OwnCall(fns: Fns, raw: string, qs: seq<Request>, ws: seq<World>, rs: seq<Result<seq<Vec>, ProjectError>>, k: nat)
    requires k < |qs| && |ws| == |qs| + 1 && |rs| == |qs|
  {
    OwnAt(fns, raw, ws[k], qs[k], rs[k], ws[k + 1])
  }

  /** Every reply and every row of the run is its own generation's. */
  ghost predicate OwnRun(fns: Fns, raw: string, qs: seq<Request>, ws: seq<World>, rs: seq<Result<seq<Vec>, ProjectError>>)
    requires |ws| == |qs| + 1 && |rs| == |qs|
  {
    forall k :: 0 <= k < |qs| ==> OwnCall(fns, raw, qs, ws, rs, k)
  }

  lemma {:induction false} HeadsReady(raw: string, heads: Heads, looks: seq<Look>, k: nat)
    requires AllReady(heads) && k <= |looks|
    ensures AllReady(HeadsAfter(raw, heads, looks, k)) && HeadsAfter(raw, heads, looks, k).Keys == heads.Keys
  {
    if k > 0 {
      HeadsReady(raw, heads, looks, k - 1);
      var was, l := HeadsAfter(raw, heads, looks, k - 1), looks[k - 1];
      if l.model in was { EnsuredReady(was[l.model], l.view); }
    }
  }

  ghost predicate NeverStale(raw: string, heads: Heads, looks: seq<Look>)
    requires AllReady(heads)
  {
    forall k :: 0 <= k < |looks| ==> !StaleAt(raw, heads, looks, k)
  }

  ghost predicate StaleAt(raw: string, heads: Heads, looks: seq<Look>, k: nat)
    requires AllReady(heads) && k < |looks|
  {
    HeadsReady(raw, heads, looks, k);
    StaleLook(raw, HeadsAfter(raw, heads, looks, k), looks[k])
  }

  /** The heads are those the looks leave, and every row is its own generation's. */
  ghost predicate OwnWorld(fns: Fns, raw: string, heads: Heads, looks: seq<Look>, w: World, k: nat)
    requires k <= |looks|
  {
    w.heads == HeadsAfter(raw, heads, looks, k) && AllReady(w.heads) && OwnRows(fns, Made(w.heads), w.rows)
  }

  lemma {:induction false} RunsOwn(fns: Fns, raw: string, heads: Heads, looks: seq<Look>, qs: seq<Request>, ws: seq<World>,
                                   rs: seq<Result<seq<Vec>, ProjectError>>, n: nat)
    requires AllReady(heads) && RunFrom(fns, raw, heads, looks, qs, ws, rs) && n <= |qs|
    requires NeverStale(raw, heads, looks)
    ensures OwnWorld(fns, raw, heads, looks, ws[n], n)
    ensures forall k :: 0 <= k < n ==> OwnCall(fns, raw, qs, ws, rs, k)
  {
    if n > 0 {
      var k := n - 1;
      RunsOwn(fns, raw, heads, looks, qs, ws, rs, k);
      OwnNext(fns, raw, heads, looks, qs, ws, rs, k);
    }
  }

  lemma {:induction false} OwnNext(fns: Fns, raw: string, heads: Heads, looks: seq<Look>, qs: seq<Request>, ws: seq<World>,
                                   rs: seq<Result<seq<Vec>, ProjectError>>, k: nat)
    requires AllReady(heads) && RunFrom(fns, raw, heads, looks, qs, ws, rs) && k < |qs|
    requires NeverStale(raw, heads, looks) && OwnWorld(fns, raw, heads, looks, ws[k], k)
    ensures OwnCall(fns, raw, qs, ws, rs, k) && OwnWorld(fns, raw, heads, looks, ws[k + 1], k + 1)
  {
    assert !StaleAt(raw, heads, looks, k) && StepAt(fns, raw, qs, ws, rs, k);
    OwnMoves(fns, raw, ws[k], qs[k], rs[k], ws[k + 1], looks[k]);
  }

  lemma {:induction false} OwnMoves(fns: Fns, raw: string, w: World, q: Request, r: Result<seq<Vec>, ProjectError>, w': World,
                                    l: Look)
    requires AllReady(w.heads) && OwnRows(fns, Made(w.heads), w.rows) && Step(fns, raw, w, q, r, w')
    requires SideOf(q.side).Some? && LookOf(q) == l && Unreplaced(q.view1, q.view2) && !StaleLook(raw, w.heads, l)
    ensures AllReady(w'.heads) && w'.heads == Looked(raw, w.heads, l) && OwnAt(fns, raw, w, q, r, w')
  {
    StepHeads(fns, raw, w, q, r, w');
    StepReady(fns, raw, w, q, r, w');
    StepOwn(fns, raw, w, q, r, w');
  }

  // ---- A run that shows a stale look ----

  /** One text is asked for, at k. */
  function AskAt(l: Look, asks: bool): Request {
    Request("state", if asks then ["a"] else [], l.model, l.view, l.view)
  }

  /** The row the stale look leaves. */
  function StaleRows(model: string, h: HeadState): map<Key, Vec> {
    if h.weights.None? then map[]
    else map[Key(SpaceName(HeadSpace(model, h.generation, StateSide)), "a") := h.weights.value.params]
  }

  /** The rows after i of the calls. */
  function RowsAt(raw: string, heads: Heads, looks: seq<Look>, k: nat, i: nat): map<Key, Vec>
    requires k < |looks|
  {
    var at, m := HeadsAfter(raw, heads, looks, k), looks[k].model;
    if i <= k || m !in at then map[] else StaleRows(m, at[m])
  }

  function ReplyAt(raw: string, heads: Heads, looks: seq<Look>, k: nat, i: nat): Result<seq<Vec>, ProjectError>
    requires k < |looks| && i < |looks|
  {
    var at := HeadsAfter(raw, heads, looks, i);
    if i == k && looks[i].model in at && at[looks[i].model].weights.Some?
    then Ok([at[looks[i].model].weights.value.params])
    else RefusalOf(raw, at, looks[i])
  }

  function RefusalOf(raw: string, heads: Heads, l: Look): Result<seq<Vec>, ProjectError> {
    if l.model == raw then Err(CacheFailed(NothingToStack))
    else if l.model !in heads then Err(ModelNotFound)
    else if Raises(heads[l.model], l.view) then Err(LoadFailed)
    else Err(CacheFailed(NothingToStack))
  }

  lemma {:induction false} IdleStep(raw: string, heads: Heads, rows: map<Key, Vec>, l: Look, q: Request)
    requires q == AskAt(l, false)
    ensures Step(TELLING, raw, World(heads, rows), q, RefusalOf(raw, heads, l), World(Looked(raw, heads, l), rows))
  {
  }

  /** A call whose look finds the file unchanged. */
  lemma {:induction false} ServedStep(fns: Fns, raw: string, w: World, m: string, view: FileView, texts: seq<string>,
                                      out: seq<Vec>, rows': map<Key, Vec>)
    requires m != raw && m in w.heads && Unchanged(w.heads[m], view) && w.heads[m].weights.Some? && texts != []
    requires var h, sp := w.heads[m], HeadSpace(m, w.heads[m].generation, StateSide);
      var todo := Missing(w.rows, SpaceName(sp), texts);
      && Served(fns, StateSide, texts, SpaceName(sp), w.rows, h.weights, out)
      && rows' == Stored(w.rows, SpaceName(sp), todo, Computed(fns, h.weights, StateSide, todo))
    ensures Step(fns, raw, w, Request("state", texts, m, view, view), Ok(out), World(w.heads, rows'))
  {
    var h, sp := w.heads[m], HeadSpace(m, w.heads[m].generation, StateSide);
    var todo := Missing(w.rows, SpaceName(sp), texts);
    assert Projected(fns, sp, h.weights, todo) == Computed(fns, h.weights, StateSide, todo);
    assert w.heads[m := h] == w.heads;
  }

  lemma {:induction false} StaleStep(raw: string, heads: Heads, l: Look, q: Request)
    requires AllReady(heads) && StaleLook(raw, heads, l)
    requires q == AskAt(l, true)
    ensures var h := heads[l.model];
      Step(TELLING, raw, World(heads, map[]), q, Ok([h.weights.value.params]), World(Looked(raw, heads, l), StaleRows(l.model, h)))
    ensures !OwnReply(TELLING, raw, heads, q, Ok([heads[l.model].weights.value.params]))
  {
    var h := heads[l.model];
    var space := SpaceName(HeadSpace(l.model, h.generation, StateSide));
    var rows: map<Key, Vec> := map[];
    var out := [h.weights.value.params];
    OneMissing(space);
    assert Stored(rows, space, ["a"], out) == StaleRows(l.model, h);
    ServedStep(TELLING, raw, World(heads, rows), l.model, l.view, ["a"], out, StaleRows(l.model, h));
    assert heads[l.model := h] == heads;
    assert q.texts[0] == "a" && out[0] != Named(h).params;
    assert !UsesWeights(TELLING, StateSide, q.texts, out, Named(h));
  }

  lemma {:induction false} OneMissing(space: string)
    ensures Missing(map[], space, ["a"]) == ["a"]
  {
    var todo := Missing(map[], space, ["a"]);
    assert ["a"][0] == "a" && "a" in todo;
  }

  lemma {:induction false} StaleRunStep(raw: string, heads: Heads, looks: seq<Look>, k: nat, i: nat)
    requires AllReady(heads) && k < |looks| && i < |looks| && StaleAt(raw, heads, looks, k)
    ensures Step(TELLING, raw, World(HeadsAfter(raw, heads, looks, i), RowsAt(raw, heads, looks, k, i)), AskAt(looks[i], i == k),
                 ReplyAt(raw, heads, looks, k, i),
                 World(HeadsAfter(raw, heads, looks, i + 1), RowsAt(raw, heads, looks, k, i + 1)))
  {
    HeadsReady(raw, heads, looks, k);
    var at := HeadsAfter(raw, heads, looks, i);
    if i == k {
      StaleStep(raw, at, looks[k], AskAt(looks[k], true));
    } else {
      IdleStep(raw, at, RowsAt(raw, heads, looks, k, i), looks[i], AskAt(looks[i], false));
    }
  }

  lemma {:induction false} StaleRun(raw: string, heads: Heads, looks: seq<Look>, k: nat)
    returns (qs: seq<Request>, ws: seq<World>, rs: seq<Result<seq<Vec>, ProjectError>>)
    requires AllReady(heads) && k < |looks| && StaleAt(raw, heads, looks, k)
    ensures RunFrom(TELLING, raw, heads, looks, qs, ws, rs)
    ensures ws[k].heads == HeadsAfter(raw, heads, looks, k) && qs[k] == AskAt(looks[k], true)
    ensures rs[k] == ReplyAt(raw, heads, looks, k, k)
  {
    qs := seq(|looks|, i requires 0 <= i < |looks| => AskAt(looks[i], i == k));
    ws := seq(|looks| + 1, i requires 0 <= i <= |looks| =>
      World(HeadsAfter(raw, heads, looks, i), RowsAt(raw, heads, looks, k, i)));
    rs := seq(|looks|, i requires 0 <= i < |looks| => ReplyAt(raw, heads, looks, k, i));
    forall i | 0 <= i < |qs| ensures StepAt(TELLING, raw, qs, ws, rs, i) {
      StaleRunStep(raw, heads, looks, k, i);
    }
  }

  lemma {:induction false} StaleIsNotOwn(raw: string, heads: Heads, looks: seq<Look>, k: nat, qs: seq<Request>, ws: seq<World>,
                                         rs: seq<Result<seq<Vec>, ProjectError>>)
    requires AllReady(heads) && k < |looks| && StaleAt(raw, heads, looks, k)
    requires |ws| == |qs| + 1 && |rs| == |qs| == |looks|
    requires ws[k].heads == HeadsAfter(raw, heads, looks, k) && qs[k] == AskAt(looks[k], true)
    requires rs[k] == ReplyAt(raw, heads, looks, k, k)
    ensures !OwnRun(TELLING, raw, qs, ws, rs)
  {
    HeadsReady(raw, heads, looks, k);
    StaleStep(raw, ws[k].heads, looks[k], qs[k]);
    assert !OwnCall(TELLING, raw, qs, ws, rs, k);
  }

  /** In all runs of such calls, whatever texts are asked for, every reply and every cached row is its own generation's
      if and only if no look is stale. */
  lemma {:induction false} OwnRunsExactly(raw: string, heads: Heads, looks: seq<Look>)
    requires AllReady(heads)
    ensures (forall fns, qs, ws, rs :: RunFrom(fns, raw, heads, looks, qs, ws, rs) ==> OwnRun(fns, raw, qs, ws, rs))
      <==> NeverStale(raw, heads, looks)
  {
    if NeverStale(raw, heads, looks) {
      forall fns, qs, ws, rs | RunFrom(fns, raw, heads, looks, qs, ws, rs) ensures OwnRun(fns, raw, qs, ws, rs) {
        RunsOwn(fns, raw, heads, looks, qs, ws, rs, |qs|);
      }
    } else {
      var k :| 0 <= k < |looks| && StaleAt(raw, heads, looks, k);
      var qs, ws, rs := StaleRun(raw, heads, looks, k);
      StaleIsNotOwn(raw, heads, looks, k, qs, ws, rs);
    }
  }

  // ---- When a look is stale ----

  /** The look at `i` replaces the heads of `m`. */
  ghost predicate Replaces(raw: string, heads: Heads, looks: seq<Look>, i: nat, m: string)
    requires i < |looks|
  {
    var at, view := HeadsAfter(raw, heads, looks, i), looks[i].view;
    && looks[i].model == m && m != raw && m in at
    && view.Seen? && !Unchanged(at[m], view) && !view.content.FailsEarly?
  }

  /** At j a load failed late, with other weights than those loaded last before k, and nothing replaced the heads
      between j and k. */
  ghost predicate LeftBy(raw: string, heads: Heads, looks: seq<Look>, j: nat, k: nat, m: string)
    requires AllReady(heads) && m in heads && j < k <= |looks|
  {
    HeadsReady(raw, heads, looks, k);
    && Replaces(raw, heads, looks, j, m) && looks[j].view.content.FailsLate?
    && looks[j].view.content.w != Named(HeadsAfter(raw, heads, looks, k)[m])
    && forall i :: j < i < k ==> !Replaces(raw, heads, looks, i, m)
  }

  ghost predicate LeftBefore(raw: string, heads: Heads, looks: seq<Look>, k: nat, m: string)
    requires AllReady(heads) && m in heads && k <= |looks|
  {
    exists j :: 0 <= j < k && LeftBy(raw, heads, looks, j, k, m)
  }

  lemma {:induction false} LeftExactly(raw: string, heads: Heads, looks: seq<Look>, k: nat, m: string)
    requires AllReady(heads) && k <= |looks| && m in heads && m != raw && heads[m].weights == Some(Named(heads[m]))
    ensures AllReady(HeadsAfter(raw, heads, looks, k)) && m in HeadsAfter(raw, heads, looks, k)
    ensures var h := HeadsAfter(raw, heads, looks, k)[m];
      h.weights != Some(Named(h)) <==> LeftBefore(raw, heads, looks, k, m)
  {
    HeadsReady(raw, heads, looks, k);
    if k > 0 {
      LeftExactly(raw, heads, looks, k - 1, m);
      var was, h := HeadsAfter(raw, heads, looks, k - 1)[m], HeadsAfter(raw, heads, looks, k)[m];
      if Replaces(raw, heads, looks, k - 1, m) {
        if h.weights != Some(Named(h)) { assert LeftBy(raw, heads, looks, k - 1, k, m); }
      } else {
        assert h == was;
        forall j | 0 <= j < k - 1 ensures LeftBy(raw, heads, looks, j, k, m) == LeftBy(raw, heads, looks, j, k - 1, m) {
          LeftStays(raw, heads, looks, j, k, m);
        }
        assert !LeftBy(raw, heads, looks, k - 1, k, m);
        LeftSame(raw, heads, looks, k, m);
      }
    }
  }

  lemma {:induction false} LeftStays(raw: string, heads: Heads, looks: seq<Look>, j: nat, k: nat, m: string)
    requires AllReady(heads) && m in heads && j < k - 1 < |looks| && !Replaces(raw, heads, looks, k - 1, m)
    requires m in HeadsAfter(raw, heads, looks, k) && m in HeadsAfter(raw, heads, looks, k - 1)
    requires HeadsAfter(raw, heads, looks, k)[m] == HeadsAfter(raw, heads, looks, k - 1)[m]
    ensures LeftBy(raw, heads, looks, j, k, m) == LeftBy(raw, heads, looks, j, k - 1, m)
  {
    if LeftBy(raw, heads, looks, j, k - 1, m) {
      forall i | j < i < k ensures !Replaces(raw, heads, looks, i, m) {
        assert i == k - 1 || i < k - 1;
      }
    }
  }

  lemma {:induction false} LeftSame(raw: string, heads: Heads, looks: seq<Look>, k: nat, m: string)
    requires AllReady(heads) && m in heads && 0 < k <= |looks| && !LeftBy(raw, heads, looks, k - 1, k, m)
    requires forall j :: 0 <= j < k - 1 ==> LeftBy(raw, heads, looks, j, k, m) == LeftBy(raw, heads, looks, j, k - 1, m)
    ensures LeftBefore(raw, heads, looks, k, m)
      <==> LeftBefore(raw, heads, looks, k - 1, m)
  {
    var n := k - 1;
    if j :| 0 <= j < k && LeftBy(raw, heads, looks, j, k, m) {
      assert j != n && LeftBy(raw, heads, looks, j, n, m);
    }
    if j :| 0 <= j < n && LeftBy(raw, heads, looks, j, n, m) {
      assert LeftBy(raw, heads, looks, j, k, m);
    }
  }

  /** A look is stale exactly when it finds the last loaded mtime after a load that failed late, with other weights than
      those loaded last, and since which the heads were not replaced. */
  lemma {:induction false} StaleExactly(raw: string, heads: Heads, looks: seq<Look>, k: nat)
    requires AllReady(heads) && k < |looks| && forall n :: n in heads ==> heads[n].weights == Some(Named(heads[n]))
    ensures var m := looks[k].model;
      StaleAt(raw, heads, looks, k) <==>
      (m != raw && m in heads && m in HeadsAfter(raw, heads, looks, k)
       && Unchanged(HeadsAfter(raw, heads, looks, k)[m], looks[k].view)
       && LeftBefore(raw, heads, looks, k, m))
  {
    HeadsReady(raw, heads, looks, k);
    var m := looks[k].model;
    if m != raw && m in heads { LeftExactly(raw, heads, looks, k, m); }
  }

  /** Such a run: a file without a usable scale fails to load, the old file comes back with its mtime, and the next reply
      has a cached vector of the loaded weights beside one of the failed file's, although no file was replaced inside a
      call. */
  lemma {:induction false} LateFailure(w1: Weights, w2: Weights, h: HeadState, good: FileView, bad: FileView)
    returns (qs: seq<Request>, ws: seq<World>, rs: seq<Result<seq<Vec>, ProjectError>>)
    requires w1 == Weights([1.0]) && w2 == Weights([2.0]) && h == HeadState(Some(1.0), 1, Some(w1), map[1 := w1])
    requires good == Seen(1.0, Loads(w1)) && bad == Seen(2.0, FailsLate(w2))
    ensures RunOf(TELLING, "raw", qs, ws, rs) && ws[0] == World(map["m" := h], map[])
    ensures qs == [Request("state", ["a"], "m", good, good), Request("state", ["a"], "m", bad, bad),
                   Request("state", ["a", "b"], "m", good, good)]
    ensures rs == [Ok([[1.0]]), Err(LoadFailed), Ok([[1.0], [2.0]])]
    ensures !OneWeight(TELLING, StateSide, ["a", "b"], [[1.0], [2.0]])
  {
    var space := SpaceName(HeadSpace("m", 1, StateSide));
    var kept, stored := map[Key(space, "a") := [1.0]], map[Key(space, "a") := [1.0], Key(space, "b") := [2.0]];
    var heads, left := map["m" := h], map["m" := h.(weights := Some(w2))];
    qs := [Request("state", ["a"], "m", good, good), Request("state", ["a"], "m", bad, bad),
           Request("state", ["a", "b"], "m", good, good)];
    ws := [World(heads, map[]), World(heads, kept), World(left, kept), World(left, stored)];
    rs := [Ok([[1.0]]), Err(LoadFailed), Ok([[1.0], [2.0]])];
    LateSteps(good, bad, space, ws);
    ThreeSteps(TELLING, "raw", qs, ws, rs);
    TwoVectors(space, kept, w1, w2);
  }

  lemma {:induction false} LateSteps(good: FileView, bad: FileView, space: string, ws: seq<World>)
    requires |ws| == 4 && bad.Seen? && bad.content == FailsLate(Weights([2.0]))
    requires "m" in ws[0].heads && "m" in ws[2].heads
    requires var h, h' := ws[0].heads["m"], ws[2].heads["m"];
      && Unchanged(h, good) && Unchanged(h', good) && !Unchanged(h, bad) && h.generation == h'.generation
      && h.weights == Some(Weights([1.0])) && h'.weights == Some(Weights([2.0]))
      && space == SpaceName(HeadSpace("m", h.generation, StateSide))
    requires ws[0].rows == map[] && ws[1] == World(ws[0].heads, map[Key(space, "a") := [1.0]])
    requires ws[2] == World(ws[1].heads["m" := ws[1].heads["m"].(weights := Some(bad.content.w))], ws[1].rows)
    requires ws[3] == World(ws[2].heads, map[Key(space, "a") := [1.0], Key(space, "b") := [2.0]])
    ensures Step(TELLING, "raw", ws[0], Request("state", ["a"], "m", good, good), Ok([[1.0]]), ws[1])
    ensures Step(TELLING, "raw", ws[1], Request("state", ["a"], "m", bad, bad), Err(LoadFailed), ws[2])
    ensures Step(TELLING, "raw", ws[2], Request("state", ["a", "b"], "m", good, good), Ok([[1.0], [2.0]]), ws[3])
  {
    FirstCall(ws[0], good, space, ws[1].rows);
    FailedCall(ws[1], bad, ws[2]);
    LaterCall(ws[2], good, space, ws[3].rows);
  }

  lemma {:induction false} ThreeSteps(fns: Fns, raw: string, qs: seq<Request>, ws: seq<World>, rs: seq<Result<seq<Vec>, ProjectError>>)
    requires |qs| == |rs| == 3 && |ws| == 4
    requires Step(fns, raw, ws[0], qs[0], rs[0], ws[1]) && Step(fns, raw, ws[1], qs[1], rs[1], ws[2])
    requires Step(fns, raw, ws[2], qs[2], rs[2], ws[3])
    ensures RunOf(fns, raw, qs, ws, rs)
  {
    forall k | 0 <= k < |qs| ensures StepAt(fns, raw, qs, ws, rs, k) {
      assert k == 0 || k == 1 || k == 2;
    }
  }

  lemma {:induction false} FailedCall(w: World, bad: FileView, w': World)
    requires "m" in w.heads && bad.Seen? && bad.content.FailsLate? && w.heads["m"].mtime != Some(bad.mtime)
    requires w' == World(w.heads["m" := w.heads["m"].(weights := Some(bad.content.w))], w.rows)
    ensures Step(TELLING, "raw", w, Request("state", ["a"], "m", bad, bad), Err(LoadFailed), w')
  {
  }

  lemma {:induction false} FirstCall(w: World, good: FileView, space: string, kept: map<Key, Vec>)
    requires "m" in w.heads && Unchanged(w.heads["m"], good) && w.heads["m"].weights == Some(Weights([1.0])) && w.rows == map[]
    requires space == SpaceName(HeadSpace("m", w.heads["m"].generation, StateSide)) && kept == map[Key(space, "a") := [1.0]]
    ensures Step(TELLING, "raw", w, Request("state", ["a"], "m", good, good), Ok([[1.0]]), World(w.heads, kept))
  {
    OneStored(space);
    var weights := w.heads["m"].weights;
    assert Computed(TELLING, weights, StateSide, ["a"]) == [[1.0]];
    assert Served(TELLING, StateSide, ["a"], space, w.rows, weights, [[1.0]]);
    ServedStep(TELLING, "raw", w, "m", good, ["a"], [[1.0]], kept);
  }

  lemma {:induction false} OneStored(space: string)
    ensures Missing(map[], space, ["a"]) == ["a"]
    ensures Stored(map[], space, ["a"], [[1.0]]) == map[Key(space, "a") := [1.0]]
  {
    OneMissing(space);
    assert ["a"][..0] == [] && [[1.0]][..0] == [];
  }

  lemma {:induction false} LaterCall(w: World, good: FileView, space: string, stored: map<Key, Vec>)
    requires "m" in w.heads && Unchanged(w.heads["m"], good) && w.heads["m"].weights == Some(Weights([2.0]))
    requires space == SpaceName(HeadSpace("m", w.heads["m"].generation, StateSide)) && w.rows == map[Key(space, "a") := [1.0]]
    requires stored == map[Key(space, "a") := [1.0], Key(space, "b") := [2.0]]
    ensures Step(TELLING, "raw", w, Request("state", ["a", "b"], "m", good, good), Ok([[1.0], [2.0]]), World(w.heads, stored))
  {
    BothServed(space, w.rows, w.heads["m"].weights);
    ServedStep(TELLING, "raw", w, "m", good, ["a", "b"], [[1.0], [2.0]], stored);
  }

  lemma {:induction false} BothServed(space: string, kept: map<Key, Vec>, weights: Option<Weights>)
    requires kept == map[Key(space, "a") := [1.0]] && weights == Some(Weights([2.0]))
    ensures Missing(kept, space, ["a", "b"]) == ["b"] && Computed(TELLING, weights, StateSide, ["b"]) == [[2.0]]
    ensures Stored(kept, space, ["b"], [[2.0]]) == map[Key(space, "a") := [1.0], Key(space, "b") := [2.0]]
    ensures Served(TELLING, StateSide, ["a", "b"], space, kept, weights, [[1.0], [2.0]])
  {
    OneCached(space, kept);
    assert Computed(TELLING, weights, StateSide, ["b"]) == [[2.0]];
  }

  lemma {:induction false} TwoVectors(space: string, kept: map<Key, Vec>, w1: Weights, w2: Weights)
    requires w1 == Weights([1.0]) && w2 == Weights([2.0]) && kept == map[Key(space, "a") := [1.0]]
    ensures !OneWeight(TELLING, StateSide, ["a", "b"], [[1.0], [2.0]])
  {
    assert "a"[0] != "b"[0];
    assert Told(["a", "b"], space, kept, w1, w2) == [[1.0], [2.0]];
    assert w1.params[0] != w2.params[0];
    TwoTold(StateSide, ["a", "b"], space, kept, w1, w2, 0, 1);
  }

  lemma {:induction false} OneCached(space: string, kept: map<Key, Vec>)
    requires kept == map[Key(space, "a") := [1.0]]
    ensures Missing(kept, space, ["a", "b"]) == ["b"]
    ensures Stored(kept, space, ["b"], [[2.0]]) == map[Key(space, "a") := [1.0], Key(space, "b") := [2.0]]
    ensures Key(space, "b") !in kept
  {
    var texts := ["a", "b"];
    assert "a"[0] != "b"[0];
    assert texts[..1] == ["a"] && texts[1] == "b" && ["a"][..0] == [] && ["a"][0] == "a";
    assert Missing(kept, space, ["a"]) == [];
    assert ["b"][..0] == [] && [[2.0]][..0] == [];
  }

  // ---- Runs in which files may be replaced at any time ----

  lemma {:induction false} EnsuredCoherent(fns: Fns, heads: Heads, rows: map<Key, Vec>, m: string, view: FileView)
    requires AllReady(heads) && m in heads && Coherent(fns, LoadedOf(heads), rows)
    ensures AllReady(heads[m := Ensured(heads[m], view)])
    ensures Coherent(fns, LoadedOf(heads[m := Ensured(heads[m], view)]), rows)
  {
    var h, h' := heads[m], Ensured(heads[m], view);
    EnsuredReady(h, view);
    if h'.generation == h.generation {
      assert LoadedOf(heads[m := h']) == LoadedOf(heads);
    } else {
      ReloadCoherent(fns, LoadedOf(heads), rows, m, Some(Named(h')));
      assert LoadedOf(heads[m := h']) == LoadedOf(heads)[m := (h.generation + 1, Some(Named(h')))];
    }
  }

  /** However files are replaced, a call whose first look is not stale keeps the rows of every present generation the
      vectors of its loaded weights. */
  lemma {:induction false} StepCoherent(fns: Fns, raw: string, w: World, q: Request, r: Result<seq<Vec>, ProjectError>, w': World)
    requires AllReady(w.heads) && Coherent(fns, LoadedOf(w.heads), w.rows) && Step(fns, raw, w, q, r, w')
    requires !StaleLook(raw, w.heads, LookOf(q))
    ensures AllReady(w'.heads) && Coherent(fns, LoadedOf(w'.heads), w'.rows)
  {
    var side := SideOf(q.side);
    if side.Some? && q.model == raw {
      RowsCoherent(fns, LoadedOf(w.heads), Raw(side.value), q.texts, w.rows, None, r.Ok?, w'.rows);
    } else if side.Some? && q.model in w.heads {
      HeadCoherent(fns, side.value, w.heads, w.rows, q, r, w'.heads[q.model], w'.rows);
    }
  }

  lemma {:induction false} HeadCoherent(fns: Fns, side: Side, heads: Heads, rows: map<Key, Vec>, q: Request,
                                        r: Result<seq<Vec>, ProjectError>, h': HeadState, rows': map<Key, Vec>)
    requires AllReady(heads) && Coherent(fns, LoadedOf(heads), rows) && q.model in heads
    requires HeadStep(fns, side, q, heads[q.model], rows, r, h', rows') && !Stale(heads[q.model], q.view1)
    ensures AllReady(heads[q.model := h']) && Coherent(fns, LoadedOf(heads[q.model := h']), rows')
  {
    var m, h := q.model, heads[q.model];
    var h1 := Ensured(h, q.view1);
    EnsuredReady(h, q.view1);
    EnsuredCoherent(fns, heads, rows, m, q.view1);
    if !Raises(h, q.view1) {
      HeadsTwice(heads, m, h1, h');
      TailCoherent(fns, side, heads[m := h1], rows, m, h1, q.texts, q.view2, r, h', rows');
    }
  }

  lemma {:induction false} HeadsTwice(heads: Heads, m: string, h1: HeadState, h2: HeadState)
    ensures heads[m := h1][m := h2] == heads[m := h2]
  {
  }

  lemma {:induction false} TailCoherent(fns: Fns, side: Side, heads: Heads, rows: map<Key, Vec>, m: string, h1: HeadState,
                                        texts: seq<string>, view2: FileView, r: Result<seq<Vec>, ProjectError>, h': HeadState, rows': map<Key, Vec>)
    requires AllReady(heads) && Coherent(fns, LoadedOf(heads), rows) && m in heads && heads[m] == h1
    requires h1.weights == Some(Named(h1)) && HeadTail(fns, side, texts, m, h1, view2, rows, r, h')
    requires RowsAfter(fns, HeadSpace(m, h1.generation, side), texts, rows, h'.weights, r.Ok?, rows')
    ensures AllReady(heads[m := h']) && Coherent(fns, LoadedOf(heads[m := h']), rows')
  {
    assert heads[m := h1] == heads;
    EnsuredCoherent(fns, heads, rows, m, view2);
    EnsuredReady(h1, view2);
    RowsCoherent(fns, LoadedOf(heads[m := h']), HeadSpace(m, h1.generation, side), texts, rows, h'.weights, r.Ok?, rows');
  }

  lemma {:induction false} RowsCoherent(fns: Fns, loaded: Loaded, sp: Space, texts: seq<string>, rows: map<Key, Vec>,
                                        w: Option<Weights>, ok: bool, rows': map<Key, Vec>)
    requires Coherent(fns, loaded, rows) && RowsAfter(fns, sp, texts, rows, w, ok, rows')
    requires ok && sp.HeadSpace? && sp.name in loaded ==>
      sp.generation <= loaded[sp.name].0
      && (sp.generation == loaded[sp.name].0 && Missing(rows, SpaceName(sp), texts) != [] ==> w == loaded[sp.name].1)
    ensures Coherent(fns, loaded, rows')
  {
    if ok {
      var todo := Missing(rows, SpaceName(sp), texts);
      StoreCoherent(fns, loaded, rows, sp, todo, Projected(fns, sp, w, todo), rows');
    }
  }

  /** In every run whose looks are not stale, whenever files are replaced, the rows of every present generation stay the
      vectors of its loaded weights. */
  lemma {:induction false} RunsCoherent(fns: Fns, raw: string, qs: seq<Request>, ws: seq<World>,
                                        rs: seq<Result<seq<Vec>, ProjectError>>, n: nat)
    requires RunOf(fns, raw, qs, ws, rs) && n <= |qs|
    requires AllReady(ws[0].heads) && Coherent(fns, LoadedOf(ws[0].heads), ws[0].rows)
    requires forall k :: 0 <= k < n && AllReady(ws[k].heads) ==> !StaleLook(raw, ws[k].heads, LookOf(qs[k]))
    ensures AllReady(ws[n].heads) && Coherent(fns, LoadedOf(ws[n].heads), ws[n].rows)
  {
    if n > 0 {
      var k := n - 1;
      RunsCoherent(fns, raw, qs, ws, rs, k);
      assert StepAt(fns, raw, qs, ws, rs, k);
      StepCoherent(fns, raw, ws[k], qs[k], rs[k], ws[k + 1]);
    }
  }

  /** A call whose file is not replaced between its looks, and whose look is not stale, replies with the vectors of the
      weights the head has, wherever the calls before it were interrupted. */
  lemma {:induction false} SteadyReply(fns: Fns, raw: string, w: World, q: Request, r: Result<seq<Vec>, ProjectError>, w': World)
    requires AllReady(w.heads) && Coherent(fns, LoadedOf(w.heads), w.rows) && Step(fns, raw, w, q, r, w')
    requires SideOf(q.side).Some? && q.model != raw && q.model in w.heads
    requires Unreplaced(q.view1, q.view2) && !StaleLook(raw, w.heads, LookOf(q))
    ensures r.Ok? <==> !Raises(w.heads[q.model], q.view1) && q.texts != []
    ensures r.Ok? ==> var h' := w'.heads[q.model];
      Ready(h') && h'.weights == Some(Named(h')) && UsesWeights(fns, SideOf(q.side).value, q.texts, r.value, Named(h'))
  {
    var m, side, h := q.model, SideOf(q.side).value, w.heads[q.model];
    var h1 := Ensured(h, q.view1);
    EnsuredReady(h, q.view1);
    EnsuredCoherent(fns, w.heads, w.rows, m, q.view1);
    if !Raises(h, q.view1) { assert Unchanged(h1, q.view2); }
    if r.Ok? {
      var sp := HeadSpace(m, h1.generation, side);
      var loaded := LoadedOf(w.heads[m := h1]);
      forall i | 0 <= i < |q.texts| ensures r.value[i] == fns.head(Named(h1), side, fns.embed(q.texts[i])) {
        if Key(SpaceName(sp), q.texts[i]) in w.rows {
          assert Sound(fns, loaded, sp, q.texts[i], w.rows[Key(SpaceName(sp), q.texts[i])]);
        }
      }
    }
  }
}
