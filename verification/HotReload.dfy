/** Projection heads that reload when their file changes (src-clm/src/seon_clm/heads.py), behind
    the vector cache (src-clm/src/seon_clm/engine.py). */
module HotReload {
  import opened Options
  import opened Decimal
  import opened LruCache

  datatype Weights = Weights(params: seq<real>)

  datatype Side = StateSide | ActionSide

  function SideName(s: Side): string {
    if s.StateSide? then "state" else "action"
  }

  function SideOf(s: string): Option<Side> {
    if s == "state" then Some(StateSide) else if s == "action" then Some(ActionSide) else None
  }

  /** The two sides, and no other name, are served, each under its own name. */
  lemma {:induction false} SidesAre(s: string)
    ensures SideOf(s).Some? <==> s in {"state", "action"}
    ensures SideOf(s).Some? ==> SideName(SideOf(s).value) == s
    ensures SideOf("state") == Some(StateSide) && SideOf("action") == Some(ActionSide)
  {
    var state, action := "state", "action";
    assert state[0] != action[0];
  }

  /** The encoder, and a head applied to an embedding and normalised. */
  datatype Fns = Fns(embed: string -> Vec, head: (Weights, Side, Vec) -> Vec)

  /** What loading the file comes to: weights, a failure before the heads are replaced, or one after that, when the
      file has no usable logit scale. */
  datatype Content = Loads(w: Weights) | FailsEarly | FailsLate(w: Weights)

  /** What one look at the weights file finds: nothing, or its mtime and what loading it comes to. */
  datatype FileView = Gone | Seen(mtime: real, content: Content)

  // ---- Cache namespaces ----

  datatype Space = Raw(side: Side) | HeadSpace(name: string, generation: nat, side: Side)

  function HeadNamespace(name: string, generation: nat): string {
    name + "@" + Numeral(generation)
  }

  function SpaceName(sp: Space): string {
    match sp
    case Raw(side) => "raw" + "/" + SideName(side)
    case HeadSpace(name, generation, side) => HeadNamespace(name, generation) + "/" + SideName(side)
  }

  /** The last '@' of a head namespace stands before its digits. */
  lemma {:induction false} NameIsShorter(n: string, g: nat, n': string, g': nat)
    requires HeadNamespace(n, g) == HeadNamespace(n', g')
    ensures |n'| <= |n|
  {
    var s, d := HeadNamespace(n, g), Numeral(g);
    assert s[|n'|] == '@' && !IsDigit('@');
    assert forall i :: |n| < i < |s| ==> s[i] == d[i - |n| - 1] && IsDigit(d[i - |n| - 1]);
  }

  lemma {:induction false} NamespaceInjective(n: string, g: nat, n': string, g': nat)
    requires HeadNamespace(n, g) == HeadNamespace(n', g')
    ensures n == n' && g == g'
  {
    NameIsShorter(n, g, n', g');
    NameIsShorter(n', g', n, g);
    var s := HeadNamespace(n, g);
    assert s[..|n|] == n && s[..|n'|] == n';
    assert s[|n| + 1..] == Numeral(g) && s[|n'| + 1..] == Numeral(g');
    NumeralInjective(g, g');
  }

  lemma {:induction false} SideInjective(p: string, a: Side, p': string, b: Side)
    requires p + "/" + SideName(a) == p' + "/" + SideName(b)
    ensures p == p' && a == b
  {
    var s := p + "/" + SideName(a);
    assert s[|s| - 1] == SideName(a)[|SideName(a)| - 1] && s[|s| - 1] == SideName(b)[|SideName(b)| - 1];
    assert a == b;
    assert s[..|s| - |SideName(a)| - 1] == p && s[..|s| - |SideName(a)| - 1] == p';
  }

  /** No two spaces share a namespace string, whatever characters head names contain. */
  lemma {:induction false} SpaceNameInjective(a: Space, b: Space)
    requires SpaceName(a) == SpaceName(b)
    ensures a == b
  {
    var pa := if a.Raw? then "raw" else HeadNamespace(a.name, a.generation);
    var pb := if b.Raw? then "raw" else HeadNamespace(b.name, b.generation);
    SideInjective(pa, a.side, pb, b.side);
    assert a.HeadSpace? ==> pa[|a.name|] == '@';
    assert b.HeadSpace? ==> pb[|b.name|] == '@';
    assert '@' !in "raw";
    if a.HeadSpace? && b.HeadSpace? {
      NamespaceInjective(a.name, a.generation, b.name, b.generation);
    }
  }

  // ---- A head ----

  /** `weights` are those the heads hold, `past` those loaded for each generation so far. */
  datatype HeadState = HeadState(mtime: Option<real>, generation: nat, weights: Option<Weights>, past: map<nat, Weights>)

  predicate Unchanged(h: HeadState, view: FileView) {
    view.Seen? && h.mtime == Some(view.mtime)
  }

  /** Whether looking at the file raises: it is gone, or has changed and does not load. */
  predicate Raises(h: HeadState, view: FileView) {
    !Unchanged(h, view) && !(view.Seen? && view.content.Loads?)
  }

  /** A changed file that loads gives a new generation. One that fails late has replaced the heads by then, under
      the old generation and mtime. */
  function Ensured(h: HeadState, view: FileView): HeadState {
    if view.Gone? || Unchanged(h, view) then h
    else
      match view.content
      case Loads(w) => HeadState(Some(view.mtime), h.generation + 1, Some(w), h.past[h.generation + 1 := w])
      case FailsEarly => h
      case FailsLate(w) => h.(weights := Some(w))
  }

  /** A file has been loaded. */
  predicate Ready(h: HeadState) {
    && h.mtime.Some? && h.weights.Some? && h.generation in h.past
    && forall g :: g in h.past ==> g <= h.generation
  }

  /** The weights of the present generation, which its namespace stands for. */
  function Named(h: HeadState): Weights
    requires Ready(h)
  {
    h.past[h.generation]
  }

  /** The look finds the last loaded mtime, and the heads are other ones. */
  predicate Stale(h: HeadState, view: FileView)
    requires Ready(h)
  {
    Unchanged(h, view) && h.weights != Some(Named(h))
  }

  class HeadPair {
    const name: string
    var mtime: Option<real>
    var generation: nat
    var weights: Option<Weights>
    /** The weights loaded for every generation so far. */
    ghost var past: map<nat, Weights>

    ghost function State(): HeadState
      reads this
    {
      HeadState(mtime, generation, weights, past)
    }

    constructor (name: string)
      ensures this.name == name && State() == HeadState(None, 0, None, map[])
    {
      this.name, mtime, generation, weights, past := name, None, 0, None, map[];
    }

    method Ensure(view: FileView) returns (ok: bool)
      modifies this
      ensures ok == !Raises(old(State()), view)
      ensures State() == Ensured(old(State()), view)
      ensures view.Gone? ==> !ok && State() == old(State())
      ensures view.Seen? && old(mtime) == Some(view.mtime) ==> ok && State() == old(State())
      ensures view.Seen? && old(mtime) != Some(view.mtime) ==>
        match view.content
        case Loads(w) => ok && weights == Some(w) && mtime == Some(view.mtime) && generation == old(generation) + 1
        case FailsEarly => !ok && State() == old(State())
        case FailsLate(w) => !ok && weights == Some(w) && mtime == old(mtime) && generation == old(generation)
    {
      if view.Gone? { return false; }
      if mtime != Some(view.mtime) {
        if view.content.FailsEarly? { return false; }
        weights := Some(view.content.w);
        if view.content.FailsLate? { return false; }
        generation := generation + 1;
        past := past[generation := view.content.w];
        mtime := Some(view.mtime);
      }
      ok := true;
    }
  }

  datatype ProjectError = BadSide | ModelNotFound | LoadFailed | CacheFailed(e: CacheError)

  /** compute: embed the missing texts, then project them with the weights the head has by then. */
  function Compute(fns: Fns, w: Option<Weights>, side: Side): seq<string> -> Option<seq<Vec>> {
    (texts: seq<string>) =>
      if w.None? then None
      else Some(seq(|texts|, i requires 0 <= i < |texts| => fns.head(w.value, side, fns.embed(texts[i]))))
  }

  function RawCompute(fns: Fns): seq<string> -> Option<seq<Vec>> {
    (texts: seq<string>) => Some(seq(|texts|, i requires 0 <= i < |texts| => fns.embed(texts[i])))
  }

  /** What the missing texts get: nothing is computed when none is missing. */
  function Computed(fns: Fns, w: Option<Weights>, side: Side, todo: seq<string>): (c: seq<Vec>)
    ensures w.Some? ==> |c| == |todo|
  {
    if todo == [] || w.None? then [] else Compute(fns, w, side)(todo).value
  }

  // ---- Coherence of the cached rows with the loaded weights ----

  /** Each head's generation and the weights loaded for it. */
  type Loaded = map<string, (nat, Option<Weights>)>

  /** The right vector of text t in space sp: a row of a head's present generation is its loaded
      weights' vector, no row is ahead of its head, and raw rows are plain embeddings. */
  ghost predicate Sound(fns: Fns, loaded: Loaded, sp: Space, t: string, v: Vec) {
    match sp
    case Raw(side) => v == fns.embed(t)
    case HeadSpace(n, g, side) =>
      n in loaded ==> g <= loaded[n].0 && (g == loaded[n].0 && loaded[n].1.Some? ==> v == fns.head(loaded[n].1.value, side, fns.embed(t)))
  }

  ghost predicate Coherent(fns: Fns, loaded: Loaded, rows: map<Key, Vec>) {
    forall sp, t :: Key(SpaceName(sp), t) in rows ==> Sound(fns, loaded, sp, t, rows[Key(SpaceName(sp), t)])
  }

  /** A new generation starts with no row of its own. */
  lemma {:induction false} ReloadCoherent(fns: Fns, loaded: Loaded, rows: map<Key, Vec>, n: string, w: Option<Weights>)
    requires Coherent(fns, loaded, rows) && n in loaded
    ensures Coherent(fns, loaded[n := (loaded[n].0 + 1, w)], rows)
  {
    var loaded' := loaded[n := (loaded[n].0 + 1, w)];
    forall sp, t | Key(SpaceName(sp), t) in rows
      ensures Sound(fns, loaded', sp, t, rows[Key(SpaceName(sp), t)])
    {
      assert Sound(fns, loaded, sp, t, rows[Key(SpaceName(sp), t)]);
    }
  }

  // ---- Every generation's own weights ----

  /** The weights of each generation of each head. */
  type Pasts = map<string, map<nat, Weights>>

  /** Every cached row of every generation is that generation's vector of its text. */
  ghost predicate OwnRows(fns: Fns, made: Pasts, rows: map<Key, Vec>) {
    forall sp, t :: Key(SpaceName(sp), t) in rows ==> Own(fns, made, sp, t, rows[Key(SpaceName(sp), t)])
  }

  ghost predicate Own(fns: Fns, made: Pasts, sp: Space, t: string, v: Vec) {
    match sp
    case Raw(_) => v == fns.embed(t)
    case HeadSpace(n, g, side) => n in made && g in made[n] && v == fns.head(made[n][g], side, fns.embed(t))
  }

  /** Generations are added, and none is changed. */
  ghost predicate Extends(made: Pasts, was: Pasts) {
    forall n :: n in was ==> n in made && forall g :: g in was[n] ==> g in made[n] && made[n][g] == was[n][g]
  }

  lemma {:induction false} OwnMore(fns: Fns, was: Pasts, made: Pasts, rows: map<Key, Vec>)
    requires OwnRows(fns, was, rows) && Extends(made, was)
    ensures OwnRows(fns, made, rows)
  {
    forall sp, t | Key(SpaceName(sp), t) in rows ensures Own(fns, made, sp, t, rows[Key(SpaceName(sp), t)]) {
      assert Own(fns, was, sp, t, rows[Key(SpaceName(sp), t)]);
    }
  }

  /** Storing a generation's own vectors keeps every row its generation's. */
  lemma {:induction false} StoreOwn(fns: Fns, made: Pasts, rows: map<Key, Vec>, sp: Space, todo: seq<string>,
                                    computed: seq<Vec>, rows': map<Key, Vec>)
    requires OwnRows(fns, made, rows) && |computed| == |todo|
    requires forall i, j :: 0 <= i < j < |todo| ==> todo[i] != todo[j]
    requires forall i :: 0 <= i < |todo| ==> Own(fns, made, sp, todo[i], computed[i])
    requires Part(rows', Stored(rows, SpaceName(sp), todo, computed))
    ensures OwnRows(fns, made, rows')
  {
    forall sp', t | Key(SpaceName(sp'), t) in rows' ensures Own(fns, made, sp', t, rows'[Key(SpaceName(sp'), t)]) {
      var k := Key(SpaceName(sp'), t);
      if k.namespace == SpaceName(sp) && t in todo {
        SpaceNameInjective(sp, sp');
        var i :| 0 <= i < |todo| && todo[i] == t;
        StoredNew(rows, SpaceName(sp), todo, computed, i);
      } else {
        StoredOld(rows, SpaceName(sp), todo, computed, k);
        assert Own(fns, made, sp', t, rows[k]);
      }
    }
  }

  lemma {:induction false} StoreCoherent(fns: Fns, loaded: Loaded, rows: map<Key, Vec>, sp: Space, todo: seq<string>, computed: seq<Vec>,
                      rows': map<Key, Vec>)
    requires Coherent(fns, loaded, rows) && |computed| == |todo|
    requires forall i, j :: 0 <= i < j < |todo| ==> todo[i] != todo[j]
    requires forall i :: 0 <= i < |todo| ==> Sound(fns, loaded, sp, todo[i], computed[i])
    requires Part(rows', Stored(rows, SpaceName(sp), todo, computed))
    ensures Coherent(fns, loaded, rows')
  {
    var all := Stored(rows, SpaceName(sp), todo, computed);
    forall sp', t | Key(SpaceName(sp'), t) in rows'
      ensures Sound(fns, loaded, sp', t, rows'[Key(SpaceName(sp'), t)])
    {
      var k := Key(SpaceName(sp'), t);
      if k.namespace == SpaceName(sp) && t in todo {
        SpaceNameInjective(sp, sp');
        var i :| 0 <= i < |todo| && todo[i] == t;
        StoredNew(rows, SpaceName(sp), todo, computed, i);
      } else {
        StoredOld(rows, SpaceName(sp), todo, computed, k);
        assert Sound(fns, loaded, sp', t, rows[k]);
      }
    }
  }

  /** A request served from coherent rows: cached texts get their rows, missing ones the computed
      vectors; if both are sound, so is the whole answer. */
  lemma {:induction false} AnswerSound(fns: Fns, loaded: Loaded, rows: map<Key, Vec>, sp: Space, texts: seq<string>, computed: seq<Vec>,
                    out: seq<Vec>)
    requires Coherent(fns, loaded, rows)
    requires var todo := Missing(rows, SpaceName(sp), texts);
      |computed| == |todo| && (forall i :: 0 <= i < |todo| ==> Sound(fns, loaded, sp, todo[i], computed[i]))
      && Answers(Stored(rows, SpaceName(sp), todo, computed), KeysOf(SpaceName(sp), texts), out)
    ensures |out| == |texts| && forall i :: 0 <= i < |texts| ==> Sound(fns, loaded, sp, texts[i], out[i])
  {
    var todo := Missing(rows, SpaceName(sp), texts);
    var all := Stored(rows, SpaceName(sp), todo, computed);
    StoreCoherent(fns, loaded, rows, sp, todo, computed, all);
    forall i | 0 <= i < |texts| ensures Sound(fns, loaded, sp, texts[i], out[i]) {
      assert KeysOf(SpaceName(sp), texts)[i] == Key(SpaceName(sp), texts[i]);
    }
  }

  // ---- Replies ----

  ghost predicate RawReply(fns: Fns, texts: seq<string>, out: seq<Vec>) {
    |out| == |texts| && forall i :: 0 <= i < |texts| ==> out[i] == fns.embed(texts[i])
  }

  /** Cached texts get their rows, missing ones are projected with the weights w. */
  ghost predicate Served(fns: Fns, side: Side, texts: seq<string>, space: string, rows: map<Key, Vec>, w: Option<Weights>,
                         out: seq<Vec>)
  {
    |out| == |texts| && forall i :: 0 <= i < |texts| ==>
      if Key(space, texts[i]) in rows then out[i] == rows[Key(space, texts[i])]
      else w.Some? && out[i] == fns.head(w.value, side, fns.embed(texts[i]))
  }

  /** What a call does from head state h and rows `rows`: the reply and the head it leaves. */
  ghost predicate HeadReply(fns: Fns, side: Side, texts: seq<string>, model: string, h: HeadState, view1: FileView,
                            view2: FileView, rows: map<Key, Vec>, r: Result<seq<Vec>, ProjectError>, h': HeadState)
  {
    if Raises(h, view1) then r == Err(LoadFailed) && h' == Ensured(h, view1)
    else HeadTail(fns, side, texts, model, Ensured(h, view1), view2, rows, r, h')
  }

  /** The same once the generation is named. */
  ghost predicate HeadTail(fns: Fns, side: Side, texts: seq<string>, model: string, h1: HeadState, view2: FileView,
                           rows: map<Key, Vec>, r: Result<seq<Vec>, ProjectError>, h': HeadState)
  {
    var space := SpaceName(HeadSpace(model, h1.generation, side));
    var todo := Missing(rows, space, texts);
    h' == (if todo == [] then h1 else Ensured(h1, view2))
    && if texts == [] then r == Err(CacheFailed(NothingToStack))
       else if todo != [] && Raises(h1, view2) then r == Err(CacheFailed(ComputeRaised))
       else r.Ok? && Served(fns, side, texts, space, rows, h'.weights, r.value)
  }

  /** The whole reply is vectors of the weights w. */
  ghost predicate UsesWeights(fns: Fns, side: Side, texts: seq<string>, out: seq<Vec>, w: Weights) {
    |out| == |texts| && forall i :: 0 <= i < |texts| ==> out[i] == fns.head(w, side, fns.embed(texts[i]))
  }

  /** The whole reply is vectors of one and the same weights. */
  ghost predicate OneWeight(fns: Fns, side: Side, texts: seq<string>, out: seq<Vec>) {
    exists w :: UsesWeights(fns, side, texts, out, w)
  }

  /** The call succeeds, whatever the encoder and the heads compute. */
  ghost predicate Succeeds(side: Side, texts: seq<string>, model: string, h: HeadState, view1: FileView, view2: FileView,
                           rows: map<Key, Vec>)
  {
    var h1 := Ensured(h, view1);
    && texts != [] && !Raises(h, view1)
    && (Missing(rows, SpaceName(HeadSpace(model, h1.generation, side)), texts) == [] || !Raises(h1, view2))
  }

  /** Rows for the same texts as `like`, each a vector of the weights w. */
  ghost predicate CachedOf(fns: Fns, side: Side, space: string, like: map<Key, Vec>, w: Weights, rows: map<Key, Vec>) {
    rows.Keys == like.Keys
    && forall t :: Key(space, t) in rows ==> rows[Key(space, t)] == fns.head(w, side, fns.embed(t))
  }

  /** A call whose cached rows are vectors of the weights loaded for the generation it names. */
  ghost predicate CachedReply(fns: Fns, side: Side, texts: seq<string>, model: string, h: HeadState, view1: FileView,
                              view2: FileView, like: map<Key, Vec>, cached: map<Key, Vec>,
                              r: Result<seq<Vec>, ProjectError>, h': HeadState)
    requires Ready(h)
  {
    var h1 := Ensured(h, view1);
    && CachedOf(fns, side, SpaceName(HeadSpace(model, h1.generation, side)), like, Named(h1), cached)
    && HeadReply(fns, side, texts, model, h, view1, view2, cached, r, h')
  }

  /** Heads that give away their weights. */
  const TELLING := Fns((t: string) => [], (w: Weights, side: Side, v: Vec) => w.params)

  function Told(texts: seq<string>, space: string, rows: map<Key, Vec>, cached: Weights, late: Weights): (out: seq<Vec>)
    ensures |out| == |texts|
  {
    seq(|texts|, i requires 0 <= i < |texts| => if Key(space, texts[i]) in rows then cached.params else late.params)
  }

  function ToldRows(rows: map<Key, Vec>, w: Weights): map<Key, Vec> {
    map k | k in rows :: w.params
  }

  lemma {:induction false} MissingByKeys(rows: map<Key, Vec>, rows': map<Key, Vec>, namespace: string, texts: seq<string>)
    requires rows.Keys == rows'.Keys
    ensures Missing(rows, namespace, texts) == Missing(rows', namespace, texts)
  {
    if texts != [] {
      MissingByKeys(rows, rows', namespace, texts[..|texts| - 1]);
      var k := Key(namespace, texts[|texts| - 1]);
      assert k in rows <==> k in rows.Keys;
      assert k in rows' <==> k in rows'.Keys;
    }
  }

  lemma {:induction false} ToldIsReply(side: Side, texts: seq<string>, model: string, h: HeadState, view1: FileView,
                                       view2: FileView, rows: map<Key, Vec>, w: Weights)
    requires Ready(h) && Succeeds(side, texts, model, h, view1, view2, rows)
    requires Missing(rows, SpaceName(HeadSpace(model, Ensured(h, view1).generation, side)), texts) != []
    ensures var h1 := Ensured(h, view1);
      var h2 := Ensured(h1, view2);
      var space := SpaceName(HeadSpace(model, h1.generation, side));
      && h2.weights.Some? && CachedOf(TELLING, side, space, rows, w, ToldRows(rows, w))
      && HeadReply(TELLING, side, texts, model, h, view1, view2, ToldRows(rows, w),
                   Ok(Told(texts, space, rows, w, h2.weights.value)), h2)
  {
    var h1 := Ensured(h, view1);
    var space := SpaceName(HeadSpace(model, h1.generation, side));
    assert ToldRows(rows, w).Keys == rows.Keys;
    MissingByKeys(rows, ToldRows(rows, w), space, texts);
  }

  /** Exactly when a successful reply has one weight for every encoder and every kind of head, with cached rows of the
      weights that were loaded for the generation: the missing texts are projected with just these, or no requested text
      was cached, or none was missing. */
  lemma {:induction false} OneWeightExactly(side: Side, texts: seq<string>, model: string, h: HeadState, view1: FileView,
                                            view2: FileView, rows: map<Key, Vec>)
    requires Ready(h) && Succeeds(side, texts, model, h, view1, view2, rows)
    ensures var h1 := Ensured(h, view1);
      var space := SpaceName(HeadSpace(model, h1.generation, side));
      (forall fns, cached, r, h' :: CachedReply(fns, side, texts, model, h, view1, view2, rows, cached, r, h') ==>
        r.Ok? && OneWeight(fns, side, texts, r.value))
      <==> (Ensured(h1, view2).weights == Some(Named(h1))
            || (forall i :: 0 <= i < |texts| ==> Key(space, texts[i]) !in rows)
            || Missing(rows, space, texts) == [])
  {
    var h1 := Ensured(h, view1);
    var h2 := Ensured(h1, view2);
    var space := SpaceName(HeadSpace(model, h1.generation, side));
    var todo := Missing(rows, space, texts);
    if h2.weights == Some(Named(h1)) || (forall i :: 0 <= i < |texts| ==> Key(space, texts[i]) !in rows) || todo == [] {
      forall fns, cached, r, h' | CachedReply(fns, side, texts, model, h, view1, view2, rows, cached, r, h')
        ensures r.Ok? && OneWeight(fns, side, texts, r.value)
      {
        MissingByKeys(rows, cached, space, texts);
        SameWeight(fns, side, texts, model, h1, view2, cached, r, h');
      }
    } else {
      ToldIsReply(side, texts, model, h, view1, view2, rows, Named(h1));
      assert CachedReply(TELLING, side, texts, model, h, view1, view2, rows, ToldRows(rows, Named(h1)),
                         Ok(Told(texts, space, rows, Named(h1), h2.weights.value)), h2);
      var c :| 0 <= c < |texts| && Key(space, texts[c]) in rows;
      assert todo[0] in todo;
      var m :| 0 <= m < |texts| && texts[m] == todo[0];
      TwoTold(side, texts, space, rows, Named(h1), h2.weights.value, c, m);
    }
  }

  lemma {:induction false} TwoTold(side: Side, texts: seq<string>, space: string, rows: map<Key, Vec>, cached: Weights,
                                   late: Weights, c: nat, m: nat)
    requires cached != late && c < |texts| && m < |texts| && Key(space, texts[c]) in rows && Key(space, texts[m]) !in rows
    ensures !OneWeight(TELLING, side, texts, Told(texts, space, rows, cached, late))
  {
    var out := Told(texts, space, rows, cached, late);
    var x, y := out[c], out[m];
    assert x == cached.params && y == late.params && x != y;
    forall w ensures !UsesWeights(TELLING, side, texts, out, w) {
      TellsAt(side, texts, out, w, c);
      TellsAt(side, texts, out, w, m);
    }
  }

  lemma {:induction false} TellsAt(side: Side, texts: seq<string>, out: seq<Vec>, w: Weights, i: nat)
    requires |out| == |texts| && i < |texts|
    ensures UsesWeights(TELLING, side, texts, out, w) ==> out[i] == w.params
  {
  }

  lemma {:induction false} SameWeight(fns: Fns, side: Side, texts: seq<string>, model: string, h1: HeadState, view2: FileView,
                                      rows: map<Key, Vec>, r: Result<seq<Vec>, ProjectError>, h': HeadState)
    requires Ready(h1) && texts != [] && HeadTail(fns, side, texts, model, h1, view2, rows, r, h')
    requires var space := SpaceName(HeadSpace(model, h1.generation, side));
      && CachedOf(fns, side, space, rows, Named(h1), rows)
      && (Missing(rows, space, texts) == []
          || (!Raises(h1, view2)
              && (Ensured(h1, view2).weights == Some(Named(h1))
                  || (forall i :: 0 <= i < |texts| ==> Key(space, texts[i]) !in rows))))
    ensures r.Ok? && OneWeight(fns, side, texts, r.value)
  {
    var space := SpaceName(HeadSpace(model, h1.generation, side));
    if Missing(rows, space, texts) == [] {
      forall i | 0 <= i < |texts| ensures Key(space, texts[i]) in rows {
        assert texts[i] in texts;
      }
      assert UsesWeights(fns, side, texts, r.value, Named(h1));
    } else {
      assert UsesWeights(fns, side, texts, r.value, h'.weights.value);
    }
  }

  /** Such a reply: of two texts the first was cached, and the file was replaced before the second was projected. */
  lemma {:induction false} MixedReply(side: Side)
    ensures var w1, w2 := Weights([1.0]), Weights([2.0]);
      var h := HeadState(Some(1.0), 1, Some(w1), map[1 := w1]);
      var texts, space := ["a", "b"], SpaceName(HeadSpace("m", 1, side));
      var out := [[1.0], [2.0]];
      && HeadReply(TELLING, side, texts, "m", h, Seen(1.0, Loads(w1)), Seen(2.0, Loads(w2)), map[Key(space, "a") := [1.0]],
                   Ok(out), HeadState(Some(2.0), 2, Some(w2), map[1 := w1, 2 := w2]))
      && !OneWeight(TELLING, side, texts, out)
  {
    var w1, w2 := Weights([1.0]), Weights([2.0]);
    var h := HeadState(Some(1.0), 1, Some(w1), map[1 := w1]);
    var texts, space := ["a", "b"], SpaceName(HeadSpace("m", 1, side));
    var rows: map<Key, Vec> := map[Key(space, "a") := [1.0]];
    var todo := Missing(rows, space, texts);
    assert texts[1] == "b" && Key(space, "b") !in rows && "b" in todo;
    assert Told(texts, space, rows, w1, w2) == [[1.0], [2.0]];
    ToldIsReply(side, texts, "m", h, Seen(1.0, Loads(w1)), Seen(2.0, Loads(w2)), rows, w1);
    assert ToldRows(rows, w1) == rows;
    assert w1.params[0] != w2.params[0];
    TwoTold(side, texts, space, rows, w1, w2, 0, 1);
  }

  // ---- The rows a call leaves ----

  /** What a space's missing texts get: plain embeddings, or vectors of the weights the head has by then. */
  function Projected(fns: Fns, sp: Space, w: Option<Weights>, todo: seq<string>): seq<Vec> {
    if todo == [] then []
    else if sp.Raw? then RawCompute(fns)(todo).value
    else Computed(fns, w, sp.side, todo)
  }

  /** A failed request changes no row, a served one stores what was missing and may evict. */
  ghost predicate RowsAfter(fns: Fns, sp: Space, texts: seq<string>, rows: map<Key, Vec>, w: Option<Weights>, ok: bool,
                            rows': map<Key, Vec>)
  {
    var todo := Missing(rows, SpaceName(sp), texts);
    var computed := Projected(fns, sp, w, todo);
    if !ok then rows' == rows
    else |computed| == |todo| && Part(rows', Stored(rows, SpaceName(sp), todo, computed))
  }

  /** A request whose missing texts are projected with the weights of the generation it named keeps every row its own
      generation's. */
  lemma {:induction false} RowsStayOwn(fns: Fns, was: Pasts, made: Pasts, sp: Space, texts: seq<string>,
                                       rows: map<Key, Vec>, w: Option<Weights>, ok: bool, rows': map<Key, Vec>)
    requires OwnRows(fns, was, rows) && Extends(made, was) && RowsAfter(fns, sp, texts, rows, w, ok, rows')
    requires ok && sp.HeadSpace? && Missing(rows, SpaceName(sp), texts) != [] ==>
      sp.name in made && sp.generation in made[sp.name] && w == Some(made[sp.name][sp.generation])
    ensures OwnRows(fns, made, rows')
  {
    OwnMore(fns, was, made, rows);
    if ok {
      var todo := Missing(rows, SpaceName(sp), texts);
      StoreOwn(fns, made, rows, sp, todo, Projected(fns, sp, w, todo), rows');
    }
  }

  // ---- The engine as a state machine ----

  type Heads = map<string, HeadState>

  datatype World = World(heads: Heads, rows: map<Key, Vec>)

  /** `view1` is the file as `_space` finds it, `view2` as the head's own `ensure` finds it when missing texts are
      projected, inside the cache's request. */
  datatype Request = Request(side: string, texts: seq<string>, model: string, view1: FileView, view2: FileView)

  ghost predicate AllReady(heads: Heads) {
    forall n :: n in heads ==> Ready(heads[n])
  }

  /** The weights of every generation the heads have had. */
  ghost function Made(heads: Heads): Pasts {
    map n | n in heads :: heads[n].past
  }

  ghost function LoadedOf(heads: Heads): Loaded
    requires AllReady(heads)
  {
    map n | n in heads :: (heads[n].generation, Some(Named(heads[n])))
  }

  ghost predicate RawStep(fns: Fns, side: Side, texts: seq<string>, rows: map<Key, Vec>, r: Result<seq<Vec>, ProjectError>,
                          rows': map<Key, Vec>)
  {
    && RowsAfter(fns, Raw(side), texts, rows, None, r.Ok?, rows')
    && if texts == [] then r == Err(CacheFailed(NothingToStack)) else r.Ok? && RawReply(fns, texts, r.value)
  }

  ghost predicate HeadStep(fns: Fns, side: Side, q: Request, h: HeadState, rows: map<Key, Vec>,
                           r: Result<seq<Vec>, ProjectError>, h': HeadState, rows': map<Key, Vec>)
  {
    && HeadReply(fns, side, q.texts, q.model, h, q.view1, q.view2, rows, r, h')
    && RowsAfter(fns, HeadSpace(q.model, Ensured(h, q.view1).generation, side), q.texts, rows, h'.weights, r.Ok?, rows')
  }

  /** One call of the engine: its reply, and the heads and rows it leaves. */
  ghost predicate Step(fns: Fns, raw: string, w: World, q: Request, r: Result<seq<Vec>, ProjectError>, w': World) {
    var side := SideOf(q.side);
    if side.None? then r == Err(BadSide) && w' == w
    else if q.model == raw then w'.heads == w.heads && RawStep(fns, side.value, q.texts, w.rows, r, w'.rows)
    else if q.model !in w.heads then r == Err(ModelNotFound) && w' == w
    else
      q.model in w'.heads && w'.heads == w.heads[q.model := w'.heads[q.model]]
      && HeadStep(fns, side.value, q, w.heads[q.model], w.rows, r, w'.heads[q.model], w'.rows)
  }

  /** A sequence of calls with the worlds between them. */
  ghost predicate RunOf(fns: Fns, raw: string, qs: seq<Request>, ws: seq<World>, rs: seq<Result<seq<Vec>, ProjectError>>) {
    && |ws| == |qs| + 1 && |rs| == |qs|
    && forall k :: 0 <= k < |qs| ==> StepAt(fns, raw, qs, ws, rs, k)
  }

  ghost predicate StepAt(fns: Fns, raw: string, qs: seq<Request>, ws: seq<World>, rs: seq<Result<seq<Vec>, ProjectError>>, k: nat)
    requires k < |qs| && |ws| == |qs| + 1 && |rs| == |qs|
  {
    Step(fns, raw, ws[k], qs[k], rs[k], ws[k + 1])
  }

  lemma {:induction false} EnsuredReady(h: HeadState, view: FileView)
    requires Ready(h)
    ensures Ready(Ensured(h, view)) && forall g :: g in h.past ==> g in Ensured(h, view).past && Ensured(h, view).past[g] == h.past[g]
    ensures !Raises(h, view) && !Stale(h, view) ==> Ensured(h, view).weights == Some(Named(Ensured(h, view)))
  {
  }

  lemma {:induction false} StepReady(fns: Fns, raw: string, w: World, q: Request, r: Result<seq<Vec>, ProjectError>, w': World)
    requires AllReady(w.heads) && Step(fns, raw, w, q, r, w')
    ensures AllReady(w'.heads) && w'.heads.Keys == w.heads.Keys && Extends(Made(w'.heads), Made(w.heads))
  {
    if SideOf(q.side).Some? && q.model != raw && q.model in w.heads {
      var h := w.heads[q.model];
      EnsuredReady(h, q.view1);
      EnsuredReady(Ensured(h, q.view1), q.view2);
    }
  }

  // ---- The engine ----

  class Engine {
    const fns: Fns
    const rawModel: string
    const heads: map<string, HeadPair>
    const arena: VectorCache

    constructor (fns: Fns, rawModel: string, heads: map<string, HeadPair>, capacity: nat)
      requires forall n :: n in heads ==> heads[n].name == n && Ready(heads[n].State())
      ensures Valid() && fresh(arena) && this.fns == fns && this.rawModel == rawModel && this.heads == heads
      ensures Now().rows == map[]
    {
      this.fns, this.rawModel, this.heads := fns, rawModel, heads;
      arena := new VectorCache(capacity);
    }

    ghost function Now(): World
      reads arena, heads.Values
    {
      World(map n | n in heads :: heads[n].State(), arena.rows)
    }

    /** Every head has been loaded. */
    ghost predicate Sane()
      reads this, arena, heads.Values
    {
      arena.Valid() && forall n :: n in heads ==> heads[n].name == n && Ready(heads[n].State())
    }

    /** Cached raw rows, moreover, are plain embeddings. */
    ghost predicate Valid()
      reads this, arena, heads.Values
    {
      Sane() && Coherent(fns, map[], arena.rows)
    }

    method Refresh(model: string, view: FileView) returns (ok: bool)
      requires Valid() && model in heads
      modifies heads[model]
      ensures Valid() && ok == !Raises(old(Now()).heads[model], view)
      ensures Now().heads == old(Now()).heads[model := Ensured(old(Now()).heads[model], view)]
    {
      var h := heads[model];
      ghost var was := Now().heads;
      EnsuredReady(h.State(), view);
      ok := h.Ensure(view);
      assert forall n :: n in heads && n != model ==> heads[n] != h && heads[n].State() == was[n];
    }

    /** The engine takes the machine's step. */
    method Project(side: string, texts: seq<string>, model: string, view1: FileView, view2: FileView)
      returns (r: Result<seq<Vec>, ProjectError>)
      requires Valid()
      modifies arena, heads.Values
      ensures Valid() && Step(fns, rawModel, old(Now()), Request(side, texts, model, view1, view2), r, Now())
    {
      var sd := SideOf(side);
      if sd.None? { return Err(BadSide); }
      if model == rawModel {
        r := ProjectRaw(sd.value, texts);
        return;
      }
      if model !in heads { return Err(ModelNotFound); }
      ghost var was := Now();
      r := ProjectModel(sd.value, Request(side, texts, model, view1, view2));
      StepOfHead(fns, rawModel, was, Request(side, texts, model, view1, view2), r, Now());
    }

    /** `_space` for a head, and the request under the generation it names. */
    method ProjectModel(side: Side, q: Request) returns (r: Result<seq<Vec>, ProjectError>)
      requires Valid() && q.model in heads
      modifies arena, heads[q.model]
      ensures Valid() && Now().heads == old(Now()).heads[q.model := Now().heads[q.model]]
      ensures HeadStep(fns, side, q, old(Now()).heads[q.model], old(Now()).rows, r, Now().heads[q.model], Now().rows)
    {
      var ok := Refresh(q.model, q.view1);
      if !ok { return Err(LoadFailed); }
      r := ProjectHead(side, q.texts, q.model, q.view2);
    }

    method ProjectRaw(side: Side, texts: seq<string>) returns (r: Result<seq<Vec>, ProjectError>)
      requires Valid()
      modifies arena
      ensures Valid() && Now().heads == old(Now()).heads
      ensures RawStep(fns, side, texts, old(arena.rows), r, arena.rows)
    {
      ghost var rows := arena.rows;
      var got := Cached(SpaceName(Raw(side)), texts, RawCompute(fns));
      if got.Err? { return Err(CacheFailed(got.error)); }
      RawServed(fns, side, texts, rows, got.value, arena.rows);
      r := Ok(got.value);
    }

    /** `_cached`: the cache's request, which touches no head. */
    method Cached(namespace: string, texts: seq<string>, compute: seq<string> -> Option<seq<Vec>>)
      returns (got: Result<seq<Vec>, CacheError>)
      requires Sane() && forall xs :: compute(xs).Some? ==> |compute(xs).value| == |xs|
      modifies arena
      ensures Sane() && Now().heads == old(Now()).heads
      ensures got == Err(NothingToStack) <==> texts == []
      ensures got.Err? ==> arena.rows == old(arena.rows) && (got == Err(NothingToStack) || got == Err(ComputeRaised))
      ensures got == Err(ComputeRaised) <==>
        var todo := Missing(old(arena.rows), namespace, texts); todo != [] && compute(todo).None?
      ensures got.Ok? ==> var todo := Missing(old(arena.rows), namespace, texts);
        var all := Stored(old(arena.rows), namespace, todo, if todo == [] then [] else compute(todo).value);
        Answers(all, KeysOf(namespace, texts), got.value) && Part(arena.rows, all)
    {
      got := arena.Get(namespace, texts, compute);
    }

    /** The request's second half: the generation is named, then the texts are looked up. Only missing
        texts make the head look at its file again. */
    method ProjectHead(side: Side, texts: seq<string>, model: string, view: FileView)
      returns (r: Result<seq<Vec>, ProjectError>)
      requires Valid() && model in heads
      modifies arena, heads[model]
      ensures Valid() && Now().heads == old(Now()).heads[model := Now().heads[model]]
      ensures RowsAfter(fns, HeadSpace(model, old(Now()).heads[model].generation, side), texts, old(Now()).rows,
                        Now().heads[model].weights, r.Ok?, Now().rows)
      ensures HeadTail(fns, side, texts, model, old(Now()).heads[model], view, old(Now()).rows, r, Now().heads[model])
    {
      var sp := HeadSpace(model, heads[model].generation, side);
      var todo := Missing(arena.rows, SpaceName(sp), texts);
      ghost var h1, rows := Now().heads[model], arena.rows;
      var weights := heads[model].weights;
      if todo != [] { weights := LookAgain(model, view); }
      ghost var h' := Now().heads[model];
      assert h' == heads[model].State() && arena.rows == rows;
      assert if todo == [] then h' == h1 && weights == h1.weights
        else h' == Ensured(h1, view) && weights == if Raises(h1, view) then None else h'.weights;
      r := Lookup(sp, texts, weights);
      TailIs(fns, sp, texts, h1, view, rows, weights, r, h', arena.rows);
    }

    /** The head's own look before it projects. */
    method LookAgain(model: string, view: FileView) returns (weights: Option<Weights>)
      requires Valid() && model in heads
      modifies heads[model]
      ensures Valid() && Now().heads == old(Now()).heads[model := Ensured(old(Now()).heads[model], view)]
      ensures weights == if Raises(old(Now()).heads[model], view) then None else Now().heads[model].weights
    {
      var ok := Refresh(model, view);
      weights := if ok then heads[model].weights else None;
    }

    /** The cache's request; without weights the computation raises. */
    method Lookup(sp: Space, texts: seq<string>, weights: Option<Weights>) returns (r: Result<seq<Vec>, ProjectError>)
      requires Valid() && sp.HeadSpace?
      modifies arena
      ensures Valid() && Now().heads == old(Now()).heads
      ensures RowsAfter(fns, sp, texts, old(arena.rows), weights, r.Ok?, arena.rows)
      ensures LookedUp(fns, sp, texts, old(arena.rows), weights, r)
    {
      ghost var rows := arena.rows;
      var got := Cached(SpaceName(sp), texts, Compute(fns, weights, sp.side));
      if got.Err? { return Err(CacheFailed(got.error)); }
      HeadRowsRaw(fns, rows, sp, texts, weights, arena.rows);
      AnswerServed(fns, rows, sp, texts, weights, got.value);
      r := Ok(got.value);
    }

    /** Any calls, one after another, are a run of the machine. */
    method Serve(qs: seq<Request>) returns (rs: seq<Result<seq<Vec>, ProjectError>>, ghost ws: seq<World>)
      requires Valid()
      modifies arena, heads.Values
      ensures Valid() && RunOf(fns, rawModel, qs, ws, rs) && ws[0] == old(Now()) && ws[|qs|] == Now()
    {
      rs, ws := [], [Now()];
      for k := 0 to |qs|
        invariant Valid() && RunOf(fns, rawModel, qs[..k], ws, rs) && ws[0] == old(Now()) && ws[k] == Now()
      {
        var r := Project(qs[k].side, qs[k].texts, qs[k].model, qs[k].view1, qs[k].view2);
        RunMore(fns, rawModel, qs[..k], ws, rs, qs[k], r, Now());
        assert qs[..k + 1] == qs[..k] + [qs[k]];
        rs, ws := rs + [r], ws + [Now()];
      }
      assert qs[..|qs|] == qs;
    }
  }

  lemma {:induction false} StepOfHead(fns: Fns, raw: string, w: World, q: Request, r: Result<seq<Vec>, ProjectError>, w': World)
    requires SideOf(q.side).Some? && q.model != raw && q.model in w.heads && q.model in w'.heads
    requires w'.heads == w.heads[q.model := w'.heads[q.model]]
    requires HeadStep(fns, SideOf(q.side).value, q, w.heads[q.model], w.rows, r, w'.heads[q.model], w'.rows)
    ensures Step(fns, raw, w, q, r, w')
  {
  }

  lemma {:induction false} RunMore(fns: Fns, raw: string, qs: seq<Request>, ws: seq<World>,
                                   rs: seq<Result<seq<Vec>, ProjectError>>, q: Request, r: Result<seq<Vec>, ProjectError>, w: World)
    requires RunOf(fns, raw, qs, ws, rs) && Step(fns, raw, ws[|qs|], q, r, w)
    ensures RunOf(fns, raw, qs + [q], ws + [w], rs + [r])
  {
    var qs', ws', rs' := qs + [q], ws + [w], rs + [r];
    forall k | 0 <= k < |qs'| ensures StepAt(fns, raw, qs', ws', rs', k) {
      if k < |qs| {
        assert StepAt(fns, raw, qs, ws, rs, k);
        StepThere(fns, raw, qs, ws, rs, k, qs', ws', rs');
      }
    }
  }

  lemma {:induction false} StepThere(fns: Fns, raw: string, qs: seq<Request>, ws: seq<World>,
                                     rs: seq<Result<seq<Vec>, ProjectError>>, k: nat, qs': seq<Request>, ws': seq<World>,
                                     rs': seq<Result<seq<Vec>, ProjectError>>)
    requires |ws| == |qs| + 1 && |rs| == |qs| && k < |qs| && StepAt(fns, raw, qs, ws, rs, k)
    requires |ws'| == |qs'| + 1 && |rs'| == |qs'| && qs <= qs' && ws <= ws' && rs <= rs'
    ensures StepAt(fns, raw, qs', ws', rs', k)
  {
    assert qs'[k] == qs[k] && rs'[k] == rs[k] && ws'[k] == ws[k] && ws'[k + 1] == ws[k + 1];
  }

  /** The reply of the cache's request. */
  ghost predicate LookedUp(fns: Fns, sp: Space, texts: seq<string>, rows: map<Key, Vec>, weights: Option<Weights>,
                           r: Result<seq<Vec>, ProjectError>)
    requires sp.HeadSpace?
  {
    if texts == [] then r == Err(CacheFailed(NothingToStack))
    else if Missing(rows, SpaceName(sp), texts) != [] && weights.None? then r == Err(CacheFailed(ComputeRaised))
    else r.Ok? && Served(fns, sp.side, texts, SpaceName(sp), rows, weights, r.value)
  }

  lemma {:induction false} TailIs(fns: Fns, sp: Space, texts: seq<string>, h1: HeadState, view: FileView, rows: map<Key, Vec>,
                                  weights: Option<Weights>, r: Result<seq<Vec>, ProjectError>, h': HeadState, rows': map<Key, Vec>)
    requires Ready(h1) && sp.HeadSpace? && sp.generation == h1.generation
    requires RowsAfter(fns, sp, texts, rows, weights, r.Ok?, rows') && LookedUp(fns, sp, texts, rows, weights, r)
    requires var todo := Missing(rows, SpaceName(sp), texts);
      if todo == [] then h' == h1 && weights == h1.weights
      else h' == Ensured(h1, view) && weights == if Raises(h1, view) then None else h'.weights
    ensures RowsAfter(fns, sp, texts, rows, h'.weights, r.Ok?, rows')
    ensures HeadTail(fns, sp.side, texts, sp.name, h1, view, rows, r, h')
  {
    EnsuredReady(h1, view);
    if texts == [] { assert |Missing(rows, SpaceName(sp), texts)| == 0; }
  }

  lemma {:induction false} RawServed(fns: Fns, side: Side, texts: seq<string>, rows: map<Key, Vec>, out: seq<Vec>,
                                     rows': map<Key, Vec>)
    requires Coherent(fns, map[], rows) && texts != []
    requires var todo := Missing(rows, SpaceName(Raw(side)), texts);
      var all := Stored(rows, SpaceName(Raw(side)), todo, if todo == [] then [] else RawCompute(fns)(todo).value);
      Answers(all, KeysOf(SpaceName(Raw(side)), texts), out) && Part(rows', all)
    ensures Coherent(fns, map[], rows') && RawStep(fns, side, texts, rows, Ok(out), rows')
  {
    var sp := Raw(side);
    var todo := Missing(rows, SpaceName(sp), texts);
    var computed := if todo == [] then [] else RawCompute(fns)(todo).value;
    AnswerSound(fns, map[], rows, sp, texts, computed, out);
    StoreCoherent(fns, map[], rows, sp, todo, computed, rows');
  }

  /** Storing a head's vectors touches no raw row. */
  lemma {:induction false} HeadRowsRaw(fns: Fns, rows: map<Key, Vec>, sp: Space, texts: seq<string>, w: Option<Weights>,
                                       rows': map<Key, Vec>)
    requires Coherent(fns, map[], rows) && sp.HeadSpace? && (w.Some? || Missing(rows, SpaceName(sp), texts) == [])
    requires var todo := Missing(rows, SpaceName(sp), texts);
      Part(rows', Stored(rows, SpaceName(sp), todo, Computed(fns, w, sp.side, todo)))
    ensures Coherent(fns, map[], rows') && RowsAfter(fns, sp, texts, rows, w, true, rows')
  {
    var todo := Missing(rows, SpaceName(sp), texts);
    StoreCoherent(fns, map[], rows, sp, todo, Computed(fns, w, sp.side, todo), rows');
  }

  lemma {:induction false} AnswerServed(fns: Fns, rows: map<Key, Vec>, sp: Space, texts: seq<string>, w: Option<Weights>, out: seq<Vec>)
    requires sp.HeadSpace? && (w.Some? || Missing(rows, SpaceName(sp), texts) == [])
    requires var todo := Missing(rows, SpaceName(sp), texts);
      Answers(Stored(rows, SpaceName(sp), todo, Computed(fns, w, sp.side, todo)), KeysOf(SpaceName(sp), texts), out)
    ensures Served(fns, sp.side, texts, SpaceName(sp), rows, w, out)
  {
    var space := SpaceName(sp);
    var todo := Missing(rows, space, texts);
    var computed := Computed(fns, w, sp.side, todo);
    forall i | 0 <= i < |texts|
      ensures if Key(space, texts[i]) in rows then out[i] == rows[Key(space, texts[i])]
        else w.Some? && out[i] == fns.head(w.value, sp.side, fns.embed(texts[i]))
    {
      var k := Key(space, texts[i]);
      assert KeysOf(space, texts)[i] == k && out[i] == Stored(rows, space, todo, computed)[k];
      if k in rows {
        StoredOld(rows, space, todo, computed, k);
      } else {
        assert texts[i] in todo;
        var j :| 0 <= j < |todo| && todo[j] == texts[i];
        StoredNew(rows, space, todo, computed, j);
      }
    }
  }
}
