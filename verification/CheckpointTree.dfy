/** Parameter trees: flattened and unstacked for the weights file (src-needle/src/seon_needle/convert.py),
    rebuilt when it is loaded (src-needle/src/seon_needle/model.py). */
module CheckpointTree {
  import opened Options
  import opened Decimal

  /** An array is a scalar or a stack of arrays along its leading axis. */
  datatype Arr = Scalar(v: real) | Stack(rows: seq<Arr>)

  /** A nested dict; dicts are equal whatever the order of their keys. */
  datatype Tree = Leaf(arr: Arr) | Node(kids: map<string, Tree>)

  datatype Value = VLeaf(arr: Arr) | VDict(kids: map<string, Value>) | VList(items: seq<Value>)

  type Path = seq<string>

  // ---- Keys ----

  /** "/".join(path) */
  function Join(path: Path): string {
    if path == [] then "" else if |path| == 1 then path[0] else path[0] + ['/'] + Join(path[1..])
  }

  /** s.split("/") */
  function Split(s: string): (r: Path)
    ensures r != []
  {
    if s == [] then [""]
    else
      var r := Split(s[1..]);
      if s[0] == '/' then [""] + r else [[s[0]] + r[0]] + r[1..]
  }

  predicate Plain(path: Path) {
    forall i :: 0 <= i < |path| ==> '/' !in path[i]
  }

  lemma {:induction false} JoinSplit(s: string)
    ensures Join(Split(s)) == s && Plain(Split(s))
  {
    if s != [] {
      JoinSplit(s[1..]);
      var r := Split(s[1..]);
      if s[0] == '/' {
        assert ([""] + r)[1..] == r;
      } else {
        var q := [[s[0]] + r[0]] + r[1..];
        assert q[1..] == r[1..];
        assert '/' !in r[0];
      }
    }
  }

  lemma {:induction false} SplitOne(p: string)
    requires '/' !in p
    ensures Split(p) == [p]
  {
    if p != [] {
      SplitOne(p[1..]);
      assert [p[0]] + p[1..] == p;
    }
  }

  lemma {:induction false} SplitFirst(p: string, s: string)
    requires '/' !in p
    ensures Split(p + ['/'] + s) == [p] + Split(s)
    decreases |p|
  {
    var t := p + ['/'] + s;
    if p == [] {
      assert t[1..] == s;
    } else {
      SplitFirst(p[1..], s);
      assert t[1..] == p[1..] + ['/'] + s;
      assert [p[0]] + p[1..] == p;
    }
  }

  /** Joined keys never collide: each is split back into its path. */
  lemma {:induction false} SplitJoin(path: Path)
    requires path != [] && Plain(path)
    ensures Split(Join(path)) == path
  {
    if |path| == 1 {
      SplitOne(path[0]);
    } else {
      SplitJoin(path[1..]);
      SplitFirst(path[0], Join(path[1..]));
      assert path == [path[0]] + path[1..];
    }
  }

  // ---- Trees by their leaves ----

  function At(t: Tree, p: Path): Option<Arr> {
    match t
    case Leaf(a) => if p == [] then Some(a) else None
    case Node(kids) => if p != [] && p[0] in kids then At(kids[p[0]], p[1..]) else None
  }

  /** No dict below is empty. */
  ghost predicate Full(t: Tree) {
    t.Node? ==> t.kids != map[] && forall k :: k in t.kids ==> Full(t.kids[k])
  }

  ghost predicate FullBelow(t: Tree) {
    t.Node? && forall k :: k in t.kids ==> Full(t.kids[k])
  }

  ghost predicate SlashFree(t: Tree) {
    t.Node? ==> forall k :: k in t.kids ==> '/' !in k && SlashFree(t.kids[k])
  }

  lemma {:induction false} LeafPathPlain(t: Tree, p: Path)
    requires SlashFree(t) && At(t, p).Some?
    ensures Plain(p) && (t.Node? ==> p != [])
  {
    if t.Node? {
      LeafPathPlain(t.kids[p[0]], p[1..]);
      assert p == [p[0]] + p[1..];
    }
  }

  lemma {:induction false} SomeLeaf(t: Tree) returns (p: Path)
    requires Full(t)
    ensures At(t, p).Some?
  {
    if t.Leaf? {
      p := [];
    } else {
      var k :| k in t.kids;
      var q := SomeLeaf(t.kids[k]);
      p := [k] + q;
      assert p[1..] == q;
    }
  }

  lemma {:induction false} AtKid(t: Tree, k: string, q: Path)
    requires t.Node?
    ensures At(t, [k] + q) == if k in t.kids then At(t.kids[k], q) else None
  {
    assert ([k] + q)[1..] == q;
  }

  /** Without empty dicts a tree is its leaves. */
  lemma {:induction false} SameLeaves(t: Tree, u: Tree)
    requires (Full(t) && Full(u)) || (FullBelow(t) && FullBelow(u))
    requires forall p :: At(t, p) == At(u, p)
    ensures t == u
    decreases t
  {
    if t.Leaf? || u.Leaf? {
      assert At(t, []) == At(u, []);
    } else {
      KidsWithin(t, u);
      KidsWithin(u, t);
      forall k | k in t.kids ensures t.kids[k] == u.kids[k] {
        forall q ensures At(t.kids[k], q) == At(u.kids[k], q) {
          AtKid(t, k, q);
          AtKid(u, k, q);
        }
        SameLeaves(t.kids[k], u.kids[k]);
      }
    }
  }

  lemma {:induction false} KidsWithin(t: Tree, u: Tree)
    requires FullBelow(t) && u.Node?
    requires forall p :: At(t, p) == At(u, p)
    ensures t.kids.Keys <= u.kids.Keys
  {
    forall k | k in t.kids ensures k in u.kids {
      var q := SomeLeaf(t.kids[k]);
      AtKid(t, k, q);
      AtKid(u, k, q);
      assert At(t, [k] + q) == At(u, [k] + q);
    }
  }

  /** One path lies inside another. */
  ghost predicate Clash(p: Path, q: Path) {
    p != q && (p <= q || q <= p)
  }

  lemma {:induction false} LeavesApart(t: Tree, p: Path, q: Path)
    requires At(t, p).Some? && At(t, q).Some?
    ensures !Clash(p, q)
    decreases t
  {
    if t.Node? && p[0] == q[0] {
      LeavesApart(t.kids[p[0]], p[1..], q[1..]);
      assert p == [p[0]] + p[1..] && q == [q[0]] + q[1..];
    }
  }

  /** m is the flat dict of t: its keys are exactly the joined paths of t's leaves. */
  ghost predicate IsFlat(m: map<string, Arr>, t: Tree) {
    forall key :: (key in m <==> At(t, Split(key)).Some?) && (key in m ==> At(t, Split(key)) == Some(m[key]))
  }

  // ---- flatten_tree ----

  ghost predicate Given(out: map<string, Arr>, key: string, a: Arr) {
    key in out && out[key] == a
  }

  /** The key is that of a leaf below node, which stands at path. */
  ghost predicate Leads(node: Tree, path: Path, key: string, a: Arr) {
    exists q :: key == Join(path + q) && At(node, q) == Some(a)
  }

  /** `walk`, filling `out` in whatever order the dicts list their keys. */
  method Walk(node: Tree, path: Path, out0: map<string, Arr>) returns (out: map<string, Arr>)
    ensures out0.Keys <= out.Keys
    ensures forall q :: At(node, q).Some? ==> Join(path + q) in out
    ensures forall key :: key in out ==> Given(out0, key, out[key]) || Leads(node, path, key, out[key])
    decreases node
  {
    match node
    case Leaf(a) =>
      assert path + [] == path;
      out := out0[Join(path) := a];
      assert At(node, []) == Some(a);
    case Node(kids) =>
      out := out0;
      var todo := kids.Keys;
      while todo != {}
        invariant todo <= kids.Keys && out0.Keys <= out.Keys
        invariant forall q :: At(node, q).Some? && q[0] !in todo ==> Join(path + q) in out
        invariant forall key :: key in out ==> Given(out0, key, out[key]) || Leads(node, path, key, out[key])
        decreases todo
      {
        var k :| k in todo;
        ghost var before := out;
        out := Walk(kids[k], path + [k], out);
        KidPaths(node, k, path, before, out);
        todo := todo - {k};
      }
  }

  /** What walking one kid adds, told from its parent. */
  lemma {:induction false} KidPaths(node: Tree, k: string, path: Path, before: map<string, Arr>, out: map<string, Arr>)
    requires node.Node? && k in node.kids
    requires forall q :: At(node.kids[k], q).Some? ==> Join(path + [k] + q) in out
    requires forall key :: key in out ==> Given(before, key, out[key]) || Leads(node.kids[k], path + [k], key, out[key])
    ensures forall q :: At(node, q).Some? && q[0] == k ==> Join(path + q) in out
    ensures forall key :: key in out ==> Given(before, key, out[key]) || Leads(node, path, key, out[key])
  {
    forall q | At(node, q).Some? && q[0] == k ensures Join(path + q) in out {
      assert path + [k] + q[1..] == path + q;
    }
    forall key | key in out && !Given(before, key, out[key]) ensures Leads(node, path, key, out[key]) {
      var q :| key == Join(path + [k] + q) && At(node.kids[k], q) == Some(out[key]);
      AtKid(node, k, q);
      assert path + [k] + q == path + ([k] + q);
    }
  }

  method FlattenTree(tree: Tree) returns (out: map<string, Arr>)
    ensures tree.Node? && SlashFree(tree) ==> IsFlat(out, tree)
  {
    out := Walk(tree, [], map[]);
    if tree.Node? && SlashFree(tree) { WalkedFlat(tree, out); }
  }

  lemma {:induction false} WalkedFlat(t: Tree, out: map<string, Arr>)
    requires t.Node? && SlashFree(t)
    requires forall q :: At(t, q).Some? ==> Join([] + q) in out
    requires forall key :: key in out ==> Leads(t, [], key, out[key])
    ensures IsFlat(out, t)
  {
    forall key ensures (key in out <==> At(t, Split(key)).Some?) && (key in out ==> At(t, Split(key)) == Some(out[key])) {
      JoinSplit(key);
      assert [] + Split(key) == Split(key);
      if key in out {
        var q :| key == Join([] + q) && At(t, q) == Some(out[key]);
        assert [] + q == q;
        LeafPathPlain(t, q);
        SplitJoin(q);
      }
    }
  }

  // ---- _unflatten, before lists ----

  /** node.setdefault(p, {}) down the path, then the leaf; None where a dict is wanted and a leaf is found. */
  function Put(t: Tree, p: Path, a: Arr): Option<Tree>
    requires p != []
    decreases |p|
  {
    if t.Leaf? then None
    else if |p| == 1 then Some(Node(t.kids[p[0] := Leaf(a)]))
    else
      var kid := Put(if p[0] in t.kids then t.kids[p[0]] else Node(map[]), p[1..], a);
      if kid.None? then None else Some(Node(t.kids[p[0] := kid.value]))
  }

  lemma {:induction false} PutAt(t: Tree, p: Path, a: Arr)
    requires p != [] && FullBelow(t)
    requires forall q :: At(t, q).Some? ==> !Clash(p, q)
    ensures Put(t, p, a).Some? && Full(Put(t, p, a).value)
    ensures forall q :: At(Put(t, p, a).value, q) == if q == p then Some(a) else At(t, q)
    decreases |p|
  {
    var k, rest := p[0], p[1..];
    var kid := if k in t.kids then t.kids[k] else Node(map[]);
    assert p == [k] + rest;
    if |p| == 1 {
      if k in t.kids { KidIsLeaf(t, p); }
      assert k in Put(t, p, a).value.kids;
      forall q ensures At(Put(t, p, a).value, q) == if q == p then Some(a) else At(t, q) {
        if q != [] && q[0] == k { assert q == [k] + q[1..]; }
      }
    } else {
      if k in t.kids && kid.Leaf? {
        AtKid(t, k, []);
        assert At(t, [k] + []).Some? && Clash(p, [k] + []);
      }
      forall q | At(kid, q).Some? ensures !Clash(rest, q) {
        AtKid(t, k, q);
        ClashDeeper(k, rest, q);
      }
      PutAt(kid, rest, a);
      assert k in Put(t, p, a).value.kids;
      forall q ensures At(Put(t, p, a).value, q) == if q == p then Some(a) else At(t, q) {
        if q != [] && q[0] == k { assert q == [k] + q[1..]; }
      }
    }
  }

  lemma {:induction false} ClashDeeper(k: string, p: Path, q: Path)
    ensures Clash([k] + p, [k] + q) <==> Clash(p, q)
  {
    assert ([k] + p)[1..] == p && ([k] + q)[1..] == q;
    assert p <= q ==> [k] + p <= [k] + q;
    assert q <= p ==> [k] + q <= [k] + p;
    if [k] + p <= [k] + q { assert forall i :: 0 <= i < |p| ==> p[i] == ([k] + p)[i + 1] == ([k] + q)[i + 1] == q[i]; }
    if [k] + q <= [k] + p { assert forall i :: 0 <= i < |q| ==> q[i] == ([k] + q)[i + 1] == ([k] + p)[i + 1] == p[i]; }
  }

  lemma {:induction false} KidIsLeaf(t: Tree, p: Path)
    requires |p| == 1 && FullBelow(t) && p[0] in t.kids
    requires forall q :: At(t, q).Some? ==> !Clash(p, q)
    ensures t.kids[p[0]].Leaf?
  {
    var q := SomeLeaf(t.kids[p[0]]);
    AtKid(t, p[0], q);
    assert p <= [p[0]] + q;
    assert !Clash(p, [p[0]] + q);
    assert |[p[0]] + q| == 1;
  }

  /** The tree built from the keys put so far. */
  ghost predicate Built(t: Tree, m: map<string, Arr>, done: set<string>) {
    && FullBelow(t)
    && forall q :: At(t, q) == if Plain(q) && q != [] && Join(q) in done && Join(q) in m then Some(m[Join(q)]) else None
  }

  /** Whatever the order of the file's keys, the flat dict of a tree gives that tree. */
  method Unflatten(flat: map<string, Arr>) returns (r: Option<Tree>)
    ensures forall e :: FullBelow(e) && SlashFree(e) && IsFlat(flat, e) ==> r == Some(e)
  {
    var t := Node(map[]);
    var todo := flat.Keys;
    while todo != {}
      invariant todo <= flat.Keys
      invariant (exists e :: FullBelow(e) && SlashFree(e) && IsFlat(flat, e)) ==> Built(t, flat, flat.Keys - todo)
      decreases todo
    {
      var key :| key in todo;
      var next := Put(t, Split(key), flat[key]);
      forall e | FullBelow(e) && SlashFree(e) && IsFlat(flat, e)
        ensures next.Some? && Built(next.value, flat, flat.Keys - (todo - {key}))
      {
        PutBuilt(t, flat, flat.Keys - todo, key, e);
        assert flat.Keys - (todo - {key}) == flat.Keys - todo + {key};
      }
      if next.None? { return None; }
      t := next.value;
      todo := todo - {key};
    }
    r := Some(t);
    forall e | FullBelow(e) && SlashFree(e) && IsFlat(flat, e) ensures t == e {
      BuiltAll(t, flat, e);
    }
  }

  lemma {:induction false} PutBuilt(t: Tree, m: map<string, Arr>, done: set<string>, key: string, e: Tree)
    requires Built(t, m, done) && IsFlat(m, e) && key in m
    ensures Put(t, Split(key), m[key]).Some? && Built(Put(t, Split(key), m[key]).value, m, done + {key})
  {
    var p := Split(key);
    JoinSplit(key);
    forall q | At(t, q).Some? ensures !Clash(p, q) {
      SplitJoin(q);
      assert Join(q) in m;
      LeavesApart(e, p, q);
    }
    PutAt(t, p, m[key]);
    var u := Put(t, p, m[key]).value;
    forall q
      ensures At(u, q) == if Plain(q) && q != [] && Join(q) in done + {key} && Join(q) in m then Some(m[Join(q)]) else None
    {
      if Plain(q) && q != [] && Join(q) == key { SplitJoin(q); }
    }
  }

  lemma {:induction false} BuiltAll(t: Tree, m: map<string, Arr>, e: Tree)
    requires Built(t, m, m.Keys) && FullBelow(e) && SlashFree(e) && IsFlat(m, e)
    ensures t == e
  {
    forall p ensures At(t, p) == At(e, p) {
      if At(e, p).Some? { LeafPathPlain(e, p); }
      if Plain(p) && p != [] {
        SplitJoin(p);
        assert Join(p) in m <==> At(e, Split(Join(p))).Some?;
      }
    }
    SameLeaves(t, e);
  }

  // ---- split_scanned ----

  predicate IsBlock(k: string) {
    k == "EncoderBlock_0" || k == "DecoderBlock_0"
  }

  function FirstBlock(parts: Path): Option<nat> {
    if parts == [] then None
    else if IsBlock(parts[0]) then Some(0)
    else var i := FirstBlock(parts[1..]); if i.None? then None else Some(i.value + 1)
  }

  lemma {:induction false} FirstBlockIn(parts: Path)
    ensures FirstBlock(parts).Some? ==> FirstBlock(parts).value < |parts|
  {
    if parts != [] && !IsBlock(parts[0]) { FirstBlockIn(parts[1..]); }
  }

  /** The parts with the first block's name replaced by a layer number. */
  function Layered(parts: Path, layer: nat): Path
    requires FirstBlock(parts).Some?
    decreases |parts|
  {
    if IsBlock(parts[0]) then [Numeral(layer)] + parts[1..] else [parts[0]] + Layered(parts[1..], layer)
  }

  lemma {:induction false} LayeredIs(parts: Path, layer: nat)
    requires FirstBlock(parts).Some?
    ensures var i := FirstBlock(parts).value;
      i < |parts| && Layered(parts, layer) == parts[..i] + [Numeral(layer)] + parts[i + 1..]
  {
    if !IsBlock(parts[0]) {
      LayeredIs(parts[1..], layer);
      var i := FirstBlock(parts).value;
      assert parts[1..][..i - 1] == parts[1..i] && parts[1..][i..] == parts[i + 1..];
      assert parts[..i] == [parts[0]] + parts[1..i];
    }
  }

  /** A leaf at p with array a gives the leaf p', a'. */
  ghost predicate Gives(p: Path, a: Arr, p': Path, a': Arr) {
    if FirstBlock(p).None? then p' == p && a' == a
    else a.Stack? && exists l :: 0 <= l < |a.rows| && p' == Layered(p, l) && a' == a.rows[l]
  }

  /** Some key of `flat` gives this one. */
  ghost predicate Emitted(flat: map<string, Arr>, key': string, a': Arr) {
    exists key, p' :: key in flat && Gives(Split(key), flat[key], p', a') && key' == Join(p')
  }

  ghost predicate AllEmitted(flat: map<string, Arr>, out: map<string, Arr>) {
    forall key' :: key' in out ==> Emitted(flat, key', out[key'])
  }

  /** The keys of `flat` outside `todo` have been split. */
  ghost predicate SplitSoFar(flat: map<string, Arr>, todo: set<string>, out: map<string, Arr>) {
    && AllEmitted(flat, out)
    && forall key, p', a' :: key in flat && key !in todo && Gives(Split(key), flat[key], p', a') ==> Join(p') in out
  }

  /** None when an array under a block has no leading axis. */
  method SplitScanned(flat: map<string, Arr>) returns (r: Option<map<string, Arr>>)
    ensures r.Some? <==> forall key :: key in flat && FirstBlock(Split(key)).Some? ==> flat[key].Stack?
    ensures r.Some? ==> SplitSoFar(flat, {}, r.value)
  {
    var out: map<string, Arr> := map[];
    var todo := flat.Keys;
    while todo != {}
      invariant todo <= flat.Keys && SplitSoFar(flat, todo, out)
      invariant forall key :: key in flat && key !in todo && FirstBlock(Split(key)).Some? ==> flat[key].Stack?
      decreases todo
    {
      var key :| key in todo;
      var parts, arr := Split(key), flat[key];
      var block := FirstBlock(parts);
      if block.None? {
        JoinSplit(key);
        assert Gives(parts, arr, parts, arr);
        out := out[key := arr];
      } else {
        if arr.Scalar? { return None; }
        out := SplitLayers(flat, key, out);
      }
      todo := todo - {key};
    }
    r := Some(out);
  }

  function LayerKey(parts: Path, i: nat, layer: nat): string
    requires i < |parts|
  {
    Join(parts[..i] + [Numeral(layer)] + parts[i + 1..])
  }

  ghost predicate IsLayer(parts: Path, i: nat, arr: Arr, key': string, a': Arr)
    requires i < |parts| && arr.Stack?
  {
    exists l :: 0 <= l < |arr.rows| && key' == LayerKey(parts, i, l) && a' == arr.rows[l]
  }

  /** A stacked array's layers, each under its number. */
  method PutLayers(parts: Path, i: nat, arr: Arr, out0: map<string, Arr>) returns (out: map<string, Arr>)
    requires i < |parts| && arr.Stack?
    ensures out0.Keys <= out.Keys && forall l :: 0 <= l < |arr.rows| ==> LayerKey(parts, i, l) in out
    ensures forall key' :: key' in out ==> Given(out0, key', out[key']) || IsLayer(parts, i, arr, key', out[key'])
  {
    out := out0;
    for layer := 0 to |arr.rows|
      invariant out0.Keys <= out.Keys && forall l :: 0 <= l < layer ==> LayerKey(parts, i, l) in out
      invariant forall key' :: key' in out ==> Given(out0, key', out[key']) || IsLayer(parts, i, arr, key', out[key'])
    {
      out := out[LayerKey(parts, i, layer) := arr.rows[layer]];
    }
  }

  method SplitLayers(flat: map<string, Arr>, key: string, out0: map<string, Arr>) returns (out: map<string, Arr>)
    requires key in flat && FirstBlock(Split(key)).Some? && flat[key].Stack? && AllEmitted(flat, out0)
    ensures out0.Keys <= out.Keys && AllEmitted(flat, out)
    ensures forall p', a' :: Gives(Split(key), flat[key], p', a') ==> Join(p') in out
  {
    var parts := Split(key);
    FirstBlockIn(parts);
    out := PutLayers(parts, FirstBlock(parts).value, flat[key], out0);
    LayersEmitted(flat, key, out0, out);
  }

  lemma {:induction false} LayersEmitted(flat: map<string, Arr>, key: string, out0: map<string, Arr>, out: map<string, Arr>)
    requires key in flat && FirstBlock(Split(key)).Some? && FirstBlock(Split(key)).value < |Split(key)| && flat[key].Stack?
    requires AllEmitted(flat, out0)
    requires var parts, i := Split(key), FirstBlock(Split(key)).value;
      && (forall l :: 0 <= l < |flat[key].rows| ==> LayerKey(parts, i, l) in out)
      && forall key' :: key' in out ==> Given(out0, key', out[key']) || IsLayer(parts, i, flat[key], key', out[key'])
    ensures AllEmitted(flat, out)
    ensures forall p', a' :: Gives(Split(key), flat[key], p', a') ==> Join(p') in out
  {
    var parts, i, arr := Split(key), FirstBlock(Split(key)).value, flat[key];
    forall key' | key' in out ensures Emitted(flat, key', out[key']) {
      if IsLayer(parts, i, arr, key', out[key']) {
        var l :| 0 <= l < |arr.rows| && key' == LayerKey(parts, i, l) && out[key'] == arr.rows[l];
        LayeredIs(parts, l);
        assert Gives(parts, arr, Layered(parts, l), arr.rows[l]);
      }
    }
    forall p', a' | Gives(parts, arr, p', a') ensures Join(p') in out {
      var l :| 0 <= l < |arr.rows| && p' == Layered(parts, l) && a' == arr.rows[l];
      LayeredIs(parts, l);
      assert LayerKey(parts, i, l) in out;
    }
  }

  // ---- What splitting makes of a tree ----

  function BlockOf(kids: map<string, Tree>): Option<string> {
    if "EncoderBlock_0" in kids then Some("EncoderBlock_0")
    else if "DecoderBlock_0" in kids then Some("DecoderBlock_0")
    else None
  }

  /** Every leaf is a stack of n. */
  ghost predicate Stacked(t: Tree, n: nat) {
    match t
    case Leaf(a) => a.Stack? && |a.rows| == n
    case Node(kids) => forall k :: k in kids ==> Stacked(kids[k], n)
  }

  /** Layer i of a block, on every leaf. */
  function Slice(t: Tree, n: nat, i: nat): Tree
    requires Stacked(t, n) && i < n
  {
    match t
    case Leaf(a) => Leaf(a.rows[i])
    case Node(kids) => Node(map k | k in kids :: Slice(kids[k], n, i))
  }

  /** The stacked size of a block. */
  ghost function Layers(t: Tree): nat {
    match t
    case Leaf(a) => if a.Stack? then |a.rows| else 0
    case Node(kids) => if kids == map[] then 0 else var k :| k in kids; Layers(kids[k])
  }

  predicate IsNumber(k: string) {
    k != [] && AllDigits(k)
  }

  /** A dict holds at most one scan block; the block is uniformly stacked, and no name beside it is a number. */
  ghost predicate Scannable(t: Tree) {
    t.Node? ==>
      match BlockOf(t.kids)
      case None => forall k :: k in t.kids ==> Scannable(t.kids[k])
      case Some(b) =>
        Layers(t.kids[b]) > 0 && Stacked(t.kids[b], Layers(t.kids[b]))
        && forall k :: k in t.kids && k != b ==> !IsBlock(k) && !IsNumber(k) && Scannable(t.kids[k])
  }

  function LayerMap(block: Tree, n: nat, m: nat): (r: map<string, Tree>)
    requires Stacked(block, n) && m <= n
  {
    if m == 0 then map[] else LayerMap(block, n, m - 1)[Numeral(m - 1) := Slice(block, n, m - 1)]
  }

  /** The tree with each block replaced by its layers, under their numbers. */
  ghost function Expanded(t: Tree): Tree
    requires Scannable(t)
  {
    match t
    case Leaf(_) => t
    case Node(kids) =>
      match BlockOf(kids)
      case None => Node(map k | k in kids :: Expanded(kids[k]))
      case Some(b) =>
        var n := Layers(kids[b]);
        Node((map k | k in kids && k != b :: Expanded(kids[k])) + LayerMap(kids[b], n, n))
  }

  lemma {:induction false} LayerMapAt(block: Tree, n: nat, m: nat, i: nat)
    requires Stacked(block, n) && i < m <= n
    ensures Numeral(i) in LayerMap(block, n, m) && LayerMap(block, n, m)[Numeral(i)] == Slice(block, n, i)
  {
    if i < m - 1 {
      LayerMapAt(block, n, m - 1, i);
      if Numeral(i) == Numeral(m - 1) { NumeralInjective(i, m - 1); }
    }
  }

  lemma {:induction false} LayerMapKey(block: Tree, n: nat, m: nat, s: string) returns (i: nat)
    requires Stacked(block, n) && m <= n && s in LayerMap(block, n, m)
    ensures i < m && s == Numeral(i)
  {
    if s == Numeral(m - 1) { i := m - 1; } else { i := LayerMapKey(block, n, m - 1, s); }
  }

  lemma {:induction false} SliceAt(t: Tree, n: nat, i: nat, p: Path)
    requires Stacked(t, n) && i < n
    ensures At(Slice(t, n, i), p).Some? <==> At(t, p).Some?
    ensures At(t, p).Some? ==> At(t, p).value.Stack? && |At(t, p).value.rows| == n
                               && At(Slice(t, n, i), p) == Some(At(t, p).value.rows[i])
  {
    if t.Node? && p != [] && p[0] in t.kids { SliceAt(t.kids[p[0]], n, i, p[1..]); }
  }

  /** How a dict with a block and its expansion lie: at a layer's number its slice, elsewhere the other kids. */
  lemma {:induction false} ExpandedKids(t: Tree, b: string, s: string)
    requires t.Node? && Scannable(t) && BlockOf(t.kids) == Some(b)
    ensures var n, e := Layers(t.kids[b]), Expanded(t);
      && (s in LayerMap(t.kids[b], n, n) ==> s in e.kids && e.kids[s] == LayerMap(t.kids[b], n, n)[s])
      && (s in t.kids && s != b ==> s !in LayerMap(t.kids[b], n, n) && s in e.kids && e.kids[s] == Expanded(t.kids[s]))
      && (s in e.kids ==> s in LayerMap(t.kids[b], n, n) || (s in t.kids && s != b))
  {
    var n := Layers(t.kids[b]);
    if s in LayerMap(t.kids[b], n, n) {
      var i := LayerMapKey(t.kids[b], n, n, s);
      assert IsNumber(s);
    }
  }

  /** What a leaf gives is a leaf of the expansion. */
  lemma {:induction false} GivenIsExpanded(t: Tree, p: Path, p': Path, a': Arr)
    requires Scannable(t) && At(t, p).Some? && Gives(p, At(t, p).value, p', a')
    ensures At(Expanded(t), p') == Some(a')
    decreases t
  {
    if t.Node? {
      var k, rest, a := p[0], p[1..], At(t, p).value;
      var block := BlockOf(t.kids);
      if IsBlock(k) {
        var n := Layers(t.kids[k]);
        assert block == Some(k);
        var l :| 0 <= l < |a.rows| && p' == Layered(p, l) && a' == a.rows[l];
        SliceAt(t.kids[k], n, 0, rest);
        SliceAt(t.kids[k], n, l, rest);
        LayerMapAt(t.kids[k], n, n, l);
        ExpandedKids(t, k, Numeral(l));
        AtKid(Expanded(t), Numeral(l), rest);
      } else {
        GivesDeeper(p, a, p', a');
        GivenIsExpanded(t.kids[k], rest, p'[1..], a');
        if block.Some? { ExpandedKids(t, block.value, k); }
        AtKid(Expanded(t), k, p'[1..]);
      }
    }
  }

  lemma {:induction false} GivesDeeper(p: Path, a: Arr, p': Path, a': Arr)
    requires p != [] && !IsBlock(p[0]) && Gives(p, a, p', a')
    ensures p' != [] && p'[0] == p[0] && p' == [p[0]] + p'[1..] && Gives(p[1..], a, p'[1..], a')
  {
    if FirstBlock(p).Some? {
      var l :| 0 <= l < |a.rows| && p' == Layered(p, l) && a' == a.rows[l];
      assert p'[1..] == Layered(p[1..], l);
    }
  }

  lemma {:induction false} GivesUnder(k: string, p: Path, a: Arr, p': Path, a': Arr)
    requires !IsBlock(k) && Gives(p, a, p', a')
    ensures Gives([k] + p, a, [k] + p', a')
  {
    assert ([k] + p)[1..] == p;
    if FirstBlock(p).Some? {
      var l :| 0 <= l < |a.rows| && p' == Layered(p, l) && a' == a.rows[l];
      assert [k] + p' == Layered([k] + p, l);
    }
  }

  /** Every leaf of the expansion is given by a leaf. */
  lemma {:induction false} ExpandedIsGiven(t: Tree, p': Path) returns (p: Path)
    requires Scannable(t) && At(Expanded(t), p').Some?
    ensures At(t, p).Some? && Gives(p, At(t, p).value, p', At(Expanded(t), p').value)
    decreases t
  {
    if t.Leaf? {
      p := p';
    } else {
      var s, rest := p'[0], p'[1..];
      assert p' == [s] + rest;
      var block := BlockOf(t.kids);
      if block.Some? { ExpandedKids(t, block.value, s); }
      if block.Some? && s in LayerMap(t.kids[block.value], Layers(t.kids[block.value]), Layers(t.kids[block.value])) {
        p := LayerIsGiven(t, block.value, s, rest);
      } else {
        var q := ExpandedIsGiven(t.kids[s], rest);
        p := [s] + q;
        AtKid(t, s, q);
        GivesUnder(s, q, At(t, p).value, rest, At(Expanded(t), p').value);
      }
    }
  }

  lemma {:induction false} LayerIsGiven(t: Tree, b: string, s: string, rest: Path) returns (p: Path)
    requires t.Node? && Scannable(t) && BlockOf(t.kids) == Some(b) && At(Expanded(t), [s] + rest).Some?
    requires s in LayerMap(t.kids[b], Layers(t.kids[b]), Layers(t.kids[b]))
    ensures At(t, p).Some? && Gives(p, At(t, p).value, [s] + rest, At(Expanded(t), [s] + rest).value)
  {
    var n := Layers(t.kids[b]);
    var i := LayerMapKey(t.kids[b], n, n, s);
    ExpandedKids(t, b, s);
    LayerMapAt(t.kids[b], n, n, i);
    AtKid(Expanded(t), s, rest);
    SliceAt(t.kids[b], n, i, rest);
    p := [b] + rest;
    AtKid(t, b, rest);
    assert Layered(p, i) == [s] + rest by { assert p[1..] == rest; }
  }

  lemma {:induction false} GivenPlain(p: Path, a: Arr, p': Path, a': Arr)
    requires Plain(p) && Gives(p, a, p', a')
    ensures Plain(p') && |p'| == |p|
  {
    if FirstBlock(p).Some? {
      var l :| 0 <= l < |a.rows| && p' == Layered(p, l) && a' == a.rows[l];
      LayeredIs(p, l);
      assert forall c :: c in Numeral(l) ==> IsDigit(c);
    }
  }

  /** Splitting the flat dict of a tree gives the flat dict of its expansion. */
  lemma {:induction false} SplitIsExpanded(t: Tree, flat: map<string, Arr>, out: map<string, Arr>)
    requires t.Node? && SlashFree(t) && Scannable(t) && IsFlat(flat, t) && SplitSoFar(flat, {}, out)
    ensures IsFlat(out, Expanded(t))
  {
    forall key' | key' in out ensures At(Expanded(t), Split(key')) == Some(out[key']) {
      var key, p' :| key in flat && Gives(Split(key), flat[key], p', out[key']) && key' == Join(p');
      LeafPathPlain(t, Split(key));
      GivenPlain(Split(key), flat[key], p', out[key']);
      GivenIsExpanded(t, Split(key), p', out[key']);
      SplitJoin(p');
    }
    forall key' | At(Expanded(t), Split(key')).Some? ensures key' in out {
      var p := ExpandedIsGiven(t, Split(key'));
      LeafPathPlain(t, p);
      SplitJoin(p);
      JoinSplit(key');
      assert Join(p) in flat;
    }
  }

  lemma {:induction false} SliceFull(t: Tree, n: nat, i: nat)
    requires Stacked(t, n) && i < n && Full(t)
    ensures Full(Slice(t, n, i))
    ensures SlashFree(t) ==> SlashFree(Slice(t, n, i))
  {
    if t.Node? {
      forall k | k in t.kids
        ensures Full(Slice(t.kids[k], n, i)) && (SlashFree(t) ==> SlashFree(Slice(t.kids[k], n, i)))
      {
        SliceFull(t.kids[k], n, i);
      }
      var k :| k in t.kids;
      assert k in Slice(t, n, i).kids;
    }
  }

  lemma {:induction false} ExpandedFull(t: Tree)
    requires Scannable(t) && SlashFree(t) && (Full(t) || FullBelow(t))
    ensures FullBelow(t) ==> FullBelow(Expanded(t))
    ensures Full(t) ==> Full(Expanded(t))
    ensures SlashFree(Expanded(t))
    decreases t
  {
    if t.Node? {
      var e, block := Expanded(t), BlockOf(t.kids);
      forall s | s in e.kids ensures Full(e.kids[s]) && SlashFree(e.kids[s]) && '/' !in s {
        if block.Some? { ExpandedKids(t, block.value, s); }
        if block.Some? && s in LayerMap(t.kids[block.value], Layers(t.kids[block.value]), Layers(t.kids[block.value])) {
          var n := Layers(t.kids[block.value]);
          var i := LayerMapKey(t.kids[block.value], n, n, s);
          LayerMapAt(t.kids[block.value], n, n, i);
          SliceFull(t.kids[block.value], n, i);
          assert forall c :: c in Numeral(i) ==> IsDigit(c);
        } else {
          ExpandedFull(t.kids[s]);
        }
      }
      if t.kids != map[] { ExpandedNonempty(t); }
    }
  }

  lemma {:induction false} ExpandedNonempty(t: Tree)
    requires t.Node? && Scannable(t) && t.kids != map[]
    ensures Expanded(t).kids != map[]
  {
    var block := BlockOf(t.kids);
    if block.Some? {
      var n := Layers(t.kids[block.value]);
      LayerMapAt(t.kids[block.value], n, n, 0);
      ExpandedKids(t, block.value, Numeral(0));
    } else {
      var k :| k in t.kids;
      assert k in Expanded(t).kids;
    }
  }

  // ---- listify ----

  /** A dict of numbers becomes the list of its entries 0, 1, ...; None where one of those is missing. */
  function Listify(t: Tree): Option<Value>
    decreases t, 1, 0
  {
    match t
    case Leaf(a) => Some(VLeaf(a))
    case Node(kids) =>
      if kids != map[] && (forall k :: k in kids ==> IsNumber(k)) then
        var items := ListItems(t, |kids|);
        if items.Some? then Some(VList(items.value)) else None
      else if forall k :: k in kids ==> Listify(kids[k]).Some? then
        Some(VDict(map k | k in kids :: Listify(kids[k]).value))
      else None
  }

  /** [listify(node[str(i)]) for i in range(n)] */
  function ListItems(t: Tree, n: nat): Option<seq<Value>>
    requires t.Node?
    decreases t, 0, n
  {
    if n == 0 then Some([])
    else
      var items := ListItems(t, n - 1);
      if items.None? || Numeral(n - 1) !in t.kids then None
      else
        var item := Listify(t.kids[Numeral(n - 1)]);
        if item.None? then None else Some(items.value + [item.value])
  }

  /** Dicts as they are, no lists. */
  function AsValue(t: Tree): Value {
    match t
    case Leaf(a) => VLeaf(a)
    case Node(kids) => VDict(map k | k in kids :: AsValue(kids[k]))
  }

  /** No dict has numbers for all its keys. */
  ghost predicate Named(t: Tree) {
    t.Node? ==>
      (t.kids != map[] ==> exists k :: k in t.kids && !IsNumber(k)) && forall k :: k in t.kids ==> Named(t.kids[k])
  }

  lemma {:induction false} DictListify(kids: map<string, Tree>, vs: map<string, Value>)
    requires kids == map[] || exists k :: k in kids && !IsNumber(k)
    requires vs.Keys == kids.Keys && forall k :: k in kids ==> Listify(kids[k]) == Some(vs[k])
    ensures Listify(Node(kids)) == Some(VDict(vs))
  {
    var t := Node(kids);
    assert forall k :: k in t.kids ==> Listify(t.kids[k]).Some?;
    var ws := map k | k in t.kids :: Listify(t.kids[k]).value;
    assert forall k :: k in t.kids ==> ws[k] == vs[k];
    assert ws == vs;
    assert Listify(t) == Some(VDict(ws));
  }

  lemma {:induction false} ListListify(kids: map<string, Tree>, items: seq<Value>)
    requires kids != map[] && |kids| == |items| && forall k :: k in kids ==> IsNumber(k)
    requires forall i :: 0 <= i < |items| ==> Numeral(i) in kids && Listify(kids[Numeral(i)]) == Some(items[i])
    ensures Listify(Node(kids)) == Some(VList(items))
  {
    ListItemsAre(kids, items, |items|);
    assert items[..|items|] == items;
    var t := Node(kids);
    assert ListItems(t, |t.kids|) == Some(items);
    assert forall k :: k in t.kids ==> IsNumber(k);
  }

  lemma {:induction false} ListItemsAre(kids: map<string, Tree>, items: seq<Value>, n: nat)
    requires n <= |items|
    requires forall i :: 0 <= i < |items| ==> Numeral(i) in kids && Listify(kids[Numeral(i)]) == Some(items[i])
    ensures ListItems(Node(kids), n) == Some(items[..n])
  {
    if n > 0 {
      ListItemsAre(kids, items, n - 1);
      assert items[..n] == items[..n - 1] + [items[n - 1]];
    }
  }

  lemma {:induction false} NamedListify(t: Tree)
    requires Named(t)
    ensures Listify(t) == Some(AsValue(t))
  {
    if t.Node? {
      forall k | k in t.kids ensures Listify(t.kids[k]) == Some(AsValue(t.kids[k])) {
        NamedListify(t.kids[k]);
      }
      DictListify(t.kids, map k | k in t.kids :: AsValue(t.kids[k]));
    }
  }

  lemma {:induction false} SliceNamed(t: Tree, n: nat, i: nat)
    requires Stacked(t, n) && i < n && Named(t)
    ensures Named(Slice(t, n, i))
  {
    if t.Node? {
      forall k | k in t.kids ensures Named(Slice(t.kids[k], n, i)) {
        SliceNamed(t.kids[k], n, i);
      }
      if t.kids != map[] {
        var k :| k in t.kids && !IsNumber(k);
        assert k in Slice(t, n, i).kids;
      }
    }
  }

  /** Each scan block is all its parent holds, and the names of every other dict are not all numbers. */
  ghost predicate Tidy(t: Tree) {
    t.Node? ==>
      match BlockOf(t.kids)
      case None =>
        (t.kids != map[] ==> exists k :: k in t.kids && !IsNumber(k)) && forall k :: k in t.kids ==> Tidy(t.kids[k])
      case Some(b) => t.kids.Keys == {b} && Named(t.kids[b])
  }

  /** The parent of each scan block becomes the list whose i-th item is the block sliced at i on every leaf. */
  ghost function Converted(t: Tree): Value
    requires Scannable(t)
  {
    match t
    case Leaf(a) => VLeaf(a)
    case Node(kids) =>
      match BlockOf(kids)
      case None => VDict(map k | k in kids :: Converted(kids[k]))
      case Some(b) =>
        var n := Layers(kids[b]);
        VList(seq(n, i requires 0 <= i < n => AsValue(Slice(kids[b], n, i))))
  }

  lemma {:induction false} LayerMapSize(block: Tree, n: nat, m: nat)
    requires Stacked(block, n) && m <= n
    ensures |LayerMap(block, n, m)| == m
  {
    if m > 0 {
      LayerMapSize(block, n, m - 1);
      if Numeral(m - 1) in LayerMap(block, n, m - 1) {
        var i := LayerMapKey(block, n, m - 1, Numeral(m - 1));
        NumeralInjective(i, m - 1);
      }
      var was, now := LayerMap(block, n, m - 1), LayerMap(block, n, m);
      assert now.Keys == was.Keys + {Numeral(m - 1)};
      assert |now| == |now.Keys| && |was| == |was.Keys|;
    }
  }

  /** The numbers under a block are exactly 0 to n - 1, so its parent becomes a list of n. */
  lemma {:induction false} BlockListify(t: Tree, b: string)
    requires t.Node? && Scannable(t) && BlockOf(t.kids) == Some(b) && t.kids.Keys == {b} && Named(t.kids[b])
    ensures Listify(Expanded(t)) == Some(Converted(t))
  {
    var n, e := Layers(t.kids[b]), Expanded(t);
    var layers := LayerMap(t.kids[b], n, n);
    forall s ensures s in e.kids <==> s in layers {
      ExpandedKids(t, b, s);
    }
    assert e.kids == layers;
    LayersListify(t.kids[b], n);
  }

  lemma {:induction false} LayersListify(block: Tree, n: nat)
    requires Stacked(block, n) && n > 0 && Named(block)
    ensures Listify(Node(LayerMap(block, n, n))) ==
      Some(VList(seq(n, i requires 0 <= i < n => AsValue(Slice(block, n, i)))))
  {
    var layers := LayerMap(block, n, n);
    LayerMapSize(block, n, n);
    forall s | s in layers ensures IsNumber(s) {
      var i := LayerMapKey(block, n, n, s);
    }
    forall i | 0 <= i < n
      ensures Numeral(i) in layers && Listify(layers[Numeral(i)]) == Some(AsValue(Slice(block, n, i)))
    {
      LayerMapAt(block, n, n, i);
      SliceNamed(block, n, i);
      NamedListify(Slice(block, n, i));
    }
    ListListify(layers, seq(n, i requires 0 <= i < n => AsValue(Slice(block, n, i))));
  }

  lemma {:induction false} TidyListify(t: Tree)
    requires Scannable(t) && Tidy(t)
    ensures Listify(Expanded(t)) == Some(Converted(t))
  {
    if t.Node? {
      var block := BlockOf(t.kids);
      if block.Some? {
        BlockListify(t, block.value);
      } else {
        forall k | k in t.kids ensures Listify(Expanded(t.kids[k])) == Some(Converted(t.kids[k])) {
          TidyListify(t.kids[k]);
        }
        var kids := map k | k in t.kids :: Expanded(t.kids[k]);
        if t.kids != map[] {
          var k :| k in t.kids && !IsNumber(k);
          assert k in kids;
        }
        DictListify(kids, map k | k in t.kids :: Converted(t.kids[k]));
      }
    }
  }

  /** What Listify makes of a dict is a list just when it has keys and all are numbers. */
  lemma {:induction false} ListShape(kids: map<string, Tree>)
    requires Listify(Node(kids)).Some?
    ensures Listify(Node(kids)).value.VList? <==> kids != map[] && forall k :: k in kids ==> IsNumber(k)
  {
  }

  lemma {:induction false} NumbersOnly(t: Tree, b: string)
    requires t.Node? && Scannable(t) && BlockOf(t.kids) == Some(b)
    ensures Expanded(t).kids != map[]
    ensures (forall s :: s in Expanded(t).kids ==> IsNumber(s)) <==> t.kids.Keys == {b}
  {
    var n, e := Layers(t.kids[b]), Expanded(t);
    LayerMapAt(t.kids[b], n, n, 0);
    ExpandedKids(t, b, Numeral(0));
    if t.kids.Keys == {b} {
      forall s | s in e.kids ensures IsNumber(s) {
        ExpandedKids(t, b, s);
        var i := LayerMapKey(t.kids[b], n, n, s);
      }
    } else if k :| k in t.kids && k != b {
      ExpandedKids(t, b, k);
    }
  }

  /** A block with anything beside it is not turned into a list: its layers stay under their numbers. */
  lemma {:induction false} ListExactly(t: Tree, b: string)
    requires t.Node? && Scannable(t) && BlockOf(t.kids) == Some(b) && Listify(Expanded(t)).Some?
    ensures Listify(Expanded(t)).value.VList? <==> t.kids.Keys == {b}
  {
    var kids := Expanded(t).kids;
    NumbersOnly(t, b);
    assert Expanded(t) == Node(kids);
    ListShape(kids);
  }

  // ---- Exactly when the lists are those of the blocks ----

  lemma {:induction false} ListItemAt(t: Tree, n: nat, i: nat)
    requires t.Node? && i < n && ListItems(t, n).Some?
    ensures |ListItems(t, n).value| == n && Numeral(i) in t.kids
    ensures Listify(t.kids[Numeral(i)]) == Some(ListItems(t, n).value[i])
  {
    ListItemsLength(t, n);
    ListItemsLength(t, n - 1);
    if i < n - 1 { ListItemAt(t, n - 1, i); }
  }

  lemma {:induction false} ListItemsLength(t: Tree, n: nat)
    requires t.Node? && ListItems(t, n).Some?
    ensures |ListItems(t, n).value| == n
  {
    if n > 0 { ListItemsLength(t, n - 1); }
  }

  /** What Listify makes of a dict that stays one. */
  lemma {:induction false} DictShape(kids: map<string, Tree>, vs: map<string, Value>)
    requires Listify(Node(kids)) == Some(VDict(vs))
    ensures (kids == map[] || exists k :: k in kids && !IsNumber(k)) && vs.Keys == kids.Keys
    ensures forall k :: k in kids ==> Listify(kids[k]) == Some(vs[k])
  {
    ListShape(kids);
    var t := Node(kids);
    assert !(t.kids != map[] && forall k :: k in t.kids ==> IsNumber(k));
    assert forall k :: k in t.kids ==> Listify(t.kids[k]).Some?;
    var ws := map k | k in t.kids :: Listify(t.kids[k]).value;
    assert Listify(t) == Some(VDict(ws));
  }

  lemma {:induction false} ListifyNamed(t: Tree)
    requires Listify(t) == Some(AsValue(t))
    ensures Named(t)
  {
    if t.Node? {
      var vs := map k | k in t.kids :: AsValue(t.kids[k]);
      assert AsValue(t) == VDict(vs) && t == Node(t.kids);
      DictShape(t.kids, vs);
      forall k | k in t.kids ensures Named(t.kids[k]) {
        ListifyNamed(t.kids[k]);
      }
    }
  }

  lemma {:induction false} SliceWasNamed(t: Tree, n: nat, i: nat)
    requires Stacked(t, n) && i < n && Named(Slice(t, n, i))
    ensures Named(t)
  {
    if t.Node? {
      var u := Slice(t, n, i);
      assert u.kids.Keys == t.kids.Keys;
      forall k | k in t.kids ensures Named(t.kids[k]) {
        assert u.kids[k] == Slice(t.kids[k], n, i);
        SliceWasNamed(t.kids[k], n, i);
      }
      if t.kids != map[] {
        var k :| k in t.kids;
        assert k in u.kids;
      }
    }
  }

  lemma {:induction false} BlockWasTidy(t: Tree, b: string)
    requires t.Node? && Scannable(t) && BlockOf(t.kids) == Some(b) && Listify(Expanded(t)) == Some(Converted(t))
    ensures t.kids.Keys == {b} && Named(t.kids[b])
  {
    var n, e := Layers(t.kids[b]), Expanded(t);
    ListExactly(t, b);
    ListShape(e.kids);
    assert e == Node(e.kids);
    assert ListItems(e, |e.kids|).value == Converted(t).items;
    ListItemsLength(e, |e.kids|);
    ListItemAt(e, |e.kids|, 0);
    LayerMapAt(t.kids[b], n, n, 0);
    ExpandedKids(t, b, Numeral(0));
    ListifyNamed(Slice(t.kids[b], n, 0));
    SliceWasNamed(t.kids[b], n, 0);
  }

  /** A tree is rebuilt with its blocks as lists, and nothing else changed, exactly if it is tidy. */
  lemma {:induction false} ListifyExactly(t: Tree)
    requires Scannable(t)
    ensures Listify(Expanded(t)) == Some(Converted(t)) <==> Tidy(t)
    decreases t, 1
  {
    if Tidy(t) {
      TidyListify(t);
    } else {
      var block := BlockOf(t.kids);
      if Listify(Expanded(t)) == Some(Converted(t)) {
        if block.Some? { BlockWasTidy(t, block.value); } else { DictWasTidy(t); }
      }
    }
  }

  lemma {:induction false} DictWasTidy(t: Tree)
    requires t.Node? && Scannable(t) && BlockOf(t.kids).None? && Listify(Expanded(t)) == Some(Converted(t))
    ensures Tidy(t)
    decreases t, 0
  {
    var kids, vs := map k | k in t.kids :: Expanded(t.kids[k]), map k | k in t.kids :: Converted(t.kids[k]);
    assert Expanded(t) == Node(kids) && Converted(t) == VDict(vs);
    DictShape(kids, vs);
    forall k | k in t.kids ensures Tidy(t.kids[k]) {
      assert Listify(kids[k]) == Some(vs[k]);
      ListifyExactly(t.kids[k]);
    }
    if t.kids != map[] {
      var k :| k in t.kids;
      assert k in kids;
      var m :| m in kids && !IsNumber(m);
      assert m in t.kids;
    }
  }

  /** A tree without any block that is not rebuilt: a dict whose only name is a number other than 0. */
  lemma {:induction false} NumberedDict(a: Arr)
    ensures var t := Node(map["a" := Node(map["5" := Leaf(a)])]);
      FullBelow(t) && SlashFree(t) && Scannable(t) && Listify(Expanded(t)).None?
  {
    var inner := Node(map["5" := Leaf(a)]);
    var t := Node(map["a" := inner]);
    LoneFive(a);
    assert BlockOf(inner.kids).None? && BlockOf(t.kids).None?;
    assert Expanded(inner).kids == map["5" := Leaf(a)];
    assert "a" in Expanded(t).kids && Expanded(t).kids["a"] == inner;
    assert !IsNumber("a") by { assert "a"[0] == 'a'; }
  }

  lemma {:induction false} LoneFive(a: Arr)
    ensures Listify(Node(map["5" := Leaf(a)])).None?
  {
    var inner := Node(map["5" := Leaf(a)]);
    assert Numeral(0) == ['0'] && Numeral(0)[0] != "5"[0];
    assert IsNumber("5") && |inner.kids| == 1;
    assert ListItems(inner, 0).Some? && ListItems(inner, 1).None?;
  }

  /** Beside a block, another block and a number give keys the block gives too, so one array replaces another. */
  lemma {:induction false} KeysCollide(b: string, b': string, q: Path, a: Arr, a': Arr, i: nat)
    requires IsBlock(b) && IsBlock(b') && b != b' && a.Stack? && a'.Stack? && i < |a.rows| && i < |a'.rows|
    ensures Gives([b] + q, a, [Numeral(i)] + q, a.rows[i]) && Gives([b'] + q, a', [Numeral(i)] + q, a'.rows[i])
    ensures FirstBlock(q).None? ==> Gives([Numeral(i)] + q, a', [Numeral(i)] + q, a')
  {
    assert ([b] + q)[1..] == q && ([b'] + q)[1..] == q && ([Numeral(i)] + q)[1..] == q;
    assert Layered([b] + q, i) == [Numeral(i)] + q && Layered([b'] + q, i) == [Numeral(i)] + q;
    assert IsDigit(Numeral(i)[0]);
  }

  /** Flattened, split, rebuilt: the tree with its scan blocks as lists of layers, exactly if it is tidy. */
  method ConvertAndLoad(t: Tree) returns (r: Option<Value>)
    ensures FullBelow(t) && SlashFree(t) && Scannable(t) ==> (r == Some(Converted(t)) <==> Tidy(t))
  {
    var flat := FlattenTree(t);
    var split := SplitScanned(flat);
    if FullBelow(t) && SlashFree(t) && Scannable(t) {
      StacksOnly(t, flat);
    }
    if split.None? { return None; }
    if FullBelow(t) && SlashFree(t) && Scannable(t) {
      SplitIsExpanded(t, flat, split.value);
      ExpandedFull(t);
      ListifyExactly(t);
    }
    var tree := Unflatten(split.value);
    if tree.None? { return None; }
    r := Listify(tree.value);
  }

  lemma {:induction false} StacksOnly(t: Tree, flat: map<string, Arr>)
    requires Scannable(t) && IsFlat(flat, t)
    ensures forall key :: key in flat && FirstBlock(Split(key)).Some? ==> flat[key].Stack?
  {
    forall key | key in flat && FirstBlock(Split(key)).Some? ensures flat[key].Stack? {
      BlockLeafStacked(t, Split(key));
    }
  }

  lemma {:induction false} BlockLeafStacked(t: Tree, p: Path)
    requires Scannable(t) && At(t, p).Some? && FirstBlock(p).Some?
    ensures At(t, p).value.Stack?
    decreases t
  {
    if t.Node? {
      if IsBlock(p[0]) {
        SliceAt(t.kids[p[0]], Layers(t.kids[p[0]]), 0, p[1..]);
      } else {
        BlockLeafStacked(t.kids[p[0]], p[1..]);
      }
    }
  }
}
