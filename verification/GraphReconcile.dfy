/** The graph view (resources/public/js/seon-graph.js): a model is validated, then the displayed graph is
    changed in place until it shows the model. */
module GraphReconcile {
  import opened Options

  type Id = string

  datatype NodeData = NodeData(id: Id, title: string, href: string)
  datatype EdgeData = EdgeData(id: Id, source: Id, target: Id, attribute: string, reverse: bool, title: Option<string>)
  datatype Model = Model(nodes: seq<NodeData>, edges: seq<EdgeData>, selected: Id)

  // ---- Reading a model ----

  /** Parsed JSON; None is anything but a string. An entry that is null cannot be destructured. */
  datatype RawNode = NullNode | RawNode(id: Option<string>, title: Option<string>, href: Option<string>)
  datatype RawEdge =
    | NullEdge
    | RawEdge(id: Option<string>, source: Option<string>, target: Option<string>, attribute: Option<string>,
              reverse: bool, title: Option<string>)
  datatype Raw = Raw(nodes: Option<seq<RawNode>>, edges: Option<seq<RawEdge>>, selected: Option<string>, snapshot: bool)

  datatype ModelError =
    | NotArrays
    | NullEntry
    | NotAString(member: string)
    | NoSnapshot
    | DuplicateId(id: Id)
    | SelectedUnknown
    | EndpointUnknown(id: Id)

  predicate Required(v: Option<string>) {
    v.Some? && v.value != ""
  }

  predicate GoodNode(n: RawNode) {
    n.RawNode? && Required(n.id) && Required(n.title) && Required(n.href)
  }

  predicate GoodEdge(e: RawEdge) {
    e.RawEdge? && Required(e.id) && Required(e.source) && Required(e.target) && Required(e.attribute)
  }

  function NodeOf(n: RawNode): NodeData
    requires GoodNode(n)
  {
    NodeData(n.id.value, n.title.value, n.href.value)
  }

  function EdgeOf(e: RawEdge): EdgeData
    requires GoodEdge(e)
  {
    EdgeData(e.id.value, e.source.value, e.target.value, e.attribute.value, e.reverse, e.title)
  }

  function NodeIds(ns: seq<NodeData>): set<Id> {
    set n | n in ns :: n.id
  }

  function EdgeIds(es: seq<EdgeData>): set<Id> {
    set e | e in es :: e.id
  }

  ghost predicate Apart(m: Model) {
    && (forall i, j :: 0 <= i < j < |m.nodes| ==> m.nodes[i].id != m.nodes[j].id)
    && (forall i, j :: 0 <= i < j < |m.edges| ==> m.edges[i].id != m.edges[j].id)
    && NodeIds(m.nodes) !! EdgeIds(m.edges)
  }

  /** Ids name one element each, edges join returned nodes, and the selected node is returned. */
  ghost predicate ValidModel(m: Model) {
    && Apart(m)
    && (forall e :: e in m.edges ==> e.source in NodeIds(m.nodes) && e.target in NodeIds(m.nodes))
    && m.selected in NodeIds(m.nodes)
  }

  /** m is what raw says, field by field. */
  ghost predicate Says(raw: Raw, m: Model) {
    && raw.nodes.Some? && raw.edges.Some? && Required(raw.selected) && raw.snapshot
    && (forall i :: 0 <= i < |raw.nodes.value| ==> GoodNode(raw.nodes.value[i]))
    && (forall i :: 0 <= i < |raw.edges.value| ==> GoodEdge(raw.edges.value[i]))
    && m == Model(seq(|raw.nodes.value|, i requires 0 <= i < |raw.nodes.value| => NodeOf(raw.nodes.value[i])),
                  seq(|raw.edges.value|, i requires 0 <= i < |raw.edges.value| => EdgeOf(raw.edges.value[i])),
                  raw.selected.value)
  }

  method ReadNode(n: RawNode) returns (r: Result<NodeData, ModelError>)
    ensures r.Ok? <==> GoodNode(n)
    ensures r.Ok? ==> r.value == NodeOf(n)
    ensures r.Err? ==> r.error == NullEntry || r.error.NotAString?
  {
    if n.NullNode? { return Err(NullEntry); }
    if !Required(n.id) { return Err(NotAString("node data.id")); }
    if !Required(n.title) { return Err(NotAString("node data.label")); }
    if !Required(n.href) { return Err(NotAString("node data.href")); }
    r := Ok(NodeOf(n));
  }

  method ReadEdge(e: RawEdge) returns (r: Result<EdgeData, ModelError>)
    ensures r.Ok? <==> GoodEdge(e)
    ensures r.Ok? ==> r.value == EdgeOf(e)
    ensures r.Err? ==> r.error == NullEntry || r.error.NotAString?
  {
    if e.NullEdge? { return Err(NullEntry); }
    if !Required(e.id) { return Err(NotAString("edge data.id")); }
    if !Required(e.source) { return Err(NotAString("edge data.source")); }
    if !Required(e.target) { return Err(NotAString("edge data.target")); }
    if !Required(e.attribute) { return Err(NotAString("edge data.attribute")); }
    r := Ok(EdgeOf(e));
  }

  /** The model is accepted exactly when it is well formed and valid, and then read as it stands. */
  method ReadModel(raw: Raw) returns (r: Result<Model, ModelError>)
    ensures r.Ok? <==> exists m :: Says(raw, m) && ValidModel(m)
    ensures r.Ok? ==> Says(raw, r.value) && ValidModel(r.value)
    ensures r.Ok? ==> |r.value.nodes| == |raw.nodes.value| && |r.value.edges| == |raw.edges.value|
    ensures r.Ok? ==> Some(r.value.selected) == raw.selected
    ensures r.Ok? ==> forall i :: 0 <= i < |r.value.nodes| ==>
      var n, was := r.value.nodes[i], raw.nodes.value[i];
      was.RawNode? && was.id == Some(n.id) && was.title == Some(n.title) && was.href == Some(n.href)
    ensures r.Ok? ==> forall i :: 0 <= i < |r.value.edges| ==>
      var e, was := r.value.edges[i], raw.edges.value[i];
      was.RawEdge? && was.id == Some(e.id) && was.source == Some(e.source) && was.target == Some(e.target)
      && was.attribute == Some(e.attribute) && e.reverse == was.reverse && e.title == was.title
    ensures r == Err(NotArrays) <==> raw.nodes.None? || raw.edges.None?
    ensures r.Err? && r.error.DuplicateId? ==> exists m :: Says(raw, m) && Clash(m, r.error.id)
    ensures r.Err? && r.error.EndpointUnknown? ==> exists m :: Says(raw, m) && Dangling(m, r.error.id)
  {
    if raw.nodes.None? || raw.edges.None? { return Err(NotArrays); }
    var nodes := [];
    for i := 0 to |raw.nodes.value|
      invariant forall j :: 0 <= j < i ==> GoodNode(raw.nodes.value[j])
      invariant nodes == seq(i, j requires 0 <= j < i => NodeOf(raw.nodes.value[j]))
    {
      var n := ReadNode(raw.nodes.value[i]);
      if n.Err? { return Err(n.error); }
      nodes := nodes + [n.value];
    }
    var edges := [];
    for i := 0 to |raw.edges.value|
      invariant forall j :: 0 <= j < i ==> GoodEdge(raw.edges.value[j])
      invariant edges == seq(i, j requires 0 <= j < i => EdgeOf(raw.edges.value[j]))
    {
      var e := ReadEdge(raw.edges.value[i]);
      if e.Err? { return Err(e.error); }
      edges := edges + [e.value];
    }
    if !Required(raw.selected) { return Err(NotAString("seon.graph/selected")); }
    if !raw.snapshot { return Err(NoSnapshot); }
    var m := Model(nodes, edges, raw.selected.value);
    assert Says(raw, m);
    r := Check(m);
  }

  /** Two elements share this id. */
  ghost predicate Clash(m: Model, id: Id) {
    || (exists i, j :: 0 <= i < j < |m.nodes| && m.nodes[i].id == id == m.nodes[j].id)
    || (exists i, j :: 0 <= i < j < |m.edges| && m.edges[i].id == id == m.edges[j].id)
    || (id in NodeIds(m.nodes) && id in EdgeIds(m.edges))
  }

  ghost predicate Dangling(m: Model, id: Id) {
    exists e :: e in m.edges && e.id == id && (e.source !in NodeIds(m.nodes) || e.target !in NodeIds(m.nodes))
  }

  /** The ids of nodes and edges in turn, up to the first that comes twice. */
  method CollectIds(m: Model) returns (nodeIds: set<Id>, clash: Option<Id>)
    ensures clash.None? ==> Apart(m) && nodeIds == NodeIds(m.nodes)
    ensures clash.Some? ==> Clash(m, clash.value)
  {
    var ids: set<Id> := {};
    clash := None;
    for i := 0 to |m.nodes|
      invariant ids == NodeIds(m.nodes[..i])
      invariant forall j, k :: 0 <= j < k < i ==> m.nodes[j].id != m.nodes[k].id
    {
      var n := m.nodes[i];
      if n.id in ids {
        var j :| 0 <= j < i && m.nodes[j].id == n.id;
        return ids, Some(n.id);
      }
      assert m.nodes[..i + 1] == m.nodes[..i] + [n];
      ids := ids + {n.id};
    }
    assert m.nodes[..|m.nodes|] == m.nodes;
    nodeIds := ids;
    clash := CollectEdgeIds(m, ids);
  }

  method CollectEdgeIds(m: Model, nodeIds: set<Id>) returns (clash: Option<Id>)
    requires nodeIds == NodeIds(m.nodes)
    ensures clash.None? ==> nodeIds !! EdgeIds(m.edges)
    ensures clash.None? ==> forall j, k :: 0 <= j < k < |m.edges| ==> m.edges[j].id != m.edges[k].id
    ensures clash.Some? ==> Clash(m, clash.value)
  {
    var ids := nodeIds;
    for i := 0 to |m.edges|
      invariant ids == nodeIds + EdgeIds(m.edges[..i]) && nodeIds !! EdgeIds(m.edges[..i])
      invariant forall j, k :: 0 <= j < k < i ==> m.edges[j].id != m.edges[k].id
    {
      var e := m.edges[i];
      assert e in m.edges;
      if e.id in ids {
        if e.id !in nodeIds {
          var j :| 0 <= j < i && m.edges[j].id == e.id;
        }
        return Some(e.id);
      }
      assert m.edges[..i + 1] == m.edges[..i] + [e];
      ids := ids + {e.id};
    }
    assert m.edges[..|m.edges|] == m.edges;
    clash := None;
  }

  method Check(m: Model) returns (r: Result<Model, ModelError>)
    ensures r.Ok? <==> ValidModel(m)
    ensures r.Ok? ==> r.value == m
    ensures r.Err? ==> r.error.DuplicateId? || r.error.SelectedUnknown? || r.error.EndpointUnknown?
    ensures r.Err? && r.error.DuplicateId? ==> Clash(m, r.error.id)
    ensures r.Err? && r.error.EndpointUnknown? ==> Dangling(m, r.error.id)
  {
    var nodeIds, clash := CollectIds(m);
    if clash.Some? {
      ClashIsInvalid(m, clash.value);
      return Err(DuplicateId(clash.value));
    }
    if m.selected !in nodeIds { return Err(SelectedUnknown); }
    for i := 0 to |m.edges|
      invariant forall j :: 0 <= j < i ==> m.edges[j].source in nodeIds && m.edges[j].target in nodeIds
    {
      var e := m.edges[i];
      if e.source !in nodeIds || e.target !in nodeIds {
        assert e in m.edges;
        return Err(EndpointUnknown(e.id));
      }
    }
    r := Ok(m);
  }

  lemma {:induction false} ClashIsInvalid(m: Model, id: Id)
    requires Clash(m, id)
    ensures !ValidModel(m)
  {
  }

  // ---- The displayed graph ----

  datatype Node = Node(title: string, href: string)
  datatype Edge = Edge(source: Id, target: Id, attribute: string, reverse: bool, title: Option<string>)

  datatype Graph = Graph(nodes: map<Id, Node>, edges: map<Id, Edge>, selected: set<Id>)

  /** One element per id, and no edge without its endpoints. */
  ghost predicate WellFormed(g: Graph) {
    && g.nodes.Keys !! g.edges.Keys
    && (forall id :: id in g.edges ==> g.edges[id].source in g.nodes && g.edges[id].target in g.nodes)
    && g.selected <= g.nodes.Keys + g.edges.Keys
  }

  // ---- What a model makes of a graph ----

  /** An edge displayed with the same endpoints stays. */
  predicate Kept(g: Graph, e: EdgeData) {
    e.id in g.edges && g.edges[e.id].source == e.source && g.edges[e.id].target == e.target
  }

  /** A kept edge takes the model's attribute, and its label if that is not empty, but nothing else. */
  function Merged(g: Graph, e: EdgeData): Edge {
    if Kept(g, e) then
      var was := g.edges[e.id];
      Edge(e.source, e.target, e.attribute, was.reverse, if Required(e.title) then e.title else was.title)
    else Edge(e.source, e.target, e.attribute, e.reverse, e.title)
  }

  function NodesOf(ns: seq<NodeData>): (r: map<Id, Node>)
    ensures r.Keys == NodeIds(ns)
  {
    if ns == [] then map[]
    else
      var last := ns[|ns| - 1];
      assert ns == ns[..|ns| - 1] + [last];
      NodesOf(ns[..|ns| - 1])[last.id := Node(last.title, last.href)]
  }

  function EdgesOf(g: Graph, es: seq<EdgeData>): (r: map<Id, Edge>)
    ensures r.Keys == EdgeIds(es)
  {
    if es == [] then map[]
    else
      var last := es[|es| - 1];
      assert es == es[..|es| - 1] + [last];
      EdgesOf(g, es[..|es| - 1])[last.id := Merged(g, last)]
  }

  function SelectedAfter(g: Graph, m: Model): set<Id> {
    var kept := g.selected * (NodeIds(m.nodes) + EdgeIds(m.edges));
    if kept == {} then {m.selected} else kept
  }

  function After(g: Graph, m: Model): Graph {
    Graph(NodesOf(m.nodes), EdgesOf(g, m.edges), SelectedAfter(g, m))
  }

  lemma {:induction false} NodesOfAt(ns: seq<NodeData>, i: nat)
    requires i < |ns| && forall i, j :: 0 <= i < j < |ns| ==> ns[i].id != ns[j].id
    ensures ns[i].id in NodesOf(ns) && NodesOf(ns)[ns[i].id] == Node(ns[i].title, ns[i].href)
  {
    if i < |ns| - 1 { NodesOfAt(ns[..|ns| - 1], i); }
  }

  lemma {:induction false} EdgesOfAt(g: Graph, es: seq<EdgeData>, i: nat)
    requires i < |es| && forall i, j :: 0 <= i < j < |es| ==> es[i].id != es[j].id
    ensures es[i].id in EdgesOf(g, es) && EdgesOf(g, es)[es[i].id] == Merged(g, es[i])
  {
    if i < |es| - 1 { EdgesOfAt(g, es[..|es| - 1], i); }
  }

  lemma {:induction false} NodesOfIn(ns: seq<NodeData>)
    requires forall i, j :: 0 <= i < j < |ns| ==> ns[i].id != ns[j].id
    ensures forall n :: n in ns ==> NodesOf(ns)[n.id] == Node(n.title, n.href)
  {
    forall n | n in ns ensures NodesOf(ns)[n.id] == Node(n.title, n.href) {
      var i :| 0 <= i < |ns| && ns[i] == n;
      NodesOfAt(ns, i);
    }
  }

  lemma {:induction false} EdgesOfIn(g: Graph, es: seq<EdgeData>)
    requires forall i, j :: 0 <= i < j < |es| ==> es[i].id != es[j].id
    ensures forall e :: e in es ==> EdgesOf(g, es)[e.id] == Merged(g, e)
  {
    forall e | e in es ensures EdgesOf(g, es)[e.id] == Merged(g, e) {
      var i :| 0 <= i < |es| && es[i] == e;
      EdgesOfAt(g, es, i);
    }
  }

  /** From any graph: exactly the model's elements, with the model's endpoints, node label and href and edge
      attribute; an edge displayed with these endpoints keeps its direction, and its label unless the model has one, and
      any other is the model's; and the selection that survives or else the model's. */
  lemma {:induction false} Converges(g: Graph, m: Model)
    requires ValidModel(m)
    ensures var g' := After(g, m);
      && g'.nodes.Keys == NodeIds(m.nodes) && g'.edges.Keys == EdgeIds(m.edges)
      && (forall n :: n in m.nodes ==> g'.nodes[n.id] == Node(n.title, n.href))
      && (forall e :: e in m.edges ==> g'.edges[e.id].source == e.source && g'.edges[e.id].target == e.target
                                       && g'.edges[e.id].attribute == e.attribute)
      && (forall e :: e in m.edges ==>
           var now := g'.edges[e.id];
           if e.id in g.edges && g.edges[e.id].source == e.source && g.edges[e.id].target == e.target
           then now.reverse == g.edges[e.id].reverse
                && now.title == if e.title.Some? && e.title.value != "" then e.title else g.edges[e.id].title
           else now.reverse == e.reverse && now.title == e.title)
      && (var survivors := g.selected * (NodeIds(m.nodes) + EdgeIds(m.edges));
          g'.selected == if survivors == {} then {m.selected} else survivors)
  {
    NodesOfIn(m.nodes);
    EdgesOfIn(g, m.edges);
  }

  /** The graph stays well formed. */
  lemma {:induction false} StaysWellFormed(g: Graph, m: Model)
    requires ValidModel(m)
    ensures WellFormed(After(g, m))
  {
    var g' := After(g, m);
    EdgesOfIn(g, m.edges);
    forall id | id in g'.edges ensures g'.edges[id].source in g'.nodes && g'.edges[id].target in g'.nodes {
      var e :| e in m.edges && e.id == id;
    }
  }

  /** Reconciling again changes nothing. */
  lemma {:induction false} Idempotent(g: Graph, m: Model)
    requires ValidModel(m)
    ensures After(After(g, m), m) == After(g, m)
  {
    var g' := After(g, m);
    StaysWellFormed(g, m);
    forall i | 0 <= i < |m.edges| ensures Merged(g', m.edges[i]) == Merged(g, m.edges[i]) {
      EdgesOfAt(g, m.edges, i);
      assert m.edges[i] in m.edges;
    }
    SameMerge(g', g, m.edges);
    var all := NodeIds(m.nodes) + EdgeIds(m.edges);
    assert g'.selected * all == g'.selected;
  }

  lemma {:induction false} SameMerge(g: Graph, h: Graph, es: seq<EdgeData>)
    requires forall i :: 0 <= i < |es| ==> Merged(g, es[i]) == Merged(h, es[i])
    ensures EdgesOf(g, es) == EdgesOf(h, es)
  {
    if es != [] { SameMerge(g, h, es[..|es| - 1]); }
  }

  const BLANK := Graph(map[], map[], {})

  /** The displayed edge already has what reconciling leaves alone. */
  predicate UpToDate(g: Graph, e: EdgeData) {
    e.id in g.edges && g.edges[e.id].reverse == e.reverse && (Required(e.title) || g.edges[e.id].title == e.title)
  }

  /** Exactly when the edges shown are those a fresh view would show: every kept edge already had the model's
      direction, and its label where the model has none. */
  lemma {:induction false} FreshExactly(g: Graph, m: Model)
    requires ValidModel(m)
    ensures After(g, m).nodes == After(BLANK, m).nodes
    ensures After(g, m).edges == After(BLANK, m).edges <==> forall e :: e in m.edges && Kept(g, e) ==> UpToDate(g, e)
  {
    forall i | 0 <= i < |m.edges|
      ensures Merged(g, m.edges[i]) == Merged(BLANK, m.edges[i]) <==> (Kept(g, m.edges[i]) ==> UpToDate(g, m.edges[i]))
    {}
    if After(g, m).edges == After(BLANK, m).edges {
      forall e | e in m.edges && Kept(g, e) ensures UpToDate(g, e) {
        var i :| 0 <= i < |m.edges| && m.edges[i] == e;
        EdgesOfAt(g, m.edges, i);
        EdgesOfAt(BLANK, m.edges, i);
      }
    }
    if forall e :: e in m.edges && Kept(g, e) ==> UpToDate(g, e) {
      forall i | 0 <= i < |m.edges| ensures Merged(g, m.edges[i]) == Merged(BLANK, m.edges[i]) {
        assert m.edges[i] in m.edges;
      }
      SameMerge(g, BLANK, m.edges);
    }
  }

  /** A reversed edge whose direction the new model turns keeps its old direction. */
  lemma {:induction false} StaleDirection()
    ensures var e := EdgeData("e", "a", "b", "x", false, None);
      var m := Model([NodeData("a", "A", "/a"), NodeData("b", "B", "/b")], [e], "a");
      var g := After(BLANK, m.(edges := [e.(reverse := true)]));
      ValidModel(m) && WellFormed(g) && After(g, m).edges["e"].reverse
  {
    var e := EdgeData("e", "a", "b", "x", false, None);
    var ns := [NodeData("a", "A", "/a"), NodeData("b", "B", "/b")];
    var m := Model(ns, [e], "a");
    var m1 := m.(edges := [e.(reverse := true)]);
    assert ns[0] in ns && ns[1] in ns;
    assert "a" in NodeIds(ns) && "b" in NodeIds(ns);
    StaysWellFormed(BLANK, m1);
    EdgesOfAt(BLANK, m1.edges, 0);
    EdgesOfAt(After(BLANK, m1), m.edges, 0);
    assert m1.edges[0] in m1.edges;
  }

  // ---- Reconciling in place ----

  class View {
    var nodes: map<Id, Node>
    var edges: map<Id, Edge>
    var selected: set<Id>

    function Shown(): Graph
      reads this
    {
      Graph(nodes, edges, selected)
    }

    /** Change the displayed graph, in whatever order its elements are visited, until it shows m. */
    method Reconcile(m: Model)
      requires ValidModel(m)
      modifies this
      ensures Shown() == After(old(Shown()), m)
    {
      ghost var g := Shown();
      var selectedIds := selected;
      DropEdges(m);
      KeptAreEdges(g, m);
      DropNodes(NodeIds(m.nodes));
      AddNodes(m.nodes);
      StagesStep(g, m);
      AddEdges(m.edges, Stages(g, m));
      Select(selectedIds, m);
    }

    /** cy.edges().forEach: an edge the model lacks, or joins otherwise, goes. */
    method DropEdges(m: Model)
      modifies this
      ensures nodes == old(nodes) && edges == KeptEdges(old(Shown()), m)
    {
      ghost var g := Shown();
      var todo := edges.Keys;
      while todo != {}
        invariant nodes == g.nodes && todo <= edges.Keys
        invariant edges.Keys == todo + (g.edges.Keys - todo) * KeptEdges(g, m).Keys
        invariant forall id :: id in edges ==> edges[id] == g.edges[id]
        decreases todo
      {
        var id :| id in todo;
        var keep := HasEdge(m.edges, id, edges[id].source, edges[id].target);
        if !keep {
          edges, selected := edges - {id}, selected - {id};
        }
        todo := todo - {id};
      }
    }

    /** cy.nodes().forEach: a node the model lacks goes, with the edges at it, of which none is left. */
    method DropNodes(wanted: set<Id>)
      requires forall x :: x in edges ==> edges[x].source in wanted && edges[x].target in wanted
      modifies this
      ensures edges == old(edges) && nodes.Keys == old(nodes).Keys * wanted
    {
      var todo := nodes.Keys;
      while todo != {}
        invariant edges == old(edges) && todo <= nodes.Keys
        invariant nodes.Keys == todo + (old(nodes).Keys - todo) * wanted
        decreases todo
      {
        var id :| id in todo;
        if id !in wanted { RemoveNode(id); }
        todo := todo - {id};
      }
    }

    /** A node takes the edges at it along. */
    method RemoveNode(id: Id)
      modifies this
      ensures nodes == old(nodes) - {id}
      ensures forall e :: e in edges <==> e in old(edges) && old(edges)[e].source != id && old(edges)[e].target != id
      ensures forall e :: e in edges ==> edges[e] == old(edges)[e]
    {
      var gone := set e | e in edges && (edges[e].source == id || edges[e].target == id);
      nodes, edges, selected := nodes - {id}, edges - gone, selected - gone - {id};
    }

    method AddNodes(ns: seq<NodeData>)
      requires nodes.Keys <= NodeIds(ns) && NodeIds(ns) !! edges.Keys
      modifies this`nodes
      ensures nodes == NodesOf(ns)
    {
      ghost var was := nodes;
      MergeNone(was, ns);
      for i := 0 to |ns|
        invariant nodes == was + NodesOf(ns[..i])
      {
        NodesOfMore(was, ns, i);
        assert ns[i] in ns;
        ShowNode(ns[i]);
      }
      assert ns[..|ns|] == ns;
    }

    method ShowNode(n: NodeData)
      requires n.id !in edges
      modifies this`nodes
      ensures nodes == old(nodes)[n.id := Node(n.title, n.href)]
    {
      if n.id !in nodes && n.id !in edges {
        nodes := nodes[n.id := Node(n.title, n.href)];
      } else {
        nodes := nodes[n.id := nodes[n.id].(title := n.title)];
        nodes := nodes[n.id := nodes[n.id].(href := n.href)];
      }
    }

    /** `stages` are the displayed edges before each edge of the model is gone through, and after the last. */
    method AddEdges(es: seq<EdgeData>, ghost stages: seq<map<Id, Edge>>)
      requires |stages| == |es| + 1 && edges == stages[0]
      requires forall i :: 0 <= i < |es| ==> StageStep(stages[i], es[i], stages[i + 1], nodes.Keys)
      modifies this`edges
      ensures edges == stages[|es|]
    {
      for i := 0 to |es|
        invariant edges == stages[i]
      {
        assert StageStep(stages[i], es[i], stages[i + 1], nodes.Keys);
        ShowEdge(es[i]);
      }
    }

    /** An edge that is added finds both its endpoints. */
    method ShowEdge(e: EdgeData)
      requires e.id !in nodes && e.source in nodes && e.target in nodes
      modifies this`edges
      ensures edges == old(edges)[e.id := Drawn(old(edges), e)]
    {
      if e.id !in nodes && e.id !in edges {
        edges := edges[e.id := Edge(e.source, e.target, e.attribute, e.reverse, e.title)];
      } else {
        edges := edges[e.id := edges[e.id].(attribute := e.attribute)];
        if Required(e.title) { edges := edges[e.id := edges[e.id].(title := e.title)]; }
      }
    }

    method Select(selectedIds: set<Id>, m: Model)
      requires nodes.Keys == NodeIds(m.nodes) && edges.Keys == EdgeIds(m.edges)
      modifies this`selected
      ensures var kept := selectedIds * (NodeIds(m.nodes) + EdgeIds(m.edges));
        selected == if kept == {} then {m.selected} else kept
    {
      selected := {};
      var restored, todo := false, selectedIds;
      while todo != {}
        invariant todo <= selectedIds && restored == (selected != {})
        invariant selected == (selectedIds - todo) * (NodeIds(m.nodes) + EdgeIds(m.edges))
        decreases todo
      {
        var id :| id in todo;
        if id in nodes || id in edges {
          selected, restored := selected + {id}, true;
        }
        todo := todo - {id};
      }
      if !restored { selected := {m.selected}; }
    }
  }

  /** edges.get(id), then the endpoints compared. */
  predicate HasEdge(es: seq<EdgeData>, id: Id, source: Id, target: Id) {
    es != []
    && ((es[0].id == id && es[0].source == source && es[0].target == target) || HasEdge(es[1..], id, source, target))
  }

  lemma {:induction false} HasEdgeAt(es: seq<EdgeData>, id: Id, source: Id, target: Id) returns (i: nat)
    requires HasEdge(es, id, source, target)
    ensures i < |es| && es[i].id == id && es[i].source == source && es[i].target == target
  {
    if es[0].id == id && es[0].source == source && es[0].target == target {
      i := 0;
    } else {
      i := HasEdgeAt(es[1..], id, source, target);
      i := i + 1;
    }
  }

  lemma {:induction false} HasEdgeIn(es: seq<EdgeData>, i: nat)
    requires i < |es|
    ensures HasEdge(es, es[i].id, es[i].source, es[i].target)
  {
    if i > 0 { HasEdgeIn(es[1..], i - 1); }
  }

  ghost function KeptEdges(g: Graph, m: Model): map<Id, Edge> {
    map id | id in g.edges && HasEdge(m.edges, id, g.edges[id].source, g.edges[id].target) :: g.edges[id]
  }

  lemma {:induction false} EndpointsStay(g: Graph, m: Model, x: Id)
    requires ValidModel(m) && x in KeptEdges(g, m)
    ensures KeptEdges(g, m)[x].source in NodeIds(m.nodes) && KeptEdges(g, m)[x].target in NodeIds(m.nodes)
    ensures x in EdgeIds(m.edges)
  {
    var i := HasEdgeAt(m.edges, x, g.edges[x].source, g.edges[x].target);
    assert m.edges[i] in m.edges;
  }

  lemma {:induction false} KeptAreEdges(g: Graph, m: Model)
    requires ValidModel(m)
    ensures var kept, ids := KeptEdges(g, m), NodeIds(m.nodes);
      && ids !! kept.Keys && kept.Keys <= EdgeIds(m.edges)
      && forall x :: x in kept ==> kept[x].source in ids && kept[x].target in ids
  {
    var kept, ids := KeptEdges(g, m), NodeIds(m.nodes);
    forall x | x in kept ensures x in EdgeIds(m.edges) && kept[x].source in ids && kept[x].target in ids {
      EndpointsStay(g, m, x);
    }
  }

  lemma {:induction false} NodesOfMore(was: map<Id, Node>, ns: seq<NodeData>, i: nat)
    requires i < |ns|
    ensures was + NodesOf(ns[..i + 1]) == (was + NodesOf(ns[..i]))[ns[i].id := Node(ns[i].title, ns[i].href)]
  {
    assert ns[..i + 1][..i] == ns[..i];
  }

  /** An edge added, or changed where it is. */
  function Drawn(edges: map<Id, Edge>, e: EdgeData): Edge {
    if e.id in edges then
      edges[e.id].(attribute := e.attribute, title := if Required(e.title) then e.title else edges[e.id].title)
    else Edge(e.source, e.target, e.attribute, e.reverse, e.title)
  }

  /** The displayed edges once the first i of the model have been gone through. */
  ghost function EdgesSoFar(g: Graph, m: Model, i: nat): map<Id, Edge>
    requires i <= |m.edges|
  {
    KeptEdges(g, m) + EdgesOf(g, m.edges[..i])
  }

  /** One edge of the model drawn; if it is added, both its endpoints are there. */
  ghost predicate StageStep(now: map<Id, Edge>, e: EdgeData, next: map<Id, Edge>, nodeIds: set<Id>) {
    next == now[e.id := Drawn(now, e)] && e.id !in nodeIds && e.source in nodeIds && e.target in nodeIds
  }

  ghost function Stages(g: Graph, m: Model): seq<map<Id, Edge>> {
    seq(|m.edges| + 1, i requires 0 <= i <= |m.edges| => EdgesSoFar(g, m, i))
  }

  lemma {:induction false} StagesStep(g: Graph, m: Model)
    requires ValidModel(m)
    ensures var st := Stages(g, m);
      && st[0] == KeptEdges(g, m) && st[|m.edges|] == EdgesOf(g, m.edges)
      && forall i :: 0 <= i < |m.edges| ==> StageStep(st[i], m.edges[i], st[i + 1], NodeIds(m.nodes))
  {
    EdgesBegin(g, m);
    forall i | 0 <= i < |m.edges|
      ensures StageStep(Stages(g, m)[i], m.edges[i], Stages(g, m)[i + 1], NodeIds(m.nodes))
    {
      EdgesOfMore(g, m, i);
    }
  }

  lemma {:induction false} EdgesBegin(g: Graph, m: Model)
    requires ValidModel(m)
    ensures EdgesSoFar(g, m, 0) == KeptEdges(g, m)
    ensures EdgesSoFar(g, m, |m.edges|) == EdgesOf(g, m.edges)
  {
    assert m.edges[..0] == [] && m.edges[..|m.edges|] == m.edges;
    KeptAreEdges(g, m);
    MergeAll(KeptEdges(g, m), map[]);
    MergeAll(KeptEdges(g, m), EdgesOf(g, m.edges));
  }

  /** The next edge has not been added, and is there exactly if it was kept. */
  lemma {:induction false} EdgesOfMore(g: Graph, m: Model, i: nat)
    requires ValidModel(m) && i < |m.edges|
    ensures var e, now := m.edges[i], EdgesSoFar(g, m, i); now[e.id := Drawn(now, e)] == EdgesSoFar(g, m, i + 1)
    ensures var e := m.edges[i];
      e.id !in NodeIds(m.nodes) && e.source in NodeIds(m.nodes) && e.target in NodeIds(m.nodes)
  {
    var es, e, was := m.edges, m.edges[i], KeptEdges(g, m);
    var now := was + EdgesOf(g, es[..i]);
    assert es[..i + 1][..i] == es[..i] && e in es;
    NotYet(es, i);
    KeptAt(g, m, i);
    assert e.id in now <==> Kept(g, e);
    assert Drawn(now, e) == Merged(g, e);
    MergeMore(was, EdgesOf(g, es[..i]), e.id, Merged(g, e));
  }

  lemma {:induction false} MergeNone(was: map<Id, Node>, ns: seq<NodeData>)
    requires was.Keys <= NodeIds(ns)
    ensures was + NodesOf(ns[..0]) == was && was + NodesOf(ns) == NodesOf(ns)
  {
    assert ns[..0] == [];
  }

  lemma {:induction false} MergeAll(a: map<Id, Edge>, b: map<Id, Edge>)
    ensures b == map[] ==> a + b == a
    ensures a.Keys <= b.Keys ==> a + b == b
  {
  }

  lemma {:induction false} MergeMore(a: map<Id, Edge>, b: map<Id, Edge>, id: Id, e: Edge)
    ensures (a + b)[id := e] == a + b[id := e]
  {
  }

  lemma {:induction false} NotYet(es: seq<EdgeData>, i: nat)
    requires i < |es| && forall i, j :: 0 <= i < j < |es| ==> es[i].id != es[j].id
    ensures es[i].id !in EdgeIds(es[..i])
  {
  }

  lemma {:induction false} KeptAt(g: Graph, m: Model, i: nat)
    requires ValidModel(m) && i < |m.edges|
    ensures m.edges[i].id in KeptEdges(g, m) <==> Kept(g, m.edges[i])
  {
    var e := m.edges[i];
    HasEdgeIn(m.edges, i);
    if e.id in KeptEdges(g, m) {
      var j := HasEdgeAt(m.edges, e.id, g.edges[e.id].source, g.edges[e.id].target);
      assert i == j;
    }
  }
}
