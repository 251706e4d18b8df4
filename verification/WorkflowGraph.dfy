/** Workflow definitions, and the in-memory graph the engine traverses. */
module WorkflowGraph {
  import opened Json

  /** What to do when a node fails; every policy the engine does not know stops. */
  datatype OnError = Stop | Retry | Continue | Ignore

  datatype Kind =
    | Trigger
    | Action
    | Think
    | HttpRequest
    | Condition
    | Switch
    | Transform
    | Filter
    | Delay
    | SetVariable
    | Aggregate
    | Response
    | ErrorHandler(catchFrom: seq<string>)
    | Loop(arrayField: string, itemVar: string, indexVar: string, maxIterations: int)
    | Parallel
    | Batch(source: string, concurrency: int, stopOnItemError: bool, maxItems: int, bodyNodes: seq<string>)
    | SubWorkflow(workflowId: string, maxNesting: int)
    | Unknown

  datatype Node = Node(id: string, kind: Kind, title: string, onError: Option<OnError>, maxRetries: Option<int>)

  datatype Edge = Edge(source: string, target: string, sourceHandle: string)

  datatype Workflow = Workflow(id: string, name: string, nodes: seq<Node>, edges: seq<Edge>,
                               variables: Dict, onError: OnError, maxRetries: int)

  // ---- the dictionary `{n["id"]: n for n in nodes}` ----

  /** The node stored under `id`: a later duplicate replaces an earlier one. */
  function Lookup(nodes: seq<Node>, id: string): (r: Option<Node>)
    ensures r.Some? ==> r.value.id == id && r.value in nodes
    ensures r.None? <==> forall n :: n in nodes ==> n.id != id
  {
    if nodes == [] then None
    else
      var last := nodes[|nodes| - 1];
      if last.id == id then Some(last) else Lookup(nodes[..|nodes| - 1], id)
  }

  /** The dictionary's values, in the order in which their keys were first inserted. */
  function Values(nodes: seq<Node>): (vs: seq<Node>)
    ensures forall v :: v in vs ==> Lookup(nodes, v.id) == Some(v)
  {
    ValuesOf(nodes, KeyOrder(nodes))
  }

  function KeyOrder(nodes: seq<Node>): (ids: seq<string>)
    ensures forall id :: id in ids <==> Lookup(nodes, id).Some?
  {
    if nodes == [] then []
    else
      var front := KeyOrder(nodes[..|nodes| - 1]);
      var id := nodes[|nodes| - 1].id;
      if id in front then front else front + [id]
  }

  function ValuesOf(nodes: seq<Node>, ids: seq<string>): (vs: seq<Node>)
    requires forall id :: id in ids ==> Lookup(nodes, id).Some?
    ensures |vs| == |ids| && forall i :: 0 <= i < |vs| ==> Lookup(nodes, ids[i]) == Some(vs[i])
  {
    seq(|ids|, i requires 0 <= i < |ids| => Lookup(nodes, ids[i]).value)
  }

  predicate IsNode(wf: Workflow, n: Node) {
    Lookup(wf.nodes, n.id) == Some(n)
  }

  function FirstWhere(nodes: seq<Node>, p: Node -> bool): (r: Option<Node>)
    ensures r.Some? ==> r.value in nodes && p(r.value)
    ensures r.None? ==> forall n :: n in nodes ==> !p(n)
  {
    if nodes == [] then None
    else if p(nodes[0]) then Some(nodes[0])
    else FirstWhere(nodes[1..], p)
  }

  function FindTrigger(wf: Workflow): (r: Option<Node>)
    ensures r.Some? ==> IsNode(wf, r.value) && r.value.kind.Trigger?
  {
    FirstWhere(Values(wf.nodes), (n: Node) => n.kind.Trigger?)
  }

  /** The first error handler that catches `failed`. */
  function FindErrorHandler(wf: Workflow, failed: string): (r: Option<Node>)
    ensures r.Some? ==> IsNode(wf, r.value) && r.value.kind.ErrorHandler? && failed in r.value.kind.catchFrom
  {
    FirstWhere(Values(wf.nodes), (n: Node) => n.kind.ErrorHandler? && failed in n.kind.catchFrom)
  }

  // ---- successors ----

  predicate Follows(e: Edge, id: string, handle: Option<string>) {
    e.source == id && (handle.Some? ==> e.sourceHandle == handle.value)
  }

  /** The targets of the edges out of `id` with the given handle, in edge order. */
  function Targets(nodes: seq<Node>, edges: seq<Edge>, id: string, handle: Option<string>): (ss: seq<Node>)
    ensures forall s :: s in ss ==> Lookup(nodes, s.id) == Some(s)
    ensures forall s :: s in ss ==> exists e :: e in edges && Follows(e, id, handle) && e.target == s.id
  {
    if edges == [] then []
    else
      var e := edges[|edges| - 1];
      var front := Targets(nodes, edges[..|edges| - 1], id, handle);
      var target := Lookup(nodes, e.target);
      if Follows(e, id, handle) && target.Some? then front + [target.value] else front
  }

  function Successors(wf: Workflow, id: string, handle: Option<string>): (ss: seq<Node>)
    ensures forall s :: s in ss ==> IsNode(wf, s)
  {
    Targets(wf.nodes, wf.edges, id, handle)
  }

  // ---- what the selection means, edge by edge ----

  /** `n` is the last node of the list with that id. */
  ghost predicate Stored(ns: seq<Node>, id: string, n: Node) {
    exists i :: 0 <= i < |ns| && ns[i] == n && n.id == id && forall j :: i < j < |ns| ==> ns[j].id != id
  }

  lemma StoredInFront(ns: seq<Node>, id: string, n: Node)
    requires ns != [] && ns[|ns| - 1].id != id && Stored(ns, id, n)
    ensures Stored(ns[..|ns| - 1], id, n)
  {
    var k := |ns| - 1;
    var i :| 0 <= i < |ns| && ns[i] == n && n.id == id && forall j :: i < j < |ns| ==> ns[j].id != id;
    assert i < k && ns[..k][i] == n;
  }

  lemma StoredBehind(ns: seq<Node>, id: string, n: Node)
    requires ns != [] && ns[|ns| - 1].id != id && Stored(ns[..|ns| - 1], id, n)
    ensures Stored(ns, id, n)
  {
    var k := |ns| - 1;
    var i :| 0 <= i < k && ns[..k][i] == n && n.id == id && forall j :: i < j < k ==> ns[..k][j].id != id;
    forall j | i < j < |ns| ensures ns[j].id != id { if j < k { assert ns[..k][j] == ns[j]; } }
    assert ns[i] == n;
  }

  lemma {:induction false} LookupIsStored(ns: seq<Node>, id: string, n: Node)
    ensures Lookup(ns, id) == Some(n) <==> Stored(ns, id, n)
  {
    if ns != [] {
      var k := |ns| - 1;
      if ns[k].id == id {
        assert n == ns[k] ==> Stored(ns, id, n);
      } else {
        LookupIsStored(ns[..k], id, n);
        if Stored(ns[..k], id, n) { StoredBehind(ns, id, n); }
        if Stored(ns, id, n) { StoredInFront(ns, id, n); }
      }
    }
  }

  predicate HasId(ns: seq<Node>, id: string) {
    exists i :: 0 <= i < |ns| && ns[i].id == id
  }

  /** The edge leaves `id`, by that handle if one is given, and ends at a node. */
  predicate EdgeLeaves(ns: seq<Node>, e: Edge, id: string, handle: Option<string>) {
    e.source == id && (handle == None || handle == Some(e.sourceHandle)) && HasId(ns, e.target)
  }

  /** `ks` are the positions of the edges that leave `id` by the handle, in order, and
      `ss` are the nodes they end at. */
  ghost predicate Selects(ns: seq<Node>, es: seq<Edge>, id: string, handle: Option<string>, ss: seq<Node>,
                          ks: seq<nat>) {
    |ss| == |ks| && (forall i, j :: 0 <= i < j < |ks| ==> ks[i] < ks[j]) &&
    (forall j :: 0 <= j < |ks| ==> ks[j] < |es|) &&
    (forall i :: 0 <= i < |es| ==> (i in ks <==> EdgeLeaves(ns, es[i], id, handle))) &&
    forall j :: 0 <= j < |ks| ==> Stored(ns, es[ks[j]].target, ss[j])
  }

  ghost predicate IsSelection(ns: seq<Node>, es: seq<Edge>, id: string, handle: Option<string>, ss: seq<Node>) {
    exists ks :: Selects(ns, es, id, handle, ss, ks)
  }

  lemma LookupHasId(ns: seq<Node>, id: string)
    ensures Lookup(ns, id).Some? <==> HasId(ns, id)
  {
    if HasId(ns, id) {
      var i :| 0 <= i < |ns| && ns[i].id == id;
      assert ns[i] in ns;
    }
  }

  lemma SelectsNext(ns: seq<Node>, es: seq<Edge>, e: Edge, id: string, handle: Option<string>, ss: seq<Node>,
                    ks: seq<nat>)
    requires Selects(ns, es, id, handle, ss, ks) && EdgeLeaves(ns, e, id, handle)
    ensures forall s :: Stored(ns, e.target, s) ==> Selects(ns, es + [e], id, handle, ss + [s], ks + [|es|])
  {
    forall i | 0 <= i < |es + [e]| ensures i in ks + [|es|] <==> EdgeLeaves(ns, (es + [e])[i], id, handle) {
      if i < |es| { assert (es + [e])[i] == es[i]; }
    }
  }

  lemma SelectsNot(ns: seq<Node>, es: seq<Edge>, e: Edge, id: string, handle: Option<string>, ss: seq<Node>,
                   ks: seq<nat>)
    requires Selects(ns, es, id, handle, ss, ks) && !EdgeLeaves(ns, e, id, handle)
    ensures Selects(ns, es + [e], id, handle, ss, ks)
  {
    forall i | 0 <= i < |es + [e]| ensures i in ks <==> EdgeLeaves(ns, (es + [e])[i], id, handle) {
      if i < |es| { assert (es + [e])[i] == es[i]; }
    }
  }

  /** The successors are the nodes at the ends of exactly the edges that leave by the
      handle, in edge order. */
  lemma {:induction false} TargetsAreSelected(ns: seq<Node>, es: seq<Edge>, id: string, handle: Option<string>)
    ensures IsSelection(ns, es, id, handle, Targets(ns, es, id, handle))
    decreases |es|
  {
    if es == [] {
      assert Selects(ns, es, id, handle, [], []);
    } else {
      var k := |es| - 1;
      var ss := Targets(ns, es[..k], id, handle);
      TargetsAreSelected(ns, es[..k], id, handle);
      var ks :| Selects(ns, es[..k], id, handle, ss, ks);
      assert es[..k] + [es[k]] == es;
      LookupHasId(ns, es[k].target);
      if EdgeLeaves(ns, es[k], id, handle) {
        LookupIsStored(ns, es[k].target, Lookup(ns, es[k].target).value);
        SelectsNext(ns, es[..k], es[k], id, handle, ss, ks);
      } else {
        SelectsNot(ns, es[..k], es[k], id, handle, ss, ks);
      }
    }
  }

  /** `[n for id in ids if (n := get_node(id)) is not None]` */
  function Present(wf: Workflow, ids: seq<string>): (ns: seq<Node>)
    ensures forall n :: n in ns ==> IsNode(wf, n)
  {
    if ids == [] then []
    else
      var n := Lookup(wf.nodes, ids[|ids| - 1]);
      Present(wf, ids[..|ids| - 1]) + (if n.Some? then [n.value] else [])
  }

  // ---- which node is found first ----

  /** In the list, `a` comes up before `b` does. */
  ghost predicate ComesBefore(ns: seq<Node>, a: string, b: string) {
    exists i :: 0 <= i < |ns| && ns[i].id == a && forall j :: 0 <= j <= i ==> ns[j].id != b
  }

  lemma StillBefore(ns: seq<Node>, more: Node, a: string, b: string)
    requires ComesBefore(ns, a, b)
    ensures ComesBefore(ns + [more], a, b)
  {
    var i :| 0 <= i < |ns| && ns[i].id == a && forall j :: 0 <= j <= i ==> ns[j].id != b;
    assert (ns + [more])[i] == ns[i];
    forall j | 0 <= j <= i ensures (ns + [more])[j].id != b { assert (ns + [more])[j] == ns[j]; }
  }

  lemma NewComesLast(ns: seq<Node>, n: Node, a: string)
    requires HasId(ns, a) && !HasId(ns, n.id)
    ensures ComesBefore(ns + [n], a, n.id)
  {
    var i :| 0 <= i < |ns| && ns[i].id == a;
    assert (ns + [n])[i].id == a;
    forall j | 0 <= j <= i ensures (ns + [n])[j].id != n.id { assert (ns + [n])[j] == ns[j]; }
  }

  lemma {:induction false} KeysInOrder(ns: seq<Node>, i: nat, j: nat)
    requires i < j < |KeyOrder(ns)|
    ensures ComesBefore(ns, KeyOrder(ns)[i], KeyOrder(ns)[j])
  {
    var k := |ns| - 1;
    var front := KeyOrder(ns[..k]);
    assert ns[..k] + [ns[k]] == ns;
    if j < |front| {
      KeysInOrder(ns[..k], i, j);
      StillBefore(ns[..k], ns[k], front[i], front[j]);
    } else {
      LookupHasId(ns[..k], front[i]);
      LookupHasId(ns[..k], ns[k].id);
      NewComesLast(ns[..k], ns[k], front[i]);
    }
  }

  /** `r` is, of the nodes stored in the dictionary that have the property, the one whose
      id was inserted first. */
  ghost predicate IsFirst(ns: seq<Node>, p: Node -> bool, r: Option<Node>) {
    (r.Some? ==> p(r.value) && Stored(ns, r.value.id, r.value)) &&
    forall m: Node :: Stored(ns, m.id, m) && p(m) ==> r.Some? && (m == r.value || ComesBefore(ns, r.value.id, m.id))
  }

  lemma {:induction false} FirstWhereIs(vs: seq<Node>, p: Node -> bool) returns (i: nat)
    ensures FirstWhere(vs, p).None? ==> forall j :: 0 <= j < |vs| ==> !p(vs[j])
    ensures FirstWhere(vs, p).Some? ==>
              i < |vs| && vs[i] == FirstWhere(vs, p).value && forall j :: 0 <= j < i ==> !p(vs[j])
  {
    i := 0;
    if vs != [] && !p(vs[0]) {
      var k := FirstWhereIs(vs[1..], p);
      i := k + 1;
      forall j | 0 <= j < |vs| && (j < i || FirstWhere(vs, p).None?) ensures !p(vs[j]) {
        if j > 0 { assert vs[j] == vs[1..][j - 1]; }
      }
    }
  }

  lemma ValueAt(ns: seq<Node>, m: Node) returns (i: nat)
    requires Stored(ns, m.id, m)
    ensures i < |Values(ns)| && Values(ns)[i] == m && KeyOrder(ns)[i] == m.id
  {
    LookupIsStored(ns, m.id, m);
    assert m.id in KeyOrder(ns);
    i :| 0 <= i < |KeyOrder(ns)| && KeyOrder(ns)[i] == m.id;
  }

  lemma FirstOfValues(ns: seq<Node>, p: Node -> bool)
    ensures IsFirst(ns, p, FirstWhere(Values(ns), p))
  {
    var vs, r := Values(ns), FirstWhere(Values(ns), p);
    var i := FirstWhereIs(vs, p);
    if r.Some? { LookupIsStored(ns, r.value.id, r.value); }
    forall m: Node | Stored(ns, m.id, m) && p(m)
      ensures r.Some? && (m == r.value || ComesBefore(ns, r.value.id, m.id))
    {
      var j := ValueAt(ns, m);
      if i < j { KeysInOrder(ns, i, j); }
    }
  }

  /** The trigger is the first stored node of that type. */
  lemma TriggerIsFirst(wf: Workflow)
    ensures IsFirst(wf.nodes, (n: Node) => n.kind.Trigger?, FindTrigger(wf))
  {
    FirstOfValues(wf.nodes, (n: Node) => n.kind.Trigger?);
  }

  /** One edge to each of the listed nodes. */
  function Fan(ids: seq<string>): (es: seq<Edge>)
    ensures |es| == |ids| && forall i :: 0 <= i < |ids| ==> es[i] == Edge("", ids[i], "")
  {
    seq(|ids|, i requires 0 <= i < |ids| => Edge("", ids[i], ""))
  }

  /** The listed body nodes are found like the ends of edges in the order of the list:
      those that exist, each as the node stored under its id. */
  lemma {:induction false} PresentAreSelected(wf: Workflow, ids: seq<string>)
    ensures Present(wf, ids) == Targets(wf.nodes, Fan(ids), "", None)
    ensures IsSelection(wf.nodes, Fan(ids), "", None, Present(wf, ids))
    decreases |ids|
  {
    if ids != [] {
      PresentAreSelected(wf, ids[..|ids| - 1]);
      assert Fan(ids)[..|ids| - 1] == Fan(ids[..|ids| - 1]);
    }
    TargetsAreSelected(wf.nodes, Fan(ids), "", None);
  }

  // ---- the class ----

  /** The edges of `edges` that leave (or, for `incoming`, enter) `id`, in order. */
  function EdgesAt(edges: seq<Edge>, id: string, incoming: bool): (es: seq<Edge>) {
    if edges == [] then []
    else
      var e := edges[|edges| - 1];
      var front := EdgesAt(edges[..|edges| - 1], id, incoming);
      if (if incoming then e.target else e.source) == id then front + [e] else front
  }

  ghost predicate IndexesNodes(ns: seq<Node>, nodes: map<string, Node>, order: seq<string>) {
    order == KeyOrder(ns) && (forall id :: id in order <==> id in nodes) &&
    forall id :: id in nodes ==> Lookup(ns, id) == Some(nodes[id])
  }

  lemma FindNode(ns: seq<Node>, nodes: map<string, Node>, order: seq<string>, id: string)
    requires IndexesNodes(ns, nodes, order)
    ensures Lookup(ns, id) == if id in nodes then Some(nodes[id]) else None
  {
    assert id in KeyOrder(ns) <==> Lookup(ns, id).Some?;
  }

  ghost predicate IndexesEdges(es: seq<Edge>, index: map<string, seq<Edge>>, incoming: bool) {
    forall id :: EdgesAt(es, id, incoming) == if id in index then index[id] else []
  }

  /** `if key not in index: index[key] = []`, then `index[key].append(edge)` */
  method AddEdge(index: map<string, seq<Edge>>, e: Edge, ghost es: seq<Edge>, incoming: bool)
      returns (index': map<string, seq<Edge>>)
    requires IndexesEdges(es, index, incoming)
    ensures IndexesEdges(es + [e], index', incoming)
  {
    var key := if incoming then e.target else e.source;
    assert (es + [e])[..|es|] == es;
    index' := index;
    if key !in index' {
      index' := index'[key := []];
    }
    index' := index'[key := index'[key] + [e]];
  }

  /** `self._nodes`, `self._adjacency` and `self._incoming`. */
  class Graph {
    var nodes: map<string, Node>
    var order: seq<string>
    var adjacency: map<string, seq<Edge>>
    var incoming: map<string, seq<Edge>>

    ghost predicate Indexes(ns: seq<Node>, es: seq<Edge>)
      reads this
    {
      IndexesNodes(ns, nodes, order) && IndexesEdges(es, adjacency, false) && IndexesEdges(es, incoming, true)
    }

    constructor (ns: seq<Node>, es: seq<Edge>)
      ensures Indexes(ns, es)
    {
      var byId: map<string, Node>, keys: seq<string> := map[], [];
      for i := 0 to |ns|
        invariant IndexesNodes(ns[..i], byId, keys)
      {
        var n := ns[i];
        assert ns[..i + 1][..i] == ns[..i];
        if n.id !in byId {
          keys := keys + [n.id];
        }
        byId := byId[n.id := n];
      }
      assert ns[..|ns|] == ns;
      var leaving: map<string, seq<Edge>>, entering: map<string, seq<Edge>> := map[], map[];
      for i := 0 to |es|
        invariant IndexesEdges(es[..i], leaving, false) && IndexesEdges(es[..i], entering, true)
      {
        assert es[..i + 1] == es[..i] + [es[i]];
        leaving := AddEdge(leaving, es[i], es[..i], false);
        entering := AddEdge(entering, es[i], es[..i], true);
      }
      assert es[..|es|] == es;
      nodes, order, adjacency, incoming := byId, keys, leaving, entering;
    }

    /** The successors found through the adjacency index are those found by filtering
        the plain edge list, in edge order. */
    method GetSuccessors(id: string, handle: Option<string>, ghost ns: seq<Node>, ghost es: seq<Edge>)
        returns (result: seq<Node>)
      requires Indexes(ns, es)
      ensures result == Targets(ns, es, id, handle)
      ensures IsSelection(ns, es, id, handle, result)
    {
      var edges := if id in adjacency then adjacency[id] else [];
      LeavesHere(es, id);
      assert edges == EdgesAt(es, id, false);
      result := FollowEdges(edges, id, handle, ns, es);
      IndexedTargets(ns, es, id, handle);
      TargetsAreSelected(ns, es, id, handle);
    }

    method FollowEdges(edges: seq<Edge>, id: string, handle: Option<string>, ghost ns: seq<Node>, ghost es: seq<Edge>)
        returns (result: seq<Node>)
      requires Indexes(ns, es) && forall e :: e in edges ==> e.source == id
      ensures result == Targets(ns, edges, id, handle)
    {
      result := [];
      for i := 0 to |edges|
        invariant result == Targets(ns, edges[..i], id, handle)
      {
        var e := edges[i];
        assert edges[..i + 1][..i] == edges[..i];
        assert e in edges && e.source == id;
        FindNode(ns, nodes, order, e.target);
        if handle.None? || e.sourceHandle == handle.value {
          if e.target in nodes {
            result := result + [nodes[e.target]];
          }
        }
      }
      assert edges[..|edges|] == edges;
    }

    method HandlerFor(failed: string, ghost wf: Workflow) returns (r: Option<Node>)
      requires Indexes(wf.nodes, wf.edges)
      ensures r == FindErrorHandler(wf, failed)
      ensures IsFirst(wf.nodes, (n: Node) => n.kind.ErrorHandler? && failed in n.kind.catchFrom, r)
    {
      FirstOfValues(wf.nodes, (n: Node) => n.kind.ErrorHandler? && failed in n.kind.catchFrom);
      ghost var vs := Values(wf.nodes);
      ghost var p := (n: Node) => n.kind.ErrorHandler? && failed in n.kind.catchFrom;
      for i := 0 to |order|
        invariant FirstWhere(vs, p) == FirstWhere(vs[i..], p)
      {
        var n := nodes[order[i]];
        assert vs[i..][0] == n && vs[i..][1..] == vs[i + 1..];
        if n.kind.ErrorHandler? && failed in n.kind.catchFrom {
          return Some(n);
        }
      }
      r := None;
    }
  }

  lemma {:induction false} LeavesHere(es: seq<Edge>, id: string)
    ensures forall e :: e in EdgesAt(es, id, false) ==> e.source == id
    decreases |es|
  {
    if es != [] { LeavesHere(es[..|es| - 1], id); }
  }

  lemma {:induction false} IndexedTargets(ns: seq<Node>, es: seq<Edge>, id: string, handle: Option<string>)
    ensures Targets(ns, EdgesAt(es, id, false), id, handle) == Targets(ns, es, id, handle)
    decreases |es|
  {
    if es != [] {
      var front, e := es[..|es| - 1], es[|es| - 1];
      IndexedTargets(ns, front, id, handle);
      var kept := EdgesAt(front, id, false);
      assert (kept + [e])[..|kept|] == kept;
    }
  }
}
