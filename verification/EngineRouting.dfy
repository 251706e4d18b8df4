/** Routing: without failures, the results of a run are the depth-first enumeration of
    the paths that the selected handles lead along. */
module EngineRouting {
  import opened Json
  import opened WorkflowGraph
  import opened WorkflowEngine
  import opened EngineCausality

  /** What a node does after it ran: nothing (a filter that filtered, a response), or
      follow its edges, all of them or those with the selected handle. */
  datatype Route = Halt | Follow(handle: Option<string>)

  /** A visit of a node: the context and the calls before it, the calls of its own, and
      the visits it led to. */
  datatype Tree = Tree(node: Node, view: View, hist: seq<Call>, own: seq<Call>, kids: seq<Tree>)

  function Roots(ts: seq<Tree>): (ns: seq<Node>)
    ensures |ns| == |ts| && forall i :: 0 <= i < |ts| ==> ns[i] == ts[i].node
  {
    seq(|ts|, i requires 0 <= i < |ts| => ts[i].node)
  }

  function RouteOf(next: Next): Route {
    match next
    case Pass => Halt
    case Answer(_) => Halt
    case Go(_, handle) => Follow(handle)
  }

  /** The route that the oracle's reply selects; a node that asks nothing follows all its
      edges. */
  function Selected(r: Run, n: Node, v: View, h: seq<Call>): Route {
    if !IsLeaf(n.kind) then Follow(None)
    else
      var reply := Ask(r, n, v, h).reply;
      if reply.Done? then RouteOf(LeafNext(n, v, reply)) else Halt
  }

  function Followed(r: Run, n: Node, route: Route): seq<Node> {
    if route.Halt? then [] else Successors(r.wf, n.id, route.handle)
  }

  /** A computed node makes one call, a sub-workflow node those of its child, and another
      node none. */
  ghost predicate OwnCalls(r: Run, n: Node, v: View, h: seq<Call>, own: seq<Call>)
    requires Sound(r)
  {
    own == if IsLeaf(n.kind) then [Ask(r, n, v, h)]
           else if n.kind.SubWorkflow? then SubBody(r, n, v, h).out.calls
           else []
  }

  /** The calls of a visit and of all it led to, and of a forest, in order. */
  function CallsOf(t: Tree): seq<Call> {
    t.own + AllCalls(t.kids)
  }

  function AllCalls(ts: seq<Tree>): seq<Call> {
    if ts == [] then [] else CallsOf(ts[0]) + AllCalls(ts[1..])
  }

  /** The visit comes right after the calls `h`, makes its own calls, and leads to visits
      of exactly the targets of the edges that the reply to them selects, in edge order. */
  ghost predicate WellRouted(r: Run, t: Tree, h: seq<Call>)
    requires Sound(r)
  {
    IsNode(r.wf, t.node) && t.hist == h && OwnCalls(r, t.node, t.view, h, t.own) &&
    Roots(t.kids) == Followed(r, t.node, Selected(r, t.node, t.view, h)) &&
    AllRouted(r, t.kids, h + t.own)
  }

  /** Each visit comes right after all that the visits before it called. */
  ghost predicate AllRouted(r: Run, ts: seq<Tree>, h: seq<Call>)
    requires Sound(r)
  {
    ts == [] || (WellRouted(r, ts[0], h) && AllRouted(r, ts[1..], h + CallsOf(ts[0])))
  }

  // ---- the same, edge by edge ----

  /** Nothing follows a response, a filter whose reply is not true, or a raised error. */
  predicate Stops(k: Kind, reply: Reply) {
    k.Response? || reply.Raised? || (k.Filter? && reply.output != Bool(true))
  }

  /** The visits that follow are the ends of exactly the edges out of the node, in edge
      order: of a condition or switch, those whose handle is the one its reply names. */
  ghost predicate NextEdges(wf: Workflow, n: Node, own: seq<Call>, next: seq<Node>) {
    if !IsLeaf(n.kind) then IsSelection(wf.nodes, wf.edges, n.id, None, next)
    else
      |own| == 1 &&
      if Stops(n.kind, own[0].reply) then next == []
      else
        var handle := if n.kind.Condition? || n.kind.Switch? then Some(own[0].reply.handle) else None;
        IsSelection(wf.nodes, wf.edges, n.id, handle, next)
  }

  ghost predicate EdgeByEdge(wf: Workflow, t: Tree) {
    NextEdges(wf, t.node, t.own, Roots(t.kids)) && AllEdgeByEdge(wf, t.kids)
  }

  ghost predicate AllEdgeByEdge(wf: Workflow, ts: seq<Tree>) {
    ts == [] || (EdgeByEdge(wf, ts[0]) && AllEdgeByEdge(wf, ts[1..]))
  }

  lemma SelectedAreNext(r: Run, n: Node, v: View, h: seq<Call>, own: seq<Call>)
    requires IsLeaf(n.kind) ==> own == [Ask(r, n, v, h)]
    ensures NextEdges(r.wf, n, own, Followed(r, n, Selected(r, n, v, h)))
  {
    var route := Selected(r, n, v, h);
    if route.Follow? { TargetsAreSelected(r.wf.nodes, r.wf.edges, n.id, route.handle); }
  }

  lemma {:induction false} RoutedEdgeByEdge(r: Run, t: Tree, h: seq<Call>)
    requires Sound(r) && WellRouted(r, t, h)
    ensures EdgeByEdge(r.wf, t)
    decreases t
  {
    SelectedAreNext(r, t.node, t.view, h, t.own);
    AllRoutedEdgeByEdge(r, t.kids, h + t.own);
  }

  lemma {:induction false} AllRoutedEdgeByEdge(r: Run, ts: seq<Tree>, h: seq<Call>)
    requires Sound(r) && AllRouted(r, ts, h)
    ensures AllEdgeByEdge(r.wf, ts)
    decreases ts
  {
    if ts != [] {
      RoutedEdgeByEdge(r, ts[0], h);
      AllRoutedEdgeByEdge(r, ts[1..], h + CallsOf(ts[0]));
    }
  }

  /** A visited node and the context it was visited in. */
  datatype Visit = Visit(id: string, view: View)

  /** The depth-first enumeration of a forest. */
  function Preorder(ts: seq<Tree>): seq<Visit> {
    if ts == [] then [] else [Visit(ts[0].node.id, ts[0].view)] + Preorder(ts[0].kids) + Preorder(ts[1..])
  }

  /** The visits that results record: node and replay state. */
  function Visits(log: seq<Entry>): (visits: seq<Visit>)
    ensures |visits| == |log| && forall i :: 0 <= i < |log| ==> visits[i] == Visit(log[i].nodeId, log[i].replay)
  {
    seq(|log|, i requires 0 <= i < |log| => Visit(log[i].nodeId, log[i].replay))
  }

  /** No result is a failure or came from a retry. */
  predicate FailureFree(log: seq<Entry>) {
    forall i :: 0 <= i < |log| ==> !log[i].status.Failed? && log[i].retries == 0
  }

  /** Only nodes that run once per visit: no loop, batch or parallel node. */
  ghost predicate Sequential(wf: Workflow) {
    forall n {:trigger RunsOnce(wf, n)} :: IsNode(wf, n) ==> RunsOnce(wf, n)
  }

  predicate RunsOnce(wf: Workflow, n: Node) {
    !n.kind.Loop? && !n.kind.Batch? && !n.kind.Parallel?
  }

  // ---- a failure always leaves a mark ----

  lemma AttemptMarks(r: Run, n: Node, p: Pending, k: nat, h: seq<Call>, d: nat)
    requires Sound(r) && IsNode(r.wf, n) && k > 0
    ensures var q := OneAttempt(r, n, p, k, h, d); q.out.err.None? ==> !FailureFree(q.out.log)
  {
    var q := OneAttempt(r, n, p, k, h, d);
    if q.out.err.None? { assert q.out.log[|p.out.log|].retries == k; }
  }

  lemma {:induction false} AttemptsMark(r: Run, n: Node, p: Pending, k: nat, h: seq<Call>, d: nat)
    requires Sound(r) && IsNode(r.wf, n) && 1 <= k <= RetriesOf(r.wf, n)
    ensures var q := Attempts(r, n, p, k, h, d); q.out.err.None? ==> !FailureFree(q.out.log)
    decreases RetriesOf(r.wf, n) - k
  {
    AttemptMarks(r, n, p, k, h, d);
    var p1 := OneAttempt(r, n, p, k, h, d);
    if p1.out.err.Some? && k < RetriesOf(r.wf, n) { AttemptsMark(r, n, p1, k + 1, h, d); }
  }

  lemma GiveUpMarks(r: Run, n: Node, p: Pending, e: string, h: seq<Call>, d: nat)
    requires Sound(r) && IsNode(r.wf, n)
    ensures !FailureFree(GiveUp(r, n, p, e, h, d).log)
  {
    var failed := Append(p, p.entry.(status := Failed, error := Some(e))).out.log;
    assert failed[|p.out.log|].status.Failed?;
    GiveUpExtends(r, n, p, e, h, d);
    assert GiveUp(r, n, p, e, h, d).log[|p.out.log|] == failed[|p.out.log|];
  }

  lemma GiveUpExtends(r: Run, n: Node, p: Pending, e: string, h: seq<Call>, d: nat)
    requires Sound(r) && IsNode(r.wf, n)
    ensures Append(p, p.entry.(status := Failed, error := Some(e))).out.log <= GiveUp(r, n, p, e, h, d).log
  {
  }

  lemma RecoverMarks(r: Run, n: Node, p: Pending, v: View, h: seq<Call>, d: nat)
    requires Sound(r) && IsNode(r.wf, n) && p.out.err.Some? && v.vars.Keys <= p.out.view.vars.Keys
    ensures !FailureFree(Recover(r, n, p, v, h, d).log)
  {
    var e := p.out.err.value;
    if PolicyOf(r.wf, n).Retry? && RetriesOf(r.wf, n) > 0 && Retryable(n.kind) {
      AttemptsMark(r, n, p, 1, h, d);
      var p' := Attempts(r, n, p, 1, h, d);
      if p'.out.err.Some? { GiveUpMarks(r, n, p', e, h, d); }
    } else {
      GiveUpMarks(r, n, p, e, h, d);
    }
  }

  // ---- the forest of a run ----

  lemma FreeParts(a: seq<Entry>, b: seq<Entry>)
    requires FailureFree(a + b)
    ensures FailureFree(a) && FailureFree(b)
  {
    forall i | 0 <= i < |a| ensures !a[i].status.Failed? && a[i].retries == 0 { assert (a + b)[i] == a[i]; }
    forall i | 0 <= i < |b| ensures !b[i].status.Failed? && b[i].retries == 0 { assert (a + b)[|a| + i] == b[i]; }
  }

  lemma {:induction false} NodesForest(r: Run, ns: seq<Node>, v: View, h: seq<Call>, d: nat) returns (ts: seq<Tree>)
    requires Sound(r) && Sequential(r.wf) && forall n :: n in ns ==> IsNode(r.wf, n)
    requires var out := Nodes(r, ns, v, h, d); out.err.None? && FailureFree(out.log)
    ensures Forest(r, ts, ns, h, Nodes(r, ns, v, h, d))
    decreases Room(r), NodesLevel(d), 0, 2
  {
    ts := NodesFromForest(r, ns, v, h, d);
  }

  /** The forest grows from these nodes, makes these calls and enumerates to these results. */
  ghost predicate Forest(r: Run, ts: seq<Tree>, ns: seq<Node>, h: seq<Call>, out: Out)
    requires Sound(r)
  {
    Roots(ts) == ns && AllRouted(r, ts, h) && AllCalls(ts) == out.calls && Visits(out.log) == Preorder(ts)
  }

  ghost predicate TreeOf(r: Run, t: Tree, n: Node, v: View, h: seq<Call>, out: Out)
    requires Sound(r)
  {
    t.node == n && t.view == v && WellRouted(r, t, h) && CallsOf(t) == out.calls &&
    Visits(out.log) == [Visit(n.id, v)] + Preorder(t.kids)
  }

  lemma VisitsJoin(a: seq<Entry>, b: seq<Entry>)
    ensures Visits(a + b) == Visits(a) + Visits(b)
  {
  }

  lemma PreorderOn(t: Tree, rest: seq<Tree>)
    ensures Preorder([t] + rest) == [Visit(t.node.id, t.view)] + Preorder(t.kids) + Preorder(rest)
    ensures Roots([t] + rest) == [t.node] + Roots(rest)
  {
    assert ([t] + rest)[1..] == rest;
  }

  lemma RoutedOn(r: Run, t: Tree, rest: seq<Tree>, h: seq<Call>)
    requires Sound(r) && WellRouted(r, t, h) && AllRouted(r, rest, h + CallsOf(t))
    ensures AllRouted(r, [t] + rest, h) && AllCalls([t] + rest) == CallsOf(t) + AllCalls(rest)
  {
    assert ([t] + rest)[1..] == rest;
  }

  lemma ForestOn(r: Run, t: Tree, rest: seq<Tree>, n: Node, ns: seq<Node>, v: View, h: seq<Call>, a: Out, b: Out)
    requires Sound(r) && TreeOf(r, t, n, v, h, a) && Forest(r, rest, ns, h + a.calls, b)
    ensures Forest(r, [t] + rest, [n] + ns, h, Then(a, b))
  {
    VisitsJoin(a.log, b.log);
    PreorderOn(t, rest);
    RoutedOn(r, t, rest, h);
  }

  lemma {:induction false} NodesFromForest(r: Run, ns: seq<Node>, v: View, h: seq<Call>, d: nat) returns (ts: seq<Tree>)
    requires Sound(r) && Sequential(r.wf) && (forall n :: n in ns ==> IsNode(r.wf, n)) && d <= MAX_DEPTH
    requires var out := NodesFrom(r, ns, v, h, d); out.err.None? && FailureFree(out.log)
    ensures Forest(r, ts, ns, h, NodesFrom(r, ns, v, h, d))
    decreases Room(r), NodesLevel(d), 0, 1, |ns|
  {
    if ns == [] {
      ts := [];
    } else {
      var a := Single(r, ns[0], v, h, d);
      var b := NodesFrom(r, ns[1..], a.view, h + a.calls, d);
      FreeParts(a.log, b.log);
      var t := SingleTree(r, ns[0], v, h, d);
      var rest := NodesFromForest(r, ns[1..], a.view, h + a.calls, d);
      ForestOn(r, t, rest, ns[0], ns[1..], v, h, a, b);
      ts := [t] + rest;
      assert ns == [ns[0]] + ns[1..];
    }
  }

  lemma {:induction false} SingleTree(r: Run, n: Node, v: View, h: seq<Call>, d: nat) returns (t: Tree)
    requires Sound(r) && Sequential(r.wf) && IsNode(r.wf, n)
    requires var out := Single(r, n, v, h, d); out.err.None? && FailureFree(out.log)
    ensures TreeOf(r, t, n, v, h, Single(r, n, v, h, d))
    decreases Room(r), Level(d), Rank(r, n), 9
  {
    var p := Try(r, n, v, h, d);
    if p.out.err.Some? { RecoverMarks(r, n, p, v, h, d); }
    t := TryTree(r, n, v, h, d);
  }

  /** Without loops and concurrency, a node's own work leaves no results, makes its own
      call first, and goes on as the reply selects. */
  lemma BodyIsQuiet(r: Run, n: Node, v: View, h: seq<Call>, d: nat)
    requires Sound(r) && Sequential(r.wf) && IsNode(r.wf, n)
    ensures var b := Body(r, n, v, h, d);
            b.out.log == [] && OwnCalls(r, n, v, h, b.out.calls) &&
            (b.out.err.None? ==> RouteOf(b.next) == Selected(r, n, v, h))
  {
    assert RunsOnce(r.wf, n);
  }

  lemma {:induction false} TryTree(r: Run, n: Node, v: View, h: seq<Call>, d: nat) returns (t: Tree)
    requires Sound(r) && Sequential(r.wf) && IsNode(r.wf, n)
    requires var p := Try(r, n, v, h, d); p.out.err.None? && FailureFree(p.out.log)
    ensures TreeOf(r, t, n, v, h, Try(r, n, v, h, d).out)
    decreases Room(r), Level(d), Rank(r, n), 8
  {
    BodyIsQuiet(r, n, v, h, d);
    var b := Body(r, n, v, h, d);
    if b.next.Go? {
      var p1 := Append(Pending(b.out, Open(n, v), {}), Succeeded(Open(n, v), b.next.output));
      var p2 := p1.(out := p1.out.(view := Store(b.out.view, n, b.next.output)));
      t := FollowUpTree(r, n, v, p2, b.next.handle, h, d);
    } else {
      t := Tree(n, v, h, b.out.calls, []);
    }
  }

  lemma {:induction false} FollowUpTree(r: Run, n: Node, v: View, p: Pending, handle: Option<string>, h: seq<Call>,
                                        d: nat)
      returns (t: Tree)
    requires Sound(r) && Sequential(r.wf) && IsNode(r.wf, n) && Selected(r, n, v, h) == Follow(handle)
    requires OwnCalls(r, n, v, h, p.out.calls) && Visits(p.out.log) == [Visit(n.id, v)]
    requires var q := FollowUp(r, n, p, handle, h, d); q.out.err.None? && FailureFree(q.out.log)
    ensures TreeOf(r, t, n, v, h, FollowUp(r, n, p, handle, h, d).out)
    decreases Room(r), Level(d), Rank(r, n), 1
  {
    var ss := Successors(r.wf, n.id, handle);
    if ss == [] {
      t := Tree(n, v, h, p.out.calls, []);
    } else {
      var more := Nodes(r, ss, p.out.view, h + p.out.calls, d + 1);
      FreeParts(p.out.log, more.log);
      var kids := NodesForest(r, ss, p.out.view, h + p.out.calls, d + 1);
      t := Tree(n, v, h, p.out.calls, kids);
      TreeOn(r, t, handle, h, p.out, more);
    }
  }

  lemma TreeOn(r: Run, t: Tree, handle: Option<string>, h: seq<Call>, a: Out, more: Out)
    requires Sound(r) && IsNode(r.wf, t.node) && t.hist == h && Selected(r, t.node, t.view, h) == Follow(handle)
    requires OwnCalls(r, t.node, t.view, h, t.own) && t.own == a.calls && Visits(a.log) == [Visit(t.node.id, t.view)]
    requires Forest(r, t.kids, Successors(r.wf, t.node.id, handle), h + a.calls, more)
    ensures TreeOf(r, t, t.node, t.view, h, Then(a, more))
  {
    VisitsJoin(a.log, more.log);
  }

  /** The results of a failure-free execution without loops, batches and branches are
      the trigger's and then the depth-first enumeration of a forest of visits. It starts
      with the trigger's successors, and from every visit, whose context is the result's
      replay state and whose calls come right after those of the visits before it, it goes
      on along exactly the edges that the reply to its call selects. These calls are all
      that the execution makes. */
  lemma ExecutionFollowsRoutes(r: Run, h: seq<Call>) returns (ts: seq<Tree>)
    requires Sound(r) && Sequential(r.wf) && FindTrigger(r.wf).Some?
    requires Execute(r, h).err.None? && FailureFree(Execute(r, h).log)
    ensures var t, out := FindTrigger(r.wf).value, Execute(r, h);
            Roots(ts) == Successors(r.wf, t.id, None) && AllRouted(r, ts, h) && AllCalls(ts) == out.calls &&
            Visits(out.log) == [Visit(t.id, TriggerView(r, t))] + Preorder(ts)
    ensures IsSelection(r.wf.nodes, r.wf.edges, FindTrigger(r.wf).value.id, None, Roots(ts)) && AllEdgeByEdge(r.wf, ts)
  {
    var t := FindTrigger(r.wf).value;
    var ss := Successors(r.wf, t.id, None);
    TargetsAreSelected(r.wf.nodes, r.wf.edges, t.id, None);
    ExecuteIs(r, t, h);
    ts := BodyForest(r, t, Execute(r, h), Nodes(r, ss, TriggerView(r, t), h, 0), h);
    AllRoutedEdgeByEdge(r, ts, h);
  }

  lemma BodyForest(r: Run, t: Node, out: Out, body: Out, h: seq<Call>) returns (ts: seq<Tree>)
    requires Sound(r) && Sequential(r.wf)
    requires body == Nodes(r, Successors(r.wf, t.id, None), TriggerView(r, t), h, 0)
    requires out == Then(TriggerOut(r, t), body) && out.err.None? && FailureFree(out.log)
    ensures Roots(ts) == Successors(r.wf, t.id, None) && AllRouted(r, ts, h) && AllCalls(ts) == out.calls
    ensures Visits(out.log) == [Visit(t.id, TriggerView(r, t))] + Preorder(ts)
  {
    FreeParts(TriggerOut(r, t).log, body.log);
    ts := NodesForest(r, Successors(r.wf, t.id, None), TriggerView(r, t), h, 0);
    VisitsJoin(TriggerOut(r, t).log, body.log);
    assert TriggerOut(r, t).calls + body.calls == body.calls;
  }

  // ---- how often a node runs ----

  function Count(visits: seq<Visit>, x: string): nat {
    if visits == [] then 0 else (if visits[0].id == x then 1 else 0) + Count(visits[1..], x)
  }

  lemma {:induction false} CountJoins(a: seq<Visit>, b: seq<Visit>, x: string)
    ensures Count(a + b, x) == Count(a, x) + Count(b, x)
    decreases |a|
  {
    if a == [] {
      assert a + b == b;
    } else {
      assert (a + b)[1..] == a[1..] + b;
      CountJoins(a[1..], b, x);
    }
  }

  /** Every routed path from a root of the forest to a visit of `x`, as the node ids on it. */
  function PathsTo(ts: seq<Tree>, x: string): seq<seq<string>> {
    if ts == [] then []
    else
      (if ts[0].node.id == x then [[x]] else []) +
      Prepend(ts[0].node.id, PathsTo(ts[0].kids, x)) + PathsTo(ts[1..], x)
  }

  function Prepend(id: string, ps: seq<seq<string>>): (r: seq<seq<string>>)
    ensures |r| == |ps|
  {
    seq(|ps|, i requires 0 <= i < |ps| => [id] + ps[i])
  }

  lemma {:induction false} CountIsPaths(ts: seq<Tree>, x: string)
    ensures Count(Preorder(ts), x) == |PathsTo(ts, x)|
    decreases ts
  {
    if ts != [] {
      var t := ts[0];
      var visit := Visit(t.node.id, t.view);
      CountJoins([visit] + Preorder(t.kids), Preorder(ts[1..]), x);
      CountJoins([visit], Preorder(t.kids), x);
      CountIsPaths(t.kids, x);
      CountIsPaths(ts[1..], x);
    }
  }

  /** In such an execution a node runs exactly as often as routed paths lead to it; the
      trigger has one result of its own. */
  lemma RunsOncePerPath(r: Run, h: seq<Call>, x: string) returns (ts: seq<Tree>)
    requires Sound(r) && Sequential(r.wf) && FindTrigger(r.wf).Some?
    requires Execute(r, h).err.None? && FailureFree(Execute(r, h).log)
    ensures var t, out := FindTrigger(r.wf).value, Execute(r, h);
            Roots(ts) == Successors(r.wf, t.id, None) && AllRouted(r, ts, h) && AllCalls(ts) == out.calls &&
            Count(Visits(out.log), x) == |PathsTo(ts, x)| + (if x == t.id then 1 else 0)
  {
    var t := FindTrigger(r.wf).value;
    ts := ExecutionFollowsRoutes(r, h);
    CountJoins([Visit(t.id, TriggerView(r, t))], Preorder(ts), x);
    CountIsPaths(ts, x);
  }
}
