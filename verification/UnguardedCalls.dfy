/** The calls that start a node without the depth check: from a parallel node to a branch,
    and from a failed node to its error handler. The interpreter's termination rests on a
    rank that falls along them, and there is one exactly when they have no cycle. */
module UnguardedCalls {
  import opened Json
  import opened WorkflowGraph
  import opened WorkflowEngine

  predicate Starts(wf: Workflow, a: Node, b: Node) {
    IsNode(wf, a) &&
    ((a.kind.Parallel? && b in Successors(wf, a.id, Some("branch"))) || FindErrorHandler(wf, a.id) == Some(b))
  }

  function Calls(wf: Workflow): (Node, Node) -> bool {
    (a, b) => Starts(wf, a, b)
  }

  /** `path` leads from its first node to its last along such calls. */
  predicate Leads(calls: (Node, Node) -> bool, path: seq<Node>) {
    |path| >= 2 && forall i :: 0 <= i < |path| - 1 ==> StartsAt(calls, path, i)
  }

  predicate StartsAt(calls: (Node, Node) -> bool, path: seq<Node>, i: nat)
    requires i + 1 < |path|
  {
    calls(path[i], path[i + 1])
  }

  predicate IsCycle(wf: Workflow, path: seq<Node>) {
    Leads(Calls(wf), path) && path[0] == path[|path| - 1]
  }

  ghost predicate Acyclic(wf: Workflow) {
    forall path :: !IsCycle(wf, path)
  }

  ghost predicate Reaches(calls: (Node, Node) -> bool, a: Node, b: Node) {
    exists path :: Leads(calls, path) && path[0] == a && path[|path| - 1] == b
  }

  lemma {:induction false} RankFallsAlong(wf: Workflow, rank: map<string, nat>, path: seq<Node>)
    requires ValidRank(wf, rank) && Leads(Calls(wf), path)
    ensures RankIn(rank, path[|path| - 1].id) < RankIn(rank, path[0].id)
    decreases |path|
  {
    assert StartsAt(Calls(wf), path, 0);
    assert RanksFall(wf, rank, path[0]);
    if |path| > 2 {
      var rest := path[1..];
      forall i | 0 <= i < |rest| - 1 ensures StartsAt(Calls(wf), rest, i) { assert StartsAt(Calls(wf), path, i + 1); }
      RankFallsAlong(wf, rank, rest);
    }
  }

  lemma ReachesOne(calls: (Node, Node) -> bool, a: Node, b: Node)
    requires calls(a, b)
    ensures Reaches(calls, a, b)
  {
    var path := [a, b];
    assert StartsAt(calls, path, 0);
    assert Leads(calls, path) && path[|path| - 1] == b;
  }

  lemma ReachesOn(calls: (Node, Node) -> bool, a: Node, b: Node, c: Node)
    requires calls(a, b) && Reaches(calls, b, c)
    ensures Reaches(calls, a, c)
  {
    var path :| Leads(calls, path) && path[0] == b && path[|path| - 1] == c;
    var longer := [a] + path;
    forall i | 0 <= i < |longer| - 1 ensures StartsAt(calls, longer, i) {
      if i > 0 { assert StartsAt(calls, path, i - 1); }
    }
    assert Leads(calls, longer) && longer[|longer| - 1] == c;
  }

  lemma {:induction false} IsInNodes(nodes: seq<Node>, n: Node)
    requires Lookup(nodes, n.id) == Some(n)
    ensures n in nodes
  {
  }

  /** The nodes that `n` can start, directly or through others. */
  ghost function Reached(wf: Workflow, n: Node): set<Node> {
    set m | m in wf.nodes && Reaches(Calls(wf), n, m)
  }

  lemma FewerReached(wf: Workflow, a: Node, b: Node)
    requires Acyclic(wf) && Starts(wf, a, b) && IsNode(wf, b)
    ensures |Reached(wf, b)| < |Reached(wf, a)|
  {
    IsInNodes(wf.nodes, b);
    ReachesOne(Calls(wf), a, b);
    forall m | m in Reached(wf, b) ensures m in Reached(wf, a) { ReachesOn(Calls(wf), a, b, m); }
    if Reaches(Calls(wf), b, b) {
      var path :| Leads(Calls(wf), path) && path[0] == b && path[|path| - 1] == b;
      assert IsCycle(wf, path);
    }
    assert b in Reached(wf, a) && b !in Reached(wf, b);
    Smaller(Reached(wf, b), Reached(wf, a));
  }

  lemma Smaller(a: set<Node>, b: set<Node>)
    requires a < b
    ensures |a| < |b|
  {
    assert b == a + (b - a);
    assert b - a != {};
  }

  ghost function CountReached(wf: Workflow): map<string, nat> {
    map n | n in wf.nodes && IsNode(wf, n) :: n.id := |Reached(wf, n)|
  }

  lemma CountIs(wf: Workflow, n: Node)
    requires IsNode(wf, n)
    ensures RankIn(CountReached(wf), n.id) == |Reached(wf, n)|
  {
    IsInNodes(wf.nodes, n);
  }

  lemma CountIsRank(wf: Workflow)
    requires Acyclic(wf)
    ensures ValidRank(wf, CountReached(wf))
  {
    var rank := CountReached(wf);
    forall a, b | Starts(wf, a, b) && IsNode(wf, b) ensures RankIn(rank, b.id) < RankIn(rank, a.id) {
      CountIs(wf, a);
      CountIs(wf, b);
      FewerReached(wf, a, b);
    }
    forall n | IsNode(wf, n) ensures RanksFall(wf, rank, n) {
      if n.kind.Parallel? {
        forall s | s in Successors(wf, n.id, Some("branch")) ensures RankIn(rank, s.id) < RankIn(rank, n.id) {
          assert Starts(wf, n, s);
        }
      }
      if FindErrorHandler(wf, n.id).Some? { assert Starts(wf, n, FindErrorHandler(wf, n.id).value); }
    }
  }

  /** A workflow has the rank that termination needs exactly when no cycle of branch edges
      of parallel nodes and of error handlers starts a node again. */
  lemma RankedExactlyWithoutCycles(wf: Workflow)
    ensures Ranked(wf) <==> Acyclic(wf)
  {
    if Ranked(wf) {
      var rank :| ValidRank(wf, rank);
      forall path ensures !IsCycle(wf, path) {
        if IsCycle(wf, path) { RankFallsAlong(wf, rank, path); }
      }
    }
    if Acyclic(wf) { CountIsRank(wf); }
  }
}
