/** The depth limit: which workflows never hit it, whatever the connectors do, and which
    workflows that continue after every failure fail because of it. */
module EngineDepth {
  import opened Json
  import opened WorkflowGraph
  import opened WorkflowEngine
  import opened EngineContainment

  // ---- workflows that never hit the limit ----

  function LevelIn(level: map<string, nat>, n: Node): nat {
    if n.id in level then level[n.id] else 0
  }

  /** What `n` can start has a lower level: its successors, its batch body, its handler. */
  predicate Falls(wf: Workflow, level: map<string, nat>, n: Node) {
    (forall s :: s in Successors(wf, n.id, None) ==> LevelIn(level, s) < LevelIn(level, n)) &&
    (n.kind.Batch? ==> forall s :: s in Present(wf, n.kind.bodyNodes) ==> LevelIn(level, s) < LevelIn(level, n)) &&
    (FindErrorHandler(wf, n.id).Some? ==> LevelIn(level, FindErrorHandler(wf, n.id).value) < LevelIn(level, n))
  }

  ghost predicate Layered(wf: Workflow, level: map<string, nat>) {
    forall n {:trigger Falls(wf, level, n)} :: IsNode(wf, n) ==> Falls(wf, level, n)
  }

  lemma {:induction false} HandleTargets(nodes: seq<Node>, edges: seq<Edge>, id: string, handle: Option<string>,
                                         s: Node)
    requires s in Targets(nodes, edges, id, handle)
    ensures s in Targets(nodes, edges, id, None)
  {
    var k := |edges| - 1;
    if s in Targets(nodes, edges[..k], id, handle) { HandleTargets(nodes, edges[..k], id, handle, s); }
  }

  /** These nodes may start at depth `d` without the limit being hit. */
  ghost predicate Fit(wf: Workflow, level: map<string, nat>, ns: seq<Node>, d: nat) {
    Layered(wf, level) && d <= MAX_DEPTH && forall n :: n in ns ==> FitsAt(wf, level, n, d)
  }

  ghost predicate FitsAt(wf: Workflow, level: map<string, nat>, n: Node, d: nat) {
    Layered(wf, level) && IsNode(wf, n) && LevelIn(level, n) + d <= MAX_DEPTH
  }

  /** What a node can start fits one deeper. */
  lemma SuccessorsFit(wf: Workflow, level: map<string, nat>, n: Node, handle: Option<string>, d: nat)
    requires FitsAt(wf, level, n, d)
    ensures Successors(wf, n.id, handle) != [] ==> Fit(wf, level, Successors(wf, n.id, handle), d + 1)
  {
    assert Falls(wf, level, n);
    forall s | s in Successors(wf, n.id, handle) ensures FitsAt(wf, level, s, d + 1) {
      HandleTargets(wf.nodes, wf.edges, n.id, handle, s);
    }
    if Successors(wf, n.id, handle) != [] { assert Successors(wf, n.id, handle)[0] in Successors(wf, n.id, handle); }
  }

  lemma BatchNodesFit(r: Run, level: map<string, nat>, n: Node, d: nat)
    requires FitsAt(r.wf, level, n, d) && n.kind.Batch?
    ensures BatchNodes(r, n) != [] ==> Fit(r.wf, level, BatchNodes(r, n), d + 1)
  {
    assert Falls(r.wf, level, n);
    SuccessorsFit(r.wf, level, n, Some("body"), d);
    if BatchNodes(r, n) != [] { assert BatchNodes(r, n)[0] in BatchNodes(r, n); }
  }

  lemma HandlerFits(wf: Workflow, level: map<string, nat>, n: Node, d: nat)
    requires FitsAt(wf, level, n, d) && FindErrorHandler(wf, n.id).Some?
    ensures FitsAt(wf, level, FindErrorHandler(wf, n.id).value, d + 1)
  {
    assert Falls(wf, level, n);
  }

  lemma {:induction false} NodesStay(r: Run, level: map<string, nat>, ns: seq<Node>, v: View, h: seq<Call>, d: nat)
    requires Sound(r) && Fit(r.wf, level, ns, d)
    ensures !Nodes(r, ns, v, h, d).guard
    decreases Room(r), NodesLevel(d), 0, 2
  {
    NodesFromStay(r, level, ns, v, h, d);
  }

  lemma {:induction false} NodesFromStay(r: Run, level: map<string, nat>, ns: seq<Node>, v: View, h: seq<Call>, d: nat)
    requires Sound(r) && Fit(r.wf, level, ns, d)
    ensures !NodesFrom(r, ns, v, h, d).guard
    decreases Room(r), NodesLevel(d), 0, 1, |ns|
  {
    if ns != [] {
      SingleStays(r, level, ns[0], v, h, d);
      var a := Single(r, ns[0], v, h, d);
      if a.err.None? { NodesFromStay(r, level, ns[1..], a.view, h + a.calls, d); }
    }
  }

  lemma {:induction false} SingleStays(r: Run, level: map<string, nat>, n: Node, v: View, h: seq<Call>, d: nat)
    requires Sound(r) && FitsAt(r.wf, level, n, d)
    ensures !Single(r, n, v, h, d).guard
    decreases Room(r), Level(d), Rank(r, n), 9
  {
    TryStays(r, level, n, v, h, d);
    var p := Try(r, n, v, h, d);
    if p.out.err.Some? { RecoverStays(r, level, n, p, v, h, d); }
  }

  lemma {:induction false} TryStays(r: Run, level: map<string, nat>, n: Node, v: View, h: seq<Call>, d: nat)
    requires Sound(r) && FitsAt(r.wf, level, n, d)
    ensures !Try(r, n, v, h, d).out.guard
    decreases Room(r), Level(d), Rank(r, n), 8
  {
    BodyStays(r, level, n, v, h, d);
    var b := Body(r, n, v, h, d);
    if b.out.err.None? && b.next.Go? {
      var p1 := Append(Pending(b.out, Open(n, v), {}), Succeeded(Open(n, v), b.next.output));
      FollowUpStays(r, level, n, p1.(out := p1.out.(view := Store(b.out.view, n, b.next.output))), b.next.handle, h, d);
    }
  }

  lemma {:induction false} FollowUpStays(r: Run, level: map<string, nat>, n: Node, p: Pending, handle: Option<string>,
                                         h: seq<Call>, d: nat)
    requires Sound(r) && FitsAt(r.wf, level, n, d) && !p.out.guard
    ensures !FollowUp(r, n, p, handle, h, d).out.guard
    decreases Room(r), Level(d), Rank(r, n), 1
  {
    var ss := Successors(r.wf, n.id, handle);
    SuccessorsFit(r.wf, level, n, handle, d);
    if ss != [] { NodesStay(r, level, ss, p.out.view, h + p.out.calls, d + 1); }
  }

  lemma {:induction false} BodyStays(r: Run, level: map<string, nat>, n: Node, v: View, h: seq<Call>, d: nat)
    requires Sound(r) && FitsAt(r.wf, level, n, d)
    ensures !Body(r, n, v, h, d).out.guard
    decreases Room(r), Level(d), Rank(r, n), 7
  {
    match n.kind
    case Loop(_, _, _, _) => LoopStays(r, level, n, v, h, d);
    case Parallel => ParallelStays(r, level, n, v, h, d);
    case Batch(_, _, _, _, _) => BatchStays(r, level, n, v, h, d);
    case _ =>
  }

  lemma {:induction false} LoopStays(r: Run, level: map<string, nat>, n: Node, v: View, h: seq<Call>, d: nat)
    requires Sound(r) && FitsAt(r.wf, level, n, d) && n.kind.Loop?
    ensures !LoopBody(r, n, v, h, d).out.guard
    decreases Room(r), Level(d), Rank(r, n), 6
  {
    var list := ResolveValue(n.kind.arrayField, v, r.trigger);
    if list.Arr? { IterateStays(r, level, n, Prefix(list.items, Min(n.kind.maxIterations, 1000)), 0, v, h, d); }
  }

  lemma {:induction false} IterateStays(r: Run, level: map<string, nat>, n: Node, items: seq<Json>, i: nat, v: View,
                                        h: seq<Call>, d: nat)
    requires Sound(r) && FitsAt(r.wf, level, n, d) && n.kind.Loop? && i <= |items|
    ensures !Iterate(r, n, items, i, v, h, d).out.guard
    decreases Room(r), Level(d), Rank(r, n), 4, |items| - i
  {
    if i < |items| {
      var bound := v.(vars := v.vars[n.kind.itemVar := items[i]][n.kind.indexVar := Num(i as real)]);
      var body := Successors(r.wf, n.id, Some("default"));
      SuccessorsFit(r.wf, level, n, Some("default"), d);
      RunBodyStays(r, level, body, bound, h, d);
      var a := RunBody(r, body, bound, h, d);
      if a.err.None? { IterateStays(r, level, n, items, i + 1, a.view, h + a.calls, d); }
    }
  }

  lemma {:induction false} RunBodyStays(r: Run, level: map<string, nat>, body: seq<Node>, v: View, h: seq<Call>, d: nat)
    requires Sound(r) && (body != [] ==> Fit(r.wf, level, body, d + 1)) && forall n :: n in body ==> IsNode(r.wf, n)
    ensures !RunBody(r, body, v, h, d).guard
    decreases Room(r), Level(d), 0, 3
  {
    if body != [] { NodesStay(r, level, body, v, h, d + 1); }
  }

  lemma {:induction false} ParallelStays(r: Run, level: map<string, nat>, n: Node, v: View, h: seq<Call>, d: nat)
    requires Sound(r) && FitsAt(r.wf, level, n, d) && n.kind.Parallel?
    ensures !ParallelBody(r, n, v, h, d).out.guard
    decreases Room(r), Level(d), Rank(r, n), 6
  {
    var ss := Successors(r.wf, n.id, Some("branch"));
    SuccessorsFit(r.wf, level, n, Some("branch"), d);
    if ss != [] { ScatterStays(r, level, n, ss, v, h, d); }
  }

  lemma {:induction false} ScatterStays(r: Run, level: map<string, nat>, n: Node, ss: seq<Node>, v: View, h: seq<Call>,
                                        d: nat)
    requires Sound(r) && IsNode(r.wf, n) && n.kind.Parallel? && AreBranches(r, n, ss) && Fit(r.wf, level, ss, d + 1)
    ensures !Scatter(r, n, ss, v, h, d).guard
    decreases Room(r), Level(d), Rank(r, n), 4, |ss|
  {
    if ss != [] {
      var front, s := ss[..|ss| - 1], ss[|ss| - 1];
      ScatterStays(r, level, n, front, v, h, d);
      BranchRank(r, n, s);
      SingleStays(r, level, s, v, h + Scatter(r, n, front, v, h, d).calls, d + 1);
    }
  }

  lemma {:induction false} BatchStays(r: Run, level: map<string, nat>, n: Node, v: View, h: seq<Call>, d: nat)
    requires Sound(r) && FitsAt(r.wf, level, n, d) && n.kind.Batch?
    ensures !BatchBody(r, n, v, h, d).out.guard
    decreases Room(r), Level(d), Rank(r, n), 6
  {
    var items := BatchItems(r, n, v);
    if items.Some? && n.kind.concurrency >= 0 { ProcessStays(r, level, n, items.value, 0, v, h, d); }
  }

  lemma {:induction false} ProcessStays(r: Run, level: map<string, nat>, n: Node, items: seq<Json>, i: nat, v: View,
                                        h: seq<Call>, d: nat)
    requires Sound(r) && FitsAt(r.wf, level, n, d) && n.kind.Batch? && i <= |items|
    ensures !Process(r, n, items, i, v, h, d).guard
    decreases Room(r), Level(d), Rank(r, n), 4, |items| - i
  {
    if i < |items| {
      var a := RunBody(r, BatchNodes(r, n), ItemView(v, items[i], i), h, d);
      BatchNodesFit(r, level, n, d);
      RunBodyStays(r, level, BatchNodes(r, n), ItemView(v, items[i], i), h, d);
      if !(a.err.Some? && n.kind.stopOnItemError) { ProcessStays(r, level, n, items, i + 1, v, h + a.calls, d); }
    }
  }

  lemma {:induction false} RecoverStays(r: Run, level: map<string, nat>, n: Node, p: Pending, v: View, h: seq<Call>,
                                        d: nat)
    requires Sound(r) && FitsAt(r.wf, level, n, d) && !p.out.guard
    requires p.out.err.Some? && v.vars.Keys <= p.out.view.vars.Keys
    ensures !Recover(r, n, p, v, h, d).guard
    decreases Room(r), Level(d), Rank(r, n), 8
  {
    var e := p.out.err.value;
    if PolicyOf(r.wf, n).Retry? && RetriesOf(r.wf, n) > 0 && Retryable(n.kind) {
      AttemptsStay(r, level, n, p, 1, h, d);
      var p' := Attempts(r, n, p, 1, h, d);
      if p'.out.err.Some? { GiveUpStays(r, level, n, p', e, h, d); }
    } else {
      GiveUpStays(r, level, n, p, e, h, d);
    }
  }

  lemma {:induction false} AttemptsStay(r: Run, level: map<string, nat>, n: Node, p: Pending, k: nat, h: seq<Call>,
                                        d: nat)
    requires Sound(r) && FitsAt(r.wf, level, n, d) && !p.out.guard && 1 <= k <= RetriesOf(r.wf, n)
    ensures !Attempts(r, n, p, k, h, d).out.guard
    decreases Room(r), Level(d), Rank(r, n), 5, RetriesOf(r.wf, n) - k
  {
    AttemptStays(r, level, n, p, k, h, d);
    var p1 := OneAttempt(r, n, p, k, h, d);
    if p1.out.err.Some? && k < RetriesOf(r.wf, n) { AttemptsStay(r, level, n, p1, k + 1, h, d); }
  }

  lemma {:induction false} AttemptStays(r: Run, level: map<string, nat>, n: Node, p: Pending, k: nat, h: seq<Call>,
                                        d: nat)
    requires Sound(r) && FitsAt(r.wf, level, n, d) && !p.out.guard
    ensures !OneAttempt(r, n, p, k, h, d).out.guard
    decreases Room(r), Level(d), Rank(r, n), 4
  {
    var c := Ask(r, n, p.out.view, h + p.out.calls);
    if c.reply.Done? {
      var done := Append(Extend(p, LeafOut(n, p.out.view, c)), Succeeded(p.entry, c.reply.output).(retries := k));
      FollowUpStays(r, level, n, done.(out := done.out.(view := Store(done.out.view, n, c.reply.output))), None, h, d);
    }
  }

  lemma {:induction false} GiveUpStays(r: Run, level: map<string, nat>, n: Node, p: Pending, e: string, h: seq<Call>,
                                       d: nat)
    requires Sound(r) && FitsAt(r.wf, level, n, d) && !p.out.guard
    ensures !GiveUp(r, n, p, e, h, d).guard
    decreases Room(r), Level(d), Rank(r, n), 7
  {
    var failed := Append(p, p.entry.(status := Failed, error := Some(e))).out;
    var handler := FindErrorHandler(r.wf, n.id);
    if handler.Some? {
      HandlerFits(r.wf, level, n, d);
      HandleIs(r, n, handler.value, failed, e, h, d);
      SingleStays(r, level, handler.value, HandlerView(n, failed, e), h + failed.calls, d + 1);
    } else if PolicyOf(r.wf, n).Continue? {
      var ss := Successors(r.wf, n.id, None);
      SuccessorsFit(r.wf, level, n, None, d);
      if ss != [] { NodesStay(r, level, ss, failed.view, h + failed.calls, d + 1); }
    }
  }

  /** If levels can be given to the nodes that fall along every edge, into every batch body
      and into every error handler, and the trigger's successors are no higher than the
      limit, no execution hits the limit, whatever the connectors do. */
  lemma LayersStayWithinTheLimit(r: Run, level: map<string, nat>, h: seq<Call>)
    requires Sound(r) && Layered(r.wf, level) && FindTrigger(r.wf).Some?
    requires forall s :: s in Successors(r.wf, FindTrigger(r.wf).value.id, None) ==> LevelIn(level, s) <= 200
    ensures !Execute(r, h).guard
  {
    var t := FindTrigger(r.wf).value;
    NodesStay(r, level, Successors(r.wf, t.id, None), TriggerView(r, t), h, 0);
  }

  /** Such a workflow succeeds, for every oracle, if every node ignores its failures or
      continues after them. */
  lemma LenientLayersSucceed(r: Run, level: map<string, nat>, h: seq<Call>)
    requires Sound(r) && AllLenient(r.wf) && Layered(r.wf, level) && FindTrigger(r.wf).Some?
    requires forall s :: s in Successors(r.wf, FindTrigger(r.wf).value.id, None) ==> LevelIn(level, s) <= 200
    ensures Execute(r, h).err.None?
  {
    LayersStayWithinTheLimit(r, level, h);
    LenientFailsOnlyAtTheDepthLimit(r, h);
  }

  // ---- workflows that fail at the limit ----

  /** The node runs once per visit and then follows all its edges, failed or not. */
  predicate GoesOn(wf: Workflow, n: Node) {
    PolicyOf(wf, n).Continue? && FindErrorHandler(wf, n.id).None? &&
    (n.kind.Action? || n.kind.Think? || n.kind.HttpRequest? || n.kind.Transform? || n.kind.SetVariable? ||
     n.kind.Aggregate? || n.kind.Delay? || n.kind.Trigger? || n.kind.Unknown?)
  }

  ghost predicate AllGoOn(wf: Workflow) {
    forall n {:trigger GoesOn(wf, n)} :: IsNode(wf, n) ==> GoesOn(wf, n)
  }

  /** A walk of `k` edges starts at `n`. */
  predicate Walks(wf: Workflow, n: Node, k: nat)
    decreases k, 0
  {
    k == 0 || AnyWalks(wf, Successors(wf, n.id, None), k - 1)
  }

  predicate AnyWalks(wf: Workflow, ns: seq<Node>, k: nat)
    decreases k, 1
  {
    exists n :: n in ns && Walks(wf, n, k)
  }

  // In what follows, `k` is how many edges are left before the limit at depth `d`.

  lemma {:induction false} NodesGoOn(r: Run, ns: seq<Node>, v: View, h: seq<Call>, d: nat, k: nat)
    requires Sound(r) && AllGoOn(r.wf) && (forall n :: n in ns ==> IsNode(r.wf, n)) && ns != [] &&
             d + k == MAX_DEPTH + 1
    ensures Nodes(r, ns, v, h, d).err.Some? <==> AnyWalks(r.wf, ns, k)
    decreases k, 2, 0
  {
    if k > 0 {
      NodesFromGoOn(r, ns, v, h, d, k);
    } else {
      assert ns[0] in ns && Walks(r.wf, ns[0], 0);
    }
  }

  lemma {:induction false} NodesFromGoOn(r: Run, ns: seq<Node>, v: View, h: seq<Call>, d: nat, k: nat)
    requires Sound(r) && AllGoOn(r.wf) && (forall n :: n in ns ==> IsNode(r.wf, n)) && k > 0 && d + k == MAX_DEPTH + 1
    ensures NodesFrom(r, ns, v, h, d).err.Some? <==> AnyWalks(r.wf, ns, k)
    decreases k, 1, |ns|
  {
    if ns != [] {
      VisitGoesOn(r, ns[0], v, h, d, k - 1);
      var a := Single(r, ns[0], v, h, d);
      if a.err.None? { NodesFromGoOn(r, ns[1..], a.view, h + a.calls, d, k); }
      WalksOfParts(r.wf, ns, k);
    }
  }

  lemma WalksOfParts(wf: Workflow, ns: seq<Node>, k: nat)
    requires ns != []
    ensures AnyWalks(wf, ns, k) <==> Walks(wf, ns[0], k) || AnyWalks(wf, ns[1..], k)
  {
    if AnyWalks(wf, ns, k) {
      var n :| n in ns && Walks(wf, n, k);
      assert n == ns[0] || n in ns[1..];
    }
    if AnyWalks(wf, ns[1..], k) {
      var n :| n in ns[1..] && Walks(wf, n, k);
      assert n in ns;
    }
  }

  /** Whatever its reply, such a node fails exactly when its successors fail. */
  lemma {:induction false} VisitGoesOn(r: Run, n: Node, v: View, h: seq<Call>, d: nat, k: nat)
    requires Sound(r) && AllGoOn(r.wf) && IsNode(r.wf, n) && d + k == MAX_DEPTH
    ensures Single(r, n, v, h, d).err.Some? <==> AnyWalks(r.wf, Successors(r.wf, n.id, None), k)
    decreases k, 3, 3
  {
    assert GoesOn(r.wf, n);
    TryGoesOn(r, n, v, h, d, k);
    var p := Try(r, n, v, h, d);
    if p.out.err.Some? { GiveUpGoesOn(r, n, p, p.out.err.value, h, d, k); }
  }

  lemma {:induction false} TryGoesOn(r: Run, n: Node, v: View, h: seq<Call>, d: nat, k: nat)
    requires Sound(r) && AllGoOn(r.wf) && IsNode(r.wf, n) && d + k == MAX_DEPTH
    ensures Try(r, n, v, h, d).out.err.None? ==> !AnyWalks(r.wf, Successors(r.wf, n.id, None), k)
    decreases k, 3, 2
  {
    assert GoesOn(r.wf, n);
    var b := Body(r, n, v, h, d);
    if b.out.err.None? {
      var p := TryFollows(r, n, v, h, d);
      FollowUpGoesOn(r, n, p, h, d, k);
    }
  }

  lemma BodyGoesOn(r: Run, n: Node, v: View, h: seq<Call>, d: nat)
    requires Sound(r) && IsNode(r.wf, n) && GoesOn(r.wf, n) && Body(r, n, v, h, d).out.err.None?
    ensures var b := Body(r, n, v, h, d); b.next.Go? && b.next.handle.None?
  {
    if IsLeaf(n.kind) {
      var c := Ask(r, n, v, h);
      assert Body(r, n, v, h, d).out == LeafOut(n, v, c) && c.reply.Done?;
      assert Body(r, n, v, h, d).next == LeafNext(n, v, c.reply);
    }
  }

  lemma TryFollows(r: Run, n: Node, v: View, h: seq<Call>, d: nat) returns (p: Pending)
    requires Sound(r) && IsNode(r.wf, n) && GoesOn(r.wf, n) && Body(r, n, v, h, d).out.err.None?
    ensures Try(r, n, v, h, d) == FollowUp(r, n, p, None, h, d)
  {
    BodyGoesOn(r, n, v, h, d);
    var b := Body(r, n, v, h, d);
    var p1 := Append(Pending(b.out, Open(n, v), {}), Succeeded(Open(n, v), b.next.output));
    p := p1.(out := p1.out.(view := Store(b.out.view, n, b.next.output)));
    assert Try(r, n, v, h, d) == FollowUp(r, n, p, b.next.handle, h, d);
  }

  lemma {:induction false} FollowUpGoesOn(r: Run, n: Node, p: Pending, h: seq<Call>, d: nat, k: nat)
    requires Sound(r) && AllGoOn(r.wf) && IsNode(r.wf, n) && d + k == MAX_DEPTH
    ensures FollowUp(r, n, p, None, h, d).out.err.Some? <==> AnyWalks(r.wf, Successors(r.wf, n.id, None), k)
    decreases k, 3, 1
  {
    var ss := Successors(r.wf, n.id, None);
    if ss != [] { NodesGoOn(r, ss, p.out.view, h + p.out.calls, d + 1, k); }
  }

  lemma {:induction false} GiveUpGoesOn(r: Run, n: Node, p: Pending, e: string, h: seq<Call>, d: nat, k: nat)
    requires Sound(r) && AllGoOn(r.wf) && IsNode(r.wf, n) && d + k == MAX_DEPTH
    ensures GiveUp(r, n, p, e, h, d).err.Some? <==> AnyWalks(r.wf, Successors(r.wf, n.id, None), k)
    decreases k, 3, 1
  {
    assert GoesOn(r.wf, n);
    var failed := Append(p, p.entry.(status := Failed, error := Some(e))).out;
    var ss := Successors(r.wf, n.id, None);
    if ss != [] { NodesGoOn(r, ss, failed.view, h + failed.calls, d + 1, k); }
  }

  /** A workflow whose nodes all continue after failures and follow all their edges fails,
      for every oracle, exactly when a walk of 201 edges starts at a successor of the
      trigger; it succeeds otherwise. */
  lemma ContinuingFailsExactlyOnLongWalks(r: Run, h: seq<Call>, k: nat)
    requires Sound(r) && AllGoOn(r.wf) && FindTrigger(r.wf).Some? && k == 201
    ensures Execute(r, h).err.Some? <==> AnyWalks(r.wf, Successors(r.wf, FindTrigger(r.wf).value.id, None), k)
  {
    var t := FindTrigger(r.wf).value;
    NodesFromGoOn(r, Successors(r.wf, t.id, None), TriggerView(r, t), h, 0, k);
  }

  const START := Node("t", Trigger, "start", None, None)
  const AGAIN := Node("a", Action, "again", None, None)

  /** An action that leads to itself, with "continue" for the whole workflow. */
  const CYCLE := Workflow("w", "cycle", [START, AGAIN], [Edge("t", "a", ""), Edge("a", "a", "")], map[], Continue, 0)

  lemma CycleNodes(n: Node)
    ensures IsNode(CYCLE, n) <==> n == START || n == AGAIN
    ensures KeyOrder(CYCLE.nodes) == ["t", "a"]
  {
    var nodes := CYCLE.nodes;
    assert nodes[..1] == [START] && nodes[..1][..0] == [];
    assert Lookup(nodes[..1], "t") == Some(START);
    assert KeyOrder(nodes[..1]) == ["t"];
  }

  lemma CycleEdges()
    ensures Successors(CYCLE, "t", None) == [AGAIN] && Successors(CYCLE, "a", None) == [AGAIN]
  {
    var nodes, edges := CYCLE.nodes, CYCLE.edges;
    CycleNodes(AGAIN);
    assert edges[..1] == [Edge("t", "a", "")] && edges[..1][..0] == [];
    assert Targets(nodes, edges[..1], "t", None) == [AGAIN];
    assert Targets(nodes, edges[..1], "a", None) == [];
  }

  lemma CycleTrigger()
    ensures FindTrigger(CYCLE) == Some(START)
  {
    CycleNodes(START);
    assert Values(CYCLE.nodes)[0] == START;
    assert FindTrigger(CYCLE).Some?;
    CycleNodes(FindTrigger(CYCLE).value);
  }

  lemma CycleGoesOn()
    ensures Ranked(CYCLE) && AllGoOn(CYCLE) && AllLenient(CYCLE)
  {
    forall n ensures IsNode(CYCLE, n) ==> n == START || n == AGAIN { CycleNodes(n); }
    forall n ensures IsNode(CYCLE, n) ==> GoesOn(CYCLE, n) && RanksFall(CYCLE, map[], n) {
      if FindErrorHandler(CYCLE, n.id).Some? { CycleNodes(FindErrorHandler(CYCLE, n.id).value); }
    }
    assert ValidRank(CYCLE, map[]);
  }

  lemma {:induction false} CycleWalks(k: nat)
    ensures Walks(CYCLE, AGAIN, k)
  {
    CycleEdges();
    if k > 0 {
      CycleWalks(k - 1);
      assert AGAIN in Successors(CYCLE, AGAIN.id, None);
    }
  }

  /** It fails for every oracle, though every node continues after its failures. */
  lemma ContinuingCycleFails(r: Run, h: seq<Call>)
    requires r.wf == CYCLE && AllRanked(r.w)
    ensures Sound(r) && AllLenient(r.wf) && Execute(r, h).err.Some?
  {
    CycleGoesOn();
    CycleTrigger();
    var k := MAX_DEPTH + 1;
    CycleFails(r, h, k);
  }

  lemma CycleFails(r: Run, h: seq<Call>, k: nat)
    requires r.wf == CYCLE && Sound(r) && AllGoOn(CYCLE) && FindTrigger(CYCLE) == Some(START) && k == MAX_DEPTH + 1
    ensures Execute(r, h).err.Some?
  {
    CycleEdges();
    CycleWalks(k);
    assert AGAIN in Successors(CYCLE, "t", None);
    ContinuingFailsExactlyOnLongWalks(r, h, k);
  }
}
