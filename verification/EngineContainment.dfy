/** What a failing node can and cannot do to an execution, for every oracle. */
module EngineContainment {
  import opened Json
  import opened WorkflowGraph
  import opened WorkflowEngine

  // ---- failures that stay where they happened ----

  /** Every node's effective policy is to go on without its successors. */
  ghost predicate AllIgnore(wf: Workflow) {
    forall n :: IsNode(wf, n) ==> PolicyOf(wf, n).Ignore?
  }

  /** Every node's effective policy is to go on, with or without its successors. */
  ghost predicate AllLenient(wf: Workflow) {
    forall n :: IsNode(wf, n) ==> PolicyOf(wf, n).Ignore? || PolicyOf(wf, n).Continue?
  }

  lemma {:induction false} SingleIgnores(r: Run, n: Node, v: View, h: seq<Call>, d: nat)
    requires Sound(r) && IsNode(r.wf, n) && AllIgnore(r.wf)
    ensures Single(r, n, v, h, d).err.None?
    decreases Room(r), Level(d), Rank(r, n), 9
  {
    var p := Try(r, n, v, h, d);
    if p.out.err.Some? { GiveUpIgnores(r, n, p, p.out.err.value, h, d); }
  }

  lemma {:induction false} GiveUpIgnores(r: Run, n: Node, p: Pending, e: string, h: seq<Call>, d: nat)
    requires Sound(r) && IsNode(r.wf, n) && AllIgnore(r.wf)
    ensures GiveUp(r, n, p, e, h, d).err.None?
    decreases Room(r), Level(d), Rank(r, n), 7
  {
    var failed := Append(p, p.entry.(status := Failed, error := Some(e))).out;
    var handler := FindErrorHandler(r.wf, n.id);
    if handler.Some? {
      HandleIs(r, n, handler.value, failed, e, h, d);
      SingleIgnores(r, handler.value, HandlerView(n, failed, e), h + failed.calls, d + 1);
    }
  }

  lemma {:induction false} NodesFromIgnores(r: Run, ns: seq<Node>, v: View, h: seq<Call>, d: nat)
    requires Sound(r) && (forall n :: n in ns ==> IsNode(r.wf, n)) && AllIgnore(r.wf) && d <= MAX_DEPTH
    ensures NodesFrom(r, ns, v, h, d).err.None?
    decreases |ns|
  {
    if ns != [] {
      SingleIgnores(r, ns[0], v, h, d);
      var a := Single(r, ns[0], v, h, d);
      NodesFromIgnores(r, ns[1..], a.view, h + a.calls, d);
    }
  }

  /** With every effective `on_error` "ignore", an execution with a trigger succeeds,
      whatever the connectors, the handlers and the cycles in the graph do. */
  lemma IgnoreAlwaysSucceeds(r: Run, h: seq<Call>)
    requires Sound(r) && AllIgnore(r.wf)
    ensures Execute(r, h).err.None? <==> FindTrigger(r.wf).Some?
  {
    var t := FindTrigger(r.wf);
    if t.Some? {
      NodesFromIgnores(r, Successors(r.wf, t.value.id, None), TriggerView(r, t.value), h, 0);
    }
  }

  lemma {:induction false} SingleLenient(r: Run, n: Node, v: View, h: seq<Call>, d: nat)
    requires Sound(r) && IsNode(r.wf, n) && AllLenient(r.wf)
    ensures var out := Single(r, n, v, h, d); out.err.Some? ==> out.guard
    decreases Room(r), Level(d), Rank(r, n), 9
  {
    var p := Try(r, n, v, h, d);
    if p.out.err.Some? { GiveUpLenient(r, n, p, p.out.err.value, h, d); }
  }

  lemma {:induction false} GiveUpLenient(r: Run, n: Node, p: Pending, e: string, h: seq<Call>, d: nat)
    requires Sound(r) && IsNode(r.wf, n) && AllLenient(r.wf)
    ensures var out := GiveUp(r, n, p, e, h, d); out.err.Some? ==> out.guard
    decreases Room(r), Level(d), Rank(r, n), 7
  {
    var failed := Append(p, p.entry.(status := Failed, error := Some(e))).out;
    var handler := FindErrorHandler(r.wf, n.id);
    if handler.Some? {
      HandleLenient(r, n, handler.value, failed, e, h, d);
    } else {
      var ss := Successors(r.wf, n.id, None);
      if ss != [] { NodesLenient(r, ss, failed.view, h + failed.calls, d + 1); }
    }
  }

  lemma {:induction false} HandleLenient(r: Run, n: Node, handler: Node, failed: Out, e: string, h: seq<Call>, d: nat)
    requires Sound(r) && IsNode(r.wf, n) && AllLenient(r.wf) && FindErrorHandler(r.wf, n.id) == Some(handler)
    ensures var out := Handle(r, n, handler, failed, e, h, d); out.err.Some? ==> out.guard
    decreases Room(r), Level(d), Rank(r, n), 6
  {
    HandleIs(r, n, handler, failed, e, h, d);
    SingleLenient(r, handler, HandlerView(n, failed, e), h + failed.calls, d + 1);
  }

  lemma {:induction false} NodesLenient(r: Run, ns: seq<Node>, v: View, h: seq<Call>, d: nat)
    requires Sound(r) && (forall n :: n in ns ==> IsNode(r.wf, n)) && AllLenient(r.wf)
    ensures var out := Nodes(r, ns, v, h, d); out.err.Some? ==> out.guard
    decreases Room(r), NodesLevel(d), 0, 2
  {
    if d <= MAX_DEPTH { NodesFromLenient(r, ns, v, h, d); }
  }

  lemma {:induction false} NodesFromLenient(r: Run, ns: seq<Node>, v: View, h: seq<Call>, d: nat)
    requires Sound(r) && (forall n :: n in ns ==> IsNode(r.wf, n)) && AllLenient(r.wf) && d <= MAX_DEPTH
    ensures var out := NodesFrom(r, ns, v, h, d); out.err.Some? ==> out.guard
    decreases Room(r), NodesLevel(d), 0, 1, |ns|
  {
    if ns != [] {
      SingleLenient(r, ns[0], v, h, d);
      var a := Single(r, ns[0], v, h, d);
      if a.err.None? { NodesFromLenient(r, ns[1..], a.view, h + a.calls, d); }
    }
  }

  /** With "continue" allowed as well, only the depth limit can fail an execution: a
      continued node runs its successors outside the block that would catch it. */
  lemma LenientFailsOnlyAtTheDepthLimit(r: Run, h: seq<Call>)
    requires Sound(r) && AllLenient(r.wf) && FindTrigger(r.wf).Some?
    ensures Execute(r, h).err.Some? ==> Execute(r, h).guard
  {
    var t := FindTrigger(r.wf);
    NodesLenient(r, Successors(r.wf, t.value.id, None), TriggerView(r, t.value), h, 0);
  }

  // ---- failures that stop everything ----

  /** The node's failure always propagates: it stops, or would retry but cannot. */
  predicate Stops(wf: Workflow, n: Node) {
    PolicyOf(wf, n).Stop? || (PolicyOf(wf, n).Retry? && !(RetriesOf(wf, n) > 0 && Retryable(n.kind)))
  }

  /** Every failure propagates, nothing catches one, and nothing runs concurrently. */
  ghost predicate AllStop(wf: Workflow) {
    forall n {:trigger FailsThrough(wf, n)} :: IsNode(wf, n) ==> FailsThrough(wf, n)
  }

  predicate FailsThrough(wf: Workflow, n: Node) {
    Stops(wf, n) && FindErrorHandler(wf, n.id).None? && !n.kind.Parallel? && !n.kind.Batch?
  }

  ghost predicate StopEverywhere(r: Run) {
    AllStop(r.wf) && forall id :: id in r.w.table ==> AllStop(ChildOf(r.w, id))
  }

  /** Only the last call can have failed, and then the run has failed. */
  predicate Halted(calls: seq<Call>, err: Option<string>) {
    forall i :: 0 <= i < |calls| && calls[i].reply.Raised? ==> i == |calls| - 1 && err.Some?
  }

  lemma HaltedJoins(a: seq<Call>, b: seq<Call>, err: Option<string>)
    requires Halted(a, None) && Halted(b, err)
    ensures Halted(a + b, err)
  {
  }

  lemma {:induction false} NodesHalt(r: Run, ns: seq<Node>, v: View, h: seq<Call>, d: nat)
    requires Sound(r) && StopEverywhere(r) && forall n :: n in ns ==> IsNode(r.wf, n)
    ensures var out := Nodes(r, ns, v, h, d); Halted(out.calls, out.err)
    decreases Room(r), NodesLevel(d), 0, 2
  {
    if d <= MAX_DEPTH { NodesFromHalt(r, ns, v, h, d); }
  }

  lemma {:induction false} NodesFromHalt(r: Run, ns: seq<Node>, v: View, h: seq<Call>, d: nat)
    requires Sound(r) && StopEverywhere(r) && (forall n :: n in ns ==> IsNode(r.wf, n)) && d <= MAX_DEPTH
    ensures var out := NodesFrom(r, ns, v, h, d); Halted(out.calls, out.err)
    decreases Room(r), NodesLevel(d), 0, 1, |ns|
  {
    if ns != [] {
      SingleHalts(r, ns[0], v, h, d);
      var a := Single(r, ns[0], v, h, d);
      if a.err.None? {
        NodesFromHalt(r, ns[1..], a.view, h + a.calls, d);
        var b := NodesFrom(r, ns[1..], a.view, h + a.calls, d);
        HaltedJoins(a.calls, b.calls, b.err);
      }
    }
  }

  lemma {:induction false} SingleHalts(r: Run, n: Node, v: View, h: seq<Call>, d: nat)
    requires Sound(r) && StopEverywhere(r) && IsNode(r.wf, n)
    ensures var out := Single(r, n, v, h, d); Halted(out.calls, out.err)
    decreases Room(r), Level(d), Rank(r, n), 9
  {
    assert FailsThrough(r.wf, n);
    TryHalts(r, n, v, h, d);
    var p := Try(r, n, v, h, d);
    if p.out.err.Some? {
      assert Single(r, n, v, h, d) == GiveUp(r, n, p, p.out.err.value, h, d);
    }
  }

  lemma {:induction false} TryHalts(r: Run, n: Node, v: View, h: seq<Call>, d: nat)
    requires Sound(r) && StopEverywhere(r) && IsNode(r.wf, n)
    ensures var p := Try(r, n, v, h, d); Halted(p.out.calls, p.out.err)
    decreases Room(r), Level(d), Rank(r, n), 8
  {
    BodyHalts(r, n, v, h, d);
    var b := Body(r, n, v, h, d);
    if b.out.err.None? && b.next.Go? {
      var view := Store(b.out.view, n, b.next.output);
      var ss := Successors(r.wf, n.id, b.next.handle);
      if ss != [] {
        NodesHalt(r, ss, view, h + b.out.calls, d + 1);
        var more := Nodes(r, ss, view, h + b.out.calls, d + 1);
        HaltedJoins(b.out.calls, more.calls, more.err);
      }
    }
  }

  lemma {:induction false} BodyHalts(r: Run, n: Node, v: View, h: seq<Call>, d: nat)
    requires Sound(r) && StopEverywhere(r) && IsNode(r.wf, n)
    ensures var b := Body(r, n, v, h, d); Halted(b.out.calls, b.out.err)
    decreases Room(r), Level(d), Rank(r, n), 7
  {
    assert FailsThrough(r.wf, n);
    match n.kind
    case Loop(_, _, _, _) => LoopHalts(r, n, v, h, d);
    case SubWorkflow(_, _) => SubHalts(r, n, v, h);
    case _ =>
  }

  lemma {:induction false} LoopHalts(r: Run, n: Node, v: View, h: seq<Call>, d: nat)
    requires Sound(r) && StopEverywhere(r) && IsNode(r.wf, n) && n.kind.Loop?
    ensures var b := LoopBody(r, n, v, h, d); Halted(b.out.calls, b.out.err)
    decreases Room(r), Level(d), Rank(r, n), 6
  {
    var list := ResolveValue(n.kind.arrayField, v, r.trigger);
    if list.Arr? { IterateHalts(r, n, Prefix(list.items, Min(n.kind.maxIterations, 1000)), 0, v, h, d); }
  }

  lemma {:induction false} IterateHalts(r: Run, n: Node, items: seq<Json>, i: nat, v: View, h: seq<Call>, d: nat)
    requires Sound(r) && StopEverywhere(r) && IsNode(r.wf, n) && n.kind.Loop? && i <= |items|
    ensures var x := Iterate(r, n, items, i, v, h, d); Halted(x.out.calls, x.out.err)
    decreases Room(r), Level(d), Rank(r, n), 4, |items| - i
  {
    if i < |items| {
      var bound := v.(vars := v.vars[n.kind.itemVar := items[i]][n.kind.indexVar := Num(i as real)]);
      var body := Successors(r.wf, n.id, Some("default"));
      if body != [] { NodesHalt(r, body, bound, h, d + 1); }
      var a := RunBody(r, body, bound, h, d);
      if a.err.None? {
        IterateHalts(r, n, items, i + 1, a.view, h + a.calls, d);
        var b := Iterate(r, n, items, i + 1, a.view, h + a.calls, d).out;
        HaltedJoins(a.calls, b.calls, b.err);
      }
    }
  }

  lemma {:induction false} SubHalts(r: Run, n: Node, v: View, h: seq<Call>)
    requires Sound(r) && StopEverywhere(r) && n.kind.SubWorkflow?
    ensures var b := SubBody(r, n, v, h); Halted(b.out.calls, b.out.err)
    decreases Room(r), 0, 0, 1
  {
    if SubError(r, n.kind).None? {
      var mapped := r.w.subInput(n, v, r.trigger);
      ChildHalts(r, n.kind.workflowId, if mapped == map[] then v.data else mapped, h);
    }
  }

  lemma {:induction false} ChildHalts(r: Run, id: string, input: Dict, h: seq<Call>)
    requires Sound(r) && StopEverywhere(r) && id in r.w.table && id !in r.chain
    ensures Ranked(ChildOf(r.w, id))
    ensures var x := Execute(Run(r.w, ChildOf(r.w, id), input, r.dryRun, r.chain + [id]), h); Halted(x.calls, x.err)
    decreases Room(r), 0, 0, 0
  {
    RankedChild(r.w, id);
    SmallerRoom(r, id);
    StopAfterFirstFailure(Run(r.w, ChildOf(r.w, id), input, r.dryRun, r.chain + [id]), h);
  }

  /** When every failure stops the workflow, no connector is called after the first call
      that failed, in the workflow or in its sub-workflows, and the status is failed. */
  lemma {:induction false} StopAfterFirstFailure(r: Run, h: seq<Call>)
    requires Sound(r) && StopEverywhere(r)
    ensures Halted(Execute(r, h).calls, Execute(r, h).err)
    decreases Room(r), NodesLevel(0) + 1, 0, 0
  {
    var t := FindTrigger(r.wf);
    if t.Some? {
      NodesHalt(r, Successors(r.wf, t.value.id, None), TriggerView(r, t.value), h, 0);
    }
  }
}
