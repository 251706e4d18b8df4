/** When a re-run does not repeat the execution it starts from: from the trigger, of a dry
    run, and of an execution that was part of a chain of workflows. */
module RerunDiffers {
  import opened Json
  import opened WorkflowGraph
  import opened WorkflowEngine
  import opened RunModes
  import opened EngineReplay
  import opened EngineBlocks
  import EngineDepth

  /** The first result of an execution is that of its own node. */
  ghost predicate StartsWithOwn(log: seq<Entry>, n: Node) {
    log != [] && log[0].nodeId == n.id
  }

  lemma NotTheTrigger(wf: Workflow, n: Node)
    requires FindTrigger(wf).Some? && IsNode(wf, n) && !n.kind.Trigger?
    ensures n.id != FindTrigger(wf).value.id
  {
  }

  /** The block in which the first result of a node lies starts with it, as blocks start
      with a result of their own node. */
  lemma FirstOfBlock(r: Run, n: Node) returns (x: Start)
    requires Sound(r) && FindTrigger(r.wf).Some? && IsNode(r.wf, n) && !n.kind.Trigger?
    requires FirstResult(Execute(r, []).log, n.id) < |Execute(r, []).log|
    ensures IsNode(r.wf, x.node) && x.node == n
    ensures StartsWithOwn(Begun(r, x).log, n) ==>
              Execute(r, []).log[FirstResult(Execute(r, []).log, n.id)] == Begun(r, x).log[0]
  {
    ExecuteParts(r);
    NotTheTrigger(r.wf, n);
    var start, len;
    x, start, len := BlockOf(r, Execute(r, []).log, FirstResult(Execute(r, []).log, n.id));
    BlockStartsThere(r, x, Execute(r, []).log, n, start, len);
  }

  lemma BlockStartsThere(r: Run, x: Start, log: seq<Entry>, n: Node, start: nat, len: nat)
    requires IsNode(r.wf, n) && start <= FirstResult(log, n.id) < start + len <= |log|
    requires Leaves(r, x, log[start..start + len]) && x.node.id == n.id
    ensures x.node == n && (StartsWithOwn(Begun(r, x).log, n) ==> log[FirstResult(log, n.id)] == Begun(r, x).log[0])
  {
    if StartsWithOwn(Begun(r, x).log, n) { FirstIsStart(log, n.id, start, len); }
  }

  lemma FirstIsStart(log: seq<Entry>, id: string, start: nat, len: nat)
    requires start <= FirstResult(log, id) < start + len <= |log| && log[start..start + len][0].nodeId == id
    ensures log[FirstResult(log, id)] == log[start..start + len][0]
  {
    assert log[start..start + len][0] == log[start];
  }

  /** The first result is the entry of the node itself. */
  predicate HoldsFirst(p: Pending, n: Node) {
    0 in p.places && p.out.log != [] && p.out.log[0] == p.entry && p.entry.nodeId == n.id
  }

  /** A node whose own work leaves no results records its output first. */
  lemma GoRecordsFirst(r: Run, n: Node, v: View, h: seq<Call>, d: nat)
    requires Sound(r) && IsNode(r.wf, n)
    requires var b := Body(r, n, v, h, d); b.out.log == [] && b.out.err.None? && b.next.Go?
    ensures var p := Try(r, n, v, h, d);
            HoldsFirst(p, n) && p.entry.output == Some(Body(r, n, v, h, d).next.output)
  {
    var b := Body(r, n, v, h, d);
    var p1 := Append(Pending(b.out, Open(n, v), {}), Succeeded(Open(n, v), b.next.output));
    var p2 := p1.(out := p1.out.(view := Store(b.out.view, n, b.next.output)));
    assert Try(r, n, v, h, d) == FollowUp(r, n, p2, b.next.handle, h, d);
  }

  /** What is recorded first stays first, and giving up keeps its output. */
  lemma GiveUpKeepsFirst(r: Run, n: Node, p: Pending, e: string, h: seq<Call>, d: nat)
    requires Sound(r) && IsNode(r.wf, n)
    requires if p.places == {} then p.out.log == [] else 0 in p.places && p.out.log != []
    ensures var log := GiveUp(r, n, p, e, h, d).log;
            log != [] && log[0] == p.entry.(status := Failed, error := Some(e))
  {
    GiveUpIs(r, n, p, e, h, d);
    assert FailedAfter(p, e).log[0] == p.entry.(status := Failed, error := Some(e));
  }

  /** So its first result shows its output, or without one its error. */
  lemma FirstOf(r: Run, n: Node, v: View, h: seq<Call>, d: nat)
    requires Sound(r) && IsNode(r.wf, n) && !Retryable(n.kind)
    requires var b := Body(r, n, v, h, d); b.out.log == [] && (b.out.err.None? ==> b.next.Go?)
    ensures var log, b := Single(r, n, v, h, d).log, Body(r, n, v, h, d);
            log != [] && log[0].nodeId == n.id &&
            if b.out.err.None? then log[0].output == Some(b.next.output)
            else log[0].output.None? && log[0].error == b.out.err
  {
    var p := Try(r, n, v, h, d);
    if Body(r, n, v, h, d).out.err.None? { GoRecordsFirst(r, n, v, h, d); } else { ErrorIsPending(r, n, v, h, d); }
    SingleGivesUp(r, n, v, h, d);
    if p.out.err.Some? { GiveUpKeepsFirst(r, n, p, p.out.err.value, h, d); }
  }

  lemma ErrorIsPending(r: Run, n: Node, v: View, h: seq<Call>, d: nat)
    requires Sound(r) && IsNode(r.wf, n) && Body(r, n, v, h, d).out.err.Some?
    ensures Try(r, n, v, h, d) == Pending(Body(r, n, v, h, d).out, Open(n, v), {})
  {
  }

  lemma SingleGivesUp(r: Run, n: Node, v: View, h: seq<Call>, d: nat)
    requires Sound(r) && IsNode(r.wf, n) && !Retryable(n.kind)
    ensures var p := Try(r, n, v, h, d);
            Single(r, n, v, h, d) == if p.out.err.None? then p.out else GiveUp(r, n, p, p.out.err.value, h, d)
  {
  }

  // ---- from the trigger ----

  /** A re-run from the trigger is never faithful: the trigger's recorded output is the
      trigger data, and executing the trigger node again gives `None`. */
  lemma RerunFromTriggerDiffers(r: Run, h: seq<Call>)
    requires Sound(r) && FindTrigger(r.wf).Some?
    ensures var original := Execute(r, []);
            var rerun := Rerun(r, original, FindTrigger(r.wf).value.id, map[], h);
            |rerun.log| > 0 && original.log[0].output == Some(Obj(r.trigger)) && rerun.log[0].output == Some(Null)
  {
    var t := FindTrigger(r.wf).value;
    var v := Restored(r, Execute(r, []), t.id, map[]);
    ExecuteParts(r);
    TriggerOutput(Live(r), t, v, h);
  }

  lemma TriggerOutput(r: Run, t: Node, v: View, h: seq<Call>)
    requires Sound(r) && IsNode(r.wf, t) && t.kind.Trigger?
    ensures var out := Single(r, t, v, h, 0); |out.log| > 0 && out.log[0].output == Some(Null)
  {
    assert Body(r, t, v, h, 0) == BodyOut(Quiet(v), Go(Null, None));
    FirstOf(r, t, v, h, 0);
  }

  // ---- dry runs ----

  /** Nodes whose dry run is answered by a mock. */
  predicate Mocked(k: Kind) {
    k.Action? || k.Think? || k.HttpRequest?
  }

  predicate IsMock(output: Json) {
    output.Obj? && Get(output.fields, "dry_run") == Bool(true)
  }

  /** Mocks are marked, and no connector marks what it answers live. */
  ghost predicate MarksMocks(w: World) {
    forall h: seq<Call>, q: Request ::
      Mocked(q.node.kind) && w.leaf(h, q).Done? ==> (IsMock(w.leaf(h, q).output) <==> q.dryRun)
  }

  /** The entry is not recorded yet and has no output, or it is the first result. */
  predicate Shows(p: Pending, n: Node, dryRun: bool) {
    p.entry.nodeId == n.id && (p.entry.output.Some? ==> IsMock(p.entry.output.value) == dryRun) &&
    if p.entry.output.None? then p.out.log == [] && p.places == {} else HoldsFirst(p, n)
  }

  lemma RecordShows(p: Pending, n: Node, dryRun: bool, e: Entry)
    requires Shows(p, n, dryRun) && e.nodeId == n.id && e.output.Some? && IsMock(e.output.value) == dryRun
    ensures Shows(Append(p, e), n, dryRun)
  {
  }

  lemma FollowUpShows(r: Run, n: Node, p: Pending, handle: Option<string>, h: seq<Call>, d: nat)
    requires Sound(r) && IsNode(r.wf, n) && Shows(p, n, r.dryRun) && p.entry.output.Some?
    ensures var q := FollowUp(r, n, p, handle, h, d); Shows(q, n, r.dryRun) && q.entry.output.Some?
  {
  }

  lemma TryShows(r: Run, n: Node, v: View, h: seq<Call>, d: nat)
    requires Sound(r) && IsNode(r.wf, n) && Mocked(n.kind) && MarksMocks(r.w)
    ensures var p := Try(r, n, v, h, d);
            Shows(p, n, r.dryRun) && (Ask(r, n, v, h).reply.Done? ==> p.entry.output.Some?)
  {
    var c := Ask(r, n, v, h);
    var b := BodyOut(LeafOut(n, v, c), if c.reply.Done? then Go(c.reply.output, None) else Pass);
    assert Body(r, n, v, h, d) == b;
    if c.reply.Done? { GoRecordsFirst(r, n, v, h, d); }
  }

  lemma AttemptShows(r: Run, n: Node, p: Pending, k: nat, h: seq<Call>, d: nat)
    requires Sound(r) && IsNode(r.wf, n) && Mocked(n.kind) && MarksMocks(r.w) && Shows(p, n, r.dryRun)
    ensures var q := OneAttempt(r, n, p, k, h, d);
            Shows(q, n, r.dryRun) && (p.entry.output.Some? || q.out.err.None? ==> q.entry.output.Some?)
  {
    var c := Ask(r, n, p.out.view, h + p.out.calls);
    var asked := Extend(p, LeafOut(n, p.out.view, c));
    if c.reply.Done? {
      var e := Succeeded(p.entry, c.reply.output).(retries := k);
      RecordShows(asked, n, r.dryRun, e);
      var done := Append(asked, e);
      FollowUpShows(r, n, done.(out := done.out.(view := Store(done.out.view, n, c.reply.output))), None, h, d);
    }
  }

  lemma {:induction false} AttemptsShow(r: Run, n: Node, p: Pending, k: nat, h: seq<Call>, d: nat)
    requires Sound(r) && IsNode(r.wf, n) && Mocked(n.kind) && MarksMocks(r.w) && Shows(p, n, r.dryRun)
    requires 1 <= k <= RetriesOf(r.wf, n)
    ensures var q := Attempts(r, n, p, k, h, d);
            Shows(q, n, r.dryRun) && (p.entry.output.Some? || q.out.err.None? ==> q.entry.output.Some?)
    decreases RetriesOf(r.wf, n) - k
  {
    AttemptShows(r, n, p, k, h, d);
    var p1 := OneAttempt(r, n, p, k, h, d);
    if p1.out.err.Some? && k < RetriesOf(r.wf, n) { AttemptsShow(r, n, p1, k + 1, h, d); }
  }

  /** The first result of a mocked node shows the mode of the run, if it has an output. */
  ghost predicate ShowsMode(first: Entry, n: Node, dryRun: bool) {
    first.nodeId == n.id && (first.output.Some? ==> IsMock(first.output.value) == dryRun)
  }

  lemma MockedFirst(r: Run, n: Node, v: View, h: seq<Call>, d: nat)
    requires Sound(r) && IsNode(r.wf, n) && Mocked(n.kind) && MarksMocks(r.w)
    ensures var log := Single(r, n, v, h, d).log;
            log != [] && ShowsMode(log[0], n, r.dryRun) && (Ask(r, n, v, h).reply.Done? ==> log[0].output.Some?)
  {
    TryShows(r, n, v, h, d);
    var p := Try(r, n, v, h, d);
    if p.out.err.Some? { RecoverShows(r, n, p, v, h, d); } else { TryRecords(r, n, v, h, d); }
  }

  lemma TryRecords(r: Run, n: Node, v: View, h: seq<Call>, d: nat)
    requires Sound(r) && IsNode(r.wf, n) && Mocked(n.kind) && Try(r, n, v, h, d).out.err.None?
    ensures Ask(r, n, v, h).reply.Done?
  {
    assert Body(r, n, v, h, d).out == LeafOut(n, v, Ask(r, n, v, h));
  }

  lemma RecoverShows(r: Run, n: Node, p: Pending, v: View, h: seq<Call>, d: nat)
    requires Sound(r) && IsNode(r.wf, n) && Mocked(n.kind) && MarksMocks(r.w) && Shows(p, n, r.dryRun)
    requires p.out.err.Some? && v.vars.Keys <= p.out.view.vars.Keys
    ensures var log := Recover(r, n, p, v, h, d).log;
            log != [] && ShowsMode(log[0], n, r.dryRun) && (p.entry.output.Some? ==> log[0].output.Some?)
  {
    var e := p.out.err.value;
    if PolicyOf(r.wf, n).Retry? && RetriesOf(r.wf, n) > 0 && Retryable(n.kind) {
      AttemptsShow(r, n, p, 1, h, d);
      var q := Attempts(r, n, p, 1, h, d);
      if q.out.err.Some? { GiveUpKeepsFirst(r, n, q, e, h, d); }
    } else {
      GiveUpKeepsFirst(r, n, p, e, h, d);
    }
  }

  /** No re-run from a mocked node repeats a dry run in which that node succeeded: its
      first result is a mock in the one and not in the other. */
  lemma DryRunShows(r: Run, n: Node, h: seq<Call>)
    requires Sound(r) && r.dryRun && MarksMocks(r.w) && FindTrigger(r.wf).Some? && IsNode(r.wf, n) && Mocked(n.kind)
    requires FirstResult(Execute(r, []).log, n.id) < |Execute(r, []).log|
    requires Execute(r, []).log[FirstResult(Execute(r, []).log, n.id)].output.Some?
    ensures var first := Execute(r, []).log[FirstResult(Execute(r, []).log, n.id)];
            var rerun := Rerun(r, Execute(r, []), n.id, map[], h).log;
            IsMock(first.output.value) && rerun != [] && rerun[0].nodeId == n.id &&
            (rerun[0].output.Some? ==> !IsMock(rerun[0].output.value))
  {
    var x := FirstOfBlock(r, n);
    MockedFirst(r, n, x.view, x.hist, x.depth);
    MockedFirst(Live(r), n, Restored(r, Execute(r, []), n.id, map[]), h, 0);
  }

  // ---- chains ----

  /** What the first result of a sub-workflow node tells about the check of the chain. */
  ghost predicate ShowsCheck(first: Entry, n: Node, e: Option<string>) {
    first.nodeId == n.id &&
    if e.Some? then first.output.None? && first.error == e
    else first.output.Some? || (first.error.Some? && first.error.value != [] && first.error.value[0] == 'S')
  }

  lemma SubFailure(name: string, e: string)
    ensures ("Sub-workflow '" + name + "' failed: " + e)[0] == 'S'
  {
  }

  ghost predicate ShowsError(b: BodyOut, e: Option<string>) {
    b.out.log == [] && (b.out.err.None? ==> b.next.Go? && e.None?) && (e.Some? ==> b.out.err == e) &&
    (b.out.err.Some? && e.None? ==> b.out.err.value != [] && b.out.err.value[0] == 'S')
  }

  lemma SubBodyShows(r: Run, n: Node, v: View, h: seq<Call>)
    requires Sound(r) && n.kind.SubWorkflow?
    ensures ShowsError(SubBody(r, n, v, h), SubError(r, n.kind))
  {
    var e := SubError(r, n.kind);
    if e.None? {
      var id := n.kind.workflowId;
      RankedChild(r.w, id);
      SmallerRoom(r, id);
      var x := Execute(ChildRun(r, id, SubInput(r, n, v)), h);
      if x.err.Some? { SubFailure(r.w.table[id].name, x.err.value); }
    }
  }

  lemma SubShows(r: Run, n: Node, v: View, h: seq<Call>, d: nat)
    requires Sound(r) && IsNode(r.wf, n) && n.kind.SubWorkflow?
    ensures ShowsError(Body(r, n, v, h, d), SubError(r, n.kind))
  {
    SubBodyShows(r, n, v, h);
  }

  lemma SubFirst(r: Run, n: Node, v: View, h: seq<Call>, d: nat)
    requires Sound(r) && IsNode(r.wf, n) && n.kind.SubWorkflow?
    ensures var log := Single(r, n, v, h, d).log;
            log != [] && ShowsCheck(log[0], n, SubError(r, n.kind))
  {
    SubShows(r, n, v, h, d);
    FirstOf(r, n, v, h, d);
  }

  lemma ChecksTellApart(e: Option<string>, e': Option<string>, first: Entry, first': Entry, n: Node)
    requires ShowsCheck(first, n, e) && ShowsCheck(first', n, e') && e != e'
    requires e.Some? ==> e.value != [] && e.value[0] != 'S'
    requires e'.Some? ==> e'.value != [] && e'.value[0] != 'S'
    ensures first != first'
  {
  }

  lemma ChainMessages(w: World, chain: seq<string>, k: Kind)
    requires k.SubWorkflow? && k.workflowId != "" && k.workflowId in w.table
    ensures var e := SubCheck(w, chain, k); e.Some? ==> e.value != [] && e.value[0] != 'S'
  {
    MessagesDiffer(chain, k.workflowId, NestingLimit(k));
  }

  /** The check of a sub-workflow node comes out alike in the chain of the original and in
      that of a re-run exactly when nothing is above the executing workflow, or the node's
      workflow is not in the chain and what is above does not take it to the limit. Unless
      it does, no re-run from the node repeats the original. */
  lemma ChainShows(r: Run, n: Node, above: seq<string>, h: seq<Call>)
    requires Sound(r) && FindTrigger(r.wf).Some? && IsNode(r.wf, n) && n.kind.SubWorkflow?
    requires r.chain == above + [r.wf.id] && n.kind.workflowId != "" && n.kind.workflowId in r.w.table
    requires FirstResult(Execute(r, []).log, n.id) < |Execute(r, []).log|
    ensures var k := n.kind;
            SubError(r, k) == SubError(Live(r), k) <==>
            above == [] || (k.workflowId !in r.chain && (|r.chain| >= NestingLimit(k) ==> NestingLimit(k) == 1))
    ensures var first := Execute(r, []).log[FirstResult(Execute(r, []).log, n.id)];
            var rerun := Rerun(r, Execute(r, []), n.id, map[], h).log;
            rerun != [] && (SubError(r, n.kind) != SubError(Live(r), n.kind) ==> first != rerun[0])
  {
    var x := FirstOfBlock(r, n);
    var v := Restored(r, Execute(r, []), n.id, map[]);
    WhenChecksAgree(r.w, n.kind, above, [r.wf.id]);
    FirstsDiffer(r, n, x.view, x.hist, x.depth, v, h);
  }

  lemma FirstsDiffer(r: Run, n: Node, v: View, h: seq<Call>, d: nat, v': View, h': seq<Call>)
    requires Sound(r) && IsNode(r.wf, n) && n.kind.SubWorkflow? && n.kind.workflowId != "" &&
             n.kind.workflowId in r.w.table
    ensures var log, log' := Single(r, n, v, h, d).log, Single(Live(r), n, v', h', 0).log;
            StartsWithOwn(log, n) && log' != [] &&
            (SubError(r, n.kind) != SubError(Live(r), n.kind) ==> log[0] != log'[0])
  {
    SubFirst(r, n, v, h, d);
    SubFirst(Live(r), n, v', h', 0);
    if SubError(r, n.kind) != SubError(Live(r), n.kind) {
      ChainMessages(r.w, r.chain, n.kind);
      ChainMessages(r.w, [r.wf.id], n.kind);
      ChecksTellApart(SubError(r, n.kind), SubError(Live(r), n.kind),
                      Single(r, n, v, h, d).log[0], Single(Live(r), n, v', h', 0).log[0], n);
    }
  }

  // ---- one of each ----

  /** A trigger, and one node after it. */
  function Line(id: string, n: Node): Workflow {
    Workflow(id, id, [EngineDepth.START, n], [Edge("t", "a", "")], map[], Stop, 0)
  }

  predicate InLine(n: Node) {
    n.id == "a" && (Mocked(n.kind) || n.kind.SubWorkflow?)
  }

  lemma LineNodes(id: string, n: Node, m: Node)
    requires InLine(n)
    ensures IsNode(Line(id, n), m) <==> m == EngineDepth.START || m == n
    ensures KeyOrder(Line(id, n).nodes) == ["t", "a"]
  {
    var nodes := Line(id, n).nodes;
    assert nodes[..1] == [EngineDepth.START] && nodes[..1][..0] == [];
    assert Lookup(nodes[..1], "t") == Some(EngineDepth.START);
    assert KeyOrder(nodes[..1]) == ["t"];
  }

  lemma LineEdge(id: string, n: Node)
    requires InLine(n)
    ensures Successors(Line(id, n), "t", None) == [n]
  {
    var wf := Line(id, n);
    LineNodes(id, n, n);
    assert Targets(wf.nodes, wf.edges[..0], "t", None) == [];
    assert Follows(wf.edges[0], "t", None) && Lookup(wf.nodes, wf.edges[0].target) == Some(n);
  }

  lemma LineIs(id: string, n: Node)
    requires InLine(n)
    ensures FindTrigger(Line(id, n)) == Some(EngineDepth.START) && Successors(Line(id, n), "t", None) == [n]
  {
    var wf := Line(id, n);
    LineNodes(id, n, n);
    LineNodes(id, n, EngineDepth.START);
    LineEdge(id, n);
    assert Values(wf.nodes)[0] == EngineDepth.START;
    assert FindTrigger(wf).Some?;
    LineNodes(id, n, FindTrigger(wf).value);
  }

  lemma LineIsRanked(id: string, n: Node)
    requires InLine(n)
    ensures Ranked(Line(id, n))
  {
    var wf := Line(id, n);
    forall m | IsNode(wf, m) ensures RanksFall(wf, map[], m) {
      LineNodes(id, n, m);
      if FindErrorHandler(wf, m.id).Some? { LineNodes(id, n, FindErrorHandler(wf, m.id).value); }
    }
    assert ValidRank(wf, map[]);
  }

  /** The node's first result follows the trigger's. */
  lemma LineFirst(r: Run, n: Node)
    requires Sound(r) && InLine(n) && r.wf == Line(r.wf.id, n) && IsNode(r.wf, n)
    requires FindTrigger(r.wf) == Some(EngineDepth.START) && Successors(r.wf, "t", None) == [n]
    requires StartsWithOwn(Single(r, n, TriggerView(r, EngineDepth.START), [], 0).log, n)
    ensures var log := Execute(r, []).log;
            FirstResult(log, n.id) == 1 < |log| &&
            log[1] == Single(r, n, TriggerView(r, EngineDepth.START), [], 0).log[0]
  {
    var v := TriggerView(r, EngineDepth.START);
    ExecuteParts(r);
    var a := Single(r, n, v, [], 0);
    assert a.log <= Nodes(r, [n], v, [], 0).log;
  }

  const CALL := Node("a", Action, "call", None, None)
  const ENTER := Node("a", SubWorkflow("p", 0), "enter", None, None)
  const RETURN := Node("a", SubWorkflow("c", 0), "return", None, None)

  /** Connectors that say whether they were called in a dry run. */
  const MOCKING := World((h: seq<Call>, q: Request) => Done(Obj(map["dry_run" := Bool(q.dryRun)]), "", map[], map[]),
                         (n, v, trigger) => map[], (h, n, v, left) => 0, map[])

  /** A dry run of one action, and a re-run from that action. */
  lemma DryRunOfAnAction(h: seq<Call>)
    ensures var r := Run(MOCKING, Line("w", CALL), map[], true, ["w"]);
            Sound(r) && FirstResult(Execute(r, []).log, "a") == 1 < |Execute(r, []).log| &&
            var rerun := Rerun(r, Execute(r, []), "a", map[], h).log;
            rerun != [] && rerun[0] != Execute(r, []).log[1]
  {
    var r := Run(MOCKING, Line("w", CALL), map[], true, ["w"]);
    LineIs("w", CALL);
    LineIsRanked("w", CALL);
    LineNodes("w", CALL, CALL);
    MockedFirst(r, CALL, TriggerView(r, EngineDepth.START), [], 0);
    LineFirst(r, CALL);
    DryRunShows(r, CALL, h);
  }

  /** Workflows `p` and `c` that enter each other. */
  const MUTUAL := World((h, q) => Done(Null, "", map[], map[]), (n, v, trigger) => map[], (h, n, v, left) => 0,
                        map["p" := Line("p", RETURN), "c" := Line("c", ENTER)])

  const CHILD := Run(MUTUAL, Line("c", ENTER), map[], false, ["p", "c"])

  lemma ChildIsSound()
    ensures Sound(CHILD) && IsNode(CHILD.wf, ENTER) && FindTrigger(CHILD.wf) == Some(EngineDepth.START)
    ensures Successors(CHILD.wf, "t", None) == [ENTER]
  {
    LineIs("c", ENTER);
    LineIsRanked("c", ENTER);
    LineIsRanked("p", RETURN);
    LineNodes("c", ENTER, ENTER);
  }

  lemma ChildChecks()
    ensures SubError(CHILD, ENTER.kind) == Some(Circular(["p", "c"], "p")) && SubError(Live(CHILD), ENTER.kind) == None
  {
  }

  /** The execution of `c` that `p` started, and its re-run: the first finds the circle, the
      second enters `p`. */
  lemma RerunEntersTheParent(h: seq<Call>)
    ensures Sound(CHILD) && FirstResult(Execute(CHILD, []).log, "a") == 1 < |Execute(CHILD, []).log|
    ensures Execute(CHILD, []).log[1].error == Some(Circular(["p", "c"], "p"))
    ensures var rerun := Rerun(CHILD, Execute(CHILD, []), "a", map[], h).log;
            rerun != [] && rerun[0] != Execute(CHILD, []).log[1]
  {
    ChildIsSound();
    ChildChecks();
    SubFirst(CHILD, ENTER, TriggerView(CHILD, EngineDepth.START), [], 0);
    LineFirst(CHILD, ENTER);
    ChildDiffers(CHILD, h);
  }

  lemma ChildDiffers(r: Run, h: seq<Call>)
    requires Sound(r) && FindTrigger(r.wf).Some? && IsNode(r.wf, ENTER) && r.chain == ["p", r.wf.id]
    requires "p" in r.w.table && SubError(r, ENTER.kind) != SubError(Live(r), ENTER.kind)
    requires FirstResult(Execute(r, []).log, "a") < |Execute(r, []).log|
    ensures var rerun := Rerun(r, Execute(r, []), "a", map[], h).log;
            rerun != [] && rerun[0] != Execute(r, []).log[FirstResult(Execute(r, []).log, "a")]
  {
    assert r.chain == ["p"] + [r.wf.id];
    ChainShows(r, ENTER, ["p"], h);
  }
}
