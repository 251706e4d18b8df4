/** Every node result belongs to one execution of its node, whose results form a
    contiguous block of the log that nothing outside that execution changes. */
module EngineBlocks {
  import opened Json
  import opened WorkflowGraph
  import opened WorkflowEngine
  import opened RunModes
  import opened EngineReplay

  /** One execution of a node: where it started. */
  datatype Start = Start(node: Node, view: View, hist: seq<Call>, depth: nat)

  /** An execution and the place of its results in a log. */
  datatype Spot = Spot(from: Start, at: nat, len: nat)

  /** Which results an execution leaves. */
  type Executions = (Start, seq<Entry>) -> bool

  /** Result `k` was recorded by the execution `s`, its replay state is the context in
      which that execution started, and the execution's results are its block. */
  predicate Located(leaves: Executions, log: seq<Entry>, k: nat, s: Spot) {
    s.at <= k < s.at + s.len <= |log| &&
    log[k].nodeId == s.from.node.id && log[k].replay == s.from.view &&
    leaves(s.from, log[s.at..s.at + s.len])
  }

  predicate Avoids(s: Spot, places: set<nat>) {
    forall i :: i in places ==> !(s.at <= i < s.at + s.len)
  }

  /** Some execution recorded result `k`, and its block avoids the places. */
  ghost predicate HasSpot(leaves: Executions, log: seq<Entry>, places: set<nat>, k: nat) {
    exists s :: Located(leaves, log, k, s) && Avoids(s, places)
  }

  ghost predicate AllLocated(leaves: Executions, log: seq<Entry>) {
    forall k :: 0 <= k < |log| ==> HasSpot(leaves, log, {}, k)
  }

  /** While a node is executing, its own entry is exactly at its places, and every other
      result lies in a block that avoids them. */
  ghost predicate Clean(leaves: Executions, n: Node, v: View, p: Pending) {
    p.entry.nodeId == n.id && p.entry.replay == v &&
    (forall i :: i in p.places ==> i < |p.out.log| && p.out.log[i] == p.entry) &&
    forall k :: 0 <= k < |p.out.log| && k !in p.places ==> HasSpot(leaves, p.out.log, p.places, k)
  }

  /** A spot stays one where its block sits unchanged in another log. */
  lemma Move(leaves: Executions, log: seq<Entry>, k: nat, s: Spot, log': seq<Entry>, off: nat, places: set<nat>)
    requires Located(leaves, log, k, s)
    requires off + s.at + s.len <= |log'|
    requires log'[off + s.at..off + s.at + s.len] == log[s.at..s.at + s.len]
    requires Avoids(s.(at := off + s.at), places)
    ensures HasSpot(leaves, log', places, off + k)
  {
    assert log[s.at..s.at + s.len][k - s.at] == log[k];
    assert log'[off + s.at..off + s.at + s.len][k - s.at] == log'[off + k];
    assert Located(leaves, log', off + k, s.(at := off + s.at));
  }

  lemma Join(leaves: Executions, a: seq<Entry>, b: seq<Entry>)
    requires AllLocated(leaves, a) && AllLocated(leaves, b)
    ensures AllLocated(leaves, a + b)
  {
    forall k | 0 <= k < |a + b| ensures HasSpot(leaves, a + b, {}, k) {
      if k < |a| {
        KeepSpot(leaves, a, k, b, {});
      } else {
        assert HasSpot(leaves, b, {}, k - |a|);
        ShiftSpot(leaves, a, b, k - |a|, {});
      }
    }
  }

  lemma CleanStart(leaves: Executions, n: Node, v: View, out: Out)
    requires AllLocated(leaves, out.log)
    ensures Clean(leaves, n, v, Pending(out, Open(n, v), {}))
  {
  }

  lemma CleanAppend(leaves: Executions, n: Node, v: View, p: Pending, e: Entry)
    requires Clean(leaves, n, v, p) && e.nodeId == n.id && e.replay == v
    ensures Clean(leaves, n, v, Append(p, e))
  {
    var p' := Append(p, e);
    var log, log' := p.out.log, p'.out.log;
    forall k | 0 <= k < |log'| && k !in p'.places ensures HasSpot(leaves, log', p'.places, k) {
      assert HasSpot(leaves, log, p.places, k);
      var s :| Located(leaves, log, k, s) && Avoids(s, p.places);
      assert log'[s.at..s.at + s.len] == log[s.at..s.at + s.len];
      Move(leaves, log, k, s, log', 0, p'.places);
    }
  }

  /** A spot survives appending results. */
  lemma KeepSpot(leaves: Executions, log: seq<Entry>, k: nat, more: seq<Entry>, places: set<nat>)
    requires HasSpot(leaves, log, places, k)
    ensures HasSpot(leaves, log + more, places, k)
  {
    var s :| Located(leaves, log, k, s) && Avoids(s, places);
    assert (log + more)[s.at..s.at + s.len] == log[s.at..s.at + s.len];
    Move(leaves, log, k, s, log + more, 0, places);
  }

  /** A spot of appended results is one of the whole log. */
  lemma ShiftSpot(leaves: Executions, log: seq<Entry>, more: seq<Entry>, i: nat, places: set<nat>)
    requires HasSpot(leaves, more, {}, i) && forall p :: p in places ==> p < |log|
    ensures HasSpot(leaves, log + more, places, |log| + i)
  {
    var s :| Located(leaves, more, i, s);
    assert (log + more)[|log| + s.at..|log| + s.at + s.len] == more[s.at..s.at + s.len];
    Move(leaves, more, i, s, log + more, |log|, places);
  }

  lemma CleanExtend(leaves: Executions, n: Node, v: View, p: Pending, more: Out)
    requires Clean(leaves, n, v, p) && AllLocated(leaves, more.log)
    ensures Clean(leaves, n, v, Extend(p, more))
  {
    var log := p.out.log;
    forall k | 0 <= k < |log + more.log| && k !in p.places ensures HasSpot(leaves, log + more.log, p.places, k) {
      if k < |log| {
        KeepSpot(leaves, log, k, more.log, p.places);
      } else {
        assert HasSpot(leaves, more.log, {}, k - |log|);
        ShiftSpot(leaves, log, more.log, k - |log|, p.places);
      }
    }
  }

  /** The view and the error of what is pending do not matter. */
  lemma CleanSameLog(leaves: Executions, n: Node, v: View, p: Pending, p': Pending)
    requires Clean(leaves, n, v, p)
    requires p'.out.log == p.out.log && p'.entry == p.entry && p'.places == p.places
    ensures Clean(leaves, n, v, p')
  {
  }

  lemma Close(leaves: Executions, x: Start, p: Pending)
    requires Clean(leaves, x.node, x.view, p) && leaves(x, p.out.log)
    ensures AllLocated(leaves, p.out.log)
  {
    var log := p.out.log;
    forall k | 0 <= k < |log| ensures HasSpot(leaves, log, {}, k) {
      if k in p.places {
        assert log[0..|log|] == log;
        var s := Spot(x, 0, |log|);
        assert Located(leaves, log, k, s) && Avoids(s, {});
      } else {
        assert HasSpot(leaves, log, p.places, k);
        var s :| Located(leaves, log, k, s) && Avoids(s, p.places);
        assert Avoids(s, {});
      }
    }
  }

  /** Every variable the workflow declares is set. */
  predicate HasVariables(r: Run, v: View) {
    r.wf.variables.Keys <= v.vars.Keys
  }

  /** The execution that starts at `x` leaves exactly these results. */
  ghost predicate Leaves(r: Run, x: Start, block: seq<Entry>) {
    Sound(r) && IsNode(r.wf, x.node) && HasVariables(r, x.view) &&
    block == Single(r, x.node, x.view, x.hist, x.depth).log
  }

  ghost function Of(r: Run): Executions {
    (x, block) => Leaves(r, x, block)
  }

  // ---- every executor ----

  lemma {:induction false} NodesLocated(r: Run, ns: seq<Node>, v: View, h: seq<Call>, d: nat)
    requires HasVariables(r, v) && Sound(r) && forall n :: n in ns ==> IsNode(r.wf, n)
    ensures var out := Nodes(r, ns, v, h, d); AllLocated(Of(r), out.log)
    decreases Room(r), NodesLevel(d), 0, 2
  {
    if d <= MAX_DEPTH { NodesFromLocated(r, ns, v, h, d); }
  }

  lemma {:induction false} NodesFromLocated(r: Run, ns: seq<Node>, v: View, h: seq<Call>, d: nat)
    requires HasVariables(r, v) && Sound(r) && (forall n :: n in ns ==> IsNode(r.wf, n)) && d <= MAX_DEPTH
    ensures var out := NodesFrom(r, ns, v, h, d); AllLocated(Of(r), out.log)
    decreases Room(r), NodesLevel(d), 0, 1, |ns|
  {
    if ns != [] {
      SingleLocated(r, ns[0], v, h, d);
      var a := Single(r, ns[0], v, h, d);
      if a.err.None? {
        NodesFromLocated(r, ns[1..], a.view, h + a.calls, d);
        var b := NodesFrom(r, ns[1..], a.view, h + a.calls, d);
        Join(Of(r), a.log, b.log);
      }
    }
  }

  lemma {:induction false} SingleLocated(r: Run, n: Node, v: View, h: seq<Call>, d: nat)
    requires HasVariables(r, v) && Sound(r) && IsNode(r.wf, n)
    ensures var out := Single(r, n, v, h, d); AllLocated(Of(r), out.log)
    decreases Room(r), Level(d), Rank(r, n), 9
  {
    TryClean(r, n, v, h, d);
    var p := Try(r, n, v, h, d);
    if p.out.err.None? {
      Close(Of(r), Start(n, v, h, d), p);
    } else {
      var q := RecoverClean(r, n, p, v, h, d);
      Close(Of(r), Start(n, v, h, d), q);
    }
  }

  lemma {:induction false} TryClean(r: Run, n: Node, v: View, h: seq<Call>, d: nat)
    requires HasVariables(r, v) && Sound(r) && IsNode(r.wf, n)
    ensures Clean(Of(r), n, v, Try(r, n, v, h, d))
    decreases Room(r), Level(d), Rank(r, n), 8
  {
    BodyLocated(r, n, v, h, d);
    var b := Body(r, n, v, h, d);
    var p := Pending(b.out, Open(n, v), {});
    CleanStart(Of(r), n, v, b.out);
    if b.out.err.None? {
      match b.next
      case Pass => CleanAppend(Of(r), n, v, p, p.entry.(status := Filtered));
      case Answer(output) =>
        CleanAppend(Of(r), n, v, p, Succeeded(p.entry, output));
        CleanSameLog(Of(r), n, v, Append(p, Succeeded(p.entry, output)), Try(r, n, v, h, d));
      case Go(output, handle) =>
        var p1 := Append(p, Succeeded(p.entry, output));
        CleanAppend(Of(r), n, v, p, Succeeded(p.entry, output));
        var p2 := p1.(out := p1.out.(view := Store(b.out.view, n, output)));
        CleanSameLog(Of(r), n, v, p1, p2);
        FollowUpClean(r, n, v, p2, handle, h, d);
    }
  }

  lemma {:induction false} FollowUpClean(r: Run, n: Node, v: View, p: Pending, handle: Option<string>, h: seq<Call>,
                                         d: nat)
    requires HasVariables(r, p.out.view)
    requires HasVariables(r, v) && Sound(r) && IsNode(r.wf, n) && Clean(Of(r), n, v, p)
    ensures Clean(Of(r), n, v, FollowUp(r, n, p, handle, h, d))
    decreases Room(r), Level(d), Rank(r, n), 1
  {
    var ss := Successors(r.wf, n.id, handle);
    if ss == [] {
      CleanSameLog(Of(r), n, v, p, p.(out := p.out.(err := None)));
    } else {
      NodesLocated(r, ss, p.out.view, h + p.out.calls, d + 1);
      CleanExtend(Of(r), n, v, p, Nodes(r, ss, p.out.view, h + p.out.calls, d + 1));
    }
  }

  lemma {:induction false} BodyLocated(r: Run, n: Node, v: View, h: seq<Call>, d: nat)
    requires HasVariables(r, v) && Sound(r) && IsNode(r.wf, n)
    ensures var b := Body(r, n, v, h, d); AllLocated(Of(r), b.out.log)
    decreases Room(r), Level(d), Rank(r, n), 7
  {
    match n.kind
    case Loop(_, _, _, _) => LoopLocated(r, n, v, h, d);
    case Parallel => ParallelLocated(r, n, v, h, d);
    case Batch(_, _, _, _, _) => BatchLocated(r, n, v, h, d);
    case _ =>
  }

  lemma {:induction false} LoopLocated(r: Run, n: Node, v: View, h: seq<Call>, d: nat)
    requires HasVariables(r, v) && Sound(r) && IsNode(r.wf, n) && n.kind.Loop?
    ensures AllLocated(Of(r), LoopBody(r, n, v, h, d).out.log)
    decreases Room(r), Level(d), Rank(r, n), 6
  {
    var list := ResolveValue(n.kind.arrayField, v, r.trigger);
    if list.Arr? {
      IterateLocated(r, n, Prefix(list.items, Min(n.kind.maxIterations, 1000)), 0, v, h, d);
    }
  }

  lemma {:induction false} ParallelLocated(r: Run, n: Node, v: View, h: seq<Call>, d: nat)
    requires HasVariables(r, v) && Sound(r) && IsNode(r.wf, n) && n.kind.Parallel?
    ensures AllLocated(Of(r), ParallelBody(r, n, v, h, d).out.log)
    decreases Room(r), Level(d), Rank(r, n), 6
  {
    var ss := Successors(r.wf, n.id, Some("branch"));
    if ss != [] { ScatterLocated(r, n, ss, v, h, d); }
  }

  lemma {:induction false} BatchLocated(r: Run, n: Node, v: View, h: seq<Call>, d: nat)
    requires HasVariables(r, v) && Sound(r) && IsNode(r.wf, n) && n.kind.Batch?
    ensures AllLocated(Of(r), BatchBody(r, n, v, h, d).out.log)
    decreases Room(r), Level(d), Rank(r, n), 6
  {
    var items := BatchItems(r, n, v);
    if items.Some? && n.kind.concurrency >= 0 {
      ProcessLocated(r, n, items.value, 0, v, h, d);
      ArrangeLocated(Of(r), PickOf(r.w, h, n, v), Window(n.kind), Process(r, n, items.value, 0, v, h, d).parts);
    }
  }

  ghost predicate PartsLocated(leaves: Executions, parts: seq<seq<Entry>>) {
    forall i :: 0 <= i < |parts| ==> AllLocated(leaves, parts[i])
  }

  /** Blocks lie within the results of one item, which are appended together. */
  lemma {:induction false} ArrangeLocated(leaves: Executions, pick: nat -> nat, window: nat, parts: seq<seq<Entry>>)
    requires window > 0 && PartsLocated(leaves, parts)
    ensures AllLocated(leaves, Arrange(pick, window, parts))
    decreases |parts|
  {
    if parts != [] {
      var i := Pick(pick, window, |parts|);
      ArrangeLocated(leaves, pick, window, Without(parts, i));
      Join(leaves, parts[i], Arrange(pick, window, Without(parts, i)));
    }
  }

  lemma {:induction false} IterateLocated(r: Run, n: Node, items: seq<Json>, i: nat, v: View, h: seq<Call>, d: nat)
    requires HasVariables(r, v) && Sound(r) && IsNode(r.wf, n) && n.kind.Loop? && i <= |items|
    ensures var x := Iterate(r, n, items, i, v, h, d); AllLocated(Of(r), x.out.log)
    decreases Room(r), Level(d), Rank(r, n), 4, |items| - i
  {
    if i < |items| {
      var bound := v.(vars := v.vars[n.kind.itemVar := items[i]][n.kind.indexVar := Num(i as real)]);
      var body := Successors(r.wf, n.id, Some("default"));
      RunBodyLocated(r, body, bound, h, d);
      var a := RunBody(r, body, bound, h, d);
      if a.err.None? {
        IterateLocated(r, n, items, i + 1, a.view, h + a.calls, d);
        var b := Iterate(r, n, items, i + 1, a.view, h + a.calls, d).out;
        Join(Of(r), a.log, b.log);
      }
    }
  }

  lemma {:induction false} RunBodyLocated(r: Run, body: seq<Node>, v: View, h: seq<Call>, d: nat)
    requires HasVariables(r, v) && Sound(r) && forall n :: n in body ==> IsNode(r.wf, n)
    ensures var out := RunBody(r, body, v, h, d); AllLocated(Of(r), out.log)
    decreases Room(r), Level(d), 0, 3
  {
    if body != [] { NodesLocated(r, body, v, h, d + 1); }
  }

  lemma {:induction false} ScatterLocated(r: Run, n: Node, ss: seq<Node>, v: View, h: seq<Call>, d: nat)
    requires HasVariables(r, v) && Sound(r) && IsNode(r.wf, n) && n.kind.Parallel?
    requires AreBranches(r, n, ss)
    ensures var x := Scatter(r, n, ss, v, h, d); AllLocated(Of(r), x.log)
    decreases Room(r), Level(d), Rank(r, n), 4, |ss|
  {
    if ss != [] {
      var front, s := ss[..|ss| - 1], ss[|ss| - 1];
      ScatterLocated(r, n, front, v, h, d);
      var x := Scatter(r, n, front, v, h, d);
      BranchRank(r, n, s);
      SingleLocated(r, s, v, h + x.calls, d + 1);
      var b := Single(r, s, v, h + x.calls, d + 1);
      Join(Of(r), x.log, b.log);
    }
  }

  lemma {:induction false} ProcessLocated(r: Run, n: Node, items: seq<Json>, i: nat, v: View, h: seq<Call>, d: nat)
    requires HasVariables(r, v) && Sound(r) && IsNode(r.wf, n) && n.kind.Batch? && i <= |items|
    ensures PartsLocated(Of(r), Process(r, n, items, i, v, h, d).parts)
    decreases Room(r), Level(d), Rank(r, n), 4, |items| - i
  {
    if i < |items| {
      var a := RunBody(r, BatchNodes(r, n), ItemView(v, items[i], i), h, d);
      RunBodyLocated(r, BatchNodes(r, n), ItemView(v, items[i], i), h, d);
      if !(a.err.Some? && n.kind.stopOnItemError) {
        ProcessLocated(r, n, items, i + 1, v, h + a.calls, d);
      }
    }
  }

  lemma {:induction false} RecoverClean(r: Run, n: Node, p: Pending, v: View, h: seq<Call>, d: nat) returns (q: Pending)
    requires HasVariables(r, v) && Sound(r) && IsNode(r.wf, n) && Clean(Of(r), n, v, p) && p.out.err.Some? &&
             v.vars.Keys <= p.out.view.vars.Keys
    ensures var out := Recover(r, n, p, v, h, d);
            Clean(Of(r), n, v, q) && out.log == q.out.log
    decreases Room(r), Level(d), Rank(r, n), 8
  {
    var e := p.out.err.value;
    if PolicyOf(r.wf, n).Retry? && RetriesOf(r.wf, n) > 0 && Retryable(n.kind) {
      AttemptsClean(r, n, v, p, 1, h, d);
      q := Attempts(r, n, p, 1, h, d);
      if q.out.err.Some? { q := GiveUpClean(r, n, v, q, e, h, d); }
    } else {
      q := GiveUpClean(r, n, v, p, e, h, d);
    }
  }

  lemma {:induction false} AttemptsClean(r: Run, n: Node, v: View, p: Pending, k: nat, h: seq<Call>, d: nat)
    requires HasVariables(r, p.out.view)
    requires HasVariables(r, v) && Sound(r) && IsNode(r.wf, n) && 1 <= k <= RetriesOf(r.wf, n) && Clean(Of(r), n, v, p)
    ensures Clean(Of(r), n, v, Attempts(r, n, p, k, h, d))
    decreases Room(r), Level(d), Rank(r, n), 5, RetriesOf(r.wf, n) - k
  {
    AttemptClean(r, n, v, p, k, h, d);
    var p1 := OneAttempt(r, n, p, k, h, d);
    if p1.out.err.Some? && k < RetriesOf(r.wf, n) { AttemptsClean(r, n, v, p1, k + 1, h, d); }
  }

  lemma {:induction false} AttemptClean(r: Run, n: Node, v: View, p: Pending, k: nat, h: seq<Call>, d: nat)
    requires HasVariables(r, p.out.view)
    requires HasVariables(r, v) && Sound(r) && IsNode(r.wf, n) && Clean(Of(r), n, v, p)
    ensures Clean(Of(r), n, v, OneAttempt(r, n, p, k, h, d))
    decreases Room(r), Level(d), Rank(r, n), 4
  {
    var c := Ask(r, n, p.out.view, h + p.out.calls);
    var asked := Extend(p, LeafOut(n, p.out.view, c));
    CleanExtend(Of(r), n, v, p, LeafOut(n, p.out.view, c));
    if c.reply.Done? {
      var e := Succeeded(p.entry, c.reply.output).(retries := k);
      CleanAppend(Of(r), n, v, asked, e);
      var done := Append(asked, e);
      var stored := done.(out := done.out.(view := Store(done.out.view, n, c.reply.output)));
      CleanSameLog(Of(r), n, v, done, stored);
      FollowUpClean(r, n, v, stored, None, h, d);
    }
  }

  lemma {:induction false} GiveUpClean(r: Run, n: Node, v: View, p: Pending, e: string, h: seq<Call>, d: nat)
      returns (q: Pending)
    requires HasVariables(r, p.out.view)
    requires HasVariables(r, v) && Sound(r) && IsNode(r.wf, n) && Clean(Of(r), n, v, p)
    ensures var out := GiveUp(r, n, p, e, h, d);
            Clean(Of(r), n, v, q) && out.log == q.out.log
    decreases Room(r), Level(d), Rank(r, n), 7
  {
    var entry := p.entry.(status := Failed, error := Some(e));
    CleanAppend(Of(r), n, v, p, entry);
    q := Append(p, entry);
    var failed := q.out;
    var handler := FindErrorHandler(r.wf, n.id);
    if handler.Some? {
      q := HandleClean(r, n, v, q, handler.value, e, h, d);
    } else if PolicyOf(r.wf, n).Continue? {
      var ss := Successors(r.wf, n.id, None);
      if ss != [] {
        NodesLocated(r, ss, failed.view, h + failed.calls, d + 1);
        var more := Nodes(r, ss, failed.view, h + failed.calls, d + 1);
        CleanExtend(Of(r), n, v, q, more);
        q := Extend(q, more);
      }
    }
  }

  lemma {:induction false} HandleClean(r: Run, n: Node, v: View, p: Pending, handler: Node, e: string, h: seq<Call>,
                                       d: nat)
      returns (q: Pending)
    requires HasVariables(r, p.out.view)
    requires Sound(r) && IsNode(r.wf, n) && Clean(Of(r), n, v, p) && FindErrorHandler(r.wf, n.id) == Some(handler)
    ensures Clean(Of(r), n, v, q) && Handle(r, n, handler, p.out, e, h, d).log == q.out.log
    decreases Room(r), Level(d), Rank(r, n), 6
  {
    HandlerRank(r, n, handler);
    var view := p.out.view.(vars := p.out.view.vars["_error" := ErrorInfo(n, p.out.view, e)]);
    SingleLocated(r, handler, view, h + p.out.calls, d + 1);
    var more := Single(r, handler, view, h + p.out.calls, d + 1);
    CleanExtend(Of(r), n, v, p, more);
    q := Extend(p, more);
  }

  // ---- `rerun_from_node` ----

  function FirstResult(log: seq<Entry>, id: string): (k: nat)
    ensures k <= |log| && (k < |log| ==> log[k].nodeId == id)
    ensures forall i :: 0 <= i < k ==> log[i].nodeId != id
  {
    if log == [] then 0 else if log[0].nodeId == id then 0 else 1 + FirstResult(log[1..], id)
  }

  /** The context a re-run starts from: the replay state of the first result of the
      node, or without one the final snapshot, which has no node outputs; then the
      override data, and the defaults of variables that are not set. */
  function Restored(r: Run, original: Out, id: string, override: Dict): View {
    var k := FirstResult(original.log, id);
    var v := if k < |original.log| then original.log[k].replay
             else View(original.view.data, original.view.vars, map[]);
    v.(data := v.data + override, vars := Defaults(r.wf.variables) + v.vars)
  }

  /** A re-run is live, and is not part of a chain of workflows. */
  function Live(r: Run): Run {
    r.(dryRun := false, chain := [r.wf.id])
  }

  function Rerun(r: Run, original: Out, id: string, override: Dict, h: seq<Call>): Out
    requires Sound(r)
  {
    var v := Restored(r, original, id, override);
    var n := Lookup(r.wf.nodes, id);
    if n.None? then Quiet(v).(err := Some("Node '" + id + "' not found in workflow"))
    else Single(Live(r), n.value, v, h, 0)
  }

  /** The original was live, or no node that it can reach calls a connector only when
      live; and it was started on its own, or every sub-workflow node that it can reach is
      checked as if it had been. */
  ghost predicate Replayable(r: Run) {
    (!r.dryRun || (DryBlind(r.w) && Unread(r.w, r.wf, r.chain))) &&
    (r.chain == [r.wf.id] || SameChecks(r.w, r.wf, r.chain, [r.wf.id]))
  }

  /** In terms of the workflows that `r.wf` leads to: none of them has a node that reads
      dry-run mode if the original was a dry run; and if there is a chain above `r.wf`, none
      is in it or can take it to a nesting limit, and they enter each other in no circle. */
  lemma FamilyIsReplayable(r: Run, above: seq<string>, ids: set<string>, level: map<string, nat>)
    requires r.chain == above + [r.wf.id] && Family(r.w, r.wf, ids)
    requires above == [] || Apart(r.w, r.wf, above, ids, level)
    requires r.dryRun ==>
               DryBlind(r.w) && NoneReads(r.wf) && forall id :: id in ids && id in r.w.table ==>
               NoneReads(r.w.table[id])
    ensures Replayable(r)
  {
    if r.dryRun { UnreadInFamily(r.w, r.wf, r.chain, ids); }
    if above == [] {
      assert r.chain == [r.wf.id];
    } else {
      ChainAboveUnnoticed(r.w, r.wf, above, [r.wf.id], ids, level);
    }
  }

  ghost function Begun(r: Run, x: Start): Out
    requires Sound(r) && IsNode(r.wf, x.node)
  {
    Single(r, x.node, x.view, x.hist, x.depth)
  }

  /** What a re-run has in common with the execution `x` of the node that it repeats,
      unless that execution hit the depth limit. */
  ghost predicate Repeats(r: Run, x: Start, block: seq<Entry>, rerun: Out) {
    Leaves(r, x, block) && (!Begun(r, x).guard ==> Match(r, Live(r), Begun(r, x), rerun))
  }

  /** Re-running from a node other than the trigger repeats the execution of the node that
      left its first result: the results of that execution are a contiguous block of the
      original's, and context, error and results of the re-run are its own. The results
      come in the same order if no batch runs items at once, and otherwise up to the order
      in which items complete; the calls are the same if the original was live. This covers
      executions that failed, retried, looped, branched or batched, as long as connectors
      are deterministic and the repeated execution never hit the depth limit. */
  lemma RerunReplaysBlock(r: Run, id: string, h: seq<Call>) returns (x: Start, start: nat, len: nat)
    requires Sound(r) && Deterministic(r.w) && Replayable(r)
    requires FindTrigger(r.wf).Some? && id != FindTrigger(r.wf).value.id
    requires FirstResult(Execute(r, []).log, id) < |Execute(r, []).log|
    ensures var original := Execute(r, []);
            var rerun := Rerun(r, original, id, map[], h);
            start <= FirstResult(original.log, id) < start + len <= |original.log| && x.node.id == id &&
            Repeats(r, x, original.log[start..start + len], rerun)
  {
    ExecuteParts(r);
    x, start, len := ReplayOf(r, Execute(r, []), id, h);
  }

  /** Spelled out for an original that was live, started on its own and ran no two items
      of a batch at once: the block is exactly the re-run's results. */
  lemma LiveRerunReplaysExactly(r: Run, id: string, h: seq<Call>) returns (x: Start, start: nat, len: nat)
    requires Sound(r) && Deterministic(r.w) && !r.dryRun && r.chain == [r.wf.id] && InOrder(r.wf)
    requires FindTrigger(r.wf).Some? && id != FindTrigger(r.wf).value.id
    requires FirstResult(Execute(r, []).log, id) < |Execute(r, []).log|
    ensures var original := Execute(r, []);
            start <= FirstResult(original.log, id) < start + len <= |original.log| &&
            Leaves(r, x, original.log[start..start + len]) &&
            (!Begun(r, x).guard ==> original.log[start..start + len] == Rerun(r, original, id, map[], h).log)
  {
    x, start, len := RerunReplaysBlock(r, id, h);
  }

  lemma ReplayOf(r: Run, original: Out, id: string, h: seq<Call>) returns (x: Start, start: nat, len: nat)
    requires Sound(r) && Deterministic(r.w) && Replayable(r)
    requires FindTrigger(r.wf).Some? && 1 <= FirstResult(original.log, id) < |original.log|
    requires var t := FindTrigger(r.wf).value;
             var body := Nodes(r, Successors(r.wf, t.id, None), TriggerView(r, t), [], 0);
             original.log == [TriggerEntry(t, TriggerView(r, t), r.trigger)] + body.log
    ensures start <= FirstResult(original.log, id) < start + len <= |original.log| && x.node.id == id &&
            Repeats(r, x, original.log[start..start + len], Rerun(r, original, id, map[], h))
  {
    x, start, len := BlockOf(r, original.log, FirstResult(original.log, id));
    RestoresStart(r, original, id, x);
    ReplaysStart(r, x, original.log[start..start + len], id, original, h);
  }

  /** The block in which a result lies, and where its execution started. */
  lemma BlockOf(r: Run, log: seq<Entry>, k: nat) returns (x: Start, start: nat, len: nat)
    requires Sound(r) && FindTrigger(r.wf).Some? && 1 <= k < |log|
    requires var t := FindTrigger(r.wf).value;
             var body := Nodes(r, Successors(r.wf, t.id, None), TriggerView(r, t), [], 0);
             log == [TriggerEntry(t, TriggerView(r, t), r.trigger)] + body.log
    ensures start <= k < start + len <= |log| && x.node.id == log[k].nodeId && x.view == log[k].replay
    ensures Leaves(r, x, log[start..start + len]) && HasVariables(r, x.view)
  {
    var s := ResultIsLocated(r, log, k);
    LocatedLeaves(r, log, k, s);
    x, start, len := s.from, s.at, s.len;
  }

  lemma LocatedLeaves(r: Run, log: seq<Entry>, k: nat, s: Spot)
    requires Located(Of(r), log, k, s)
    ensures s.at <= k < s.at + s.len <= |log| && s.from.node.id == log[k].nodeId && s.from.view == log[k].replay
    ensures Leaves(r, s.from, log[s.at..s.at + s.len]) && HasVariables(r, s.from.view)
  {
  }

  /** An execution is the trigger's result followed by the run of its successors. */
  lemma ExecuteParts(r: Run)
    requires Sound(r) && FindTrigger(r.wf).Some?
    ensures var t := FindTrigger(r.wf).value;
            var body := Nodes(r, Successors(r.wf, t.id, None), TriggerView(r, t), [], 0);
            Execute(r, []).log == [TriggerEntry(t, TriggerView(r, t), r.trigger)] + body.log
  {
  }

  /** Every result of an execution but the trigger's own lies in a block. */
  lemma ResultIsLocated(r: Run, log: seq<Entry>, k: nat) returns (s: Spot)
    requires Sound(r) && FindTrigger(r.wf).Some? && 1 <= k < |log|
    requires var t := FindTrigger(r.wf).value;
             var body := Nodes(r, Successors(r.wf, t.id, None), TriggerView(r, t), [], 0);
             log == [TriggerEntry(t, TriggerView(r, t), r.trigger)] + body.log
    ensures Located(Of(r), log, k, s)
  {
    var t := FindTrigger(r.wf).value;
    var ss := Successors(r.wf, t.id, None);
    NodesLocated(r, ss, TriggerView(r, t), [], 0);
    s := BehindFirst(Of(r), log, k);
  }

  lemma BehindFirst(leaves: Executions, log: seq<Entry>, k: nat) returns (s: Spot)
    requires 1 <= k < |log| && AllLocated(leaves, log[1..])
    ensures Located(leaves, log, k, s)
  {
    assert HasSpot(leaves, log[1..], {}, k - 1);
    ShiftSpot(leaves, log[..1], log[1..], k - 1, {});
    assert log[..1] + log[1..] == log;
    s :| Located(leaves, log, k, s);
  }

  /** With no override, the context restored is the one the execution started in. */
  lemma RestoresStart(r: Run, original: Out, id: string, x: Start)
    requires FirstResult(original.log, id) < |original.log|
    requires original.log[FirstResult(original.log, id)].replay == x.view && HasVariables(r, x.view)
    ensures Restored(r, original, id, map[]) == x.view
  {
    assert Defaults(r.wf.variables) + x.view.vars == x.view.vars;
    assert x.view.data + map[] == x.view.data;
  }

  lemma ReplaysStart(r: Run, x: Start, block: seq<Entry>, id: string, original: Out, h: seq<Call>)
    requires Sound(r) && Deterministic(r.w) && Replayable(r)
    requires Leaves(r, x, block) && x.node.id == id && Restored(r, original, id, map[]) == x.view
    ensures Repeats(r, x, block, Rerun(r, original, id, map[], h))
  {
    if !Begun(r, x).guard { SameSingle(r, Live(r), x.node, x.view, x.hist, h, x.depth, 0); }
  }
}
