/** What an execution records, however deep it goes: every reply is the oracle's to the
    calls that came before it, and every chain of sub-workflows it enters is free of repetitions, so
    nesting is bounded by the number of workflows. */
module EngineRecords {
  import opened Json
  import opened WorkflowGraph
  import opened WorkflowEngine

  predicate Distinct(c: seq<string>) {
    forall i, j :: 0 <= i < j < |c| ==> c[i] != c[j]
  }

  /** `c` continues `base` with workflows of the table, without a new repetition. */
  predicate Continues(w: World, base: seq<string>, c: seq<string>) {
    base <= c && (Distinct(base) ==> Distinct(c)) && forall i :: |base| <= i < |c| ==> c[i] in w.table
  }

  /** Call `i` got the reply that the connectors give after the history before it. */
  predicate AnsweredAt(w: World, h: seq<Call>, calls: seq<Call>, i: nat)
    requires i < |calls|
  {
    calls[i].reply == w.leaf(h + calls[..i], calls[i].request)
  }

  ghost predicate Answered(w: World, h: seq<Call>, calls: seq<Call>) {
    forall i :: 0 <= i < |calls| ==> AnsweredAt(w, h, calls, i)
  }

  ghost predicate Recorded(r: Run, h: seq<Call>, calls: seq<Call>, chains: seq<seq<string>>) {
    Answered(r.w, h, calls) && forall i :: 0 <= i < |chains| ==> Continues(r.w, r.chain, chains[i])
  }

  ghost predicate Records(r: Run, h: seq<Call>, out: Out) {
    Recorded(r, h, out.calls, out.entered)
  }

  lemma AnsweredBoth(w: World, h: seq<Call>, a: seq<Call>, b: seq<Call>)
    requires Answered(w, h, a) && Answered(w, h + a, b)
    ensures Answered(w, h, a + b)
  {
    forall i | 0 <= i < |a + b| ensures AnsweredAt(w, h, a + b, i) {
      if i < |a| {
        assert AnsweredAt(w, h, a, i) && (a + b)[..i] == a[..i];
      } else {
        assert AnsweredAt(w, h + a, b, i - |a|);
        assert h + (a + b)[..i] == h + a + b[..i - |a|];
      }
    }
  }

  lemma RecordedBoth(r: Run, h: seq<Call>, a: seq<Call>, cs: seq<seq<string>>, b: seq<Call>, ds: seq<seq<string>>)
    requires Recorded(r, h, a, cs) && Recorded(r, h + a, b, ds)
    ensures Recorded(r, h, a + b, cs + ds)
  {
    AnsweredBoth(r.w, h, a, b);
  }

  lemma ThenRecords(r: Run, h: seq<Call>, a: Out, b: Out)
    requires Records(r, h, a) && Records(r, h + a.calls, b)
    ensures Records(r, h, Then(a, b))
  {
    RecordedBoth(r, h, a.calls, a.entered, b.calls, b.entered);
  }

  lemma {:induction false} NodesRecords(r: Run, ns: seq<Node>, v: View, h: seq<Call>, d: nat)
    requires Sound(r) && forall n :: n in ns ==> IsNode(r.wf, n)
    ensures Records(r, h, Nodes(r, ns, v, h, d))
    decreases Room(r), NodesLevel(d), 0, 2
  {
    if d <= MAX_DEPTH { NodesFromRecords(r, ns, v, h, d); }
  }

  lemma {:induction false} NodesFromRecords(r: Run, ns: seq<Node>, v: View, h: seq<Call>, d: nat)
    requires Sound(r) && (forall n :: n in ns ==> IsNode(r.wf, n)) && d <= MAX_DEPTH
    ensures Records(r, h, NodesFrom(r, ns, v, h, d))
    decreases Room(r), NodesLevel(d), 0, 1, |ns|
  {
    if ns != [] {
      SingleRecords(r, ns[0], v, h, d);
      var a := Single(r, ns[0], v, h, d);
      if a.err.None? {
        NodesFromRecords(r, ns[1..], a.view, h + a.calls, d);
        ThenRecords(r, h, a, NodesFrom(r, ns[1..], a.view, h + a.calls, d));
      }
    }
  }

  lemma {:induction false} SingleRecords(r: Run, n: Node, v: View, h: seq<Call>, d: nat)
    requires Sound(r) && IsNode(r.wf, n)
    ensures Records(r, h, Single(r, n, v, h, d))
    decreases Room(r), Level(d), Rank(r, n), 9
  {
    TryRecords(r, n, v, h, d);
    var p := Try(r, n, v, h, d);
    if p.out.err.Some? { RecoverRecords(r, n, p, v, h, d); }
  }

  lemma {:induction false} TryRecords(r: Run, n: Node, v: View, h: seq<Call>, d: nat)
    requires Sound(r) && IsNode(r.wf, n)
    ensures Records(r, h, Try(r, n, v, h, d).out)
    decreases Room(r), Level(d), Rank(r, n), 8
  {
    BodyRecords(r, n, v, h, d);
    var b := Body(r, n, v, h, d);
    if b.out.err.None? && b.next.Go? {
      var p1 := Append(Pending(b.out, Open(n, v), {}), Succeeded(Open(n, v), b.next.output));
      FollowUpRecords(r, n, p1.(out := p1.out.(view := Store(b.out.view, n, b.next.output))), b.next.handle, h, d);
    }
  }

  lemma {:induction false} FollowUpRecords(r: Run, n: Node, p: Pending, handle: Option<string>, h: seq<Call>, d: nat)
    requires Sound(r) && IsNode(r.wf, n) && Records(r, h, p.out)
    ensures Records(r, h, FollowUp(r, n, p, handle, h, d).out)
    decreases Room(r), Level(d), Rank(r, n), 1
  {
    var ss := Successors(r.wf, n.id, handle);
    if ss != [] {
      NodesRecords(r, ss, p.out.view, h + p.out.calls, d + 1);
      ThenRecords(r, h, p.out, Nodes(r, ss, p.out.view, h + p.out.calls, d + 1));
    }
  }

  lemma AskRecords(r: Run, n: Node, v: View, h: seq<Call>)
    ensures Records(r, h, LeafOut(n, v, Ask(r, n, v, h)))
  {
    assert h + [Ask(r, n, v, h)][..0] == h;
  }

  lemma {:induction false} BodyRecords(r: Run, n: Node, v: View, h: seq<Call>, d: nat)
    requires Sound(r) && IsNode(r.wf, n)
    ensures Records(r, h, Body(r, n, v, h, d).out)
    decreases Room(r), Level(d), Rank(r, n), 7
  {
    AskRecords(r, n, v, h);
    match n.kind
    case Loop(_, _, _, _) => LoopRecords(r, n, v, h, d);
    case Parallel => ParallelRecords(r, n, v, h, d);
    case Batch(_, _, _, _, _) => BatchRecords(r, n, v, h, d);
    case SubWorkflow(_, _) => SubRecords(r, n, v, h);
    case _ =>
  }

  lemma {:induction false} LoopRecords(r: Run, n: Node, v: View, h: seq<Call>, d: nat)
    requires Sound(r) && IsNode(r.wf, n) && n.kind.Loop?
    ensures Records(r, h, LoopBody(r, n, v, h, d).out)
    decreases Room(r), Level(d), Rank(r, n), 6
  {
    var list := ResolveValue(n.kind.arrayField, v, r.trigger);
    if list.Arr? { IterateRecords(r, n, Prefix(list.items, Min(n.kind.maxIterations, 1000)), 0, v, h, d); }
  }

  lemma {:induction false} IterateRecords(r: Run, n: Node, items: seq<Json>, i: nat, v: View, h: seq<Call>, d: nat)
    requires Sound(r) && IsNode(r.wf, n) && n.kind.Loop? && i <= |items|
    ensures Records(r, h, Iterate(r, n, items, i, v, h, d).out)
    decreases Room(r), Level(d), Rank(r, n), 4, |items| - i
  {
    if i < |items| {
      var bound := v.(vars := v.vars[n.kind.itemVar := items[i]][n.kind.indexVar := Num(i as real)]);
      var body := Successors(r.wf, n.id, Some("default"));
      RunBodyRecords(r, body, bound, h, d);
      var a := RunBody(r, body, bound, h, d);
      if a.err.None? {
        IterateRecords(r, n, items, i + 1, a.view, h + a.calls, d);
        ThenRecords(r, h, a, Iterate(r, n, items, i + 1, a.view, h + a.calls, d).out);
      }
    }
  }

  lemma {:induction false} RunBodyRecords(r: Run, body: seq<Node>, v: View, h: seq<Call>, d: nat)
    requires Sound(r) && forall n :: n in body ==> IsNode(r.wf, n)
    ensures Records(r, h, RunBody(r, body, v, h, d))
    decreases Room(r), Level(d), 0, 3
  {
    if body != [] { NodesRecords(r, body, v, h, d + 1); }
  }

  lemma {:induction false} ParallelRecords(r: Run, n: Node, v: View, h: seq<Call>, d: nat)
    requires Sound(r) && IsNode(r.wf, n) && n.kind.Parallel?
    ensures Records(r, h, ParallelBody(r, n, v, h, d).out)
    decreases Room(r), Level(d), Rank(r, n), 6
  {
    var ss := Successors(r.wf, n.id, Some("branch"));
    if ss != [] { ScatterRecords(r, n, ss, v, h, d); }
  }

  lemma {:induction false} ScatterRecords(r: Run, n: Node, ss: seq<Node>, v: View, h: seq<Call>, d: nat)
    requires Sound(r) && IsNode(r.wf, n) && n.kind.Parallel?
    requires AreBranches(r, n, ss)
    ensures Recorded(r, h, Scatter(r, n, ss, v, h, d).calls, Scatter(r, n, ss, v, h, d).entered)
    decreases Room(r), Level(d), Rank(r, n), 4, |ss|
  {
    if ss != [] {
      var front, s := ss[..|ss| - 1], ss[|ss| - 1];
      ScatterRecords(r, n, front, v, h, d);
      BranchRank(r, n, s);
      var x := Scatter(r, n, front, v, h, d);
      SingleRecords(r, s, v, h + x.calls, d + 1);
      var b := Single(r, s, v, h + x.calls, d + 1);
      RecordedBoth(r, h, x.calls, x.entered, b.calls, b.entered);
    }
  }

  lemma {:induction false} BatchRecords(r: Run, n: Node, v: View, h: seq<Call>, d: nat)
    requires Sound(r) && IsNode(r.wf, n) && n.kind.Batch?
    ensures Records(r, h, BatchBody(r, n, v, h, d).out)
    decreases Room(r), Level(d), Rank(r, n), 6
  {
    var items := BatchItems(r, n, v);
    if items.Some? && n.kind.concurrency >= 0 { ProcessRecords(r, n, items.value, 0, v, h, d); }
  }

  lemma {:induction false} ProcessRecords(r: Run, n: Node, items: seq<Json>, i: nat, v: View, h: seq<Call>, d: nat)
    requires Sound(r) && IsNode(r.wf, n) && n.kind.Batch? && i <= |items|
    ensures Recorded(r, h, Process(r, n, items, i, v, h, d).calls, Process(r, n, items, i, v, h, d).entered)
    decreases Room(r), Level(d), Rank(r, n), 4, |items| - i
  {
    if i < |items| {
      var a := RunBody(r, BatchNodes(r, n), ItemView(v, items[i], i), h, d);
      RunBodyRecords(r, BatchNodes(r, n), ItemView(v, items[i], i), h, d);
      if !(a.err.Some? && n.kind.stopOnItemError) {
        ProcessRecords(r, n, items, i + 1, v, h + a.calls, d);
        var rest := Process(r, n, items, i + 1, v, h + a.calls, d);
        RecordedBoth(r, h, a.calls, a.entered, rest.calls, rest.entered);
      }
    }
  }

  lemma {:induction false} SubRecords(r: Run, n: Node, v: View, h: seq<Call>)
    requires Sound(r) && n.kind.SubWorkflow?
    ensures Records(r, h, SubBody(r, n, v, h).out)
    decreases Room(r), 0, 0, 1
  {
    if SubError(r, n.kind).None? {
      var mapped := r.w.subInput(n, v, r.trigger);
      ChildRecords(r, n.kind.workflowId, if mapped == map[] then v.data else mapped, h);
    }
  }

  lemma {:induction false} ChildRecords(r: Run, id: string, input: Dict, h: seq<Call>)
    requires Sound(r) && id in r.w.table && id !in r.chain
    ensures Ranked(ChildOf(r.w, id))
    ensures Records(r, h, Execute(Run(r.w, ChildOf(r.w, id), input, r.dryRun, r.chain + [id]), h))
    decreases Room(r), 0, 0, 0
  {
    RankedChild(r.w, id);
    SmallerRoom(r, id);
    var child := Run(r.w, ChildOf(r.w, id), input, r.dryRun, r.chain + [id]);
    ExecuteRecords(child, h);
    var cs := Execute(child, h).entered;
    forall i | 0 <= i < |cs| ensures Continues(r.w, r.chain, cs[i]) {
      assert Continues(r.w, r.chain + [id], cs[i]);
      assert r.chain <= r.chain + [id] <= cs[i];
    }
  }

  lemma {:induction false} RecoverRecords(r: Run, n: Node, p: Pending, v: View, h: seq<Call>, d: nat)
    requires Sound(r) && IsNode(r.wf, n) && p.out.err.Some? && v.vars.Keys <= p.out.view.vars.Keys
    requires Records(r, h, p.out)
    ensures Records(r, h, Recover(r, n, p, v, h, d))
    decreases Room(r), Level(d), Rank(r, n), 8
  {
    var e := p.out.err.value;
    if PolicyOf(r.wf, n).Retry? && RetriesOf(r.wf, n) > 0 && Retryable(n.kind) {
      AttemptsRecords(r, n, p, 1, h, d);
      var p' := Attempts(r, n, p, 1, h, d);
      if p'.out.err.Some? { GiveUpRecords(r, n, p', e, h, d); }
    } else {
      GiveUpRecords(r, n, p, e, h, d);
    }
  }

  lemma {:induction false} AttemptsRecords(r: Run, n: Node, p: Pending, k: nat, h: seq<Call>, d: nat)
    requires Sound(r) && IsNode(r.wf, n) && 1 <= k <= RetriesOf(r.wf, n) && Records(r, h, p.out)
    ensures Records(r, h, Attempts(r, n, p, k, h, d).out)
    decreases Room(r), Level(d), Rank(r, n), 5, RetriesOf(r.wf, n) - k
  {
    AttemptRecords(r, n, p, k, h, d);
    var p1 := OneAttempt(r, n, p, k, h, d);
    if p1.out.err.Some? && k < RetriesOf(r.wf, n) { AttemptsRecords(r, n, p1, k + 1, h, d); }
  }

  lemma {:induction false} AttemptRecords(r: Run, n: Node, p: Pending, k: nat, h: seq<Call>, d: nat)
    requires Sound(r) && IsNode(r.wf, n) && Records(r, h, p.out)
    ensures Records(r, h, OneAttempt(r, n, p, k, h, d).out)
    decreases Room(r), Level(d), Rank(r, n), 4
  {
    var c := Ask(r, n, p.out.view, h + p.out.calls);
    AskRecords(r, n, p.out.view, h + p.out.calls);
    ThenRecords(r, h, p.out, LeafOut(n, p.out.view, c));
    if c.reply.Done? {
      var done := Append(Extend(p, LeafOut(n, p.out.view, c)), Succeeded(p.entry, c.reply.output).(retries := k));
      FollowUpRecords(r, n, done.(out := done.out.(view := Store(done.out.view, n, c.reply.output))), None, h, d);
    }
  }

  lemma {:induction false} GiveUpRecords(r: Run, n: Node, p: Pending, e: string, h: seq<Call>, d: nat)
    requires Sound(r) && IsNode(r.wf, n) && Records(r, h, p.out)
    ensures Records(r, h, GiveUp(r, n, p, e, h, d))
    decreases Room(r), Level(d), Rank(r, n), 7
  {
    var failed := Append(p, p.entry.(status := Failed, error := Some(e))).out;
    var handler := FindErrorHandler(r.wf, n.id);
    if handler.Some? {
      HandleRecords(r, n, handler.value, failed, e, h, d);
    } else if PolicyOf(r.wf, n).Continue? {
      var ss := Successors(r.wf, n.id, None);
      if ss != [] {
        NodesRecords(r, ss, failed.view, h + failed.calls, d + 1);
        ThenRecords(r, h, failed, Nodes(r, ss, failed.view, h + failed.calls, d + 1));
      }
    }
  }

  lemma {:induction false} HandleRecords(r: Run, n: Node, handler: Node, failed: Out, e: string, h: seq<Call>, d: nat)
    requires Sound(r) && IsNode(r.wf, n) && FindErrorHandler(r.wf, n.id) == Some(handler) && Records(r, h, failed)
    ensures Records(r, h, Handle(r, n, handler, failed, e, h, d))
    decreases Room(r), Level(d), Rank(r, n), 6
  {
    HandleIs(r, n, handler, failed, e, h, d);
    SingleRecords(r, handler, HandlerView(n, failed, e), h + failed.calls, d + 1);
    ThenRecords(r, h, failed, Single(r, handler, HandlerView(n, failed, e), h + failed.calls, d + 1));
  }

  /** Call by call, an execution gets the oracle's reply to the history at that point. */
  lemma {:induction false} ExecuteRecords(r: Run, h: seq<Call>)
    requires Sound(r)
    ensures Records(r, h, Execute(r, h))
    decreases Room(r), NodesLevel(0) + 1, 0, 0
  {
    var t := FindTrigger(r.wf);
    if t.Some? {
      var ss, v := Successors(r.wf, t.value.id, None), TriggerView(r, t.value);
      assert h + TriggerOut(r, t.value).calls == h;
      NodesRecords(r, ss, v, h, 0);
      ThenRecords(r, h, TriggerOut(r, t.value), Nodes(r, ss, v, h, 0));
    }
  }

  // ---- the bound ----

  lemma {:induction false} DistinctIsSmall(c: seq<string>, table: set<string>)
    requires Distinct(c) && forall i :: 0 <= i < |c| ==> c[i] in table
    ensures |c| <= |table|
    decreases |c|
  {
    if c != [] {
      var last := c[|c| - 1];
      DistinctIsSmall(c[..|c| - 1], table - {last});
    }
  }

  /** An execution started on its own enters only chains without repetition, and none
      is longer than one more than the number of workflows. */
  lemma ChainsAreDistinctAndShort(r: Run, h: seq<Call>, c: seq<string>)
    requires Sound(r) && |r.chain| == 1 && c in Execute(r, h).entered
    ensures Distinct(c) && r.chain <= c && |c| <= 1 + |r.w.table|
  {
    ExecuteRecords(r, h);
    var i :| 0 <= i < |Execute(r, h).entered| && Execute(r, h).entered[i] == c;
    assert Continues(r.w, r.chain, c);
    DistinctIsSmall(c[1..], r.w.table.Keys);
  }
}
