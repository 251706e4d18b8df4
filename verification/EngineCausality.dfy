/** Causality: what a run does up to and including its next connector call is decided by
    the replies it has received, so a run can be suspended at a call and resumed. */
module EngineCausality {
  import opened Json
  import opened WorkflowGraph
  import opened WorkflowEngine

  /** The two worlds differ in their connectors only, and those agree on histories
      shorter than `k`. */
  ghost predicate AgreeUntil(a: World, b: World, k: nat) {
    a.table == b.table && a.subInput == b.subInput && a.order == b.order &&
    forall h, q :: |h| < k ==> a.leaf(h, q) == b.leaf(h, q)
  }

  /** Both runs reach call `k`, with the same calls before it and the same request. */
  predicate Cut(k: nat, h: seq<Call>, a: seq<Call>, b: seq<Call>) {
    |h| <= k && |h| + |a| > k && |h| + |b| > k &&
    var i := k - |h|;
    a[..i] == b[..i] && a[i].request == b[i].request
  }

  /** The part of the run that ends before call `k`. */
  predicate Within(k: nat, h: seq<Call>, a: seq<Call>) {
    |h| + |a| <= k
  }

  lemma CutExtends(k: nat, h: seq<Call>, a: seq<Call>, b: seq<Call>, a': seq<Call>, b': seq<Call>)
    requires Cut(k, h, a, b) && a <= a' && b <= b'
    ensures Cut(k, h, a', b')
  {
    var i := k - |h|;
    assert a'[..i] == a[..i] && b'[..i] == b[..i];
  }

  lemma CutLater(k: nat, h: seq<Call>, pre: seq<Call>, a: seq<Call>, b: seq<Call>)
    requires Cut(k, h + pre, a, b)
    ensures Cut(k, h, pre + a, pre + b)
  {
    var i := k - |h|;
    assert (pre + a)[..i] == pre + a[..i - |pre|] && (pre + b)[..i] == pre + b[..i - |pre|];
  }

  ghost predicate Pair(r: Run, s: Run, k: nat, h: seq<Call>) {
    Sound(r) && AgreeUntil(r.w, s.w, k) && s == r.(w := s.w) && |h| <= k
  }

  lemma {:induction false} NodesCausal(r: Run, s: Run, k: nat, ns: seq<Node>, v: View, h: seq<Call>, d: nat)
    requires Pair(r, s, k, h) && Sound(s) && forall n :: n in ns ==> IsNode(r.wf, n)
    ensures var a, b := Nodes(r, ns, v, h, d), Nodes(s, ns, v, h, d);
            (Within(k, h, a.calls) && a == b) || Cut(k, h, a.calls, b.calls)
    decreases Room(r), NodesLevel(d), 0, 2
  {
    if d <= MAX_DEPTH { NodesFromCausal(r, s, k, ns, v, h, d); }
  }

  lemma {:induction false} NodesFromCausal(r: Run, s: Run, k: nat, ns: seq<Node>, v: View, h: seq<Call>, d: nat)
    requires Pair(r, s, k, h) && Sound(s) && (forall n :: n in ns ==> IsNode(r.wf, n)) && d <= MAX_DEPTH
    ensures var a, b := NodesFrom(r, ns, v, h, d), NodesFrom(s, ns, v, h, d);
            (Within(k, h, a.calls) && a == b) || Cut(k, h, a.calls, b.calls)
    decreases Room(r), NodesLevel(d), 0, 1, |ns|
  {
    if ns != [] {
      SingleCausal(r, s, k, ns[0], v, h, d);
      var a, b := Single(r, ns[0], v, h, d), Single(s, ns[0], v, h, d);
      if Cut(k, h, a.calls, b.calls) {
        CutExtends(k, h, a.calls, b.calls, NodesFrom(r, ns, v, h, d).calls, NodesFrom(s, ns, v, h, d).calls);
      } else if a.err.None? {
        NodesFromCausal(r, s, k, ns[1..], a.view, h + a.calls, d);
        var x, y := NodesFrom(r, ns[1..], a.view, h + a.calls, d), NodesFrom(s, ns[1..], a.view, h + a.calls, d);
        if Cut(k, h + a.calls, x.calls, y.calls) { CutLater(k, h, a.calls, x.calls, y.calls); }
      }
    }
  }

  lemma {:induction false} SingleCausal(r: Run, s: Run, k: nat, n: Node, v: View, h: seq<Call>, d: nat)
    requires Pair(r, s, k, h) && Sound(s) && IsNode(r.wf, n)
    ensures var a, b := Single(r, n, v, h, d), Single(s, n, v, h, d);
            (Within(k, h, a.calls) && a == b) || Cut(k, h, a.calls, b.calls)
    decreases Room(r), Level(d), Rank(r, n), 9
  {
    TryCausal(r, s, k, n, v, h, d);
    var p, q := Try(r, n, v, h, d), Try(s, n, v, h, d);
    if Cut(k, h, p.out.calls, q.out.calls) {
      CutExtends(k, h, p.out.calls, q.out.calls, Single(r, n, v, h, d).calls, Single(s, n, v, h, d).calls);
    } else if p.out.err.Some? {
      RecoverCausal(r, s, k, n, p, v, h, d);
    }
  }

  lemma {:induction false} TryCausal(r: Run, s: Run, k: nat, n: Node, v: View, h: seq<Call>, d: nat)
    requires Pair(r, s, k, h) && Sound(s) && IsNode(r.wf, n)
    ensures var p, q := Try(r, n, v, h, d), Try(s, n, v, h, d);
            (Within(k, h, p.out.calls) && p == q) || Cut(k, h, p.out.calls, q.out.calls)
    decreases Room(r), Level(d), Rank(r, n), 8
  {
    BodyCausal(r, s, k, n, v, h, d);
    var a, b := Body(r, n, v, h, d), Body(s, n, v, h, d);
    TryExtendsBody(r, n, v, h, d);
    TryExtendsBody(s, n, v, h, d);
    if Cut(k, h, a.out.calls, b.out.calls) {
      CutExtends(k, h, a.out.calls, b.out.calls, Try(r, n, v, h, d).out.calls, Try(s, n, v, h, d).out.calls);
    } else if a.out.err.None? && a.next.Go? {
      var p1 := Append(Pending(a.out, Open(n, v), {}), Succeeded(Open(n, v), a.next.output));
      FollowUpCausal(r, s, k, n, p1.(out := p1.out.(view := Store(a.out.view, n, a.next.output))), a.next.handle, h, d);
    }
  }

  lemma TryExtendsBody(r: Run, n: Node, v: View, h: seq<Call>, d: nat)
    requires Sound(r) && IsNode(r.wf, n)
    ensures Body(r, n, v, h, d).out.calls <= Try(r, n, v, h, d).out.calls
  {
  }

  lemma {:induction false} FollowUpCausal(r: Run, s: Run, k: nat, n: Node, p: Pending, handle: Option<string>,
                                          h: seq<Call>, d: nat)
    requires Pair(r, s, k, h) && Sound(s) && IsNode(r.wf, n) && Within(k, h, p.out.calls)
    ensures var a, b := FollowUp(r, n, p, handle, h, d), FollowUp(s, n, p, handle, h, d);
            (Within(k, h, a.out.calls) && a == b) || Cut(k, h, a.out.calls, b.out.calls)
    decreases Room(r), Level(d), Rank(r, n), 1
  {
    var ss := Successors(r.wf, n.id, handle);
    if ss != [] {
      var h1 := h + p.out.calls;
      NodesCausal(r, s, k, ss, p.out.view, h1, d + 1);
      var x, y := Nodes(r, ss, p.out.view, h1, d + 1), Nodes(s, ss, p.out.view, h1, d + 1);
      if Cut(k, h1, x.calls, y.calls) { CutLater(k, h, p.out.calls, x.calls, y.calls); }
    }
  }

  lemma LeafCausal(r: Run, s: Run, k: nat, n: Node, v: View, h: seq<Call>)
    requires Pair(r, s, k, h)
    ensures var a, b := Ask(r, n, v, h), Ask(s, n, v, h);
            a.request == b.request && (|h| < k ==> a == b) && (|h| == k ==> Cut(k, h, [a], [b]))
  {
  }

  lemma {:induction false} BodyCausal(r: Run, s: Run, k: nat, n: Node, v: View, h: seq<Call>, d: nat)
    requires Pair(r, s, k, h) && Sound(s) && IsNode(r.wf, n)
    ensures var a, b := Body(r, n, v, h, d), Body(s, n, v, h, d);
            (Within(k, h, a.out.calls) && a == b) || Cut(k, h, a.out.calls, b.out.calls)
    decreases Room(r), Level(d), Rank(r, n), 7
  {
    if IsLeaf(n.kind) {
      LeafCausal(r, s, k, n, v, h);
    } else {
      match n.kind
      case Loop(_, _, _, _) => LoopCausal(r, s, k, n, v, h, d);
      case Parallel => ParallelCausal(r, s, k, n, v, h, d);
      case Batch(_, _, _, _, _) => BatchCausal(r, s, k, n, v, h, d);
      case SubWorkflow(_, _) => SubCausal(r, s, k, n, v, h);
      case _ =>
    }
  }

  lemma {:induction false} LoopCausal(r: Run, s: Run, k: nat, n: Node, v: View, h: seq<Call>, d: nat)
    requires Pair(r, s, k, h) && Sound(s) && IsNode(r.wf, n) && n.kind.Loop?
    ensures var a, b := LoopBody(r, n, v, h, d), LoopBody(s, n, v, h, d);
            (Within(k, h, a.out.calls) && a == b) || Cut(k, h, a.out.calls, b.out.calls)
    decreases Room(r), Level(d), Rank(r, n), 6
  {
    var list := ResolveValue(n.kind.arrayField, v, r.trigger);
    if list.Arr? { IterateCausal(r, s, k, n, Prefix(list.items, Min(n.kind.maxIterations, 1000)), 0, v, h, d); }
  }

  lemma {:induction false} IterateCausal(r: Run, s: Run, k: nat, n: Node, items: seq<Json>, i: nat, v: View,
                                         h: seq<Call>, d: nat)
    requires Pair(r, s, k, h) && Sound(s) && IsNode(r.wf, n) && n.kind.Loop? && i <= |items|
    ensures var a, b := Iterate(r, n, items, i, v, h, d), Iterate(s, n, items, i, v, h, d);
            (Within(k, h, a.out.calls) && a == b) || Cut(k, h, a.out.calls, b.out.calls)
    decreases Room(r), Level(d), Rank(r, n), 4, |items| - i
  {
    if i < |items| {
      var bound := v.(vars := v.vars[n.kind.itemVar := items[i]][n.kind.indexVar := Num(i as real)]);
      var body := Successors(r.wf, n.id, Some("default"));
      RunBodyCausal(r, s, k, body, bound, h, d);
      var a, b := RunBody(r, body, bound, h, d), RunBody(s, body, bound, h, d);
      if Cut(k, h, a.calls, b.calls) {
        CutExtends(k, h, a.calls, b.calls, Iterate(r, n, items, i, v, h, d).out.calls,
                   Iterate(s, n, items, i, v, h, d).out.calls);
      } else if a.err.None? {
        var h1 := h + a.calls;
        IterateCausal(r, s, k, n, items, i + 1, a.view, h1, d);
        var x, y := Iterate(r, n, items, i + 1, a.view, h1, d).out, Iterate(s, n, items, i + 1, a.view, h1, d).out;
        if Cut(k, h1, x.calls, y.calls) { CutLater(k, h, a.calls, x.calls, y.calls); }
      }
    }
  }

  lemma {:induction false} RunBodyCausal(r: Run, s: Run, k: nat, body: seq<Node>, v: View, h: seq<Call>, d: nat)
    requires Pair(r, s, k, h) && Sound(s) && forall n :: n in body ==> IsNode(r.wf, n)
    ensures var a, b := RunBody(r, body, v, h, d), RunBody(s, body, v, h, d);
            (Within(k, h, a.calls) && a == b) || Cut(k, h, a.calls, b.calls)
    decreases Room(r), Level(d), 0, 3
  {
    if body != [] { NodesCausal(r, s, k, body, v, h, d + 1); }
  }

  lemma {:induction false} ParallelCausal(r: Run, s: Run, k: nat, n: Node, v: View, h: seq<Call>, d: nat)
    requires Pair(r, s, k, h) && Sound(s) && IsNode(r.wf, n) && n.kind.Parallel?
    ensures var a, b := ParallelBody(r, n, v, h, d), ParallelBody(s, n, v, h, d);
            (Within(k, h, a.out.calls) && a == b) || Cut(k, h, a.out.calls, b.out.calls)
    decreases Room(r), Level(d), Rank(r, n), 6
  {
    var ss := Successors(r.wf, n.id, Some("branch"));
    if ss != [] { ScatterCausal(r, s, k, n, ss, v, h, d); }
  }

  lemma {:induction false} ScatterCausal(r: Run, s: Run, k: nat, n: Node, ss: seq<Node>, v: View, h: seq<Call>, d: nat)
    requires Pair(r, s, k, h) && Sound(s) && IsNode(r.wf, n) && n.kind.Parallel?
    requires forall x :: x in ss ==> x in Successors(r.wf, n.id, Some("branch"))
    ensures var a, b := Scatter(r, n, ss, v, h, d), Scatter(s, n, ss, v, h, d);
            (Within(k, h, a.calls) && a == b) || Cut(k, h, a.calls, b.calls)
    decreases Room(r), Level(d), Rank(r, n), 4, |ss|
  {
    if ss != [] {
      var front, t := ss[..|ss| - 1], ss[|ss| - 1];
      ScatterCausal(r, s, k, n, front, v, h, d);
      var a, b := Scatter(r, n, front, v, h, d), Scatter(s, n, front, v, h, d);
      if Cut(k, h, a.calls, b.calls) {
        CutExtends(k, h, a.calls, b.calls, Scatter(r, n, ss, v, h, d).calls, Scatter(s, n, ss, v, h, d).calls);
      } else {
        BranchRank(r, n, t);
        SingleCausal(r, s, k, t, v, h + a.calls, d + 1);
        var x, y := Single(r, t, v, h + a.calls, d + 1), Single(s, t, v, h + a.calls, d + 1);
        if Cut(k, h + a.calls, x.calls, y.calls) { CutLater(k, h, a.calls, x.calls, y.calls); }
      }
    }
  }

  lemma {:induction false} BatchCausal(r: Run, s: Run, k: nat, n: Node, v: View, h: seq<Call>, d: nat)
    requires Pair(r, s, k, h) && Sound(s) && IsNode(r.wf, n) && n.kind.Batch?
    ensures var a, b := BatchBody(r, n, v, h, d), BatchBody(s, n, v, h, d);
            (Within(k, h, a.out.calls) && a == b) || Cut(k, h, a.out.calls, b.out.calls)
    decreases Room(r), Level(d), Rank(r, n), 6
  {
    var items := BatchItems(r, n, v);
    if items.Some? && n.kind.concurrency >= 0 { ProcessCausal(r, s, k, n, items.value, 0, v, h, d); }
  }

  lemma {:induction false} ProcessCausal(r: Run, s: Run, k: nat, n: Node, items: seq<Json>, i: nat, v: View,
                                         h: seq<Call>, d: nat)
    requires Pair(r, s, k, h) && Sound(s) && IsNode(r.wf, n) && n.kind.Batch? && i <= |items|
    ensures var a, b := Process(r, n, items, i, v, h, d), Process(s, n, items, i, v, h, d);
            (Within(k, h, a.calls) && a == b) || Cut(k, h, a.calls, b.calls)
    decreases Room(r), Level(d), Rank(r, n), 4, |items| - i
  {
    if i < |items| {
      var body, view := BatchNodes(r, n), ItemView(v, items[i], i);
      RunBodyCausal(r, s, k, body, view, h, d);
      var a, b := RunBody(r, body, view, h, d), RunBody(s, body, view, h, d);
      if Cut(k, h, a.calls, b.calls) {
        CutExtends(k, h, a.calls, b.calls, Process(r, n, items, i, v, h, d).calls,
                   Process(s, n, items, i, v, h, d).calls);
      } else if !(a.err.Some? && n.kind.stopOnItemError) {
        var h1 := h + a.calls;
        ProcessCausal(r, s, k, n, items, i + 1, v, h1, d);
        var x, y := Process(r, n, items, i + 1, v, h1, d), Process(s, n, items, i + 1, v, h1, d);
        if Cut(k, h1, x.calls, y.calls) { CutLater(k, h, a.calls, x.calls, y.calls); }
      }
    }
  }

  lemma {:induction false} SubCausal(r: Run, s: Run, k: nat, n: Node, v: View, h: seq<Call>)
    requires Pair(r, s, k, h) && Sound(s) && n.kind.SubWorkflow?
    ensures var a, b := SubBody(r, n, v, h), SubBody(s, n, v, h);
            (Within(k, h, a.out.calls) && a == b) || Cut(k, h, a.out.calls, b.out.calls)
    decreases Room(r), 0, 0, 1
  {
    if SubError(r, n.kind).None? {
      var mapped := r.w.subInput(n, v, r.trigger);
      var id := n.kind.workflowId;
      var input := if mapped == map[] then v.data else mapped;
      ChildCausal(r, s, k, id, input, h);
      SubIsChild(r, n, v, h);
      SubIsChild(s, n, v, h);
      assert SubResult(r, id, v, Execute(Child(r, id, input), h)) ==
             SubResult(s, id, v, Execute(Child(r, id, input), h));
    }
  }

  lemma SubIsChild(r: Run, n: Node, v: View, h: seq<Call>)
    requires Sound(r) && n.kind.SubWorkflow? && SubError(r, n.kind).None?
    ensures var id := n.kind.workflowId;
            var mapped := r.w.subInput(n, v, r.trigger);
            var child := Child(r, id, if mapped == map[] then v.data else mapped);
            Sound(child) && SubBody(r, n, v, h) == SubResult(r, id, v, Execute(child, h))
  {
    RankedChild(r.w, n.kind.workflowId);
  }

  function Child(r: Run, id: string, input: Dict): Run
    requires id in r.w.table
  {
    Run(r.w, ChildOf(r.w, id), input, r.dryRun, r.chain + [id])
  }

  lemma {:induction false} ChildCausal(r: Run, s: Run, k: nat, id: string, input: Dict, h: seq<Call>)
    requires Pair(r, s, k, h) && Sound(s) && id in r.w.table && id !in r.chain
    ensures Sound(Child(r, id, input)) && Sound(Child(s, id, input))
    ensures var a, b := Execute(Child(r, id, input), h), Execute(Child(s, id, input), h);
            (Within(k, h, a.calls) && a == b) || Cut(k, h, a.calls, b.calls)
    decreases Room(r), 0, 0, 0
  {
    RankedChild(r.w, id);
    RankedChild(s.w, id);
    SmallerRoom(r, id);
    ExecuteCausal(Child(r, id, input), Child(s, id, input), k, h);
  }

  lemma {:induction false} RecoverCausal(r: Run, s: Run, k: nat, n: Node, p: Pending, v: View, h: seq<Call>, d: nat)
    requires Pair(r, s, k, h) && Sound(s) && IsNode(r.wf, n) && Within(k, h, p.out.calls)
    requires p.out.err.Some? && v.vars.Keys <= p.out.view.vars.Keys
    ensures var a, b := Recover(r, n, p, v, h, d), Recover(s, n, p, v, h, d);
            (Within(k, h, a.calls) && a == b) || Cut(k, h, a.calls, b.calls)
    decreases Room(r), Level(d), Rank(r, n), 8
  {
    var e := p.out.err.value;
    if PolicyOf(r.wf, n).Retry? && RetriesOf(r.wf, n) > 0 && Retryable(n.kind) {
      AttemptsCausal(r, s, k, n, p, 1, h, d);
      var x, y := Attempts(r, n, p, 1, h, d), Attempts(s, n, p, 1, h, d);
      if Cut(k, h, x.out.calls, y.out.calls) {
        CutExtends(k, h, x.out.calls, y.out.calls, Recover(r, n, p, v, h, d).calls, Recover(s, n, p, v, h, d).calls);
      } else if x.out.err.Some? {
        GiveUpCausal(r, s, k, n, x, e, h, d);
      }
    } else {
      GiveUpCausal(r, s, k, n, p, e, h, d);
    }
  }

  lemma {:induction false} AttemptsCausal(r: Run, s: Run, k: nat, n: Node, p: Pending, i: nat, h: seq<Call>, d: nat)
    requires Pair(r, s, k, h) && Sound(s) && IsNode(r.wf, n) && 1 <= i <= RetriesOf(r.wf, n) &&
             Within(k, h, p.out.calls)
    ensures var a, b := Attempts(r, n, p, i, h, d), Attempts(s, n, p, i, h, d);
            (Within(k, h, a.out.calls) && a == b) || Cut(k, h, a.out.calls, b.out.calls)
    decreases Room(r), Level(d), Rank(r, n), 5, RetriesOf(r.wf, n) - i
  {
    AttemptCausal(r, s, k, n, p, i, h, d);
    var x, y := OneAttempt(r, n, p, i, h, d), OneAttempt(s, n, p, i, h, d);
    if Cut(k, h, x.out.calls, y.out.calls) {
      CutExtends(k, h, x.out.calls, y.out.calls, Attempts(r, n, p, i, h, d).out.calls,
                 Attempts(s, n, p, i, h, d).out.calls);
    } else if x.out.err.Some? && i < RetriesOf(r.wf, n) {
      AttemptsCausal(r, s, k, n, x, i + 1, h, d);
    }
  }

  lemma {:induction false} AttemptCausal(r: Run, s: Run, k: nat, n: Node, p: Pending, i: nat, h: seq<Call>, d: nat)
    requires Pair(r, s, k, h) && Sound(s) && IsNode(r.wf, n) && Within(k, h, p.out.calls)
    ensures var a, b := OneAttempt(r, n, p, i, h, d), OneAttempt(s, n, p, i, h, d);
            (Within(k, h, a.out.calls) && a == b) || Cut(k, h, a.out.calls, b.out.calls)
    decreases Room(r), Level(d), Rank(r, n), 4
  {
    var h1 := h + p.out.calls;
    LeafCausal(r, s, k, n, p.out.view, h1);
    var x, y := Ask(r, n, p.out.view, h1), Ask(s, n, p.out.view, h1);
    if |h1| == k {
      CutLater(k, h, p.out.calls, [x], [y]);
      AttemptExtends(r, n, p, i, h, d);
      AttemptExtends(s, n, p, i, h, d);
      CutExtends(k, h, p.out.calls + [x], p.out.calls + [y],
                 OneAttempt(r, n, p, i, h, d).out.calls, OneAttempt(s, n, p, i, h, d).out.calls);
    } else if x.reply.Done? {
      var done := Append(Extend(p, LeafOut(n, p.out.view, x)), Succeeded(p.entry, x.reply.output).(retries := i));
      FollowUpCausal(r, s, k, n, done.(out := done.out.(view := Store(done.out.view, n, x.reply.output))), None, h, d);
    }
  }

  lemma AttemptExtends(r: Run, n: Node, p: Pending, i: nat, h: seq<Call>, d: nat)
    requires Sound(r) && IsNode(r.wf, n)
    ensures p.out.calls + [Ask(r, n, p.out.view, h + p.out.calls)] <= OneAttempt(r, n, p, i, h, d).out.calls
  {
  }

  lemma {:induction false} GiveUpCausal(r: Run, s: Run, k: nat, n: Node, p: Pending, e: string, h: seq<Call>, d: nat)
    requires Pair(r, s, k, h) && Sound(s) && IsNode(r.wf, n) && Within(k, h, p.out.calls)
    ensures var a, b := GiveUp(r, n, p, e, h, d), GiveUp(s, n, p, e, h, d);
            (Within(k, h, a.calls) && a == b) || Cut(k, h, a.calls, b.calls)
    decreases Room(r), Level(d), Rank(r, n), 7
  {
    var failed := Append(p, p.entry.(status := Failed, error := Some(e))).out;
    var handler := FindErrorHandler(r.wf, n.id);
    if handler.Some? {
      HandleCausal(r, s, k, n, handler.value, failed, e, h, d);
    } else if PolicyOf(r.wf, n).Continue? {
      ContinueCausal(r, s, k, n, failed, h, d);
    }
  }

  lemma {:induction false} ContinueCausal(r: Run, s: Run, k: nat, n: Node, failed: Out, h: seq<Call>, d: nat)
    requires Pair(r, s, k, h) && Sound(s) && IsNode(r.wf, n) && Within(k, h, failed.calls)
    ensures var ss := Successors(r.wf, n.id, None);
            var h1 := h + failed.calls;
            var a, b := Then(failed, Nodes(r, ss, failed.view, h1, d + 1)),
                        Then(failed, Nodes(s, ss, failed.view, h1, d + 1));
            (Within(k, h, a.calls) && a == b) || Cut(k, h, a.calls, b.calls)
    decreases Room(r), Level(d), Rank(r, n), 6
  {
    var ss, h1 := Successors(r.wf, n.id, None), h + failed.calls;
    NodesCausal(r, s, k, ss, failed.view, h1, d + 1);
    var x, y := Nodes(r, ss, failed.view, h1, d + 1), Nodes(s, ss, failed.view, h1, d + 1);
    if Cut(k, h1, x.calls, y.calls) { CutLater(k, h, failed.calls, x.calls, y.calls); }
  }

  lemma {:induction false} HandleCausal(r: Run, s: Run, k: nat, n: Node, handler: Node, failed: Out, e: string,
                                        h: seq<Call>, d: nat)
    requires Pair(r, s, k, h) && Sound(s) && IsNode(r.wf, n) && Within(k, h, failed.calls)
    requires FindErrorHandler(r.wf, n.id) == Some(handler)
    ensures var a, b := Handle(r, n, handler, failed, e, h, d), Handle(s, n, handler, failed, e, h, d);
            (Within(k, h, a.calls) && a == b) || Cut(k, h, a.calls, b.calls)
    decreases Room(r), Level(d), Rank(r, n), 6
  {
    HandlerRank(r, n, handler);
    var view := failed.view.(vars := failed.view.vars["_error" := ErrorInfo(n, failed.view, e)]);
    var h1 := h + failed.calls;
    SingleCausal(r, s, k, handler, view, h1, d + 1);
    var x, y := Single(r, handler, view, h1, d + 1), Single(s, handler, view, h1, d + 1);
    if Cut(k, h1, x.calls, y.calls) { CutLater(k, h, failed.calls, x.calls, y.calls); }
  }

  lemma {:induction false} ExecuteCausal(r: Run, s: Run, k: nat, h: seq<Call>)
    requires Pair(r, s, k, h) && Sound(s)
    ensures var a, b := Execute(r, h), Execute(s, h);
            (Within(k, h, a.calls) && a == b) || Cut(k, h, a.calls, b.calls)
    decreases Room(r), NodesLevel(0) + 1, 0, 0
  {
    var t := FindTrigger(r.wf);
    if t.Some? {
      var ss, view := Successors(r.wf, t.value.id, None), TriggerView(r, t.value);
      NodesCausal(r, s, k, ss, view, h, 0);
      ExecuteIs(r, t.value, h);
      ExecuteIs(s, t.value, h);
    }
  }

  lemma ExecuteIs(r: Run, t: Node, h: seq<Call>)
    requires Sound(r) && FindTrigger(r.wf) == Some(t)
    ensures var body := Nodes(r, Successors(r.wf, t.id, None), TriggerView(r, t), h, 0);
            Execute(r, h) == Then(TriggerOut(r, t), body) && Execute(r, h).calls == body.calls
  {
  }
}
