/** What an execution does not depend on: the calls before it, the depth it starts at if
    it never hits the limit, and, under conditions, dry-run mode and the chain of
    workflows it runs in. */
module EngineReplay {
  import opened Json
  import opened WorkflowGraph
  import opened WorkflowEngine
  import opened RunModes

  /** Connectors answer equal requests equally, whatever was called before. */
  ghost predicate Deterministic(w: World) {
    forall h, h', q :: w.leaf(h, q) == w.leaf(h', q)
  }

  /** No batch of the workflow runs two items at once. */
  predicate InOrder(wf: Workflow) {
    forall n :: n in wf.nodes && n.kind.Batch? ==> Window(n.kind) == 1
  }

  /** The same workflow and world; dry-run mode and chain may differ where nothing can
      tell. */
  ghost predicate Alike(r: Run, s: Run) {
    s.w == r.w && s.wf == r.wf && s.trigger == r.trigger &&
    (s.dryRun == r.dryRun || (DryBlind(r.w) && Unread(r.w, r.wf, r.chain))) &&
    (s.chain == r.chain || SameChecks(r.w, r.wf, r.chain, s.chain))
  }

  ghost predicate Pair(r: Run, s: Run) {
    Sound(r) && Deterministic(r.w) && Alike(r, s)
  }

  /** The second run starts no deeper than the first, and the first never hit the depth
      limit unless both start at the same depth. */
  predicate Nearer(d': nat, d: nat, guard: bool) {
    d' <= d && (d' == d || !guard)
  }

  // ---- logs up to the completion order of concurrent batches ----

  ghost predicate SameLogs(wf: Workflow, a: seq<Entry>, b: seq<Entry>) {
    multiset(a) == multiset(b) && (InOrder(wf) ==> a == b)
  }

  /** Requests tell dry-run mode, and entered chains continue the run's own. */
  predicate SameRecords(r: Run, s: Run, calls: seq<Call>, calls': seq<Call>, chains: seq<seq<string>>,
                        chains': seq<seq<string>>) {
    (s.dryRun == r.dryRun ==> calls == calls') && (s.chain == r.chain ==> chains == chains')
  }

  ghost predicate Match(r: Run, s: Run, a: Out, b: Out) {
    a.view == b.view && a.err == b.err && a.guard == b.guard && SameLogs(r.wf, a.log, b.log) &&
    SameRecords(r, s, a.calls, b.calls, a.entered, b.entered)
  }

  predicate AgreeAt(places: set<nat>, a: seq<Entry>, b: seq<Entry>) {
    forall i :: i in places ==> i < |a| && i < |b| && a[i] == b[i]
  }

  ghost predicate MatchPending(r: Run, s: Run, p: Pending, q: Pending) {
    Match(r, s, p.out, q.out) && p.entry == q.entry && p.places == q.places && AgreeAt(p.places, p.out.log, q.out.log)
  }

  /** The entries outside the places, in order. */
  function Others(log: seq<Entry>, places: set<nat>): seq<Entry> {
    if log == [] then []
    else
      var k := |log| - 1;
      Others(log[..k], places) + (if k in places then [] else [log[k]])
  }

  function Placed(log: seq<Entry>, places: set<nat>): seq<Entry> {
    if log == [] then []
    else
      var k := |log| - 1;
      Placed(log[..k], places) + (if k in places then [log[k]] else [])
  }

  lemma {:induction false} SplitLog(log: seq<Entry>, places: set<nat>)
    ensures multiset(log) == multiset(Others(log, places)) + multiset(Placed(log, places))
  {
    if log != [] {
      SplitLog(log[..|log| - 1], places);
      assert log == log[..|log| - 1] + [log[|log| - 1]];
    }
  }

  lemma {:induction false} SamePlaced(a: seq<Entry>, b: seq<Entry>, places: set<nat>)
    requires |a| == |b| && forall i :: 0 <= i < |a| && i in places ==> a[i] == b[i]
    ensures Placed(a, places) == Placed(b, places)
  {
    if a != [] { SamePlaced(a[..|a| - 1], b[..|b| - 1], places); }
  }

  lemma {:induction false} OthersAmended(log: seq<Entry>, places: set<nat>, e: Entry)
    ensures Others(Amend(log, places, e), places) == Others(log, places)
  {
    if log != [] {
      OthersAmended(log[..|log| - 1], places, e);
      assert Amend(log, places, e)[..|log| - 1] == Amend(log[..|log| - 1], places, e);
    }
  }

  lemma SameLength(a: seq<Entry>, b: seq<Entry>)
    requires multiset(a) == multiset(b)
    ensures |a| == |b|
  {
    assert |multiset(a)| == |a| && |multiset(b)| == |b|;
  }

  lemma OthersPermute(a: seq<Entry>, b: seq<Entry>, places: set<nat>)
    requires multiset(a) == multiset(b) && AgreeAt(places, a, b)
    ensures multiset(Others(a, places)) == multiset(Others(b, places))
  {
    SameLength(a, b);
    SplitLog(a, places);
    SplitLog(b, places);
    SamePlaced(a, b, places);
    var m := multiset(Placed(a, places));
    assert multiset(Others(a, places)) == multiset(a) - m;
    assert multiset(Others(b, places)) == multiset(b) - m;
  }

  /** Changing the same places of two permutations, where they agree, keeps them
      permutations. */
  lemma AmendPermutes(a: seq<Entry>, b: seq<Entry>, places: set<nat>, e: Entry)
    requires multiset(a) == multiset(b) && AgreeAt(places, a, b)
    ensures multiset(Amend(a, places, e)) == multiset(Amend(b, places, e))
  {
    OthersPermute(a, b, places);
    SameLength(a, b);
    OthersAmended(a, places, e);
    OthersAmended(b, places, e);
    SplitLog(Amend(a, places, e), places);
    SplitLog(Amend(b, places, e), places);
    SamePlaced(Amend(a, places, e), Amend(b, places, e), places);
  }

  lemma AppendMatches(r: Run, s: Run, p: Pending, q: Pending, e: Entry)
    requires MatchPending(r, s, p, q)
    ensures MatchPending(r, s, Append(p, e), Append(q, e))
  {
    SameLength(p.out.log, q.out.log);
    AmendPermutes(p.out.log, q.out.log, p.places, e);
  }

  lemma ThenMatches(r: Run, s: Run, a: Out, b: Out, more: Out, more': Out)
    requires Match(r, s, a, b) && Match(r, s, more, more')
    ensures Match(r, s, Then(a, more), Then(b, more'))
  {
  }

  lemma ExtendMatches(r: Run, s: Run, p: Pending, q: Pending, more: Out, more': Out)
    requires MatchPending(r, s, p, q) && Match(r, s, more, more')
    ensures MatchPending(r, s, Extend(p, more), Extend(q, more'))
  {
    ThenMatches(r, s, p.out, q.out, more, more');
  }

  // ---- parts of a batch ----

  function Total(parts: seq<seq<Entry>>): multiset<Entry> {
    if parts == [] then multiset{} else multiset(parts[0]) + Total(parts[1..])
  }

  lemma WithoutLater<T>(s: seq<T>, i: nat)
    requires 0 < i < |s|
    ensures s[1..][i - 1] == s[i] && Without(s, i) == [s[0]] + Without(s[1..], i - 1)
    ensures Without(s, i)[1..] == Without(s[1..], i - 1)
  {
  }

  lemma {:induction false} TotalWithout(parts: seq<seq<Entry>>, i: nat)
    requires i < |parts|
    ensures Total(parts) == multiset(parts[i]) + Total(Without(parts, i))
  {
    if i == 0 {
      assert Without(parts, 0) == parts[1..];
    } else {
      TotalWithout(parts[1..], i - 1);
      WithoutLater(parts, i);
    }
  }

  /** In whatever order the items complete, the results are all the items' results. */
  lemma {:induction false} ArrangeIsTotal(pick: nat -> nat, window: nat, parts: seq<seq<Entry>>)
    requires window > 0
    ensures multiset(Arrange(pick, window, parts)) == Total(parts)
    decreases |parts|
  {
    if parts != [] {
      var i := Pick(pick, window, |parts|);
      TotalWithout(parts, i);
      ArrangeIsTotal(pick, window, Without(parts, i));
    }
  }

  /** One at a time, the items complete in index order. */
  lemma {:induction false} ArrangeInOrder(pick: nat -> nat, pick': nat -> nat, parts: seq<seq<Entry>>)
    ensures Arrange(pick, 1, parts) == Arrange(pick', 1, parts)
    decreases |parts|
  {
    if parts != [] { ArrangeInOrder(pick, pick', Without(parts, 0)); }
  }

  /** Two at a time, either of two items may complete first. */
  lemma EitherMayCompleteFirst(a: seq<Entry>, b: seq<Entry>, window: nat)
    requires window >= 2
    ensures Arrange(_ => 0, window, [a, b]) == a + b && Arrange(_ => 1, window, [a, b]) == b + a
  {
    assert Without([a, b], 0) == [b] && Without([a, b], 1) == [a];
    ArrangeOne(_ => 0, window, b);
    ArrangeOne(_ => 1, window, a);
  }

  lemma ArrangeOne(pick: nat -> nat, window: nat, a: seq<Entry>)
    requires window > 0
    ensures Arrange(pick, window, [a]) == a
  {
    assert Without([a], 0) == [];
    assert Arrange(pick, window, [a]) == a + Arrange(pick, window, []);
  }

  ghost predicate PartsMatch(wf: Workflow, a: seq<seq<Entry>>, b: seq<seq<Entry>>) {
    |a| == |b| && forall i :: 0 <= i < |a| ==> SameLogs(wf, a[i], b[i])
  }

  lemma {:induction false} SameTotal(wf: Workflow, a: seq<seq<Entry>>, b: seq<seq<Entry>>)
    requires PartsMatch(wf, a, b)
    ensures Total(a) == Total(b)
  {
    if a != [] { SameTotal(wf, a[1..], b[1..]); }
  }

  lemma ArrangeMatches(wf: Workflow, n: Node, a: seq<seq<Entry>>, b: seq<seq<Entry>>, pick: nat -> nat,
                       pick': nat -> nat)
    requires n in wf.nodes && n.kind.Batch? && PartsMatch(wf, a, b)
    ensures SameLogs(wf, Arrange(pick, Window(n.kind), a), Arrange(pick', Window(n.kind), b))
  {
    SameTotal(wf, a, b);
    ArrangeIsTotal(pick, Window(n.kind), a);
    ArrangeIsTotal(pick', Window(n.kind), b);
    if InOrder(wf) {
      assert a == b;
      ArrangeInOrder(pick, pick', a);
    }
  }

  // ---- every executor ----

  lemma {:induction false} SameNodes(r: Run, s: Run, ns: seq<Node>, v: View, h: seq<Call>, h': seq<Call>, d: nat,
                                     d': nat)
    requires Pair(r, s) && forall n :: n in ns ==> IsNode(r.wf, n)
    requires Nearer(d', d, Nodes(r, ns, v, h, d).guard)
    ensures Match(r, s, Nodes(r, ns, v, h, d), Nodes(s, ns, v, h', d'))
    decreases Room(r), NodesLevel(d), 0, 2
  {
    if d <= MAX_DEPTH { SameNodesFrom(r, s, ns, v, h, h', d, d'); }
  }

  lemma {:induction false} SameNodesFrom(r: Run, s: Run, ns: seq<Node>, v: View, h: seq<Call>, h': seq<Call>, d: nat,
                                         d': nat)
    requires Pair(r, s) && (forall n :: n in ns ==> IsNode(r.wf, n)) && d <= MAX_DEPTH
    requires Nearer(d', d, NodesFrom(r, ns, v, h, d).guard)
    ensures Match(r, s, NodesFrom(r, ns, v, h, d), NodesFrom(s, ns, v, h', d'))
    decreases Room(r), NodesLevel(d), 0, 1, |ns|
  {
    if ns != [] {
      SameSingle(r, s, ns[0], v, h, h', d, d');
      var a, b := Single(r, ns[0], v, h, d), Single(s, ns[0], v, h', d');
      if a.err.None? {
        SameNodesFrom(r, s, ns[1..], a.view, h + a.calls, h' + b.calls, d, d');
        ThenMatches(r, s, a, b, NodesFrom(r, ns[1..], a.view, h + a.calls, d),
                    NodesFrom(s, ns[1..], a.view, h' + b.calls, d'));
      }
    }
  }

  /** A visit of a node does the same in both runs: context and error are equal, and the
      results are, up to the completion order of concurrent batches. */
  lemma {:induction false} SameSingle(r: Run, s: Run, n: Node, v: View, h: seq<Call>, h': seq<Call>, d: nat, d': nat)
    requires Pair(r, s) && IsNode(r.wf, n)
    requires Nearer(d', d, Single(r, n, v, h, d).guard)
    ensures Match(r, s, Single(r, n, v, h, d), Single(s, n, v, h', d'))
    decreases Room(r), Level(d), Rank(r, n), 9
  {
    var p, q := Try(r, n, v, h, d), Try(s, n, v, h', d');
    SameTry(r, s, n, v, h, h', d, d');
    if p.out.err.Some? { SameRecover(r, s, n, p, q, v, h, h', d, d'); }
  }

  lemma {:induction false} SameTry(r: Run, s: Run, n: Node, v: View, h: seq<Call>, h': seq<Call>, d: nat, d': nat)
    requires Pair(r, s) && IsNode(r.wf, n)
    requires Nearer(d', d, Try(r, n, v, h, d).out.guard)
    ensures MatchPending(r, s, Try(r, n, v, h, d), Try(s, n, v, h', d'))
    decreases Room(r), Level(d), Rank(r, n), 8
  {
    SameBody(r, s, n, v, h, h', d, d');
    TryIs(r, n, v, h, d);
    TryIs(s, n, v, h', d');
    var b, b' := Body(r, n, v, h, d), Body(s, n, v, h', d');
    if b.out.err.None? {
      SameFinished(r, s, n, Pending(b.out, Open(n, v), {}), Pending(b'.out, Open(n, v), {}), b.next, h, h', d, d');
    }
  }

  lemma StoringMatches(r: Run, s: Run, n: Node, p: Pending, q: Pending, output: Json)
    requires MatchPending(r, s, p, q)
    ensures MatchPending(r, s, Storing(n, p, output), Storing(n, q, output))
    ensures MatchPending(r, s, Outputting(n, p, output), Outputting(n, q, output))
  {
  }

  lemma {:induction false} SameFinished(r: Run, s: Run, n: Node, p: Pending, q: Pending, next: Next,
                                        h: seq<Call>, h': seq<Call>, d: nat, d': nat)
    requires Pair(r, s) && IsNode(r.wf, n) && MatchPending(r, s, p, q)
    requires Nearer(d', d, Finished(r, n, p, next, h, d).out.guard)
    ensures MatchPending(r, s, Finished(r, n, p, next, h, d), Finished(s, n, q, next, h', d'))
    decreases Room(r), Level(d), Rank(r, n), 7
  {
    if next.Pass? {
      AppendMatches(r, s, p, q, p.entry.(status := Filtered));
    } else {
      var e := Succeeded(p.entry, next.output);
      AppendMatches(r, s, p, q, e);
      StoringMatches(r, s, n, Append(p, e), Append(q, e), next.output);
      if next.Go? {
        SameFollowUp(r, s, n, Storing(n, Append(p, e), next.output), Storing(n, Append(q, e), next.output), next.handle,
                     h, h', d, d');
      }
    }
  }

  lemma {:induction false} SameFollowUp(r: Run, s: Run, n: Node, p: Pending, q: Pending, handle: Option<string>,
                                        h: seq<Call>, h': seq<Call>, d: nat, d': nat)
    requires Pair(r, s) && IsNode(r.wf, n) && MatchPending(r, s, p, q)
    requires Nearer(d', d, FollowUp(r, n, p, handle, h, d).out.guard)
    ensures MatchPending(r, s, FollowUp(r, n, p, handle, h, d), FollowUp(s, n, q, handle, h', d'))
    decreases Room(r), Level(d), Rank(r, n), 1
  {
    var ss := Successors(r.wf, n.id, handle);
    if ss != [] {
      SameNodes(r, s, ss, p.out.view, h + p.out.calls, h' + q.out.calls, d + 1, d' + 1);
      ExtendMatches(r, s, p, q, Nodes(r, ss, p.out.view, h + p.out.calls, d + 1),
                    Nodes(s, ss, p.out.view, h' + q.out.calls, d' + 1));
    }
  }

  lemma SameAsk(r: Run, s: Run, n: Node, v: View, h: seq<Call>, h': seq<Call>)
    requires Pair(r, s) && IsNode(r.wf, n)
    ensures Ask(r, n, v, h).reply == Ask(s, n, v, h').reply
    ensures s.dryRun == r.dryRun ==> Ask(r, n, v, h) == Ask(s, n, v, h')
  {
    var a, b := Ask(r, n, v, h).request, Ask(s, n, v, h').request;
    assert r.w.leaf(h, a) == r.w.leaf(h', a);
    if s.dryRun != r.dryRun {
      assert n in r.wf.nodes && b == a.(dryRun := !a.dryRun);
    }
  }

  ghost predicate MatchBody(r: Run, s: Run, a: BodyOut, b: BodyOut) {
    Match(r, s, a.out, b.out) && a.next == b.next
  }

  lemma {:induction false} SameBody(r: Run, s: Run, n: Node, v: View, h: seq<Call>, h': seq<Call>, d: nat, d': nat)
    requires Pair(r, s) && IsNode(r.wf, n)
    requires Nearer(d', d, Body(r, n, v, h, d).out.guard)
    ensures MatchBody(r, s, Body(r, n, v, h, d), Body(s, n, v, h', d'))
    decreases Room(r), Level(d), Rank(r, n), 7
  {
    match n.kind
    case Loop(_, _, _, _) => SameLoopBody(r, s, n, v, h, h', d, d');
    case Parallel => SameParallelBody(r, s, n, v, h, h', d, d');
    case Batch(_, _, _, _, _) => SameBatchBody(r, s, n, v, h, h', d, d');
    case SubWorkflow(_, _) => SameSub(r, s, n, v, h, h');
    case _ => if IsLeaf(n.kind) { SameAsk(r, s, n, v, h, h'); }
  }

  lemma {:induction false} SameLoopBody(r: Run, s: Run, n: Node, v: View, h: seq<Call>, h': seq<Call>, d: nat, d': nat)
    requires Pair(r, s) && IsNode(r.wf, n) && n.kind.Loop?
    requires Nearer(d', d, LoopBody(r, n, v, h, d).out.guard)
    ensures MatchBody(r, s, LoopBody(r, n, v, h, d), LoopBody(s, n, v, h', d'))
    decreases Room(r), Level(d), Rank(r, n), 6
  {
    var list := ResolveValue(n.kind.arrayField, v, r.trigger);
    if list.Arr? {
      SameIterate(r, s, n, Prefix(list.items, Min(n.kind.maxIterations, 1000)), 0, v, h, h', d, d');
    }
  }

  lemma {:induction false} SameParallelBody(r: Run, s: Run, n: Node, v: View, h: seq<Call>, h': seq<Call>, d: nat,
                                            d': nat)
    requires Pair(r, s) && IsNode(r.wf, n) && n.kind.Parallel?
    requires Nearer(d', d, ParallelBody(r, n, v, h, d).out.guard)
    ensures MatchBody(r, s, ParallelBody(r, n, v, h, d), ParallelBody(s, n, v, h', d'))
    decreases Room(r), Level(d), Rank(r, n), 6
  {
    var ss := Successors(r.wf, n.id, Some("branch"));
    if ss != [] { SameScatter(r, s, n, ss, v, h, h', d, d'); }
  }

  lemma {:induction false} SameBatchBody(r: Run, s: Run, n: Node, v: View, h: seq<Call>, h': seq<Call>, d: nat, d': nat)
    requires Pair(r, s) && IsNode(r.wf, n) && n.kind.Batch?
    requires Nearer(d', d, BatchBody(r, n, v, h, d).out.guard)
    ensures MatchBody(r, s, BatchBody(r, n, v, h, d), BatchBody(s, n, v, h', d'))
    decreases Room(r), Level(d), Rank(r, n), 6
  {
    var items := BatchItems(r, n, v);
    if items.Some? && n.kind.concurrency >= 0 {
      SameProcess(r, s, n, items.value, 0, v, h, h', d, d');
      ArrangeMatches(r.wf, n, Process(r, n, items.value, 0, v, h, d).parts,
                     Process(s, n, items.value, 0, v, h', d').parts,
                     PickOf(r.w, h, n, v), PickOf(s.w, h', n, v));
    }
  }

  ghost predicate MatchItems(r: Run, s: Run, a: Items, b: Items) {
    Match(r, s, a.out, b.out) && a.results == b.results
  }

  lemma {:induction false} SameIterate(r: Run, s: Run, n: Node, items: seq<Json>, i: nat, v: View,
                                       h: seq<Call>, h': seq<Call>, d: nat, d': nat)
    requires Pair(r, s) && IsNode(r.wf, n) && n.kind.Loop? && i <= |items|
    requires Nearer(d', d, Iterate(r, n, items, i, v, h, d).out.guard)
    ensures MatchItems(r, s, Iterate(r, n, items, i, v, h, d), Iterate(s, n, items, i, v, h', d'))
    decreases Room(r), Level(d), Rank(r, n), 4, |items| - i
  {
    if i < |items| {
      var bound := v.(vars := v.vars[n.kind.itemVar := items[i]][n.kind.indexVar := Num(i as real)]);
      var body := Successors(r.wf, n.id, Some("default"));
      var a, b := RunBody(r, body, bound, h, d), RunBody(s, body, bound, h', d');
      SameRunBody(r, s, body, bound, h, h', d, d');
      if a.err.None? {
        SameIterate(r, s, n, items, i + 1, a.view, h + a.calls, h' + b.calls, d, d');
        ThenMatches(r, s, a, b, Iterate(r, n, items, i + 1, a.view, h + a.calls, d).out,
                    Iterate(s, n, items, i + 1, a.view, h' + b.calls, d').out);
      }
    }
  }

  lemma {:induction false} SameRunBody(r: Run, s: Run, body: seq<Node>, v: View, h: seq<Call>, h': seq<Call>, d: nat,
                                       d': nat)
    requires Pair(r, s) && forall n :: n in body ==> IsNode(r.wf, n)
    requires Nearer(d', d, RunBody(r, body, v, h, d).guard)
    ensures Match(r, s, RunBody(r, body, v, h, d), RunBody(s, body, v, h', d'))
    decreases Room(r), Level(d), 0, 3
  {
    if body != [] { SameNodes(r, s, body, v, h, h', d + 1, d' + 1); }
  }

  ghost predicate MatchBranches(r: Run, s: Run, a: Branches, b: Branches) {
    a.guard == b.guard && a.results == b.results && SameLogs(r.wf, a.log, b.log) &&
    SameRecords(r, s, a.calls, b.calls, a.entered, b.entered)
  }

  lemma MergeMatches(r: Run, s: Run, a: Branches, b: Branches, t: Node, x: Out, y: Out)
    requires MatchBranches(r, s, a, b) && Match(r, s, x, y)
    ensures MatchBranches(r, s, Merge(a, t, x), Merge(b, t, y))
  {
  }

  lemma {:induction false} SameScatter(r: Run, s: Run, n: Node, ss: seq<Node>, v: View, h: seq<Call>, h': seq<Call>,
                                       d: nat, d': nat)
    requires Pair(r, s) && IsNode(r.wf, n) && n.kind.Parallel?
    requires AreBranches(r, n, ss)
    requires Nearer(d', d, Scatter(r, n, ss, v, h, d).guard)
    ensures MatchBranches(r, s, Scatter(r, n, ss, v, h, d), Scatter(s, n, ss, v, h', d'))
    decreases Room(r), Level(d), Rank(r, n), 4, |ss|
  {
    if ss != [] {
      SameScatter(r, s, n, ss[..|ss| - 1], v, h, h', d, d');
      SameLastBranch(r, s, n, ss, v, h, h', d, d');
    }
  }

  lemma {:induction false} SameLastBranch(r: Run, s: Run, n: Node, ss: seq<Node>, v: View,
                                          h: seq<Call>, h': seq<Call>, d: nat, d': nat)
    requires Pair(r, s) && IsNode(r.wf, n) && n.kind.Parallel? && AreBranches(r, n, ss) && ss != []
    requires Nearer(d', d, Scatter(r, n, ss, v, h, d).guard)
    requires MatchBranches(r, s, Scatter(r, n, ss[..|ss| - 1], v, h, d), Scatter(s, n, ss[..|ss| - 1], v, h', d'))
    ensures MatchBranches(r, s, Scatter(r, n, ss, v, h, d), Scatter(s, n, ss, v, h', d'))
    decreases Room(r), Level(d), Rank(r, n), 3
  {
    var front, t := ss[..|ss| - 1], ss[|ss| - 1];
    ScatterGuards(r, n, ss, v, h, d);
    SameBranch(r, s, n, t, v, h + Scatter(r, n, front, v, h, d).calls, h' + Scatter(s, n, front, v, h', d').calls, d,
               d');
    SameScatterOn(r, s, n, ss, v, h, h', d, d');
  }

  lemma {:induction false} SameBranch(r: Run, s: Run, n: Node, t: Node, v: View, h: seq<Call>, h': seq<Call>, d: nat,
                                      d': nat)
    requires Pair(r, s) && IsNode(r.wf, n) && IsNode(r.wf, t) && Rank(r, t) < Rank(r, n)
    requires Nearer(d', d, Single(r, t, v, h, d + 1).guard)
    ensures Match(r, s, Single(r, t, v, h, d + 1), Single(s, t, v, h', d' + 1))
    decreases Room(r), Level(d), Rank(r, n), 2
  {
    SameSingle(r, s, t, v, h, h', d + 1, d' + 1);
  }

  lemma ScatterGuards(r: Run, n: Node, ss: seq<Node>, v: View, h: seq<Call>, d: nat)
    requires Sound(r) && IsNode(r.wf, n) && n.kind.Parallel? && AreBranches(r, n, ss) && ss != []
    ensures var front, t := ss[..|ss| - 1], ss[|ss| - 1];
            var a := Scatter(r, n, front, v, h, d);
            IsNode(r.wf, t) && Rank(r, t) < Rank(r, n) &&
            Scatter(r, n, ss, v, h, d) == Merge(a, t, Single(r, t, v, h + a.calls, d + 1))
  {
    BranchRank(r, n, ss[|ss| - 1]);
  }

  lemma SameScatterOn(r: Run, s: Run, n: Node, ss: seq<Node>, v: View, h: seq<Call>, h': seq<Call>, d: nat, d': nat)
    requires Pair(r, s) && IsNode(r.wf, n) && n.kind.Parallel? && AreBranches(r, n, ss) && ss != []
    requires IsNode(r.wf, ss[|ss| - 1])
    requires var front, t := ss[..|ss| - 1], ss[|ss| - 1];
             var a, b := Scatter(r, n, front, v, h, d), Scatter(s, n, front, v, h', d');
             MatchBranches(r, s, a, b) &&
             Match(r, s, Single(r, t, v, h + a.calls, d + 1), Single(s, t, v, h' + b.calls, d' + 1))
    ensures MatchBranches(r, s, Scatter(r, n, ss, v, h, d), Scatter(s, n, ss, v, h', d'))
  {
    var front, t := ss[..|ss| - 1], ss[|ss| - 1];
    var a, b := Scatter(r, n, front, v, h, d), Scatter(s, n, front, v, h', d');
    ScatterGuards(r, n, ss, v, h, d);
    ScatterGuards(s, n, ss, v, h', d');
    MergeMatches(r, s, a, b, t, Single(r, t, v, h + a.calls, d + 1), Single(s, t, v, h' + b.calls, d' + 1));
  }

  ghost predicate MatchBatch(r: Run, s: Run, a: BatchRun, b: BatchRun) {
    a.guard == b.guard && a.results == b.results && PartsMatch(r.wf, a.parts, b.parts) &&
    SameRecords(r, s, a.calls, b.calls, a.entered, b.entered)
  }

  function Prepend(a: Out, result: ItemResult, rest: BatchRun): BatchRun {
    BatchRun([a.log] + rest.parts, a.calls + rest.calls, a.entered + rest.entered, a.guard || rest.guard,
             [result] + rest.results)
  }

  lemma PrependMatches(r: Run, s: Run, x: Out, y: Out, result: ItemResult, a: BatchRun, b: BatchRun)
    requires Match(r, s, x, y) && MatchBatch(r, s, a, b)
    ensures MatchBatch(r, s, Prepend(x, result, a), Prepend(y, result, b))
  {
  }

  const NOTHING := BatchRun([], [], [], false, [])

  lemma ProcessIs(r: Run, n: Node, items: seq<Json>, i: nat, v: View, h: seq<Call>, d: nat)
    requires Sound(r) && IsNode(r.wf, n) && n.kind.Batch? && i < |items|
    ensures var a := RunBody(r, BatchNodes(r, n), ItemView(v, items[i], i), h, d);
            var rest := if a.err.Some? && n.kind.stopOnItemError then NOTHING
                        else Process(r, n, items, i + 1, v, h + a.calls, d);
            Process(r, n, items, i, v, h, d) == Prepend(a, ItemResultOf(v, items[i], i, a), rest)
  {
  }

  lemma {:induction false} SameProcess(r: Run, s: Run, n: Node, items: seq<Json>, i: nat, v: View,
                                       h: seq<Call>, h': seq<Call>, d: nat, d': nat)
    requires Pair(r, s) && IsNode(r.wf, n) && n.kind.Batch? && i <= |items|
    requires Nearer(d', d, Process(r, n, items, i, v, h, d).guard)
    ensures MatchBatch(r, s, Process(r, n, items, i, v, h, d), Process(s, n, items, i, v, h', d'))
    decreases Room(r), Level(d), Rank(r, n), 4, |items| - i
  {
    if i < |items| {
      var body, view := BatchNodes(r, n), ItemView(v, items[i], i);
      var a, b := RunBody(r, body, view, h, d), RunBody(s, body, view, h', d');
      SameRunBody(r, s, body, view, h, h', d, d');
      ProcessIs(r, n, items, i, v, h, d);
      ProcessIs(s, n, items, i, v, h', d');
      if a.err.Some? && n.kind.stopOnItemError {
        PrependMatches(r, s, a, b, ItemResultOf(v, items[i], i, a), NOTHING, NOTHING);
      } else {
        SameProcess(r, s, n, items, i + 1, v, h + a.calls, h' + b.calls, d, d');
        PrependMatches(r, s, a, b, ItemResultOf(v, items[i], i, a), Process(r, n, items, i + 1, v, h + a.calls, d),
                       Process(s, n, items, i + 1, v, h' + b.calls, d'));
      }
    }
  }

  lemma {:induction false} SameSub(r: Run, s: Run, n: Node, v: View, h: seq<Call>, h': seq<Call>)
    requires Pair(r, s) && IsNode(r.wf, n) && n.kind.SubWorkflow?
    ensures MatchBody(r, s, SubBody(r, n, v, h), SubBody(s, n, v, h'))
    decreases Room(r), 0, 0, 1
  {
    SameSubError(r, s, n);
    if SubError(r, n.kind).None? {
      var id := n.kind.workflowId;
      var input := SubInput(r, n, v);
      SameChild(r, s, id, input, h, h');
      SameSubResult(r, s, id, v, Execute(ChildRun(r, id, input), h), Execute(ChildRun(s, id, input), h'));
    }
  }

  lemma SameSubError(r: Run, s: Run, n: Node)
    requires Alike(r, s) && IsNode(r.wf, n) && n.kind.SubWorkflow?
    ensures SubError(r, n.kind) == SubError(s, n.kind)
    ensures SubError(r, n.kind).None? ==>
              var id := n.kind.workflowId;
              forall input :: Alike(ChildRun(r, id, input), ChildRun(s, id, input))
  {
    assert n in r.wf.nodes;
    if s.chain != r.chain { assert SameCheck(r.w, n.kind, r.chain, s.chain); }
    if s.dryRun != r.dryRun { assert UnreadBelow(r.w, n.kind, r.chain); }
  }

  function SubInput(r: Run, n: Node, v: View): Dict {
    var mapped := r.w.subInput(n, v, r.trigger);
    if mapped == map[] then v.data else mapped
  }

  function ChildRun(r: Run, id: string, input: Dict): Run
    requires id in r.w.table
  {
    Run(r.w, ChildOf(r.w, id), input, r.dryRun, r.chain + [id])
  }

  lemma SameSubResult(r: Run, s: Run, id: string, v: View, a: Out, b: Out)
    requires id in r.w.table && s.w == r.w && a.view == b.view && a.err == b.err
    requires SameRecords(r, s, a.calls, b.calls, a.entered, b.entered)
    ensures MatchBody(r, s, SubResult(r, id, v, a), SubResult(s, id, v, b))
  {
  }

  lemma {:induction false} SameChild(r: Run, s: Run, id: string, input: Dict, h: seq<Call>, h': seq<Call>)
    requires Pair(r, s) && id in r.w.table && id !in r.chain
    requires Alike(ChildRun(r, id, input), ChildRun(s, id, input))
    ensures Sound(ChildRun(r, id, input)) && Sound(ChildRun(s, id, input))
    ensures var a, b := Execute(ChildRun(r, id, input), h), Execute(ChildRun(s, id, input), h');
            a.view == b.view && a.err == b.err && SameRecords(r, s, a.calls, b.calls, a.entered, b.entered)
    decreases Room(r), 0, 0, 0
  {
    RankedChild(r.w, id);
    SmallerRoom(r, id);
    SameExecute(ChildRun(r, id, input), ChildRun(s, id, input), h, h');
  }

  lemma {:induction false} SameRecover(r: Run, s: Run, n: Node, p: Pending, q: Pending, v: View,
                                       h: seq<Call>, h': seq<Call>, d: nat, d': nat)
    requires Pair(r, s) && IsNode(r.wf, n) && MatchPending(r, s, p, q)
    requires p.out.err.Some? && v.vars.Keys <= p.out.view.vars.Keys
    requires Nearer(d', d, Recover(r, n, p, v, h, d).guard)
    ensures Match(r, s, Recover(r, n, p, v, h, d), Recover(s, n, q, v, h', d'))
    decreases Room(r), Level(d), Rank(r, n), 8
  {
    var e := p.out.err.value;
    if PolicyOf(r.wf, n).Retry? && RetriesOf(r.wf, n) > 0 && Retryable(n.kind) {
      SameAttempts(r, s, n, p, q, 1, h, h', d, d');
      var p', q' := Attempts(r, n, p, 1, h, d), Attempts(s, n, q, 1, h', d');
      if p'.out.err.Some? { SameGiveUp(r, s, n, p', q', e, h, h', d, d'); }
    } else {
      SameGiveUp(r, s, n, p, q, e, h, h', d, d');
    }
  }

  lemma {:induction false} SameAttempts(r: Run, s: Run, n: Node, p: Pending, q: Pending, k: nat,
                                        h: seq<Call>, h': seq<Call>, d: nat, d': nat)
    requires Pair(r, s) && IsNode(r.wf, n) && MatchPending(r, s, p, q) && 1 <= k <= RetriesOf(r.wf, n)
    requires Nearer(d', d, Attempts(r, n, p, k, h, d).out.guard)
    ensures MatchPending(r, s, Attempts(r, n, p, k, h, d), Attempts(s, n, q, k, h', d'))
    decreases Room(r), Level(d), Rank(r, n), 5, RetriesOf(r.wf, n) - k
  {
    SameAttempt(r, s, n, p, q, k, h, h', d, d');
    var p1, q1 := OneAttempt(r, n, p, k, h, d), OneAttempt(s, n, q, k, h', d');
    if p1.out.err.Some? && k < RetriesOf(r.wf, n) { SameAttempts(r, s, n, p1, q1, k + 1, h, h', d, d'); }
  }

  lemma {:induction false} SameAttempt(r: Run, s: Run, n: Node, p: Pending, q: Pending, k: nat,
                                       h: seq<Call>, h': seq<Call>, d: nat, d': nat)
    requires Pair(r, s) && IsNode(r.wf, n) && MatchPending(r, s, p, q)
    requires Nearer(d', d, OneAttempt(r, n, p, k, h, d).out.guard)
    ensures MatchPending(r, s, OneAttempt(r, n, p, k, h, d), OneAttempt(s, n, q, k, h', d'))
    decreases Room(r), Level(d), Rank(r, n), 4
  {
    var v := p.out.view;
    var c, c' := Ask(r, n, v, h + p.out.calls), Ask(s, n, v, h' + q.out.calls);
    SameAsk(r, s, n, v, h + p.out.calls, h' + q.out.calls);
    ExtendMatches(r, s, p, q, LeafOut(n, v, c), LeafOut(n, v, c'));
    if c.reply.Done? {
      var e := Succeeded(p.entry, c.reply.output).(retries := k);
      AppendMatches(r, s, Extend(p, LeafOut(n, v, c)), Extend(q, LeafOut(n, v, c')), e);
      var p1, q1 := Append(Extend(p, LeafOut(n, v, c)), e), Append(Extend(q, LeafOut(n, v, c')), e);
      SameFollowUp(r, s, n, p1.(out := p1.out.(view := Store(p1.out.view, n, c.reply.output))),
                   q1.(out := q1.out.(view := Store(p1.out.view, n, c.reply.output))), None, h, h', d, d');
    }
  }

  lemma {:induction false} SameGiveUp(r: Run, s: Run, n: Node, p: Pending, q: Pending, e: string,
                                      h: seq<Call>, h': seq<Call>, d: nat, d': nat)
    requires Pair(r, s) && IsNode(r.wf, n) && MatchPending(r, s, p, q)
    requires Nearer(d', d, GiveUp(r, n, p, e, h, d).guard)
    ensures Match(r, s, GiveUp(r, n, p, e, h, d), GiveUp(s, n, q, e, h', d'))
    decreases Room(r), Level(d), Rank(r, n), 7
  {
    AppendMatches(r, s, p, q, p.entry.(status := Failed, error := Some(e)));
    GiveUpIs(r, n, p, e, h, d);
    GiveUpIs(s, n, q, e, h', d');
    SameFailing(r, s, n, FailedAfter(p, e), FailedAfter(q, e), e, h, h', d, d');
  }

  lemma ErrorMatches(r: Run, s: Run, a: Out, b: Out, e: Option<string>)
    requires Match(r, s, a, b)
    ensures Match(r, s, a.(err := e), b.(err := e))
  {
  }

  lemma {:induction false} SameFailing(r: Run, s: Run, n: Node, a: Out, b: Out, e: string,
                                       h: seq<Call>, h': seq<Call>, d: nat, d': nat)
    requires Pair(r, s) && IsNode(r.wf, n) && Match(r, s, a, b)
    requires Nearer(d', d, Failing(r, n, a, e, h, d).guard)
    ensures Match(r, s, Failing(r, n, a, e, h, d), Failing(s, n, b, e, h', d'))
    decreases Room(r), Level(d), Rank(r, n), 7, 0
  {
    var handler := FindErrorHandler(r.wf, n.id);
    if handler.Some? {
      SameHandle(r, s, n, handler.value, a, b, e, h, h', d, d');
    } else if PolicyOf(r.wf, n).Continue? {
      SameContinue(r, s, n, a, b, h, h', d, d');
    } else {
      ErrorMatches(r, s, a, b, Failing(r, n, a, e, h, d).err);
    }
  }

  lemma {:induction false} SameContinue(r: Run, s: Run, n: Node, a: Out, b: Out, h: seq<Call>, h': seq<Call>, d: nat,
                                        d': nat)
    requires Pair(r, s) && IsNode(r.wf, n) && Match(r, s, a, b)
    requires Nearer(d', d, Continuing(r, n, a, h, d).guard)
    ensures Match(r, s, Continuing(r, n, a, h, d), Continuing(s, n, b, h', d'))
    decreases Room(r), Level(d), Rank(r, n), 6
  {
    var ss := Successors(r.wf, n.id, None);
    if ss != [] {
      SameNodes(r, s, ss, a.view, h + a.calls, h' + b.calls, d + 1, d' + 1);
      ThenMatches(r, s, a, b, Nodes(r, ss, a.view, h + a.calls, d + 1), Nodes(s, ss, a.view, h' + b.calls, d' + 1));
    }
  }

  lemma {:induction false} SameHandle(r: Run, s: Run, n: Node, handler: Node, a: Out, b: Out, e: string,
                                      h: seq<Call>, h': seq<Call>, d: nat, d': nat)
    requires Pair(r, s) && IsNode(r.wf, n) && Match(r, s, a, b) && FindErrorHandler(r.wf, n.id) == Some(handler)
    requires Nearer(d', d, Handle(r, n, handler, a, e, h, d).guard)
    ensures Match(r, s, Handle(r, n, handler, a, e, h, d), Handle(s, n, handler, b, e, h', d'))
    decreases Room(r), Level(d), Rank(r, n), 6
  {
    HandleIs(r, n, handler, a, e, h, d);
    HandleIs(s, n, handler, b, e, h', d');
    SameHandler(r, s, n, handler, HandlerView(n, a, e), a, b, h, h', d, d');
  }

  lemma {:induction false} SameHandler(r: Run, s: Run, n: Node, handler: Node, v: View, a: Out, b: Out,
                                       h: seq<Call>, h': seq<Call>, d: nat, d': nat)
    requires Pair(r, s) && IsNode(r.wf, handler) && Rank(r, handler) < Rank(r, n) && Match(r, s, a, b)
    requires Nearer(d', d, Then(a, Single(r, handler, v, h + a.calls, d + 1)).guard)
    ensures Match(r, s, Then(a, Single(r, handler, v, h + a.calls, d + 1)),
                  Then(b, Single(s, handler, v, h' + b.calls, d' + 1)))
    decreases Room(r), Level(d), Rank(r, n), 5
  {
    SameSingle(r, s, handler, v, h + a.calls, h' + b.calls, d + 1, d' + 1);
    ThenMatches(r, s, a, b, Single(r, handler, v, h + a.calls, d + 1), Single(s, handler, v, h' + b.calls, d' + 1));
  }

  lemma {:induction false} SameExecute(r: Run, s: Run, h: seq<Call>, h': seq<Call>)
    requires Pair(r, s)
    ensures Match(r, s, Execute(r, h), Execute(s, h'))
    decreases Room(r), NodesLevel(0) + 1, 0, 0
  {
    var t := FindTrigger(r.wf);
    if t.Some? {
      var ss, v := Successors(r.wf, t.value.id, None), TriggerView(r, t.value);
      SameNodes(r, s, ss, v, h, h', 0, 0);
      ThenMatches(r, s, TriggerOut(r, t.value), TriggerOut(s, t.value), Nodes(r, ss, v, h, 0), Nodes(s, ss, v, h', 0));
    }
  }
}
