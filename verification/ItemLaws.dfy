/** What loops, batches and parallel nodes report about the bodies they run, in terms of
    the contexts before and after each body. */
module ItemLaws {
  import opened Json
  import opened WorkflowGraph
  import opened WorkflowEngine
  import opened ContextLaws

  /** The length of `xs[:limit]` for a list of that length. */
  function SliceLength(length: nat, limit: int): nat {
    if limit >= 0 then (if limit < length then limit else length)
    else if length + limit >= 0 then length + limit
    else 0
  }

  // ---- loops ----

  /** One iteration: the context before its variables are set, the calls before it, and the
      context after its body. */
  datatype Step = Step(before: View, hist: seq<Call>, after: View)

  /** The body succeeds from the one context and leaves the other; no body changes nothing. */
  ghost predicate RanTo(r: Run, body: seq<Node>, v: View, h: seq<Call>, d: nat, after: View)
    requires Sound(r) && forall n :: n in body ==> IsNode(r.wf, n)
  {
    if body == [] then after == v
    else Nodes(r, body, v, h, d + 1).err.None? && Nodes(r, body, v, h, d + 1).view == after
  }

  function Bound(n: Node, v: View, item: Json, j: nat): View
    requires n.kind.Loop?
  {
    v.(vars := v.vars[n.kind.itemVar := item][n.kind.indexVar := Num(j as real)])
  }

  /** Iteration `j` sets the two variables, runs the body, and reports what it changed. */
  ghost predicate IsStep(r: Run, n: Node, j: nat, item: Json, d: nat, s: Step, result: Json)
    requires Sound(r) && n.kind.Loop?
  {
    Reports(s.before.data, s.after.data, item, result) &&
    RanTo(r, Successors(r.wf, n.id, Some("default")), Bound(n, s.before, item, j), s.hist, d, s.after)
  }

  /** These are the iterations over `items` from index `j` on, each starting where the one
      before it ended. */
  ghost predicate AreSteps(r: Run, n: Node, j: nat, items: seq<Json>, d: nat, v: View, steps: seq<Step>,
                           results: seq<Json>, last: View)
    requires Sound(r) && n.kind.Loop? && |steps| == |results| == |items|
    decreases |steps|
  {
    if steps == [] then last == v
    else
      steps[0].before == v && IsStep(r, n, j, items[0], d, steps[0], results[0]) &&
      AreSteps(r, n, j + 1, items[1..], d, steps[0].after, steps[1..], results[1..], last)
  }

  lemma IterateUnfolds(r: Run, n: Node, items: seq<Json>, i: nat, v: View, h: seq<Call>, d: nat)
    requires Sound(r) && IsNode(r.wf, n) && n.kind.Loop? && i < |items|
    ensures var a := RunBody(r, Successors(r.wf, n.id, Some("default")), Bound(n, v, items[i], i), h, d);
            var x := Iterate(r, n, items, i, v, h, d);
            if a.err.Some? then x.out.err.Some?
            else
              var rest := Iterate(r, n, items, i + 1, a.view, h + a.calls, d);
              x.out == Then(a, rest.out) && x.results == [ItemOutput(v.data, a.view.data, items[i])] + rest.results
  {
  }

  lemma RunBodyRan(r: Run, body: seq<Node>, v: View, h: seq<Call>, d: nat)
    requires Sound(r) && (forall n :: n in body ==> IsNode(r.wf, n)) && RunBody(r, body, v, h, d).err.None?
    ensures RanTo(r, body, v, h, d, RunBody(r, body, v, h, d).view)
  {
  }

  lemma {:induction false} IterateSteps(r: Run, n: Node, items: seq<Json>, i: nat, v: View, h: seq<Call>, d: nat)
      returns (steps: seq<Step>)
    requires Sound(r) && IsNode(r.wf, n) && n.kind.Loop? && i <= |items|
    requires Iterate(r, n, items, i, v, h, d).out.err.None?
    ensures var x := Iterate(r, n, items, i, v, h, d);
            |steps| == |x.results| == |items| - i && AreSteps(r, n, i, items[i..], d, v, steps, x.results, x.out.view)
    decreases |items| - i
  {
    steps := [];
    if i < |items| {
      var body, bound := Successors(r.wf, n.id, Some("default")), Bound(n, v, items[i], i);
      var a := RunBody(r, body, bound, h, d);
      IterateUnfolds(r, n, items, i, v, h, d);
      RunBodyRan(r, body, bound, h, d);
      OutputReports(v.data, a.view.data, items[i]);
      var more := IterateSteps(r, n, items, i + 1, a.view, h + a.calls, d);
      steps := [Step(v, h, a.view)] + more;
      var rest := Iterate(r, n, items, i + 1, a.view, h + a.calls, d);
      StepsOn(r, n, i, items, d, Step(v, h, a.view), more, ItemOutput(v.data, a.view.data, items[i]), rest.results,
              rest.out.view);
    }
  }

  lemma StepsOn(r: Run, n: Node, i: nat, items: seq<Json>, d: nat, s: Step, more: seq<Step>, result: Json,
                results: seq<Json>, last: View)
    requires Sound(r) && n.kind.Loop? && i < |items| && |more| == |results| == |items| - i - 1
    requires IsStep(r, n, i, items[i], d, s, result)
    requires AreSteps(r, n, i + 1, items[i + 1..], d, s.after, more, results, last)
    ensures AreSteps(r, n, i, items[i..], d, s.before, [s] + more, [result] + results, last)
  {
    assert items[i..][1..] == items[i + 1..];
    assert ([s] + more)[1..] == more && ([result] + results)[1..] == results;
  }

  /** What a loop node gives: its fields, and the variable with the results. */
  ghost predicate GivesResults(n: Node, last: View, after: View, next: Next, results: seq<Json>)
    requires n.kind.Loop?
  {
    next.Go? && next.handle == Some("done") && next.output.Obj? &&
    Get(next.output.fields, "loop_results") == Arr(results) &&
    Get(next.output.fields, "loop_iterations") == Num(|results| as real) &&
    next.output.fields.Keys == {"loop_results", "loop_iterations"} &&
    after == last.(vars := last.vars[n.kind.itemVar + "_results" := Arr(results)])
  }

  /** A loop that completes runs its body once for each element up to the limit, one after
      the other on the same context, and each result is what its body changed. */
  lemma LoopReports(r: Run, n: Node, v: View, h: seq<Call>, d: nat)
      returns (items: seq<Json>, steps: seq<Step>, results: seq<Json>, last: View)
    requires Sound(r) && IsNode(r.wf, n) && n.kind.Loop? && LoopBody(r, n, v, h, d).out.err.None?
    requires ResolveValue(n.kind.arrayField, v, r.trigger).Arr?
    ensures var list := ResolveValue(n.kind.arrayField, v, r.trigger).items;
            items <= list &&
            |items| == SliceLength(|list|, if n.kind.maxIterations < 1000 then n.kind.maxIterations else 1000)
    ensures |steps| == |results| == |items| && AreSteps(r, n, 0, items, d, v, steps, results, last)
    ensures var b := LoopBody(r, n, v, h, d); GivesResults(n, last, b.out.view, b.next, results)
  {
    items := Prefix(ResolveValue(n.kind.arrayField, v, r.trigger).items, Min(n.kind.maxIterations, 1000));
    var x := Iterate(r, n, items, 0, v, h, d);
    LoopIs(r, n, v, h, d, items);
    steps := IterateSteps(r, n, items, 0, v, h, d);
    results, last := x.results, x.out.view;
    assert items[0..] == items;
  }

  lemma LoopIs(r: Run, n: Node, v: View, h: seq<Call>, d: nat, items: seq<Json>)
    requires Sound(r) && IsNode(r.wf, n) && n.kind.Loop? && LoopBody(r, n, v, h, d).out.err.None?
    requires var list := ResolveValue(n.kind.arrayField, v, r.trigger);
             list.Arr? && items == Prefix(list.items, Min(n.kind.maxIterations, 1000))
    ensures var b, x := LoopBody(r, n, v, h, d), Iterate(r, n, items, 0, v, h, d);
            x.out.err.None? && GivesResults(n, x.out.view, b.out.view, b.next, x.results)
  {
  }

  /** Anything else than a list is looped over no time. */
  lemma LoopWithoutList(r: Run, n: Node, v: View, h: seq<Call>, d: nat)
    requires Sound(r) && IsNode(r.wf, n) && n.kind.Loop? && !ResolveValue(n.kind.arrayField, v, r.trigger).Arr?
    ensures var b := LoopBody(r, n, v, h, d);
            b.out == Quiet(v) && b.next.Go? && b.next.handle == Some("done") && b.next.output.Obj? &&
            Get(b.next.output.fields, "loop_results") == Arr([]) &&
            Get(b.next.output.fields, "loop_iterations") == Num(0.0)
  {
  }

  // ---- batches ----

  /** The run of one item, and the calls before it. */
  datatype ItemRun = ItemRun(hist: seq<Call>, out: Out)

  function ItemBody(r: Run, n: Node): (body: seq<Node>)
    requires n.kind.Batch?
    ensures forall b :: b in body ==> IsNode(r.wf, b)
  {
    if n.kind.bodyNodes == [] then Successors(r.wf, n.id, Some("body")) else Present(r.wf, n.kind.bodyNodes)
  }

  /** Item `j` runs the body on a copy of the context that has it under `batch_item`, and
      its result is the error, or what the body changed in the copy. */
  ghost predicate IsItem(r: Run, n: Node, j: nat, item: Json, d: nat, v: View, x: ItemRun, result: ItemResult)
    requires Sound(r) && n.kind.Batch?
  {
    var copy := v.(vars := v.vars["batch_item" := item]["batch_index" := Num(j as real)]);
    x.out == (if ItemBody(r, n) == [] then Quiet(copy) else Nodes(r, ItemBody(r, n), copy, x.hist, d + 1)) &&
    if x.out.err.Some? then result == ItemFailed(j, x.out.err.value)
    else result.ItemOk? && Reports(v.data, x.out.view.data, item, result.output)
  }

  /** These are the runs of `items`, from index `j` on: all of them, or in stop mode those
      up to the first that failed. */
  ghost predicate AreItems(r: Run, n: Node, j: nat, items: seq<Json>, d: nat, v: View, xs: seq<ItemRun>,
                           results: seq<ItemResult>)
    requires Sound(r) && n.kind.Batch?
    decreases |items|
  {
    |xs| == |results| &&
    if items == [] then xs == []
    else
      xs != [] && IsItem(r, n, j, items[0], d, v, xs[0], results[0]) &&
      if xs[0].out.err.Some? && n.kind.stopOnItemError then |xs| == 1
      else AreItems(r, n, j + 1, items[1..], d, v, xs[1..], results[1..])
  }

  lemma ItemIs(r: Run, n: Node, items: seq<Json>, i: nat, v: View, h: seq<Call>, d: nat)
    requires Sound(r) && IsNode(r.wf, n) && n.kind.Batch? && i < |items|
    ensures var a := RunBody(r, BatchNodes(r, n), ItemView(v, items[i], i), h, d);
            IsItem(r, n, i, items[i], d, v, ItemRun(h, a), ItemResultOf(v, items[i], i, a))
  {
    var a := RunBody(r, BatchNodes(r, n), ItemView(v, items[i], i), h, d);
    OutputReports(v.data, a.view.data, items[i]);
  }

  lemma ProcessUnfolds(r: Run, n: Node, items: seq<Json>, i: nat, v: View, h: seq<Call>, d: nat)
    requires Sound(r) && IsNode(r.wf, n) && n.kind.Batch? && i < |items|
    ensures var a := RunBody(r, BatchNodes(r, n), ItemView(v, items[i], i), h, d);
            Process(r, n, items, i, v, h, d).results ==
            [ItemResultOf(v, items[i], i, a)] +
            (if a.err.Some? && n.kind.stopOnItemError then []
             else Process(r, n, items, i + 1, v, h + a.calls, d).results)
  {
  }

  lemma ItemsOn(r: Run, n: Node, i: nat, items: seq<Json>, d: nat, v: View, x: ItemRun, more: seq<ItemRun>,
                result: ItemResult, results: seq<ItemResult>)
    requires Sound(r) && n.kind.Batch? && i < |items| && IsItem(r, n, i, items[i], d, v, x, result)
    requires if x.out.err.Some? && n.kind.stopOnItemError then more == [] && results == []
             else AreItems(r, n, i + 1, items[i + 1..], d, v, more, results)
    ensures AreItems(r, n, i, items[i..], d, v, [x] + more, [result] + results)
  {
    assert items[i..][1..] == items[i + 1..];
    assert ([x] + more)[1..] == more && ([result] + results)[1..] == results;
  }

  lemma {:induction false} ProcessItems(r: Run, n: Node, items: seq<Json>, i: nat, v: View, h: seq<Call>, d: nat)
      returns (xs: seq<ItemRun>)
    requires Sound(r) && IsNode(r.wf, n) && n.kind.Batch? && i <= |items|
    ensures AreItems(r, n, i, items[i..], d, v, xs, Process(r, n, items, i, v, h, d).results)
    decreases |items| - i
  {
    xs := [];
    if i < |items| {
      var a := RunBody(r, BatchNodes(r, n), ItemView(v, items[i], i), h, d);
      ItemIs(r, n, items, i, v, h, d);
      ProcessUnfolds(r, n, items, i, v, h, d);
      var rest := [];
      if !(a.err.Some? && n.kind.stopOnItemError) {
        xs := ProcessItems(r, n, items, i + 1, v, h + a.calls, d);
        rest := Process(r, n, items, i + 1, v, h + a.calls, d).results;
      }
      ItemsOn(r, n, i, items, d, v, ItemRun(h, a), xs, ItemResultOf(v, items[i], i, a), rest);
      xs := [ItemRun(h, a)] + xs;
    }
  }

  /** `ks` are exactly the positions of the successes, or of the failures, in order. */
  predicate ArePositions(ks: seq<nat>, results: seq<ItemResult>, failed: bool) {
    (forall i, j :: 0 <= i < j < |ks| ==> ks[i] < ks[j]) && (forall j :: 0 <= j < |ks| ==> ks[j] < |results|) &&
    forall i :: 0 <= i < |results| ==> (i in ks <==> results[i].ItemFailed? == failed)
  }

  lemma PositionsOn(ks: seq<nat>, results: seq<ItemResult>, last: ItemResult, failed: bool)
    requires ArePositions(ks, results, failed)
    ensures ArePositions(if last.ItemFailed? == failed then ks + [|results|] else ks, results + [last], failed)
  {
  }

  function ErrorOf(index: nat, error: string): Json {
    Obj(map["index" := Num(index as real), "status" := Str("failed"), "error" := Str(error)])
  }

  ghost predicate AreOutputs(outputs: seq<Json>, oks: seq<nat>, results: seq<ItemResult>) {
    |outputs| == |oks| &&
    forall j :: 0 <= j < |oks| ==> oks[j] < |results| && results[oks[j]].ItemOk? && outputs[j] == results[oks[j]].output
  }

  ghost predicate AreErrors(errors: seq<Json>, fails: seq<nat>, results: seq<ItemResult>) {
    |errors| == |fails| &&
    forall j :: 0 <= j < |fails| ==>
      fails[j] < |results| && results[fails[j]].ItemFailed? &&
      errors[j] == ErrorOf(results[fails[j]].index, results[fails[j]].error)
  }

  lemma {:induction false} OutputsOn(results: seq<ItemResult>, last: ItemResult)
    ensures Outputs(results + [last]) == Outputs(results) + (if last.ItemOk? then [last.output] else [])
    ensures Errors(results + [last]) ==
            Errors(results) + (if last.ItemFailed? then [ErrorOf(last.index, last.error)] else [])
  {
    if results == [] {
      assert [last][1..] == [];
      assert [] + [last] == [last];
    } else {
      OutputsOn(results[1..], last);
      assert (results + [last])[1..] == results[1..] + [last];
    }
  }

  lemma OutputsPlacedOn(outputs: seq<Json>, oks: seq<nat>, results: seq<ItemResult>, last: ItemResult)
    requires AreOutputs(outputs, oks, results)
    ensures AreOutputs(outputs, oks, results + [last])
    ensures last.ItemOk? ==> AreOutputs(outputs + [last.output], oks + [|results|], results + [last])
  {
  }

  lemma ErrorsPlacedOn(errors: seq<Json>, fails: seq<nat>, results: seq<ItemResult>, last: ItemResult)
    requires AreErrors(errors, fails, results)
    ensures AreErrors(errors, fails, results + [last])
    ensures last.ItemFailed? ==>
              AreErrors(errors + [ErrorOf(last.index, last.error)], fails + [|results|], results + [last])
  {
  }

  lemma OutputsNext(front: seq<ItemResult>, last: ItemResult, oks: seq<nat>)
    requires ArePositions(oks, front, false) && AreOutputs(Outputs(front), oks, front)
    ensures var oks' := if last.ItemOk? then oks + [|front|] else oks;
            ArePositions(oks', front + [last], false) && AreOutputs(Outputs(front + [last]), oks', front + [last])
  {
    OutputsOn(front, last);
    OutputsPlacedOn(Outputs(front), oks, front, last);
    PositionsOn(oks, front, last, false);
  }

  lemma ErrorsNext(front: seq<ItemResult>, last: ItemResult, fails: seq<nat>)
    requires ArePositions(fails, front, true) && AreErrors(Errors(front), fails, front)
    ensures var fails' := if last.ItemFailed? then fails + [|front|] else fails;
            ArePositions(fails', front + [last], true) && AreErrors(Errors(front + [last]), fails', front + [last])
  {
    OutputsOn(front, last);
    ErrorsPlacedOn(Errors(front), fails, front, last);
    PositionsOn(fails, front, last, true);
  }

  lemma {:induction false} OutputsArePlaced(results: seq<ItemResult>) returns (oks: seq<nat>, fails: seq<nat>)
    ensures ArePositions(oks, results, false) && AreOutputs(Outputs(results), oks, results)
    ensures ArePositions(fails, results, true) && AreErrors(Errors(results), fails, results)
  {
    oks, fails := [], [];
    if results != [] {
      var front, last := results[..|results| - 1], results[|results| - 1];
      oks, fails := OutputsArePlaced(front);
      LastOfAll(results);
      OutputsNext(front, last, oks);
      ErrorsNext(front, last, fails);
      if last.ItemOk? { oks := oks + [|front|]; } else { fails := fails + [|front|]; }
    }
  }

  /** What a batch node gives: the counts, the outputs of the items that succeeded, and the
      first 20 errors, both in the order of the items. */
  ghost predicate GivesBatch(v: View, after: View, next: Next, total: nat, outputs: seq<Json>, errors: seq<Json>) {
    after == v.(vars := v.vars["batch_results" := Arr(outputs)]) &&
    next.Go? && next.handle == Some("done") && next.output.Obj? &&
    next.output.fields.Keys == {"batch_total", "batch_succeeded", "batch_failed", "batch_results", "batch_errors"} &&
    Get(next.output.fields, "batch_total") == Num(total as real) &&
    Get(next.output.fields, "batch_succeeded") == Num(|outputs| as real) &&
    Get(next.output.fields, "batch_failed") == Num(|errors| as real) &&
    Get(next.output.fields, "batch_results") == Arr(outputs) &&
    Get(next.output.fields, "batch_errors") == Arr(errors[..SliceLength(|errors|, 20)])
  }

  lemma DoneGives(n: Node, v: View, pick: nat -> nat, total: nat, x: BatchRun)
    requires n.kind.Batch?
    ensures var b := BatchDone(n, v, pick, total, x);
            b.out.err.None? && GivesBatch(v, b.out.view, b.next, total, Outputs(x.results), Errors(x.results))
  {
  }

  lemma BatchIs(r: Run, n: Node, v: View, h: seq<Call>, d: nat, items: seq<Json>)
    requires Sound(r) && IsNode(r.wf, n) && n.kind.Batch? && n.kind.concurrency >= 0
    requires var list := ResolveValue(n.kind.source, v, r.trigger);
             list.Arr? && items == Prefix(list.items, Min(n.kind.maxItems, 10000))
    ensures BatchBody(r, n, v, h, d) ==
            BatchDone(n, v, PickOf(r.w, h, n, v), |items|, Process(r, n, items, 0, v, h, d))
  {
  }

  /** A batch runs its body on a copy of the context for each element up to the limit, in
      stop mode up to the first failure, and reports what each body changed, or its error. */
  lemma BatchReports(r: Run, n: Node, v: View, h: seq<Call>, d: nat)
      returns (items: seq<Json>, xs: seq<ItemRun>, results: seq<ItemResult>, oks: seq<nat>, fails: seq<nat>,
               outputs: seq<Json>, errors: seq<Json>)
    requires Sound(r) && IsNode(r.wf, n) && n.kind.Batch? && n.kind.concurrency >= 0
    requires ResolveValue(n.kind.source, v, r.trigger).Arr?
    ensures var list := ResolveValue(n.kind.source, v, r.trigger).items;
            items <= list && |items| == SliceLength(|list|, if n.kind.maxItems < 10000 then n.kind.maxItems else 10000)
    ensures AreItems(r, n, 0, items, d, v, xs, results)
    ensures ArePositions(oks, results, false) && AreOutputs(outputs, oks, results)
    ensures ArePositions(fails, results, true) && AreErrors(errors, fails, results)
    ensures var b := BatchBody(r, n, v, h, d);
            b.out.err.None? && GivesBatch(v, b.out.view, b.next, |items|, outputs, errors)
  {
    items := Prefix(ResolveValue(n.kind.source, v, r.trigger).items, Min(n.kind.maxItems, 10000));
    results := Process(r, n, items, 0, v, h, d).results;
    outputs, errors := Outputs(results), Errors(results);
    BatchIs(r, n, v, h, d, items);
    DoneGives(n, v, PickOf(r.w, h, n, v), |items|, Process(r, n, items, 0, v, h, d));
    xs := ProcessItems(r, n, items, 0, v, h, d);
    assert items[0..] == items;
    oks, fails := OutputsArePlaced(results);
  }

  /** Anything else than a list is a batch of nothing. */
  lemma BatchWithoutList(r: Run, n: Node, v: View, h: seq<Call>, d: nat)
    requires Sound(r) && IsNode(r.wf, n) && n.kind.Batch? && !ResolveValue(n.kind.source, v, r.trigger).Arr?
    ensures var b := BatchBody(r, n, v, h, d);
            b.out == Quiet(v) && b.next.Go? && b.next.handle == Some("done") && b.next.output.Obj? &&
            Get(b.next.output.fields, "batch_results") == Arr([]) &&
            Get(b.next.output.fields, "batch_total") == Num(0.0)
  {
  }

  // ---- parallel nodes ----

  /** The branch `ss[j]` runs as a node of its own, on a copy of the context. */
  ghost predicate AreBranchRuns(r: Run, ss: seq<Node>, d: nat, v: View, xs: seq<ItemRun>)
    requires Sound(r) && forall s :: s in ss ==> IsNode(r.wf, s)
  {
    |xs| == |ss| && forall j :: 0 <= j < |ss| ==> xs[j].out == Single(r, ss[j], v, xs[j].hist, d + 1)
  }

  predicate IsLastOf(ss: seq<Node>, j: nat)
    requires j < |ss|
  {
    forall k :: j < k < |ss| ==> ss[k].id != ss[j].id
  }

  /** Each branch's output in its copy, or its error, under the branch's id; of branches
      with the same id, the last. */
  ghost predicate IsCollected(results: Dict, ss: seq<Node>, xs: seq<ItemRun>) {
    |xs| == |ss| && (forall id :: id in results <==> HasId(ss, id)) &&
    forall j :: 0 <= j < |ss| && IsLastOf(ss, j) ==>
      Get(results, ss[j].id) ==
      if xs[j].out.err.Some? then Obj(map["error" := Str(xs[j].out.err.value)])
      else Get(xs[j].out.view.outputs, ss[j].id)
  }

  lemma CollectedOn(results: Dict, ss: seq<Node>, xs: seq<ItemRun>, s: Node, x: ItemRun)
    requires IsCollected(results, ss, xs)
    ensures IsCollected(results[s.id := BranchOutput(s, x.out)], ss + [s], xs + [x])
  {
    var results', ss' := results[s.id := BranchOutput(s, x.out)], ss + [s];
    forall id ensures id in results' <==> HasId(ss', id) {
      if HasId(ss, id) {
        var i :| 0 <= i < |ss| && ss[i].id == id;
        assert ss'[i].id == id;
      }
      assert ss'[|ss|] == s;
    }
    forall j | 0 <= j < |ss| && IsLastOf(ss', j) ensures IsLastOf(ss, j) && ss[j].id != s.id {
      assert ss'[|ss|] == s;
      forall k | j < k < |ss| ensures ss[k].id != ss[j].id { assert ss'[k] == ss[k]; }
    }
  }

  lemma BranchRunsOn(r: Run, ss: seq<Node>, d: nat, v: View, xs: seq<ItemRun>, s: Node, h: seq<Call>)
    requires Sound(r) && (forall s :: s in ss ==> IsNode(r.wf, s)) && IsNode(r.wf, s) && AreBranchRuns(r, ss, d, v, xs)
    ensures AreBranchRuns(r, ss + [s], d, v, xs + [ItemRun(h, Single(r, s, v, h, d + 1))])
  {
  }

  lemma ScatterUnfolds(r: Run, n: Node, ss: seq<Node>, v: View, h: seq<Call>, d: nat)
    requires Sound(r) && IsNode(r.wf, n) && n.kind.Parallel? && AreBranches(r, n, ss) && ss != []
    ensures var k := |ss| - 1;
            var x := Scatter(r, n, ss[..k], v, h, d);
            IsNode(r.wf, ss[k]) &&
            Scatter(r, n, ss, v, h, d).results ==
            x.results[ss[k].id := BranchOutput(ss[k], Single(r, ss[k], v, h + x.calls, d + 1))]
  {
    BranchRank(r, n, ss[|ss| - 1]);
  }

  lemma {:induction false} ScatterRuns(r: Run, n: Node, ss: seq<Node>, v: View, h: seq<Call>, d: nat)
      returns (xs: seq<ItemRun>)
    requires Sound(r) && IsNode(r.wf, n) && n.kind.Parallel? && AreBranches(r, n, ss)
    ensures (forall s :: s in ss ==> IsNode(r.wf, s)) && AreBranchRuns(r, ss, d, v, xs)
    ensures IsCollected(Scatter(r, n, ss, v, h, d).results, ss, xs)
    decreases |ss|
  {
    xs := [];
    if ss != [] {
      var front, s := ss[..|ss| - 1], ss[|ss| - 1];
      xs := ScatterRuns(r, n, front, v, h, d);
      ScatterUnfolds(r, n, ss, v, h, d);
      var h' := h + Scatter(r, n, front, v, h, d).calls;
      BranchRunsOn(r, front, d, v, xs, s, h');
      CollectedOn(Scatter(r, n, front, v, h, d).results, front, xs, s, ItemRun(h', Single(r, s, v, h', d + 1)));
      xs := xs + [ItemRun(h', Single(r, s, v, h', d + 1))];
      LastOfAll(ss);
    }
  }

  /** What a parallel node gives: the results, also as a variable and as node outputs. */
  ghost predicate GivesBranches(v: View, after: View, next: Next, branches: nat, results: Dict) {
    after.data == v.data && after.vars == v.vars["parallel_results" := Obj(results)] &&
    Overlays(after.outputs, v.outputs, results) && next.Go? && next.handle == Some("done") && next.output.Obj? &&
    next.output.fields.Keys == {"parallel_branches", "results"} &&
    Get(next.output.fields, "parallel_branches") == Num(branches as real) &&
    Get(next.output.fields, "results") == Obj(results)
  }

  lemma ParallelGives(r: Run, n: Node, v: View, h: seq<Call>, d: nat)
    requires Sound(r) && IsNode(r.wf, n) && n.kind.Parallel? && Successors(r.wf, n.id, Some("branch")) != []
    ensures var b, ss := ParallelBody(r, n, v, h, d), Successors(r.wf, n.id, Some("branch"));
            b.out.err.None? && GivesBranches(v, b.out.view, b.next, |ss|, Scatter(r, n, ss, v, h, d).results)
  {
    MergeOverlays(v.outputs, Scatter(r, n, Successors(r.wf, n.id, Some("branch")), v, h, d).results);
  }

  /** A parallel node runs each branch on a copy of the context, and reports each output or
      error; the errors of branches do not fail it. */
  lemma ParallelReports(r: Run, n: Node, v: View, h: seq<Call>, d: nat) returns (xs: seq<ItemRun>, results: Dict)
    requires Sound(r) && IsNode(r.wf, n) && n.kind.Parallel? && Successors(r.wf, n.id, Some("branch")) != []
    ensures var ss := Successors(r.wf, n.id, Some("branch"));
            AreBranchRuns(r, ss, d, v, xs) && IsCollected(results, ss, xs)
    ensures var b := ParallelBody(r, n, v, h, d);
            b.out.err.None? && GivesBranches(v, b.out.view, b.next, |Successors(r.wf, n.id, Some("branch"))|, results)
  {
    var ss := Successors(r.wf, n.id, Some("branch"));
    results := Scatter(r, n, ss, v, h, d).results;
    xs := ScatterRuns(r, n, ss, v, h, d);
    ParallelGives(r, n, v, h, d);
  }
}
