/** The workflow interpreter: what executing a workflow means.

    Each function here says what one of the engine's executors does to the part of the
    context that nodes read (`View`), and what it adds to the node results and to the
    connector calls. Connector calls and the other single-node computations are an
    oracle, `World.leaf`, which may answer from the whole history of calls. The
    executors that update the context in place are in WorkflowExecutor.dfy. */
module WorkflowEngine {
  import opened Json
  import opened NestedPath
  import opened WorkflowGraph

  const MAX_DEPTH := 200
  const DEPTH_ERROR := "Maximum workflow depth exceeded (possible cycle)"

  /** `ctx.data`, `ctx.variables` and `ctx.node_outputs`: what a replay restores. */
  datatype View = View(data: Dict, vars: Dict, outputs: Dict)

  datatype Status = Running | Success | Failed | Filtered

  /** One element of `ctx.node_results`. */
  datatype Entry = Entry(nodeId: string, title: string, status: Status, input: Dict, replay: View,
                         output: Option<Json>, error: Option<string>, retries: nat)

  datatype Request = Request(workflowId: string, node: Node, view: View, trigger: Dict, dryRun: bool)

  /** What computing a node gives; `vars` and `data` are the entries that variable
      setters, aggregates and error handlers store themselves. */
  datatype Reply =
    | Done(output: Json, handle: string, vars: Dict, data: Dict)
    | Raised(error: string, vars: Dict, data: Dict)

  datatype Call = Call(request: Request, reply: Reply)

  /** `order` decides which of the running items of a concurrent batch completes next,
      given the calls before the batch and the number of items that have not completed. */
  datatype World = World(leaf: (seq<Call>, Request) -> Reply,
                         subInput: (Node, View, Dict) -> Dict,
                         order: (seq<Call>, Node, View, nat) -> nat,
                         table: map<string, Workflow>)

  /** What stays fixed while one workflow executes. */
  datatype Run = Run(w: World, wf: Workflow, trigger: Dict, dryRun: bool, chain: seq<string>)

  /** What an executor leaves behind: the context, the results, calls and sub-workflow
      chains it added, the error it raised if any, and whether the depth limit fired. */
  datatype Out = Out(view: View, log: seq<Entry>, calls: seq<Call>, entered: seq<seq<string>>,
                     err: Option<string>, guard: bool)

  function Then(a: Out, b: Out): Out {
    Out(b.view, a.log + b.log, a.calls + b.calls, a.entered + b.entered, b.err, a.guard || b.guard)
  }

  function Quiet(v: View): Out {
    Out(v, [], [], [], None, false)
  }

  // ---- values ----

  predicate StartsWith(s: string, prefix: string) {
    prefix <= s
  }

  function DotAt(s: string): (i: nat)
    ensures i <= |s|
  {
    if s == "" then 0 else if s[0] == '.' then 0 else 1 + DotAt(s[1..])
  }

  function ResolveValue(path: string, v: View, trigger: Dict): Json {
    if path == "" then Null
    else if StartsWith(path, "vars.") then GetPath(Obj(v.vars), Parse(path[5..]))
    else if StartsWith(path, "nodes.") then
      var name := path[6..];
      var dot := DotAt(name);
      var output := Get(v.outputs, name[..dot]);
      if dot < |name| && output.Obj? then GetPath(output, Parse(name[dot + 1..])) else output
    else if StartsWith(path, "trigger.") then GetPath(Obj(trigger), Parse(path[8..]))
    else if StartsWith(path, "item.") then
      var item := Get(v.vars, "batch_item");
      if item.Obj? then GetPath(item, Parse(path[5..])) else Null
    else if StartsWith(path, "data.") then GetPath(Obj(v.data), Parse(path[5..]))
    else GetPath(Obj(v.data), Parse(path))
  }

  /** The entries that are new or different after a body ran. */
  function Changed(before: Dict, after: Dict): Dict {
    map k | k in after && (k !in before || before[k] != after[k]) :: after[k]
  }

  /** What one iteration or item produced, or the item itself if nothing changed. */
  function ItemOutput(before: Dict, after: Dict, item: Json): Json {
    if Changed(before, after) != map[] then Obj(Changed(before, after))
    else if item.Obj? then item
    else Obj(map["value" := item])
  }

  // ---- configuration ----

  predicate IsLeaf(k: Kind) {
    k.Action? || k.Think? || k.HttpRequest? || k.Condition? || k.Switch? || k.Transform? || k.Filter? ||
    k.SetVariable? || k.Aggregate? || k.Response? || k.ErrorHandler?
  }

  predicate Retryable(k: Kind) {
    k.Action? || k.HttpRequest? || k.Think?
  }

  predicate HasEffects(k: Kind) {
    k.SetVariable? || k.Aggregate? || k.ErrorHandler?
  }

  function PolicyOf(wf: Workflow, n: Node): OnError {
    if n.onError.Some? then n.onError.value else wf.onError
  }

  function RetriesOf(wf: Workflow, n: Node): int {
    if n.maxRetries.Some? then n.maxRetries.value else wf.maxRetries
  }

  /** Branch edges of parallel nodes and error handlers start a node without the depth
      check; `rank` falls along them. */
  ghost predicate ValidRank(wf: Workflow, rank: map<string, nat>) {
    forall n {:trigger RanksFall(wf, rank, n)} :: IsNode(wf, n) ==> RanksFall(wf, rank, n)
  }

  predicate RanksFall(wf: Workflow, rank: map<string, nat>, n: Node) {
    (n.kind.Parallel? ==>
       forall s :: s in Successors(wf, n.id, Some("branch")) ==> RankIn(rank, s.id) < RankIn(rank, n.id)) &&
    (FindErrorHandler(wf, n.id).Some? ==> RankIn(rank, FindErrorHandler(wf, n.id).value.id) < RankIn(rank, n.id))
  }

  function RankIn(rank: map<string, nat>, id: string): nat {
    if id in rank then rank[id] else 0
  }

  ghost predicate Ranked(wf: Workflow) {
    exists rank :: ValidRank(wf, rank)
  }

  ghost function RankMap(wf: Workflow): (rank: map<string, nat>)
    requires Ranked(wf)
    ensures ValidRank(wf, rank)
  {
    var rank :| ValidRank(wf, rank);
    rank
  }

  ghost predicate AllRanked(w: World) {
    forall id :: id in w.table ==> Ranked(w.table[id])
  }

  ghost predicate Sound(r: Run) {
    Ranked(r.wf) && AllRanked(r.w)
  }

  // ---- termination measure ----

  /** Workflows that can still be entered. */
  ghost function Room(r: Run): nat {
    |r.w.table.Keys - set id | id in r.chain|
  }

  ghost function Level(d: nat): nat {
    if d > MAX_DEPTH then 0 else 2 * (MAX_DEPTH + 1 - d)
  }

  ghost function NodesLevel(d: nat): nat {
    if d > MAX_DEPTH then 0 else Level(d) + 1
  }

  ghost function Rank(r: Run, n: Node): nat
    requires Sound(r)
  {
    RankIn(RankMap(r.wf), n.id) + 1
  }

  lemma BranchRank(r: Run, n: Node, s: Node)
    requires Sound(r) && IsNode(r.wf, n) && n.kind.Parallel? && s in Successors(r.wf, n.id, Some("branch"))
    ensures IsNode(r.wf, s) && Rank(r, s) < Rank(r, n)
  {
    assert RanksFall(r.wf, RankMap(r.wf), n);
  }

  lemma HandlerRank(r: Run, n: Node, handler: Node)
    requires Sound(r) && IsNode(r.wf, n) && FindErrorHandler(r.wf, n.id) == Some(handler)
    ensures IsNode(r.wf, handler) && Rank(r, handler) < Rank(r, n)
  {
    assert RanksFall(r.wf, RankMap(r.wf), n);
  }

  // ---- `_execute_nodes` ----

  function Nodes(r: Run, ns: seq<Node>, v: View, h: seq<Call>, d: nat): (out: Out)
    requires Sound(r) && forall n :: n in ns ==> IsNode(r.wf, n)
    ensures v.vars.Keys <= out.view.vars.Keys
    decreases Room(r), NodesLevel(d), 0, 2
  {
    if d > MAX_DEPTH then Quiet(v).(err := Some(DEPTH_ERROR), guard := true)
    else NodesFrom(r, ns, v, h, d)
  }

  function NodesFrom(r: Run, ns: seq<Node>, v: View, h: seq<Call>, d: nat): (out: Out)
    requires Sound(r) && (forall n :: n in ns ==> IsNode(r.wf, n)) && d <= MAX_DEPTH
    ensures v.vars.Keys <= out.view.vars.Keys
    decreases Room(r), NodesLevel(d), 0, 1, |ns|
  {
    if ns == [] then Quiet(v)
    else
      var a := Single(r, ns[0], v, h, d);
      if a.err.Some? then a else Then(a, NodesFrom(r, ns[1..], a.view, h + a.calls, d))
  }

  // ---- `_execute_single_node` ----

  /** A node's result entry while it is being executed, and the places in `out.log`
      where the engine has appended that same entry. */
  datatype Pending = Pending(out: Out, entry: Entry, places: set<nat>)

  function Open(n: Node, v: View): Entry {
    Entry(n.id, n.title, Running, v.data, v, None, None, 0)
  }

  /** The log after the entry itself changed: every appended copy shows the change. */
  function Amend(log: seq<Entry>, places: set<nat>, e: Entry): (log': seq<Entry>)
    ensures |log'| == |log|
    ensures forall i :: 0 <= i < |log| ==> log'[i] == if i in places then e else log[i]
  {
    seq(|log|, i requires 0 <= i < |log| => if i in places then e else log[i])
  }

  /** Set the entry to `e` and append it to the results. */
  function Append(p: Pending, e: Entry): Pending {
    Pending(p.out.(log := Amend(p.out.log, p.places, e) + [e]), e, p.places + {|p.out.log|})
  }

  function Extend(p: Pending, more: Out): Pending {
    p.(out := Then(p.out, more))
  }

  function Succeeded(e: Entry, output: Json): Entry {
    e.(status := Success, output := Some(output))
  }

  /** Store a node's output, and merge it into the data if it is a dictionary. */
  function Store(v: View, n: Node, output: Json): View {
    v.(outputs := v.outputs[n.id := output], data := if output.Obj? then v.data + output.fields else v.data)
  }

  function Single(r: Run, n: Node, v: View, h: seq<Call>, d: nat): (out: Out)
    requires Sound(r) && IsNode(r.wf, n)
    ensures v.vars.Keys <= out.view.vars.Keys
    decreases Room(r), Level(d), Rank(r, n), 9
  {
    var p := Try(r, n, v, h, d);
    if p.out.err.None? then p.out else Recover(r, n, p, v, h, d)
  }

  datatype Next = Pass | Answer(output: Json) | Go(output: Json, handle: Option<string>)

  datatype BodyOut = BodyOut(out: Out, next: Next)

  /** The `try` block: run the node, record its result, then run what follows it. */
  function Try(r: Run, n: Node, v: View, h: seq<Call>, d: nat): (p: Pending)
    requires Sound(r) && IsNode(r.wf, n)
    ensures v.vars.Keys <= p.out.view.vars.Keys
    decreases Room(r), Level(d), Rank(r, n), 8
  {
    var b := Body(r, n, v, h, d);
    var p := Pending(b.out, Open(n, v), {});
    if b.out.err.Some? then p
    else match b.next
      case Pass => Append(p, p.entry.(status := Filtered))
      case Answer(output) =>
        var p1 := Append(p, Succeeded(p.entry, output));
        p1.(out := p1.out.(view := p1.out.view.(outputs := p1.out.view.outputs[n.id := output])))
      case Go(output, handle) =>
        var p1 := Append(p, Succeeded(p.entry, output));
        var view := Store(b.out.view, n, output);
        FollowUp(r, n, p1.(out := p1.out.(view := view)), handle, h, d)
  }

  /** Run the successors, if there are any, at the next depth. */
  function FollowUp(r: Run, n: Node, p: Pending, handle: Option<string>, h: seq<Call>, d: nat): (p': Pending)
    requires Sound(r) && IsNode(r.wf, n)
    ensures p.out.view.vars.Keys <= p'.out.view.vars.Keys
    ensures p'.entry == p.entry && p'.places == p.places && p.out.log <= p'.out.log
    ensures (p.out.guard ==> p'.out.guard) && p.out.calls <= p'.out.calls
    decreases Room(r), Level(d), Rank(r, n), 1
  {
    var ss := Successors(r.wf, n.id, handle);
    if ss == [] then p.(out := p.out.(err := None))
    else Extend(p, Nodes(r, ss, p.out.view, h + p.out.calls, d + 1))
  }

  function Ask(r: Run, n: Node, v: View, h: seq<Call>): Call {
    var request := Request(r.wf.id, n, v, r.trigger, r.dryRun);
    Call(request, r.w.leaf(h, request))
  }

  /** The context after a node was computed, before its output is stored. */
  function Effect(n: Node, v: View, reply: Reply): View {
    if HasEffects(n.kind) then v.(vars := v.vars + reply.vars, data := v.data + reply.data) else v
  }

  function LeafOut(n: Node, v: View, c: Call): Out {
    Out(Effect(n, v, c.reply), [], [c], [], if c.reply.Raised? then Some(c.reply.error) else None, false)
  }

  function LeafNext(n: Node, v: View, reply: Reply): Next
    requires reply.Done?
  {
    match n.kind
    case Filter => if reply.output == Bool(true) then Go(Obj(v.data), None) else Pass
    case Response => Answer(reply.output)
    case Condition | Switch => Go(reply.output, Some(reply.handle))
    case _ => Go(reply.output, None)
  }

  function Body(r: Run, n: Node, v: View, h: seq<Call>, d: nat): (b: BodyOut)
    requires Sound(r) && IsNode(r.wf, n)
    ensures v.vars.Keys <= b.out.view.vars.Keys
    decreases Room(r), Level(d), Rank(r, n), 7
  {
    if IsLeaf(n.kind) then
      var c := Ask(r, n, v, h);
      BodyOut(LeafOut(n, v, c), if c.reply.Done? then LeafNext(n, v, c.reply) else Pass)
    else match n.kind
      case Delay => BodyOut(Quiet(v), Go(Obj(v.data), None))
      case Loop(_, _, _, _) => LoopBody(r, n, v, h, d)
      case Parallel => ParallelBody(r, n, v, h, d)
      case Batch(_, _, _, _, _) => BatchBody(r, n, v, h, d)
      case SubWorkflow(_, _) => SubBody(r, n, v, h)
      case _ => BodyOut(Quiet(v), Go(Null, None))
  }

  // ---- `_exec_loop` ----

  datatype Items = Items(out: Out, results: seq<Json>)

  function LoopBody(r: Run, n: Node, v: View, h: seq<Call>, d: nat): (b: BodyOut)
    requires Sound(r) && IsNode(r.wf, n) && n.kind.Loop?
    ensures v.vars.Keys <= b.out.view.vars.Keys
    decreases Room(r), Level(d), Rank(r, n), 6
  {
    var list := ResolveValue(n.kind.arrayField, v, r.trigger);
    if !list.Arr? then BodyOut(Quiet(v), LoopResult([]))
    else
      var x := Iterate(r, n, Prefix(list.items, Min(n.kind.maxIterations, 1000)), 0, v, h, d);
      if x.out.err.Some? then BodyOut(x.out, Pass)
      else
        var view := x.out.view;
        BodyOut(x.out.(view := view.(vars := view.vars[n.kind.itemVar + "_results" := Arr(x.results)])),
                LoopResult(x.results))
  }

  function LoopResult(results: seq<Json>): Next {
    Go(Obj(map["loop_iterations" := Num(|results| as real), "loop_results" := Arr(results)]), Some("done"))
  }

  /** The iterations from index `i` on, one after the other on the same context. */
  function Iterate(r: Run, n: Node, items: seq<Json>, i: nat, v: View, h: seq<Call>, d: nat): (x: Items)
    requires Sound(r) && IsNode(r.wf, n) && n.kind.Loop? && i <= |items|
    ensures v.vars.Keys <= x.out.view.vars.Keys
    decreases Room(r), Level(d), Rank(r, n), 4, |items| - i
  {
    if i == |items| then Items(Quiet(v), [])
    else
      var bound := v.(vars := v.vars[n.kind.itemVar := items[i]][n.kind.indexVar := Num(i as real)]);
      var a := RunBody(r, Successors(r.wf, n.id, Some("default")), bound, h, d);
      if a.err.Some? then Items(a, [])
      else
        var rest := Iterate(r, n, items, i + 1, a.view, h + a.calls, d);
        Items(Then(a, rest.out), [ItemOutput(v.data, a.view.data, items[i])] + rest.results)
  }

  /** A loop or batch body, if there is one. */
  function RunBody(r: Run, body: seq<Node>, v: View, h: seq<Call>, d: nat): (out: Out)
    requires Sound(r) && forall n :: n in body ==> IsNode(r.wf, n)
    ensures v.vars.Keys <= out.view.vars.Keys
    decreases Room(r), Level(d), 0, 3
  {
    if body == [] then Quiet(v) else Nodes(r, body, v, h, d + 1)
  }

  // ---- `_exec_parallel` ----

  datatype Branches = Branches(log: seq<Entry>, calls: seq<Call>, entered: seq<seq<string>>, guard: bool, results: Dict)

  function ParallelBody(r: Run, n: Node, v: View, h: seq<Call>, d: nat): (b: BodyOut)
    requires Sound(r) && IsNode(r.wf, n) && n.kind.Parallel?
    ensures v.vars.Keys <= b.out.view.vars.Keys
    decreases Room(r), Level(d), Rank(r, n), 6
  {
    var ss := Successors(r.wf, n.id, Some("branch"));
    if ss == [] then BodyOut(Quiet(v), ParallelResult(0, map[]))
    else
      var x := Scatter(r, n, ss, v, h, d);
      BodyOut(Out(v.(outputs := v.outputs + x.results, vars := v.vars["parallel_results" := Obj(x.results)]),
                  x.log, x.calls, x.entered, None, x.guard),
              ParallelResult(|ss|, x.results))
  }

  function ParallelResult(n: nat, results: Dict): Next {
    Go(Obj(map["parallel_branches" := Num(n as real), "results" := Obj(results)]), Some("done"))
  }

  /** What a branch contributes: its output, or its error. */
  function BranchOutput(s: Node, b: Out): Json {
    if b.err.Some? then Obj(map["error" := Str(b.err.value)]) else Get(b.view.outputs, s.id)
  }

  function Merge(x: Branches, s: Node, b: Out): Branches {
    Branches(x.log + b.log, x.calls + b.calls, x.entered + b.entered, x.guard || b.guard,
             x.results[s.id := BranchOutput(s, b)])
  }

  predicate AreBranches(r: Run, n: Node, ss: seq<Node>) {
    forall s :: s in ss ==> s in Successors(r.wf, n.id, Some("branch"))
  }

  /** Every branch on its own copy of the context. */
  function Scatter(r: Run, n: Node, ss: seq<Node>, v: View, h: seq<Call>, d: nat): Branches
    requires Sound(r) && IsNode(r.wf, n) && n.kind.Parallel?
    requires AreBranches(r, n, ss)
    decreases Room(r), Level(d), Rank(r, n), 4, |ss|
  {
    if ss == [] then Branches([], [], [], false, map[])
    else
      var k := |ss| - 1;
      var x := Scatter(r, n, ss[..k], v, h, d);
      BranchRank(r, n, ss[k]);
      Merge(x, ss[k], Single(r, ss[k], v, h + x.calls, d + 1))
  }

  // ---- `_exec_batch` ----

  datatype ItemResult = ItemOk(output: Json) | ItemFailed(index: nat, error: string)

  /** `parts` holds the node results of each item, in index order. */
  datatype BatchRun = BatchRun(parts: seq<seq<Entry>>, calls: seq<Call>, entered: seq<seq<string>>, guard: bool,
                               results: seq<ItemResult>)

  /** How many items run at once: `asyncio.Semaphore(min(concurrency, 50))`, which lets
      them start in index order, or one in stop mode. */
  function Window(k: Kind): (window: nat)
    requires k.Batch?
    ensures 1 <= window <= 50
  {
    if k.stopOnItemError || k.concurrency < 1 then 1 else if k.concurrency > 50 then 50 else k.concurrency
  }

  function PickOf(w: World, h: seq<Call>, n: Node, v: View): nat -> nat {
    (left: nat) => w.order(h, n, v, left)
  }

  function Without<T>(s: seq<T>, i: nat): (rest: seq<T>)
    requires i < |s|
    ensures |rest| == |s| - 1
  {
    s[..i] + s[i + 1..]
  }

  /** Which of the items that have not completed completes next. */
  function Pick(pick: nat -> nat, window: nat, left: nat): (i: nat)
    requires window > 0 && left > 0
    ensures i < left && i < window
  {
    pick(left) % Min(left, window)
  }

  /** Each item appends its results when it completes, and only the first `window` items
      that have not completed are running. */
  function Arrange(pick: nat -> nat, window: nat, parts: seq<seq<Entry>>): seq<Entry>
    requires window > 0
    decreases |parts|
  {
    if parts == [] then []
    else
      var i := Pick(pick, window, |parts|);
      parts[i] + Arrange(pick, window, Without(parts, i))
  }

  function ItemView(v: View, item: Json, i: nat): View {
    v.(vars := v.vars["batch_item" := item]["batch_index" := Num(i as real)])
  }

  function ItemResultOf(v: View, item: Json, i: nat, out: Out): ItemResult {
    if out.err.Some? then ItemFailed(i, out.err.value) else ItemOk(ItemOutput(v.data, out.view.data, item))
  }

  function Outputs(results: seq<ItemResult>): seq<Json> {
    if results == [] then []
    else (if results[0].ItemOk? then [results[0].output] else []) + Outputs(results[1..])
  }

  function Errors(results: seq<ItemResult>): seq<Json> {
    if results == [] then []
    else
      (if results[0].ItemFailed? then
         [Obj(map["index" := Num(results[0].index as real), "status" := Str("failed"),
                  "error" := Str(results[0].error)])]
       else []) + Errors(results[1..])
  }

  function BatchItems(r: Run, n: Node, v: View): Option<seq<Json>>
    requires n.kind.Batch?
  {
    var items := ResolveValue(n.kind.source, v, r.trigger);
    if items.Arr? then Some(Prefix(items.items, Min(n.kind.maxItems, 10000))) else None
  }

  function BatchNodes(r: Run, n: Node): (body: seq<Node>)
    requires n.kind.Batch?
    ensures forall b :: b in body ==> IsNode(r.wf, b)
  {
    if n.kind.bodyNodes != [] then Present(r.wf, n.kind.bodyNodes) else Successors(r.wf, n.id, Some("body"))
  }

  function BatchBody(r: Run, n: Node, v: View, h: seq<Call>, d: nat): (b: BodyOut)
    requires Sound(r) && IsNode(r.wf, n) && n.kind.Batch?
    ensures v.vars.Keys <= b.out.view.vars.Keys
    decreases Room(r), Level(d), Rank(r, n), 6
  {
    var items := BatchItems(r, n, v);
    if items.None? then BodyOut(Quiet(v), BatchResult(0, []))
    else if n.kind.concurrency < 0 then
      BodyOut(Quiet(v).(err := Some("Semaphore initial value must be >= 0")), Pass)
    else
      var x := Process(r, n, items.value, 0, v, h, d);
      BatchDone(n, v, PickOf(r.w, h, n, v), |items.value|, x)
  }

  function BatchDone(n: Node, v: View, pick: nat -> nat, total: nat, x: BatchRun): BodyOut
    requires n.kind.Batch?
  {
    BodyOut(Out(v.(vars := v.vars["batch_results" := Arr(Outputs(x.results))]), Arrange(pick, Window(n.kind), x.parts),
                x.calls, x.entered, None, x.guard),
            BatchResult(total, x.results))
  }

  function BatchResult(total: nat, results: seq<ItemResult>): Next {
    var outputs, errors := Outputs(results), Errors(results);
    Go(Obj(map["batch_total" := Num(total as real), "batch_succeeded" := Num(|outputs| as real),
               "batch_failed" := Num(|errors| as real), "batch_results" := Arr(outputs),
               "batch_errors" := Arr(Prefix(errors, 20))]), Some("done"))
  }

  /** The items from index `i` on, each on its own copy of the context; in stop mode
      nothing runs after a failed item. The calls of one item come after those of the
      items before it; Scheduler.dfy has every interleaving. */
  function Process(r: Run, n: Node, items: seq<Json>, i: nat, v: View, h: seq<Call>, d: nat): BatchRun
    requires Sound(r) && IsNode(r.wf, n) && n.kind.Batch? && i <= |items|
    decreases Room(r), Level(d), Rank(r, n), 4, |items| - i
  {
    if i == |items| then BatchRun([], [], [], false, [])
    else
      var a := RunBody(r, BatchNodes(r, n), ItemView(v, items[i], i), h, d);
      var result := ItemResultOf(v, items[i], i, a);
      if result.ItemFailed? && n.kind.stopOnItemError then BatchRun([a.log], a.calls, a.entered, a.guard, [result])
      else
        var rest := Process(r, n, items, i + 1, v, h + a.calls, d);
        BatchRun([a.log] + rest.parts, a.calls + rest.calls, a.entered + rest.entered, a.guard || rest.guard,
                 [result] + rest.results)
  }

  // ---- `_exec_sub_workflow` ----

  function ChildOf(w: World, id: string): Workflow
    requires id in w.table
  {
    w.table[id].(id := id)
  }

  function NestingLimit(k: Kind): (limit: nat)
    requires k.SubWorkflow?
    ensures limit >= 1
  {
    if k.maxNesting == 0 then 5 else if k.maxNesting < 1 then 1 else k.maxNesting
  }

  function Arrows(chain: seq<string>): string {
    if chain == [] then "" else if |chain| == 1 then chain[0]
    else Arrows(chain[..|chain| - 1]) + " -> " + chain[|chain| - 1]
  }

  function Circular(chain: seq<string>, id: string): string {
    "Circular sub-workflow reference detected: " + Arrows(chain) + " -> " + id
  }

  function TooDeep(limit: nat): string {
    "Maximum sub-workflow nesting depth (" + Decimal(limit) + ") exceeded"
  }

  /** The error that a sub-workflow node raises in this chain before it enters the child. */
  function SubCheck(w: World, chain: seq<string>, k: Kind): (e: Option<string>)
    requires k.SubWorkflow?
    ensures e.None? ==> k.workflowId in w.table && k.workflowId !in chain
  {
    if k.workflowId == "" then Some("Sub-workflow node missing workflow_id")
    else if k.workflowId !in w.table then Some("Sub-workflow " + k.workflowId + " not found")
    else if k.workflowId in chain then Some(Circular(chain, k.workflowId))
    else if |chain| >= NestingLimit(k) then Some(TooDeep(NestingLimit(k)))
    else None
  }

  function SubError(r: Run, k: Kind): (e: Option<string>)
    requires k.SubWorkflow?
    ensures e.None? ==> k.workflowId in r.w.table && k.workflowId !in r.chain
  {
    SubCheck(r.w, r.chain, k)
  }

  function SubBody(r: Run, n: Node, v: View, h: seq<Call>): (b: BodyOut)
    requires Sound(r) && n.kind.SubWorkflow?
    ensures v.vars.Keys <= b.out.view.vars.Keys
    decreases Room(r), 0, 0, 0
  {
    var e := SubError(r, n.kind);
    if e.Some? then BodyOut(Quiet(v).(err := e), Pass)
    else
      var id := n.kind.workflowId;
      var mapped := r.w.subInput(n, v, r.trigger);
      var input := if mapped == map[] then v.data else mapped;
      RankedChild(r.w, id);
      SmallerRoom(r, id);
      SubResult(r, id, v, Execute(Run(r.w, ChildOf(r.w, id), input, r.dryRun, r.chain + [id]), h))
  }

  /** A failed child fails the node; otherwise its final data is the node's output. */
  function SubResult(r: Run, id: string, v: View, x: Out): (b: BodyOut)
    requires id in r.w.table
    ensures b.out.view == v && b.out.calls == x.calls && b.out.entered == x.entered
  {
    var name := r.w.table[id].name;
    if x.err.Some? then
      BodyOut(Out(v, [], x.calls, x.entered, Some("Sub-workflow '" + name + "' failed: " + x.err.value), false), Pass)
    else
      BodyOut(Out(v, [], x.calls, x.entered, None, false),
              Go(Obj(map["sub_workflow_id" := Str(id), "sub_workflow_name" := Str(name),
                         "sub_execution_status" := Str("success")] + x.view.data), None))
  }

  lemma RankedChild(w: World, id: string)
    requires AllRanked(w) && id in w.table
    ensures Ranked(ChildOf(w, id))
  {
    var rank :| ValidRank(w.table[id], rank);
    assert ValidRank(ChildOf(w, id), rank) by {
      forall n | IsNode(ChildOf(w, id), n) ensures RanksFall(ChildOf(w, id), rank, n) {
        assert IsNode(w.table[id], n) && RanksFall(w.table[id], rank, n);
      }
    }
  }

  lemma SmallerRoom(r: Run, id: string)
    requires id in r.w.table && id !in r.chain
    ensures Room(r.(chain := r.chain + [id])) < Room(r)
  {
    var before := r.w.table.Keys - set x | x in r.chain;
    var after := r.w.table.Keys - set x | x in r.chain + [id];
    assert after == before - {id};
  }

  // ---- the `except` block ----

  /** Retry if the policy says so; otherwise, or when every retry failed, give up. */
  function Recover(r: Run, n: Node, p: Pending, v: View, h: seq<Call>, d: nat): (out: Out)
    requires Sound(r) && IsNode(r.wf, n) && p.out.err.Some?
    requires v.vars.Keys <= p.out.view.vars.Keys
    ensures v.vars.Keys <= out.view.vars.Keys
    ensures (p.out.guard ==> out.guard) && p.out.calls <= out.calls
    decreases Room(r), Level(d), Rank(r, n), 8
  {
    var e := p.out.err.value;
    if PolicyOf(r.wf, n).Retry? && RetriesOf(r.wf, n) > 0 && Retryable(n.kind) then
      var p' := Attempts(r, n, p, 1, h, d);
      if p'.out.err.None? then p'.out else GiveUp(r, n, p', e, h, d)
    else GiveUp(r, n, p, e, h, d)
  }

  /** The attempts from number `k` on; the error is cleared by the first that works. */
  function Attempts(r: Run, n: Node, p: Pending, k: nat, h: seq<Call>, d: nat): (p': Pending)
    requires Sound(r) && IsNode(r.wf, n) && 1 <= k <= RetriesOf(r.wf, n)
    ensures p.out.view.vars.Keys <= p'.out.view.vars.Keys
    ensures (p.out.guard ==> p'.out.guard) && p.out.calls <= p'.out.calls
    decreases Room(r), Level(d), Rank(r, n), 5, RetriesOf(r.wf, n) - k
  {
    var p1 := OneAttempt(r, n, p, k, h, d);
    if p1.out.err.None? || k == RetriesOf(r.wf, n) then p1 else Attempts(r, n, p1, k + 1, h, d)
  }

  function OneAttempt(r: Run, n: Node, p: Pending, k: nat, h: seq<Call>, d: nat): (p': Pending)
    requires Sound(r) && IsNode(r.wf, n)
    ensures p.out.view.vars.Keys <= p'.out.view.vars.Keys
    ensures (p.out.guard ==> p'.out.guard) && p.out.calls <= p'.out.calls
    decreases Room(r), Level(d), Rank(r, n), 4
  {
    var c := Ask(r, n, p.out.view, h + p.out.calls);
    var asked := Extend(p, LeafOut(n, p.out.view, c));
    if c.reply.Raised? then asked
    else
      var done := Append(asked, Succeeded(p.entry, c.reply.output).(retries := k));
      FollowUp(r, n, done.(out := done.out.(view := Store(done.out.view, n, c.reply.output))), None, h, d)
  }

  function KindName(k: Kind): string {
    match k
    case Trigger => "trigger"
    case Action => "action"
    case Think => "think"
    case HttpRequest => "http_request"
    case Condition => "condition"
    case Switch => "switch"
    case Transform => "transform"
    case Filter => "filter"
    case Delay => "delay"
    case SetVariable => "set_variable"
    case Aggregate => "aggregate"
    case Response => "response"
    case ErrorHandler(_) => "error_handler"
    case Loop(_, _, _, _) => "loop"
    case Parallel => "parallel"
    case Batch(_, _, _, _, _) => "batch"
    case SubWorkflow(_, _) => "sub_workflow"
    case Unknown => "unknown"
  }

  function ErrorInfo(n: Node, v: View, e: string): Json {
    Obj(map["error" := Str(e), "failed_node_id" := Str(n.id), "failed_node_type" := Str(KindName(n.kind)),
            "failed_node_label" := Str(n.title), "failed_node_output" := Get(v.outputs, n.id)])
  }

  function HandlerView(n: Node, failed: Out, e: string): View {
    failed.view.(vars := failed.view.vars["_error" := ErrorInfo(n, failed.view, e)])
  }

  function GiveUp(r: Run, n: Node, p: Pending, e: string, h: seq<Call>, d: nat): (out: Out)
    requires Sound(r) && IsNode(r.wf, n)
    ensures p.out.view.vars.Keys <= out.view.vars.Keys
    ensures (p.out.guard ==> out.guard) && p.out.calls <= out.calls
    decreases Room(r), Level(d), Rank(r, n), 7
  {
    var failed := Append(p, p.entry.(status := Failed, error := Some(e))).out;
    var handler := FindErrorHandler(r.wf, n.id);
    if handler.Some? then Handle(r, n, handler.value, failed, e, h, d)
    else if PolicyOf(r.wf, n).Continue? then
      var ss := Successors(r.wf, n.id, None);
      if ss == [] then failed.(err := None)
      else Then(failed, Nodes(r, ss, failed.view, h + failed.calls, d + 1))
    else if PolicyOf(r.wf, n).Ignore? then failed.(err := None)
    else failed.(err := Some("Node '" + n.title + "' failed: " + e))
  }

  /** Run the error handler, without a depth check, on a context that names the failure. */
  function Handle(r: Run, n: Node, handler: Node, failed: Out, e: string, h: seq<Call>, d: nat): (out: Out)
    requires Sound(r) && IsNode(r.wf, n) && FindErrorHandler(r.wf, n.id) == Some(handler)
    ensures failed.view.vars.Keys <= out.view.vars.Keys
    ensures (failed.guard ==> out.guard) && failed.calls <= out.calls
    decreases Room(r), Level(d), Rank(r, n), 6
  {
    HandlerRank(r, n, handler);
    Then(failed, Single(r, handler, HandlerView(n, failed, e), h + failed.calls, d + 1))
  }

  lemma HandleIs(r: Run, n: Node, handler: Node, a: Out, e: string, h: seq<Call>, d: nat)
    requires Sound(r) && IsNode(r.wf, n) && FindErrorHandler(r.wf, n.id) == Some(handler)
    ensures IsNode(r.wf, handler) && Rank(r, handler) < Rank(r, n)
    ensures Handle(r, n, handler, a, e, h, d) == Then(a, Single(r, handler, HandlerView(n, a, e), h + a.calls, d + 1))
  {
    HandlerRank(r, n, handler);
  }

  /** The `try` block after the node was computed. */
  ghost function Finished(r: Run, n: Node, p: Pending, next: Next, h: seq<Call>, d: nat): Pending
    requires Sound(r) && IsNode(r.wf, n)
  {
    match next
    case Pass => Append(p, p.entry.(status := Filtered))
    case Answer(output) => Outputting(n, Append(p, Succeeded(p.entry, output)), output)
    case Go(output, handle) => FollowUp(r, n, Storing(n, Append(p, Succeeded(p.entry, output)), output), handle, h, d)
  }

  function Outputting(n: Node, p: Pending, output: Json): Pending {
    p.(out := p.out.(view := p.out.view.(outputs := p.out.view.outputs[n.id := output])))
  }

  function Storing(n: Node, p: Pending, output: Json): Pending {
    p.(out := p.out.(view := Store(p.out.view, n, output)))
  }

  lemma TryIs(r: Run, n: Node, v: View, h: seq<Call>, d: nat)
    requires Sound(r) && IsNode(r.wf, n)
    ensures var b := Body(r, n, v, h, d);
            var p := Pending(b.out, Open(n, v), {});
            Try(r, n, v, h, d) == if b.out.err.Some? then p else Finished(r, n, p, b.next, h, d)
  {
  }

  /** The results once a failure is recorded. */
  function FailedAfter(p: Pending, e: string): Out {
    Append(p, p.entry.(status := Failed, error := Some(e))).out
  }

  /** What follows the record of a failure. */
  ghost function Failing(r: Run, n: Node, failed: Out, e: string, h: seq<Call>, d: nat): Out
    requires Sound(r) && IsNode(r.wf, n)
  {
    var handler := FindErrorHandler(r.wf, n.id);
    if handler.Some? then Handle(r, n, handler.value, failed, e, h, d)
    else if PolicyOf(r.wf, n).Continue? then Continuing(r, n, failed, h, d)
    else if PolicyOf(r.wf, n).Ignore? then failed.(err := None)
    else failed.(err := Some("Node '" + n.title + "' failed: " + e))
  }

  ghost function Continuing(r: Run, n: Node, failed: Out, h: seq<Call>, d: nat): Out
    requires Sound(r) && IsNode(r.wf, n)
  {
    var ss := Successors(r.wf, n.id, None);
    if ss == [] then failed.(err := None) else Then(failed, Nodes(r, ss, failed.view, h + failed.calls, d + 1))
  }

  lemma GiveUpIs(r: Run, n: Node, p: Pending, e: string, h: seq<Call>, d: nat)
    requires Sound(r) && IsNode(r.wf, n)
    ensures GiveUp(r, n, p, e, h, d) ==
            Failing(r, n, FailedAfter(p, e), e, h, d)
  {
  }

  // ---- `execute_workflow` ----

  /** `{name: definition.get("default") if it is a dictionary, else the definition}` */
  function Defaults(variables: Dict): (vars: Dict)
    ensures vars.Keys == variables.Keys
  {
    map k | k in variables :: if variables[k].Obj? then Get(variables[k].fields, "default") else variables[k]
  }

  function TriggerEntry(n: Node, v: View, trigger: Dict): Entry {
    Entry(n.id, n.title, Success, trigger, v, Some(Obj(trigger)), None, 0)
  }

  function TriggerView(r: Run, t: Node): View {
    View(r.trigger, Defaults(r.wf.variables), map[t.id := Obj(r.trigger)])
  }

  function TriggerOut(r: Run, t: Node): Out {
    Out(TriggerView(r, t), [TriggerEntry(t, TriggerView(r, t), r.trigger)], [], [r.chain], None, false)
  }

  /** An execution: status success exactly when `err` is `None`, node results in `log`. */
  function Execute(r: Run, h: seq<Call>): (out: Out)
    requires Sound(r)
    decreases Room(r), NodesLevel(0) + 1, 0, 0
  {
    var t := FindTrigger(r.wf);
    if t.None? then
      var view := View(r.trigger, Defaults(r.wf.variables), map[]);
      Quiet(view).(entered := [r.chain], err := Some("No trigger node found in workflow"))
    else
      Then(TriggerOut(r, t.value), Nodes(r, Successors(r.wf, t.value.id, None), TriggerView(r, t.value), h, 0))
  }
}
