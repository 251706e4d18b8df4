/** The engine's executors: they update a context and result entries in place, and each
    is proved to do what the interpreter says. A result entry is an object that the
    results may hold several times, so a later change of its status shows at every
    place. */
module WorkflowExecutor {
  import opened Json
  import opened WorkflowGraph
  import opened WorkflowEngine
  import opened ContextLaws
  import opened NodeLaws
  import opened EngineBlocks

  class ResultEntry {
    const nodeId: string
    const title: string
    const input: Dict
    const replay: View
    var status: Status
    var output: Option<Json>
    var error: Option<string>
    var retries: nat

    constructor (n: Node, v: View)
      ensures Value() == Open(n, v)
    {
      nodeId, title, input, replay := n.id, n.title, v.data, v;
      status, output, error, retries := Running, None, None, 0;
    }

    function Value(): Entry
      reads this
    {
      Entry(nodeId, title, status, input, replay, output, error, retries)
    }
  }

  /** `WorkflowContext` */
  class Context {
    var data: Dict
    var variables: Dict
    var nodeOutputs: Dict
    var nodeResults: seq<ResultEntry>

    constructor (v: View)
      ensures See() == v && nodeResults == []
    {
      data, variables, nodeOutputs, nodeResults := v.data, v.vars, v.outputs, [];
    }

    function See(): View
      reads this
    {
      View(data, variables, nodeOutputs)
    }

    /** `set_node_output`, then merge a dictionary output into the data. */
    method StoreOutput(n: Node, output: Json)
      modifies this
      ensures See() == Store(old(See()), n, output) && nodeResults == old(nodeResults)
      ensures Stores(old(See()), n, output, See())
    {
      StoreStores(See(), n, output);
      nodeOutputs := nodeOutputs[n.id := output];
      if output.Obj? {
        data := data + output.fields;
      }
    }
  }

  /** Everything outside the engine, and what it was asked so far. */
  class Connectors {
    const w: World
    var calls: seq<Call>

    constructor (w: World)
      ensures this.w == w && calls == []
    {
      this.w := w;
      calls := [];
    }

    method Compute(r: Run, n: Node, ctx: Context) returns (reply: Reply)
      requires r.w == w
      modifies this, ctx
      ensures var c := Ask(r, n, old(ctx.See()), old(calls));
              reply == c.reply && calls == old(calls) + [c] &&
              ctx.See() == Effect(n, old(ctx.See()), reply) && ctx.nodeResults == old(ctx.nodeResults)
      ensures var q := Request(r.wf.id, n, old(ctx.See()), r.trigger, r.dryRun);
              calls == old(calls) + [Call(q, w.leaf(old(calls), q))]
      ensures ctx.nodeOutputs == old(ctx.nodeOutputs) &&
              if n.kind.SetVariable? || n.kind.Aggregate? || n.kind.ErrorHandler? then
                Overlays(ctx.variables, old(ctx.variables), reply.vars) && Overlays(ctx.data, old(ctx.data), reply.data)
              else ctx.variables == old(ctx.variables) && ctx.data == old(ctx.data)
    {
      var c := Ask(r, n, ctx.See(), calls);
      calls := calls + [c];
      reply := c.reply;
      if HasEffects(n.kind) {
        ctx.variables := ctx.variables + reply.vars;
        ctx.data := ctx.data + reply.data;
      }
    }
  }

  /** The results from place `base` on show `log`. */
  predicate Shows(rs: seq<ResultEntry>, base: nat, log: seq<Entry>)
    reads rs
  {
    |rs| == base + |log| && forall i :: 0 <= i < |log| ==> rs[base + i].Value() == log[i]
  }

  /** The context and the connectors after a run that left `out`. */
  predicate Ran(ctx: Context, conn: Connectors, before: seq<ResultEntry>, h: seq<Call>, out: Out)
    reads ctx, conn, ctx.nodeResults
  {
    ctx.See() == out.view && conn.calls == h + out.calls &&
    before <= ctx.nodeResults && Shows(ctx.nodeResults, |before|, out.log)
  }

  /** The context while the node of `result` is being executed. */
  ghost predicate Holds(ctx: Context, conn: Connectors, result: ResultEntry, before: seq<ResultEntry>, h: seq<Call>,
                        p: Pending)
    reads ctx, conn, ctx.nodeResults, result
  {
    Ran(ctx, conn, before, h, p.out) && result.Value() == p.entry && result !in before &&
    (forall i :: i in p.places ==> i < |p.out.log|) &&
    forall i :: 0 <= i < |p.out.log| ==> (i in p.places <==> ctx.nodeResults[|before| + i] == result)
  }

  /** One run after another. */
  lemma Compose(ctx: Context, conn: Connectors, before: seq<ResultEntry>, mid: seq<ResultEntry>, h: seq<Call>, a: Out,
                b: Out)
    requires before <= mid && Shows(mid, |before|, a.log) && Ran(ctx, conn, mid, h + a.calls, b)
    ensures Ran(ctx, conn, before, h, Then(a, b))
  {
    Assoc(h, a.calls, b.calls);
    assert forall i :: 0 <= i < |mid| ==> ctx.nodeResults[i] == mid[i];
  }

  lemma Assoc<T>(a: seq<T>, b: seq<T>, c: seq<T>)
    ensures (a + b) + c == a + (b + c)
  {
  }

  lemma ShowsBoth(a: seq<ResultEntry>, b: seq<ResultEntry>, base: nat, x: seq<Entry>, y: seq<Entry>)
    requires Shows(a, base, x) && Shows(b, 0, y)
    ensures Shows(a + b, base, x + y)
  {
  }

  ghost predicate Ready(g: Graph, r: Run, conn: Connectors)
    reads g
  {
    Sound(r) && g.Indexes(r.wf.nodes, r.wf.edges) && conn.w == r.w
  }

  // ---- `_execute_nodes` ----

  ghost predicate NodesDone(r: Run, ns: seq<Node>, v: View, h: seq<Call>, d: nat, i: nat, done: Out)
    requires Sound(r) && (forall n :: n in ns ==> IsNode(r.wf, n)) && d <= MAX_DEPTH
  {
    i <= |ns| && done.err.None? &&
    NodesFrom(r, ns, v, h, d) == Then(done, NodesFrom(r, ns[i..], done.view, h + done.calls, d))
  }

  lemma NodesStart(r: Run, ns: seq<Node>, v: View, h: seq<Call>, d: nat)
    requires Sound(r) && (forall n :: n in ns ==> IsNode(r.wf, n)) && d <= MAX_DEPTH
    ensures NodesDone(r, ns, v, h, d, 0, Quiet(v))
  {
    assert ns[0..] == ns && h + [] == h;
    var out := NodesFrom(r, ns, v, h, d);
    assert Then(Quiet(v), out) == out;
  }

  lemma NodesStep(r: Run, ns: seq<Node>, v: View, h: seq<Call>, d: nat, i: nat, done: Out)
    requires Sound(r) && (forall n :: n in ns ==> IsNode(r.wf, n)) && d <= MAX_DEPTH
    requires i < |ns| && NodesDone(r, ns, v, h, d, i, done)
    ensures var a := Single(r, ns[i], done.view, h + done.calls, d);
            if a.err.Some? then NodesFrom(r, ns, v, h, d) == Then(done, a)
            else NodesDone(r, ns, v, h, d, i + 1, Then(done, a))
  {
    var a := Single(r, ns[i], done.view, h + done.calls, d);
    assert ns[i..][0] == ns[i] && ns[i..][1..] == ns[i + 1..];
    if a.err.None? {
      var h1 := h + done.calls + a.calls;
      Assoc(h, done.calls, a.calls);
      var rest := NodesFrom(r, ns[i + 1..], a.view, h1, d);
      ThenAssociates(done, a, rest);
    }
  }

  lemma ThenAssociates(a: Out, b: Out, c: Out)
    ensures Then(Then(a, b), c) == Then(a, Then(b, c))
  {
  }

  method ExecuteNodes(g: Graph, r: Run, ns: seq<Node>, ctx: Context, conn: Connectors, d: nat)
      returns (err: Option<string>)
    requires Ready(g, r, conn) && forall n :: n in ns ==> IsNode(r.wf, n)
    modifies ctx, conn
    ensures var out := Nodes(r, ns, old(ctx.See()), old(conn.calls), d);
            Ran(ctx, conn, old(ctx.nodeResults), old(conn.calls), out) && err == out.err
    ensures forall i :: |old(ctx.nodeResults)| <= i < |ctx.nodeResults| ==> fresh(ctx.nodeResults[i])
    decreases Room(r), NodesLevel(d), 0, 2
  {
    if d > MAX_DEPTH {
      return Some(DEPTH_ERROR);
    }
    ghost var v, h, before := ctx.See(), conn.calls, ctx.nodeResults;
    ghost var done := Quiet(v);
    NodesStart(r, ns, v, h, d);
    for i := 0 to |ns|
      invariant Ran(ctx, conn, before, h, done) && NodesDone(r, ns, v, h, d, i, done)
      invariant forall j :: |before| <= j < |ctx.nodeResults| ==> fresh(ctx.nodeResults[j])
    {
      ghost var mid, a := ctx.nodeResults, Single(r, ns[i], done.view, h + done.calls, d);
      NodesStep(r, ns, v, h, d, i, done);
      err := ExecuteSingleNode(g, r, ns[i], ctx, conn, d);
      Compose(ctx, conn, before, mid, h, done, a);
      done := Then(done, a);
      if err.Some? {
        return;
      }
    }
    assert NodesFrom(r, ns[|ns|..], done.view, h + done.calls, d) == Quiet(done.view);
    assert Then(done, Quiet(done.view)) == done;
    err := None;
  }

  // ---- `_execute_single_node` ----

  /** Set the entry's fields and append it to the results. */
  method Record(ctx: Context, conn: Connectors, result: ResultEntry, e: Entry,
                ghost before: seq<ResultEntry>, ghost h: seq<Call>, ghost p: Pending)
    requires Holds(ctx, conn, result, before, h, p)
    requires e == p.entry.(status := e.status, output := e.output, error := e.error, retries := e.retries)
    modifies ctx`nodeResults, result
    ensures Holds(ctx, conn, result, before, h, Append(p, e))
    ensures ctx.nodeResults == old(ctx.nodeResults) + [result]
  {
    result.status, result.output, result.error, result.retries := e.status, e.output, e.error, e.retries;
    ctx.nodeResults := ctx.nodeResults + [result];
    assert result.Value() == e;
    var k := |p.out.log|;
    var log' := Append(p, e).out.log;
    assert |log'| == k + 1 && log'[k] == e;
    forall i | 0 <= i < |log'| ensures ctx.nodeResults[|before| + i].Value() == log'[i] {
      if i < k && i !in p.places { assert ctx.nodeResults[|before| + i] != result; }
    }
  }

  /** What the results show of the node of `result` before something else runs. */
  ghost predicate Held(mid: seq<ResultEntry>, result: ResultEntry, before: seq<ResultEntry>, p: Pending)
    reads mid, result
  {
    before <= mid && Shows(mid, |before|, p.out.log) && result.Value() == p.entry && result !in before &&
    (forall i :: i in p.places ==> i < |p.out.log|) &&
    forall i :: 0 <= i < |p.out.log| ==> (i in p.places <==> mid[|before| + i] == result)
  }

  /** What runs after the entry was recorded leaves its places alone. */
  lemma HoldsOn(ctx: Context, conn: Connectors, result: ResultEntry, before: seq<ResultEntry>, mid: seq<ResultEntry>,
                h: seq<Call>, p: Pending, more: Out)
    requires Held(mid, result, before, p)
    requires Ran(ctx, conn, mid, h + p.out.calls, more) && result !in ctx.nodeResults[|mid|..]
    ensures Holds(ctx, conn, result, before, h, Extend(p, more))
  {
    Compose(ctx, conn, before, mid, h, p.out, more);
    var k := |p.out.log|;
    forall i | 0 <= i < k + |more.log| ensures i in p.places <==> ctx.nodeResults[|before| + i] == result {
      if i >= k { assert ctx.nodeResults[|mid|..][i - k] == ctx.nodeResults[|before| + i]; }
      else { assert ctx.nodeResults[|before| + i] == mid[|before| + i]; }
    }
  }

  method RunSuccessors(g: Graph, r: Run, n: Node, handle: Option<string>, ctx: Context, conn: Connectors, d: nat,
                       ghost result: ResultEntry, ghost before: seq<ResultEntry>, ghost h: seq<Call>, ghost p: Pending)
      returns (err: Option<string>)
    requires Ready(g, r, conn) && IsNode(r.wf, n) && Holds(ctx, conn, result, before, h, p)
    modifies ctx, conn
    ensures var q := FollowUp(r, n, p, handle, h, d);
            Holds(ctx, conn, result, before, h, q) && err == q.out.err
    ensures old(ctx.nodeResults) <= ctx.nodeResults
    ensures forall i :: |old(ctx.nodeResults)| <= i < |ctx.nodeResults| ==> fresh(ctx.nodeResults[i])
    decreases Room(r), Level(d), Rank(r, n), 1
  {
    var successors := g.GetSuccessors(n.id, handle, r.wf.nodes, r.wf.edges);
    if successors == [] {
      return None;
    }
    ghost var mid := ctx.nodeResults;
    assert Held(mid, result, before, p);
    err := ExecuteNodes(g, r, successors, ctx, conn, d + 1);
    HoldsOn(ctx, conn, result, before, mid, h, p, Nodes(r, successors, p.out.view, h + p.out.calls, d + 1));
  }

  method ExecuteSingleNode(g: Graph, r: Run, n: Node, ctx: Context, conn: Connectors, d: nat)
      returns (err: Option<string>)
    requires Ready(g, r, conn) && IsNode(r.wf, n)
    modifies ctx, conn
    ensures var out := Single(r, n, old(ctx.See()), old(conn.calls), d);
            Ran(ctx, conn, old(ctx.nodeResults), old(conn.calls), out) && err == out.err
    ensures forall i :: |old(ctx.nodeResults)| <= i < |ctx.nodeResults| ==> fresh(ctx.nodeResults[i])
    decreases Room(r), Level(d), Rank(r, n), 9
  {
    var result := new ResultEntry(n, ctx.See());
    err := ExecuteEntry(g, r, n, ctx, conn, d, result);
  }

  method ExecuteEntry(g: Graph, r: Run, n: Node, ctx: Context, conn: Connectors, d: nat, result: ResultEntry)
      returns (err: Option<string>)
    requires Ready(g, r, conn) && IsNode(r.wf, n)
    requires result.Value() == Open(n, ctx.See()) && result !in ctx.nodeResults
    modifies ctx, conn, result
    ensures var out := Single(r, n, old(ctx.See()), old(conn.calls), d);
            Ran(ctx, conn, old(ctx.nodeResults), old(conn.calls), out) && err == out.err
    ensures forall i :: |old(ctx.nodeResults)| <= i < |ctx.nodeResults| ==>
              ctx.nodeResults[i] == result || fresh(ctx.nodeResults[i])
    decreases Room(r), Level(d), Rank(r, n), 9, 0
  {
    ghost var v, h, before := ctx.See(), conn.calls, ctx.nodeResults;
    err := TryNode(g, r, n, ctx, conn, d, result);
    if err.Some? {
      err := RecoverNode(g, r, n, ctx, conn, d, result, err.value, before, h, v, Try(r, n, v, h, d));
    }
  }

  /** The `try` block. */
  method TryNode(g: Graph, r: Run, n: Node, ctx: Context, conn: Connectors, d: nat, result: ResultEntry)
      returns (err: Option<string>)
    requires Ready(g, r, conn) && IsNode(r.wf, n)
    requires result.Value() == Open(n, ctx.See()) && result !in ctx.nodeResults
    modifies ctx, conn, result
    ensures var p := Try(r, n, old(ctx.See()), old(conn.calls), d);
            Holds(ctx, conn, result, old(ctx.nodeResults), old(conn.calls), p) && err == p.out.err
    ensures forall i :: |old(ctx.nodeResults)| <= i < |ctx.nodeResults| ==>
              ctx.nodeResults[i] == result || fresh(ctx.nodeResults[i])
    decreases Room(r), Level(d), Rank(r, n), 8
  {
    ghost var v, h, before := ctx.See(), conn.calls, ctx.nodeResults;
    var next;
    err, next := ExecuteBody(g, r, n, ctx, conn, d);
    ghost var b := Body(r, n, v, h, d);
    ghost var p := Pending(b.out, Open(n, v), {});
    TryIs(r, n, v, h, d);
    if err.None? {
      err := FinishTry(g, r, n, ctx, conn, d, result, next, before, h, p);
    }
  }

  method FinishTry(g: Graph, r: Run, n: Node, ctx: Context, conn: Connectors, d: nat, result: ResultEntry, next: Next,
                   ghost before: seq<ResultEntry>, ghost h: seq<Call>, ghost p: Pending)
      returns (err: Option<string>)
    requires Ready(g, r, conn) && IsNode(r.wf, n)
    requires Holds(ctx, conn, result, before, h, p) && p.places == {} && p.out.err.None?
    modifies ctx, conn, result
    ensures var q := Finished(r, n, p, next, h, d);
            Holds(ctx, conn, result, before, h, q) && err == q.out.err
    ensures old(ctx.nodeResults) <= ctx.nodeResults
    ensures forall i :: |old(ctx.nodeResults)| <= i < |ctx.nodeResults| ==>
              ctx.nodeResults[i] == result || fresh(ctx.nodeResults[i])
    decreases Room(r), Level(d), Rank(r, n), 7
  {
    err := None;
    match next
    case Pass =>
      Record(ctx, conn, result, result.Value().(status := Filtered), before, h, p);
    case Answer(output) =>
      Record(ctx, conn, result, Succeeded(result.Value(), output), before, h, p);
      ctx.nodeOutputs := ctx.nodeOutputs[n.id := output];
    case Go(output, handle) =>
      err := Advance(g, r, n, ctx, conn, d, result, Succeeded(result.Value(), output), output, handle, before, h, p);
  }

  /** Store the output, record the success and run the successors. */
  method Advance(g: Graph, r: Run, n: Node, ctx: Context, conn: Connectors, d: nat, result: ResultEntry,
                 e: Entry, output: Json, handle: Option<string>,
                 ghost before: seq<ResultEntry>, ghost h: seq<Call>, ghost p: Pending)
      returns (err: Option<string>)
    requires Ready(g, r, conn) && IsNode(r.wf, n)
    requires Holds(ctx, conn, result, before, h, p)
    requires e == p.entry.(status := e.status, output := e.output, error := e.error, retries := e.retries)
    modifies ctx, conn, result
    ensures var q := FollowUp(r, n, Storing(n, Append(p, e), output), handle, h, d);
            Holds(ctx, conn, result, before, h, q) && err == q.out.err
    ensures old(ctx.nodeResults) <= ctx.nodeResults
    ensures forall i :: |old(ctx.nodeResults)| <= i < |ctx.nodeResults| ==>
              ctx.nodeResults[i] == result || fresh(ctx.nodeResults[i])
    decreases Room(r), Level(d), Rank(r, n), 2
  {
    StoreAndRecord(n, ctx, conn, result, e, output, before, h, p);
    err := RunSuccessors(g, r, n, handle, ctx, conn, d, result, before, h, Storing(n, Append(p, e), output));
  }

  method StoreAndRecord(n: Node, ctx: Context, conn: Connectors, result: ResultEntry, e: Entry, output: Json,
                        ghost before: seq<ResultEntry>, ghost h: seq<Call>, ghost p: Pending)
    requires Holds(ctx, conn, result, before, h, p)
    requires e == p.entry.(status := e.status, output := e.output, error := e.error, retries := e.retries)
    modifies ctx, result
    ensures Holds(ctx, conn, result, before, h, Storing(n, Append(p, e), output))
    ensures ctx.nodeResults == old(ctx.nodeResults) + [result]
  {
    ctx.StoreOutput(n, output);
    ghost var stored := Storing(n, p, output);
    assert Holds(ctx, conn, result, before, h, stored);
    Record(ctx, conn, result, e, before, h, stored);
    assert Append(stored, e) == Storing(n, Append(p, e), output);
  }

  /** The `except` block. */
  method RecoverNode(g: Graph, r: Run, n: Node, ctx: Context, conn: Connectors, d: nat, result: ResultEntry, e: string,
                     ghost before: seq<ResultEntry>, ghost h: seq<Call>, ghost v: View, ghost p: Pending)
      returns (err: Option<string>)
    requires Ready(g, r, conn) && IsNode(r.wf, n) && Holds(ctx, conn, result, before, h, p)
    requires p.out.err == Some(e) && v.vars.Keys <= p.out.view.vars.Keys
    modifies ctx, conn, result
    ensures var out := Recover(r, n, p, v, h, d);
            Ran(ctx, conn, before, h, out) && err == out.err
    ensures old(ctx.nodeResults) <= ctx.nodeResults
    ensures forall i :: |old(ctx.nodeResults)| <= i < |ctx.nodeResults| ==>
              ctx.nodeResults[i] == result || fresh(ctx.nodeResults[i])
    decreases Room(r), Level(d), Rank(r, n), 8
  {
    if PolicyOf(r.wf, n).Retry? && RetriesOf(r.wf, n) > 0 && Retryable(n.kind) {
      err := RetryNode(g, r, n, ctx, conn, d, result, before, h, p);
      if err.Some? {
        err := GiveUpNode(g, r, n, ctx, conn, d, result, e, before, h, Attempts(r, n, p, 1, h, d));
      }
    } else {
      err := GiveUpNode(g, r, n, ctx, conn, d, result, e, before, h, p);
    }
  }

  /** `for attempt in range(1, max_retries + 1)` */
  method RetryNode(g: Graph, r: Run, n: Node, ctx: Context, conn: Connectors, d: nat, result: ResultEntry,
                   ghost before: seq<ResultEntry>, ghost h: seq<Call>, ghost p: Pending)
      returns (err: Option<string>)
    requires Ready(g, r, conn) && IsNode(r.wf, n) && RetriesOf(r.wf, n) > 0
    requires Holds(ctx, conn, result, before, h, p)
    modifies ctx, conn, result
    ensures var q := Attempts(r, n, p, 1, h, d);
            Holds(ctx, conn, result, before, h, q) && err == q.out.err
    ensures old(ctx.nodeResults) <= ctx.nodeResults
    ensures forall i :: |old(ctx.nodeResults)| <= i < |ctx.nodeResults| ==>
              ctx.nodeResults[i] == result || fresh(ctx.nodeResults[i])
    decreases Room(r), Level(d), Rank(r, n), 6
  {
    ghost var start := ctx.nodeResults;
    ghost var q := p;
    var attempt := 1;
    while true
      invariant 1 <= attempt <= RetriesOf(r.wf, n)
      invariant Holds(ctx, conn, result, before, h, q)
      invariant Attempts(r, n, p, 1, h, d) == Attempts(r, n, q, attempt, h, d)
      invariant start <= ctx.nodeResults
      invariant forall i :: |start| <= i < |ctx.nodeResults| ==>
                ctx.nodeResults[i] == result || fresh(ctx.nodeResults[i])
      decreases RetriesOf(r.wf, n) - attempt
    {
      err := AttemptNode(g, r, n, ctx, conn, d, result, attempt, before, h, q);
      q := OneAttempt(r, n, q, attempt, h, d);
      if err.None? || attempt == RetriesOf(r.wf, n) {
        return;
      }
      attempt := attempt + 1;
    }
  }

  method AttemptNode(g: Graph, r: Run, n: Node, ctx: Context, conn: Connectors, d: nat, result: ResultEntry,
                     attempt: nat,
                     ghost before: seq<ResultEntry>, ghost h: seq<Call>, ghost p: Pending)
      returns (err: Option<string>)
    requires Ready(g, r, conn) && IsNode(r.wf, n)
    requires Holds(ctx, conn, result, before, h, p)
    modifies ctx, conn, result
    ensures var q := OneAttempt(r, n, p, attempt, h, d);
            Holds(ctx, conn, result, before, h, q) && err == q.out.err
    ensures old(ctx.nodeResults) <= ctx.nodeResults
    ensures forall i :: |old(ctx.nodeResults)| <= i < |ctx.nodeResults| ==>
              ctx.nodeResults[i] == result || fresh(ctx.nodeResults[i])
    decreases Room(r), Level(d), Rank(r, n), 4
  {
    ghost var c := Ask(r, n, ctx.See(), conn.calls);
    ghost var asked := Extend(p, LeafOut(n, ctx.See(), c));
    var reply := conn.Compute(r, n, ctx);
    assert Holds(ctx, conn, result, before, h, asked);
    if reply.Raised? {
      return Some(reply.error);
    }
    var e := Succeeded(result.Value(), reply.output).(retries := attempt);
    err := Advance(g, r, n, ctx, conn, d, result, e, reply.output, None, before, h, asked);
  }

  method GiveUpNode(g: Graph, r: Run, n: Node, ctx: Context, conn: Connectors, d: nat, result: ResultEntry, e: string,
                    ghost before: seq<ResultEntry>, ghost h: seq<Call>, ghost p: Pending)
      returns (err: Option<string>)
    requires Ready(g, r, conn) && IsNode(r.wf, n)
    requires Holds(ctx, conn, result, before, h, p)
    modifies ctx, conn, result
    ensures var out := GiveUp(r, n, p, e, h, d);
            Ran(ctx, conn, before, h, out) && err == out.err
    ensures old(ctx.nodeResults) <= ctx.nodeResults
    ensures forall i :: |old(ctx.nodeResults)| <= i < |ctx.nodeResults| ==>
              ctx.nodeResults[i] == result || fresh(ctx.nodeResults[i])
    decreases Room(r), Level(d), Rank(r, n), 7
  {
    err := FailNode(g, r, n, ctx, conn, d, result, e, before, h, p);
  }

  method FailNode(g: Graph, r: Run, n: Node, ctx: Context, conn: Connectors, d: nat, result: ResultEntry, e: string,
                  ghost before: seq<ResultEntry>, ghost h: seq<Call>, ghost p: Pending)
      returns (err: Option<string>)
    requires Ready(g, r, conn) && IsNode(r.wf, n)
    requires Holds(ctx, conn, result, before, h, p)
    modifies ctx, conn, result
    ensures var out := GiveUp(r, n, p, e, h, d);
            Ran(ctx, conn, before, h, out) && err == out.err
    ensures old(ctx.nodeResults) <= ctx.nodeResults
    ensures |old(ctx.nodeResults)| < |ctx.nodeResults| && ctx.nodeResults[|old(ctx.nodeResults)|] == result
    ensures forall i :: |old(ctx.nodeResults)| < i < |ctx.nodeResults| ==> fresh(ctx.nodeResults[i])
    decreases Room(r), Level(d), Rank(r, n), 7, 1
  {
    RecordFailure(ctx, conn, result, e, before, h, p);
    err := AfterFailure(g, r, n, ctx, conn, d, e, before, h, FailedAfter(p, e));
    GiveUpIs(r, n, p, e, h, d);
  }

  method RecordFailure(ctx: Context, conn: Connectors, result: ResultEntry, e: string,
                       ghost before: seq<ResultEntry>, ghost h: seq<Call>, ghost p: Pending)
    requires Holds(ctx, conn, result, before, h, p)
    modifies ctx`nodeResults, result
    ensures Ran(ctx, conn, before, h, FailedAfter(p, e))
    ensures ctx.nodeResults == old(ctx.nodeResults) + [result]
  {
    Record(ctx, conn, result, result.Value().(status := Failed, error := Some(e)), before, h, p);
  }

  method AfterFailure(g: Graph, r: Run, n: Node, ctx: Context, conn: Connectors, d: nat, e: string,
                      ghost before: seq<ResultEntry>, ghost h: seq<Call>, ghost failed: Out)
      returns (err: Option<string>)
    requires Ready(g, r, conn) && IsNode(r.wf, n) && Ran(ctx, conn, before, h, failed)
    modifies ctx, conn
    ensures var out := Failing(r, n, failed, e, h, d);
            Ran(ctx, conn, before, h, out) && err == out.err
    ensures old(ctx.nodeResults) <= ctx.nodeResults
    ensures forall i :: |old(ctx.nodeResults)| <= i < |ctx.nodeResults| ==> fresh(ctx.nodeResults[i])
    decreases Room(r), Level(d), Rank(r, n), 7, 0
  {
    var handler := g.HandlerFor(n.id, r.wf);
    if handler.Some? {
      err := HandleNode(g, r, n, handler.value, ctx, conn, d, e, before, h, failed);
    } else if PolicyOf(r.wf, n).Continue? {
      err := ContinueNode(g, r, n, ctx, conn, d, before, h, failed);
    } else if PolicyOf(r.wf, n).Ignore? {
      return None;
    } else {
      return Some("Node '" + n.title + "' failed: " + e);
    }
  }

  method HandleNode(g: Graph, r: Run, n: Node, handler: Node, ctx: Context, conn: Connectors, d: nat, e: string,
                    ghost before: seq<ResultEntry>, ghost h: seq<Call>, ghost failed: Out)
      returns (err: Option<string>)
    requires Ready(g, r, conn) && IsNode(r.wf, n) && FindErrorHandler(r.wf, n.id) == Some(handler)
    requires Ran(ctx, conn, before, h, failed)
    modifies ctx, conn
    ensures var out := Handle(r, n, handler, failed, e, h, d);
            Ran(ctx, conn, before, h, out) && err == out.err
    ensures old(ctx.nodeResults) <= ctx.nodeResults
    ensures forall i :: |old(ctx.nodeResults)| <= i < |ctx.nodeResults| ==> fresh(ctx.nodeResults[i])
    decreases Room(r), Level(d), Rank(r, n), 6
  {
    HandleIs(r, n, handler, failed, e, h, d);
    ghost var mid := ctx.nodeResults;
    ctx.variables := ctx.variables["_error" := ErrorInfo(n, ctx.See(), e)];
    assert ctx.See() == HandlerView(n, failed, e);
    err := ExecuteSingleNode(g, r, handler, ctx, conn, d + 1);
    Compose(ctx, conn, before, mid, h, failed, Single(r, handler, HandlerView(n, failed, e), h + failed.calls, d + 1));
  }

  method ContinueNode(g: Graph, r: Run, n: Node, ctx: Context, conn: Connectors, d: nat,
                      ghost before: seq<ResultEntry>, ghost h: seq<Call>, ghost failed: Out)
      returns (err: Option<string>)
    requires Ready(g, r, conn) && IsNode(r.wf, n) && Ran(ctx, conn, before, h, failed)
    modifies ctx, conn
    ensures var out := Continuing(r, n, failed, h, d);
            Ran(ctx, conn, before, h, out) && err == out.err
    ensures old(ctx.nodeResults) <= ctx.nodeResults
    ensures forall i :: |old(ctx.nodeResults)| <= i < |ctx.nodeResults| ==> fresh(ctx.nodeResults[i])
    decreases Room(r), Level(d), Rank(r, n), 6
  {
    var successors := g.GetSuccessors(n.id, None, r.wf.nodes, r.wf.edges);
    if successors == [] {
      return None;
    }
    ghost var mid := ctx.nodeResults;
    err := ExecuteNodes(g, r, successors, ctx, conn, d + 1);
    Compose(ctx, conn, before, mid, h, failed, Nodes(r, successors, failed.view, h + failed.calls, d + 1));
  }

  // ---- the node executors ----

  method ExecuteBody(g: Graph, r: Run, n: Node, ctx: Context, conn: Connectors, d: nat)
      returns (err: Option<string>, next: Next)
    requires Ready(g, r, conn) && IsNode(r.wf, n)
    modifies ctx, conn
    ensures var b := Body(r, n, old(ctx.See()), old(conn.calls), d);
            Ran(ctx, conn, old(ctx.nodeResults), old(conn.calls), b.out) && err == b.out.err &&
            (err.None? ==> next == b.next)
    ensures forall i :: |old(ctx.nodeResults)| <= i < |ctx.nodeResults| ==> fresh(ctx.nodeResults[i])
    decreases Room(r), Level(d), Rank(r, n), 7
  {
    if IsLeaf(n.kind) {
      err, next := ExecuteLeaf(r, n, ctx, conn);
      return;
    }
    match n.kind
    case Delay => return None, Go(Obj(ctx.data), None);
    case Loop(_, _, _, _) => err, next := ExecuteLoop(g, r, n, ctx, conn, d);
    case Parallel => err, next := ExecuteParallel(g, r, n, ctx, conn, d);
    case Batch(_, _, _, _, _) => err, next := ExecuteBatch(g, r, n, ctx, conn, d);
    case SubWorkflow(_, _) => err, next := ExecuteSubWorkflow(r, n, ctx, conn);
    case _ => return None, Go(Null, None);
  }

  method ExecuteLeaf(r: Run, n: Node, ctx: Context, conn: Connectors) returns (err: Option<string>, next: Next)
    requires conn.w == r.w
    modifies ctx, conn
    ensures var c := Ask(r, n, old(ctx.See()), old(conn.calls));
            var out := LeafOut(n, old(ctx.See()), c);
            Ran(ctx, conn, old(ctx.nodeResults), old(conn.calls), out) && err == out.err &&
            next == if c.reply.Done? then LeafNext(n, old(ctx.See()), c.reply) else Pass
    ensures ctx.nodeResults == old(ctx.nodeResults)
  {
    var data := ctx.data;
    var reply := conn.Compute(r, n, ctx);
    if reply.Raised? {
      return Some(reply.error), Pass;
    }
    return None, LeafNext(n, View(data, ctx.variables, ctx.nodeOutputs), reply);
  }

  // ---- `_exec_loop` ----

  method ExecuteLoop(g: Graph, r: Run, n: Node, ctx: Context, conn: Connectors, d: nat)
      returns (err: Option<string>, next: Next)
    requires Ready(g, r, conn) && IsNode(r.wf, n) && n.kind.Loop?
    modifies ctx, conn
    ensures var b := LoopBody(r, n, old(ctx.See()), old(conn.calls), d);
            Ran(ctx, conn, old(ctx.nodeResults), old(conn.calls), b.out) && err == b.out.err &&
            (err.None? ==> next == b.next)
    ensures forall i :: |old(ctx.nodeResults)| <= i < |ctx.nodeResults| ==> fresh(ctx.nodeResults[i])
    decreases Room(r), Level(d), Rank(r, n), 6
  {
    var list := ResolveValue(n.kind.arrayField, ctx.See(), r.trigger);
    if !list.Arr? {
      return None, LoopResult([]);
    }
    var results;
    err, results := IterateItems(g, r, n, Prefix(list.items, Min(n.kind.maxIterations, 1000)), ctx, conn, d);
    if err.None? {
      ctx.variables := ctx.variables[n.kind.itemVar + "_results" := Arr(results)];
    }
    next := LoopResult(results);
  }

  /** The loop has done `done.out`, with results `done.results`, before iteration `i`. */
  ghost predicate Iterated(r: Run, n: Node, items: seq<Json>, v: View, h: seq<Call>, d: nat, i: nat, done: Items)
    requires Sound(r) && IsNode(r.wf, n) && n.kind.Loop?
  {
    i <= |items| && done.out.err.None? &&
    var rest := Iterate(r, n, items, i, done.out.view, h + done.out.calls, d);
    Iterate(r, n, items, 0, v, h, d) == Items(Then(done.out, rest.out), done.results + rest.results)
  }

  function Bind(n: Node, v: View, items: seq<Json>, i: nat): View
    requires n.kind.Loop? && i < |items|
  {
    v.(vars := v.vars[n.kind.itemVar := items[i]][n.kind.indexVar := Num(i as real)])
  }

  lemma IterateStep(r: Run, n: Node, items: seq<Json>, v: View, h: seq<Call>, d: nat, i: nat, done: Items)
    requires Sound(r) && IsNode(r.wf, n) && n.kind.Loop? && i < |items| && Iterated(r, n, items, v, h, d, i, done)
    ensures var a := RunBody(r, Successors(r.wf, n.id, Some("default")), Bind(n, done.out.view, items, i),
                             h + done.out.calls, d);
            if a.err.Some? then Iterate(r, n, items, 0, v, h, d) == Items(Then(done.out, a), done.results)
            else Iterated(r, n, items, v, h, d, i + 1,
                          Items(Then(done.out, a),
                                done.results + [ItemOutput(done.out.view.data, a.view.data, items[i])]))
  {
    var a := RunBody(r, Successors(r.wf, n.id, Some("default")), Bind(n, done.out.view, items, i), h + done.out.calls,
                     d);
    if a.err.None? {
      var h1 := h + done.out.calls + a.calls;
      Assoc(h, done.out.calls, a.calls);
      var rest := Iterate(r, n, items, i + 1, a.view, h1, d);
      ThenAssociates(done.out, a, rest.out);
      var item := ItemOutput(done.out.view.data, a.view.data, items[i]);
      assert done.results + ([item] + rest.results) == (done.results + [item]) + rest.results;
    } else {
      assert done.results + [] == done.results;
    }
  }

  lemma IterateStart(r: Run, n: Node, items: seq<Json>, v: View, h: seq<Call>, d: nat)
    requires Sound(r) && IsNode(r.wf, n) && n.kind.Loop?
    ensures Iterated(r, n, items, v, h, d, 0, Items(Quiet(v), []))
  {
    var x := Iterate(r, n, items, 0, v, h, d);
    assert h + [] == h && Then(Quiet(v), x.out) == x.out && [] + x.results == x.results;
  }

  lemma IterateEnd(r: Run, n: Node, items: seq<Json>, v: View, h: seq<Call>, d: nat, done: Items)
    requires Sound(r) && IsNode(r.wf, n) && n.kind.Loop? && Iterated(r, n, items, v, h, d, |items|, done)
    ensures Iterate(r, n, items, 0, v, h, d) == done
  {
    assert Then(done.out, Quiet(done.out.view)) == done.out && done.results + [] == done.results;
  }

  method IterateItems(g: Graph, r: Run, n: Node, items: seq<Json>, ctx: Context, conn: Connectors, d: nat)
      returns (err: Option<string>, results: seq<Json>)
    requires Ready(g, r, conn) && IsNode(r.wf, n) && n.kind.Loop?
    modifies ctx, conn
    ensures var x := Iterate(r, n, items, 0, old(ctx.See()), old(conn.calls), d);
            Ran(ctx, conn, old(ctx.nodeResults), old(conn.calls), x.out) && err == x.out.err && results == x.results
    ensures forall i :: |old(ctx.nodeResults)| <= i < |ctx.nodeResults| ==> fresh(ctx.nodeResults[i])
    decreases Room(r), Level(d), Rank(r, n), 4
  {
    ghost var v, h, before := ctx.See(), conn.calls, ctx.nodeResults;
    var body := g.GetSuccessors(n.id, Some("default"), r.wf.nodes, r.wf.edges);
    results := [];
    ghost var done := Quiet(v);
    IterateStart(r, n, items, v, h, d);
    for i := 0 to |items|
      invariant Ran(ctx, conn, before, h, done)
      invariant Iterated(r, n, items, v, h, d, i, Items(done, results))
      invariant forall j :: |before| <= j < |ctx.nodeResults| ==> fresh(ctx.nodeResults[j])
    {
      IterateStep(r, n, items, v, h, d, i, Items(done, results));
      var dataBefore := ctx.data;
      ghost var a := RunBody(r, body, Bind(n, ctx.See(), items, i), conn.calls, d);
      err := IterateOnce(g, r, n, items, i, body, ctx, conn, d, before, h, done);
      done := Then(done, a);
      if err.Some? {
        return;
      }
      results := results + [ItemOutput(dataBefore, ctx.data, items[i])];
    }
    IterateEnd(r, n, items, v, h, d, Items(done, results));
    err := None;
  }

  method IterateOnce(g: Graph, r: Run, n: Node, items: seq<Json>, i: nat, body: seq<Node>, ctx: Context,
                     conn: Connectors,
                     d: nat, ghost before: seq<ResultEntry>, ghost h: seq<Call>, ghost done: Out)
      returns (err: Option<string>)
    requires Ready(g, r, conn) && IsNode(r.wf, n) && n.kind.Loop? && i < |items|
    requires (forall b :: b in body ==> IsNode(r.wf, b)) && Ran(ctx, conn, before, h, done)
    modifies ctx, conn
    ensures var a := RunBody(r, body, Bind(n, old(ctx.See()), items, i), old(conn.calls), d);
            Ran(ctx, conn, before, h, Then(done, a)) && err == a.err
    ensures old(ctx.nodeResults) <= ctx.nodeResults
    ensures forall j :: |old(ctx.nodeResults)| <= j < |ctx.nodeResults| ==> fresh(ctx.nodeResults[j])
    decreases Room(r), Level(d), Rank(r, n), 3
  {
    ghost var mid := ctx.nodeResults;
    ctx.variables := ctx.variables[n.kind.itemVar := items[i]][n.kind.indexVar := Num(i as real)];
    ghost var a := RunBody(r, body, ctx.See(), conn.calls, d);
    err := ExecuteBodyNodes(g, r, body, ctx, conn, d);
    Compose(ctx, conn, before, mid, h, done, a);
  }

  method ExecuteBodyNodes(g: Graph, r: Run, body: seq<Node>, ctx: Context, conn: Connectors, d: nat)
      returns (err: Option<string>)
    requires Ready(g, r, conn) && forall n :: n in body ==> IsNode(r.wf, n)
    modifies ctx, conn
    ensures var out := RunBody(r, body, old(ctx.See()), old(conn.calls), d);
            Ran(ctx, conn, old(ctx.nodeResults), old(conn.calls), out) && err == out.err
    ensures forall i :: |old(ctx.nodeResults)| <= i < |ctx.nodeResults| ==> fresh(ctx.nodeResults[i])
    decreases Room(r), Level(d), 0, 3
  {
    if body == [] {
      return None;
    }
    err := ExecuteNodes(g, r, body, ctx, conn, d + 1);
  }

  // ---- `_exec_parallel` ----

  method ExecuteParallel(g: Graph, r: Run, n: Node, ctx: Context, conn: Connectors, d: nat)
      returns (err: Option<string>, next: Next)
    requires Ready(g, r, conn) && IsNode(r.wf, n) && n.kind.Parallel?
    modifies ctx, conn
    ensures var b := ParallelBody(r, n, old(ctx.See()), old(conn.calls), d);
            Ran(ctx, conn, old(ctx.nodeResults), old(conn.calls), b.out) && err == b.out.err &&
            (err.None? ==> next == b.next)
    ensures forall i :: |old(ctx.nodeResults)| <= i < |ctx.nodeResults| ==> fresh(ctx.nodeResults[i])
    decreases Room(r), Level(d), Rank(r, n), 6
  {
    var branches := g.GetSuccessors(n.id, Some("branch"), r.wf.nodes, r.wf.edges);
    if branches == [] {
      return None, ParallelResult(0, map[]);
    }
    ghost var h := conn.calls;
    var results, collected := ScatterBranches(g, r, n, branches, ctx.See(), conn, d);
    ghost var x := Scatter(r, n, branches, ctx.See(), h, d);
    Absorb(ctx, collected, x.log, results, "parallel_results", Obj(results));
    return None, ParallelResult(|branches|, results);
  }

  /** Take over what branches or items produced: results, outputs and one variable. */
  method Absorb(ctx: Context, collected: seq<ResultEntry>, ghost log: seq<Entry>, outputs: Dict,
                name: string, value: Json)
    requires Shows(collected, 0, log)
    modifies ctx
    ensures ctx.See() == View(old(ctx.data), old(ctx.variables)[name := value], old(ctx.nodeOutputs) + outputs)
    ensures old(ctx.nodeResults) <= ctx.nodeResults && Shows(ctx.nodeResults, |old(ctx.nodeResults)|, log)
    ensures ctx.nodeResults == old(ctx.nodeResults) + collected
  {
    ctx.nodeOutputs := ctx.nodeOutputs + outputs;
    ctx.nodeResults := ctx.nodeResults + collected;
    ctx.variables := ctx.variables[name := value];
  }

  /** Each branch on a context of its own, which starts as a copy. */
  method ScatterBranches(g: Graph, r: Run, n: Node, branches: seq<Node>, v: View, conn: Connectors, d: nat)
      returns (results: Dict, collected: seq<ResultEntry>)
    requires Ready(g, r, conn) && IsNode(r.wf, n) && n.kind.Parallel?
    requires branches == Successors(r.wf, n.id, Some("branch"))
    modifies conn
    ensures var x := Scatter(r, n, branches, v, old(conn.calls), d);
            results == x.results && conn.calls == old(conn.calls) + x.calls && Shows(collected, 0, x.log)
    ensures forall i :: 0 <= i < |collected| ==> fresh(collected[i])
    decreases Room(r), Level(d), Rank(r, n), 5
  {
    ghost var h := conn.calls;
    results, collected := map[], [];
    ghost var x := Branches([], [], [], false, map[]);
    for i := 0 to |branches|
      invariant x == Scatter(r, n, branches[..i], v, h, d)
      invariant results == x.results && conn.calls == h + x.calls && Shows(collected, 0, x.log)
      invariant forall j :: 0 <= j < |collected| ==> fresh(collected[j])
    {
      ScatterStep(r, n, branches, i, v, h, d);
      ghost var b := Single(r, branches[i], v, h + x.calls, d + 1);
      var output, more := RunBranch(g, r, n, branches[i], v, conn, d);
      ShowsBoth(collected, more, 0, x.log, b.log);
      Assoc(h, x.calls, b.calls);
      x := Merge(x, branches[i], b);
      results := results[branches[i].id := output];
      collected := collected + more;
    }
    assert branches[..|branches|] == branches;
  }

  lemma ScatterStep(r: Run, n: Node, ss: seq<Node>, i: nat, v: View, h: seq<Call>, d: nat)
    requires Sound(r) && IsNode(r.wf, n) && n.kind.Parallel? && i < |ss| && ss == Successors(r.wf, n.id, Some("branch"))
    ensures IsNode(r.wf, ss[i]) && Rank(r, ss[i]) < Rank(r, n)
    ensures var x := Scatter(r, n, ss[..i], v, h, d);
            var b := Single(r, ss[i], v, h + x.calls, d + 1);
            Scatter(r, n, ss[..i + 1], v, h, d) == Merge(x, ss[i], b)
  {
    assert ss[i] in ss;
    BranchRank(r, n, ss[i]);
    assert ss[..i + 1][..i] == ss[..i];
  }

  method RunBranch(g: Graph, r: Run, n: Node, branch: Node, v: View, conn: Connectors, d: nat)
      returns (output: Json, more: seq<ResultEntry>)
    requires Ready(g, r, conn) && IsNode(r.wf, n) && IsNode(r.wf, branch) && Rank(r, branch) < Rank(r, n)
    modifies conn
    ensures var b := Single(r, branch, v, old(conn.calls), d + 1);
            output == BranchOutput(branch, b) && conn.calls == old(conn.calls) + b.calls && Shows(more, 0, b.log)
    ensures forall i :: 0 <= i < |more| ==> fresh(more[i])
    decreases Room(r), Level(d), Rank(r, n), 4
  {
    var branchCtx := new Context(v);
    var err := ExecuteSingleNode(g, r, branch, branchCtx, conn, d + 1);
    output := if err.Some? then Obj(map["error" := Str(err.value)]) else Get(branchCtx.nodeOutputs, branch.id);
    more := branchCtx.nodeResults;
  }

  // ---- `_exec_batch` ----

  method ExecuteBatch(g: Graph, r: Run, n: Node, ctx: Context, conn: Connectors, d: nat)
      returns (err: Option<string>, next: Next)
    requires Ready(g, r, conn) && IsNode(r.wf, n) && n.kind.Batch?
    modifies ctx, conn
    ensures var b := BatchBody(r, n, old(ctx.See()), old(conn.calls), d);
            Ran(ctx, conn, old(ctx.nodeResults), old(conn.calls), b.out) && err == b.out.err &&
            (err.None? ==> next == b.next)
    ensures forall i :: |old(ctx.nodeResults)| <= i < |ctx.nodeResults| ==> fresh(ctx.nodeResults[i])
    decreases Room(r), Level(d), Rank(r, n), 6
  {
    var items := BatchItems(r, n, ctx.See());
    if items.None? {
      return None, BatchResult(0, []);
    }
    if n.kind.concurrency < 0 {
      return Some("Semaphore initial value must be >= 0"), Pass;
    }
    ghost var h := conn.calls;
    var pick := PickOf(r.w, conn.calls, n, ctx.See());
    var results, collected := ProcessItems(g, r, n, items.value, ctx.See(), conn, d);
    next := FinishBatch(n, ctx, pick, |items.value|, results, collected,
                        Process(r, n, items.value, 0, ctx.See(), h, d));
    return None, next;
  }

  /** What the batch leaves in the context when its items have run. */
  method FinishBatch(n: Node, ctx: Context, pick: nat -> nat, total: nat, results: seq<ItemResult>,
                     collected: seq<seq<ResultEntry>>, ghost x: BatchRun) returns (next: Next)
    requires n.kind.Batch? && results == x.results && ShowsParts(collected, x.parts)
    modifies ctx
    ensures var b := BatchDone(n, old(ctx.See()), pick, total, x);
            ctx.See() == b.out.view && old(ctx.nodeResults) <= ctx.nodeResults &&
            Shows(ctx.nodeResults, |old(ctx.nodeResults)|, b.out.log) && next == b.next
    ensures forall i :: |old(ctx.nodeResults)| <= i < |ctx.nodeResults| ==> ctx.nodeResults[i] in Owned(collected)
  {
    var appended := CompleteItems(pick, Window(n.kind), collected, x.parts);
    assert ctx.nodeOutputs + map[] == ctx.nodeOutputs;
    Absorb(ctx, appended, Arrange(pick, Window(n.kind), x.parts), map[], "batch_results", Arr(Outputs(results)));
    return BatchResult(total, results);
  }

  function Both(a: BatchRun, b: BatchRun): BatchRun {
    BatchRun(a.parts + b.parts, a.calls + b.calls, a.entered + b.entered, a.guard || b.guard, a.results + b.results)
  }

  /** The batch has done `done` before item `i`. */
  ghost predicate Processed(r: Run, n: Node, items: seq<Json>, v: View, h: seq<Call>, d: nat, i: nat, done: BatchRun)
    requires Sound(r) && IsNode(r.wf, n) && n.kind.Batch?
  {
    i <= |items| && Process(r, n, items, 0, v, h, d) == Both(done, Process(r, n, items, i, v, h + done.calls, d))
  }

  lemma ProcessStart(r: Run, n: Node, items: seq<Json>, v: View, h: seq<Call>, d: nat)
    requires Sound(r) && IsNode(r.wf, n) && n.kind.Batch?
    ensures Processed(r, n, items, v, h, d, 0, BatchRun([], [], [], false, []))
  {
    var x := Process(r, n, items, 0, v, h, d);
    assert h + [] == h && Both(BatchRun([], [], [], false, []), x) == x;
  }

  lemma ProcessStep(r: Run, n: Node, items: seq<Json>, v: View, h: seq<Call>, d: nat, i: nat, done: BatchRun)
    requires Sound(r) && IsNode(r.wf, n) && n.kind.Batch? && i < |items| && Processed(r, n, items, v, h, d, i, done)
    ensures var a := RunBody(r, BatchNodes(r, n), ItemView(v, items[i], i), h + done.calls, d);
            var result := ItemResultOf(v, items[i], i, a);
            var done' := Both(done, BatchRun([a.log], a.calls, a.entered, a.guard, [result]));
            if result.ItemFailed? && n.kind.stopOnItemError then Process(r, n, items, 0, v, h, d) == done'
            else Processed(r, n, items, v, h, d, i + 1, done')
  {
    var a := RunBody(r, BatchNodes(r, n), ItemView(v, items[i], i), h + done.calls, d);
    var result := ItemResultOf(v, items[i], i, a);
    var one := BatchRun([a.log], a.calls, a.entered, a.guard, [result]);
    if !(result.ItemFailed? && n.kind.stopOnItemError) {
      Assoc(h, done.calls, a.calls);
      var rest := Process(r, n, items, i + 1, v, h + done.calls + a.calls, d);
      BothAssociates(done, one, rest);
    }
  }

  lemma BothAssociates(a: BatchRun, b: BatchRun, c: BatchRun)
    ensures Both(Both(a, b), c) == Both(a, Both(b, c))
  {
  }

  /** The node results of each item apart. */
  function Owned(chunks: seq<seq<ResultEntry>>): set<ResultEntry> {
    set i, j | 0 <= i < |chunks| && 0 <= j < |chunks[i]| :: chunks[i][j]
  }

  predicate ShowsParts(chunks: seq<seq<ResultEntry>>, parts: seq<seq<Entry>>)
    reads Owned(chunks)
  {
    |chunks| == |parts| && forall i :: 0 <= i < |chunks| ==> Shows(chunks[i], 0, parts[i])
  }

  lemma OwnedOn(chunks: seq<seq<ResultEntry>>, more: seq<ResultEntry>, parts: seq<seq<Entry>>, log: seq<Entry>)
    requires ShowsParts(chunks, parts) && Shows(more, 0, log)
    ensures ShowsParts(chunks + [more], parts + [log])
    ensures forall e :: e in Owned(chunks + [more]) ==> e in Owned(chunks) || e in more
  {
  }

  lemma OwnedWithout(chunks: seq<seq<ResultEntry>>, parts: seq<seq<Entry>>, i: nat)
    requires i < |chunks| && ShowsParts(chunks, parts)
    ensures Owned(Without(chunks, i)) <= Owned(chunks) && ShowsParts(Without(chunks, i), Without(parts, i))
    ensures forall e :: e in chunks[i] ==> e in Owned(chunks)
  {
  }

  /** The items extend the shared results in the order in which they complete. */
  method CompleteItems(pick: nat -> nat, window: nat, chunks: seq<seq<ResultEntry>>, ghost parts: seq<seq<Entry>>)
      returns (appended: seq<ResultEntry>)
    requires window > 0 && ShowsParts(chunks, parts)
    ensures Shows(appended, 0, Arrange(pick, window, parts))
    ensures forall e :: e in appended ==> e in Owned(chunks)
  {
    appended := [];
    var left := chunks;
    ghost var rest, done: seq<Entry> := parts, [];
    while left != []
      invariant ShowsParts(left, rest) && Shows(appended, 0, done)
      invariant done + Arrange(pick, window, rest) == Arrange(pick, window, parts)
      invariant Owned(left) <= Owned(chunks) && forall e :: e in appended ==> e in Owned(chunks)
      decreases |left|
    {
      var i := Pick(pick, window, |left|);
      ShowsBoth(appended, left[i], 0, done, rest[i]);
      OwnedWithout(left, rest, i);
      Assoc(done, rest[i], Arrange(pick, window, Without(rest, i)));
      appended := appended + left[i];
      done := done + rest[i];
      left, rest := Without(left, i), Without(rest, i);
    }
    assert done + [] == done;
  }

  /** Each item on a context of its own, which starts as a copy. */
  method ProcessItems(g: Graph, r: Run, n: Node, items: seq<Json>, v: View, conn: Connectors, d: nat)
      returns (results: seq<ItemResult>, collected: seq<seq<ResultEntry>>)
    requires Ready(g, r, conn) && IsNode(r.wf, n) && n.kind.Batch?
    modifies conn
    ensures var x := Process(r, n, items, 0, v, old(conn.calls), d);
            results == x.results && conn.calls == old(conn.calls) + x.calls && ShowsParts(collected, x.parts)
    ensures fresh(Owned(collected))
    decreases Room(r), Level(d), Rank(r, n), 5
  {
    ghost var h := conn.calls;
    results, collected := [], [];
    ghost var done := BatchRun([], [], [], false, []);
    ProcessStart(r, n, items, v, h, d);
    for i := 0 to |items|
      invariant Processed(r, n, items, v, h, d, i, done)
      invariant results == done.results && conn.calls == h + done.calls && ShowsParts(collected, done.parts)
      invariant fresh(Owned(collected))
    {
      ghost var a := RunBody(r, BatchNodes(r, n), ItemView(v, items[i], i), conn.calls, d);
      var more, result := ProcessItem(g, r, n, items, i, v, conn, d);
      OwnedOn(collected, more, done.parts, a.log);
      Assoc(h, done.calls, a.calls);
      collected := collected + [more];
      results := results + [result];
      ProcessStep(r, n, items, v, h, d, i, done);
      done := Both(done, BatchRun([a.log], a.calls, a.entered, a.guard, [result]));
      if result.ItemFailed? && n.kind.stopOnItemError {
        return;
      }
    }
    ProcessEnd(r, n, items, v, h, d, done);
  }

  lemma ProcessEnd(r: Run, n: Node, items: seq<Json>, v: View, h: seq<Call>, d: nat, done: BatchRun)
    requires Sound(r) && IsNode(r.wf, n) && n.kind.Batch? && Processed(r, n, items, v, h, d, |items|, done)
    ensures Process(r, n, items, 0, v, h, d) == done
  {
    assert Both(done, BatchRun([], [], [], false, [])) == done;
  }

  method ProcessItem(g: Graph, r: Run, n: Node, items: seq<Json>, i: nat, v: View, conn: Connectors, d: nat)
      returns (more: seq<ResultEntry>, result: ItemResult)
    requires Ready(g, r, conn) && IsNode(r.wf, n) && n.kind.Batch? && i < |items|
    modifies conn
    ensures var a := RunBody(r, BatchNodes(r, n), ItemView(v, items[i], i), old(conn.calls), d);
            result == ItemResultOf(v, items[i], i, a) && conn.calls == old(conn.calls) + a.calls &&
            Shows(more, 0, a.log)
    ensures forall j :: 0 <= j < |more| ==> fresh(more[j])
    decreases Room(r), Level(d), Rank(r, n), 4
  {
    var itemCtx := new Context(ItemView(v, items[i], i));
    var err := ExecuteBodyNodes(g, r, BatchNodes(r, n), itemCtx, conn, d);
    more := itemCtx.nodeResults;
    result := if err.Some? then ItemFailed(i, err.value) else ItemOk(ItemOutput(v.data, itemCtx.data, items[i]));
  }

  // ---- `_exec_sub_workflow` ----

  method ExecuteSubWorkflow(r: Run, n: Node, ctx: Context, conn: Connectors)
      returns (err: Option<string>, next: Next)
    requires Sound(r) && conn.w == r.w && n.kind.SubWorkflow?
    modifies conn
    ensures var b := SubBody(r, n, ctx.See(), old(conn.calls));
            Ran(ctx, conn, ctx.nodeResults, old(conn.calls), b.out) && err == b.out.err &&
            (err.None? ==> next == b.next)
    decreases Room(r), 0, 0, 0
  {
    var e := SubError(r, n.kind);
    if e.Some? {
      return e, Pass;
    }
    var id := n.kind.workflowId;
    var mapped := r.w.subInput(n, ctx.See(), r.trigger);
    RankedChild(r.w, id);
    SmallerRoom(r, id);
    var child := Run(r.w, ChildOf(r.w, id), if mapped == map[] then ctx.data else mapped, r.dryRun, r.chain + [id]);
    var childCtx;
    childCtx, err := ExecuteWorkflow(child, conn);
    if err.Some? {
      return Some("Sub-workflow '" + r.w.table[id].name + "' failed: " + err.value), Pass;
    }
    return None, Go(Obj(map["sub_workflow_id" := Str(id), "sub_workflow_name" := Str(r.w.table[id].name),
                            "sub_execution_status" := Str("success")] + childCtx.data), None);
  }

  // ---- `execute_workflow` and `rerun_from_node` ----

  method ExecuteWorkflow(r: Run, conn: Connectors) returns (ctx: Context, err: Option<string>)
    requires Sound(r) && conn.w == r.w
    modifies conn
    ensures fresh(ctx) && forall i :: 0 <= i < |ctx.nodeResults| ==> fresh(ctx.nodeResults[i])
    ensures Ran(ctx, conn, [], old(conn.calls), Execute(r, old(conn.calls))) && err == Execute(r, old(conn.calls)).err
    decreases Room(r), NodesLevel(0) + 1, 0, 0
  {
    var t := FindTrigger(r.wf);
    if t.None? {
      ctx := new Context(View(r.trigger, Defaults(r.wf.variables), map[]));
      return ctx, Some("No trigger node found in workflow");
    }
    ctx, err := RunTriggered(r, t.value, conn);
  }

  method RunTriggered(r: Run, t: Node, conn: Connectors) returns (ctx: Context, err: Option<string>)
    requires Sound(r) && conn.w == r.w
    modifies conn
    ensures fresh(ctx) && forall i :: 0 <= i < |ctx.nodeResults| ==> fresh(ctx.nodeResults[i])
    ensures var out := Then(TriggerOut(r, t),
                            Nodes(r, Successors(r.wf, t.id, None), TriggerView(r, t), old(conn.calls), 0));
            Ran(ctx, conn, [], old(conn.calls), out) && err == out.err
    decreases Room(r), NodesLevel(0), 0, 4
  {
    ghost var h := conn.calls;
    var g := new Graph(r.wf.nodes, r.wf.edges);
    ctx := StartContext(r, t);
    ghost var mid := ctx.nodeResults;
    err := RunFromTrigger(g, r, t, ctx, conn);
    assert ctx.nodeResults[0] == mid[0];
    assert h + TriggerOut(r, t).calls == h;
    Compose(ctx, conn, [], mid, h, TriggerOut(r, t), Nodes(r, Successors(r.wf, t.id, None), TriggerView(r, t), h, 0));
  }

  method StartContext(r: Run, t: Node) returns (ctx: Context)
    ensures fresh(ctx) && |ctx.nodeResults| == 1 && fresh(ctx.nodeResults[0])
    ensures ctx.See() == TriggerView(r, t) && Shows(ctx.nodeResults, 0, TriggerOut(r, t).log)
  {
    ctx := new Context(TriggerView(r, t));
    var entry := new ResultEntry(t, ctx.See());
    entry.status, entry.output := Success, Some(Obj(r.trigger));
    ctx.nodeResults := [entry];
  }

  method RunFromTrigger(g: Graph, r: Run, t: Node, ctx: Context, conn: Connectors) returns (err: Option<string>)
    requires Ready(g, r, conn)
    modifies ctx, conn
    ensures var out := Nodes(r, Successors(r.wf, t.id, None), old(ctx.See()), old(conn.calls), 0);
            Ran(ctx, conn, old(ctx.nodeResults), old(conn.calls), out) && err == out.err
    ensures forall i :: |old(ctx.nodeResults)| <= i < |ctx.nodeResults| ==> fresh(ctx.nodeResults[i])
    decreases Room(r), NodesLevel(0), 0, 3
  {
    var successors := g.GetSuccessors(t.id, None, r.wf.nodes, r.wf.edges);
    err := ExecuteNodes(g, r, successors, ctx, conn, 0);
  }

  /** The re-run: restore the context of the node's first result, then execute from it. */
  method RerunFromNode(r: Run, results: seq<Entry>, snapshot: View, id: string, override: Dict, conn: Connectors)
      returns (ctx: Context, err: Option<string>, ghost start: View)
    requires Sound(r) && conn.w == r.w
    modifies conn
    ensures var original := Quiet(snapshot).(log := results);
            var out := Rerun(r, original, id, override, old(conn.calls));
            Ran(ctx, conn, [], old(conn.calls), out) && err == out.err
    ensures RestoresFrom(start, results, snapshot, id, override, r.wf.variables)
    ensures var n := Lookup(r.wf.nodes, id);
            n.Some? ==> Ran(ctx, conn, [], old(conn.calls),
                            Single(r.(dryRun := false, chain := [r.wf.id]), n.value, start, old(conn.calls), 0))
  {
    ctx := RestoreContext(r, results, snapshot, id, override);
    start := ctx.See();
    var g := new Graph(r.wf.nodes, r.wf.edges);
    var n := Lookup(r.wf.nodes, id);
    if n.None? {
      return ctx, Some("Node '" + id + "' not found in workflow"), start;
    }
    err := ExecuteSingleNode(g, Live(r), n.value, ctx, conn, 0);
  }

  method RestoreContext(r: Run, results: seq<Entry>, snapshot: View, id: string, override: Dict) returns (ctx: Context)
    ensures fresh(ctx) && ctx.nodeResults == []
    ensures ctx.See() == Restored(r, Quiet(snapshot).(log := results), id, override)
    ensures RestoresFrom(ctx.See(), results, snapshot, id, override, r.wf.variables)
  {
    var k := 0;
    while k < |results| && results[k].nodeId != id
      invariant k <= |results| && forall i :: 0 <= i < k ==> results[i].nodeId != id
    {
      k := k + 1;
    }
    assert k == FirstResult(results, id);
    var base := if k < |results| then results[k].replay else View(snapshot.data, snapshot.vars, map[]);
    OverlayStarts(base, override, r.wf.variables);
    ctx := new Context(base.(data := base.data + override, vars := Defaults(r.wf.variables) + base.vars));
  }
}
