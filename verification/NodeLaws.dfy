/** What single nodes do: how often they are tried, what stops or fails them, what handlers
    and sub-workflows are given, and what later nodes read of it. */
module NodeLaws {
  import opened Json
  import opened NestedPath
  import opened KeyStrings
  import opened WorkflowGraph
  import opened WorkflowEngine
  import opened ContextLaws

  // ---- storing an output ----

  /** The output is stored under the node, and the entries of a dictionary go over the
      data. */
  ghost predicate Stores(v: View, n: Node, output: Json, after: View) {
    after.vars == v.vars && Overlays(after.outputs, v.outputs, map[n.id := output]) &&
    if output.Obj? then Overlays(after.data, v.data, output.fields) else after.data == v.data
  }

  lemma StoreStores(v: View, n: Node, output: Json)
    ensures Stores(v, n, output, Store(v, n, output))
  {
  }

  // ---- tries ----

  /** The node's own policy, or without one the workflow's. */
  predicate HasPolicy(wf: Workflow, n: Node, policy: OnError) {
    n.onError == Some(policy) || (n.onError == None && wf.onError == policy)
  }

  /** How often a failed node is tried again. */
  function RetriesLeft(wf: Workflow, n: Node): nat {
    var limit := if n.maxRetries == None then wf.maxRetries else n.maxRetries.value;
    if HasPolicy(wf, n, Retry) && (n.kind.Action? || n.kind.HttpRequest? || n.kind.Think?) && limit > 0 then limit
    else 0
  }

  /** The node was asked again and again in the same context, and raised each time. */
  ghost predicate AllRaised(r: Run, n: Node, v: View, h: seq<Call>, calls: seq<Call>) {
    forall i :: 0 <= i < |calls| ==> RaisedAt(r, n, v, h, calls, i)
  }

  /** The connectors were asked about the node in this context, after these calls. */
  predicate IsAsked(r: Run, n: Node, v: View, h: seq<Call>, c: Call) {
    c.request == Request(r.wf.id, n, v, r.trigger, r.dryRun) && c.reply == r.w.leaf(h, c.request)
  }

  ghost predicate RaisedAt(r: Run, n: Node, v: View, h: seq<Call>, calls: seq<Call>, i: nat)
    requires i < |calls|
  {
    IsAsked(r, n, v, h + calls[..i], calls[i]) && calls[i].reply.Raised?
  }

  lemma RaisedOn(r: Run, n: Node, v: View, h: seq<Call>, calls: seq<Call>)
    requires AllRaised(r, n, v, h, calls) && Ask(r, n, v, h + calls).reply.Raised?
    ensures AllRaised(r, n, v, h, calls + [Ask(r, n, v, h + calls)])
  {
    var calls' := calls + [Ask(r, n, v, h + calls)];
    forall i | 0 <= i < |calls'| ensures RaisedAt(r, n, v, h, calls', i) {
      if i < |calls| {
        assert RaisedAt(r, n, v, h, calls, i) && calls'[..i] == calls[..i];
      } else {
        assert calls'[..i] == calls;
      }
    }
  }

  function ErrorIn(c: Call): string {
    if c.reply.Raised? then c.reply.error else ""
  }

  /** The node has raised so far: nothing is recorded, and the context is as it was. */
  ghost predicate StillFailing(r: Run, n: Node, v: View, h: seq<Call>, p: Pending) {
    p.entry == Open(n, v) && p.places == {} && p.out.log == [] && p.out.view == v && !p.out.guard &&
    p.out.calls != [] && AllRaised(r, n, v, h, p.out.calls) &&
    p.out.err == Some(ErrorIn(p.out.calls[|p.out.calls| - 1]))
  }

  /** The last try succeeded: one result says so, and how many tries came before it. */
  ghost predicate SucceededAtLast(r: Run, n: Node, v: View, h: seq<Call>, out: Out) {
    var k := |out.calls| - 1;
    k >= 0 && AllRaised(r, n, v, h, out.calls[..k]) && IsAsked(r, n, v, h + out.calls[..k], out.calls[k]) &&
    var reply := out.calls[k].reply;
    reply.Done? && out.err == None && Stores(v, n, reply.output, out.view) &&
    out.log == [Entry(n.id, n.title, Success, v.data, v, Some(reply.output), None, k)]
  }

  predicate Plain(wf: Workflow, n: Node) {
    IsNode(wf, n) && (n.kind.Action? || n.kind.HttpRequest? || n.kind.Think?) && Successors(wf, n.id, None) == []
  }

  /** After some more tries the node still fails, or has succeeded. */
  ghost predicate WentOn(r: Run, n: Node, v: View, h: seq<Call>, first: Call, q: Pending) {
    if q.out.err.Some? then StillFailing(r, n, v, h, q) && q.out.calls[0] == first
    else SucceededAtLast(r, n, v, h, q.out)
  }

  lemma AttemptGoes(r: Run, n: Node, v: View, h: seq<Call>, p: Pending, k: nat, d: nat)
    requires Sound(r) && Plain(r.wf, n) && StillFailing(r, n, v, h, p) && k == |p.out.calls|
    ensures var q := OneAttempt(r, n, p, k, h, d);
            |q.out.calls| == k + 1 && WentOn(r, n, v, h, p.out.calls[0], q)
  {
    var c := Ask(r, n, v, h + p.out.calls);
    assert Ask(r, n, p.out.view, h + p.out.calls) == c;
    if c.reply.Raised? {
      RaisedOn(r, n, v, h, p.out.calls);
    } else {
      assert (p.out.calls + [c])[..k] == p.out.calls;
      StoreStores(v, n, c.reply.output);
    }
  }

  lemma {:induction false} AttemptsGo(r: Run, n: Node, v: View, h: seq<Call>, p: Pending, k: nat, d: nat)
    requires Sound(r) && Plain(r.wf, n) && StillFailing(r, n, v, h, p) && k == |p.out.calls| &&
             1 <= k <= RetriesOf(r.wf, n)
    ensures var q := Attempts(r, n, p, k, h, d);
            WentOn(r, n, v, h, p.out.calls[0], q) && |q.out.calls| <= 1 + RetriesOf(r.wf, n) &&
            (q.out.err.Some? ==> |q.out.calls| == 1 + RetriesOf(r.wf, n))
    decreases RetriesOf(r.wf, n) - k
  {
    AttemptGoes(r, n, v, h, p, k, d);
    AttemptsUnfold(r, n, p, k, h, d);
    var p1 := OneAttempt(r, n, p, k, h, d);
    if p1.out.err.Some? && k < RetriesOf(r.wf, n) { AttemptsGo(r, n, v, h, p1, k + 1, d); }
  }

  lemma AttemptsUnfold(r: Run, n: Node, p: Pending, k: nat, h: seq<Call>, d: nat)
    requires Sound(r) && IsNode(r.wf, n) && 1 <= k <= RetriesOf(r.wf, n)
    ensures var p1 := OneAttempt(r, n, p, k, h, d);
            Attempts(r, n, p, k, h, d) ==
            if p1.out.err.None? || k == RetriesOf(r.wf, n) then p1 else Attempts(r, n, p1, k + 1, h, d)
  {
  }

  lemma FirstTry(r: Run, n: Node, v: View, h: seq<Call>, d: nat)
    requires Sound(r) && Plain(r.wf, n)
    ensures var p := Try(r, n, v, h, d);
            |p.out.calls| == 1 &&
            if p.out.err.Some? then StillFailing(r, n, v, h, p) else SucceededAtLast(r, n, v, h, p.out)
  {
    var c := Ask(r, n, v, h);
    assert h + [] == h && [c][..0] == [];
    TryIs(r, n, v, h, d);
    assert Body(r, n, v, h, d) == BodyOut(LeafOut(n, v, c), if c.reply.Done? then Go(c.reply.output, None) else Pass);
    if c.reply.Done? { StoreStores(v, n, c.reply.output); }
  }

  /** It never succeeded: one result has the first error, and what is raised depends on the
      policy. */
  ghost predicate FailedForGood(r: Run, n: Node, v: View, h: seq<Call>, out: Out) {
    out.calls != [] && AllRaised(r, n, v, h, out.calls) && out.view == v &&
    var first := ErrorIn(out.calls[0]);
    out.log == [Entry(n.id, n.title, Status.Failed, v.data, v, None, Some(first), 0)] &&
    out.err == if HasPolicy(r.wf, n, Continue) || HasPolicy(r.wf, n, Ignore) then None
               else Some("Node '" + n.title + "' failed: " + first)
  }

  lemma GivesUp(r: Run, n: Node, v: View, h: seq<Call>, p: Pending, e: string, d: nat)
    requires Sound(r) && Plain(r.wf, n) && FindErrorHandler(r.wf, n.id) == None && StillFailing(r, n, v, h, p)
    requires p.out.calls != [] && e == ErrorIn(p.out.calls[0])
    ensures FailedForGood(r, n, v, h, GiveUp(r, n, p, e, h, d)) && GiveUp(r, n, p, e, h, d).calls == p.out.calls
  {
    GiveUpIs(r, n, p, e, h, d);
  }

  /** An action, request or think node that nothing follows or handles is tried until it
      succeeds, and if its policy is "retry" up to its number of retries more, each time in
      the same context; its own policy and number take priority over the workflow's. */
  lemma TriesOfANode(r: Run, n: Node, v: View, h: seq<Call>, d: nat)
    requires Sound(r) && Plain(r.wf, n) && FindErrorHandler(r.wf, n.id) == None
    ensures var out, retries := Single(r, n, v, h, d), RetriesLeft(r.wf, n);
            1 <= |out.calls| <= 1 + retries &&
            (SucceededAtLast(r, n, v, h, out) || (FailedForGood(r, n, v, h, out) && |out.calls| == 1 + retries))
  {
    FirstTry(r, n, v, h, d);
    var p := Try(r, n, v, h, d);
    if p.out.err.Some? { Recovers(r, n, v, h, p, d); }
  }

  lemma Recovers(r: Run, n: Node, v: View, h: seq<Call>, p: Pending, d: nat)
    requires Sound(r) && Plain(r.wf, n) && FindErrorHandler(r.wf, n.id) == None
    requires StillFailing(r, n, v, h, p) && |p.out.calls| == 1
    ensures var out, retries := Recover(r, n, p, v, h, d), RetriesLeft(r.wf, n);
            1 <= |out.calls| <= 1 + retries &&
            (SucceededAtLast(r, n, v, h, out) || (FailedForGood(r, n, v, h, out) && |out.calls| == 1 + retries))
  {
    var e := p.out.err.value;
    if RetriesLeft(r.wf, n) > 0 {
      AttemptsGo(r, n, v, h, p, 1, d);
      var q := Attempts(r, n, p, 1, h, d);
      if q.out.err.Some? { GivesUp(r, n, v, h, q, e, d); }
    } else {
      GivesUp(r, n, v, h, p, e, d);
    }
  }

  // ---- what a node gives, and what follows it ----

  /** What the connectors' reply does to the context of a computed node, and what the node
      goes on with: variable setters, aggregates and error handlers leave entries; a
      condition or switch goes on by the handle of its reply; a filter lets the data pass. */
  lemma LeafGives(r: Run, n: Node, v: View, h: seq<Call>, d: nat) returns (c: Call)
    requires Sound(r) && IsNode(r.wf, n)
    requires n.kind.Action? || n.kind.Think? || n.kind.HttpRequest? || n.kind.Condition? || n.kind.Switch? ||
             n.kind.Transform? || n.kind.Filter? || n.kind.SetVariable? || n.kind.Aggregate? || n.kind.Response? ||
             n.kind.ErrorHandler?
    ensures IsAsked(r, n, v, h, c)
    ensures var b := Body(r, n, v, h, d);
            b.out.calls == [c] && b.out.log == [] && b.out.view.outputs == v.outputs &&
            (if n.kind.SetVariable? || n.kind.Aggregate? || n.kind.ErrorHandler? then
               Overlays(b.out.view.vars, v.vars, c.reply.vars) && Overlays(b.out.view.data, v.data, c.reply.data)
             else b.out.view == v) &&
            if c.reply.Raised? then b.out.err == Some(c.reply.error)
            else
              b.out.err == None &&
              b.next == if n.kind.Response? then Answer(c.reply.output)
                        else if n.kind.Condition? || n.kind.Switch? then Go(c.reply.output, Some(c.reply.handle))
                        else if !n.kind.Filter? then Go(c.reply.output, None)
                        else if c.reply.output == Bool(true) then Go(Obj(v.data), None)
                        else Pass
  {
    c := Ask(r, n, v, h);
    EffectOverlays(n, v, c.reply);
    LeafBody(r, n, v, h, d);
  }

  lemma LeafBody(r: Run, n: Node, v: View, h: seq<Call>, d: nat)
    requires Sound(r) && IsNode(r.wf, n) && IsLeaf(n.kind)
    ensures var c := Ask(r, n, v, h);
            Body(r, n, v, h, d) == BodyOut(LeafOut(n, v, c), if c.reply.Done? then LeafNext(n, v, c.reply) else Pass)
  {
  }

  lemma EffectOverlays(n: Node, v: View, reply: Reply)
    ensures var after := Effect(n, v, reply);
            after.outputs == v.outputs &&
            if n.kind.SetVariable? || n.kind.Aggregate? || n.kind.ErrorHandler? then
              Overlays(after.vars, v.vars, reply.vars) && Overlays(after.data, v.data, reply.data)
            else after == v
  {
  }

  /** The run of what follows, if anything does, from the context in which the output is
      stored. */
  ghost predicate GoesFrom(r: Run, n: Node, handle: Option<string>, stored: View, h: seq<Call>, d: nat, more: Out)
    requires Sound(r)
  {
    var ss := Successors(r.wf, n.id, handle);
    if ss == [] then more == Quiet(stored) else more == Nodes(r, ss, stored, h, d + 1)
  }

  /** Whatever a node did to go on: its output is stored, its result is a success, and then
      everything that follows it runs on that context. */
  lemma GoesOn(r: Run, n: Node, v: View, h: seq<Call>, d: nat) returns (stored: View, more: Out)
    requires Sound(r) && IsNode(r.wf, n) && Body(r, n, v, h, d).out.err == None && Body(r, n, v, h, d).next.Go?
    ensures var b := Body(r, n, v, h, d);
            Stores(b.out.view, n, b.next.output, stored) &&
            GoesFrom(r, n, b.next.handle, stored, h + b.out.calls, d, more)
    ensures var b, out := Body(r, n, v, h, d), Try(r, n, v, h, d).out;
            out.view == more.view && out.err == more.err && out.calls == b.out.calls + more.calls &&
            out.log == b.out.log + [Entry(n.id, n.title, Success, v.data, v, Some(b.next.output), None, 0)] + more.log
  {
    var b := Body(r, n, v, h, d);
    var p := Recorded(b.out, n, v, b.next.output);
    GoIs(r, n, v, h, d);
    RecordedIs(b.out, n, v, b.next.output);
    stored := p.out.view;
    more := WhatFollows(r, n, b.next.handle, stored, h + b.out.calls, d);
    FollowsUp(r, n, p, b.next.handle, h, d, more);
  }

  /** The success recorded and the output stored. */
  function Recorded(out: Out, n: Node, v: View, output: Json): Pending {
    Storing(n, Append(Pending(out, Open(n, v), {}), Succeeded(Open(n, v), output)), output)
  }

  lemma RecordedIs(out: Out, n: Node, v: View, output: Json)
    ensures var p := Recorded(out, n, v, output);
            p.out.calls == out.calls && Stores(out.view, n, output, p.out.view) &&
            p.out.log == out.log + [Entry(n.id, n.title, Success, v.data, v, Some(output), None, 0)]
  {
    StoreStores(out.view, n, output);
  }

  lemma GoIs(r: Run, n: Node, v: View, h: seq<Call>, d: nat)
    requires Sound(r) && IsNode(r.wf, n) && Body(r, n, v, h, d).out.err == None && Body(r, n, v, h, d).next.Go?
    ensures var b := Body(r, n, v, h, d);
            Try(r, n, v, h, d) == FollowUp(r, n, Recorded(b.out, n, v, b.next.output), b.next.handle, h, d)
  {
    TryIs(r, n, v, h, d);
  }

  lemma FollowsUp(r: Run, n: Node, p: Pending, handle: Option<string>, h: seq<Call>, d: nat, more: Out)
    requires Sound(r) && IsNode(r.wf, n) && GoesFrom(r, n, handle, p.out.view, h + p.out.calls, d, more)
    ensures var out := FollowUp(r, n, p, handle, h, d).out;
            out.view == more.view && out.err == more.err && out.calls == p.out.calls + more.calls &&
            out.log == p.out.log + more.log
  {
  }

  /** A retry that works goes on likewise, along all edges. */
  lemma RetryGoesOn(r: Run, n: Node, p: Pending, k: nat, h: seq<Call>, d: nat)
      returns (c: Call, stored: View, more: Out)
    requires Sound(r) && IsNode(r.wf, n) && (n.kind.Action? || n.kind.Think? || n.kind.HttpRequest?)
    requires Ask(r, n, p.out.view, h + p.out.calls).reply.Done?
    ensures IsAsked(r, n, p.out.view, h + p.out.calls, c) && c.reply.Done? &&
            Stores(p.out.view, n, c.reply.output, stored)
    ensures GoesFrom(r, n, None, stored, h + (p.out.calls + [c]), d, more)
    ensures var q := OneAttempt(r, n, p, k, h, d);
            q.entry == p.entry.(status := Success, output := Some(c.reply.output), retries := k) &&
            q.out.view == more.view && q.out.err == more.err && q.out.calls == p.out.calls + [c] + more.calls &&
            |q.out.log| == |p.out.log| + 1 + |more.log| && q.out.log[|p.out.log|] == q.entry
  {
    c := Ask(r, n, p.out.view, h + p.out.calls);
    stored := Store(p.out.view, n, c.reply.output);
    StoreStores(p.out.view, n, c.reply.output);
    more := WhatFollows(r, n, None, stored, h + (p.out.calls + [c]), d);
    var asked := Extend(p, LeafOut(n, p.out.view, c));
    var done := Append(asked, Succeeded(p.entry, c.reply.output).(retries := k));
    FollowsUp(r, n, done.(out := done.out.(view := stored)), None, h, d, more);
  }

  // ---- what stops a path ----

  /** A filter whose condition does not come out true ends its path: one filtered result,
      and nothing else changes. */
  lemma FilterStops(r: Run, n: Node, v: View, h: seq<Call>, d: nat)
    requires Sound(r) && IsNode(r.wf, n) && n.kind.Filter?
    requires var reply := Ask(r, n, v, h).reply; reply.Done? && reply.output != Bool(true)
    ensures var out := Single(r, n, v, h, d);
            out.view == v && out.err == None && out.calls == [Ask(r, n, v, h)] &&
            out.log == [Entry(n.id, n.title, Filtered, v.data, v, None, None, 0)]
  {
    TryIs(r, n, v, h, d);
    assert Body(r, n, v, h, d) == BodyOut(LeafOut(n, v, Ask(r, n, v, h)), Pass);
  }

  /** A response ends its path too, and its output is stored but not merged. */
  lemma ResponseStops(r: Run, n: Node, v: View, h: seq<Call>, d: nat)
    requires Sound(r) && IsNode(r.wf, n) && n.kind.Response? && Ask(r, n, v, h).reply.Done?
    ensures var out, output := Single(r, n, v, h, d), Ask(r, n, v, h).reply.output;
            out.view == View(v.data, v.vars, v.outputs[n.id := output]) && out.err == None &&
            out.calls == [Ask(r, n, v, h)] &&
            out.log == [Entry(n.id, n.title, Success, v.data, v, Some(output), None, 0)]
  {
    TryIs(r, n, v, h, d);
    assert Body(r, n, v, h, d) == BodyOut(LeafOut(n, v, Ask(r, n, v, h)), Answer(Ask(r, n, v, h).reply.output));
  }

  /** A delay gives the data as its output, a filter that passes does too, and both go on
      along all edges. */
  lemma DataPassesThrough(r: Run, n: Node, v: View, h: seq<Call>, d: nat)
    requires Sound(r) && IsNode(r.wf, n) && Successors(r.wf, n.id, None) == []
    requires n.kind.Delay? ||
             (n.kind.Filter? && Ask(r, n, v, h).reply.Done? && Ask(r, n, v, h).reply.output == Bool(true))
    ensures var out := Single(r, n, v, h, d);
            out.err == None && Stores(v, n, Obj(v.data), out.view) &&
            out.log == [Entry(n.id, n.title, Success, v.data, v, Some(Obj(v.data)), None, 0)]
  {
    TryIs(r, n, v, h, d);
    var out := if n.kind.Delay? then Quiet(v) else LeafOut(n, v, Ask(r, n, v, h));
    assert Body(r, n, v, h, d) == BodyOut(out, Go(Obj(v.data), None));
    StoreStores(v, n, Obj(v.data));
  }

  // ---- what a handler is told ----

  ghost predicate NamesFailure(n: Node, v: View, e: string, told: View, info: Dict) {
    told.data == v.data && told.outputs == v.outputs && Overlays(told.vars, v.vars, map["_error" := Obj(info)]) &&
    Get(info, "error") == Str(e) && Get(info, "failed_node_id") == Str(n.id) &&
    Get(info, "failed_node_label") == Str(n.title) && Get(info, "failed_node_output") == Get(v.outputs, n.id)
  }

  lemma ViewNames(n: Node, failed: Out, e: string) returns (info: Dict)
    ensures NamesFailure(n, failed.view, e, HandlerView(n, failed, e), info)
  {
    info := ErrorInfo(n, failed.view, e).fields;
  }

  lemma FailureIsRecorded(p: Pending, e: string)
    ensures var failed := FailedAfter(p, e);
            failed.view == p.out.view && failed.calls == p.out.calls && |failed.log| == |p.out.log| + 1 &&
            failed.log[|p.out.log|] == p.entry.(status := Status.Failed, error := Some(e))
  {
  }

  /** A failed node with an error handler hands over to it, whatever the policy says: the
      handler runs in a context that names the failure. */
  lemma HandlerIsTold(r: Run, n: Node, handler: Node, p: Pending, e: string, h: seq<Call>, d: nat)
      returns (failed: Out, v: View, info: Dict)
    requires Sound(r) && IsNode(r.wf, n) && FindErrorHandler(r.wf, n.id) == Some(handler)
    ensures GiveUp(r, n, p, e, h, d) == Then(failed, Single(r, handler, v, h + failed.calls, d + 1))
    ensures failed.view == p.out.view && failed.calls == p.out.calls && |failed.log| == |p.out.log| + 1 &&
            failed.log[|p.out.log|] == p.entry.(status := Status.Failed, error := Some(e))
    ensures NamesFailure(n, p.out.view, e, v, info)
  {
    failed := FailedAfter(p, e);
    v := HandlerView(n, failed, e);
    FailureIsRecorded(p, e);
    info := ViewNames(n, failed, e);
    GiveUpIs(r, n, p, e, h, d);
    HandleIs(r, n, handler, failed, e, h, d);
  }

  /** Without a handler the policy decides: to go on along all edges, to ignore the error, or
      to raise it under the node's name. */
  lemma PolicyDecides(r: Run, n: Node, p: Pending, e: string, h: seq<Call>, d: nat) returns (failed: Out, more: Out)
    requires Sound(r) && IsNode(r.wf, n) && FindErrorHandler(r.wf, n.id) == None
    ensures failed.view == p.out.view && failed.calls == p.out.calls && |failed.log| == |p.out.log| + 1 &&
            failed.log[|p.out.log|] == p.entry.(status := Status.Failed, error := Some(e))
    ensures GoesFrom(r, n, None, failed.view, h + failed.calls, d, more)
    ensures var out := GiveUp(r, n, p, e, h, d);
            if HasPolicy(r.wf, n, Continue) then
              out.view == more.view && out.err == more.err && out.calls == failed.calls + more.calls &&
              out.log == failed.log + more.log
            else
              out.view == failed.view && out.calls == failed.calls && out.log == failed.log &&
              out.err == if HasPolicy(r.wf, n, Ignore) then None else Some("Node '" + n.title + "' failed: " + e)
  {
    failed := FailedAfter(p, e);
    FailureIsRecorded(p, e);
    GiveUpIs(r, n, p, e, h, d);
    PolicyOfFailing(r, n, failed, e, h, d);
    more := WhatFollows(r, n, None, failed.view, h + failed.calls, d);
    ContinuesWith(r, n, failed, h, d, more);
  }

  lemma PolicyOfFailing(r: Run, n: Node, failed: Out, e: string, h: seq<Call>, d: nat)
    requires Sound(r) && IsNode(r.wf, n) && FindErrorHandler(r.wf, n.id) == None
    ensures Failing(r, n, failed, e, h, d) ==
            if HasPolicy(r.wf, n, Continue) then Continuing(r, n, failed, h, d)
            else failed.(err := if HasPolicy(r.wf, n, Ignore) then None
                                else Some("Node '" + n.title + "' failed: " + e))
  {
  }

  lemma WhatFollows(r: Run, n: Node, handle: Option<string>, stored: View, h: seq<Call>, d: nat) returns (more: Out)
    requires Sound(r)
    ensures GoesFrom(r, n, handle, stored, h, d, more)
  {
    var ss := Successors(r.wf, n.id, handle);
    more := if ss == [] then Quiet(stored) else Nodes(r, ss, stored, h, d + 1);
  }

  lemma ContinuesWith(r: Run, n: Node, failed: Out, h: seq<Call>, d: nat, more: Out)
    requires Sound(r) && IsNode(r.wf, n) && GoesFrom(r, n, None, failed.view, h + failed.calls, d, more)
    ensures var out := Continuing(r, n, failed, h, d);
            out.view == more.view && out.err == more.err && out.calls == failed.calls + more.calls &&
            out.log == failed.log + more.log
  {
  }

  /** The type that a handler is told is the one that the workflow names. */
  lemma KindNames(k: Kind)
    ensures var name := KindName(k);
            (k.Action? <==> name == "action") && (k.HttpRequest? <==> name == "http_request") &&
            (k.SubWorkflow? <==> name == "sub_workflow") && (k.Loop? <==> name == "loop") &&
            (k.Batch? <==> name == "batch") && (k.Parallel? <==> name == "parallel")
  {
  }

  // ---- sub-workflows ----

  /** A sub-workflow node enters the workflow exactly if it exists, is not in the chain yet,
      and the chain is below the nesting limit. */
  lemma EntersExactly(r: Run, k: Kind)
    requires k.SubWorkflow?
    ensures SubError(r, k) == None <==>
            k.workflowId != "" && k.workflowId in r.w.table && k.workflowId !in r.chain &&
            |r.chain| < if k.maxNesting == 0 then 5 else if k.maxNesting > 1 then k.maxNesting else 1
  {
  }

  /** It runs the child on the mapped input, or without one on the data, in the same mode
      and a longer chain. The child's error fails the node, and otherwise the child's final
      data, over the names of the child, is its output. */
  lemma SubWorkflowRuns(r: Run, n: Node, v: View, h: seq<Call>) returns (child: Run, x: Out)
    requires Sound(r) && n.kind.SubWorkflow? && SubError(r, n.kind) == None
    ensures var id, input := n.kind.workflowId, r.w.subInput(n, v, r.trigger);
            id in r.w.table && Sound(child) && child.w == r.w && child.wf == r.w.table[id].(id := id) &&
            child.trigger == (if input == map[] then v.data else input) && child.dryRun == r.dryRun &&
            child.chain == r.chain + [id] && x == Execute(child, h)
    ensures var b, name := SubBody(r, n, v, h), r.w.table[n.kind.workflowId].name;
            b.out.view == v && b.out.log == [] && b.out.calls == x.calls &&
            if x.err.Some? then b.out.err == Some("Sub-workflow '" + name + "' failed: " + x.err.value)
            else
              b.out.err == None && b.next.Go? && b.next.handle == None && b.next.output.Obj? &&
              Overlays(b.next.output.fields,
                       map["sub_workflow_id" := Str(n.kind.workflowId), "sub_workflow_name" := Str(name),
                           "sub_execution_status" := Str("success")],
                       x.view.data)
  {
    var id, input := n.kind.workflowId, r.w.subInput(n, v, r.trigger);
    RankedChild(r.w, id);
    SmallerRoom(r, id);
    child := Run(r.w, ChildOf(r.w, id), if input == map[] then v.data else input, r.dryRun, r.chain + [id]);
    x := Execute(child, h);
    MergeOverlays(map["sub_workflow_id" := Str(id), "sub_workflow_name" := Str(r.w.table[id].name),
                      "sub_execution_status" := Str("success")], x.view.data);
  }

  // ---- how an execution starts ----

  /** An execution starts with the trigger's result, in a context with the trigger data and
      the defaults of the declared variables, and runs what follows the trigger. */
  lemma ExecutionStarts(r: Run, h: seq<Call>) returns (v: View, rest: Out)
    requires Sound(r) && FindTrigger(r.wf).Some?
    ensures var t := FindTrigger(r.wf).value;
            v.data == r.trigger && AreDefaults(v.vars, r.wf.variables) && v.outputs == map[t.id := Obj(r.trigger)] &&
            rest == Nodes(r, Successors(r.wf, t.id, None), v, h, 0) &&
            var out := Execute(r, h);
            out.view == rest.view && out.err == rest.err && out.calls == rest.calls &&
            out.log == [Entry(t.id, t.title, Success, r.trigger, v, Some(Obj(r.trigger)), None, 0)] + rest.log
  {
    var t := FindTrigger(r.wf).value;
    v := TriggerView(r, t);
    rest := Nodes(r, Successors(r.wf, t.id, None), v, h, 0);
    DefaultsAre(r.wf.variables);
    assert TriggerOut(r, t).calls + rest.calls == rest.calls;
  }

  // ---- what later nodes read ----

  lemma {:induction false} NoDotAt(s: string, rest: string)
    requires '.' !in s && (rest == "" || rest[0] == '.')
    ensures DotAt(s + rest) == |s|
    decreases |s|
  {
    if s == "" {
      assert s + rest == rest;
    } else {
      assert (s + rest)[1..] == s[1..] + rest;
      NoDotAt(s[1..], rest);
    }
  }

  lemma NodePrefix(path: string, rest: string)
    requires path == "nodes." + rest
    ensures path != "" && !StartsWith(path, "vars.") && StartsWith(path, "nodes.") && path[6..] == rest
  {
    assert path[0] == 'n';
  }

  lemma NodePathReads(path: string, rest: string, v: View, trigger: Dict)
    requires path != "" && !StartsWith(path, "vars.") && StartsWith(path, "nodes.") && path[6..] == rest
    ensures var dot := DotAt(rest);
            var output := Get(v.outputs, rest[..dot]);
            ResolveValue(path, v, trigger) ==
            if dot < |rest| && output.Obj? then GetPath(output, Parse(rest[dot + 1..])) else output
  {
  }

  lemma KeyIsRead(d: Dict, k: string)
    requires IsPlainKey(k)
    ensures GetPath(Obj(d), Parse(k)) == Get(d, k)
  {
    PlainKey(k);
  }

  /** `nodes.` and the id of a node reads the output stored for it. */
  lemma StoredOutputIsRead(v: View, n: Node, output: Json, trigger: Dict)
    requires '.' !in n.id
    ensures ResolveValue("nodes." + n.id, Store(v, n, output), trigger) == output
  {
    NodePrefix("nodes." + n.id, n.id);
    NodePathReads("nodes." + n.id, n.id, Store(v, n, output), trigger);
    NoDotAt(n.id, "");
    assert n.id + "" == n.id && n.id[..|n.id|] == n.id;
  }

  /** With a key after the id it reads one of its entries. */
  lemma StoredEntryIsRead(v: View, n: Node, fields: Dict, k: string, trigger: Dict)
    requires '.' !in n.id && IsPlainKey(k)
    ensures ResolveValue("nodes." + (n.id + ("." + k)), Store(v, n, Obj(fields)), trigger) == Get(fields, k)
  {
    var rest := n.id + ("." + k);
    NodePrefix("nodes." + rest, rest);
    NodePathReads("nodes." + rest, rest, Store(v, n, Obj(fields)), trigger);
    NoDotAt(n.id, "." + k);
    assert rest[..|n.id|] == n.id && rest[|n.id| + 1..] == k;
    KeyIsRead(fields, k);
  }

  /** The other places that a path can name: variables, the trigger data, the item of a
      batch, and the data, which a path without such a name reads as well. */
  lemma WherePathsRead(v: View, k: string, trigger: Dict)
    requires IsPlainKey(k)
    ensures ResolveValue("vars." + k, v, trigger) == Get(v.vars, k)
    ensures ResolveValue("trigger." + k, v, trigger) == Get(trigger, k)
    ensures ResolveValue("data." + k, v, trigger) == Get(v.data, k)
    ensures ResolveValue(k, v, trigger) == Get(v.data, k)
    ensures ResolveValue("item." + k, v, trigger) ==
            if Get(v.vars, "batch_item").Obj? then Get(Get(v.vars, "batch_item").fields, k) else Null
    ensures ResolveValue("", v, trigger) == Null
  {
    VariableIsRead("vars." + k, v, k, trigger);
    TriggerIsRead("trigger." + k, v, k, trigger);
    ItemIsRead("item." + k, v, k, trigger);
    DataIsRead("data." + k, v, k, trigger);
    KeyIsRead(v.data, k);
    NotPrefix(k, "vars.");
    NotPrefix(k, "nodes.");
    NotPrefix(k, "trigger.");
    NotPrefix(k, "item.");
    NotPrefix(k, "data.");
  }

  lemma NotPrefix(k: string, prefix: string)
    requires '.' in prefix
    ensures prefix <= k ==> '.' in k
  {
    var i :| 0 <= i < |prefix| && prefix[i] == '.';
    if prefix <= k { assert k[i] == '.'; }
  }

  lemma VariableIsRead(path: string, v: View, k: string, trigger: Dict)
    requires path == "vars." + k && IsPlainKey(k)
    ensures ResolveValue(path, v, trigger) == Get(v.vars, k)
  {
    assert path[5..] == k && "vars." <= path;
    KeyIsRead(v.vars, k);
  }

  lemma TriggerIsRead(path: string, v: View, k: string, trigger: Dict)
    requires path == "trigger." + k && IsPlainKey(k)
    ensures ResolveValue(path, v, trigger) == Get(trigger, k)
  {
    assert path[0] == 't' && path[8..] == k && "trigger." <= path;
    KeyIsRead(trigger, k);
  }

  lemma ItemIsRead(path: string, v: View, k: string, trigger: Dict)
    requires path == "item." + k && IsPlainKey(k)
    ensures ResolveValue(path, v, trigger) ==
            if Get(v.vars, "batch_item").Obj? then Get(Get(v.vars, "batch_item").fields, k) else Null
  {
    assert path[0] == 'i' && path[5..] == k && "item." <= path;
    if Get(v.vars, "batch_item").Obj? { KeyIsRead(Get(v.vars, "batch_item").fields, k); }
  }

  lemma DataIsRead(path: string, v: View, k: string, trigger: Dict)
    requires path == "data." + k && IsPlainKey(k)
    ensures ResolveValue(path, v, trigger) == Get(v.data, k)
  {
    assert path[0] == 'd' && path[5..] == k && "data." <= path;
    KeyIsRead(v.data, k);
  }
}
