/** Concurrent items and branches: coroutines that share the connectors and the node
    results, at most `limit` of them running, interleaved in any way at their connector
    calls.

    A suspended coroutine is known by the calls it has made. What it does next is found
    by running it again against a world that answers those calls as recorded and suspends
    at the next one. */
module Scheduler {
  import opened Json
  import opened WorkflowGraph
  import opened WorkflowEngine
  import opened EngineReplay
  import opened EngineCausality
  import opened EngineRecords

  /** The run of a coroutine, given the calls it has made. */
  type Job = seq<Call> -> Out

  datatype Task = Waiting | Active(made: seq<Call>) | Finished(out: Out)

  /** The tasks, the shared node results, and all calls in the order they were made. */
  datatype Sys = Sys(tasks: seq<Task>, log: seq<Entry>, hist: seq<Call>)

  datatype Event = Acquire(i: nat) | Call1(i: nat) | Complete(i: nat)

  function Running(tasks: seq<Task>): nat {
    if tasks == [] then 0
    else Running(tasks[..|tasks| - 1]) + (if tasks[|tasks| - 1].Active? then 1 else 0)
  }

  predicate Enabled(jobs: seq<Job>, limit: nat, s: Sys, e: Event) {
    |jobs| == |s.tasks| && e.i < |s.tasks| &&
    var t := s.tasks[e.i];
    match e
    case Acquire(_) => t.Waiting? && Running(s.tasks) < limit
    case Call1(i) => t.Active? && |t.made| < |jobs[i](t.made).calls|
    case Complete(i) => t.Active? && |t.made| >= |jobs[i](t.made).calls|
  }

  /** One step of the event loop; the reply may depend on everything called before. */
  function Step(w: World, jobs: seq<Job>, limit: nat, s: Sys, e: Event): Sys
    requires Enabled(jobs, limit, s, e)
  {
    match e
    case Acquire(i) => s.(tasks := s.tasks[i := Active([])])
    case Call1(i) =>
      var made := s.tasks[i].made;
      var request := jobs[i](made).calls[|made|].request;
      var c := Call(request, w.leaf(s.hist, request));
      s.(tasks := s.tasks[i := Active(made + [c])], hist := s.hist + [c])
    case Complete(i) =>
      var out := jobs[i](s.tasks[i].made);
      s.(tasks := s.tasks[i := Finished(out)], log := s.log + out.log)
  }

  function Initial(n: nat): Sys {
    Sys(seq(n, _ => Waiting), [], [])
  }

  /** A schedule whose every event is enabled when it happens. */
  predicate Feasible(w: World, jobs: seq<Job>, limit: nat, s: Sys, es: seq<Event>)
    decreases |es|
  {
    es == [] || (Enabled(jobs, limit, s, es[0]) && Feasible(w, jobs, limit, Step(w, jobs, limit, s, es[0]), es[1..]))
  }

  function After(w: World, jobs: seq<Job>, limit: nat, s: Sys, es: seq<Event>): Sys
    requires Feasible(w, jobs, limit, s, es)
    decreases |es|
  {
    if es == [] then s else After(w, jobs, limit, Step(w, jobs, limit, s, es[0]), es[1..])
  }

  // ---- coroutines with a run of their own ----

  /** Run alone, the coroutine does `pure`: suspended after `k` calls it makes call `k`
      of that run, and the connectors answer as they do in it. */
  ghost predicate Follows(w: World, job: Job, pure: Out) {
    job(pure.calls) == pure &&
    forall k :: 0 <= k < |pure.calls| ==> FollowsAt(w, job, pure, k)
  }

  ghost predicate FollowsAt(w: World, job: Job, pure: Out, k: nat)
    requires k < |pure.calls|
  {
    var x := job(pure.calls[..k]);
    k < |x.calls| && x.calls[k].request == pure.calls[k].request &&
    forall h :: w.leaf(h, pure.calls[k].request) == pure.calls[k].reply
  }

  ghost predicate AllFollow(w: World, jobs: seq<Job>, pures: seq<Out>) {
    |jobs| == |pures| && forall i :: 0 <= i < |jobs| ==> Follows(w, jobs[i], pures[i])
  }

  // ---- what every interleaving keeps ----

  ghost predicate TaskOk(t: Task, pure: Out) {
    (t.Active? ==> t.made <= pure.calls) && (t.Finished? ==> t.out == pure)
  }

  /** The results of the finished tasks. */
  function FinishedLogs(tasks: seq<Task>): multiset<Entry> {
    if tasks == [] then multiset{}
    else
      var last := tasks[|tasks| - 1];
      FinishedLogs(tasks[..|tasks| - 1]) + (if last.Finished? then multiset(last.out.log) else multiset{})
  }

  ghost predicate Inv(jobs: seq<Job>, pures: seq<Out>, limit: nat, s: Sys) {
    |s.tasks| == |jobs| == |pures| && Running(s.tasks) <= limit &&
    (forall i :: 0 <= i < |s.tasks| ==> TaskOk(s.tasks[i], pures[i])) &&
    multiset(s.log) == FinishedLogs(s.tasks)
  }

  lemma {:induction false} UpdateTask(tasks: seq<Task>, i: nat, t: Task)
    requires i < |tasks|
    ensures Running(tasks[i := t]) ==
            Running(tasks) - (if tasks[i].Active? then 1 else 0) + (if t.Active? then 1 else 0)
    ensures !tasks[i].Finished? ==>
              FinishedLogs(tasks[i := t]) ==
              FinishedLogs(tasks) + (if t.Finished? then multiset(t.out.log) else multiset{})
    decreases |tasks|
  {
    var k := |tasks| - 1;
    var tasks' := tasks[i := t];
    if i == k {
      assert tasks'[..k] == tasks[..k];
    } else {
      assert tasks'[..k] == tasks[..k][i := t];
      UpdateTask(tasks[..k], i, t);
    }
  }

  lemma {:induction false} NoneStarted(n: nat)
    ensures Running(seq(n, _ => Waiting)) == 0 && FinishedLogs(seq(n, _ => Waiting)) == multiset{}
  {
    if n > 0 {
      var tasks := seq(n, _ => Waiting);
      assert tasks[..n - 1] == seq(n - 1, _ => Waiting);
      NoneStarted(n - 1);
    }
  }

  lemma InitialInv(w: World, jobs: seq<Job>, pures: seq<Out>, limit: nat)
    requires AllFollow(w, jobs, pures)
    ensures Inv(jobs, pures, limit, Initial(|jobs|))
  {
    NoneStarted(|jobs|);
  }

  lemma StepInv(w: World, jobs: seq<Job>, pures: seq<Out>, limit: nat, s: Sys, e: Event)
    requires AllFollow(w, jobs, pures) && Inv(jobs, pures, limit, s) && Enabled(jobs, limit, s, e)
    ensures Inv(jobs, pures, limit, Step(w, jobs, limit, s, e))
  {
    var s' := Step(w, jobs, limit, s, e);
    var i := e.i;
    UpdateTask(s.tasks, i, s'.tasks[i]);
    TaskStays(w, jobs, pures, limit, s, e);
  }

  lemma TaskStays(w: World, jobs: seq<Job>, pures: seq<Out>, limit: nat, s: Sys, e: Event)
    requires AllFollow(w, jobs, pures) && Inv(jobs, pures, limit, s) && Enabled(jobs, limit, s, e)
    ensures TaskOk(Step(w, jobs, limit, s, e).tasks[e.i], pures[e.i])
    ensures e.Call1? ==> |s.tasks[e.i].made| < |pures[e.i].calls|
    ensures e.Complete? ==> |s.tasks[e.i].made| == |pures[e.i].calls|
  {
    var pure, job := pures[e.i], jobs[e.i];
    assert Follows(w, job, pure);
    if !e.Acquire? {
      var made := s.tasks[e.i].made;
      var k := |made|;
      assert made == pure.calls[..k];
      if k < |pure.calls| {
        assert FollowsAt(w, job, pure, k);
        assert pure.calls[..k] + [pure.calls[k]] == pure.calls[..k + 1];
      } else {
        assert made == pure.calls;
      }
    }
  }

  lemma {:induction false} AfterInv(w: World, jobs: seq<Job>, pures: seq<Out>, limit: nat, s: Sys, es: seq<Event>)
    requires AllFollow(w, jobs, pures) && Inv(jobs, pures, limit, s) && Feasible(w, jobs, limit, s, es)
    ensures Inv(jobs, pures, limit, After(w, jobs, limit, s, es))
    decreases |es|
  {
    if es != [] {
      StepInv(w, jobs, pures, limit, s, es[0]);
      AfterInv(w, jobs, pures, limit, Step(w, jobs, limit, s, es[0]), es[1..]);
    }
  }

  predicate Done(s: Sys) {
    forall i :: 0 <= i < |s.tasks| ==> s.tasks[i].Finished?
  }

  /** Every interleaving keeps at most `limit` coroutines running, and when all have
      finished, each has done exactly its own run and the shared results are theirs. */
  lemma EveryScheduleAgrees(w: World, jobs: seq<Job>, pures: seq<Out>, limit: nat, es: seq<Event>)
    requires AllFollow(w, jobs, pures) && Feasible(w, jobs, limit, Initial(|jobs|), es)
    ensures var s := After(w, jobs, limit, Initial(|jobs|), es);
            Running(s.tasks) <= limit && |s.tasks| == |pures| && multiset(s.log) == FinishedLogs(s.tasks) &&
            (Done(s) ==> forall i :: 0 <= i < |pures| ==> s.tasks[i] == Finished(pures[i]))
  {
    InitialInv(w, jobs, pures, limit);
    AfterInv(w, jobs, pures, limit, Initial(|jobs|), es);
    var s := After(w, jobs, limit, Initial(|jobs|), es);
    if Done(s) {
      forall i | 0 <= i < |pures| ensures s.tasks[i] == Finished(pures[i]) {
        assert TaskOk(s.tasks[i], pures[i]);
      }
    }
  }

  // ---- every schedule ends, and none gets stuck ----

  function WorkOf(t: Task, pure: Out): nat {
    match t
    case Waiting => |pure.calls| + 2
    case Active(made) => if |made| <= |pure.calls| then |pure.calls| - |made| + 1 else 0
    case Finished(_) => 0
  }

  function Work(tasks: seq<Task>, pures: seq<Out>): nat
    requires |tasks| == |pures|
  {
    if tasks == [] then 0
    else
      var k := |tasks| - 1;
      Work(tasks[..k], pures[..k]) + WorkOf(tasks[k], pures[k])
  }

  lemma {:induction false} UpdateWork(tasks: seq<Task>, pures: seq<Out>, i: nat, t: Task)
    requires |tasks| == |pures| && i < |tasks|
    ensures Work(tasks[i := t], pures) == Work(tasks, pures) - WorkOf(tasks[i], pures[i]) + WorkOf(t, pures[i])
    decreases |tasks|
  {
    var k := |tasks| - 1;
    if i == k {
      assert tasks[i := t][..k] == tasks[..k];
    } else {
      assert tasks[i := t][..k] == tasks[..k][i := t];
      UpdateWork(tasks[..k], pures[..k], i, t);
    }
  }

  /** Every step of every interleaving does one of a fixed number of things to do. */
  lemma StepWorks(w: World, jobs: seq<Job>, pures: seq<Out>, limit: nat, s: Sys, e: Event)
    requires AllFollow(w, jobs, pures) && Inv(jobs, pures, limit, s) && Enabled(jobs, limit, s, e)
    ensures Work(Step(w, jobs, limit, s, e).tasks, pures) == Work(s.tasks, pures) - 1
  {
    var s' := Step(w, jobs, limit, s, e);
    UpdateWork(s.tasks, pures, e.i, s'.tasks[e.i]);
    TaskStays(w, jobs, pures, limit, s, e);
  }

  lemma {:induction false} ScheduleLength(w: World, jobs: seq<Job>, pures: seq<Out>, limit: nat, s: Sys, es: seq<Event>)
    requires AllFollow(w, jobs, pures) && Inv(jobs, pures, limit, s) && Feasible(w, jobs, limit, s, es)
    ensures Inv(jobs, pures, limit, After(w, jobs, limit, s, es))
    ensures Work(After(w, jobs, limit, s, es).tasks, pures) == Work(s.tasks, pures) - |es|
    decreases |es|
  {
    if es != [] {
      StepInv(w, jobs, pures, limit, s, es[0]);
      StepWorks(w, jobs, pures, limit, s, es[0]);
      ScheduleLength(w, jobs, pures, limit, Step(w, jobs, limit, s, es[0]), es[1..]);
    }
  }

  lemma {:induction false} SomeRuns(tasks: seq<Task>) returns (i: nat)
    requires Running(tasks) > 0
    ensures i < |tasks| && tasks[i].Active?
    decreases |tasks|
  {
    var k := |tasks| - 1;
    if tasks[k].Active? { i := k; } else { i := SomeRuns(tasks[..k]); }
  }

  /** While some coroutine has not finished, something can happen, if the limit lets
      any of them run at all. */
  lemma NeverStuck(jobs: seq<Job>, pures: seq<Out>, limit: nat, s: Sys) returns (e: Event)
    requires |s.tasks| == |jobs| && limit > 0 && !Done(s)
    ensures Enabled(jobs, limit, s, e)
  {
    if Running(s.tasks) > 0 {
      var i := SomeRuns(s.tasks);
      e := if |s.tasks[i].made| < |jobs[i](s.tasks[i].made).calls| then Call1(i) else Complete(i);
    } else {
      var i :| 0 <= i < |s.tasks| && !s.tasks[i].Finished?;
      if s.tasks[i].Active? { SomeIsRunning(s.tasks, i); }
      e := Acquire(i);
    }
  }

  lemma {:induction false} SomeIsRunning(tasks: seq<Task>, i: nat)
    requires i < |tasks| && tasks[i].Active?
    ensures Running(tasks) > 0
    decreases |tasks|
  {
    var k := |tasks| - 1;
    if i < k { SomeIsRunning(tasks[..k], i); }
  }

  // ---- the order of the results ----

  /** Coroutines start in index order, as an `asyncio.Semaphore` lets them. */
  predicate Fifo(w: World, jobs: seq<Job>, limit: nat, s: Sys, es: seq<Event>)
    requires Feasible(w, jobs, limit, s, es)
    decreases |es|
  {
    es == [] ||
    ((es[0].Acquire? ==> AllStarted(s.tasks[..es[0].i])) &&
     Fifo(w, jobs, limit, Step(w, jobs, limit, s, es[0]), es[1..]))
  }

  predicate AllStarted(tasks: seq<Task>) {
    forall i :: 0 <= i < |tasks| ==> !tasks[i].Waiting?
  }

  predicate StartedInOrder(tasks: seq<Task>) {
    forall i, j :: 0 <= i < j < |tasks| && !tasks[j].Waiting? ==> !tasks[i].Waiting?
  }

  /** The results of the runs that have not finished, in index order. */
  function Unfinished(tasks: seq<Task>, pures: seq<Out>): seq<seq<Entry>>
    requires |tasks| == |pures|
  {
    if tasks == [] then []
    else
      var k := |tasks| - 1;
      Unfinished(tasks[..k], pures[..k]) + (if tasks[k].Finished? then [] else [pures[k].log])
  }

  lemma WithoutInFront<T>(s: seq<T>, more: seq<T>, i: nat)
    requires i < |s|
    ensures Without(s + more, i) == Without(s, i) + more
  {
  }

  /** Where the results of task `i` are among them. */
  function Place(tasks: seq<Task>, pures: seq<Out>, i: nat): nat
    requires |tasks| == |pures| && i < |tasks|
  {
    |Unfinished(tasks[..i], pures[..i])|
  }

  lemma {:induction false} FinishOne(tasks: seq<Task>, pures: seq<Out>, i: nat, t: Task)
    requires |tasks| == |pures| && i < |tasks| && !tasks[i].Finished?
    ensures var all, place := Unfinished(tasks, pures), Place(tasks, pures, i);
            place < |all| && all[place] == pures[i].log &&
            Unfinished(tasks[i := t], pures) == if t.Finished? then Without(all, place) else all
    decreases |tasks|
  {
    var k := |tasks| - 1;
    var front, last := Unfinished(tasks[..k], pures[..k]), if tasks[k].Finished? then [] else [pures[k].log];
    var after := tasks[i := t];
    assert Unfinished(tasks, pures) == front + last;
    if i == k {
      assert after[..k] == tasks[..k];
    } else {
      assert after[..k] == tasks[..k][i := t];
      assert Unfinished(after, pures) == Unfinished(after[..k], pures[..k]) + last;
      assert tasks[..k][..i] == tasks[..i] && pures[..k][..i] == pures[..i];
      FinishOne(tasks[..k], pures[..k], i, t);
      WithoutInFront(front, last, Place(tasks, pures, i));
    }
  }

  lemma {:induction false} StartedAreRunning(tasks: seq<Task>, pures: seq<Out>)
    requires |tasks| == |pures| && AllStarted(tasks)
    ensures |Unfinished(tasks, pures)| == Running(tasks)
  {
    if tasks != [] { StartedAreRunning(tasks[..|tasks| - 1], pures[..|tasks| - 1]); }
  }

  lemma {:induction false} FewerRunning(tasks: seq<Task>, i: nat)
    requires i <= |tasks|
    ensures Running(tasks[..i]) <= Running(tasks)
    decreases |tasks|
  {
    if i < |tasks| {
      assert tasks[..|tasks| - 1][..i] == tasks[..i];
      FewerRunning(tasks[..|tasks| - 1], i);
    } else {
      assert tasks[..i] == tasks;
    }
  }

  /** Only running tasks come before a running one. */
  lemma PlaceIsRunning(tasks: seq<Task>, pures: seq<Out>, i: nat)
    requires |tasks| == |pures| && i < |tasks| && tasks[i].Active? && StartedInOrder(tasks)
    ensures Place(tasks, pures, i) < Running(tasks)
  {
    StartedAreRunning(tasks[..i], pures[..i]);
    assert tasks[..i + 1][..i] == tasks[..i];
    FewerRunning(tasks, i + 1);
  }

  lemma {:induction false} NoneUnfinished(tasks: seq<Task>, pures: seq<Out>)
    requires |tasks| == |pures| && forall i :: 0 <= i < |tasks| ==> tasks[i].Finished?
    ensures Unfinished(tasks, pures) == []
  {
    if tasks != [] { NoneUnfinished(tasks[..|tasks| - 1], pures[..|tasks| - 1]); }
  }

  /** Only what is picked for the numbers of parts up to all of them matters. */
  lemma {:induction false} ArrangeSame(pick: nat -> nat, pick': nat -> nat, window: nat, parts: seq<seq<Entry>>)
    requires window > 0 && forall left :: 0 < left <= |parts| ==> pick(left) == pick'(left)
    ensures Arrange(pick, window, parts) == Arrange(pick', window, parts)
    decreases |parts|
  {
    if parts != [] { ArrangeSame(pick, pick', window, Without(parts, Pick(pick, window, |parts|))); }
  }

  function PickFirst(place: nat, all: nat, rest: nat -> nat): nat -> nat {
    left => if left == all then place else rest(left)
  }

  lemma ArrangeNext(place: nat, rest: nat -> nat, window: nat, parts: seq<seq<Entry>>)
    requires place < |parts| && place < window
    ensures Arrange(PickFirst(place, |parts|, rest), window, parts) ==
            parts[place] + Arrange(rest, window, Without(parts, place))
  {
    var pick := PickFirst(place, |parts|, rest);
    assert Pick(pick, window, |parts|) == place;
    ArrangeSame(pick, rest, window, Without(parts, place));
  }

  lemma LogArranges(log: seq<Entry>, place: nat, rest: nat -> nat, window: nat, parts: seq<seq<Entry>>)
    requires place < |parts| && place < window
    ensures log + parts[place] + Arrange(rest, window, Without(parts, place)) ==
            log + Arrange(PickFirst(place, |parts|, rest), window, parts)
  {
    ArrangeNext(place, rest, window, parts);
  }

  lemma StepInOrder(w: World, jobs: seq<Job>, limit: nat, s: Sys, e: Event)
    requires Enabled(jobs, limit, s, e) && StartedInOrder(s.tasks) && (e.Acquire? ==> AllStarted(s.tasks[..e.i]))
    ensures StartedInOrder(Step(w, jobs, limit, s, e).tasks)
  {
    var tasks := Step(w, jobs, limit, s, e).tasks;
    forall i, j | 0 <= i < j < |tasks| && !tasks[j].Waiting? ensures !tasks[i].Waiting? {
      if e.Acquire? && j == e.i { assert !s.tasks[..e.i][i].Waiting?; }
    }
  }

  /** What the log gains by one step, if any. */
  lemma StepLog(w: World, jobs: seq<Job>, pures: seq<Out>, limit: nat, s: Sys, e: Event)
    requires AllFollow(w, jobs, pures) && Inv(jobs, pures, limit, s) && Enabled(jobs, limit, s, e) &&
             StartedInOrder(s.tasks)
    ensures var s', all := Step(w, jobs, limit, s, e), Unfinished(s.tasks, pures);
            if e.Complete? then
              var place := Place(s.tasks, pures, e.i);
              place < |all| && place < limit && s'.log == s.log + all[place] &&
              Unfinished(s'.tasks, pures) == Without(all, place)
            else s'.log == s.log && Unfinished(s'.tasks, pures) == all
  {
    var s' := Step(w, jobs, limit, s, e);
    TaskStays(w, jobs, pures, limit, s, e);
    FinishOne(s.tasks, pures, e.i, s'.tasks[e.i]);
    if e.Complete? { PlaceIsRunning(s.tasks, pures, e.i); }
  }

  /** For every schedule that starts coroutines in index order, the results come in an
      order in which a batch with that window may append them. */
  lemma {:induction false} ScheduleArranges(w: World, jobs: seq<Job>, pures: seq<Out>, limit: nat, s: Sys,
                                            es: seq<Event>)
      returns (pick: nat -> nat)
    requires AllFollow(w, jobs, pures) && Inv(jobs, pures, limit, s) && StartedInOrder(s.tasks) && limit > 0
    requires Feasible(w, jobs, limit, s, es) && Fifo(w, jobs, limit, s, es) && Done(After(w, jobs, limit, s, es))
    ensures After(w, jobs, limit, s, es).log == s.log + Arrange(pick, limit, Unfinished(s.tasks, pures))
    decreases |es|
  {
    if es == [] {
      pick := _ => 0;
      NoneUnfinished(s.tasks, pures);
    } else {
      var s' := Step(w, jobs, limit, s, es[0]);
      StepInv(w, jobs, pures, limit, s, es[0]);
      StepInOrder(w, jobs, limit, s, es[0]);
      StepLog(w, jobs, pures, limit, s, es[0]);
      pick := ScheduleArranges(w, jobs, pures, limit, s', es[1..]);
      if es[0].Complete? {
        var all, place := Unfinished(s.tasks, pures), Place(s.tasks, pures, es[0].i);
        LogArranges(s.log, place, pick, limit, all);
        pick := PickFirst(place, |all|, pick);
      }
    }
  }

  function LogsOf(pures: seq<Out>): (logs: seq<seq<Entry>>)
    ensures |logs| == |pures| && forall i :: 0 <= i < |pures| ==> logs[i] == pures[i].log
  {
    seq(|pures|, i requires 0 <= i < |pures| => pures[i].log)
  }

  lemma {:induction false} AllUnfinished(pures: seq<Out>)
    ensures Unfinished(seq(|pures|, _ => Waiting), pures) == LogsOf(pures)
    decreases |pures|
  {
    if pures != [] {
      var k := |pures| - 1;
      AllUnfinished(pures[..k]);
      assert seq(k + 1, _ => Waiting)[..k] == seq(k, _ => Waiting);
      assert LogsOf(pures) == LogsOf(pures[..k]) + [pures[k].log];
    }
  }

  // ---- the engine's coroutines ----

  const SUSPENDED := Raised("suspended", map[], map[])

  /** Answers the calls made so far as recorded, and suspends at the next one. */
  function ReplayWorld(w: World, made: seq<Call>): World {
    w.(leaf := (h: seq<Call>, q: Request) =>
         if |h| >= |made| then SUSPENDED
         else if made[|h|].request == q then made[|h|].reply
         else w.leaf(h, q))
  }

  /** The connectors give this reply to this request, whatever was called before. */
  ghost predicate Determined(w: World, c: Call) {
    forall h :: w.leaf(h, c.request) == c.reply
  }

  lemma ReplayAgrees(r: Run, made: seq<Call>)
    requires Sound(r) && forall i :: 0 <= i < |made| ==> Determined(r.w, made[i])
    ensures var s := r.(w := ReplayWorld(r.w, made)); EngineCausality.Pair(r, s, |made|, []) && Sound(s)
  {
    var s := r.(w := ReplayWorld(r.w, made));
    forall h, q | |h| < |made| ensures r.w.leaf(h, q) == s.w.leaf(h, q) {
      assert Determined(r.w, made[|h|]);
    }
    assert s == r.(w := s.w);
  }

  lemma CallsAreDetermined(r: Run, out: Out)
    requires Deterministic(r.w) && Records(r, [], out)
    ensures forall i :: 0 <= i < |out.calls| ==> Determined(r.w, out.calls[i])
  {
    forall i | 0 <= i < |out.calls| ensures Determined(r.w, out.calls[i]) {
      assert AnsweredAt(r.w, [], out.calls, i);
    }
  }

  /** A batch item, run alone from the context the batch started with. */
  ghost function ItemAlone(r: Run, n: Node, v: View, items: seq<Json>, i: nat, d: nat): Out
    requires Sound(r) && n.kind.Batch? && i < |items|
  {
    RunBody(r, BatchNodes(r, n), ItemView(v, items[i], i), [], d)
  }

  ghost function ItemJob(r: Run, n: Node, v: View, items: seq<Json>, i: nat, d: nat): Job
    requires Sound(r) && n.kind.Batch? && i < |items|
  {
    (made: seq<Call>) => ItemAlone(r.(w := ReplayWorld(r.w, made)), n, v, items, i, d)
  }

  lemma ItemFollows(r: Run, n: Node, v: View, items: seq<Json>, i: nat, d: nat)
    requires Sound(r) && Deterministic(r.w) && n.kind.Batch? && i < |items|
    ensures Follows(r.w, ItemJob(r, n, v, items, i, d), ItemAlone(r, n, v, items, i, d))
  {
    var body, view := BatchNodes(r, n), ItemView(v, items[i], i);
    var pure, job := ItemAlone(r, n, v, items, i, d), ItemJob(r, n, v, items, i, d);
    RunBodyRecords(r, body, view, [], d);
    CallsAreDetermined(r, pure);
    forall k | 0 <= k <= |pure.calls|
      ensures k == |pure.calls| ==> job(pure.calls[..k]) == pure
      ensures k < |pure.calls| ==> FollowsAt(r.w, job, pure, k)
    {
      var made := pure.calls[..k];
      ReplayAgrees(r, made);
      RunBodyCausal(r, r.(w := ReplayWorld(r.w, made)), k, body, view, [], d);
      if k < |pure.calls| { assert Determined(r.w, pure.calls[k]); }
    }
    assert pure.calls[..|pure.calls|] == pure.calls;
  }

  ghost function ItemsAlone(r: Run, n: Node, v: View, items: seq<Json>, d: nat): (outs: seq<Out>)
    requires Sound(r) && n.kind.Batch?
    ensures |outs| == |items| && forall i :: 0 <= i < |items| ==> outs[i] == ItemAlone(r, n, v, items, i, d)
  {
    seq(|items|, i requires 0 <= i < |items| => ItemAlone(r, n, v, items, i, d))
  }

  ghost function ItemJobs(r: Run, n: Node, v: View, items: seq<Json>, d: nat): (jobs: seq<Job>)
    requires Sound(r) && n.kind.Batch?
    ensures |jobs| == |items| && forall i :: 0 <= i < |items| ==> jobs[i] == ItemJob(r, n, v, items, i, d)
  {
    seq(|items|, i requires 0 <= i < |items| => ItemJob(r, n, v, items, i, d))
  }

  /** The result of each finished item, in index order, as `asyncio.gather` gives them. */
  function Gathered(v: View, items: seq<Json>, s: Sys): (rs: seq<ItemResult>)
    requires |s.tasks| == |items| && Done(s)
    ensures |rs| == |items|
  {
    seq(|items|, i requires 0 <= i < |items| => ItemResultOf(v, items[i], i, s.tasks[i].out))
  }

  /** The result and the node results are those of item `k` run alone. */
  ghost predicate OfItem(r: Run, n: Node, v: View, items: seq<Json>, d: nat, k: nat, result: ItemResult,
                         part: seq<Entry>)
    requires Sound(r) && n.kind.Batch? && k < |items|
  {
    var alone := ItemAlone(r, n, v, items, k, d);
    result == ItemResultOf(v, items[k], k, alone) && SameLogs(r.wf, part, alone.log)
  }

  ghost predicate OfItems(r: Run, n: Node, v: View, items: seq<Json>, d: nat, i: nat, x: BatchRun)
    requires Sound(r) && n.kind.Batch? && i <= |items|
  {
    |x.results| == |x.parts| == |items| - i &&
    forall j :: 0 <= j < |x.results| ==> OfItem(r, n, v, items, d, i + j, x.results[j], x.parts[j])
  }

  lemma OfItemsOn(r: Run, n: Node, v: View, items: seq<Json>, d: nat, i: nat, a: Out, result: ItemResult,
                  rest: BatchRun)
    requires Sound(r) && n.kind.Batch? && i < |items| && OfItem(r, n, v, items, d, i, result, a.log)
    requires OfItems(r, n, v, items, d, i + 1, rest)
    ensures OfItems(r, n, v, items, d, i, Prepend(a, result, rest))
  {
    var x := Prepend(a, result, rest);
    forall j | 0 <= j < |x.results| ensures OfItem(r, n, v, items, d, i + j, x.results[j], x.parts[j]) {
      if j > 0 { assert OfItem(r, n, v, items, d, i + 1 + (j - 1), rest.results[j - 1], rest.parts[j - 1]); }
    }
  }

  lemma {:induction false} ProcessIsAlone(r: Run, n: Node, items: seq<Json>, i: nat, v: View, h: seq<Call>, d: nat)
    requires Sound(r) && Deterministic(r.w) && IsNode(r.wf, n) && n.kind.Batch? && !n.kind.stopOnItemError &&
             i <= |items|
    ensures OfItems(r, n, v, items, d, i, Process(r, n, items, i, v, h, d))
    decreases |items| - i
  {
    if i < |items| {
      var a := RunBody(r, BatchNodes(r, n), ItemView(v, items[i], i), h, d);
      SameRunBody(r, r, BatchNodes(r, n), ItemView(v, items[i], i), h, [], d, d);
      ProcessIsAlone(r, n, items, i + 1, v, h + a.calls, d);
      OfItemsOn(r, n, v, items, d, i, a, ItemResultOf(v, items[i], i, a),
                Process(r, n, items, i + 1, v, h + a.calls, d));
    }
  }

  lemma ItemsFollow(r: Run, n: Node, v: View, items: seq<Json>, d: nat)
    requires Sound(r) && Deterministic(r.w) && n.kind.Batch?
    ensures AllFollow(r.w, ItemJobs(r, n, v, items, d), ItemsAlone(r, n, v, items, d))
  {
    var jobs, pures := ItemJobs(r, n, v, items, d), ItemsAlone(r, n, v, items, d);
    forall i | 0 <= i < |jobs| ensures Follows(r.w, jobs[i], pures[i]) { ItemFollows(r, n, v, items, i, d); }
  }

  lemma GatheredIsSequential(r: Run, n: Node, v: View, items: seq<Json>, h: seq<Call>, d: nat, s: Sys)
    requires Sound(r) && Deterministic(r.w) && IsNode(r.wf, n) && n.kind.Batch? && !n.kind.stopOnItemError
    requires |s.tasks| == |items| && Done(s)
    requires forall i :: 0 <= i < |items| ==> s.tasks[i] == Finished(ItemsAlone(r, n, v, items, d)[i])
    ensures Gathered(v, items, s) == Process(r, n, items, 0, v, h, d).results
    ensures FinishedLogs(s.tasks) == Total(Process(r, n, items, 0, v, h, d).parts)
  {
    ProcessIsAlone(r, n, items, 0, v, h, d);
    var x := Process(r, n, items, 0, v, h, d);
    forall i | 0 <= i < |items|
      ensures Gathered(v, items, s)[i] == x.results[i] && multiset(x.parts[i]) == multiset(s.tasks[i].out.log)
    {
      assert OfItem(r, n, v, items, d, 0 + i, x.results[i], x.parts[i]);
    }
    FinishedIsTotal(s.tasks, x.parts);
  }

  lemma {:induction false} TotalOn(parts: seq<seq<Entry>>, last: seq<Entry>)
    ensures Total(parts + [last]) == Total(parts) + multiset(last)
  {
    if parts != [] {
      TotalOn(parts[1..], last);
      assert (parts + [last])[1..] == parts[1..] + [last];
    }
  }

  lemma {:induction false} FinishedIsTotal(tasks: seq<Task>, parts: seq<seq<Entry>>)
    requires |tasks| == |parts| && forall i :: 0 <= i < |tasks| ==> tasks[i].Finished?
    requires forall i :: 0 <= i < |tasks| ==> multiset(parts[i]) == multiset(tasks[i].out.log)
    ensures FinishedLogs(tasks) == Total(parts)
    decreases |tasks|
  {
    if tasks != [] {
      var k := |tasks| - 1;
      FinishedIsTotal(tasks[..k], parts[..k]);
      TotalOn(parts[..k], parts[k]);
      assert parts == parts[..k] + [parts[k]];
    }
  }

  /** A continue-mode batch gives the same item results, in index order, and the same node
      results, in some order, for every interleaving of its items: those of running the
      items one after the other. */
  lemma BatchIsScheduleIndependent(r: Run, n: Node, v: View, items: seq<Json>, h: seq<Call>, d: nat, limit: nat,
                                   es: seq<Event>)
    requires Sound(r) && Deterministic(r.w) && IsNode(r.wf, n) && n.kind.Batch? && !n.kind.stopOnItemError
    requires Feasible(r.w, ItemJobs(r, n, v, items, d), limit, Initial(|items|), es)
    ensures var s := After(r.w, ItemJobs(r, n, v, items, d), limit, Initial(|items|), es);
            Running(s.tasks) <= limit && |s.tasks| == |items| &&
            (Done(s) ==>
               Gathered(v, items, s) == Process(r, n, items, 0, v, h, d).results &&
               multiset(s.log) == Total(Process(r, n, items, 0, v, h, d).parts))
  {
    ItemsFollow(r, n, v, items, d);
    var jobs := ItemJobs(r, n, v, items, d);
    EveryScheduleAgrees(r.w, jobs, ItemsAlone(r, n, v, items, d), limit, es);
    var s := After(r.w, jobs, limit, Initial(|items|), es);
    if Done(s) { GatheredIsSequential(r, n, v, items, h, d, s); }
  }

  /** And if its items start in index order, as the semaphore lets them, their results come
      in the order of some choice of which running item completes next: the interpreter's
      batches, for every `World.order`, leave out no schedule. */
  lemma BatchCompletesInSomeOrder(r: Run, n: Node, v: View, items: seq<Json>, h: seq<Call>, d: nat, limit: nat,
                                  es: seq<Event>) returns (pick: nat -> nat, parts: seq<seq<Entry>>)
    requires Sound(r) && Deterministic(r.w) && IsNode(r.wf, n) && n.kind.Batch? && !n.kind.stopOnItemError && limit > 0
    requires var jobs, s := ItemJobs(r, n, v, items, d), Initial(|items|);
             Feasible(r.w, jobs, limit, s, es) && Fifo(r.w, jobs, limit, s, es) && Done(After(r.w, jobs, limit, s, es))
    ensures After(r.w, ItemJobs(r, n, v, items, d), limit, Initial(|items|), es).log == Arrange(pick, limit, parts)
    ensures PartsMatch(r.wf, Process(r, n, items, 0, v, h, d).parts, parts)
  {
    var jobs, pures := ItemJobs(r, n, v, items, d), ItemsAlone(r, n, v, items, d);
    ItemsFollow(r, n, v, items, d);
    InitialInv(r.w, jobs, pures, limit);
    pick := ScheduleArranges(r.w, jobs, pures, limit, Initial(|items|), es);
    AllUnfinished(pures);
    parts := LogsOf(pures);
    ProcessParts(r, n, items, v, h, d);
  }

  lemma ProcessParts(r: Run, n: Node, items: seq<Json>, v: View, h: seq<Call>, d: nat)
    requires Sound(r) && Deterministic(r.w) && IsNode(r.wf, n) && n.kind.Batch? && !n.kind.stopOnItemError
    ensures PartsMatch(r.wf, Process(r, n, items, 0, v, h, d).parts, LogsOf(ItemsAlone(r, n, v, items, d)))
  {
    ProcessIsAlone(r, n, items, 0, v, h, d);
    var x, logs := Process(r, n, items, 0, v, h, d), LogsOf(ItemsAlone(r, n, v, items, d));
    forall i | 0 <= i < |items| ensures SameLogs(r.wf, x.parts[i], logs[i]) {
      assert OfItem(r, n, v, items, d, 0 + i, x.results[i], x.parts[i]);
    }
  }

  /** In continue mode an item may start exactly while fewer than `concurrency` of them, and
      fewer than 50, are running. */
  lemma StartsBelowTheConcurrency(k: Kind, jobs: seq<Job>, s: Sys, i: nat)
    requires k.Batch? && !k.stopOnItemError && k.concurrency >= 1
    requires |jobs| == |s.tasks| && i < |s.tasks| && s.tasks[i].Waiting?
    ensures Enabled(jobs, Window(k), s, Acquire(i)) <==> Running(s.tasks) < k.concurrency && Running(s.tasks) < 50
  {
  }

  /** Succeeded plus failed is the number of items. */
  lemma {:induction false} EveryItemCounts(rs: seq<ItemResult>)
    ensures |Outputs(rs)| + |Errors(rs)| == |rs|
  {
    if rs != [] { EveryItemCounts(rs[1..]); }
  }

  /** A branch of a parallel node, run alone. */
  ghost function BranchAlone(r: Run, s: Node, v: View, d: nat): Out
    requires Sound(r) && IsNode(r.wf, s)
  {
    Single(r, s, v, [], d + 1)
  }

  ghost function BranchJob(r: Run, s: Node, v: View, d: nat): Job
    requires Sound(r) && IsNode(r.wf, s)
  {
    (made: seq<Call>) => BranchAlone(r.(w := ReplayWorld(r.w, made)), s, v, d)
  }

  lemma BranchFollows(r: Run, s: Node, v: View, d: nat)
    requires Sound(r) && Deterministic(r.w) && IsNode(r.wf, s)
    ensures Follows(r.w, BranchJob(r, s, v, d), BranchAlone(r, s, v, d))
  {
    var pure, job := BranchAlone(r, s, v, d), BranchJob(r, s, v, d);
    SingleRecords(r, s, v, [], d + 1);
    CallsAreDetermined(r, pure);
    forall k | 0 <= k <= |pure.calls|
      ensures k == |pure.calls| ==> job(pure.calls[..k]) == pure
      ensures k < |pure.calls| ==> FollowsAt(r.w, job, pure, k)
    {
      var made := pure.calls[..k];
      ReplayAgrees(r, made);
      SingleCausal(r, r.(w := ReplayWorld(r.w, made)), k, s, v, [], d + 1);
      if k < |pure.calls| { assert Determined(r.w, pure.calls[k]); }
    }
    assert pure.calls[..|pure.calls|] == pure.calls;
  }

  ghost function BranchesAlone(r: Run, ss: seq<Node>, v: View, d: nat): (outs: seq<Out>)
    requires Sound(r) && forall s :: s in ss ==> IsNode(r.wf, s)
    ensures |outs| == |ss| && forall i :: 0 <= i < |ss| ==> outs[i] == BranchAlone(r, ss[i], v, d)
  {
    seq(|ss|, i requires 0 <= i < |ss| => BranchAlone(r, ss[i], v, d))
  }

  ghost function BranchJobs(r: Run, ss: seq<Node>, v: View, d: nat): (jobs: seq<Job>)
    requires Sound(r) && forall s :: s in ss ==> IsNode(r.wf, s)
    ensures |jobs| == |ss| && forall i :: 0 <= i < |ss| ==> jobs[i] == BranchJob(r, ss[i], v, d)
  {
    seq(|ss|, i requires 0 <= i < |ss| => BranchJob(r, ss[i], v, d))
  }

  /** The loop over the gathered branches: results by node id, and all node results. */
  function Collect(ss: seq<Node>, outs: seq<Out>): (Dict, seq<Entry>)
    requires |ss| == |outs|
  {
    if ss == [] then (map[], [])
    else
      var k := |ss| - 1;
      var (results, log) := Collect(ss[..k], outs[..k]);
      (results[ss[k].id := BranchOutput(ss[k], outs[k])], log + outs[k].log)
  }

  lemma {:induction false} ScatterIsAlone(r: Run, n: Node, ss: seq<Node>, v: View, h: seq<Call>, d: nat)
    requires Sound(r) && Deterministic(r.w) && IsNode(r.wf, n) && n.kind.Parallel?
    requires AreBranches(r, n, ss)
    ensures var x := Scatter(r, n, ss, v, h, d);
            var (results, log) := Collect(ss, BranchesAlone(r, ss, v, d));
            results == x.results && SameLogs(r.wf, log, x.log)
    decreases |ss|
  {
    if ss != [] {
      var k := |ss| - 1;
      ScatterIsAlone(r, n, ss[..k], v, h, d);
      assert BranchesAlone(r, ss, v, d)[..k] == BranchesAlone(r, ss[..k], v, d);
      ScatterGuards(r, n, ss, v, h, d);
      SameSingle(r, r, ss[k], v, h + Scatter(r, n, ss[..k], v, h, d).calls, [], d + 1, d + 1);
    }
  }

  function OutsOf(s: Sys): (outs: seq<Out>)
    requires Done(s)
    ensures |outs| == |s.tasks| && forall i :: 0 <= i < |outs| ==> outs[i] == s.tasks[i].out
  {
    seq(|s.tasks|, i requires 0 <= i < |s.tasks| => s.tasks[i].out)
  }

  /** A parallel node collects the same results and node results for every interleaving
      of its branches: those of running each branch alone on a copy of the context, in
      branch order, except that a concurrent batch within a branch orders its own. */
  lemma ParallelIsScheduleIndependent(r: Run, n: Node, v: View, h: seq<Call>, d: nat, limit: nat, es: seq<Event>)
    requires Sound(r) && Deterministic(r.w) && IsNode(r.wf, n) && n.kind.Parallel?
    requires var ss := Successors(r.wf, n.id, Some("branch"));
             Feasible(r.w, BranchJobs(r, ss, v, d), limit, Initial(|ss|), es) &&
             Done(After(r.w, BranchJobs(r, ss, v, d), limit, Initial(|ss|), es))
    ensures var ss := Successors(r.wf, n.id, Some("branch"));
            var s := After(r.w, BranchJobs(r, ss, v, d), limit, Initial(|ss|), es);
            var x := Scatter(r, n, ss, v, h, d);
            |s.tasks| == |ss| &&
            var (results, log) := Collect(ss, OutsOf(s));
            results == x.results && SameLogs(r.wf, log, x.log)
  {
    var ss := Successors(r.wf, n.id, Some("branch"));
    var jobs, pures := BranchJobs(r, ss, v, d), BranchesAlone(r, ss, v, d);
    forall i | 0 <= i < |jobs| ensures Follows(r.w, jobs[i], pures[i]) { BranchFollows(r, ss[i], v, d); }
    EveryScheduleAgrees(r.w, jobs, pures, limit, es);
    ScatterIsAlone(r, n, ss, v, h, d);
    var s := After(r.w, jobs, limit, Initial(|ss|), es);
    assert OutsOf(s) == pures;
  }
}
