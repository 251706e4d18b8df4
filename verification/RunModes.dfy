/** What the mode of a run can show: which nodes tell a dry run from a live one, and when
    two chains of workflows get the same answers from every check of a sub-workflow node. */
module RunModes {
  import opened Json
  import opened NestedPath
  import opened WorkflowGraph
  import opened WorkflowEngine
  import opened EngineRecords

  /** Nodes that call a connector when live and do not in a dry run. */
  predicate ReadsDryRun(k: Kind) {
    k.Action? || k.Think? || k.HttpRequest? || k.ErrorHandler?
  }

  /** All other computed nodes answer alike in dry runs and in live ones. */
  ghost predicate DryBlind(w: World) {
    forall h: seq<Call>, q: Request :: !ReadsDryRun(q.node.kind) ==> w.leaf(h, q) == w.leaf(h, q.(dryRun := !q.dryRun))
  }

  /** The workflows that can still be entered in this chain. */
  ghost function Left(w: World, chain: seq<string>): nat {
    |w.table.Keys - set id | id in chain|
  }

  lemma FewerLeft(w: World, chain: seq<string>, id: string)
    requires id in w.table && id !in chain
    ensures Left(w, chain + [id]) < Left(w, chain)
  {
    var before := w.table.Keys - set x | x in chain;
    assert w.table.Keys - (set x | x in chain + [id]) == before - {id};
  }

  /** No node of the workflow, or of any that it can enter from this chain, tells a dry
      run from a live one. */
  ghost predicate Unread(w: World, wf: Workflow, chain: seq<string>)
    decreases Left(w, chain), 1
  {
    forall n :: n in wf.nodes ==> !ReadsDryRun(n.kind) && (n.kind.SubWorkflow? ==> UnreadBelow(w, n.kind, chain))
  }

  ghost predicate UnreadBelow(w: World, k: Kind, chain: seq<string>)
    requires k.SubWorkflow?
    decreases Left(w, chain), 0
  {
    SubCheck(w, chain, k).None? ==>
      (FewerLeft(w, chain, k.workflowId);
       Unread(w, ChildOf(w, k.workflowId), chain + [k.workflowId]))
  }

  /** Every sub-workflow node, here and in the workflows entered, is checked alike in the
      two chains. */
  ghost predicate SameChecks(w: World, wf: Workflow, a: seq<string>, b: seq<string>)
    decreases Left(w, a), 1
  {
    forall n :: n in wf.nodes && n.kind.SubWorkflow? ==> SameCheck(w, n.kind, a, b)
  }

  ghost predicate SameCheck(w: World, k: Kind, a: seq<string>, b: seq<string>)
    requires k.SubWorkflow?
    decreases Left(w, a), 0
  {
    SubCheck(w, a, k) == SubCheck(w, b, k) &&
    (SubCheck(w, a, k).None? ==>
       (FewerLeft(w, a, k.workflowId);
        SameChecks(w, ChildOf(w, k.workflowId), a + [k.workflowId], b + [k.workflowId])))
  }

  // ---- a family of workflows that name only each other ----

  predicate NamesIn(w: World, wf: Workflow, ids: set<string>) {
    forall n :: n in wf.nodes && n.kind.SubWorkflow? && n.kind.workflowId in w.table ==> n.kind.workflowId in ids
  }

  /** Sub-workflow nodes of `wf` and of the workflows in `ids` lead only into `ids`. */
  predicate Family(w: World, wf: Workflow, ids: set<string>) {
    NamesIn(w, wf, ids) && forall id :: id in ids && id in w.table ==> NamesIn(w, w.table[id], ids)
  }

  predicate NoneReads(wf: Workflow) {
    forall n :: n in wf.nodes ==> !ReadsDryRun(n.kind)
  }

  /** No family member tells a dry run, so no run of the family does. */
  lemma {:induction false} UnreadInFamily(w: World, wf: Workflow, chain: seq<string>, ids: set<string>)
    requires Family(w, wf, ids) && NoneReads(wf) && forall id :: id in ids && id in w.table ==> NoneReads(w.table[id])
    ensures Unread(w, wf, chain)
    decreases Left(w, chain)
  {
    forall n | n in wf.nodes && n.kind.SubWorkflow? ensures UnreadBelow(w, n.kind, chain) {
      var id := n.kind.workflowId;
      if SubCheck(w, chain, n.kind).None? {
        FewerLeft(w, chain, id);
        UnreadInFamily(w, ChildOf(w, id), chain + [id], ids);
      }
    }
  }

  predicate LimitsAbove(wf: Workflow, m: nat) {
    forall n :: n in wf.nodes && n.kind.SubWorkflow? ==> m < NestingLimit(n.kind)
  }

  function LevelOf(level: map<string, nat>, id: string): nat {
    if id in level then level[id] else 0
  }

  /** Entering a sub-workflow goes down a level. */
  predicate Descends(w: World, wf: Workflow, level: map<string, nat>) {
    forall n :: n in wf.nodes && n.kind.SubWorkflow? && n.kind.workflowId in w.table ==>
      LevelOf(level, n.kind.workflowId) < LevelOf(level, wf.id)
  }

  /** A chain that starts somewhere and then visits members of the family once each, going
      down a level each time. */
  predicate Within(own: seq<string>, ids: set<string>, level: map<string, nat>) {
    own != [] && Distinct(own[1..]) && (forall i :: 1 <= i < |own| ==> own[i] in ids) &&
    forall c :: c in own ==> LevelOf(level, own[|own| - 1]) <= LevelOf(level, c)
  }

  lemma WithinIsShort(own: seq<string>, ids: set<string>, level: map<string, nat>, id: string)
    requires Within(own, ids, level) && id in ids && LevelOf(level, id) < LevelOf(level, own[|own| - 1])
    ensures id !in own && |own| <= |ids| && Within(own + [id], ids, level)
  {
    var rest := own[1..];
    assert forall i :: 0 <= i < |rest| ==> rest[i] == own[i + 1];
    DistinctIsSmall(rest, ids - {id});
    assert (own + [id])[1..] == rest + [id];
    StaysWithin(own, ids, level, id);
  }

  lemma StaysWithin(own: seq<string>, ids: set<string>, level: map<string, nat>, id: string)
    requires own != [] && id in ids && LevelOf(level, id) < LevelOf(level, own[|own| - 1])
    requires forall c :: c in own ==> LevelOf(level, own[|own| - 1]) <= LevelOf(level, c)
    ensures forall c :: c in own + [id] ==> LevelOf(level, id) <= LevelOf(level, c)
  {
  }

  /** No member of the family is in the chain above, no members enter each other in a
      circle, and even the longest chain through the family stays below every nesting limit. */
  predicate Apart(w: World, wf: Workflow, above: seq<string>, ids: set<string>, level: map<string, nat>) {
    (forall id :: id in ids ==> id !in above) && Fits(w, wf, |above| + |ids|, level) &&
    forall id :: id in ids && id in w.table ==> Fits(w, ChildOf(w, id), |above| + |ids|, level)
  }

  predicate Fits(w: World, wf: Workflow, m: nat, level: map<string, nat>) {
    Descends(w, wf, level) && LimitsAbove(wf, m)
  }

  lemma ChecksAgree(w: World, wf: Workflow, n: Node, above: seq<string>, own: seq<string>, ids: set<string>,
                    level: map<string, nat>)
    requires n in wf.nodes && n.kind.SubWorkflow? && NamesIn(w, wf, ids)
    requires Within(own, ids, level) && own[|own| - 1] == wf.id
    requires (forall id :: id in ids ==> id !in above) && Fits(w, wf, |above| + |ids|, level)
    ensures SubCheck(w, above + own, n.kind) == SubCheck(w, own, n.kind)
    ensures SubCheck(w, own, n.kind).None? ==> Within(own + [n.kind.workflowId], ids, level)
  {
    var id := n.kind.workflowId;
    if id in w.table { WithinIsShort(own, ids, level, id); }
  }

  /** Then the chain above a workflow goes unnoticed. */
  lemma {:induction false} ChainAboveUnnoticed(w: World, wf: Workflow, above: seq<string>, own: seq<string>,
                                               ids: set<string>, level: map<string, nat>)
    requires Family(w, wf, ids) && Apart(w, wf, above, ids, level)
    requires Within(own, ids, level) && own[|own| - 1] == wf.id
    ensures SameChecks(w, wf, above + own, own)
    decreases Left(w, above + own)
  {
    forall n | n in wf.nodes && n.kind.SubWorkflow? ensures SameCheck(w, n.kind, above + own, own) {
      var id := n.kind.workflowId;
      ChecksAgree(w, wf, n, above, own, ids, level);
      if SubCheck(w, own, n.kind).None? {
        FewerLeft(w, above + own, id);
        assert above + own + [id] == above + (own + [id]);
        ChainAboveUnnoticed(w, ChildOf(w, id), above, own + [id], ids, level);
      }
    }
  }

  // ---- chains show in messages ----

  lemma {:induction false} ArrowsGrow(above: seq<string>, own: seq<string>)
    requires above != [] && own != []
    ensures |Arrows(own)| < |Arrows(above + own)|
    decreases |own|
  {
    var all := above + own;
    assert all[|all| - 1] == own[|own| - 1] && all[..|all| - 1] == above + own[..|own| - 1];
    if |own| > 1 { ArrowsGrow(above, own[..|own| - 1]); }
  }

  lemma Appended(a: string, b: string, x: string, y: string)
    requires a + x + y == b + x + y
    ensures a == b
  {
    assert (a + x + y)[..|a|] == a;
    assert (b + x + y)[..|b|] == b;
    assert |a + x + y| == |b + x + y|;
  }

  lemma Prepended(s: string, a: string, b: string)
    requires s + a == s + b
    ensures a == b
  {
    assert (s + a)[|s|..] == a;
    assert (s + b)[|s|..] == b;
  }

  /** The same circle is reported differently under a longer chain. */
  lemma CirclesDiffer(above: seq<string>, own: seq<string>, id: string)
    requires above != [] && own != []
    ensures Circular(above + own, id) != Circular(own, id)
  {
    ArrowsGrow(above, own);
    if Circular(above + own, id) == Circular(own, id) {
      var s := "Circular sub-workflow reference detected: ";
      Appended(s + Arrows(above + own), s + Arrows(own), " -> ", id);
      Prepended(s, Arrows(above + own), Arrows(own));
      assert false;
    }
  }

  lemma MessagesDiffer(chain: seq<string>, id: string, limit: nat)
    ensures var c, d := Circular(chain, id), TooDeep(limit);
            c != "" && d != "" && c[0] == 'C' && d[0] == 'M'
  {
    var s, t := "Circular sub-workflow reference detected: ", "Maximum sub-workflow nesting depth (";
    assert s[0] == 'C' && t[0] == 'M';
    assert Circular(chain, id) == s + Arrows(chain) + " -> " + id;
    assert TooDeep(limit) == t + Decimal(limit) + ") exceeded";
  }

  /** One node's check in two chains that end alike. */
  lemma WhenChecksAgree(w: World, k: Kind, above: seq<string>, own: seq<string>)
    requires k.SubWorkflow? && k.workflowId != "" && k.workflowId in w.table && own != []
    ensures SubCheck(w, above + own, k) == SubCheck(w, own, k) <==>
            above == [] ||
            (k.workflowId !in above + own && (|above + own| >= NestingLimit(k) ==> |own| >= NestingLimit(k)))
  {
    var id := k.workflowId;
    if above == [] {
      assert above + own == own;
    } else if id in own {
      CirclesDiffer(above, own, id);
    } else if id in above {
      MessagesDiffer(above + own, id, NestingLimit(k));
    }
  }
}
