/** Workflow versions: every create, update and rollback appends a numbered snapshot and
    makes it the current one. A transaction edits the copy it loaded, and holds the lock
    of the workflow row from its first write on. */
module VersionHistory {
  import opened Json

  /** The columns that are versioned; a client can set the variables to null. */
  datatype Content = Content(nodes: seq<Json>, edges: seq<Json>, variables: Option<Dict>)

  datatype Version = Version(number: nat, content: Content)

  /** The workflow row. */
  datatype Live = Live(content: Content, version: nat)

  /** A snapshot has no null: it stores an empty dictionary instead. */
  function Snapshot(c: Content): Content {
    c.(variables := Some(c.variables.UnwrapOr(map[])))
  }

  function MaxNumber(versions: seq<Version>): nat {
    if versions == [] then 0
    else
      var rest, last := MaxNumber(versions[..|versions| - 1]), versions[|versions| - 1].number;
      if rest >= last then rest else last
  }

  /** The version with this number. */
  function Lookup(versions: seq<Version>, number: int): Option<Version> {
    if versions == [] then None
    else if versions[0].number == number then Some(versions[0])
    else Lookup(versions[1..], number)
  }

  datatype Change<T> = Unset | Set(value: T)

  function Changed<T>(change: Change<T>, before: T): T {
    match change
    case Unset => before
    case Set(value) => value
  }

  /** The body of an update. Null nodes or edges raise before anything is written. */
  datatype Patch = Patch(nodes: Change<Option<seq<Json>>>, edges: Change<Option<seq<Json>>>,
                         variables: Change<Option<Dict>>)

  predicate Raises(p: Patch) {
    (p.nodes.Set? && p.nodes.value.None?) || (p.edges.Set? && p.edges.value.None?)
  }

  datatype Edit = Update(patch: Patch) | Rollback(target: int)

  /** The values that an edit assigns to columns of the loaded copy, if it goes ahead. */
  datatype Columns = Columns(nodes: Change<seq<Json>>, edges: Change<seq<Json>>, variables: Change<Option<Dict>>)

  function Assigned(versions: seq<Version>, e: Edit): Option<Columns> {
    match e
    case Update(p) =>
      if Raises(p) then None
      else Some(Columns(if p.nodes.Set? then Set(p.nodes.value.value) else Unset,
                        if p.edges.Set? then Set(p.edges.value.value) else Unset, p.variables))
    case Rollback(target) =>
      var version := Lookup(versions, target);
      if version.None? then None
      else Some(Columns(Set(version.value.content.nodes), Set(version.value.content.edges),
                        Set(version.value.content.variables)))
  }

  function Assign(columns: Columns, c: Content): Content {
    Content(Changed(columns.nodes, c.nodes), Changed(columns.edges, c.edges), Changed(columns.variables, c.variables))
  }

  /** What is written: the columns whose value differs from the loaded one. */
  function Written(columns: Columns, copy: Content): Columns {
    Columns(if columns.nodes == Set(copy.nodes) then Unset else columns.nodes,
            if columns.edges == Set(copy.edges) then Unset else columns.edges,
            if columns.variables == Set(copy.variables) then Unset else columns.variables)
  }

  datatype Store = Store(live: Live, versions: seq<Version>)

  /** An edit of a loaded copy, saved over the row as it is by then. */
  function Saved(s: Store, copy: Content, columns: Columns): Store {
    var number := MaxNumber(s.versions) + 1;
    Store(Live(Assign(Written(columns, copy), s.live.content), number),
          s.versions + [Version(number, Snapshot(Assign(columns, copy)))])
  }

  function Created(c: Content): Store {
    Store(Live(c, 1), [Version(1, Snapshot(c))])
  }

  // ---- one transaction after the other ----

  /** A column that a change sets has its value, and any other keeps the one it had. */
  predicate Takes<T(==)>(change: Change<T>, before: T, after: T) {
    if change.Set? then after == change.value else after == before
  }

  /** One version is added, with the number of the row and its columns; null variables are
      stored as an empty dictionary. */
  predicate AddsVersion(before: seq<Version>, after: seq<Version>, number: nat, nodes: seq<Json>, edges: seq<Json>,
                        variables: Option<Dict>) {
    |after| == |before| + 1 && before <= after &&
    var added := after[|before|];
    added.number == number && (forall i :: 0 <= i < |before| ==> before[i].number < number) &&
    added.content.nodes == nodes && added.content.edges == edges && added.content.variables.Some? &&
    if variables.Some? then added.content.variables == variables else added.content.variables == Some(map[])
  }

  lemma {:induction false} MaxIsAbove(versions: seq<Version>)
    ensures forall i :: 0 <= i < |versions| ==> versions[i].number <= MaxNumber(versions)
  {
    if versions != [] { MaxIsAbove(versions[..|versions| - 1]); }
  }

  lemma {:induction false} FoundIs(versions: seq<Version>, number: int)
    ensures var found := Lookup(versions, number);
            if found.Some? then
              exists i :: 0 <= i < |versions| && versions[i] == found.value && versions[i].number == number
            else forall i :: 0 <= i < |versions| ==> versions[i].number != number
  {
    if versions != [] && versions[0].number != number {
      FoundIs(versions[1..], number);
      var found := Lookup(versions[1..], number);
      if found.Some? {
        var i :| 0 <= i < |versions[1..]| && versions[1..][i] == found.value && versions[1..][i].number == number;
        assert versions[i + 1] == found.value;
      } else {
        forall i | 0 <= i < |versions| ensures versions[i].number != number {
          if i > 0 { assert versions[1..][i - 1] == versions[i]; }
        }
      }
    }
  }

  class Workflow {
    var nodes: seq<Json>
    var edges: seq<Json>
    var variables: Option<Dict>
    var version: nat
    var versions: seq<Version>

    /** A new workflow, with its first version. */
    constructor (nodes: seq<Json>, edges: seq<Json>, variables: Option<Dict>)
      ensures Current() == Created(Content(nodes, edges, variables))
      ensures version == 1 && AddsVersion([], versions, 1, nodes, edges, variables)
    {
      this.nodes, this.edges, this.variables := nodes, edges, variables;
      version := 1;
      versions := [];
      new;
      SnapshotVersion();
    }

    function Current(): Store
      reads this
    {
      Store(Live(Content(nodes, edges, variables), version), versions)
    }

    method SnapshotVersion()
      modifies this`version, this`versions
      ensures version == MaxNumber(old(versions)) + 1
      ensures versions == old(versions) + [Version(version, Snapshot(Content(nodes, edges, variables)))]
      ensures AddsVersion(old(versions), versions, version, nodes, edges, variables)
    {
      MaxIsAbove(versions);
      var maxVersion := MaxNumber(versions);
      var snapshot := Version(maxVersion + 1,
                              Content(nodes, edges, if variables.None? then Some(map[]) else variables));
      versions := versions + [snapshot];
      version := snapshot.number;
    }

    /** An update that raises, or a rollback to a version that does not exist, changes
        nothing. */
    method Apply(e: Edit) returns (done: bool)
      modifies this
      ensures done == Assigned(old(versions), e).Some?
      ensures Current() ==
              if done then Saved(old(Current()), old(Current()).live.content, Assigned(old(versions), e).value)
              else old(Current())
      ensures e.Update? ==>
                var p := e.patch;
                (done <==> p.nodes != Set(None) && p.edges != Set(None)) &&
                (done ==>
                 Takes(p.nodes, old(Some(nodes)), Some(nodes)) && Takes(p.edges, old(Some(edges)), Some(edges)) &&
                          Takes(p.variables, old(variables), variables))
      ensures e.Rollback? ==>
                (done <==> exists i :: 0 <= i < |old(versions)| && old(versions)[i].number == e.target) &&
                (done ==> exists i :: 0 <= i < |old(versions)| && old(versions)[i].number == e.target &&
                                      old(versions)[i].content == Content(nodes, edges, variables))
      ensures if done then AddsVersion(old(versions), versions, version, nodes, edges, variables)
              else versions == old(versions) && version == old(version) && nodes == old(nodes) && edges == old(edges) &&
                   variables == old(variables)
    {
      if e.Rollback? { FoundIs(versions, e.target); }
      match e {
        case Update(patch) =>
          if (patch.nodes.Set? && patch.nodes.value.None?) || (patch.edges.Set? && patch.edges.value.None?) {
            return false;
          }
          if patch.nodes.Set? {
            nodes := patch.nodes.value.value;
          }
          if patch.edges.Set? {
            edges := patch.edges.value.value;
          }
          if patch.variables.Set? {
            variables := patch.variables.value;
          }
        case Rollback(target) =>
          var older := GetVersion(target);
          if older.None? {
            return false;
          }
          nodes := older.value.content.nodes;
          edges := older.value.content.edges;
          variables := older.value.content.variables;
      }
      SnapshotVersion();
      return true;
    }

    method GetVersion(number: int) returns (found: Option<Version>)
      ensures found == Lookup(versions, number)
    {
      for i := 0 to |versions|
        invariant Lookup(versions, number) == Lookup(versions[i..], number)
      {
        if versions[i].number == number {
          return Some(versions[i]);
        }
      }
      return None;
    }
  }

  function Serial(s: Store, e: Edit): Store {
    var columns := Assigned(s.versions, e);
    if columns.None? then s else Saved(s, s.live.content, columns.value)
  }

  function History(s: Store, es: seq<Edit>): Store {
    if es == [] then s else Serial(History(s, es[..|es| - 1]), es[|es| - 1])
  }

  /** The versions are numbered from 1 without gaps, and the row has the last number. */
  predicate Numbered(s: Store) {
    s.versions != [] && s.live.version == |s.versions| &&
    forall i :: 0 <= i < |s.versions| ==> s.versions[i].number == i + 1
  }

  lemma {:induction false} MaxIsLast(versions: seq<Version>)
    requires forall i :: 0 <= i < |versions| ==> versions[i].number == i + 1
    ensures MaxNumber(versions) == |versions|
  {
    if versions != [] { MaxIsLast(versions[..|versions| - 1]); }
  }

  lemma {:induction false} LookupIsIndex(versions: seq<Version>, number: int)
    requires forall i :: 0 <= i < |versions| ==> versions[i].number == i + versions[0].number
    ensures Lookup(versions, number).Some? <==>
            versions != [] && versions[0].number <= number < versions[0].number + |versions|
    ensures Lookup(versions, number).Some? ==> Lookup(versions, number).value == versions[number - versions[0].number]
  {
    if versions != [] && versions[0].number != number { LookupIsIndex(versions[1..], number); }
  }

  lemma SavedIsNumbered(s: Store, copy: Content, columns: Columns)
    requires Numbered(s)
    ensures Numbered(Saved(s, copy, columns)) && s.versions < Saved(s, copy, columns).versions
  {
    MaxIsLast(s.versions);
  }

  /** A version equals the row it was taken of, up to null. */
  predicate Matches(s: Store) {
    s.versions != [] && s.versions[|s.versions| - 1].content == Snapshot(s.live.content)
  }

  predicate Stands<T(==)>(change: Change<T>, copy: T, live: T) {
    (change.Set? && change.value != copy) || live == copy
  }

  /** A saved edit leaves the row equal to its new version exactly when each column was
      written or is still, up to null, as it was loaded. */
  lemma SavedMatches(s: Store, copy: Content, columns: Columns)
    ensures Matches(Saved(s, copy, columns)) <==>
            Stands(columns.nodes, copy.nodes, s.live.content.nodes) &&
            Stands(columns.edges, copy.edges, s.live.content.edges) &&
            ((columns.variables.Set? && columns.variables.value != copy.variables) ||
             s.live.content.variables.UnwrapOr(map[]) == copy.variables.UnwrapOr(map[]))
  {
  }

  /** After any edits in turn, the versions are numbered 1 to n, none has changed, and the
      row equals the last one. */
  lemma {:induction false} SerialHistory(c: Content, es: seq<Edit>)
    ensures var s := History(Created(c), es); Numbered(s) && Matches(s)
  {
    if es != [] {
      var s, e := History(Created(c), es[..|es| - 1]), es[|es| - 1];
      SerialHistory(c, es[..|es| - 1]);
      if Assigned(s.versions, e).Some? {
        SavedIsNumbered(s, s.live.content, Assigned(s.versions, e).value);
        SavedMatches(s, s.live.content, Assigned(s.versions, e).value);
      }
    }
  }

  lemma {:induction false} VersionsNeverChange(s: Store, es: seq<Edit>)
    ensures s.versions <= History(s, es).versions
  {
    if es != [] { VersionsNeverChange(s, es[..|es| - 1]); }
  }

  lemma {:induction false} HistoryIsNumbered(s: Store, es: seq<Edit>)
    requires Numbered(s)
    ensures Numbered(History(s, es))
  {
    if es != [] {
      var before, e := History(s, es[..|es| - 1]), es[|es| - 1];
      HistoryIsNumbered(s, es[..|es| - 1]);
      if Assigned(before.versions, e).Some? {
        SavedIsNumbered(before, before.live.content, Assigned(before.versions, e).value);
      }
    }
  }

  /** A rollback goes ahead exactly when the version exists; it then appends a version
      with the content of that one, and the row has exactly that content. */
  lemma RollbackRestores(s: Store, target: int)
    requires Numbered(s)
    ensures var after := Serial(s, Rollback(target));
            if 1 <= target <= |s.versions| then
              after.versions == s.versions + [Version(|s.versions| + 1, Snapshot(s.versions[target - 1].content))] &&
              after.live == Live(s.versions[target - 1].content, |s.versions| + 1)
            else after == s
  {
    MaxIsLast(s.versions);
    LookupIsIndex(s.versions, target);
  }

  /** Whatever was done since, rolling back to the version of a row undoes it. */
  lemma RollbackUndoes(s: Store, es: seq<Edit>)
    requires Numbered(s) && Matches(s)
    ensures Serial(History(s, es), Rollback(s.live.version)).live.content == Snapshot(s.live.content)
  {
    HistoryIsNumbered(s, es);
    VersionsNeverChange(s, es);
    RollbackRestores(History(s, es), s.live.version);
  }

  // ---- concurrent transactions ----

  /** Nothing loaded; a loaded copy; or a saved edit, not committed yet. */
  datatype Tx = Idle | Loaded(copy: Content) | Holding(store: Store)

  datatype Sys = Sys(store: Store, txs: map<nat, Tx>, lock: Option<nat>)

  datatype Action = Load(t: nat) | Save(t: nat, edit: Edit) | Commit(t: nat) | Abort(t: nat)

  function TxOf(s: Sys, t: nat): Tx {
    if t in s.txs then s.txs[t] else Idle
  }

  function Leave(s: Sys, t: nat): Sys {
    s.(txs := s.txs[t := Idle], lock := if s.lock == Some(t) then None else s.lock)
  }

  /** A step that has to wait or does not fit leaves everything as it is. */
  function Step(s: Sys, a: Action): Sys {
    var tx := TxOf(s, a.t);
    match a
    case Load(t) => if tx.Idle? then s.(txs := s.txs[t := Loaded(s.store.live.content)]) else s
    case Save(t, e) =>
      if !tx.Loaded? || s.lock.Some? then s
      else
        var columns := Assigned(s.store.versions, e);
        if columns.None? then Leave(s, t)
        else s.(txs := s.txs[t := Holding(Saved(s.store, tx.copy, columns.value))], lock := Some(t))
    case Commit(t) => if tx.Holding? then Leave(s, t).(store := tx.store) else Leave(s, t)
    case Abort(t) => Leave(s, t)
  }

  function Run(s: Sys, as_: seq<Action>): Sys {
    if as_ == [] then s else Step(Run(s, as_[..|as_| - 1]), as_[|as_| - 1])
  }

  ghost predicate HoldsLock(s: Sys, t: nat) {
    TxOf(s, t).Holding? ==>
      s.lock == Some(t) && Numbered(TxOf(s, t).store) && s.store.versions < TxOf(s, t).store.versions
  }

  ghost predicate Inv(s: Sys) {
    Numbered(s.store) && forall t: nat :: HoldsLock(s, t)
  }

  lemma StepInv(s: Sys, a: Action)
    requires Inv(s)
    ensures Inv(Step(s, a)) && s.store.versions <= Step(s, a).store.versions
  {
    var after := Step(s, a);
    assert HoldsLock(s, a.t);
    if a.Save? && TxOf(s, a.t).Loaded? && Assigned(s.store.versions, a.edit).Some? {
      SavedIsNumbered(s.store, TxOf(s, a.t).copy, Assigned(s.store.versions, a.edit).value);
    }
    forall t: nat ensures HoldsLock(after, t) {
      assert HoldsLock(s, t);
    }
  }

  /** However transactions interleave, the committed versions are numbered 1 to n and the
      row has number n. */
  lemma {:induction false} EveryInterleavingIsNumbered(c: Content, as_: seq<Action>)
    ensures Inv(Run(Sys(Created(c), map[], None), as_))
  {
    if as_ != [] {
      EveryInterleavingIsNumbered(c, as_[..|as_| - 1]);
      StepInv(Run(Sys(Created(c), map[], None), as_[..|as_| - 1]), as_[|as_| - 1]);
    }
  }

  /** And no step changes a version that was committed before. */
  lemma {:induction false} CommittedVersionsNeverChange(s: Sys, as_: seq<Action>)
    requires Inv(s)
    ensures Inv(Run(s, as_)) && s.store.versions <= Run(s, as_).store.versions
  {
    if as_ != [] {
      CommittedVersionsNeverChange(s, as_[..|as_| - 1]);
      StepInv(Run(s, as_[..|as_| - 1]), as_[|as_| - 1]);
    }
  }

  lemma RunTwo(s: Sys, as_: seq<Action>, a: Action, b: Action)
    ensures Run(s, as_ + [a, b]) == Step(Step(Run(s, as_), a), b)
  {
    var all := as_ + [a, b];
    assert all[..|as_| + 1] == as_ + [a] && (as_ + [a])[..|as_|] == as_;
  }

  /** An update loaded as `copy`, saved and committed by transaction `t`. */
  lemma CommitUpdate(s: Sys, t: nat, copy: Content, p: Patch)
    requires Numbered(s.store) && s.lock.None? && TxOf(s, t) == Loaded(copy) && !Raises(p)
    ensures var columns := Assigned(s.store.versions, Update(p)).value;
            var after := Step(Step(s, Save(t, Update(p))), Commit(t));
            after.store == Saved(s.store, copy, columns) && Numbered(after.store) && after.lock.None? &&
            forall u :: u != t ==> TxOf(after, u) == TxOf(s, u)
  {
    SavedIsNumbered(s.store, copy, Assigned(s.store.versions, Update(p)).value);
  }

  /** A transaction that nobody interleaves with does what the edit does on its own. */
  lemma EditAlone(s: Sys, t: nat, e: Edit)
    requires TxOf(s, t).Idle? && s.lock.None?
    ensures var after := Step(Step(Step(s, Load(t)), Save(t, e)), Commit(t));
            after.store == Serial(s.store, e) && after.lock.None? && TxOf(after, t).Idle? &&
            forall u: nat :: u != t ==> TxOf(after, u) == TxOf(s, u)
  {
  }

  /** Updates of the nodes and of the edges that were both loaded before either was
      committed leave a row that no version describes. */
  lemma ConcurrentUpdatesMix(c: Content, nodes: seq<Json>, edges: seq<Json>)
    requires nodes != c.nodes && edges != c.edges
    ensures var first := Patch(Set(Some(nodes)), Unset, Unset);
            var second := Patch(Unset, Set(Some(edges)), Unset);
            var s := Run(Sys(Created(c), map[], None),
                         [Load(1), Load(2)] + [Save(1, Update(first)), Commit(1)] +
                         [Save(2, Update(second)), Commit(2)]);
            s.store.live.content == Content(nodes, edges, c.variables) &&
            forall i :: 0 <= i < |s.store.versions| ==> s.store.versions[i].content != Snapshot(s.store.live.content)
  {
    var first := Patch(Set(Some(nodes)), Unset, Unset);
    var second := Patch(Unset, Set(Some(edges)), Unset);
    var s0 := Sys(Created(c), map[], None);
    var s2 := Step(Step(s0, Load(1)), Load(2));
    assert Run(s0, []) == s0 && [] + [Load(1), Load(2)] == [Load(1), Load(2)];
    RunTwo(s0, [], Load(1), Load(2));
    RunTwo(s0, [Load(1), Load(2)], Save(1, Update(first)), Commit(1));
    RunTwo(s0, [Load(1), Load(2)] + [Save(1, Update(first)), Commit(1)], Save(2, Update(second)), Commit(2));
    CommitUpdate(s2, 1, c, first);
    CommitUpdate(Step(Step(s2, Save(1, Update(first))), Commit(1)), 2, c, second);
  }
}
