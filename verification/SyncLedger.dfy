/** The sync ledger: one row per workflow and entity, what a check decides from it, and
    what outcomes and maintenance do to it. */
module SyncLedger {
  import opened Json

  datatype Key = Key(workflow: string, entity: string)

  datatype SyncStatus = Pending | Synced | Failed | Stale

  datatype Row = Row(hash: string, status: SyncStatus, attempts: nat)

  datatype Decision = Sync | Update | Skip | Retry

  /** What `should_sync` answers; `hasRow` is whether it gives a ledger id. */
  datatype Check = Check(decision: Decision, hasRow: bool)

  /** The decision for an existing row. */
  function Decide(row: Row, hash: string, maxRetries: int): Decision {
    if row.status.Pending? then Skip
    else if row.status.Failed? && row.attempts < maxRetries then Retry
    else if row.hash == hash && row.status.Synced? then Skip
    else if row.hash != hash then Update
    else Sync
  }

  datatype Mode = Incremental(skipDuplicates: bool) | Force | Direct

  /** Whether the workflow runs after this decision; a direct run has run already. */
  predicate Executes(mode: Mode, decision: Decision) {
    match mode
    case Incremental(skipDuplicates) => !decision.Skip? && !(decision.Update? && skipDuplicates)
    case _ => true
  }

  function PendingRow(hash: string): Row {
    Row(hash, Pending, 0)
  }

  function AfterOutcome(row: Row, hash: string, ok: bool): Row {
    if ok then row.(hash := hash, status := Synced)
    else row.(hash := hash, status := SyncStatus.Failed, attempts := row.attempts + 1)
  }

  /** The row an outcome inserts when the check gave no ledger id. */
  function OutcomeRow(hash: string, ok: bool): Row {
    if ok then Row(hash, Synced, 0) else Row(hash, SyncStatus.Failed, 1)
  }

  // ---- history ----

  datatype Event = Outcome(hash: string, ok: bool) | MarkedStale | WasReset | Cleared

  function Apply(row: Option<Row>, e: Event): Option<Row> {
    match e
    case Outcome(hash, ok) =>
      Some(AfterOutcome(if row.Some? then row.value else PendingRow(hash), hash, ok))
    case MarkedStale => if row.Some? then Some(row.value.(status := Stale)) else None
    case WasReset => if row.Some? then Some(row.value.(status := Pending, attempts := 0)) else None
    case Cleared => None
  }

  /** The row that a history leaves. */
  function Fold(es: seq<Event>): Option<Row> {
    if es == [] then None else Apply(Fold(es[..|es| - 1]), es[|es| - 1])
  }

  lemma FoldOn(es: seq<Event>, e: Event)
    ensures Fold(es + [e]) == Apply(Fold(es), e)
  {
    assert (es + [e])[..|es|] == es;
  }

  /** Failures since the last reset, or since the row was created. */
  function FailuresSince(es: seq<Event>): nat {
    if es == [] then 0
    else
      var front := FailuresSince(es[..|es| - 1]);
      match es[|es| - 1]
      case Outcome(_, ok) => if ok then front else front + 1
      case MarkedStale => front
      case _ => 0
  }

  /** The attempt count of a row is the number of failures since it was created or last
      reset, its hash is the last outcome's, and only a reset leaves it pending. */
  lemma {:induction false} RowReflectsHistory(es: seq<Event>)
    requires Fold(es).Some?
    ensures Fold(es).value.attempts == FailuresSince(es)
    ensures Fold(es).value.hash == LastHash(es)
    ensures Fold(es).value.status.Pending? <==> es[|es| - 1].WasReset?
    ensures Fold(es).value.status.Stale? <==> es[|es| - 1].MarkedStale?
    ensures Fold(es).value.status.Synced? <==> es[|es| - 1].Outcome? && es[|es| - 1].ok
  {
    var front := es[..|es| - 1];
    if Fold(front).Some? {
      RowReflectsHistory(front);
    } else if es[|es| - 1].Outcome? {
      NoRowNoFailures(front);
    }
  }

  lemma {:induction false} NoRowNoFailures(es: seq<Event>)
    requires Fold(es).None?
    ensures FailuresSince(es) == 0
  {
    if es != [] && !es[|es| - 1].Cleared? { NoRowNoFailures(es[..|es| - 1]); }
  }

  /** The hash of the last outcome since the row was created. */
  function LastHash(es: seq<Event>): string {
    if es == [] then ""
    else match es[|es| - 1]
      case Outcome(hash, _) => hash
      case Cleared => ""
      case _ => LastHash(es[..|es| - 1])
  }

  // ---- the table ----

  /** The row holds the outcome, and one failure more than before if it was one. */
  predicate Records(key: Key, before: map<Key, Row>, row: Row, hash: string, ok: bool) {
    var attempts := if key in before then before[key].attempts else 0;
    row.hash == hash && row.status == (if ok then Synced else SyncStatus.Failed) &&
    row.attempts == if ok then attempts else attempts + 1
  }

  class Ledger {
    var rows: map<Key, Row>

    constructor ()
      ensures rows == map[]
    {
      rows := map[];
    }

    /** Check the row, inserting a pending one if there is none. */
    method ShouldSync(key: Key, hash: string, maxRetries: int) returns (check: Check)
      modifies this
      ensures key in old(rows) ==> rows == old(rows) && check == Check(Decide(rows[key], hash, maxRetries), true)
      ensures key !in old(rows) ==> rows == old(rows)[key := PendingRow(hash)] && check == Check(Sync, true)
    {
      if key !in rows {
        rows := rows[key := PendingRow(hash)];
        return Check(Sync, true);
      }
      var row := rows[key];
      if row.status == Pending {
        return Check(Skip, true);
      }
      if row.status == SyncStatus.Failed && row.attempts < maxRetries {
        return Check(Retry, true);
      }
      if row.hash == hash && row.status == Synced {
        return Check(Skip, true);
      }
      if row.hash != hash {
        return Check(Update, true);
      }
      return Check(Sync, true);
    }

    /** Record an outcome on the row of the check, or insert a row without one; the
        insert raises when the entity has a row. */
    method Record(key: Key, hash: string, ok: bool, hasRow: bool) returns (raised: bool)
      modifies this
      ensures raised <==> !hasRow && key in old(rows)
      ensures raised || (hasRow && key !in old(rows)) ==> rows == old(rows)
      ensures hasRow && key in old(rows) ==> rows == old(rows)[key := AfterOutcome(old(rows)[key], hash, ok)]
      ensures !hasRow && key !in old(rows) ==> rows == old(rows)[key := OutcomeRow(hash, ok)]
    {
      raised := false;
      if hasRow {
        if key in rows {
          var row := rows[key];
          row := row.(hash := hash, status := if ok then Synced else SyncStatus.Failed);
          if !ok {
            row := row.(attempts := row.attempts + 1);
          }
          rows := rows[key := row];
        }
      } else if key in rows {
        raised := true;
      } else {
        rows := rows[key := Row(hash, if ok then Synced else SyncStatus.Failed, if ok then 0 else 1)];
      }
    }

    /** One event of a workflow with sync enabled, with nobody else at work: which rows make
        the workflow run, and the row that the outcome leaves if it does. */
    method ExecuteWithSync(key: Key, hash: string, maxRetries: int, mode: Mode, ok: bool) returns (ran: bool)
      requires !mode.Direct?
      modifies this
      ensures var row := if key in old(rows) then Some(old(rows)[key]) else None;
              ran == (row.None? || Executes(mode, Decide(row.value, hash, maxRetries))) &&
              rows == if ran then old(rows)[key := Apply(row, Outcome(hash, ok)).value] else old(rows)
      ensures mode.Force? || key !in old(rows) ==> ran
      ensures mode == Incremental(false) && key in old(rows) ==>
                var row := old(rows)[key];
                ran <==> row.status != Pending && !(row.status == Synced && row.hash == hash)
      ensures mode == Incremental(true) && key in old(rows) ==>
                var row := old(rows)[key];
                ran <==> (row.status == SyncStatus.Failed && (row.attempts < maxRetries || row.hash == hash)) ||
                         (row.status == Stale && row.hash == hash)
      ensures ran ==> key in rows && Records(key, old(rows), rows[key], hash, ok)
    {
      var check := ShouldSync(key, hash, maxRetries);
      if mode.Incremental? && (check.decision == Skip || (check.decision == Update && mode.skipDuplicates)) {
        return false;
      }
      var _ := Record(key, hash, ok, check.hasRow);
      return true;
    }

    /** The record of a workflow that was run directly: whatever the check decides, the
        row is the one that the outcome leaves. */
    method RecordExecution(key: Key, hash: string, ok: bool)
      modifies this
      ensures var row := if key in old(rows) then Some(old(rows)[key]) else None;
              rows == old(rows)[key := Apply(row, Outcome(hash, ok)).value]
      ensures key in rows && Records(key, old(rows), rows[key], hash, ok)
    {
      var check := ShouldSync(key, hash, 3);
      var _ := Record(key, hash, ok, check.hasRow);
    }

    method MarkStale(workflow: string)
      modifies this
      ensures rows.Keys == old(rows).Keys
      ensures forall k :: k in rows ==>
        rows[k] == (if k.workflow == workflow && old(rows)[k].status.Synced?
                    then Apply(Some(old(rows)[k]), MarkedStale).value else old(rows)[k])
    {
      rows := map k | k in rows ::
        if k.workflow == workflow && rows[k].status == Synced then rows[k].(status := Stale) else rows[k];
    }

    method ResetFailed(workflow: string)
      modifies this
      ensures rows.Keys == old(rows).Keys
      ensures forall k :: k in rows ==>
        rows[k] == (if k.workflow == workflow && old(rows)[k].status.Failed?
                    then Apply(Some(old(rows)[k]), WasReset).value else old(rows)[k])
    {
      rows := map k | k in rows ::
        if k.workflow == workflow && rows[k].status == SyncStatus.Failed then rows[k].(status := Pending, attempts := 0)
        else rows[k];
    }

    method ClearLedger(workflow: string)
      modifies this
      ensures rows == map k | k in old(rows) && k.workflow != workflow :: old(rows)[k]
    {
      rows := map k | k in rows && k.workflow != workflow :: rows[k];
    }
  }

  /** Exactly which rows an incremental check runs again, with duplicates skipped and with
      duplicates updated. A failed row that has used up its retries still runs while its
      hash is unchanged, and a row that was reset never runs. A forced run always does. */
  lemma WhatRunsAgain(row: Row, hash: string, maxRetries: int)
    ensures Executes(Incremental(true), Decide(row, hash, maxRetries)) <==>
            (row.status.Failed? && (row.attempts < maxRetries || row.hash == hash)) ||
            (row.status.Stale? && row.hash == hash)
    ensures Executes(Incremental(false), Decide(row, hash, maxRetries)) <==>
            !row.status.Pending? && !(row.status.Synced? && row.hash == hash)
    ensures Executes(Force, Decide(row, hash, maxRetries))
  {
  }
}
