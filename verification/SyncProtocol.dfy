/** Concurrent transactions on the sync ledger, as steps: selecting a row for update,
    inserting a pending row under the unique key, executing and recording the outcome,
    maintenance, commit and rollback. A transaction sees committed rows and its own
    changes; the owner of a key holds its row lock or its uncommitted insert until it
    ends. A transaction may do several jobs before it commits. */
module SyncProtocol {
  import opened Json
  import opened SyncLedger

  datatype Job = Job(key: Key, hash: string, maxRetries: int, mode: Mode)

  /** Between jobs; past a select that found no row; or executing, with or without a
      ledger id to record the outcome on. */
  datatype Phase = Idle | Missed(job: Job) | Busy(job: Job, hasRow: bool)

  /** `work` holds the uncommitted rows (`None` for a deleted one) and `news` the events
      behind them. */
  datatype Tx = Tx(phase: Phase, work: map<Key, Option<Row>>, news: map<Key, seq<Event>>)

  const FRESH := Tx(Idle, map[], map[])

  datatype Sys = Sys(rows: map<Key, Row>, hist: map<Key, seq<Event>>, txs: map<nat, Tx>, owner: map<Key, nat>)

  const START := Sys(map[], map[], map[], map[])

  datatype Action =
    | Select(t: nat, job: Job)
    | Insert(t: nat)
    | Finish(t: nat, ok: bool)
    | Maintain(t: nat, e: Event, key: Key)
    | Commit(t: nat)
    | Rollback(t: nat)

  function TxOf(s: Sys, t: nat): Tx {
    if t in s.txs then s.txs[t] else FRESH
  }

  function Committed(s: Sys, k: Key): Option<Row> {
    if k in s.rows then Some(s.rows[k]) else None
  }

  function Visible(s: Sys, t: nat, k: Key): Option<Row> {
    if k in TxOf(s, t).work then TxOf(s, t).work[k] else Committed(s, k)
  }

  function History(s: Sys, k: Key): seq<Event> {
    if k in s.hist then s.hist[k] else []
  }

  function News(s: Sys, t: nat, k: Key): seq<Event> {
    if k in TxOf(s, t).news then TxOf(s, t).news[k] else []
  }

  /** Nobody else holds the row or an uncommitted insert of it. */
  predicate Free(s: Sys, t: nat, k: Key) {
    k in s.owner ==> s.owner[k] == t
  }

  /** An insert waits for another transaction's uncommitted insert or delete. */
  predicate Contended(s: Sys, t: nat, k: Key) {
    !Free(s, t, k) && (k !in s.rows || Visible(s, s.owner[k], k).None?)
  }

  function SetTx(s: Sys, t: nat, tx: Tx): Sys {
    s.(txs := s.txs[t := tx])
  }

  /** Store a row as uncommitted work of the owner, with the event behind it. */
  function Put(s: Sys, t: nat, k: Key, row: Option<Row>, es: seq<Event>, phase: Phase): Sys {
    var tx := TxOf(s, t);
    SetTx(s, t, Tx(phase, tx.work[k := row], tx.news[k := News(s, t, k) + es])).(owner := s.owner[k := t])
  }

  /** Release everything of `t`. */
  function End(s: Sys, t: nat): Sys {
    SetTx(s, t, FRESH).(owner := map k | k in s.owner && s.owner[k] != t :: s.owner[k])
  }

  predicate Maintains(e: Event, row: Row) {
    match e
    case MarkedStale => row.status.Synced?
    case WasReset => row.status.Failed?
    case Cleared => true
    case Outcome(_, _) => false
  }

  /** A step that is blocked or does not fit the phase leaves everything as it is. */
  function Step(s: Sys, a: Action): Sys {
    var tx := TxOf(s, a.t);
    match a
    case Select(t, job) =>
      if !tx.phase.Idle? then s
      else
        var row := Visible(s, t, job.key);
        if row.None? then SetTx(s, t, tx.(phase := Missed(job)))
        else if !Free(s, t, job.key) then s
        else
          var locked := s.(owner := s.owner[job.key := t]);
          if Executes(job.mode, Decide(row.value, job.hash, job.maxRetries)) then
            SetTx(locked, t, tx.(phase := Busy(job, true)))
          else locked
    case Insert(t) =>
      if !tx.phase.Missed? then s
      else
        var job := tx.phase.job;
        if Contended(s, t, job.key) then s
        else if Visible(s, t, job.key).Some? then
          SetTx(s, t, tx.(phase := if Executes(job.mode, Skip) then Busy(job, false) else Idle))
        else Put(s, t, job.key, Some(PendingRow(job.hash)), [], Busy(job, true))
    case Finish(t, ok) =>
      if !tx.phase.Busy? then s
      else
        var job := tx.phase.job;
        var row := Visible(s, t, job.key);
        if tx.phase.hasRow then
          if row.None? then SetTx(s, t, tx.(phase := Idle))
          else Put(s, t, job.key, Some(AfterOutcome(row.value, job.hash, ok)), [Outcome(job.hash, ok)], Idle)
        else if Contended(s, t, job.key) then s
        else if row.Some? then End(s, t)
        else Put(s, t, job.key, Some(OutcomeRow(job.hash, ok)), [Outcome(job.hash, ok)], Idle)
    case Maintain(t, e, k) =>
      var row := Visible(s, t, k);
      if !tx.phase.Idle? || !Free(s, t, k) || row.None? || !Maintains(e, row.value) then s
      else Put(s, t, k, Apply(row, e), [e], Idle)
    case Commit(t) =>
      if !tx.phase.Idle? then s
      else
        End(s, t).(rows := map k | k in s.rows.Keys + tx.work.Keys && Visible(s, t, k).Some? :: Visible(s, t, k).value,
                   hist := map k | k in s.hist.Keys + tx.news.Keys :: History(s, k) + News(s, t, k))
    case Rollback(t) => End(s, t)
  }

  function Run(s: Sys, as_: seq<Action>): Sys {
    if as_ == [] then s else Step(Run(s, as_[..|as_| - 1]), as_[|as_| - 1])
  }

  // ---- serial histories ----

  /** What one job or one maintenance statement, running alone, may do to a row. */
  ghost predicate SerialEvent(row: Option<Row>, e: Event, k: Key, jobs: set<Job>) {
    match e
    case Outcome(hash, _) =>
      exists job :: job in jobs && job.key == k && job.hash == hash &&
        (row.None? || Executes(job.mode, Decide(row.value, hash, job.maxRetries)))
    case _ => row.Some? && Maintains(e, row.value)
  }

  ghost predicate Serial(es: seq<Event>, k: Key, jobs: set<Job>) {
    es == [] ||
    (Serial(es[..|es| - 1], k, jobs) && SerialEvent(Fold(es[..|es| - 1]), es[|es| - 1], k, jobs))
  }

  lemma SerialOn(es: seq<Event>, e: Event, k: Key, jobs: set<Job>)
    requires Serial(es, k, jobs) && SerialEvent(Fold(es), e, k, jobs)
    ensures Serial(es + [e], k, jobs)
  {
    assert (es + [e])[..|es|] == es;
  }

  lemma {:induction false} SerialAt(es: seq<Event>, k: Key, jobs: set<Job>, i: nat)
    requires Serial(es, k, jobs) && i < |es|
    ensures SerialEvent(Fold(es[..i]), es[i], k, jobs)
  {
    if i < |es| - 1 {
      SerialAt(es[..|es| - 1], k, jobs, i);
      assert es[..|es| - 1][..i] == es[..i];
    }
  }

  // ---- what every interleaving keeps ----

  /** The events behind what the transaction sees of `k`, on top of the committed ones. */
  function Lived(tx: Tx, base: seq<Event>, k: Key): seq<Event> {
    if k in tx.news then base + tx.news[k] else base
  }

  function Seen(tx: Tx, row: Option<Row>, k: Key): Option<Row> {
    if k in tx.work then tx.work[k] else row
  }

  predicate Executing(tx: Tx, k: Key) {
    tx.phase.Busy? && tx.phase.hasRow && tx.phase.job.key == k
  }

  /** The transaction executes the job for which it inserted the pending row. */
  predicate JustInserted(tx: Tx, base: seq<Event>, k: Key) {
    Executing(tx, k) && k in tx.work && tx.work[k] == Some(PendingRow(tx.phase.job.hash)) &&
    Fold(Lived(tx, base, k)).None?
  }

  /** Uncommitted rows are the folds of serial histories, only owners have them, and a job
      that executes with a ledger id is the owner's, of a row that called for it. */
  ghost predicate TxOk(tx: Tx, base: seq<Event>, row: Option<Row>, owns: bool, k: Key, jobs: set<Job>) {
    (k in tx.work <==> k in tx.news) &&
    (k in tx.work ==>
       owns && Serial(Lived(tx, base, k), k, jobs) &&
       (tx.work[k] == Fold(Lived(tx, base, k)) || JustInserted(tx, base, k))) &&
    (!tx.phase.Idle? ==> tx.phase.job in jobs) &&
    (tx.phase.Busy? && !tx.phase.hasRow ==> !tx.phase.job.mode.Incremental?) &&
    (Executing(tx, k) ==>
       owns && (JustInserted(tx, base, k) ||
                (Seen(tx, row, k).Some? &&
                 Executes(tx.phase.job.mode,
                          Decide(Seen(tx, row, k).value, tx.phase.job.hash, tx.phase.job.maxRetries)))))
  }

  predicate Owns(s: Sys, t: nat, k: Key) {
    k in s.owner && s.owner[k] == t
  }

  ghost predicate KeyInv(s: Sys, k: Key, jobs: set<Job>) {
    Committed(s, k) == Fold(History(s, k)) && Serial(History(s, k), k, jobs)
  }

  ghost predicate TxInv(s: Sys, t: nat, k: Key, jobs: set<Job>) {
    TxOk(TxOf(s, t), History(s, k), Committed(s, k), Owns(s, t, k), k, jobs)
  }

  ghost predicate Inv(s: Sys, jobs: set<Job>) {
    (forall k :: KeyInv(s, k, jobs)) && forall t: nat, k :: TxInv(s, t, k, jobs)
  }

  /** `after` may differ from `s` in transaction `t` and in the keys it owned or took. */
  ghost predicate OnlyTouches(s: Sys, after: Sys, t: nat) {
    (forall u: nat :: u != t ==> TxOf(after, u) == TxOf(s, u)) &&
    (forall k :: !Free(s, t, k) ==>
       Owns(after, s.owner[k], k) && Committed(after, k) == Committed(s, k) && History(after, k) == History(s, k))
  }

  lemma InvFrom(s: Sys, after: Sys, t: nat, jobs: set<Job>)
    requires Inv(s, jobs) && OnlyTouches(s, after, t)
    requires forall k :: KeyInv(after, k, jobs)
    requires forall k :: TxInv(after, t, k, jobs)
    ensures Inv(after, jobs)
  {
    forall u: nat, k ensures TxInv(after, u, k, jobs) {
      assert TxInv(s, u, k, jobs);
      if u != t { assert TxOf(after, u) == TxOf(s, u); }
    }
  }

  lemma EndInv(s: Sys, t: nat, jobs: set<Job>)
    requires Inv(s, jobs)
    ensures Inv(End(s, t), jobs)
  {
    forall k ensures KeyInv(End(s, t), k, jobs) { assert KeyInv(s, k, jobs); }
    InvFrom(s, End(s, t), t, jobs);
  }

  lemma PhaseInv(s: Sys, t: nat, phase: Phase, jobs: set<Job>)
    requires Inv(s, jobs)
    requires !TxOf(s, t).phase.Busy? || !TxOf(s, t).phase.hasRow
    requires phase.Busy? ==> !phase.hasRow && !phase.job.mode.Incremental?
    requires phase.Idle? || phase.job in jobs
    ensures Inv(SetTx(s, t, TxOf(s, t).(phase := phase)), jobs)
  {
    var after := SetTx(s, t, TxOf(s, t).(phase := phase));
    forall k ensures KeyInv(after, k, jobs) { assert KeyInv(s, k, jobs); }
    forall k ensures TxInv(after, t, k, jobs) { assert TxInv(s, t, k, jobs); }
    InvFrom(s, after, t, jobs);
  }

  /** Locking the row, and starting the job if the row calls for it. */
  lemma LockInv(s: Sys, t: nat, job: Job, jobs: set<Job>)
    requires Inv(s, jobs) && TxOf(s, t).phase.Idle? && Free(s, t, job.key) && job in jobs
    requires Visible(s, t, job.key).Some?
    ensures var locked := s.(owner := s.owner[job.key := t]);
            Inv(locked, jobs) &&
            (Executes(job.mode, Decide(Visible(s, t, job.key).value, job.hash, job.maxRetries)) ==>
               Inv(SetTx(locked, t, TxOf(s, t).(phase := Busy(job, true))), jobs))
  {
    var locked := s.(owner := s.owner[job.key := t]);
    forall k ensures KeyInv(locked, k, jobs) { assert KeyInv(s, k, jobs); }
    forall k ensures TxInv(locked, t, k, jobs) { assert TxInv(s, t, k, jobs); }
    InvFrom(s, locked, t, jobs);
    if Executes(job.mode, Decide(Visible(s, t, job.key).value, job.hash, job.maxRetries)) {
      var after := SetTx(locked, t, TxOf(s, t).(phase := Busy(job, true)));
      forall k ensures KeyInv(after, k, jobs) { assert KeyInv(s, k, jobs); }
      forall k ensures TxInv(after, t, k, jobs) { assert TxInv(s, t, k, jobs); }
      InvFrom(locked, after, t, jobs);
    }
  }

  /** Writing a row keeps the invariant if the row is the fold of what `t` then lived
      through, or the pending row of the job it starts. */
  lemma PutInv(s: Sys, t: nat, k: Key, row: Option<Row>, es: seq<Event>, phase: Phase, jobs: set<Job>)
    requires Inv(s, jobs) && Free(s, t, k)
    requires Executing(TxOf(s, t), k) || !TxOf(s, t).phase.Busy? || !TxOf(s, t).phase.hasRow
    requires phase.Idle? || (phase.Busy? && phase.hasRow && phase.job.key == k && phase.job in jobs)
    requires Serial(History(s, k) + (News(s, t, k) + es), k, jobs)
    requires var row' := Fold(History(s, k) + (News(s, t, k) + es));
             if phase.Idle? then row == row' else row'.None? && row == Some(PendingRow(phase.job.hash))
    ensures Inv(Put(s, t, k, row, es, phase), jobs)
  {
    var after := Put(s, t, k, row, es, phase);
    forall k ensures KeyInv(after, k, jobs) { assert KeyInv(s, k, jobs); }
    forall k' ensures TxInv(after, t, k', jobs) { assert TxInv(s, t, k', jobs); }
    InvFrom(s, after, t, jobs);
  }

  /** What a transaction sees is the fold of what it lived through, except while it
      executes the job whose pending row it inserted. */
  lemma SeenIsFold(s: Sys, t: nat, k: Key, jobs: set<Job>)
    requires Inv(s, jobs)
    ensures Serial(History(s, k) + News(s, t, k), k, jobs)
    ensures Visible(s, t, k) == Fold(History(s, k) + News(s, t, k)) ||
            JustInserted(TxOf(s, t), History(s, k), k)
    ensures Visible(s, t, k).None? ==> !Contended(s, t, k) ==> Free(s, t, k)
  {
    assert TxInv(s, t, k, jobs);
    assert KeyInv(s, k, jobs);
    if k !in TxOf(s, t).work { assert History(s, k) + [] == History(s, k); }
  }

  /** Appending one event and the row it leaves. */
  lemma EventInv(s: Sys, t: nat, k: Key, e: Event, jobs: set<Job>)
    requires Inv(s, jobs) && Free(s, t, k)
    requires Executing(TxOf(s, t), k) || !TxOf(s, t).phase.Busy? || !TxOf(s, t).phase.hasRow
    requires SerialEvent(Fold(History(s, k) + News(s, t, k)), e, k, jobs)
    ensures Inv(Put(s, t, k, Apply(Fold(History(s, k) + News(s, t, k)), e), [e], Idle), jobs)
  {
    var lived := History(s, k) + News(s, t, k);
    SeenIsFold(s, t, k, jobs);
    SerialOn(lived, e, k, jobs);
    FoldOn(lived, e);
    assert lived + [e] == History(s, k) + (News(s, t, k) + [e]);
    PutInv(s, t, k, Apply(Fold(lived), e), [e], Idle, jobs);
  }

  lemma SelectInv(s: Sys, t: nat, job: Job, jobs: set<Job>)
    requires Inv(s, jobs) && job in jobs
    ensures Inv(Step(s, Select(t, job)), jobs)
  {
    if TxOf(s, t).phase.Idle? {
      if Visible(s, t, job.key).None? {
        PhaseInv(s, t, Missed(job), jobs);
      } else if Free(s, t, job.key) {
        LockInv(s, t, job, jobs);
      }
    }
  }

  lemma InsertInv(s: Sys, t: nat, jobs: set<Job>)
    requires Inv(s, jobs)
    ensures Inv(Step(s, Insert(t)), jobs)
  {
    var tx := TxOf(s, t);
    if tx.phase.Missed? && !Contended(s, t, tx.phase.job.key) {
      var job := tx.phase.job;
      assert TxInv(s, t, job.key, jobs);
      if Visible(s, t, job.key).Some? {
        PhaseInv(s, t, if Executes(job.mode, Skip) then Busy(job, false) else Idle, jobs);
      } else {
        SeenIsFold(s, t, job.key, jobs);
        assert News(s, t, job.key) + [] == News(s, t, job.key);
        PutInv(s, t, job.key, Some(PendingRow(job.hash)), [], Busy(job, true), jobs);
      }
    }
  }

  lemma FinishInv(s: Sys, t: nat, ok: bool, jobs: set<Job>)
    requires Inv(s, jobs)
    ensures Inv(Step(s, Finish(t, ok)), jobs)
  {
    var tx := TxOf(s, t);
    if tx.phase.Busy? {
      var job := tx.phase.job;
      var e := Outcome(job.hash, ok);
      assert TxInv(s, t, job.key, jobs);
      SeenIsFold(s, t, job.key, jobs);
      if tx.phase.hasRow {
        EventInv(s, t, job.key, e, jobs);
      } else if !Contended(s, t, job.key) {
        if Visible(s, t, job.key).Some? {
          EndInv(s, t, jobs);
        } else {
          EventInv(s, t, job.key, e, jobs);
        }
      }
    }
  }

  lemma MaintainInv(s: Sys, t: nat, e: Event, k: Key, jobs: set<Job>)
    requires Inv(s, jobs)
    ensures Inv(Step(s, Maintain(t, e, k)), jobs)
  {
    var row := Visible(s, t, k);
    if TxOf(s, t).phase.Idle? && Free(s, t, k) && row.Some? && Maintains(e, row.value) {
      SeenIsFold(s, t, k, jobs);
      EventInv(s, t, k, e, jobs);
    }
  }

  lemma CommitInv(s: Sys, t: nat, jobs: set<Job>)
    requires Inv(s, jobs)
    ensures Inv(Step(s, Commit(t)), jobs)
  {
    if TxOf(s, t).phase.Idle? {
      var after := Step(s, Commit(t));
      forall k
        ensures Committed(after, k) == Visible(s, t, k) && History(after, k) == History(s, k) + News(s, t, k)
        ensures KeyInv(after, k, jobs) && TxInv(after, t, k, jobs)
      {
        SeenIsFold(s, t, k, jobs);
      }
      forall k | !Free(s, t, k)
        ensures Committed(after, k) == Committed(s, k) && History(after, k) == History(s, k)
      {
        assert TxInv(s, t, k, jobs);
      }
      InvFrom(s, after, t, jobs);
    }
  }

  /** Every select of the run is for one of these jobs. */
  predicate Asks(as_: seq<Action>, jobs: set<Job>) {
    forall a :: a in as_ && a.Select? ==> a.job in jobs
  }

  lemma {:induction false} RunInv(as_: seq<Action>, jobs: set<Job>)
    requires Asks(as_, jobs)
    ensures Inv(Run(START, as_), jobs)
  {
    if as_ != [] {
      var front, a := as_[..|as_| - 1], as_[|as_| - 1];
      RunInv(front, jobs);
      var s := Run(START, front);
      match a
      case Select(t, job) => SelectInv(s, t, job, jobs);
      case Insert(t) => InsertInv(s, t, jobs);
      case Finish(t, ok) => FinishInv(s, t, ok, jobs);
      case Maintain(t, e, k) => MaintainInv(s, t, e, k, jobs);
      case Commit(t) => CommitInv(s, t, jobs);
      case Rollback(t) => EndInv(s, t, jobs);
    }
  }

  // ---- what it means ----

  /** However transactions interleave, what has been committed for an entity is a serial
      history of the jobs asked for, and its row is the fold of that history. */
  lemma EveryInterleavingIsSerial(as_: seq<Action>, jobs: set<Job>, k: Key)
    requires Asks(as_, jobs)
    ensures var s := Run(START, as_);
            Serial(History(s, k), k, jobs) && Committed(s, k) == Fold(History(s, k))
  {
    RunInv(as_, jobs);
    assert KeyInv(Run(START, as_), k, jobs);
  }

  /** A committed row counts the failures since its creation or its last reset, has the
      content of the last outcome, and is pending only when a reset came last. */
  lemma CommittedRowTellsItsHistory(as_: seq<Action>, jobs: set<Job>, k: Key)
    requires Asks(as_, jobs) && k in Run(START, as_).rows
    ensures var row, es := Run(START, as_).rows[k], History(Run(START, as_), k);
            row.attempts == FailuresSince(es) && row.hash == LastHash(es) && es != [] &&
            (row.status.Pending? <==> es[|es| - 1].WasReset?)
  {
    EveryInterleavingIsSerial(as_, jobs, k);
    RowReflectsHistory(History(Run(START, as_), k));
  }

  predicate AllIncremental(jobs: set<Job>) {
    forall job :: job in jobs ==> job.mode.Incremental?
  }

  predicate AllSkip(jobs: set<Job>) {
    forall job :: job in jobs ==> job.mode == Incremental(true)
  }

  /** What may come after what, when every job is incremental: a success is followed by a
      different content or by maintenance, and a reset row is never run again. */
  lemma {:induction false} WhatFollows(es: seq<Event>, k: Key, jobs: set<Job>, i: nat)
    requires Serial(es, k, jobs) && i + 1 < |es| && AllIncremental(jobs)
    ensures es[i].Outcome? && es[i].ok ==>
              es[i + 1].MarkedStale? || es[i + 1].Cleared? ||
              (es[i + 1].Outcome? && es[i + 1].hash != es[i].hash && !AllSkip(jobs))
    ensures es[i].WasReset? ==> es[i + 1].Cleared?
  {
    var row := Fold(es[..i]);
    SerialAt(es, k, jobs, i);
    SerialAt(es, k, jobs, i + 1);
    assert es[..i + 1] == es[..i] + [es[i]];
    FoldOn(es[..i], es[i]);
  }

  predicate Success(e: Event) {
    e.Outcome? && e.ok
  }

  predicate Reopens(e: Event) {
    e.MarkedStale? || e.Cleared?
  }

  /** With duplicates skipped, two successes of one entity have a stale mark or a clear
      of the ledger between them: without those, an entity succeeds at most once. */
  lemma SuccessIsCommittedOnce(as_: seq<Action>, jobs: set<Job>, k: Key, i: nat, j: nat)
    requires Asks(as_, jobs) && AllSkip(jobs)
    requires i < j < |History(Run(START, as_), k)|
    requires Success(History(Run(START, as_), k)[i]) && Success(History(Run(START, as_), k)[j])
    ensures exists m :: i < m < j && Reopens(History(Run(START, as_), k)[m])
  {
    EveryInterleavingIsSerial(as_, jobs, k);
    Reopened(History(Run(START, as_), k), k, jobs, i, j);
  }

  lemma Reopened(es: seq<Event>, k: Key, jobs: set<Job>, i: nat, j: nat)
    requires Serial(es, k, jobs) && AllSkip(jobs)
    requires i < j < |es| && Success(es[i]) && Success(es[j])
    ensures exists m :: i < m < j && Reopens(es[m])
  {
    WhatFollows(es, k, jobs, i);
    assert Reopens(es[i + 1]);
  }

  /** In incremental mode, whatever is done with duplicates, two outcomes in a row are
      never both successes with the same content. */
  lemma SameContentIsNotSentTwice(as_: seq<Action>, jobs: set<Job>, k: Key, i: nat)
    requires Asks(as_, jobs) && AllIncremental(jobs)
    requires i + 1 < |History(Run(START, as_), k)|
    requires Success(History(Run(START, as_), k)[i])
    ensures !History(Run(START, as_), k)[i + 1].Outcome? ||
            History(Run(START, as_), k)[i + 1].hash != History(Run(START, as_), k)[i].hash
  {
    EveryInterleavingIsSerial(as_, jobs, k);
    WhatFollows(History(Run(START, as_), k), k, jobs, i);
  }

  predicate Runs(tx: Tx, k: Key) {
    tx.phase.Busy? && tx.phase.job.key == k
  }

  /** In incremental mode two transactions never execute for the same entity at once. */
  lemma ExecutionsDoNotOverlap(as_: seq<Action>, jobs: set<Job>, k: Key, t: nat, u: nat)
    requires Asks(as_, jobs) && AllIncremental(jobs)
    requires Runs(TxOf(Run(START, as_), t), k) && Runs(TxOf(Run(START, as_), u), k)
    ensures t == u
  {
    RunInv(as_, jobs);
    assert TxInv(Run(START, as_), t, k, jobs) && TxInv(Run(START, as_), u, k, jobs);
  }

  ghost predicate Reachable(s: Sys) {
    exists as_ :: Run(START, as_) == s
  }

  lemma ReachNext(s: Sys, a: Action, after: Sys)
    requires Reachable(s) && after == Step(s, a)
    ensures Reachable(after)
  {
    var as_ :| Run(START, as_) == s;
    assert (as_ + [a])[..|as_|] == as_;
    assert Run(START, as_ + [a]) == after;
  }

  // In force mode they can.

  /** The forced job of a transaction, and a state in which 1 has inserted its row and 2
      has found none. */
  function Forced(k: Key): Job {
    Job(k, "h", 3, Force)
  }

  function Inserted(k: Key): Sys {
    Sys(map[], map[],
        map[1 := Tx(Busy(Forced(k), true), map[k := Some(PendingRow("h"))], map[k := []]),
            2 := Tx(Missed(Forced(k)), map[], map[])], map[k := 1])
  }

  function Recorded(k: Key): Sys {
    Put(Inserted(k), 1, k, Some(Row("h", Synced, 0)), [Outcome("h", true)], Idle)
  }

  lemma Inserting(k: Key)
    ensures Reachable(Inserted(k))
  {
    var missed := Tx(Missed(Forced(k)), map[], map[]);
    var s := START.(txs := map[1 := missed]);
    assert Run(START, []) == START;
    ReachNext(START, Select(1, Forced(k)), s);
    ReachNext(s, Select(2, Forced(k)), s.(txs := map[1 := missed, 2 := missed]));
    ReachNext(s.(txs := map[1 := missed, 2 := missed]), Insert(1), Inserted(k));
  }

  lemma Recording(k: Key)
    ensures Reachable(Recorded(k))
  {
    var s := Inserted(k);
    Inserting(k);
    assert Visible(s, 1, k) == Some(PendingRow("h"));
    assert AfterOutcome(PendingRow("h"), "h", true) == Row("h", Synced, 0);
    ReachNext(s, Finish(1, true), Recorded(k));
  }

  /** One transaction finds no row, fails to insert it because another has committed one
      meanwhile, and executes beside a third that locked that row. */
  lemma ForcedExecutionsCanOverlap(k: Key)
    ensures exists s :: Reachable(s) && Runs(TxOf(s, 2), k) && Runs(TxOf(s, 3), k)
  {
    var s := Step(Recorded(k), Commit(1));
    Recording(k);
    ReachNext(Recorded(k), Commit(1), s);
    assert s.rows == map[k := Row("h", Synced, 0)];
    assert Free(s, 3, k) && Visible(s, 3, k).Some?;
    var after := Step(s, Select(3, Forced(k)));
    ReachNext(s, Select(3, Forced(k)), after);
    assert TxOf(after, 3).phase == Busy(Forced(k), true);
    assert TxOf(after, 2).phase == Missed(Forced(k)) && Visible(after, 2, k).Some? && !Contended(after, 2, k);
    ReachNext(after, Insert(2), Step(after, Insert(2)));
  }

  // ---- one transaction with nobody in its way ----

  /** The state differs at most in what is committed for `k` and in the history of it, and
      `t` has ended. */
  ghost predicate EndsWith(s: Sys, after: Sys, t: nat, k: Key, row: Option<Row>, es: seq<Event>) {
    Committed(after, k) == row && History(after, k) == History(s, k) + es &&
    (forall other :: other != k ==>
     Committed(after, other) == Committed(s, other) && History(after, other) == History(s, other)) &&
    TxOf(after, t) == FRESH && (forall u: nat :: u != t ==> TxOf(after, u) == TxOf(s, u)) && !Owns(after, t, k)
  }

  /** Three steps: check, insert if there is no row, record the outcome. */
  function JobDone(s: Sys, t: nat, job: Job, ok: bool): Sys {
    Step(Step(Step(s, Select(t, job)), Insert(t)), Finish(t, ok))
  }

  /** Nothing is committed yet, and the transaction has this outcome to commit. */
  ghost predicate HasDone(s: Sys, after: Sys, t: nat, k: Key, e: Event) {
    after.rows == s.rows && after.hist == s.hist && (forall u: nat :: u != t ==> TxOf(after, u) == TxOf(s, u)) &&
    TxOf(after, t) == Tx(Idle, map[k := Apply(Committed(s, k), e)], map[k := [e]])
  }

  lemma FinishIs(s: Sys, mid: Sys, t: nat, job: Job, ok: bool)
    requires TxOf(s, t) == FRESH && mid.rows == s.rows && mid.hist == s.hist
    requires forall u: nat :: u != t ==> TxOf(mid, u) == TxOf(s, u)
    requires var tx := TxOf(mid, t);
             tx.phase == Busy(job, true) &&
             if Committed(s, job.key).Some? then tx.work == map[] && tx.news == map[]
             else tx.work == map[job.key := Some(PendingRow(job.hash))] && tx.news == map[job.key := []]
    ensures HasDone(s, Step(mid, Finish(t, ok)), t, job.key, Outcome(job.hash, ok))
  {
    assert [] + [Outcome(job.hash, ok)] == [Outcome(job.hash, ok)];
  }

  lemma JobInserts(s: Sys, t: nat, job: Job, ok: bool)
    requires TxOf(s, t) == FRESH && job.key !in s.owner && Committed(s, job.key).None?
    ensures HasDone(s, JobDone(s, t, job, ok), t, job.key, Outcome(job.hash, ok))
  {
    var s1 := Step(s, Select(t, job));
    assert s1 == SetTx(s, t, FRESH.(phase := Missed(job)));
    var s2 := Step(s1, Insert(t));
    assert s2 == Put(s1, t, job.key, Some(PendingRow(job.hash)), [], Busy(job, true));
    FinishIs(s, s2, t, job, ok);
  }

  lemma JobFinds(s: Sys, t: nat, job: Job, ok: bool)
    requires TxOf(s, t) == FRESH && job.key !in s.owner && Committed(s, job.key).Some?
    ensures var s' := JobDone(s, t, job, ok);
            if Executes(job.mode, Decide(Committed(s, job.key).value, job.hash, job.maxRetries))
            then HasDone(s, s', t, job.key, Outcome(job.hash, ok))
            else s'.rows == s.rows && s'.hist == s.hist && forall u: nat :: TxOf(s', u) == TxOf(s, u)
  {
    var s1 := Step(s, Select(t, job));
    assert Step(s1, Insert(t)) == s1;
    if Executes(job.mode, Decide(Committed(s, job.key).value, job.hash, job.maxRetries)) {
      FinishIs(s, s1, t, job, ok);
    }
  }

  lemma CommitIs(s: Sys, t: nat, k: Key, row: Option<Row>, es: seq<Event>)
    requires TxOf(s, t) == Tx(Idle, map[k := row], map[k := es]) ||
             (TxOf(s, t) == FRESH && row == Committed(s, k) && es == [])
    ensures EndsWith(s, Step(s, Commit(t)), t, k, row, es)
  {
    var after := Step(s, Commit(t));
    forall other: Key ensures History(s, other) + [] == History(s, other) {}
    forall other: Key ensures Committed(after, other) == Visible(s, t, other) {}
    forall other: Key ensures History(after, other) == History(s, other) + News(s, t, other) {}
  }

  /** A job whose key nobody owns does, in its transaction, exactly what it does when no
      other transaction exists: it runs if there is no row or the row calls for it, and
      then commits the row that the outcome leaves. */
  lemma JobAlone(s: Sys, t: nat, job: Job, ok: bool)
    requires TxOf(s, t) == FRESH && job.key !in s.owner
    ensures var row := Committed(s, job.key);
            var calls := row.None? || Executes(job.mode, Decide(row.value, job.hash, job.maxRetries));
            EndsWith(s, Step(JobDone(s, t, job, ok), Commit(t)), t, job.key,
                     if calls then Apply(row, Outcome(job.hash, ok)) else row,
                     if calls then [Outcome(job.hash, ok)] else [])
  {
    var row := Committed(s, job.key);
    var done := JobDone(s, t, job, ok);
    if row.None? { JobInserts(s, t, job, ok); } else { JobFinds(s, t, job, ok); }
    if row.None? || Executes(job.mode, Decide(row.value, job.hash, job.maxRetries)) {
      CommitIs(done, t, job.key, Apply(row, Outcome(job.hash, ok)), [Outcome(job.hash, ok)]);
      EndsOn(s, done, t, job.key, Apply(row, Outcome(job.hash, ok)), [Outcome(job.hash, ok)]);
    } else {
      CommitIs(done, t, job.key, row, []);
      EndsOn(s, done, t, job.key, row, []);
    }
  }

  lemma EndsOn(s: Sys, done: Sys, t: nat, k: Key, row: Option<Row>, es: seq<Event>)
    requires done.rows == s.rows && done.hist == s.hist && forall u: nat :: u != t ==> TxOf(done, u) == TxOf(s, u)
    requires EndsWith(done, Step(done, Commit(t)), t, k, row, es)
    ensures EndsWith(s, Step(done, Commit(t)), t, k, row, es)
  {
  }

  /** Maintenance of a row that nobody owns, likewise: a stale mark changes synced rows, a
      reset failed ones, a clear any, and nothing else changes anything. */
  lemma MaintenanceAlone(s: Sys, t: nat, e: Event, k: Key)
    requires TxOf(s, t) == FRESH && k !in s.owner && !e.Outcome?
    ensures var row := Committed(s, k);
            var fits := row.Some? && (e.Cleared? || (e.MarkedStale? && row.value.status == Synced) ||
                                      (e.WasReset? && row.value.status == SyncStatus.Failed));
            EndsWith(s, Step(Step(s, Maintain(t, e, k)), Commit(t)), t, k,
                     if !fits then row
                     else if e.Cleared? then None
                     else if e.MarkedStale? then Some(Row(row.value.hash, Stale, row.value.attempts))
                     else Some(Row(row.value.hash, Pending, 0)),
                     if fits then [e] else [])
  {
    var s', row := Step(s, Maintain(t, e, k)), Committed(s, k);
    if row.Some? && Maintains(e, row.value) {
      assert [] + [e] == [e];
      CommitIs(s', t, k, Apply(row, e), [e]);
      EndsOn(s, s', t, k, Apply(row, e), [e]);
    } else {
      CommitIs(s, t, k, row, []);
    }
  }

  /** A job whose row another transaction owns waits: its check changes nothing. */
  lemma JobWaits(s: Sys, t: nat, job: Job)
    requires TxOf(s, t).phase.Idle? && Visible(s, t, job.key).Some? && job.key in s.owner && s.owner[job.key] != t
    ensures Step(s, Select(t, job)) == s
  {
  }
}
