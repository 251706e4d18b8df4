/** The on-premise agent's queue of outbound operations, and the flush that drives it.
    A row's id is its position in the table plus one. */
module OfflineQueue {

  datatype Item = Item(entityType: string, operation: string, payload: string)

  datatype Status = Pending | Processed | DeadLetter

  datatype Row = Row(item: Item, status: Status, attempts: nat, maxAttempts: int)

  /** The default of the table, which every row gets. */
  const MAX_ATTEMPTS := 5

  const FLUSH_LIMIT := 50

  function NewRow(item: Item): Row {
    Row(item, Pending, 0, MAX_ATTEMPTS)
  }

  function NewRows(items: seq<Item>): (rows: seq<Row>)
    ensures |rows| == |items|
  {
    if items == [] then [] else NewRows(items[..|items| - 1]) + [NewRow(items[|items| - 1])]
  }

  predicate IsPending(row: Row) {
    row.status.Pending? && row.attempts < row.maxAttempts
  }

  /** The rows to send, in order. */
  function AllPending(rows: seq<Row>): seq<nat> {
    if rows == [] then []
    else
      var n := |rows| - 1;
      AllPending(rows[..n]) + (if IsPending(rows[n]) then [n + 1] else [])
  }

  function AtMost<T>(s: seq<T>, limit: nat): seq<T> {
    if |s| <= limit then s else s[..limit]
  }

  function MarkedProcessed(row: Row): Row {
    row.(status := Processed)
  }

  function MarkedFailed(row: Row): Row {
    row.(attempts := row.attempts + 1, status := if row.attempts + 1 >= row.maxAttempts then DeadLetter else Pending)
  }

  function Marked(rows: seq<Row>, id: nat, ok: bool): seq<Row> {
    if 1 <= id <= |rows| then
      rows[id - 1 := if ok then MarkedProcessed(rows[id - 1]) else MarkedFailed(rows[id - 1])]
    else rows
  }

  class OfflineQueue {
    var rows: seq<Row>

    constructor ()
      ensures rows == []
    {
      rows := [];
    }

    method Enqueue(item: Item) returns (id: nat)
      modifies this
      ensures rows == old(rows) + [NewRow(item)] && id == |rows|
    {
      rows := rows + [Row(item, Pending, 0, MAX_ATTEMPTS)];
      return |rows|;
    }

    method EnqueueAll(items: seq<Item>)
      modifies this
      ensures rows == old(rows) + NewRows(items)
    {
      for i := 0 to |items|
        invariant rows == old(rows) + NewRows(items[..i])
      {
        assert items[..i + 1][..i] == items[..i];
        var _ := Enqueue(items[i]);
      }
      assert items[..|items|] == items;
    }

    method GetPending(limit: nat) returns (ids: seq<nat>)
      ensures ids == AtMost(AllPending(rows), limit)
    {
      ids := [];
      var i := 0;
      while i < |rows| && |ids| < limit
        invariant 0 <= i <= |rows|
        invariant ids == AllPending(rows[..i]) && |ids| <= limit
      {
        assert rows[..i + 1][..i] == rows[..i];
        if rows[i].status == Pending && rows[i].attempts < rows[i].maxAttempts {
          ids := ids + [i + 1];
        }
        i := i + 1;
      }
      PendingPrefix(rows, i);
      if i == |rows| { assert rows[..i] == rows; }
    }

    method MarkProcessed(id: nat)
      modifies this
      ensures rows == Marked(old(rows), id, true)
    {
      if 1 <= id <= |rows| {
        rows := rows[id - 1 := rows[id - 1].(status := Processed)];
      }
    }

    method MarkFailed(id: nat)
      modifies this
      ensures rows == Marked(old(rows), id, false)
    {
      if 1 <= id <= |rows| {
        var attempts := rows[id - 1].attempts + 1;
        var status := if attempts >= rows[id - 1].maxAttempts then DeadLetter else Pending;
        rows := rows[id - 1 := rows[id - 1].(attempts := attempts, status := status)];
      }
    }
  }

  lemma {:induction false} PendingPrefix(rows: seq<Row>, i: nat)
    requires i <= |rows|
    ensures AllPending(rows[..i]) <= AllPending(rows)
    decreases |rows| - i
  {
    if i < |rows| {
      assert rows[..i + 1][..i] == rows[..i];
      PendingPrefix(rows, i + 1);
    } else {
      assert rows[..i] == rows;
    }
  }

  // ---- the flush ----

  datatype Reply = Code(status: int) | RequestError

  predicate Accepted(reply: Reply) {
    reply.Code? && reply.status < 300
  }

  datatype Send = Send(id: nat, reply: Reply)

  /** The table and the record of everything sent. */
  datatype Queue = Queue(rows: seq<Row>, log: seq<Send>)

  const START := Queue([], [])

  /** Rows `ids[i..]` are sent in turn, to the first request error. `replies` answers the
      sends, and `arrivals` are enqueued meanwhile. */
  function FlushFrom(q: Queue, ids: seq<nat>, replies: nat -> Reply, arrivals: nat -> seq<Item>, i: nat): Queue
    requires i <= |ids|
    decreases |ids| - i
  {
    if i == |ids| then q
    else
      var sent := Queue(Marked(q.rows + NewRows(arrivals(i)), ids[i], Accepted(replies(i))),
                        q.log + [Send(ids[i], replies(i))]);
      if replies(i).RequestError? then sent else FlushFrom(sent, ids, replies, arrivals, i + 1)
  }

  function Flush(q: Queue, replies: nat -> Reply, arrivals: nat -> seq<Item>): Queue {
    FlushFrom(q, AtMost(AllPending(q.rows), FLUSH_LIMIT), replies, arrivals, 0)
  }

  /** The sends of one flush, on top of those of a `log` before it. */
  method FlushQueue(queue: OfflineQueue, replies: nat -> Reply, arrivals: nat -> seq<Item>, ghost log: seq<Send>)
    returns (sends: seq<Send>)
    modifies queue
    ensures Queue(queue.rows, log + sends) == Flush(Queue(old(queue.rows), log), replies, arrivals)
  {
    var pending := queue.GetPending(FLUSH_LIMIT);
    ghost var q := Queue(queue.rows, log);
    sends := [];
    assert log + sends == log;
    for i := 0 to |pending|
      invariant FlushFrom(Queue(queue.rows, log + sends), pending, replies, arrivals, i) == Flush(q, replies, arrivals)
    {
      queue.EnqueueAll(arrivals(i));
      assert log + (sends + [Send(pending[i], replies(i))]) == log + sends + [Send(pending[i], replies(i))];
      sends := sends + [Send(pending[i], replies(i))];
      match replies(i)
      case RequestError =>
        queue.MarkFailed(pending[i]);
        return;
      case Code(status) =>
        if status < 300 {
          queue.MarkProcessed(pending[i]);
        } else {
          queue.MarkFailed(pending[i]);
        }
    }
  }

  // ---- runs ----

  datatype Action = Enqueue(item: Item) | FlushAll(replies: nat -> Reply, arrivals: nat -> seq<Item>)

  function Step(q: Queue, a: Action): Queue {
    match a
    case Enqueue(item) => q.(rows := q.rows + [NewRow(item)])
    case FlushAll(replies, arrivals) => Flush(q, replies, arrivals)
  }

  function Run(as_: seq<Action>): Queue {
    if as_ == [] then START else Step(Run(as_[..|as_| - 1]), as_[|as_| - 1])
  }

  /** Whether each send of a row was accepted. */
  function SendsOf(log: seq<Send>, id: nat): seq<bool> {
    if log == [] then []
    else
      var n := |log| - 1;
      SendsOf(log[..n], id) + (if log[n].id == id then [Accepted(log[n].reply)] else [])
  }

  /** What a row says of its sends: it was accepted at most once, by the last of them; it
      was sent at most `maxAttempts` times; and it is processed, dead or pending as it was
      accepted, sent in vain that often, or neither. */
  predicate Tells(row: Row, sends: seq<bool>) {
    (forall k :: 0 <= k < |sends| - 1 ==> !sends[k]) &&
    |sends| <= row.maxAttempts &&
    (if sends != [] && sends[|sends| - 1] then row.status.Processed? && row.attempts == |sends| - 1
     else row.attempts == |sends| &&
          row.status == if |sends| == row.maxAttempts then DeadLetter else Pending)
  }

  predicate InTable(rows: seq<Row>, id: nat) {
    1 <= id <= |rows|
  }

  ghost predicate Inv(q: Queue) {
    (forall i :: 0 <= i < |q.rows| ==> q.rows[i].maxAttempts >= 1 && Tells(q.rows[i], SendsOf(q.log, i + 1))) &&
    forall k :: 0 <= k < |q.log| ==> InTable(q.rows, q.log[k].id)
  }

  /** The rows of these ids are all pending, and no id comes twice. */
  ghost predicate Due(rows: seq<Row>, ids: seq<nat>, i: nat) {
    (forall k :: i <= k < |ids| ==> 1 <= ids[k] <= |rows| && IsPending(rows[ids[k] - 1])) &&
    forall j, k :: 0 <= j < k < |ids| ==> ids[j] < ids[k]
  }

  lemma {:induction false} PendingIsDue(rows: seq<Row>)
    ensures Due(rows, AllPending(rows), 0)
    ensures forall id :: id in AllPending(rows) <==> 1 <= id <= |rows| && IsPending(rows[id - 1])
  {
    if rows != [] { PendingIsDue(rows[..|rows| - 1]); }
  }

  lemma {:induction false} NewRowsAre(items: seq<Item>)
    ensures forall i :: 0 <= i < |items| ==> NewRows(items)[i] == NewRow(items[i])
  {
    if items != [] { NewRowsAre(items[..|items| - 1]); }
  }

  lemma {:induction false} NotSent(log: seq<Send>, id: nat)
    requires forall k :: 0 <= k < |log| ==> log[k].id != id
    ensures SendsOf(log, id) == []
  {
    if log != [] { NotSent(log[..|log| - 1], id); }
  }

  lemma ArrivalsInv(q: Queue, items: seq<Item>)
    requires Inv(q)
    ensures Inv(q.(rows := q.rows + NewRows(items)))
  {
    NewRowsAre(items);
    var rows := q.rows + NewRows(items);
    forall i | 0 <= i < |rows| ensures rows[i].maxAttempts >= 1 && Tells(rows[i], SendsOf(q.log, i + 1)) {
      if i >= |q.rows| {
        forall k | 0 <= k < |q.log| ensures q.log[k].id != i + 1 { assert InTable(q.rows, q.log[k].id); }
        NotSent(q.log, i + 1);
      }
    }
    forall k | 0 <= k < |q.log| ensures InTable(rows, q.log[k].id) { assert InTable(q.rows, q.log[k].id); }
  }

  lemma TellsNext(row: Row, sends: seq<bool>, ok: bool)
    requires Tells(row, sends) && IsPending(row)
    ensures Tells(if ok then MarkedProcessed(row) else MarkedFailed(row), sends + [ok])
  {
  }

  lemma SendInv(q: Queue, id: nat, reply: Reply)
    requires Inv(q) && 1 <= id <= |q.rows| && IsPending(q.rows[id - 1])
    ensures Inv(Queue(Marked(q.rows, id, Accepted(reply)), q.log + [Send(id, reply)]))
  {
    var log, rows := q.log + [Send(id, reply)], Marked(q.rows, id, Accepted(reply));
    assert log[..|q.log|] == q.log;
    forall i | 0 <= i < |rows| ensures rows[i].maxAttempts >= 1 && Tells(rows[i], SendsOf(log, i + 1)) {
      assert Tells(q.rows[i], SendsOf(q.log, i + 1));
      if i + 1 == id {
        TellsNext(q.rows[i], SendsOf(q.log, id), Accepted(reply));
      } else {
        assert SendsOf(q.log, i + 1) + [] == SendsOf(q.log, i + 1);
      }
    }
  }

  lemma {:induction false} FlushFromInv(q: Queue, ids: seq<nat>, replies: nat -> Reply, arrivals: nat -> seq<Item>,
                                        i: nat)
    requires Inv(q) && i <= |ids| && Due(q.rows, ids, i)
    ensures Inv(FlushFrom(q, ids, replies, arrivals, i))
    decreases |ids| - i
  {
    if i < |ids| {
      var arrived := q.(rows := q.rows + NewRows(arrivals(i)));
      ArrivalsInv(q, arrivals(i));
      SendInv(arrived, ids[i], replies(i));
      if replies(i).Code? {
        var sent := Queue(Marked(arrived.rows, ids[i], Accepted(replies(i))), q.log + [Send(ids[i], replies(i))]);
        assert Due(sent.rows, ids, i + 1);
        FlushFromInv(sent, ids, replies, arrivals, i + 1);
      }
    }
  }

  /** In every run, with any replies and with operations enqueued during flushes, every
      row tells its sends: it is sent at most `maxAttempts` times, and never again once it
      was accepted or is dead. */
  lemma {:induction false} EveryRowTellsItsSends(as_: seq<Action>)
    ensures Inv(Run(as_))
  {
    if as_ != [] {
      var q := Run(as_[..|as_| - 1]);
      EveryRowTellsItsSends(as_[..|as_| - 1]);
      match as_[|as_| - 1]
      case Enqueue(item) =>
        ArrivalsInv(q, [item]);
        assert NewRows([item]) == [NewRow(item)];
      case FlushAll(replies, arrivals) =>
        PendingIsDue(q.rows);
        FlushFromInv(q, AtMost(AllPending(q.rows), FLUSH_LIMIT), replies, arrivals, 0);
    }
  }

  lemma {:induction false} FlushFromKeeps(q: Queue, ids: seq<nat>, replies: nat -> Reply, arrivals: nat -> seq<Item>,
                                          i: nat)
    requires i <= |ids|
    ensures var after := FlushFrom(q, ids, replies, arrivals, i);
            |q.rows| <= |after.rows| && (forall k :: 0 <= k < |q.rows| ==> after.rows[k].item == q.rows[k].item) &&
            q.log <= after.log
    decreases |ids| - i
  {
    if i < |ids| && replies(i).Code? {
      var sent := Queue(Marked(q.rows + NewRows(arrivals(i)), ids[i], Accepted(replies(i))),
                        q.log + [Send(ids[i], replies(i))]);
      FlushFromKeeps(sent, ids, replies, arrivals, i + 1);
    }
  }

  /** No step loses or changes an operation: it stays a row, in one of the three states. */
  lemma NothingIsLost(q: Queue, a: Action)
    ensures |q.rows| <= |Step(q, a).rows|
    ensures forall k :: 0 <= k < |q.rows| ==> Step(q, a).rows[k].item == q.rows[k].item
  {
    if a.FlushAll? {
      FlushFromKeeps(q, AtMost(AllPending(q.rows), FLUSH_LIMIT), a.replies, a.arrivals, 0);
    }
  }

  // ---- the same, in status codes ----

  /** The send failed: it was not answered, or answered with a status of 300 or above. */
  predicate IsRefused(send: Send) {
    send.reply == RequestError || (send.reply.Code? && send.reply.status >= 300)
  }

  function Refusals(log: seq<Send>, id: nat): nat {
    if log == [] then 0
    else
      var send := log[|log| - 1];
      Refusals(log[..|log| - 1], id) + (if send.id == id && IsRefused(send) then 1 else 0)
  }

  predicate WasAccepted(log: seq<Send>, id: nat) {
    exists k :: 0 <= k < |log| && log[k].id == id && !IsRefused(log[k])
  }

  function CountFalse(sends: seq<bool>): nat {
    if sends == [] then 0 else CountFalse(sends[..|sends| - 1]) + (if sends[|sends| - 1] then 0 else 1)
  }

  lemma AcceptedLater(log: seq<Send>, id: nat)
    requires log != []
    ensures WasAccepted(log, id) <==>
            WasAccepted(log[..|log| - 1], id) || (log[|log| - 1].id == id && !IsRefused(log[|log| - 1]))
  {
    var front := log[..|log| - 1];
    if WasAccepted(front, id) {
      var k :| 0 <= k < |front| && front[k].id == id && !IsRefused(front[k]);
      assert log[k] == front[k];
    }
    if WasAccepted(log, id) {
      var k :| 0 <= k < |log| && log[k].id == id && !IsRefused(log[k]);
      if k < |front| { assert front[k] == log[k]; }
    }
  }

  lemma OneMore(sends: seq<bool>, accepted: bool)
    ensures CountFalse(sends + [accepted]) == CountFalse(sends) + (if accepted then 0 else 1)
    ensures true in sends + [accepted] <==> true in sends || accepted
  {
    assert (sends + [accepted])[..|sends|] == sends;
    if accepted { assert (sends + [accepted])[|sends|]; }
    if true in sends {
      var k :| 0 <= k < |sends| && sends[k];
      assert (sends + [accepted])[k];
    }
  }

  lemma {:induction false} SendsByStatus(log: seq<Send>, id: nat)
    ensures CountFalse(SendsOf(log, id)) == Refusals(log, id)
    ensures true in SendsOf(log, id) <==> WasAccepted(log, id)
  {
    if log != [] {
      SendsByStatus(log[..|log| - 1], id);
      AcceptedLater(log, id);
      var front := SendsOf(log[..|log| - 1], id);
      if log[|log| - 1].id == id { OneMore(front, Accepted(log[|log| - 1].reply)); }
      else { assert front + [] == front; }
    }
  }

  lemma {:induction false} AllFalse(sends: seq<bool>)
    requires forall k :: 0 <= k < |sends| ==> !sends[k]
    ensures CountFalse(sends) == |sends|
  {
    if sends != [] { AllFalse(sends[..|sends| - 1]); }
  }

  lemma TellsByStatus(row: Row, sends: seq<bool>)
    requires Tells(row, sends)
    ensures row.attempts == CountFalse(sends)
    ensures row.status == if true in sends then Processed
                          else if CountFalse(sends) == row.maxAttempts then DeadLetter else Pending
  {
    if sends != [] {
      AllFalse(sends[..|sends| - 1]);
      if sends[|sends| - 1] { assert true in sends; }
    }
  }

  /** In every run a row counts the sends that were refused, with no answer or a status of
      300 or above; it is processed if and only if a send was accepted, and otherwise dead
      if and only if five were refused. */
  lemma RowsByStatus(as_: seq<Action>, i: nat)
    requires i < |Run(as_).rows|
    ensures var q := Run(as_);
            q.rows[i].attempts == Refusals(q.log, i + 1) &&
            q.rows[i].status == if WasAccepted(q.log, i + 1) then Processed
                                else if Refusals(q.log, i + 1) == 5 then DeadLetter else Pending
  {
    var q := Run(as_);
    RowTells(as_, i);
    SendsByStatus(q.log, i + 1);
    TellsByStatus(q.rows[i], SendsOf(q.log, i + 1));
  }

  lemma RowTells(as_: seq<Action>, i: nat)
    requires i < |Run(as_).rows|
    ensures Run(as_).rows[i].maxAttempts == 5 && Tells(Run(as_).rows[i], SendsOf(Run(as_).log, i + 1))
  {
    EveryRowTellsItsSends(as_);
    FiveAttempts(as_);
  }

  ghost predicate AllowFive(rows: seq<Row>) {
    forall i :: 0 <= i < |rows| ==> rows[i].maxAttempts == 5
  }

  lemma {:induction false} FlushAllowsFive(q: Queue, ids: seq<nat>, replies: nat -> Reply, arrivals: nat -> seq<Item>,
                                           i: nat)
    requires i <= |ids| && AllowFive(q.rows)
    ensures AllowFive(FlushFrom(q, ids, replies, arrivals, i).rows)
    decreases |ids| - i
  {
    if i < |ids| {
      NewRowsAre(arrivals(i));
      var sent := Queue(Marked(q.rows + NewRows(arrivals(i)), ids[i], Accepted(replies(i))),
                        q.log + [Send(ids[i], replies(i))]);
      assert AllowFive(sent.rows);
      if replies(i).Code? { FlushAllowsFive(sent, ids, replies, arrivals, i + 1); }
    }
  }

  lemma {:induction false} FiveAttempts(as_: seq<Action>)
    ensures AllowFive(Run(as_).rows)
    decreases |as_|
  {
    if as_ != [] {
      var q := Run(as_[..|as_| - 1]);
      FiveAttempts(as_[..|as_| - 1]);
      match as_[|as_| - 1]
      case Enqueue(item) =>
      case FlushAll(replies, arrivals) =>
        FlushAllowsFive(q, AtMost(AllPending(q.rows), FLUSH_LIMIT), replies, arrivals, 0);
    }
  }

  // ---- what one flush sends ----

  predicate AllAnswered(replies: nat -> Reply, from: nat, to: int) {
    forall k: nat :: from <= k < to ==> replies(k).Code?
  }

  /** From the pending rows of the ids in `ids`, in order: up to the first that was not
      answered. */
  lemma {:induction false} FlushSends(q: Queue, ids: seq<nat>, replies: nat -> Reply, arrivals: nat -> seq<Item>,
                                      i: nat)
      returns (n: nat)
    requires i <= |ids|
    ensures i <= n <= |ids| && (n < |ids| ==> n > i && replies(n - 1) == RequestError)
    ensures AllAnswered(replies, i, n - 1)
    ensures FlushFrom(q, ids, replies, arrivals, i).log == q.log + SendsTo(ids, replies, i, n)
    decreases |ids| - i
  {
    n := i;
    if i < |ids| {
      var sent := Queue(Marked(q.rows + NewRows(arrivals(i)), ids[i], Accepted(replies(i))),
                        q.log + [Send(ids[i], replies(i))]);
      n := i + 1;
      if replies(i).Code? {
        n := FlushSends(sent, ids, replies, arrivals, i + 1);
      }
      SendsOnward(q.log, ids, replies, i, n);
    }
  }

  lemma SendsOnward(log: seq<Send>, ids: seq<nat>, replies: nat -> Reply, i: nat, n: nat)
    requires i < n <= |ids|
    ensures log + [Send(ids[i], replies(i))] + SendsTo(ids, replies, i + 1, n) == log + SendsTo(ids, replies, i, n)
    ensures n == i + 1 ==> log + [Send(ids[i], replies(i))] == log + SendsTo(ids, replies, i, n)
  {
    assert SendsTo(ids, replies, i, n) == [Send(ids[i], replies(i))] + SendsTo(ids, replies, i + 1, n);
  }

  function SendsTo(ids: seq<nat>, replies: nat -> Reply, i: nat, n: nat): (sends: seq<Send>)
    requires i <= n <= |ids|
    ensures |sends| == n - i && forall k :: 0 <= k < n - i ==> sends[k] == Send(ids[i + k], replies(i + k))
  {
    seq(n - i, k requires 0 <= k < n - i => Send(ids[i + k], replies(i + k)))
  }

  /** A flush sends the first 50 pending rows in id order, or those up to the first that is
      not answered. */
  lemma FlushSendsThePending(q: Queue, replies: nat -> Reply, arrivals: nat -> seq<Item>)
      returns (ids: seq<nat>, n: nat)
    ensures (forall id :: id in ids <==> 1 <= id <= |q.rows| && q.rows[id - 1].status == Pending &&
                                         q.rows[id - 1].attempts < q.rows[id - 1].maxAttempts)
    ensures forall j, k :: 0 <= j < k < |ids| ==> ids[j] < ids[k]
    ensures n <= |ids| && AllAnswered(replies, 0, n - 1) &&
            (n == |ids| || n == 50 || (n > 0 && replies(n - 1) == RequestError)) && n <= 50
    ensures Flush(q, replies, arrivals).log == q.log + SendsTo(ids, replies, 0, n)
  {
    ids := AllPending(q.rows);
    PendingIsDue(q.rows);
    n := FlushSends(q, AtMost(ids, FLUSH_LIMIT), replies, arrivals, 0);
    assert SendsTo(AtMost(ids, FLUSH_LIMIT), replies, 0, n) == SendsTo(ids, replies, 0, n);
  }

  // ---- draining ----

  /** The sends that rows still have before they are dead. */
  function Owed(rows: seq<Row>): nat {
    if rows == [] then 0
    else
      var row := rows[|rows| - 1];
      Owed(rows[..|rows| - 1]) + (if IsPending(row) then row.maxAttempts - row.attempts else 0)
  }

  lemma {:induction false} OwedMarked(rows: seq<Row>, id: nat, ok: bool)
    requires 1 <= id <= |rows| && IsPending(rows[id - 1])
    ensures Owed(Marked(rows, id, ok)) < Owed(rows)
  {
    var n := |rows| - 1;
    var marked := Marked(rows, id, ok);
    if id - 1 < n {
      OwedMarked(rows[..n], id, ok);
      assert marked[..n] == Marked(rows[..n], id, ok);
    } else {
      assert marked[..n] == rows[..n];
    }
  }

  function Nothing(i: nat): seq<Item> {
    []
  }

  lemma NothingNew(rows: seq<Row>)
    ensures rows + NewRows([]) == rows
  {
  }

  lemma {:induction false} FlushFromOwes(q: Queue, ids: seq<nat>, replies: nat -> Reply, i: nat)
    requires i <= |ids| && Due(q.rows, ids, i)
    ensures var rows := FlushFrom(q, ids, replies, Nothing, i).rows;
            Owed(rows) <= Owed(q.rows) && (i < |ids| ==> Owed(rows) < Owed(q.rows))
    decreases |ids| - i
  {
    if i < |ids| {
      NothingNew(q.rows);
      var sent := Queue(Marked(q.rows, ids[i], Accepted(replies(i))), q.log + [Send(ids[i], replies(i))]);
      OwedMarked(q.rows, ids[i], Accepted(replies(i)));
      if replies(i).Code? {
        assert Due(sent.rows, ids, i + 1);
        FlushFromOwes(sent, ids, replies, i + 1);
      }
    }
  }

  function Flushes(q: Queue, replies: nat -> nat -> Reply, n: nat): Queue {
    if n == 0 then q else Flush(Flushes(q, replies, n - 1), replies(n), Nothing)
  }

  lemma FlushOwes(q: Queue, replies: nat -> Reply)
    ensures var rows := Flush(q, replies, Nothing).rows;
            if AllPending(q.rows) == [] then rows == q.rows else Owed(rows) < Owed(q.rows)
  {
    PendingIsDue(q.rows);
    FlushFromOwes(q, AtMost(AllPending(q.rows), FLUSH_LIMIT), replies, 0);
  }

  /** With nothing enqueued, each flush that finds something pending uses up a send that
      is owed, so as many flushes as sends are owed leave nothing pending. */
  lemma {:induction false} FlushingDrains(q: Queue, replies: nat -> nat -> Reply, n: nat)
    ensures var rows := Flushes(q, replies, n).rows;
            AllPending(rows) == [] || Owed(rows) + n <= Owed(q.rows)
  {
    if n > 0 {
      FlushingDrains(q, replies, n - 1);
      FlushOwes(Flushes(q, replies, n - 1), replies(n));
    }
  }

  lemma {:induction false} NothingOwedNothingPending(rows: seq<Row>)
    ensures Owed(rows) == 0 <==> AllPending(rows) == []
  {
    if rows != [] { NothingOwedNothingPending(rows[..|rows| - 1]); }
  }

  lemma DrainsInTime(q: Queue, replies: nat -> nat -> Reply, n: nat)
    requires n >= Owed(q.rows)
    ensures AllPending(Flushes(q, replies, n).rows) == []
  {
    FlushingDrains(q, replies, n);
    NothingOwedNothingPending(Flushes(q, replies, n).rows);
  }
}
