/**
 * The transactional outbox table. Each SQL statement of the repository is a
 * guarded update of the rows: a row moves PENDING -> PROCESSING -> PUBLISHED,
 * or to FAILED, and its retry counter only grows while it is PROCESSING.
 * `ORDER BY created_at ASC` is the table order; `CreatedInOrder` says when
 * the two agree, and `SaveKeepsCreatedInOrder` / `ApplyKeepsCreatedInOrder`
 * show they do for every table built with a clock that never goes back.
 */
module OutboxRepository {
  import opened Common
  import opened Value
  import opened Event

  /** `event.OutboxEvent`: one row of the `outbox` table. */
  datatype OutboxEvent = OutboxEvent(
    id: int,
    eventID: Uuid,
    aggregateID: Uuid,
    aggregateType: string,
    eventType: string,
    eventData: Bytes,
    version: int,
    createdAt: Time,
    publishedAt: Option<Time>,
    status: OutboxStatus,
    retryCount: int,
    errorMessage: Option<string>)

  const ErrMarshal: Error := Error(RepositoryError, "failed to marshal event data")
  const MaxRetriesExceededMessage: string := "max retries exceeded"

  /** The table and the next value of its auto-increment `id` column. */
  datatype Table = Table(rows: seq<OutboxEvent>, nextId: int)

  // ---------------------------------------------------------------- inserts

  /** The row one INSERT of `SaveEvents` creates. */
  function NewRow(id: int, aggregateID: Uuid, e: Event, data: Bytes, now: Time): (r: OutboxEvent)
    ensures r.eventID == e.GetEventID() && r.eventType == e.GetEventType()
    ensures r.aggregateType == e.GetAggregateType() && r.version == e.GetVersion()
    ensures r.aggregateID == aggregateID && r.eventData == data && r.createdAt == now
    ensures r.status == Pending && r.retryCount == 0 && r.publishedAt.None? && r.errorMessage.None?
  {
    OutboxEvent(id, e.GetEventID(), aggregateID, e.GetAggregateType(), e.GetEventType(), data,
                e.GetVersion(), now, None, Pending, 0, None)
  }

  /**
   * `SaveEvents`: one INSERT per event in list order, stopping at the first
   * event the encoder rejects. Rows inserted before the failure stay in the
   * table; the caller's transaction is what discards them.
   */
  function Save(t: Table, aggregateID: Uuid, events: seq<Event>,
                marshal: Event -> Option<Bytes>, now: Time): (Table, Option<Error>)
  {
    if |events| == 0 then (t, None)
    else
      var (t1, err) := Save(t, aggregateID, events[..|events| - 1], marshal, now);
      var e := events[|events| - 1];
      if err.Some? then (t1, err)
      else match marshal(e)
        case None => (t1, Some(ErrMarshal))
        case Some(data) => (Table(t1.rows + [NewRow(t1.nextId, aggregateID, e, data, now)], t1.nextId + 1), None)
  }

  // -------------------------------------------------------------- selection

  /** The rows that satisfy `keep`, in table order. */
  function Filter(rows: seq<OutboxEvent>, keep: OutboxEvent -> bool): seq<OutboxEvent> {
    if |rows| == 0 then []
    else
      var init := Filter(rows[..|rows| - 1], keep);
      if keep(rows[|rows| - 1]) then init + [rows[|rows| - 1]] else init
  }

  /** SQL `LIMIT n`. */
  function Take<T>(s: seq<T>, n: nat): (r: seq<T>)
    ensures |r| <= n && |r| <= |s|
    ensures |s| <= n ==> r == s
    ensures r == s[..|r|]
  {
    if |s| <= n then s else s[..n]
  }

  /** `WHERE keep ORDER BY created_at ASC LIMIT limit`. */
  function Oldest(rows: seq<OutboxEvent>, keep: OutboxEvent -> bool, limit: nat): seq<OutboxEvent> {
    Take(Filter(rows, keep), limit)
  }

  predicate IsPendingRow(r: OutboxEvent) {
    r.status == Pending
  }

  predicate IsClaimable(r: OutboxEvent, maxRetries: int) {
    r.status == Pending && r.retryCount < maxRetries
  }

  function EventIDs(rows: seq<OutboxEvent>): (ids: seq<Uuid>)
    ensures |ids| == |rows| && forall k :: 0 <= k < |rows| ==> ids[k] == rows[k].eventID
  {
    if |rows| == 0 then [] else EventIDs(rows[..|rows| - 1]) + [rows[|rows| - 1].eventID]
  }

  // ---------------------------------------------------------------- updates

  /** The guarded UPDATE statements of the repository. */
  datatype RowUpdate =
    | MarkProcessing(ids: seq<Uuid>)              // second statement of `GetAndMarkProcessing`
    | MarkPublished(ids: seq<Uuid>, now: Time)    // `MarkAsPublished`
    | MarkFailed(id: Uuid, message: string)       // `MarkAsFailed`
    | IncrementRetry(id: Uuid)                    // `IncrementRetryCount`
    | ExpireRetries(maxRetries: int)              // `MarkMaxRetriesExceededAsFailed`

  /** What one UPDATE does to one row: its SET clause where its WHERE clause holds. */
  function UpdateRow(u: RowUpdate, r: OutboxEvent): OutboxEvent {
    match u
    case MarkProcessing(ids) =>
      if r.status == Pending && r.eventID in ids then r.(status := Processing) else r
    case MarkPublished(ids, now) =>
      if r.status == Processing && r.eventID in ids then r.(status := Published, publishedAt := Some(now)) else r
    case MarkFailed(id, message) =>
      if r.eventID == id && r.status == Processing then r.(status := Failed, errorMessage := Some(message)) else r
    case IncrementRetry(id) =>
      if r.eventID == id && r.status == Processing then r.(retryCount := r.retryCount + 1) else r
    case ExpireRetries(maxRetries) =>
      if r.status == Pending && r.retryCount >= maxRetries
      then r.(status := Failed, errorMessage := Some(MaxRetriesExceededMessage)) else r
  }

  /** One UPDATE over the whole table: every row in place, none added or removed. */
  function Apply(u: RowUpdate, rows: seq<OutboxEvent>): (r: seq<OutboxEvent>)
    ensures |r| == |rows| && forall k :: 0 <= k < |rows| ==> r[k] == UpdateRow(u, rows[k])
  {
    seq(|rows|, k requires 0 <= k < |rows| => UpdateRow(u, rows[k]))
  }

  /** The batch `GetAndMarkProcessing` returns: the selected rows, reported as PROCESSING. */
  function AsProcessing(rows: seq<OutboxEvent>): (r: seq<OutboxEvent>)
    ensures |r| == |rows| && forall k :: 0 <= k < |rows| ==> r[k] == rows[k].(status := Processing)
  {
    seq(|rows|, k requires 0 <= k < |rows| => rows[k].(status := Processing))
  }

  // ------------------------------------------------------------- properties

  predicate UniqueEventIDs(rows: seq<OutboxEvent>) {
    forall i, j :: 0 <= i < j < |rows| ==> rows[i].eventID != rows[j].eventID
  }

  predicate CreatedInOrder(rows: seq<OutboxEvent>) {
    forall i, j :: 0 <= i < j < |rows| ==> rows[i].createdAt <= rows[j].createdAt
  }

  /**
   * `SaveEvents` keeps the existing rows and appends, in list order, one
   * PENDING row per event it got to; on success that is every event.
   */
  lemma {:induction false} SaveAppends(t: Table, aggregateID: Uuid, events: seq<Event>,
                                        marshal: Event -> Option<Bytes>, now: Time)
    ensures var (t1, err) := Save(t, aggregateID, events, marshal, now);
      && |t.rows| <= |t1.rows| <= |t.rows| + |events|
      && t1.rows[..|t.rows|] == t.rows
      && t1.nextId == t.nextId + (|t1.rows| - |t.rows|)
      && (err.None? ==> |t1.rows| == |t.rows| + |events|)
      && (err.Some? ==> err == Some(ErrMarshal) && |t1.rows| - |t.rows| < |events|
                        && marshal(events[|t1.rows| - |t.rows|]).None?)
      && forall k :: 0 <= k < |t1.rows| - |t.rows| ==>
           marshal(events[k]).Some? &&
           t1.rows[|t.rows| + k] == NewRow(t.nextId + k, aggregateID, events[k], marshal(events[k]).value, now)
  {
    if |events| > 0 {
      var init := events[..|events| - 1];
      SaveAppends(t, aggregateID, init, marshal, now);
      var (t0, err0) := Save(t, aggregateID, init, marshal, now);
      var (t1, err) := Save(t, aggregateID, events, marshal, now);
      assert forall k :: 0 <= k < |init| ==> init[k] == events[k];
      if err0.None? && marshal(events[|events| - 1]).Some? {
        assert t1.rows == t0.rows + [t1.rows[|t1.rows| - 1]];
      }
    }
  }

  /** `SaveEvents` succeeds exactly when every event encodes, and then inserts one row per event. */
  lemma SaveSucceedsIffAllEncode(t: Table, aggregateID: Uuid, events: seq<Event>,
                                 marshal: Event -> Option<Bytes>, now: Time)
    ensures var (t1, err) := Save(t, aggregateID, events, marshal, now);
      (err.None? <==> forall e <- events :: marshal(e).Some?) &&
      (err.None? ==> |t1.rows| == |t.rows| + |events|)
  {
    SaveAppends(t, aggregateID, events, marshal, now);
    var (t1, err) := Save(t, aggregateID, events, marshal, now);
    if err.None? {
      forall e <- events ensures marshal(e).Some? {
        var k :| 0 <= k < |events| && events[k] == e;
      }
    }
  }

  /** Every row `Filter` keeps matches and comes from the table. */
  lemma {:induction false} FilterSound(rows: seq<OutboxEvent>, keep: OutboxEvent -> bool)
    ensures |Filter(rows, keep)| <= |rows|
    ensures forall r <- Filter(rows, keep) :: keep(r) && r in rows
  {
    if |rows| > 0 {
      FilterSound(rows[..|rows| - 1], keep);
    }
  }

  /** Every matching row of the table is kept. */
  lemma {:induction false} FilterComplete(rows: seq<OutboxEvent>, keep: OutboxEvent -> bool)
    ensures forall r <- rows :: keep(r) ==> r in Filter(rows, keep)
  {
    if |rows| > 0 {
      var init := rows[..|rows| - 1];
      FilterComplete(init, keep);
      forall r <- rows | keep(r) ensures r in Filter(rows, keep) {
        if r != rows[|rows| - 1] {
          var k :| 0 <= k < |rows| && rows[k] == r;
          assert r in init;
        }
      }
    }
  }

  /** Kept rows stay in table order, so a table in created-at order yields a selection in created-at order. */
  lemma {:induction false} FilterOrdered(rows: seq<OutboxEvent>, keep: OutboxEvent -> bool)
    requires CreatedInOrder(rows)
    ensures CreatedInOrder(Filter(rows, keep))
  {
    if |rows| > 0 {
      var init := rows[..|rows| - 1];
      var last := rows[|rows| - 1];
      FilterOrdered(init, keep);
      FilterSound(init, keep);
      var f := Filter(rows, keep);
      if keep(last) {
        forall i, j | 0 <= i < j < |f| ensures f[i].createdAt <= f[j].createdAt {
          if j == |f| - 1 {
            assert f[i] in Filter(init, keep);
            var k :| 0 <= k < |init| && init[k] == f[i];
            assert rows[k] == f[i];
          }
        }
      }
    }
  }

  /**
   * The selection is the oldest matching rows: at most `limit` of them, each
   * matching, in created-at order when the table is; a matching row left out
   * is not older than any selected row, and fewer than `limit` selected means
   * every matching row was.
   */
  lemma OldestSpec(rows: seq<OutboxEvent>, keep: OutboxEvent -> bool, limit: nat)
    ensures var sel := Oldest(rows, keep, limit);
      && |sel| <= limit
      && (forall r <- sel :: keep(r) && r in rows)
      && (|sel| < limit ==> forall r <- rows :: keep(r) ==> r in sel)
      && (CreatedInOrder(rows) ==> CreatedInOrder(sel))
      && (CreatedInOrder(rows) ==>
            forall i, j :: 0 <= i < |sel| <= j < |Filter(rows, keep)| ==>
              sel[i].createdAt <= Filter(rows, keep)[j].createdAt)
  {
    FilterSound(rows, keep);
    FilterComplete(rows, keep);
    if CreatedInOrder(rows) {
      FilterOrdered(rows, keep);
    }
    var f := Filter(rows, keep);
    var sel := Oldest(rows, keep, limit);
    assert sel == f[..|sel|];
    forall r <- sel ensures keep(r) && r in rows {
      assert r in f;
    }
  }

  /** No row of the table was created after `now`. */
  predicate CreatedBy(rows: seq<OutboxEvent>, now: Time) {
    forall k :: 0 <= k < |rows| ==> rows[k].createdAt <= now
  }

  /**
   * Inserting at a clock reading no earlier than any row's creation time
   * keeps the table in created-at order: table order is then exactly the
   * `ORDER BY created_at` order.
   */
  lemma {:induction false} SaveKeepsCreatedInOrder(t: Table, aggregateID: Uuid, events: seq<Event>,
                                                   marshal: Event -> Option<Bytes>, now: Time)
    requires CreatedInOrder(t.rows) && CreatedBy(t.rows, now)
    ensures CreatedInOrder(Save(t, aggregateID, events, marshal, now).0.rows)
    ensures CreatedBy(Save(t, aggregateID, events, marshal, now).0.rows, now)
  {
    if |events| > 0 {
      SaveKeepsCreatedInOrder(t, aggregateID, events[..|events| - 1], marshal, now);
      var (t1, err) := Save(t, aggregateID, events[..|events| - 1], marshal, now);
      var e := events[|events| - 1];
      if err.None? && marshal(e).Some? {
        var rows := t1.rows + [NewRow(t1.nextId, aggregateID, e, marshal(e).value, now)];
        assert forall k :: 0 <= k < |t1.rows| ==> rows[k] == t1.rows[k];
      }
    }
  }

  /** No UPDATE changes a creation time, so none disturbs the created-at order. */
  lemma ApplyKeepsCreatedInOrder(u: RowUpdate, rows: seq<OutboxEvent>, now: Time)
    ensures CreatedInOrder(rows) ==> CreatedInOrder(Apply(u, rows))
    ensures CreatedBy(rows, now) ==> CreatedBy(Apply(u, rows), now)
  {
    forall k | 0 <= k < |rows| ensures Apply(u, rows)[k].createdAt == rows[k].createdAt {
      UpdateTransitions(u, rows[k]);
    }
  }

  /**
   * On a table built by inserts at non-decreasing clock readings, the
   * selection is the oldest matching rows, oldest first.
   */
  lemma OldestOfSavedTable(t: Table, aggregateID: Uuid, events: seq<Event>,
                           marshal: Event -> Option<Bytes>, now: Time, keep: OutboxEvent -> bool, limit: nat)
    requires CreatedInOrder(t.rows) && CreatedBy(t.rows, now)
    ensures var rows := Save(t, aggregateID, events, marshal, now).0.rows;
      var sel := Oldest(rows, keep, limit);
      && CreatedInOrder(sel)
      && forall i, j :: 0 <= i < |sel| <= j < |Filter(rows, keep)| ==>
           sel[i].createdAt <= Filter(rows, keep)[j].createdAt
  {
    SaveKeepsCreatedInOrder(t, aggregateID, events, marshal, now);
    OldestSpec(Save(t, aggregateID, events, marshal, now).0.rows, keep, limit);
  }

  /** A PUBLISHED or FAILED row is never changed by any statement. */
  lemma TerminalRowsFrozen(u: RowUpdate, r: OutboxEvent)
    requires IsPublished(r.status) || IsFailed(r.status)
    ensures UpdateRow(u, r) == r
  {
    StatusesDistinct();
  }

  /**
   * Statements move a row only PENDING -> PROCESSING, PENDING -> FAILED,
   * PROCESSING -> PUBLISHED or PROCESSING -> FAILED; the retry counter only
   * grows, by one, on a PROCESSING row; the event's own columns never change.
   */
  lemma UpdateTransitions(u: RowUpdate, r: OutboxEvent)
    ensures var r1 := UpdateRow(u, r);
      && (r1.status != r.status ==>
            (r.status == Pending && (r1.status == Processing || r1.status == Failed)) ||
            (r.status == Processing && (r1.status == Published || r1.status == Failed)))
      && (r1.retryCount != r.retryCount ==> r.status == Processing && r1.retryCount == r.retryCount + 1)
      && r1.id == r.id && r1.eventID == r.eventID && r1.aggregateID == r.aggregateID
      && r1.aggregateType == r.aggregateType && r1.eventType == r.eventType
      && r1.eventData == r.eventData && r1.version == r.version && r1.createdAt == r.createdAt
  {
  }

  /** A row that `MarkAsFailed` matched is no longer PROCESSING, so `IncrementRetryCount` then skips it. */
  lemma FailThenIncrement(id: Uuid, message: string, r: OutboxEvent)
    ensures UpdateRow(IncrementRetry(id), UpdateRow(MarkFailed(id, message), r)) == UpdateRow(MarkFailed(id, message), r)
  {
    StatusesDistinct();
  }

  /** No statement that names an event id touches a PENDING row, except the claim. */
  lemma PendingRowsIgnoreMarks(u: RowUpdate, r: OutboxEvent)
    requires IsPending(r.status) && (u.MarkPublished? || u.MarkFailed? || u.IncrementRetry?)
    ensures UpdateRow(u, r) == r
  {
    StatusesDistinct();
  }

  /**
   * With unique event ids, the claim statement of `GetAndMarkProcessing`
   * flips exactly the selected rows to PROCESSING and leaves every other row
   * as it was.
   */
  lemma ClaimFlipsSelected(rows: seq<OutboxEvent>, limit: nat, maxRetries: int)
    requires UniqueEventIDs(rows)
    ensures var sel := Oldest(rows, r => IsClaimable(r, maxRetries), limit);
      var after := Apply(MarkProcessing(EventIDs(sel)), rows);
      forall k :: 0 <= k < |rows| ==>
        after[k] == if rows[k] in sel then rows[k].(status := Processing) else rows[k]
  {
    var keep := r => IsClaimable(r, maxRetries);
    var sel := Oldest(rows, keep, limit);
    OldestSpec(rows, keep, limit);
    var ids := EventIDs(sel);
    forall k | 0 <= k < |rows|
      ensures UpdateRow(MarkProcessing(ids), rows[k]) == if rows[k] in sel then rows[k].(status := Processing) else rows[k]
    {
      if rows[k] in sel {
        var m :| 0 <= m < |sel| && sel[m] == rows[k];
        assert ids[m] == rows[k].eventID;
      } else if rows[k].eventID in ids && rows[k].status == Pending {
        var m :| 0 <= m < |ids| && ids[m] == rows[k].eventID;
        assert sel[m] in rows;
        var j :| 0 <= j < |rows| && rows[j] == sel[m];
        assert false;
      }
    }
  }

  /** `MarkMaxRetriesExceededAsFailed` fails exactly the PENDING rows at or over the limit. */
  lemma ExpireSpec(rows: seq<OutboxEvent>, maxRetries: int)
    ensures var after := Apply(ExpireRetries(maxRetries), rows);
      forall k :: 0 <= k < |rows| ==>
        (after[k] != rows[k] <==> rows[k].status == Pending && rows[k].retryCount >= maxRetries) &&
        (after[k] != rows[k] ==> after[k].status == Failed && after[k].errorMessage == Some(MaxRetriesExceededMessage))
  {
    StatusesDistinct();
  }

  // ---------------------------------------------------------------- the class

  /** The `outbox` table behind `outboxRepositoryImpl`. */
  class OutboxTable {
    var rows: seq<OutboxEvent>
    var nextId: int

    function State(): Table
      reads this
    {
      Table(rows, nextId)
    }

    constructor (rows: seq<OutboxEvent>, nextId: int)
      ensures State() == Table(rows, nextId)
    {
      this.rows, this.nextId := rows, nextId;
    }

    method SaveEvents(aggregateID: Uuid, events: seq<Event>, marshal: Event -> Option<Bytes>, now: Time)
      returns (err: Option<Error>)
      modifies this
      ensures (State(), err) == Save(old(State()), aggregateID, events, marshal, now)
    {
      var j := 0;
      while j < |events|
        invariant 0 <= j <= |events|
        invariant Save(old(State()), aggregateID, events[..j], marshal, now) == (State(), None)
      {
        assert events[..j + 1][..j] == events[..j];
        var evt := events[j];
        var eventData := marshal(evt);
        if eventData.None? {
          assert Save(old(State()), aggregateID, events[..j + 1], marshal, now) == (State(), Some(ErrMarshal));
          SaveStopsAtFailure(old(State()), aggregateID, events, marshal, now, j + 1);
          return Some(ErrMarshal);
        }
        rows := rows + [NewRow(nextId, aggregateID, evt, eventData.value, now)];
        nextId := nextId + 1;
        j := j + 1;
      }
      assert events[..j] == events;
      return None;
    }

    /** Read-only: the oldest PENDING rows, at most `limit`. */
    method GetPendingEvents(limit: nat) returns (events: seq<OutboxEvent>)
      ensures events == Oldest(rows, IsPendingRow, limit)
    {
      events := [];
      var i := 0;
      while i < |rows|
        invariant 0 <= i <= |rows|
        invariant events == Oldest(rows[..i], IsPendingRow, limit)
      {
        assert rows[..i + 1][..i] == rows[..i];
        if rows[i].status == Pending && |events| < limit {
          events := events + [rows[i]];
        }
        i := i + 1;
      }
      assert rows[..i] == rows;
    }

    method GetAndMarkProcessing(limit: nat, maxRetries: int) returns (events: seq<OutboxEvent>)
      modifies this
      ensures var sel := Oldest(old(rows), r => IsClaimable(r, maxRetries), limit);
        && events == (if |sel| > 0 then AsProcessing(sel) else sel)
        && rows == (if |sel| > 0 then Apply(MarkProcessing(EventIDs(sel)), old(rows)) else old(rows))
        && nextId == old(nextId)
    {
      var selected := [];
      var i := 0;
      while i < |rows|
        invariant 0 <= i <= |rows|
        invariant selected == Oldest(rows[..i], r => IsClaimable(r, maxRetries), limit)
      {
        assert rows[..i + 1][..i] == rows[..i];
        if rows[i].status == Pending && rows[i].retryCount < maxRetries && |selected| < limit {
          selected := selected + [rows[i]];
        }
        i := i + 1;
      }
      assert rows[..i] == rows;
      events := selected;
      if |selected| > 0 {
        rows := Apply(MarkProcessing(EventIDs(selected)), rows);
        var k := 0;
        while k < |events|
          invariant 0 <= k <= |events| && |events| == |selected|
          invariant forall m :: 0 <= m < k ==> events[m] == selected[m].(status := Processing)
          invariant forall m :: k <= m < |events| ==> events[m] == selected[m]
        {
          events := events[k := events[k].(status := Processing)];
          k := k + 1;
        }
      }
    }

    method MarkAsPublished(eventIDs: seq<Uuid>, now: Time)
      modifies this
      ensures rows == (if |eventIDs| == 0 then old(rows) else Apply(MarkPublished(eventIDs, now), old(rows)))
      ensures nextId == old(nextId)
    {
      if |eventIDs| == 0 {
        return;
      }
      rows := Apply(MarkPublished(eventIDs, now), rows);
    }

    method MarkAsFailed(eventID: Uuid, errorMessage: string)
      modifies this
      ensures rows == Apply(MarkFailed(eventID, errorMessage), old(rows)) && nextId == old(nextId)
    {
      rows := Apply(MarkFailed(eventID, errorMessage), rows);
    }

    method IncrementRetryCount(eventID: Uuid)
      modifies this
      ensures rows == Apply(IncrementRetry(eventID), old(rows)) && nextId == old(nextId)
    {
      rows := Apply(IncrementRetry(eventID), rows);
    }

    method MarkMaxRetriesExceededAsFailed(maxRetries: int)
      modifies this
      ensures rows == Apply(ExpireRetries(maxRetries), old(rows)) && nextId == old(nextId)
    {
      rows := Apply(ExpireRetries(maxRetries), rows);
    }
  }

  /** Once an insert fails, the later events change nothing. */
  lemma {:induction false} SaveStopsAtFailure(t: Table, aggregateID: Uuid, events: seq<Event>,
                                              marshal: Event -> Option<Bytes>, now: Time, j: nat)
    requires j <= |events| && Save(t, aggregateID, events[..j], marshal, now).1.Some?
    ensures Save(t, aggregateID, events, marshal, now) == Save(t, aggregateID, events[..j], marshal, now)
    decreases |events| - j
  {
    if j < |events| {
      assert events[..j + 1][..j] == events[..j];
      SaveStopsAtFailure(t, aggregateID, events, marshal, now, j + 1);
    } else {
      assert events[..j] == events;
    }
  }
}
