/**
 * One tick of the outbox publisher: read a batch of PENDING rows, send each
 * row with fewer than three retries, record send failures on the row, and
 * mark the delivered rows PUBLISHED. Because the batch is read without
 * claiming it, every statement the tick issues is guarded by a status the
 * batch rows do not have: the tick changes no row (`TickChangesNoRow`).
 */
module OutboxPublisher {
  import opened Common
  import opened Value
  import opened OutboxRepository
  import opened Messaging
  import TopicRouter

  const DefaultBatchSize: nat := 100
  const DefaultMaxRetries: int := 3

  /** `handlerSingleEvent`'s message: the row's event, routed by its aggregate type and keyed by it. */
  function Envelope(r: OutboxEvent, routes: map<string, string>): (p: Publication)
    ensures p.message.id == r.eventID && p.message.msgType == r.eventType
    ensures p.message.data == EventData(r.eventData)
    ensures p.message.aggregateID == r.aggregateID && p.message.version == r.version
    ensures p.topic == TopicRouter.Route(routes, r.aggregateType) && p.key == r.aggregateType
  {
    Publication(TopicRouter.Route(routes, r.aggregateType), r.aggregateType,
                Message(r.eventID, r.eventType, EventData(r.eventData), r.aggregateID, r.version))
  }

  /** What one tick did: the batch it read, the sends it attempted, the ids it marked, and the table after. */
  datatype TickResult = TickResult(
    batch: seq<OutboxEvent>, sends: seq<Publication>, published: seq<Uuid>, rows: seq<OutboxEvent>)

  /** The loop over the batch, as a fold over its prefix. */
  function SendBatch(batch: seq<OutboxEvent>, rows: seq<OutboxEvent>, routes: map<string, string>,
                     outcome: Publication -> Option<string>): (seq<Publication>, seq<Uuid>, seq<OutboxEvent>)
  {
    if |batch| == 0 then ([], [], rows)
    else
      var (sends, published, rows1) := SendBatch(batch[..|batch| - 1], rows, routes, outcome);
      var r := batch[|batch| - 1];
      if r.retryCount >= DefaultMaxRetries then (sends, published, rows1)
      else
        var p := Envelope(r, routes);
        match outcome(p)
        case Some(msg) =>
          (sends + [p], published,
           Apply(IncrementRetry(r.eventID), Apply(MarkFailed(r.eventID, msg), rows1)))
        case None => (sends + [p], published + [r.eventID], rows1)
  }

  /** `publishPendingEvents` at clock reading `now`. */
  function Tick(rows: seq<OutboxEvent>, routes: map<string, string>,
                outcome: Publication -> Option<string>, now: Time): TickResult
  {
    var batch := Oldest(rows, IsPendingRow, DefaultBatchSize);
    if |batch| == 0 then TickResult(batch, [], [], rows)
    else
      var (sends, published, rows1) := SendBatch(batch, rows, routes, outcome);
      TickResult(batch, sends, published,
                 if |published| == 0 then rows1 else Apply(MarkPublished(published, now), rows1))
  }

  // -------------------------------------------------- reference definitions

  predicate Eligible(r: OutboxEvent) {
    r.retryCount < DefaultMaxRetries
  }

  function Envelopes(rows: seq<OutboxEvent>, routes: map<string, string>): (ps: seq<Publication>)
    ensures |ps| == |rows| && forall k :: 0 <= k < |rows| ==> ps[k] == Envelope(rows[k], routes)
  {
    seq(|rows|, k requires 0 <= k < |rows| => Envelope(rows[k], routes))
  }

  /** No row whose event id is in `ids` is PROCESSING. */
  predicate NoneProcessing(rows: seq<OutboxEvent>, ids: seq<Uuid>) {
    forall r <- rows :: r.eventID in ids ==> r.status != Processing
  }

  // ------------------------------------------------------------- properties

  /**
   * The loop sends exactly the eligible rows of the batch, in batch order,
   * collects exactly the ids of those the broker accepted, and, when none of
   * the batch's ids is PROCESSING in the table, leaves the table as it was.
   */
  lemma SendBatchSpec(batch: seq<OutboxEvent>, rows: seq<OutboxEvent>,
                      routes: map<string, string>, outcome: Publication -> Option<string>)
    requires NoneProcessing(rows, EventIDs(batch))
    ensures var res := SendBatch(batch, rows, routes, outcome);
      var eligible := Filter(batch, Eligible);
      && res.0 == Envelopes(eligible, routes)
      && res.1 == EventIDs(Filter(eligible, r => outcome(Envelope(r, routes)).None?))
      && res.2 == rows
  {
    SendBatchSends(batch, rows, routes, outcome);
    SendBatchDelivered(batch, rows, routes, outcome);
    SendBatchKeepsRows(batch, rows, routes, outcome);
  }

  /** The sends, whatever the table holds: one envelope per eligible batch row, in order. */
  lemma {:induction false} SendBatchSends(batch: seq<OutboxEvent>, rows: seq<OutboxEvent>,
                                          routes: map<string, string>, outcome: Publication -> Option<string>)
    ensures SendBatch(batch, rows, routes, outcome).0 == Envelopes(Filter(batch, Eligible), routes)
  {
    if |batch| > 0 {
      var init := batch[..|batch| - 1];
      var r := batch[|batch| - 1];
      SendBatchSends(init, rows, routes, outcome);
      FilterLast(batch, Eligible);
      if Eligible(r) {
        var eligible := Filter(batch, Eligible);
        assert Envelopes(eligible, routes) == Envelopes(Filter(init, Eligible), routes) + [Envelope(r, routes)];
      }
    }
  }

  /** The accepted ids, whatever the table holds: those of the eligible rows the broker took, in order. */
  lemma {:induction false} SendBatchDelivered(batch: seq<OutboxEvent>, rows: seq<OutboxEvent>,
                                              routes: map<string, string>, outcome: Publication -> Option<string>)
    ensures SendBatch(batch, rows, routes, outcome).1 ==
            EventIDs(Filter(Filter(batch, Eligible), r => outcome(Envelope(r, routes)).None?))
  {
    if |batch| > 0 {
      var init := batch[..|batch| - 1];
      var r := batch[|batch| - 1];
      SendBatchDelivered(init, rows, routes, outcome);
      var delivered := (x: OutboxEvent) => outcome(Envelope(x, routes)).None?;
      FilterLast(batch, Eligible);
      if Eligible(r) {
        FilterLast(Filter(batch, Eligible), delivered);
      }
    }
  }

  /** The table is left alone when no batch id is PROCESSING in it. */
  lemma {:induction false} SendBatchKeepsRows(batch: seq<OutboxEvent>, rows: seq<OutboxEvent>,
                                              routes: map<string, string>, outcome: Publication -> Option<string>)
    requires NoneProcessing(rows, EventIDs(batch))
    ensures SendBatch(batch, rows, routes, outcome).2 == rows
  {
    if |batch| > 0 {
      var init := batch[..|batch| - 1];
      var r := batch[|batch| - 1];
      assert EventIDs(batch) == EventIDs(init) + [r.eventID];
      SendBatchKeepsRows(init, rows, routes, outcome);
      if Eligible(r) && outcome(Envelope(r, routes)).Some? {
        FailIsNoOp(rows, r.eventID, outcome(Envelope(r, routes)).value);
      }
    }
  }

  /** `Filter` on a non-empty sequence: its prefix filtered, plus the last row if it matches. */
  lemma FilterLast(s: seq<OutboxEvent>, keep: OutboxEvent -> bool)
    requires |s| > 0
    ensures Filter(s, keep) == if keep(s[|s| - 1]) then Filter(s[..|s| - 1], keep) + [s[|s| - 1]]
                               else Filter(s[..|s| - 1], keep)
    ensures keep(s[|s| - 1]) ==> Filter(s, keep)[..|Filter(s, keep)| - 1] == Filter(s[..|s| - 1], keep)
  {
  }

  /** A failure mark on an event id no PROCESSING row carries changes nothing. */
  lemma FailIsNoOp(rows: seq<OutboxEvent>, id: Uuid, msg: string)
    requires forall r <- rows :: r.eventID == id ==> r.status != Processing
    ensures Apply(IncrementRetry(id), Apply(MarkFailed(id, msg), rows)) == rows
  {
    var a := Apply(MarkFailed(id, msg), rows);
    assert a == rows by {
      forall k | 0 <= k < |rows| ensures a[k] == rows[k] {
        assert rows[k] in rows;
      }
    }
    var b := Apply(IncrementRetry(id), a);
    forall k | 0 <= k < |rows| ensures b[k] == rows[k] {
      assert rows[k] in rows;
    }
  }

  /** With unique event ids, every table row carrying a batch id is that batch row, hence PENDING. */
  lemma BatchIdsArePending(rows: seq<OutboxEvent>)
    requires UniqueEventIDs(rows)
    ensures NoneProcessing(rows, EventIDs(Oldest(rows, IsPendingRow, DefaultBatchSize)))
  {
    var batch := Oldest(rows, IsPendingRow, DefaultBatchSize);
    OldestSpec(rows, IsPendingRow, DefaultBatchSize);
    StatusesDistinct();
    forall r <- rows | r.eventID in EventIDs(batch) ensures r.status != Processing {
      var m :| 0 <= m < |batch| && EventIDs(batch)[m] == r.eventID;
      assert batch[m] in batch;
      var i :| 0 <= i < |rows| && rows[i] == r;
      var j :| 0 <= j < |rows| && rows[j] == batch[m];
      assert i == j;
    }
  }

  /**
   * A tick reads the oldest (at most 100) PENDING rows, sends each of them
   * with fewer than three retries, reports the accepted ones, and changes no
   * row of the table, so the same rows are read and sent again on the next
   * tick. An empty batch sends nothing.
   */
  lemma TickChangesNoRow(rows: seq<OutboxEvent>, routes: map<string, string>,
                         outcome: Publication -> Option<string>, now: Time)
    requires UniqueEventIDs(rows)
    ensures var t := Tick(rows, routes, outcome, now);
      && t.batch == Oldest(rows, IsPendingRow, DefaultBatchSize)
      && t.sends == Envelopes(Filter(t.batch, Eligible), routes)
      && t.published == EventIDs(Filter(Filter(t.batch, Eligible), r => outcome(Envelope(r, routes)).None?))
      && t.rows == rows
  {
    var batch := Oldest(rows, IsPendingRow, DefaultBatchSize);
    BatchIdsArePending(rows);
    SendBatchSpec(batch, rows, routes, outcome);
    var t := Tick(rows, routes, outcome, now);
    if |batch| > 0 && |t.published| > 0 {
      var a := Apply(MarkPublished(t.published, now), rows);
      forall k | 0 <= k < |rows| ensures a[k] == rows[k] {
        assert rows[k] in rows;
        if rows[k].eventID in t.published {
          EventIDsOfFilter(Filter(batch, Eligible), r => outcome(Envelope(r, routes)).None?, rows[k].eventID);
          EventIDsOfFilter(batch, Eligible, rows[k].eventID);
        }
      }
    }
    if |batch| == 0 {
      assert Filter(batch, Eligible) == [];
    }
  }

  /** An id of a filtered batch is an id of the batch. */
  lemma EventIDsOfFilter(rows: seq<OutboxEvent>, keep: OutboxEvent -> bool, id: Uuid)
    requires id in EventIDs(Filter(rows, keep))
    ensures id in EventIDs(rows)
  {
    FilterSound(rows, keep);
    var f := Filter(rows, keep);
    var m :| 0 <= m < |f| && EventIDs(f)[m] == id;
    assert f[m] in rows;
    var j :| 0 <= j < |rows| && rows[j] == f[m];
    assert EventIDs(rows)[j] == id;
  }

  /** A row with three or more retries is never sent. */
  lemma ExhaustedRowsNeverSent(rows: seq<OutboxEvent>, routes: map<string, string>,
                               outcome: Publication -> Option<string>, now: Time, r: OutboxEvent)
    requires UniqueEventIDs(rows) && r in rows && r.retryCount >= DefaultMaxRetries
    ensures forall p <- Tick(rows, routes, outcome, now).sends :: p.message.id != r.eventID
  {
    TickChangesNoRow(rows, routes, outcome, now);
    var t := Tick(rows, routes, outcome, now);
    var eligible := Filter(t.batch, Eligible);
    FilterSound(t.batch, Eligible);
    OldestSpec(rows, IsPendingRow, DefaultBatchSize);
    forall p <- t.sends ensures p.message.id != r.eventID {
      var k :| 0 <= k < |t.sends| && t.sends[k] == p;
      assert eligible[k] in eligible;
      assert eligible[k] in t.batch;
    }
  }

  // ----------------------------------------------------------------- class

  class Publisher {
    const outboxRepo: OutboxTable
    const messageProducer: MessageProducer
    const topicRouter: TopicRouter.StaticMapRouter

    constructor (outboxRepo: OutboxTable, messageProducer: MessageProducer,
                 topicRouter: TopicRouter.StaticMapRouter)
      ensures this.outboxRepo == outboxRepo && this.messageProducer == messageProducer
      ensures this.topicRouter == topicRouter
    {
      this.outboxRepo, this.messageProducer, this.topicRouter := outboxRepo, messageProducer, topicRouter;
    }

    /**
     * One tick. The table ends as `Tick` says, the producer has been asked
     * to send exactly `Tick`'s sends, and `published` is the id list handed to
     * `MarkAsPublished`.
     */
    method PublishPendingEvents(now: Time) returns (published: seq<Uuid>)
      modifies outboxRepo, messageProducer
      ensures var t := Tick(old(outboxRepo.rows), topicRouter.aggregateTopicMap, messageProducer.outcome, now);
        && outboxRepo.rows == t.rows && outboxRepo.nextId == old(outboxRepo.nextId)
        && messageProducer.sent == old(messageProducer.sent) + t.sends
        && published == t.published
    {
      var pendingEvents := outboxRepo.GetPendingEvents(DefaultBatchSize);
      if |pendingEvents| == 0 {
        return [];
      }
      published := SendEach(pendingEvents);
      outboxRepo.MarkAsPublished(published, now);
    }

    /** The loop of a tick over the batch it read. */
    method SendEach(pendingEvents: seq<OutboxEvent>) returns (published: seq<Uuid>)
      modifies outboxRepo, messageProducer
      ensures var (sends, ids, rows1) :=
                SendBatch(pendingEvents, old(outboxRepo.rows), topicRouter.aggregateTopicMap, messageProducer.outcome);
        && messageProducer.sent == old(messageProducer.sent) + sends && published == ids && outboxRepo.rows == rows1
      ensures outboxRepo.nextId == old(outboxRepo.nextId)
    {
      ghost var rows0 := outboxRepo.rows;
      ghost var sent0 := messageProducer.sent;
      ghost var routes := topicRouter.aggregateTopicMap;
      published := [];
      for i := 0 to |pendingEvents|
        invariant outboxRepo.nextId == old(outboxRepo.nextId)
        invariant messageProducer.sent == sent0 + SendBatch(pendingEvents[..i], rows0, routes, messageProducer.outcome).0
        invariant published == SendBatch(pendingEvents[..i], rows0, routes, messageProducer.outcome).1
        invariant outboxRepo.rows == SendBatch(pendingEvents[..i], rows0, routes, messageProducer.outcome).2
      {
        assert pendingEvents[..i + 1][..i] == pendingEvents[..i];
        var outboxEvent := pendingEvents[i];
        if outboxEvent.retryCount < DefaultMaxRetries {
          var err := HandlerSingleEvent(outboxEvent);
          if err.None? {
            published := published + [outboxEvent.eventID];
          }
        }
      }
      assert pendingEvents[..|pendingEvents|] == pendingEvents;
    }

    /** Send one row; on failure record it on the row. */
    method HandlerSingleEvent(outboxEvent: OutboxEvent) returns (err: Option<string>)
      modifies outboxRepo, messageProducer
      ensures var p := Envelope(outboxEvent, topicRouter.aggregateTopicMap);
        && messageProducer.sent == old(messageProducer.sent) + [p]
        && err == messageProducer.outcome(p)
        && outboxRepo.rows == (if err.None? then old(outboxRepo.rows)
                               else Apply(IncrementRetry(outboxEvent.eventID),
                                          Apply(MarkFailed(outboxEvent.eventID, err.value), old(outboxRepo.rows))))
        && outboxRepo.nextId == old(outboxRepo.nextId)
    {
      var message := Message(outboxEvent.eventID, outboxEvent.eventType, EventData(outboxEvent.eventData),
                             outboxEvent.aggregateID, outboxEvent.version);
      var topic := topicRouter.TopicFor(outboxEvent.eventType, outboxEvent.aggregateType);
      err := messageProducer.PublishMessage(topic, outboxEvent.aggregateType, message);
      if err.Some? {
        HandlePublishError(outboxEvent.eventID, err.value);
      }
    }

    /** Both statements run; their own failures are only logged. */
    method HandlePublishError(eventID: Uuid, pubErr: string)
      modifies outboxRepo
      ensures outboxRepo.rows == Apply(IncrementRetry(eventID), Apply(MarkFailed(eventID, pubErr), old(outboxRepo.rows)))
      ensures outboxRepo.nextId == old(outboxRepo.nextId)
    {
      outboxRepo.MarkAsFailed(eventID, pubErr);
      outboxRepo.IncrementRetryCount(eventID);
    }
  }
}
