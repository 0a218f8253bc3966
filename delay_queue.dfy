/**
 * The in-memory delay queue: scheduled messages keyed by message id, and a
 * sweep at an explicit clock reading that removes and fires every due entry.
 */
module DelayQueue {
  import opened Common
  import opened Messaging

  const CheckCartAbandonmentCommandType: string := "CheckCartAbandonmentCommand"

  datatype DelayedMessage = DelayedMessage(message: Message, topic: string, key: string, executeAt: Time)

  /** An entry is due once the clock has reached its execution time. */
  predicate Due(d: DelayedMessage, now: Time) {
    now >= d.executeAt
  }

  /** The entries a sweep at `now` keeps. */
  function Remaining(messages: map<string, DelayedMessage>, now: Time): map<string, DelayedMessage> {
    map id | id in messages && !Due(messages[id], now) :: messages[id]
  }

  /** The ids a sweep at `now` fires. */
  function DueIDs(messages: map<string, DelayedMessage>, now: Time): set<string> {
    set id | id in messages && Due(messages[id], now)
  }

  /**
   * The shape `processMessage` needs: a check message carries the
   * abandonment-check body. Its single-value type assertion on `Data` panics
   * for any other body (raw event JSON, say), so a check message of another
   * shape is outside what the sweep can process.
   */
  predicate CheckWellFormed(m: Message) {
    m.msgType == CheckCartAbandonmentCommandType ==> m.data.AbandonmentCheck?
  }

  /** Every entry of the queue can be processed without a panic. */
  predicate ChecksWellFormed(messages: map<string, DelayedMessage>) {
    forall id <- messages :: CheckWellFormed(messages[id].message)
  }

  predicate AllChecksWellFormed(expired: seq<DelayedMessage>) {
    forall k :: 0 <= k < |expired| ==> CheckWellFormed(expired[k].message)
  }

  /**
   * What `processMessage` reports beyond its log lines: the cart id of an
   * abandonment check, none for any other message.
   */
  function AbandonmentNotice(m: Message): (cartID: Option<string>)
    requires CheckWellFormed(m)
    ensures cartID.Some? <==> m.msgType == CheckCartAbandonmentCommandType
    ensures cartID.Some? ==> cartID.value == m.data.cartID
  {
    if m.msgType == CheckCartAbandonmentCommandType then Some(m.data.cartID) else None
  }

  /**
   * A sweep splits the queue: the fired ids and the kept entries are
   * disjoint and together make up the queue, kept entries are unchanged and
   * not due, and a second sweep at the same time fires nothing.
   */
  lemma SweepPartition(messages: map<string, DelayedMessage>, now: Time)
    ensures var kept := Remaining(messages, now);
      && DueIDs(messages, now) + kept.Keys == messages.Keys
      && DueIDs(messages, now) !! kept.Keys
      && (forall id <- kept :: kept[id] == messages[id] && kept[id].executeAt > now)
      && DueIDs(kept, now) == {}
      && Remaining(kept, now) == kept
  {
  }

  /**
   * A message published at `t` with delay `delay` replaces any entry with
   * its id, and the first sweep that fires it is the first at or after
   * `t + delay`.
   */
  lemma PublishThenSweep(messages: map<string, DelayedMessage>, d: DelayedMessage, now: Time)
    ensures var m := messages[d.message.id := d];
      && m[d.message.id] == d
      && (d.message.id in DueIDs(m, now) <==> now >= d.executeAt)
      && (d.message.id in Remaining(m, now) <==> now < d.executeAt)
  {
  }

  lemma RemainingIsMinusDue(messages: map<string, DelayedMessage>, now: Time)
    ensures Remaining(messages, now) == messages - DueIDs(messages, now)
  {
  }

  /** Publishing a processable message, or sweeping, keeps every entry processable. */
  lemma ChecksStayWellFormed(messages: map<string, DelayedMessage>, d: DelayedMessage, now: Time)
    requires ChecksWellFormed(messages)
    ensures CheckWellFormed(d.message) ==> ChecksWellFormed(messages[d.message.id := d])
    ensures !CheckWellFormed(d.message) ==> !ChecksWellFormed(messages[d.message.id := d])
    ensures ChecksWellFormed(Remaining(messages, now))
  {
    if !CheckWellFormed(d.message) {
      assert messages[d.message.id := d][d.message.id] == d;
    }
  }

  class MemoryDelayQueue {
    var messages: map<string, DelayedMessage>

    constructor ()
      ensures messages == map[]
    {
      messages := map[];
    }

    /** Schedules `message` at `now + delay` under its id; never fails. */
    method PublishDelayedMessage(topic: string, key: string, message: Message, delay: Duration, now: Time)
      returns (err: Option<Error>)
      modifies this
      ensures messages == old(messages)[message.id := DelayedMessage(message, topic, key, now + delay)]
      ensures err == None
    {
      var executeAt := now + delay;
      messages := messages[message.id := DelayedMessage(message, topic, key, executeAt)];
      return None;
    }

    /**
     * The sweep at `now`: the due entries leave the queue under the lock,
     * then each is processed. `expired` and `notices` are what it fired and
     * what `processMessage` reported.
     */
    method ProcessExpiredMessages(now: Time)
      returns (expired: seq<DelayedMessage>, notices: seq<string>, ghost firedIDs: seq<string>)
      requires ChecksWellFormed(messages)
      modifies this
      ensures messages == Remaining(old(messages), now)
      ensures |firedIDs| == |expired| && (forall i, j :: 0 <= i < j < |firedIDs| ==> firedIDs[i] != firedIDs[j])
      ensures (set id <- firedIDs) == DueIDs(old(messages), now)
      ensures forall k :: 0 <= k < |firedIDs| ==> firedIDs[k] in old(messages) && expired[k] == old(messages)[firedIDs[k]]
      ensures notices == NoticesOf(expired)
    {
      ghost var before := messages;
      expired, firedIDs := RemoveExpired(now);
      assert forall k :: 0 <= k < |expired| ==> expired[k] == before[firedIDs[k]] && firedIDs[k] in before;
      notices := ProcessAll(expired);
    }

    /**
     * The locked part of the sweep. Entries are visited in an unspecified
     * order, as a Go map is; `firedIDs` names the order chosen, and `expired`
     * holds each due entry exactly once, in that order.
     */
    method RemoveExpired(now: Time) returns (expired: seq<DelayedMessage>, ghost firedIDs: seq<string>)
      modifies this
      ensures messages == Remaining(old(messages), now)
      ensures |firedIDs| == |expired| && (forall i, j :: 0 <= i < j < |firedIDs| ==> firedIDs[i] != firedIDs[j])
      ensures (set id <- firedIDs) == DueIDs(old(messages), now)
      ensures forall k :: 0 <= k < |firedIDs| ==> firedIDs[k] in old(messages) && expired[k] == old(messages)[firedIDs[k]]
    {
      var snapshot := messages;
      expired, firedIDs := [], [];
      ghost var fired: set<string> := {};
      var visited: set<string> := {};
      while visited != snapshot.Keys
        invariant snapshot == old(messages) && visited <= snapshot.Keys
        invariant fired == DueAmong(snapshot, visited, now)
        invariant messages == snapshot - fired
        invariant Picked(expired, firedIDs, fired, snapshot)
        decreases |snapshot.Keys - visited|
      {
        var id :| id in snapshot.Keys - visited;
        var delayedMsg := snapshot[id];
        VisitOne(snapshot, visited, id, now);
        if now >= delayedMsg.executeAt {
          PickOneMore(expired, firedIDs, fired, snapshot, id);
          RemoveOneMore(snapshot, fired, id);
          expired := expired + [delayedMsg];
          firedIDs := firedIDs + [id];
          fired := fired + {id};
          messages := messages - {id};
        }
        visited := visited + {id};
      }
      DueAmongAll(snapshot, now);
      RemainingIsMinusDue(snapshot, now);
    }

    /** The unlocked part of the sweep: each fired entry is processed in turn. */
    method ProcessAll(expired: seq<DelayedMessage>) returns (notices: seq<string>)
      requires AllChecksWellFormed(expired)
      ensures notices == NoticesOf(expired)
    {
      notices := [];
      for k := 0 to |expired|
        invariant notices == NoticesOf(expired[..k])
      {
        assert expired[..k + 1][..k] == expired[..k];
        var notice := ProcessMessage(expired[k]);
        if notice.Some? {
          notices := notices + [notice.value];
        }
      }
      assert expired[..|expired|] == expired;
    }

    method ProcessMessage(d: DelayedMessage) returns (cartID: Option<string>)
      requires CheckWellFormed(d.message)
      ensures cartID == AbandonmentNotice(d.message)
    {
      if d.message.msgType == CheckCartAbandonmentCommandType {
        return Some(d.message.data.cartID);
      }
      return None;
    }
  }

  /**
   * `ids` lists the set `fired` without repetition, and `expired` holds the
   * entry of each listed id, in the same order.
   */
  ghost predicate Picked(expired: seq<DelayedMessage>, ids: seq<string>, fired: set<string>,
                         messages: map<string, DelayedMessage>) {
    && |ids| == |expired|
    && (forall i, j :: 0 <= i < j < |ids| ==> ids[i] != ids[j])
    && (set x <- ids) == fired
    && (forall k :: 0 <= k < |ids| ==> ids[k] in messages && expired[k] == messages[ids[k]])
  }

  /** The due entries among the ids visited so far. */
  ghost function DueAmong(messages: map<string, DelayedMessage>, visited: set<string>, now: Time): set<string> {
    set id | id in visited && id in messages && Due(messages[id], now)
  }

  /** Visiting one more id adds it to the due ones exactly when it is due; visiting all finds `DueIDs`. */
  lemma VisitOne(messages: map<string, DelayedMessage>, visited: set<string>, id: string, now: Time)
    requires id in messages
    ensures DueAmong(messages, visited + {id}, now) ==
            if Due(messages[id], now) then DueAmong(messages, visited, now) + {id} else DueAmong(messages, visited, now)
  {
  }

  lemma DueAmongAll(messages: map<string, DelayedMessage>, now: Time)
    ensures DueAmong(messages, messages.Keys, now) == DueIDs(messages, now)
  {
  }

  /** Removing one more key from a map difference. */
  lemma RemoveOneMore(messages: map<string, DelayedMessage>, fired: set<string>, id: string)
    ensures (messages - fired) - {id} == messages - (fired + {id})
  {
  }

  /** Listing one more id, not listed before, keeps the listing faithful. */
  lemma PickOneMore(expired: seq<DelayedMessage>, ids: seq<string>, fired: set<string>,
                    messages: map<string, DelayedMessage>, id: string)
    requires Picked(expired, ids, fired, messages) && id in messages && id !in fired
    ensures Picked(expired + [messages[id]], ids + [id], fired + {id}, messages)
  {
    assert (set x <- ids + [id]) == (set x <- ids) + {id};
  }

  /** The cart ids reported for a list of fired entries, in order. */
  function NoticesOf(expired: seq<DelayedMessage>): seq<string>
    requires AllChecksWellFormed(expired)
  {
    if |expired| == 0 then []
    else
      var init := NoticesOf(expired[..|expired| - 1]);
      match AbandonmentNotice(expired[|expired| - 1].message)
      case Some(cartID) => init + [cartID]
      case None => init
  }
}
