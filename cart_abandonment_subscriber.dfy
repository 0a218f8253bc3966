/**
 * `CartAbandonmentSubscriber`: reacts to each event once (by event id) and,
 * for an item added to a cart, looks up the tenant's abandonment policy and
 * schedules a "CheckCartAbandonmentCommand" message on the delay queue after
 * the policy's delay. A tenant without a policy is skipped silently.
 *
 * The event type has no tenant id accessor, so which tenant an event
 * belongs to is a function the subscriber is given. The message id and the
 * clock reading the queue uses are parameters.
 */
module AbandonmentSubscriber {
  import opened Common
  import opened Event
  import opened CommandPorts
  import opened Messaging
  import opened DelayQueue
  import Policy = TenantCartAbandonedPolicy

  const ErrPolicyNotFound: Error := Error(NotFound, "tenant policy not found")

  /** The delay-queue topic of abandonment checks. */
  const AbandonmentTopic: string := "cart-abandonment-check"

  /** Seconds from Go's zero time (year 1) to the Unix epoch. */
  const SecondsToUnixEpoch: int := 62135596800

  /** `t.Unix()`: whole seconds since 1970, rounded down. */
  function UnixSeconds(t: Time): int {
    t / NanosPerSecond - SecondsToUnixEpoch
  }

  /** `d.Minutes()`, exactly. */
  function DelayMinutes(d: Duration): real {
    d as real / NanosPerMinute as real
  }

  /** The subscriber's state: the event ids it has seen and the delay queue's entries. */
  datatype SubscriberState = SubscriberState(seen: set<string>, queue: map<string, DelayedMessage>)

  /**
   * `loadTenantPolicy`: a failed load is passed on (NotFound for a tenant
   * without events); otherwise the rebuilt policy, unless it is still new.
   */
  function TenantPolicyLookup(st: StoreState, tenantID: Uuid): Result<Policy.PolicyState> {
    var loaded := LoadResult(st, tenantID);
    if loaded.Failure? then Failure(loaded.error)
    else
      var policy := if |loaded.value| > 0 then Policy.HydratePolicy(Policy.NewPolicy, loaded.value) else Policy.NewPolicy;
      if policy.version == -1 then Failure(ErrPolicyNotFound) else Success(policy)
  }

  /** The message that asks for the abandonment check of the cart an item was added to. */
  function CheckMessage(e: Event, tenantID: Uuid, policy: Policy.PolicyState, msgID: Uuid): Message
    requires e.ItemAddedToCart?
  {
    var delay := Policy.AbandonedDelay(policy.cartAbandonedMinutes);
    Message(msgID, CheckCartAbandonmentCommandType,
            AbandonmentCheck(e.GetAggregateID(), tenantID, e.GetEventID(), UnixSeconds(e.GetTimestamp()),
                             DelayMinutes(delay)),
            e.GetAggregateID(), e.GetVersion())
  }

  /** `scheduleCartAbandonmentCheck`: the queue it leaves and what it returns. */
  function Schedule(st: StoreState, queue: map<string, DelayedMessage>, e: Event, tenantID: Uuid, msgID: Uuid,
                    now: Time): (map<string, DelayedMessage>, Option<Error>)
    requires e.ItemAddedToCart?
  {
    match TenantPolicyLookup(st, tenantID)
    case Failure(err) => if err.code == NotFound then (queue, None) else (queue, Some(err))
    case Success(policy) =>
      var delay := Policy.AbandonedDelay(policy.cartAbandonedMinutes);
      (queue[msgID := DelayedMessage(CheckMessage(e, tenantID, policy, msgID), AbandonmentTopic,
                                     e.GetAggregateID(), now + delay)], None)
  }

  /** `Handle`: the id is recorded before anything else; only an added item is scheduled. */
  function HandleSpec(s: SubscriberState, st: StoreState, tenantOf: Event -> Uuid, e: Event, msgID: Uuid,
                      now: Time): (SubscriberState, Option<Error>)
  {
    if e.GetEventID() in s.seen then (s, None)
    else
      var s1 := s.(seen := s.seen + {e.GetEventID()});
      if e.ItemAddedToCart? then
        var (queue, err) := Schedule(st, s.queue, e, tenantOf(e), msgID, now);
        (s1.(queue := queue), err)
      else (s1, None)
  }

  // ------------------------------------------------------------- properties

  /** A repeated event id is a no-op that returns nil. */
  lemma SeenEventIgnored(s: SubscriberState, st: StoreState, tenantOf: Event -> Uuid, e: Event, msgID: Uuid,
                         now: Time)
    requires e.GetEventID() in s.seen
    ensures HandleSpec(s, st, tenantOf, e, msgID, now) == (s, None)
  {
  }

  /**
   * A new id is recorded whatever happens next, even an error, so handling
   * the same event a second time does nothing.
   */
  lemma HandledOnce(s: SubscriberState, st: StoreState, tenantOf: Event -> Uuid, e: Event, msgID: Uuid, now: Time,
                    st2: StoreState, msgID2: Uuid, now2: Time)
    ensures var (s1, _) := HandleSpec(s, st, tenantOf, e, msgID, now);
      && s1.seen == s.seen + {e.GetEventID()}
      && HandleSpec(s1, st2, tenantOf, e, msgID2, now2) == (s1, None)
  {
  }

  /** Only an `ItemAddedToCartEvent` can touch the queue or produce an error. */
  lemma OtherEventsIgnored(s: SubscriberState, st: StoreState, tenantOf: Event -> Uuid, e: Event, msgID: Uuid,
                           now: Time)
    requires !e.ItemAddedToCart?
    ensures HandleSpec(s, st, tenantOf, e, msgID, now) == (s.(seen := s.seen + {e.GetEventID()}), None)
  {
    if e.GetEventID() in s.seen {
      assert s.seen + {e.GetEventID()} == s.seen;
    }
  }

  /**
   * The policy lookup passes on a failed load, and a policy that is still
   * new is reported as NotFound; a policy it returns exists.
   */
  lemma LookupOutcome(st: StoreState, tenantID: Uuid)
    ensures var r := TenantPolicyLookup(st, tenantID);
      && (LoadResult(st, tenantID).Failure? ==> r == Failure(LoadResult(st, tenantID).error))
      && (r.Success? ==> r.value.version != -1)
      && (LoadResult(st, tenantID).Success? && r.Failure? ==> r.error == ErrPolicyNotFound)
  {
  }

  /**
   * The message scheduled for a found policy: the check command type, the
   * abandonment topic, the cart id as key and aggregate id, the event's
   * version, id and time, the policy's delay in whole minutes, and due
   * exactly that delay after `now`. A NotFound lookup schedules nothing
   * and returns nil; any other lookup error is returned.
   */
  lemma ScheduleOutcome(st: StoreState, queue: map<string, DelayedMessage>, e: Event, tenantID: Uuid, msgID: Uuid,
                        now: Time)
    requires e.ItemAddedToCart?
    ensures var (q, err) := Schedule(st, queue, e, tenantID, msgID, now);
      var lookup := TenantPolicyLookup(st, tenantID);
      && (lookup.Failure? ==> q == queue && (err.None? <==> lookup.error.code == NotFound))
      && (lookup.Failure? && err.Some? ==> err.value == lookup.error)
      && (lookup.Success? ==>
            var minutes := lookup.value.cartAbandonedMinutes;
            && err == None
            && q.Keys == queue.Keys + {msgID}
            && (forall id <- queue | id != msgID :: q[id] == queue[id])
            && var d := q[msgID];
            && d.topic == AbandonmentTopic && d.key == e.aggregateID
            && d.executeAt == now + minutes * NanosPerMinute
            && d.message.id == msgID && d.message.msgType == "CheckCartAbandonmentCommand"
            && d.message.aggregateID == e.aggregateID && d.message.version == e.version
            && d.message.data == AbandonmentCheck(e.aggregateID, tenantID, e.eventID,
                                                  UnixSeconds(e.timestamp), minutes as real))
  {
    if TenantPolicyLookup(st, tenantID).Success? {
      var minutes := TenantPolicyLookup(st, tenantID).value.cartAbandonedMinutes;
      DelayMinutesOfWholeMinutes(minutes);
    }
  }

  /**
   * Every message the subscriber schedules is an abandonment check with its
   * body, so a queue the delay-queue sweep can process stays processable.
   */
  lemma ScheduleKeepsChecksWellFormed(st: StoreState, queue: map<string, DelayedMessage>, e: Event, tenantID: Uuid,
                                      msgID: Uuid, now: Time)
    requires e.ItemAddedToCart? && ChecksWellFormed(queue)
    ensures ChecksWellFormed(Schedule(st, queue, e, tenantID, msgID, now).0)
  {
    var q := Schedule(st, queue, e, tenantID, msgID, now).0;
    forall id <- q ensures CheckWellFormed(q[id].message) {
      if id != msgID {
        assert q[id] == queue[id];
      }
    }
  }

  /** A whole number of minutes converts back to that number. */
  lemma DelayMinutesOfWholeMinutes(minutes: int)
    ensures DelayMinutes(Policy.AbandonedDelay(minutes)) == minutes as real
  {
    var n := NanosPerMinute as real;
    assert Policy.AbandonedDelay(minutes) as real == minutes as real * n;
    assert (minutes as real * n) / n == minutes as real;
  }

  /**
   * `Hydration` applies no event, so every lookup fails: with NotFound
   * unless the store itself reports another error. Hence no event is ever
   * scheduled, and `Handle` returns an error only for an added item whose
   * tenant's history cannot be read.
   */
  lemma NeverSchedules(s: SubscriberState, st: StoreState, tenantOf: Event -> Uuid, e: Event, msgID: Uuid,
                       now: Time)
    ensures TenantPolicyLookup(st, tenantOf(e)).Failure?
    ensures var (s1, err) := HandleSpec(s, st, tenantOf, e, msgID, now);
      && s1.queue == s.queue
      && (err.Some? <==>
            e.GetEventID() !in s.seen && e.ItemAddedToCart? &&
            st.loadFault(tenantOf(e)).Some? && st.loadFault(tenantOf(e)).value.code != NotFound)
      && (err.Some? ==> err.value == st.loadFault(tenantOf(e)).value)
  {
    var loaded := LoadResult(st, tenantOf(e));
    if loaded.Success? {
      Policy.HydratePolicyIsIdentity(Policy.NewPolicy, loaded.value);
    }
  }

  /** `Unix()` counts from 1970: the epoch is second 0 and each second adds one. */
  lemma UnixSecondsSpec(t: Time, k: int)
    ensures UnixSeconds(SecondsToUnixEpoch * NanosPerSecond) == 0
    ensures UnixSeconds(t + k * NanosPerSecond) == UnixSeconds(t) + k
  {
    var q := t / NanosPerSecond;
    assert t == q * NanosPerSecond + t % NanosPerSecond;
    assert t + k * NanosPerSecond == (q + k) * NanosPerSecond + t % NanosPerSecond;
  }

  // ------------------------------------------------------------------ class

  class CartAbandonmentSubscriber {
    const eventStore: EventStore
    const delayQueue: MemoryDelayQueue
    const tenantOf: Event -> Uuid
    var seen: set<string>

    constructor (eventStore: EventStore, delayQueue: MemoryDelayQueue, tenantOf: Event -> Uuid)
      ensures this.eventStore == eventStore && this.delayQueue == delayQueue && this.tenantOf == tenantOf
      ensures seen == {}
    {
      this.eventStore, this.delayQueue, this.tenantOf := eventStore, delayQueue, tenantOf;
      seen := {};
    }

    function State(): SubscriberState
      reads this, delayQueue
    {
      SubscriberState(seen, delayQueue.messages)
    }

    method Handle(e: Event, msgID: Uuid, now: Time) returns (err: Option<Error>)
      modifies this, delayQueue
      ensures (State(), err) == HandleSpec(old(State()), eventStore.State(), tenantOf, e, msgID, now)
    {
      var eventID := e.GetEventID();
      if eventID in seen {
        return None;
      }
      seen := seen + {eventID};
      if e.ItemAddedToCart? {
        err := ScheduleCartAbandonmentCheck(e, msgID, now);
        return;
      }
      return None;
    }

    method ScheduleCartAbandonmentCheck(e: Event, msgID: Uuid, now: Time) returns (err: Option<Error>)
      requires e.ItemAddedToCart?
      modifies delayQueue
      ensures (delayQueue.messages, err) ==
              Schedule(eventStore.State(), old(delayQueue.messages), e, tenantOf(e), msgID, now)
    {
      var cartID := e.GetAggregateID();
      var tenantID := tenantOf(e);
      var policy, lookupErr := LoadTenantPolicy(tenantID);
      if lookupErr.Some? {
        if lookupErr.value.code == NotFound {
          return None;
        }
        return lookupErr;
      }
      var delay := policy.CartAbandonedDelay();
      var message := Message(msgID, CheckCartAbandonmentCommandType,
                             AbandonmentCheck(cartID, tenantID, e.GetEventID(), UnixSeconds(e.GetTimestamp()),
                                              DelayMinutes(delay)),
                             cartID, e.GetVersion());
      err := delayQueue.PublishDelayedMessage(AbandonmentTopic, cartID, message, delay, now);
    }

    method LoadTenantPolicy(tenantID: Uuid) returns (policy: Policy.TenantCartAbandonedPolicyAggregate?, err: Option<Error>)
      ensures err.Some? <==> policy == null
      ensures err.Some? ==> TenantPolicyLookup(eventStore.State(), tenantID) == Failure(err.value)
      ensures policy != null ==> fresh(policy) && TenantPolicyLookup(eventStore.State(), tenantID) == Success(policy.State())
    {
      var events := eventStore.LoadEvents(tenantID);
      if events.Failure? {
        return null, Some(events.error);
      }
      policy := new Policy.TenantCartAbandonedPolicyAggregate();
      if |events.value| > 0 {
        var hydrationErr := policy.Hydration(events.value);
        if hydrationErr.Some? {
          // Hydration never reports an error
          assert false;
        }
      }
      if policy.GetVersion() == -1 {
        return null, Some(ErrPolicyNotFound);
      }
      return policy, None;
    }
  }
}
