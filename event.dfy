/**
 * The six domain events as one closed union. Every event carries the
 * aggregate it belongs to, a unique event id, a timestamp and a version;
 * the string tags returned by `GetEventType` and `GetAggregateType` are the
 * keys used by the topic routers, the deserializer registry and the outbox.
 */
module Event {
  import opened Common

  const CartAggregateType: string := "Cart"
  const PolicyAggregateType: string := "TenantCartAbandonedPolicy"

  const CartCreatedEventType: string := "CartCreatedEvent"
  const ItemAddedToCartEventType: string := "ItemAddedToCartEvent"
  const CartSubmittedEventType: string := "CartSubmittedEvent"
  const CartPurchasedEventType: string := "CartPurchasedEvent"
  const PolicyCreatedEventType: string := "TenantCartAbandonedPolicyCreatedEvent"
  const PolicyUpdatedEventType: string := "TenantCartAbandonedPolicyUpdatedEvent"

  datatype Event =
    | CartCreated(aggregateID: Uuid, userID: Uuid, tenantID: Uuid,
                  eventID: Uuid, timestamp: Time, version: int)
    | ItemAddedToCart(aggregateID: Uuid, itemID: Uuid, quantity: int, price: real,
                      eventID: Uuid, timestamp: Time, version: int)
    | CartSubmitted(aggregateID: Uuid, totalAmount: real, submittedAt: Time,
                    eventID: Uuid, timestamp: Time, version: int)
    | CartPurchased(aggregateID: Uuid, totalAmount: real, purchasedAt: Time,
                    eventID: Uuid, timestamp: Time, version: int)
    | PolicyCreated(aggregateID: Uuid, title: string, abandonedMinutes: int,
                    quietTimeFrom: Time, quietTimeTo: Time,
                    eventID: Uuid, timestamp: Time, version: int)
    | PolicyUpdated(aggregateID: Uuid, title: string, abandonedMinutes: int,
                    quietTimeFrom: Time, quietTimeTo: Time,
                    eventID: Uuid, timestamp: Time, version: int)
  {
    function GetAggregateID(): Uuid { aggregateID }
    function GetEventID(): Uuid { eventID }
    function GetTimestamp(): Time { timestamp }
    function GetVersion(): int { version }

    /** The constant type tag of each event kind. */
    function GetEventType(): string {
      match this
      case CartCreated(_, _, _, _, _, _) => CartCreatedEventType
      case ItemAddedToCart(_, _, _, _, _, _, _) => ItemAddedToCartEventType
      case CartSubmitted(_, _, _, _, _, _) => CartSubmittedEventType
      case CartPurchased(_, _, _, _, _, _) => CartPurchasedEventType
      case PolicyCreated(_, _, _, _, _, _, _, _) => PolicyCreatedEventType
      case PolicyUpdated(_, _, _, _, _, _, _, _) => PolicyUpdatedEventType
    }

    /** The four cart events belong to "Cart", the two policy events to "TenantCartAbandonedPolicy". */
    function GetAggregateType(): string {
      if PolicyCreated? || PolicyUpdated? then PolicyAggregateType else CartAggregateType
    }
  }

  /** Two events of different kinds. */
  predicate SameKind(a: Event, b: Event) {
    (a.CartCreated? && b.CartCreated?) || (a.ItemAddedToCart? && b.ItemAddedToCart?) ||
    (a.CartSubmitted? && b.CartSubmitted?) || (a.CartPurchased? && b.CartPurchased?) ||
    (a.PolicyCreated? && b.PolicyCreated?) || (a.PolicyUpdated? && b.PolicyUpdated?)
  }

  /** The six type tags are pairwise distinct, so a tag determines the event kind. */
  lemma EventTypeIdentifiesKind(a: Event, b: Event)
    ensures a.GetEventType() == b.GetEventType() <==> SameKind(a, b)
  {
    assert |CartCreatedEventType| == 16 && |ItemAddedToCartEventType| == 20;
    assert |CartSubmittedEventType| == 18 && |CartPurchasedEventType| == 18;
    assert |PolicyCreatedEventType| == 37 && |PolicyUpdatedEventType| == 37;
    assert CartSubmittedEventType[4] == 'S' && CartPurchasedEventType[4] == 'P';
    assert PolicyCreatedEventType[25] == 'C' && PolicyUpdatedEventType[25] == 'U';
  }

  /** The two aggregate type tags differ, and every event has one of them. */
  lemma AggregateTypeOfKinds(e: Event)
    ensures CartAggregateType != PolicyAggregateType
    ensures e.GetAggregateType() == PolicyAggregateType <==> e.PolicyCreated? || e.PolicyUpdated?
  {
    assert |CartAggregateType| == 4 && |PolicyAggregateType| == 25;
  }

  // ------------------------------------------------------------ constructors
  // The event id (`uuid.New()`) and the clock reading (`time.Now()`) are
  // parameters: `eventID` and `now`.

  function NewCartCreatedEvent(aggregateID: Uuid, version: int, userID: Uuid, tenantID: Uuid,
                               eventID: Uuid, now: Time): (e: Event)
    ensures e.CartCreated? && e.userID == userID && e.tenantID == tenantID
    ensures e.GetEventType() == "CartCreatedEvent" && e.GetAggregateType() == "Cart"
    ensures e.GetAggregateID() == aggregateID && e.GetVersion() == version
    ensures e.GetEventID() == eventID && e.GetTimestamp() == now
  {
    CartCreated(aggregateID, userID, tenantID, eventID, now, version)
  }

  function NewItemAddedToCartEvent(aggregateID: Uuid, version: int, itemID: Uuid, quantity: int,
                                   price: real, eventID: Uuid, now: Time): (e: Event)
    ensures e.ItemAddedToCart? && e.itemID == itemID && e.quantity == quantity && e.price == price
    ensures e.GetEventType() == "ItemAddedToCartEvent" && e.GetAggregateType() == "Cart"
    ensures e.GetAggregateID() == aggregateID && e.GetVersion() == version
    ensures e.GetEventID() == eventID && e.GetTimestamp() == now
  {
    ItemAddedToCart(aggregateID, itemID, quantity, price, eventID, now, version)
  }

  /** `SubmittedAt` and `Timestamp` are two reads of the same clock. */
  function NewCartSubmittedEvent(aggregateID: Uuid, version: int, totalAmount: real,
                                 eventID: Uuid, now: Time): (e: Event)
    ensures e.CartSubmitted? && e.totalAmount == totalAmount && e.submittedAt == now
    ensures e.GetEventType() == "CartSubmittedEvent" && e.GetAggregateType() == "Cart"
    ensures e.GetAggregateID() == aggregateID && e.GetVersion() == version
    ensures e.GetEventID() == eventID && e.GetTimestamp() == now
  {
    CartSubmitted(aggregateID, totalAmount, now, eventID, now, version)
  }

  /** `PurchasedAt` and `Timestamp` are two reads of the same clock. */
  function NewCartPurchasedEvent(aggregateID: Uuid, version: int, totalAmount: real,
                                 eventID: Uuid, now: Time): (e: Event)
    ensures e.CartPurchased? && e.totalAmount == totalAmount && e.purchasedAt == now
    ensures e.GetEventType() == "CartPurchasedEvent" && e.GetAggregateType() == "Cart"
    ensures e.GetAggregateID() == aggregateID && e.GetVersion() == version
    ensures e.GetEventID() == eventID && e.GetTimestamp() == now
  {
    CartPurchased(aggregateID, totalAmount, now, eventID, now, version)
  }

  function NewTenantCartAbandonedPolicyCreatedEvent(
    aggregateID: Uuid, version: int, title: string, abandonedMinutes: int,
    quietTimeFrom: Time, quietTimeTo: Time, eventID: Uuid, now: Time): (e: Event)
    ensures e.PolicyCreated? && e.title == title && e.abandonedMinutes == abandonedMinutes
    ensures e.quietTimeFrom == quietTimeFrom && e.quietTimeTo == quietTimeTo
    ensures e.GetEventType() == "TenantCartAbandonedPolicyCreatedEvent"
    ensures e.GetAggregateType() == "TenantCartAbandonedPolicy"
    ensures e.GetAggregateID() == aggregateID && e.GetVersion() == version
    ensures e.GetEventID() == eventID && e.GetTimestamp() == now
  {
    PolicyCreated(aggregateID, title, abandonedMinutes, quietTimeFrom, quietTimeTo, eventID, now, version)
  }

  function NewTenantCartAbandonedPolicyUpdatedEvent(
    aggregateID: Uuid, version: int, title: string, abandonedMinutes: int,
    quietTimeFrom: Time, quietTimeTo: Time, eventID: Uuid, now: Time): (e: Event)
    ensures e.PolicyUpdated? && e.title == title && e.abandonedMinutes == abandonedMinutes
    ensures e.quietTimeFrom == quietTimeFrom && e.quietTimeTo == quietTimeTo
    ensures e.GetEventType() == "TenantCartAbandonedPolicyUpdatedEvent"
    ensures e.GetAggregateType() == "TenantCartAbandonedPolicy"
    ensures e.GetAggregateID() == aggregateID && e.GetVersion() == version
    ensures e.GetEventID() == eventID && e.GetTimestamp() == now
  {
    PolicyUpdated(aggregateID, title, abandonedMinutes, quietTimeFrom, quietTimeTo, eventID, now, version)
  }
}
