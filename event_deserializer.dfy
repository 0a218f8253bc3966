/**
 * The event-type registry of the event store: a map from type tag to the
 * decoder for that tag. Decoding itself (JSON) is a parameter; the registry
 * only dispatches.
 */
module EventDeserializer {
  import opened Common
  import opened Event

  /** One per-type deserializer: the tag it answers to and its decoding function. */
  datatype Decoder = Decoder(eventType: string, decode: Bytes -> Result<Event>)

  function UnknownEventType(eventType: string): Error {
    Error(Uncoded, "unknown event type: " + eventType)
  }

  /** `Deserialize` over a registry map. */
  function Dispatch(registry: map<string, Decoder>, eventType: string, data: Bytes): (r: Result<Event>)
    ensures eventType !in registry ==> r == Failure(UnknownEventType(eventType))
    ensures eventType in registry ==> r == registry[eventType].decode(data)
  {
    if eventType !in registry then Failure(UnknownEventType(eventType))
    else registry[eventType].decode(data)
  }

  /** The registry `NewEventDeserializer` builds from the four cart decoders. */
  function InitialRegistry(cartCreated: Bytes -> Result<Event>, itemAdded: Bytes -> Result<Event>,
                           cartSubmitted: Bytes -> Result<Event>, cartPurchased: Bytes -> Result<Event>)
    : map<string, Decoder>
  {
    map[][CartCreatedEventType := Decoder(CartCreatedEventType, cartCreated)]
         [ItemAddedToCartEventType := Decoder(ItemAddedToCartEventType, itemAdded)]
         [CartSubmittedEventType := Decoder(CartSubmittedEventType, cartSubmitted)]
         [CartPurchasedEventType := Decoder(CartPurchasedEventType, cartPurchased)]
  }

  /**
   * The initial registry answers exactly the four cart tags, each with its
   * own decoder; the two policy tags are unknown.
   */
  lemma InitialRegistrySpec(cartCreated: Bytes -> Result<Event>, itemAdded: Bytes -> Result<Event>,
                            cartSubmitted: Bytes -> Result<Event>, cartPurchased: Bytes -> Result<Event>,
                            data: Bytes)
    ensures var reg := InitialRegistry(cartCreated, itemAdded, cartSubmitted, cartPurchased);
      && reg.Keys == {CartCreatedEventType, ItemAddedToCartEventType, CartSubmittedEventType, CartPurchasedEventType}
      && Dispatch(reg, CartCreatedEventType, data) == cartCreated(data)
      && Dispatch(reg, ItemAddedToCartEventType, data) == itemAdded(data)
      && Dispatch(reg, CartSubmittedEventType, data) == cartSubmitted(data)
      && Dispatch(reg, CartPurchasedEventType, data) == cartPurchased(data)
      && Dispatch(reg, PolicyCreatedEventType, data) == Failure(UnknownEventType(PolicyCreatedEventType))
      && Dispatch(reg, PolicyUpdatedEventType, data) == Failure(UnknownEventType(PolicyUpdatedEventType))
  {
    assert |CartCreatedEventType| == 16 && |ItemAddedToCartEventType| == 20;
    assert |CartSubmittedEventType| == 18 && |CartPurchasedEventType| == 18;
    assert |PolicyCreatedEventType| == 37 && |PolicyUpdatedEventType| == 37;
    assert CartSubmittedEventType[4] == 'S' && CartPurchasedEventType[4] == 'P';
  }

  /**
   * Registering a decoder makes its tag dispatch to it, replacing any earlier
   * decoder for the tag, and leaves every other tag as it was.
   */
  lemma RegisterSpec(registry: map<string, Decoder>, d: Decoder, eventType: string, data: Bytes)
    ensures Dispatch(registry[d.eventType := d], d.eventType, data) == d.decode(data)
    ensures eventType != d.eventType ==>
      Dispatch(registry[d.eventType := d], eventType, data) == Dispatch(registry, eventType, data)
  {
  }

  /** `eventRegistry`. */
  class EventRegistry {
    var deserializers: map<string, Decoder>

    constructor (cartCreated: Bytes -> Result<Event>, itemAdded: Bytes -> Result<Event>,
                 cartSubmitted: Bytes -> Result<Event>, cartPurchased: Bytes -> Result<Event>)
      ensures deserializers == InitialRegistry(cartCreated, itemAdded, cartSubmitted, cartPurchased)
    {
      deserializers := map[];
      new;
      Register(Decoder(CartCreatedEventType, cartCreated));
      Register(Decoder(ItemAddedToCartEventType, itemAdded));
      Register(Decoder(CartSubmittedEventType, cartSubmitted));
      Register(Decoder(CartPurchasedEventType, cartPurchased));
    }

    method Register(deserializer: Decoder)
      modifies this
      ensures deserializers == old(deserializers)[deserializer.eventType := deserializer]
    {
      deserializers := deserializers[deserializer.eventType := deserializer];
    }

    function Deserialize(eventType: string, eventData: Bytes): (r: Result<Event>)
      reads this
      ensures r == Dispatch(deserializers, eventType, eventData)
    {
      if eventType !in deserializers then Failure(UnknownEventType(eventType))
      else deserializers[eventType].decode(eventData)
    }
  }
}
