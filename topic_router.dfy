/**
 * `StaticMapRouter`: the topic of an event depends only on its aggregate
 * type, through a mutable map with a fallback topic. The broker-side router
 * starts with both aggregate types mapped; the event-store router only "Cart".
 */
module TopicRouter {
  import opened Event

  const CartEventsTopic: string := "ec.cart-events"
  const MiscEventsTopic: string := "ec.misc-events"

  /** Initial map of the broker-side router. */
  const KafkaRoutes: map<string, string> :=
    map[CartAggregateType := CartEventsTopic, PolicyAggregateType := CartEventsTopic]

  /** Initial map of the event-store router. */
  const EventStoreRoutes: map<string, string> := map[CartAggregateType := CartEventsTopic]

  /** The lookup with fallback of `TopicFor`; the event type takes no part. */
  function Route(routes: map<string, string>, aggregateType: string): (topic: string)
    ensures aggregateType in routes ==> topic == routes[aggregateType]
    ensures aggregateType !in routes ==> topic == MiscEventsTopic
  {
    if aggregateType in routes then routes[aggregateType] else MiscEventsTopic
  }

  /**
   * After `AddMapping(a, t)` the type `a` routes to `t` and every other
   * type routes as before; adding the same mapping twice is adding it once.
   */
  lemma AddMappingSpec(routes: map<string, string>, a: string, t: string, b: string)
    ensures Route(routes[a := t], a) == t
    ensures b != a ==> Route(routes[a := t], b) == Route(routes, b)
    ensures routes[a := t][a := t] == routes[a := t]
  {
  }

  /** Both aggregate types go to the cart topic on the broker side, anything else to the fallback. */
  lemma KafkaRoutesSpec(aggregateType: string)
    ensures Route(KafkaRoutes, CartAggregateType) == CartEventsTopic
    ensures Route(KafkaRoutes, PolicyAggregateType) == CartEventsTopic
    ensures aggregateType != CartAggregateType && aggregateType != PolicyAggregateType ==>
      Route(KafkaRoutes, aggregateType) == MiscEventsTopic
  {
  }

  /** The event-store router sends policy events to the fallback topic. */
  lemma EventStoreRoutesSpec(aggregateType: string)
    ensures Route(EventStoreRoutes, CartAggregateType) == CartEventsTopic
    ensures Route(EventStoreRoutes, PolicyAggregateType) == MiscEventsTopic
    ensures aggregateType != CartAggregateType ==> Route(EventStoreRoutes, aggregateType) == MiscEventsTopic
  {
    AggregateTypeOfKinds(CartCreated("", "", "", "", 0, 0));
  }

  /** Every event routes to the cart topic on the broker side. */
  lemma KafkaRoutesEveryEvent(e: Event)
    ensures Route(KafkaRoutes, e.GetAggregateType()) == CartEventsTopic
  {
  }

  class StaticMapRouter {
    var aggregateTopicMap: map<string, string>

    /** `NewStaticTopicRouter` of the broker adapter. */
    constructor Kafka()
      ensures aggregateTopicMap == KafkaRoutes
    {
      aggregateTopicMap := KafkaRoutes;
    }

    /** `NewStaticMapRouter` of the event store. */
    constructor EventStore()
      ensures aggregateTopicMap == EventStoreRoutes
    {
      aggregateTopicMap := EventStoreRoutes;
    }

    function TopicFor(eventType: string, aggregateType: string): (topic: string)
      reads this
      ensures topic == Route(aggregateTopicMap, aggregateType)
    {
      if aggregateType in aggregateTopicMap then aggregateTopicMap[aggregateType] else MiscEventsTopic
    }

    method AddMapping(aggregateType: string, topic: string)
      modifies this
      ensures aggregateTopicMap == old(aggregateTopicMap)[aggregateType := topic]
    {
      aggregateTopicMap := aggregateTopicMap[aggregateType := topic];
    }
  }
}
