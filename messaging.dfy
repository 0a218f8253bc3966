/**
 * The broker-facing records: the message envelope, what a producer is asked
 * to send, and the producer itself as a recorder with a failure oracle.
 */
module Messaging {
  import opened Common

  /** The `Data` of a message: raw event JSON, or the abandonment-check body. */
  datatype Payload =
    | EventData(bytes: Bytes)
    | AbandonmentCheck(cartID: string, tenantID: string, itemAddedEventID: string,
                       itemAddedAt: int, delayMinutes: real)

  /** `dto.Message`. */
  datatype Message = Message(id: Uuid, msgType: string, data: Payload, aggregateID: Uuid, version: int)

  /** One `PublishMessage(topic, key, message)` call. */
  datatype Publication = Publication(topic: string, key: string, message: Message)

  /**
   * A `MessageProducer`: it records every call, and `outcome` decides which
   * calls the broker rejects (with the error text).
   */
  class MessageProducer {
    var sent: seq<Publication>
    const outcome: Publication -> Option<string>

    constructor (outcome: Publication -> Option<string>)
      ensures sent == [] && this.outcome == outcome
    {
      sent := [];
      this.outcome := outcome;
    }

    method PublishMessage(topic: string, key: string, message: Message) returns (err: Option<string>)
      modifies this
      ensures sent == old(sent) + [Publication(topic, key, message)]
      ensures err == outcome(Publication(topic, key, message))
    {
      sent := sent + [Publication(topic, key, message)];
      err := outcome(Publication(topic, key, message));
    }
  }
}
