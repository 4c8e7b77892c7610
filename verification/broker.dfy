/**
  The MQTT client as far as the data module uses it: publish(topic, payload,
  qos, retain). Every call is recorded, in order, in the client's outbound log.
 */
module Mqtt {
  import SensorCatalogue
  import BufferDecoder

  type QoS = q: int | 0 <= q <= 2

  /** What is published: a discovery record (serialised to JSON) or one reading. */
  datatype Payload =
    | Config(config: SensorCatalogue.DiscoveryConfig)
    | Reading(value: BufferDecoder.Value)

  datatype Message = Message(topic: string, payload: Payload, qos: QoS, retain: bool)

  class Broker {
    /** Every message handed to the client, oldest first. */
    var log: seq<Message>

    constructor ()
      ensures log == []
    {
      log := [];
    }

    /** Hand one message to the client; nothing else changes. */
    method Publish(topic: string, payload: Payload, qos: QoS, retain: bool)
      modifies this
      ensures log == old(log) + [Message(topic, payload, qos, retain)]
    {
      log := log + [Message(topic, payload, qos, retain)];
    }
  }
}
