/**
 * The queue client: publishing a processing message and the acknowledgement
 * protocol of the consumer. The broker's queue is a sequence of published
 * messages; the consumer takes the head, holds it unacknowledged, and then
 * either acknowledges it, drops it, or puts it back at the end of the queue.
 *
 * JSON encoding is not modelled: a message body either is the encoding of a
 * processing message or does not decode.
 */
module RabbitMQ {
  import opened Wrappers
  import opened Models

  /** The one queue that publisher and consumer share. */
  const QueueName: string := "payment_processing"

  const JsonContentType: string := "application/json"

  /** A message body: the JSON encoding of a processing message, or bytes that do not decode as one. */
  datatype Body = Encoded(message: ProcessPaymentMessage) | Undecodable(bytes: seq<bv8>)

  function Marshal(message: ProcessPaymentMessage): Body {
    Encoded(message)
  }

  function Unmarshal(body: Body): Option<ProcessPaymentMessage> {
    match body
    case Encoded(m) => Some(m)
    case Undecodable(_) => None
  }

  datatype DeliveryMode = Transient | Persistent

  /** A message as handed to the broker: exchange, routing key, and the publishing's fields. */
  datatype Publishing = Publishing(
    exchange: string,
    routingKey: string,
    contentType: string,
    deliveryMode: DeliveryMode,
    body: Body)

  /**
   * The message published for a payment: on the default exchange, routed to the
   * consumer's queue, persistent, and holding exactly the payment's identifier.
   */
  function PaymentPublishing(paymentId: Uuid): (p: Publishing)
    ensures p.exchange == "" && p.routingKey == QueueName
    ensures p.deliveryMode == Persistent && p.contentType == JsonContentType
    ensures Unmarshal(p.body) == Some(ProcessPaymentMessage(paymentId))
  {
    Publishing("", QueueName, JsonContentType, Persistent, Marshal(ProcessPaymentMessage(paymentId)))
  }

  /** Messages for distinct payments are distinct, and each names its payment. */
  lemma PaymentPublishingInjective(a: Uuid, b: Uuid)
    ensures PaymentPublishing(a) == PaymentPublishing(b) <==> a == b
  {
    assert Unmarshal(PaymentPublishing(a).body) == Some(ProcessPaymentMessage(a));
  }

  /** How a delivery is settled with the broker. */
  datatype Disposition = Ack | NackDrop | NackRequeue

  /**
   * The consumer's decision for one delivery: a body that does not decode is
   * dropped without calling the handler; a handler error requeues; a handler
   * success acknowledges. `handlerFailed` is only consulted when the body decoded.
   */
  function Dispose(decoded: Option<ProcessPaymentMessage>, handlerFailed: bool): (d: Disposition)
    ensures d == NackDrop <==> decoded.None?
    ensures d == NackRequeue <==> decoded.Some? && handlerFailed
    ensures d == Ack <==> decoded.Some? && !handlerFailed
  {
    if decoded.None? then NackDrop
    else if handlerFailed then NackRequeue
    else Ack
  }

  /** The queue after settling a delivery taken from its head: only a requeue puts it back, at the end. */
  function AfterSettle(rest: seq<Publishing>, delivery: Publishing, d: Disposition): seq<Publishing> {
    if d == NackRequeue then rest + [delivery] else rest
  }

  /** Why a publish failed. */
  datatype PublishError = MarshalFailed(cause: string) | PublishFailed(cause: string)

  /** What can go wrong while publishing: nothing, the encoding, or the channel. */
  datatype PublishFault = NoPublishFault | MarshalFault(cause: string) | ChannelFault(cause: string)

  /**
   * The client's channel to the broker, reduced to the processing queue: the
   * messages ready for delivery, and the one delivery the consumer holds
   * unacknowledged.
   */
  class Client {
    var ready: seq<Publishing>
    var inFlight: Option<Publishing>

    /**
     * A connected client whose queue has been declared. The queue is durable, so
     * it starts with whatever messages it held before, and nothing is in flight.
     */
    constructor (pending: seq<Publishing>)
      ensures ready == pending && inFlight == None
    {
      ready := pending;
      inFlight := None;
    }

    /**
     * Publishes a processing message for the payment. On success the message is
     * at the end of the queue; a marshal or channel failure is returned and the
     * queue is unchanged.
     */
    method PublishPaymentProcessing(paymentId: Uuid, fault: PublishFault) returns (err: Option<PublishError>)
      modifies this
      ensures inFlight == old(inFlight)
      ensures err.None? <==> fault == NoPublishFault
      ensures fault.MarshalFault? ==> err == Some(MarshalFailed(fault.cause))
      ensures fault.ChannelFault? ==> err == Some(PublishFailed(fault.cause))
      ensures ready == if err.None? then old(ready) + [PaymentPublishing(paymentId)] else old(ready)
    {
      var message := ProcessPaymentMessage(paymentId);
      if fault.MarshalFault? {
        return Some(MarshalFailed(fault.cause));
      }
      var body := Marshal(message);
      if fault.ChannelFault? {
        return Some(PublishFailed(fault.cause));
      }
      ready := ready + [Publishing("", QueueName, JsonContentType, Persistent, body)];
      err := None;
    }

    /**
     * Receives the next delivery. The consumer registers with manual
     * acknowledgement, so the head of the queue is held unacknowledged until settled.
     */
    method Next() returns (delivery: Publishing)
      requires ready != [] && inFlight == None
      modifies this
      ensures delivery == old(ready[0])
      ensures ready == old(ready[1..]) && inFlight == Some(delivery)
    {
      delivery := ready[0];
      ready := ready[1..];
      inFlight := Some(delivery);
    }

    /** Acknowledges the held delivery: the broker forgets it. */
    method Ack()
      requires inFlight.Some?
      modifies this
      ensures inFlight == None && ready == AfterSettle(old(ready), old(inFlight.value), Disposition.Ack)
    {
      inFlight := None;
    }

    /** Rejects the held delivery, either for good or back onto the queue. */
    method Nack(requeue: bool)
      requires inFlight.Some?
      modifies this
      ensures inFlight == None
      ensures ready == AfterSettle(old(ready), old(inFlight.value), if requeue then NackRequeue else NackDrop)
    {
      if requeue {
        ready := ready + [inFlight.value];
      }
      inFlight := None;
    }
  }
}
