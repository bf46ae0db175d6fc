/** Topics, routing keys, event envelopes and the consumer-group filters. */
module Messages {
  import opened Basics

  /** Identifiers drawn with `crypto.randomUUID()`; the empty string is the falsy, missing id. */
  type Uuid = string
  type Sku = string

  datatype Topic = OrderEvents | InventoryEvents | PaymentEvents

  datatype RoutingKey =
    | OrderCreatedKey
    | ReserveKey
    | ReservedKey
    | RejectedKey
    | ProcessPaymentKey
    | SucceededKey
    | FailedKey
    | ReleaseKey

  /** One constructor per `eventType`. */
  datatype Payload =
    | ReserveInventoryRequested(eventId: Uuid, orderId: Uuid, userId: string, itemSku: Sku, quantity: int,
                                totalAmount: real, currency: string)
    | InventoryReserved(eventId: Uuid, orderId: Uuid, totalAmount: real, currency: string)
    | InventoryRejected(eventId: Uuid, orderId: Uuid, reason: string)
    | ProcessPayment(eventId: Uuid, orderId: Uuid, amount: real, currency: string)
    | PaymentSucceeded(eventId: Uuid, orderId: Uuid)
    | PaymentFailed(eventId: Uuid, orderId: Uuid, reason: string)
    | ReleaseInventory(eventId: Uuid, orderId: Uuid)

  /** An outbox row, and equally the Kafka message `publishEvent` makes of it. */
  datatype Event = Event(topic: Topic, routingKey: RoutingKey, headerId: Option<Uuid>, payload: Payload)

  /** `message.headers?.eventId?.toString() ?? payload.eventId` */
  function EventId(m: Event): Uuid {
    match m.headerId
    case Some(id) => id
    case None => m.payload.eventId
  }

  /** The routing key each event type is enveloped with. */
  function KeyOf(p: Payload): RoutingKey {
    match p
    case ReserveInventoryRequested(_, _, _, _, _, _, _) => ReserveKey
    case InventoryReserved(_, _, _, _) => ReservedKey
    case InventoryRejected(_, _, _) => RejectedKey
    case ProcessPayment(_, _, _, _) => ProcessPaymentKey
    case PaymentSucceeded(_, _) => SucceededKey
    case PaymentFailed(_, _, _) => FailedKey
    case ReleaseInventory(_, _) => ReleaseKey
  }

  /** The topic the services insert rows of each routing key with. */
  function TopicOf(k: RoutingKey): Topic {
    match k
    case OrderCreatedKey => OrderEvents
    case ReserveKey => InventoryEvents
    case ReservedKey => InventoryEvents
    case RejectedKey => InventoryEvents
    case ReleaseKey => InventoryEvents
    case ProcessPaymentKey => PaymentEvents
    case SucceededKey => PaymentEvents
    case FailedKey => PaymentEvents
  }

  /** `createEventEnvelope` followed by the outbox insert: the id goes into header and payload alike. */
  function Envelope(p: Payload): Event {
    Event(TopicOf(KeyOf(p)), KeyOf(p), Some(p.eventId), p)
  }

  datatype Group = OrderSaga | InventoryCommands | PaymentCommands

  predicate Subscribes(g: Group, t: Topic) {
    match g
    case OrderSaga => t == InventoryEvents || t == PaymentEvents
    case InventoryCommands => t == InventoryEvents
    case PaymentCommands => t == PaymentEvents
  }

  predicate HandlesKey(g: Group, k: RoutingKey) {
    match g
    case OrderSaga => k == ReservedKey || k == RejectedKey || k == SucceededKey || k == FailedKey
    case InventoryCommands => k == ReserveKey || k == ReleaseKey
    case PaymentCommands => k == ProcessPaymentKey
  }

  /** Whether `consumeTopics` hands the message to the group's handler. */
  predicate Accepts(g: Group, m: Event) {
    Subscribes(g, m.topic) && HandlesKey(g, m.routingKey)
  }

  /** The group meant to act on events of a routing key. */
  function ConsumerOf(k: RoutingKey): Group {
    match k
    case ReserveKey => InventoryCommands
    case ReleaseKey => InventoryCommands
    case ProcessPaymentKey => PaymentCommands
    case OrderCreatedKey => OrderSaga
    case ReservedKey => OrderSaga
    case RejectedKey => OrderSaga
    case SucceededKey => OrderSaga
    case FailedKey => OrderSaga
  }

  /** Exactly one group acts on an enveloped event. */
  lemma EnvelopeHasOneConsumer(p: Payload, g: Group)
    ensures Accepts(g, Envelope(p)) <==> g == ConsumerOf(KeyOf(p))
  {
  }
}
