/** The rows of the event tables, and the identifiers that link them. */
module Tables {
  datatype Option<+T> = None | Some(value: T)

  /** Milliseconds on the database clock. */
  type Time = nat

  // UUID columns. Only equality matters, so they are numbers here.
  type EventId = nat
  type SubscriptionId = nat
  type DeliveryId = nat

  datatype Kind = Handler | Webhook

  datatype Status = Pending | Running | Done | Failed | Dead

  datatype Event = Event(organizationId: Option<string>, topic: string, createdAt: Time)

  datatype Subscription = Subscription(
    organizationId: Option<string>,
    topic: string,
    handler: string,
    kind: Kind,
    maxAttempts: nat,
    active: bool,
    updatedAt: Time)

  datatype Delivery = Delivery(
    eventId: EventId,
    subscriptionId: SubscriptionId,
    status: Status,
    attempts: nat,
    nextAttemptAt: Time,
    claimedBy: Option<string>,
    claimedAt: Option<Time>,
    doneAt: Option<Time>)

  /** Primary key of a receipt: the subscription and the org-scoped key. */
  datatype ReceiptKey = ReceiptKey(subscriptionId: SubscriptionId, key: string)

  /** A reservation while `completedAt` is None, a receipt afterwards. */
  datatype Receipt = Receipt(eventId: EventId, deliveryId: Option<DeliveryId>, completedAt: Option<Time>)

  datatype Db = Db(
    events: map<EventId, Event>,
    subscriptions: map<SubscriptionId, Subscription>,
    deliveries: map<DeliveryId, Delivery>,
    receipts: map<ReceiptKey, Receipt>,
    now: Time)

  /** What every status write is fenced on. */
  datatype Token = Token(delivery: DeliveryId, claimedBy: string, attempts: nat)

  /** A (topic, handler) pair: a registry entry, and what a pod can run. */
  datatype HandlerRef = HandlerRef(topic: string, handler: string)

  /** A unique index on (event_id, subscription_id), and the foreign keys of a delivery. */
  ghost predicate DeliveriesConsistent(db: Db) {
    && (forall d <- db.deliveries ::
          && db.deliveries[d].eventId in db.events
          && db.deliveries[d].subscriptionId in db.subscriptions)
    && (forall d, d' | d in db.deliveries && d' in db.deliveries
                       && db.deliveries[d].eventId == db.deliveries[d'].eventId
                       && db.deliveries[d].subscriptionId == db.deliveries[d'].subscriptionId :: d == d')
  }

  /** A receipt that still names a delivery names one of its own event and subscription. */
  ghost predicate ReceiptsConsistent(db: Db) {
    forall k <- db.receipts ::
      && db.receipts[k].eventId in db.events
      && (db.receipts[k].deliveryId.Some? ==>
            var d := db.receipts[k].deliveryId.value;
            && d in db.deliveries
            && db.deliveries[d].eventId == db.receipts[k].eventId
            && db.deliveries[d].subscriptionId == k.subscriptionId)
  }

  /** One code-declared subscription per (topic, handler): the partial unique index. */
  ghost predicate GlobalsUnique(subscriptions: map<SubscriptionId, Subscription>) {
    forall s, s' | s in subscriptions && s' in subscriptions
                   && subscriptions[s].organizationId.None? && subscriptions[s'].organizationId.None?
                   && subscriptions[s].topic == subscriptions[s'].topic
                   && subscriptions[s].handler == subscriptions[s'].handler :: s == s'
  }
}
