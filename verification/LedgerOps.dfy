/**
 * The transactions of src/lib/events.ts, each as a function from the tables
 * before it to the tables after it. `db.now` plays the part of `now()`.
 */
module LedgerOps {
  import opened Tables

  const DAY_MS := 86_400_000
  /** Delay of a delivery given back because its key is in flight or its handler is unknown. */
  const KEY_IN_FLIGHT_RETRY_MS := 2_000

  // ---- publish ----

  /** An active subscription of the topic; an org-scoped one hears its own org only. */
  predicate Hears(s: Subscription, topic: string, org: Option<string>) {
    s.topic == topic && s.active && (s.organizationId.None? || s.organizationId == org)
  }

  function Audience(db: Db, topic: string, org: Option<string>): set<SubscriptionId> {
    set s | s in db.subscriptions && Hears(db.subscriptions[s], topic, org)
  }

  function FreshDelivery(event: EventId, s: SubscriptionId, now: Time): Delivery {
    Delivery(event, s, Pending, 0, now, None, None, None)
  }

  /** `born` maps each minted delivery id to the subscription it is for. */
  ghost predicate OnePerListener(db: Db, topic: string, org: Option<string>, born: map<DeliveryId, SubscriptionId>) {
    && born.Values == Audience(db, topic, org)
    && (forall d, d' | d in born && d' in born && born[d] == born[d'] :: d == d')
  }

  function Publish(db: Db, id: EventId, org: Option<string>, topic: string, born: map<DeliveryId, SubscriptionId>): Db {
    if id in db.events then db
    else db.(
      events := db.events[id := Event(org, topic, db.now)],
      deliveries := db.deliveries + (map d | d in born :: FreshDelivery(id, born[d], db.now)))
  }

  // ---- subscriptions ----

  predicate IsGlobal(s: Subscription, h: HandlerRef) {
    s.organizationId.None? && s.topic == h.topic && s.handler == h.handler
  }

  /** Boot sync of one row: declared rows are revived and re-stamped, stale undeclared ones deactivated. */
  function SyncedRow(s: Subscription, registry: map<HandlerRef, nat>, now: Time, graceMs: nat): Subscription {
    var h := HandlerRef(s.topic, s.handler);
    if s.organizationId.None? && h in registry then
      s.(maxAttempts := registry[h], active := true, updatedAt := now)
    else if s.organizationId.None? && s.kind.Handler? && s.active && s.updatedAt + graceMs < now then
      s.(active := false, updatedAt := now)
    else s
  }

  function DeclaredRow(h: HandlerRef, maxAttempts: nat, now: Time): Subscription {
    Subscription(None, h.topic, h.handler, Handler, maxAttempts, true, now)
  }

  ghost predicate HasGlobal(subs: map<SubscriptionId, Subscription>, h: HandlerRef) {
    exists s :: s in subs && IsGlobal(subs[s], h)
  }

  /** `made` mints one id for each declared handler that has no row yet. */
  ghost predicate MakesMissing(db: Db, registry: map<HandlerRef, nat>, made: map<SubscriptionId, HandlerRef>) {
    && made.Keys !! db.subscriptions.Keys
    && (forall h <- made.Values :: h in registry)
    && (forall m, m' | m in made && m' in made && made[m] == made[m'] :: m == m')
    && (forall h <- registry :: h !in made.Values <==> HasGlobal(db.subscriptions, h))
  }

  function Sync(db: Db, registry: map<HandlerRef, nat>, made: map<SubscriptionId, HandlerRef>, graceMs: nat): Db {
    db.(subscriptions :=
      (map s | s in db.subscriptions :: SyncedRow(db.subscriptions[s], registry, db.now, graceMs))
      + (map s | s in made :: DeclaredRow(made[s], if made[s] in registry then registry[made[s]] else 0, db.now)))
  }

  // ---- claim ----

  /** What a claim call may take: `topics` {} means no topic filter, `runnable` None no handler filter. */
  datatype ClaimFilter = ClaimFilter(topics: set<string>, runnable: Option<set<HandlerRef>>)

  predicate Admits(f: ClaimFilter, topic: string, s: Subscription) {
    && (f.topics != {} ==> topic in f.topics)
    && (f.runnable.Some? && s.kind.Handler? ==> HandlerRef(topic, s.handler) in f.runnable.value)
  }

  predicate Claimable(db: Db, d: DeliveryId, f: ClaimFilter) {
    && d in db.deliveries
    && var row := db.deliveries[d];
    && (row.status.Pending? || row.status.Failed?)
    && row.nextAttemptAt <= db.now
    && row.eventId in db.events
    && row.subscriptionId in db.subscriptions
    && db.subscriptions[row.subscriptionId].active
    && Admits(f, db.events[row.eventId].topic, db.subscriptions[row.subscriptionId])
  }

  /** The batch size, kept between 1 and 500. */
  function ClaimLimit(batch: int): (n: nat)
    ensures 1 <= n <= 500
    ensures 1 <= batch <= 500 ==> n == batch
    ensures batch < 1 ==> n == 1
    ensures batch > 500 ==> n == 500
  {
    if batch < 1 then 1 else if batch > 500 then 500 else batch
  }

  /** SKIP LOCKED may return any claimable rows up to the limit. */
  ghost predicate MayPick(db: Db, picked: set<DeliveryId>, f: ClaimFilter, batch: int) {
    && (forall d <- picked :: Claimable(db, d, f))
    && |picked| <= ClaimLimit(batch)
  }

  function TakenRow(row: Delivery, consumer: string, now: Time): Delivery {
    row.(status := Running, claimedBy := Some(consumer), claimedAt := Some(now), attempts := row.attempts + 1)
  }

  function Take(db: Db, picked: set<DeliveryId>, consumer: string): Db {
    db.(deliveries := map d | d in db.deliveries ::
      if d in picked then TakenRow(db.deliveries[d], consumer, db.now) else db.deliveries[d])
  }

  // ---- the fenced writes ----

  /** The WHERE clause of a fenced write: this row is running under one of these tokens. */
  predicate Holds(row: Delivery, d: DeliveryId, tokens: set<Token>) {
    && row.status.Running?
    && row.claimedBy.Some?
    && Token(d, row.claimedBy.value, row.attempts) in tokens
  }

  function Held(db: Db, tokens: set<Token>): set<DeliveryId> {
    set d | d in db.deliveries && Holds(db.deliveries[d], d, tokens)
  }

  function DropReceipts(receipts: map<ReceiptKey, Receipt>, owners: set<DeliveryId>): map<ReceiptKey, Receipt> {
    map k | k in receipts && !(receipts[k].deliveryId.Some? && receipts[k].deliveryId.value in owners) :: receipts[k]
  }

  function ReleasedRow(row: Delivery, due: Time): Delivery {
    row.(status := Pending,
         attempts := if row.attempts > 0 then row.attempts - 1 else 0,
         claimedBy := None,
         claimedAt := None,
         nextAttemptAt := due)
  }

  function Release(db: Db, tokens: set<Token>, delayMs: nat): Db {
    var hit := Held(db, tokens);
    db.(deliveries := (map d | d in db.deliveries ::
          if d in hit then ReleasedRow(db.deliveries[d], db.now + delayMs) else db.deliveries[d]),
        receipts := DropReceipts(db.receipts, hit))
  }

  function DoneRow(row: Delivery, now: Time): Delivery {
    row.(status := Done, doneAt := Some(now))
  }

  /**
   * The receipt half of a keyed completion. An insert for a delivery or an
   * event that is gone violates a foreign key and aborts the transaction.
   */
  predicate ReceiptWritable(db: Db, t: Token, event: EventId, k: ReceiptKey) {
    k in db.receipts || (t.delivery in db.deliveries && event in db.events)
  }

  function WriteReceipt(db: Db, t: Token, event: EventId, k: ReceiptKey): map<ReceiptKey, Receipt> {
    if k !in db.receipts then db.receipts[k := Receipt(event, Some(t.delivery), Some(db.now))]
    else if db.receipts[k].deliveryId == Some(t.delivery) then
      db.receipts[k := db.receipts[k].(completedAt := Some(db.now))]
    else db.receipts
  }

  function CompleteRows(db: Db, t: Token): Db {
    var hit := Held(db, {t});
    db.(deliveries := map d | d in db.deliveries ::
      if d in hit then DoneRow(db.deliveries[d], db.now) else db.deliveries[d])
  }

  function Complete(db: Db, t: Token, event: EventId, k: Option<ReceiptKey>): Db {
    match k
    case None => CompleteRows(db, t)
    case Some(key) =>
      if ReceiptWritable(db, t, event, key)
      then CompleteRows(db, t).(receipts := WriteReceipt(db, t, event, key))
      else db
  }

  function FailedRow(row: Delivery, dead: bool, due: Time): Delivery {
    row.(status := if dead then Dead else Failed, nextAttemptAt := due)
  }

  function Fail(db: Db, t: Token, maxAttempts: nat, delayMs: nat): Db {
    var hit := Held(db, {t});
    var dead := t.attempts >= maxAttempts;
    db.(deliveries := (map d | d in db.deliveries ::
          if d in hit then FailedRow(db.deliveries[d], dead, db.now + delayMs) else db.deliveries[d]),
        receipts := DropReceipts(db.receipts, hit))
  }

  // ---- replay and the reaper ----

  predicate Replayable(row: Delivery) {
    row.status.Dead? || row.status.Failed? || row.status.Done?
  }

  function Replay(db: Db, d: DeliveryId): Db {
    if d in db.deliveries && Replayable(db.deliveries[d]) then
      db.(deliveries := db.deliveries[d := db.deliveries[d].(status := Pending, attempts := 0, nextAttemptAt := db.now)])
    else db
  }

  predicate IsStale(db: Db, d: DeliveryId, staleMs: nat) {
    && d in db.deliveries
    && db.deliveries[d].status.Running?
    && db.deliveries[d].claimedAt.Some?
    && db.deliveries[d].claimedAt.value + staleMs < db.now
    && db.deliveries[d].subscriptionId in db.subscriptions
  }

  function Stale(db: Db, staleMs: nat): set<DeliveryId> {
    set d | d in db.deliveries && IsStale(db, d, staleMs)
  }

  function RequeuedRow(db: Db, row: Delivery): Delivery
    requires row.subscriptionId in db.subscriptions
  {
    FailedRow(row, row.attempts >= db.subscriptions[row.subscriptionId].maxAttempts, db.now)
  }

  function Requeue(db: Db, staleMs: nat): Db {
    var hit := Stale(db, staleMs);
    db.(deliveries := (map d | d in db.deliveries ::
          if d in hit then RequeuedRow(db, db.deliveries[d]) else db.deliveries[d]),
        receipts := DropReceipts(db.receipts, hit))
  }

  // ---- idempotency reservation ----

  datatype Reservation = Reserved | SeenBefore(firstEventId: EventId) | InFlight(owner: DeliveryId) | Aborted

  function ReserveOutcome(db: Db, d: DeliveryId, event: EventId, k: ReceiptKey): Reservation {
    var writable := d in db.deliveries && event in db.events;
    if k !in db.receipts then (if writable then Reserved else Aborted)
    else
      var r := db.receipts[k];
      if r.completedAt.Some? then SeenBefore(r.eventId)
      else if r.deliveryId.Some? && r.deliveryId.value != d
              && r.deliveryId.value in db.deliveries && db.deliveries[r.deliveryId.value].status.Running? then
        InFlight(r.deliveryId.value)
      else if writable then Reserved   // an orphan, taken over
      else Aborted
  }

  function Reserve(db: Db, d: DeliveryId, event: EventId, k: ReceiptKey): Db {
    if ReserveOutcome(db, d, event, k).Reserved?
    then db.(receipts := db.receipts[k := Receipt(event, Some(d), None)])
    else db
  }

  // ---- retention ----

  predicate ExpiredDone(db: Db, d: DeliveryId, days: nat) {
    && d in db.deliveries
    && db.deliveries[d].status.Done?
    && db.deliveries[d].doneAt.Some?
    && db.deliveries[d].doneAt.value + days * DAY_MS < db.now
  }

  /** ON DELETE SET NULL: a receipt outlives its delivery. */
  function Orphaned(r: Receipt, victims: set<DeliveryId>): Receipt {
    if r.deliveryId.Some? && r.deliveryId.value in victims then r.(deliveryId := None) else r
  }

  function SweepDone(db: Db, victims: set<DeliveryId>): Db {
    db.(deliveries := db.deliveries - victims,
        receipts := map k | k in db.receipts :: Orphaned(db.receipts[k], victims))
  }

  predicate Unfinished(row: Delivery) {
    row.status.Pending? || row.status.Running? || row.status.Failed?
  }

  predicate HeldBack(db: Db, d: DeliveryId, e: EventId) {
    && d in db.deliveries
    && db.deliveries[d].eventId == e
    && Unfinished(db.deliveries[d])
    && db.deliveries[d].subscriptionId in db.subscriptions
    && db.subscriptions[db.deliveries[d].subscriptionId].active
  }

  predicate ExpiredEvent(db: Db, e: EventId, days: nat) {
    && e in db.events
    && db.events[e].createdAt + days * DAY_MS < db.now
    && !exists d :: d in db.deliveries && HeldBack(db, d, e)
  }

  /** ON DELETE CASCADE: an event takes its deliveries and receipts with it (a receipt never names another event's delivery). */
  function SweepEvents(db: Db, victims: set<EventId>): Db {
    db.(events := db.events - victims,
        deliveries := map d | d in db.deliveries && db.deliveries[d].eventId !in victims :: db.deliveries[d],
        receipts := map k |
          k in db.receipts && db.receipts[k].eventId !in victims :: db.receipts[k])
  }

  /** The stored form of an idempotency key. */
  function ScopedIdempotencyKey(org: Option<string>, key: string): string {
    (if org.Some? then org.value else "global") + ":" + key
  }
}
