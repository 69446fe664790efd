/**
 * The ledger shared by any number of consumers: the tables plus every
 * worker that still owes a status write, moved by one atomic step per
 * transaction. Workers follow the program order of `processDelivery`.
 */
module LedgerWorld {
  import opened Tables
  import opened LedgerOps
  import Backoff

  /**
   * Where a worker stands in processDelivery. `Holding` is past its reservation. `HandBack` is a claim that
   * committed after its caller timed out: its rows are only ever released.
   */
  datatype Phase = Claimed | Holding(key: string) | Seen | Blocked | HandBack

  /** One claim of one row. `turn` numbers claim transactions; the source has no such column. */
  datatype Claim = Claim(delivery: DeliveryId, turn: nat)

  /** A ClaimedDelivery in some process's memory. `maxAttempts` is as read by the claim. */
  datatype Worker = Worker(
    consumer: string,
    subscriptionId: SubscriptionId,
    eventId: EventId,
    attempts: nat,
    maxAttempts: nat,
    phase: Phase)

  /**
   * `owner` remembers the last claim of each row, `minted` every delivery id
   * ever used, `lost` the claims whose worker vanished without a status write.
   */
  datatype World = World(
    db: Db,
    workers: map<Claim, Worker>,
    owner: map<DeliveryId, nat>,
    turn: nat,
    minted: set<DeliveryId>,
    lost: set<Claim>)

  datatype Step =
    | Publish(id: EventId, org: Option<string>, topic: string, born: map<DeliveryId, SubscriptionId>)
    | Sync(registry: map<HandlerRef, nat>, made: map<SubscriptionId, HandlerRef>, graceMs: nat)
    | AddWebhook(sub: SubscriptionId, row: Subscription)
    | DropWebhook(sub: SubscriptionId)
    | Take(consumer: string, picked: set<DeliveryId>, filter: ClaimFilter, batch: int, late: bool)
    | Reserve(claim: Claim, key: string)
    | Misses(claim: Claim)
    | Complete(claim: Claim)
    | Fail(claim: Claim, random: real, minDelayMs: nat)
    | Release(turn: nat, ds: set<DeliveryId>, delayMs: nat)
    | Abandon(claim: Claim)
    | Crash(consumer: string)
    | Requeue(staleMs: nat)
    | Replay(d: DeliveryId)
    | SweepDone(done: set<DeliveryId>, days: nat)
    | SweepEvents(aged: set<EventId>, days: nat)
    | Pass(ms: nat)

  function TokenOf(c: Claim, k: Worker): Token { Token(c.delivery, k.consumer, k.attempts) }

  function ReceiptKeyOf(k: Worker): Option<ReceiptKey> {
    if k.phase.Holding? then Some(ReceiptKey(k.subscriptionId, k.phase.key)) else None
  }

  const Empty := World(Db(map[], map[], map[], map[], 0), map[], map[], 0, {}, {})

  /** A consumer claims no row it is still at work on; a pending hand-back does not stop it. ConsumerFleet derives this. */
  ghost predicate NotAtWorkOn(w: World, consumer: string, picked: set<DeliveryId>) {
    forall c <- w.workers :: w.workers[c].consumer == consumer && c.delivery in picked ==> w.workers[c].phase.HandBack?
  }

  ghost predicate Can(w: World, s: Step) {
    match s
    case Publish(id, org, topic, born) =>
      if id in w.db.events then born == map[]
      else OnePerListener(w.db, topic, org, born) && born.Keys !! w.minted
    case Sync(registry, made, _) =>
      MakesMissing(w.db, registry, made) && (forall h <- registry :: registry[h] >= 1)
    case AddWebhook(sub, row) =>
      sub !in w.db.subscriptions && row.kind.Webhook? && row.organizationId.Some? && row.maxAttempts >= 1
    case DropWebhook(sub) =>
      sub in w.db.subscriptions && w.db.subscriptions[sub].kind.Webhook? && w.db.subscriptions[sub].organizationId.Some?
    case Take(consumer, picked, filter, batch, _) =>
      MayPick(w.db, picked, filter, batch) && NotAtWorkOn(w, consumer, picked)
    case Reserve(c, _) => c in w.workers && w.workers[c].phase.Claimed?
    case Misses(c) => c in w.workers && w.workers[c].phase.Claimed?
    case Complete(c) => c in w.workers && !w.workers[c].phase.Blocked? && !w.workers[c].phase.HandBack?
    case Fail(c, _, _) => c in w.workers && !w.workers[c].phase.HandBack?
    case Release(turn, ds, _) =>
      forall d <- ds ::
        && Claim(d, turn) in w.workers
        && var phase := w.workers[Claim(d, turn)].phase;
        phase.Claimed? || phase.Blocked? || phase.HandBack?
    case Abandon(c) => c in w.workers
    case Crash(_) => true
    case Requeue(_) => true
    case Replay(_) => true
    case SweepDone(done, days) => forall d <- done :: ExpiredDone(w.db, d, days)
    case SweepEvents(aged, days) => forall e <- aged :: ExpiredEvent(w.db, e, days)
    case Pass(_) => true
  }

  function NewWorker(db: Db, d: DeliveryId, consumer: string, late: bool): Worker
    requires d in db.deliveries && db.deliveries[d].subscriptionId in db.subscriptions
  {
    var row := db.deliveries[d];
    Worker(consumer, row.subscriptionId, row.eventId, row.attempts + 1,
           db.subscriptions[row.subscriptionId].maxAttempts, if late then HandBack else Claimed)
  }

  function AfterPublish(w: World, id: EventId, org: Option<string>, topic: string, born: map<DeliveryId, SubscriptionId>): World {
    w.(db := LedgerOps.Publish(w.db, id, org, topic, born), minted := w.minted + born.Keys)
  }

  function AfterTake(w: World, consumer: string, picked: set<DeliveryId>, late: bool): World
    requires forall d <- picked :: d in w.db.deliveries && w.db.deliveries[d].subscriptionId in w.db.subscriptions
  {
    World(LedgerOps.Take(w.db, picked, consumer),
          w.workers + (map d | d in picked :: Claim(d, w.turn) := NewWorker(w.db, d, consumer, late)),
          w.owner + (map d | d in picked :: w.turn),
          w.turn + 1, w.minted, w.lost)
  }

  function PhaseAfter(outcome: Reservation, key: string): Phase {
    match outcome
    case Reserved => Holding(key)
    case SeenBefore(_) => Seen
    case InFlight(_) => Blocked
    case Aborted => Claimed
  }

  function AfterReserve(w: World, c: Claim, key: string): World
    requires c in w.workers
  {
    var k := w.workers[c];
    var rk := ReceiptKey(k.subscriptionId, key);
    w.(db := LedgerOps.Reserve(w.db, c.delivery, k.eventId, rk),
       workers := w.workers[c := k.(phase := PhaseAfter(ReserveOutcome(w.db, c.delivery, k.eventId, rk), key))])
  }

  /** A reservation that found its key taken, and then gone, counts as in flight; it wrote nothing. */
  function AfterMiss(w: World, c: Claim): World
    requires c in w.workers
  {
    w.(workers := w.workers[c := w.workers[c].(phase := Blocked)])
  }

  function AfterComplete(w: World, c: Claim): World
    requires c in w.workers
  {
    var k := w.workers[c];
    w.(db := LedgerOps.Complete(w.db, TokenOf(c, k), k.eventId, ReceiptKeyOf(k)), workers := w.workers - {c})
  }

  function AfterFail(w: World, c: Claim, random: real, minDelayMs: nat): World
    requires c in w.workers
  {
    var k := w.workers[c];
    w.(db := LedgerOps.Fail(w.db, TokenOf(c, k), k.maxAttempts,
                            Backoff.FailDelayMs(k.attempts, k.maxAttempts, random, minDelayMs)),
       workers := w.workers - {c})
  }

  function TokensOf(w: World, turn: nat, ds: set<DeliveryId>): set<Token>
    requires forall d <- ds :: Claim(d, turn) in w.workers
  {
    set d | d in ds :: TokenOf(Claim(d, turn), w.workers[Claim(d, turn)])
  }

  function AfterRelease(w: World, turn: nat, ds: set<DeliveryId>, delayMs: nat): World
    requires forall d <- ds :: Claim(d, turn) in w.workers
  {
    w.(db := LedgerOps.Release(w.db, TokensOf(w, turn, ds), delayMs),
       workers := w.workers - (set d | d in ds :: Claim(d, turn)))
  }

  /** Workers that vanish write nothing: a process died, or its status write failed. */
  function AfterLoss(w: World, gone: set<Claim>): World {
    w.(workers := w.workers - gone, lost := w.lost + gone)
  }

  function Workforce(w: World, consumer: string): set<Claim> {
    set c | c in w.workers && w.workers[c].consumer == consumer
  }

  function Dropped(row: Subscription, now: Time): Subscription {
    row.(active := false, updatedAt := now)
  }

  function Do(w: World, s: Step): World
    requires Can(w, s)
  {
    match s
    case Publish(id, org, topic, born) => AfterPublish(w, id, org, topic, born)
    case Sync(registry, made, graceMs) => w.(db := LedgerOps.Sync(w.db, registry, made, graceMs))
    case AddWebhook(sub, row) => w.(db := w.db.(subscriptions := w.db.subscriptions[sub := row]))
    case DropWebhook(sub) =>
      w.(db := w.db.(subscriptions := w.db.subscriptions[sub := Dropped(w.db.subscriptions[sub], w.db.now)]))
    case Take(consumer, picked, _, _, late) => AfterTake(w, consumer, picked, late)
    case Reserve(c, key) => AfterReserve(w, c, key)
    case Misses(c) => AfterMiss(w, c)
    case Complete(c) => AfterComplete(w, c)
    case Fail(c, random, minDelayMs) => AfterFail(w, c, random, minDelayMs)
    case Release(turn, ds, delayMs) => AfterRelease(w, turn, ds, delayMs)
    case Abandon(c) => AfterLoss(w, {c})
    case Crash(consumer) => AfterLoss(w, Workforce(w, consumer))
    case Requeue(staleMs) => w.(db := LedgerOps.Requeue(w.db, staleMs))
    case Replay(d) => w.(db := LedgerOps.Replay(w.db, d))
    case SweepDone(done, _) => w.(db := LedgerOps.SweepDone(w.db, done))
    case SweepEvents(aged, _) => w.(db := LedgerOps.SweepEvents(w.db, aged))
    case Pass(ms) => w.(db := w.db.(now := w.db.now + ms))
  }

  // ---- runs ----

  ghost predicate Legal(w: World, steps: seq<Step>)
    decreases |steps|, 0
  {
    steps == [] || (
      var n := |steps| - 1;
      Legal(w, steps[..n]) && Can(Run(w, steps[..n]), steps[n]))
  }

  ghost function Run(w: World, steps: seq<Step>): World
    requires Legal(w, steps)
    decreases |steps|, 1
  {
    if steps == [] then w
    else var n := |steps| - 1; Do(Run(w, steps[..n]), steps[n])
  }

  /**
   * The proviso under which the token of a hand-back is exact: no row is replayed
   * while a process still means to hand back an earlier claim of it. No table shows
   * that; it holds once such processes have ended or their write timeouts have
   * passed. LedgerHandBack shows why it matters.
   */
  ghost predicate Orderly(w: World, s: Step) {
    s.Replay? ==> forall c <- w.workers :: c.delivery == s.d ==> !w.workers[c].phase.HandBack?
  }

  ghost predicate OrderlyRun(w: World, steps: seq<Step>) {
    steps == [] || (
      var n := |steps| - 1;
      && OrderlyRun(w, steps[..n])
      && Legal(w, steps)
      && Orderly(Run(w, steps[..n]), steps[n]))
  }

  // ---- what a claim means ----

  /** The claim is the row's current one: its worker owns the delivery. */
  ghost predicate Live(w: World, c: Claim) {
    && c.delivery in w.db.deliveries
    && w.db.deliveries[c.delivery].status.Running?
    && c.delivery in w.owner
    && w.owner[c.delivery] == c.turn
  }

  /** The WHERE clause of the worker's next status write matches. */
  ghost predicate FenceOpens(w: World, c: Claim)
    requires c in w.workers
  {
    && c.delivery in w.db.deliveries
    && Holds(w.db.deliveries[c.delivery], c.delivery, {TokenOf(c, w.workers[c])})
  }
}
