/**
 * The event tables as the object src/lib/events.ts updates: one method per
 * exported function, each proved to be the transaction LedgerOps describes.
 */
module EventLedger {
  import opened Tables
  import opened LedgerOps
  import opened LedgerFacts
  import Backoff

  /** A registry entry: the handler and its total attempts. */
  datatype Entry = Entry(handler: HandlerRef, maxAttempts: nat)

  /** A ClaimedDelivery as returned by a claim. */
  datatype Claimed = Claimed(token: Token, subscriptionId: SubscriptionId, eventId: EventId, maxAttempts: nat)

  /** How one handler run ended. */
  datatype HandlerRun = Returned | Threw | TimedOut

  /** What the process knows about the delivery's handler. */
  datatype Runner = WebhookRunner | Unregistered | Keyless | Keyed(key: string)

  datatype Outcome = Done | Skipped | Released | Retrying(delayMs: nat) | DeadLettered

  datatype CompleteResult = Landed | Superseded | ForeignKeyViolation

  function Registry(entries: seq<Entry>): map<HandlerRef, nat> {
    if entries == [] then map[]
    else var e := entries[|entries| - 1]; Registry(entries[..|entries| - 1])[e.handler := e.maxAttempts]
  }

  lemma {:induction false} RegistryKeys(entries: seq<Entry>, h: HandlerRef)
    ensures h in Registry(entries) <==> exists i :: 0 <= i < |entries| && entries[i].handler == h
  {
    if entries != [] {
      var n := |entries| - 1;
      RegistryKeys(entries[..n], h);
      if h in Registry(entries[..n]) {
        var i :| 0 <= i < n && entries[..n][i].handler == h;
        assert entries[i].handler == h;
      }
    }
  }

  lemma {:induction false} RegistryIsEntries(entries: seq<Entry>)
    requires Distinct(entries)
    ensures forall e <- entries :: e.handler in Registry(entries) && Registry(entries)[e.handler] == e.maxAttempts
    ensures forall h <- Registry(entries) :: Entry(h, Registry(entries)[h]) in entries
  {
    if entries != [] {
      var n := |entries| - 1;
      RegistryIsEntries(entries[..n]);
      assert entries == entries[..n] + [entries[n]];
    }
  }

  /** The registry is a Map: one entry per (topic, handler). */
  ghost predicate Distinct(entries: seq<Entry>) {
    forall i, j | 0 <= i < j < |entries| :: entries[i].handler != entries[j].handler
  }

  /** Every row is synced from what it was, every declared handler has its row, and only declared handlers get new ones. */
  ghost predicate SyncsTo(was: map<SubscriptionId, Subscription>, subs: map<SubscriptionId, Subscription>,
                          entries: seq<Entry>, now: Time, graceMs: nat) {
    && (forall s <- was :: s in subs && SyncedFrom(was[s], subs[s], Registry(entries), now, graceMs))
    && (forall e <- entries :: Declared(subs, e.handler, e.maxAttempts, now))
    && (forall s <- subs :: s !in was ==> NewFrom(subs[s], entries, now))
  }

  predicate NewFrom(row: Subscription, entries: seq<Entry>, now: Time) {
    && Entry(HandlerRef(row.topic, row.handler), row.maxAttempts) in entries
    && row.organizationId == None && row.kind == Handler && row.active && row.updatedAt == now
  }

  lemma SyncMeans(db: Db, entries: seq<Entry>, made: map<SubscriptionId, HandlerRef>, graceMs: nat)
    requires Distinct(entries) && MakesMissing(db, Registry(entries), made)
    ensures SyncsTo(db.subscriptions, Sync(db, Registry(entries), made, graceMs).subscriptions, entries, db.now, graceMs)
  {
    var registry := Registry(entries);
    var subs := Sync(db, registry, made, graceMs).subscriptions;
    RegistryIsEntries(entries);
    forall s <- db.subscriptions ensures s in subs && SyncedFrom(db.subscriptions[s], subs[s], registry, db.now, graceMs) {
      RowIsSynced(db, registry, made, graceMs, s);
    }
    forall e <- entries ensures Declared(subs, e.handler, e.maxAttempts, db.now) {
      HandlerIsDeclared(db, registry, made, graceMs, e.handler);
    }
    forall s <- subs | s !in db.subscriptions ensures NewFrom(subs[s], entries, db.now) {
      NewRowIsDeclared(db, registry, made, graceMs, s);
      assert Entry(made[s], registry[made[s]]) in entries;
    }
  }

  lemma FreshEntry(entries: seq<Entry>, i: nat)
    requires Distinct(entries) && i < |entries|
    ensures entries[i].handler !in Registry(entries[..i])
    ensures Registry(entries[..i + 1]) == Registry(entries[..i])[entries[i].handler := entries[i].maxAttempts]
  {
    RegistryKeys(entries[..i], entries[i].handler);
    assert entries[..i + 1][..i] == entries[..i];
  }

  function RevivedRow(s: Subscription, maxAttempts: nat, now: Time): Subscription {
    s.(maxAttempts := maxAttempts, active := true, updatedAt := now)
  }

  /** The subscription table once the handlers of `registry` are upserted, before any deactivation. */
  ghost predicate Upserted(db: Db, subs: map<SubscriptionId, Subscription>,
                           registry: map<HandlerRef, nat>, made: map<SubscriptionId, HandlerRef>) {
    && MakesMissing(db, registry, made)
    && subs.Keys == db.subscriptions.Keys + made.Keys
    && (forall s <- db.subscriptions ::
          var row := db.subscriptions[s];
          subs[s] == if row.organizationId.None? && HandlerRef(row.topic, row.handler) in registry
                     then RevivedRow(row, registry[HandlerRef(row.topic, row.handler)], db.now) else row)
    && (forall s <- made :: made[s] in registry && subs[s] == DeclaredRow(made[s], registry[made[s]], db.now))
  }

  lemma MadeValuesGrow(made: map<SubscriptionId, HandlerRef>, id: SubscriptionId, h: HandlerRef)
    requires id !in made
    ensures made[id := h].Values == made.Values + {h}
  {
    assert forall s <- made :: s in made[id := h] && made[id := h][s] == made[s];
    assert made[id := h][id] == h;
  }

  /** An upserted table holds a row for `h` exactly when the old one did or one was made. */
  lemma GlobalsOfUpserted(db: Db, subs: map<SubscriptionId, Subscription>, registry: map<HandlerRef, nat>,
                          made: map<SubscriptionId, HandlerRef>, h: HandlerRef)
    requires Upserted(db, subs, registry, made) && h !in registry
    ensures h !in made.Values
    ensures HasGlobal(subs, h) <==> HasGlobal(db.subscriptions, h)
    ensures forall s <- subs :: IsGlobal(subs[s], h) ==> s in db.subscriptions && IsGlobal(db.subscriptions[s], h)
  {
    forall s <- subs
      ensures IsGlobal(subs[s], h) ==> s in db.subscriptions && IsGlobal(db.subscriptions[s], h)
    {
      assert s in made ==> made[s] in registry;
    }
    if HasGlobal(db.subscriptions, h) {
      var s :| s in db.subscriptions && IsGlobal(db.subscriptions[s], h);
      assert s in subs && IsGlobal(subs[s], h);
    }
  }

  lemma InsertMakesMissing(db: Db, registry: map<HandlerRef, nat>, made: map<SubscriptionId, HandlerRef>, e: Entry, id: SubscriptionId)
    requires MakesMissing(db, registry, made) && e.handler !in registry && e.handler !in made.Values
    requires id !in db.subscriptions && id !in made && !HasGlobal(db.subscriptions, e.handler)
    ensures MakesMissing(db, registry[e.handler := e.maxAttempts], made[id := e.handler])
  {
    MadeValuesGrow(made, id, e.handler);
    assert forall s <- made :: made[s] in made.Values;
  }

  lemma InsertedIsUpserted(db: Db, subs: map<SubscriptionId, Subscription>, registry: map<HandlerRef, nat>,
                           made: map<SubscriptionId, HandlerRef>, e: Entry, id: SubscriptionId)
    requires Upserted(db, subs, registry, made) && e.handler !in registry
    requires id !in subs && !HasGlobal(subs, e.handler)
    ensures Upserted(db, subs[id := DeclaredRow(e.handler, e.maxAttempts, db.now)],
                     registry[e.handler := e.maxAttempts], made[id := e.handler])
  {
    GlobalsOfUpserted(db, subs, registry, made, e.handler);
    InsertMakesMissing(db, registry, made, e, id);
    forall s <- db.subscriptions
      ensures !IsGlobal(db.subscriptions[s], e.handler)
    {
      assert !HasGlobal(db.subscriptions, e.handler);
    }
  }

  /** Which rows reviving the row `s` of a declared handler changes: that one. */
  lemma RevivedRowOnly(db: Db, subs: map<SubscriptionId, Subscription>, registry: map<HandlerRef, nat>,
                       made: map<SubscriptionId, HandlerRef>, e: Entry, s: SubscriptionId, x: SubscriptionId)
    requires Upserted(db, subs, registry, made) && e.handler !in registry && GlobalsUnique(db.subscriptions)
    requires s in db.subscriptions && IsGlobal(db.subscriptions[s], e.handler) && x in db.subscriptions && x != s
    ensures !(db.subscriptions[x].organizationId.None?
              && HandlerRef(db.subscriptions[x].topic, db.subscriptions[x].handler) == e.handler)
  {
  }

  lemma NothingNewToMake(db: Db, subs: map<SubscriptionId, Subscription>, registry: map<HandlerRef, nat>,
                         made: map<SubscriptionId, HandlerRef>, e: Entry, s: SubscriptionId)
    requires Upserted(db, subs, registry, made) && e.handler !in registry
    requires s in subs && IsGlobal(subs[s], e.handler)
    ensures s in db.subscriptions && IsGlobal(db.subscriptions[s], e.handler)
    ensures MakesMissing(db, registry[e.handler := e.maxAttempts], made)
  {
    GlobalsOfUpserted(db, subs, registry, made, e.handler);
    assert HasGlobal(db.subscriptions, e.handler);
  }

  lemma RevivedIsUpserted(db: Db, subs: map<SubscriptionId, Subscription>, registry: map<HandlerRef, nat>,
                          made: map<SubscriptionId, HandlerRef>, e: Entry, s: SubscriptionId)
    requires Upserted(db, subs, registry, made) && e.handler !in registry && GlobalsUnique(db.subscriptions)
    requires s in subs && IsGlobal(subs[s], e.handler)
    ensures Upserted(db, subs[s := RevivedRow(subs[s], e.maxAttempts, db.now)], registry[e.handler := e.maxAttempts], made)
  {
    NothingNewToMake(db, subs, registry, made, e, s);
    forall x <- db.subscriptions | x != s
      ensures !(db.subscriptions[x].organizationId.None?
                && HandlerRef(db.subscriptions[x].topic, db.subscriptions[x].handler) == e.handler)
    {
      RevivedRowOnly(db, subs, registry, made, e, s, x);
    }
  }

  lemma DeactivatedRow(db: Db, subs: map<SubscriptionId, Subscription>, registry: map<HandlerRef, nat>,
                       made: map<SubscriptionId, HandlerRef>, graceMs: nat, s: SubscriptionId)
    requires Upserted(db, subs, registry, made) && s in subs
    ensures s in Sync(db, registry, made, graceMs).subscriptions
    ensures Sync(db, registry, made, graceMs).subscriptions[s] == Checked(subs[s], registry, db.now, graceMs)
  {
  }

  lemma SyncedKeys(db: Db, registry: map<HandlerRef, nat>, made: map<SubscriptionId, HandlerRef>, graceMs: nat)
    requires MakesMissing(db, registry, made)
    ensures Sync(db, registry, made, graceMs).subscriptions.Keys == db.subscriptions.Keys + made.Keys
  {
  }

  /** The closing UPDATE turns the upserted table into the synced one. */
  lemma DeactivatedIsSynced(db: Db, subs: map<SubscriptionId, Subscription>, registry: map<HandlerRef, nat>,
                            made: map<SubscriptionId, HandlerRef>, graceMs: nat)
    requires Upserted(db, subs, registry, made)
    ensures CheckedAll(subs, registry, db.now, graceMs) == Sync(db, registry, made, graceMs).subscriptions
  {
    var expected := Sync(db, registry, made, graceMs).subscriptions;
    SyncedKeys(db, registry, made, graceMs);
    forall s <- subs
      ensures s in expected && expected[s] == Checked(subs[s], registry, db.now, graceMs)
    {
      DeactivatedRow(db, subs, registry, made, graceMs, s);
    }
  }

  function Checked(s: Subscription, registry: map<HandlerRef, nat>, now: Time, graceMs: nat): Subscription {
    if IsUndeclared(s, registry, now, graceMs) then s.(active := false, updatedAt := now) else s
  }

  function CheckedAll(subs: map<SubscriptionId, Subscription>, registry: map<HandlerRef, nat>, now: Time, graceMs: nat)
    : map<SubscriptionId, Subscription>
  {
    map s | s in subs :: Checked(subs[s], registry, now, graceMs)
  }

  /** The rows a sync deactivates. */
  function Undeclared(subs: map<SubscriptionId, Subscription>, registry: map<HandlerRef, nat>, now: Time, graceMs: nat)
    : set<SubscriptionId>
  {
    set s | s in subs && IsUndeclared(subs[s], registry, now, graceMs)
  }

  predicate IsUndeclared(s: Subscription, registry: map<HandlerRef, nat>, now: Time, graceMs: nat) {
    && s.organizationId.None? && s.kind.Handler? && s.active && s.updatedAt + graceMs < now
    && HandlerRef(s.topic, s.handler) !in registry
  }

  /** Upserting neither adds nor hides a row that is due for deactivation. */
  lemma UndeclaredWereThere(db: Db, subs: map<SubscriptionId, Subscription>, registry: map<HandlerRef, nat>,
                            made: map<SubscriptionId, HandlerRef>, graceMs: nat)
    requires Upserted(db, subs, registry, made)
    ensures Undeclared(subs, registry, db.now, graceMs) == Undeclared(db.subscriptions, registry, db.now, graceMs)
  {
    forall s | s in subs
      ensures IsUndeclared(subs[s], registry, db.now, graceMs)
         <==> s in db.subscriptions && IsUndeclared(db.subscriptions[s], registry, db.now, graceMs)
    {
      assert s in made ==> made[s] in registry;
    }
  }

  function Min(a: nat, b: nat): (m: nat)
    ensures m <= a && m <= b && (m == a || m == b)
  {
    if a < b then a else b
  }

  function Clamp(x: int, lo: nat, hi: nat): (n: nat)
    requires lo <= hi
    ensures lo <= n <= hi && (lo <= x <= hi ==> n == x) && (x < lo ==> n == lo) && (x > hi ==> n == hi)
  {
    if x < lo then lo else if x > hi then hi else x
  }

  /** LIMIT n: some n elements of a set, or all of them. */
  method Limit(s: set<nat>, n: nat) returns (r: set<nat>)
    ensures r <= s && |r| == Min(n, |s|)
  {
    r := {};
    var rest := s;
    while |r| < n && rest != {}
      invariant r + rest == s && r !! rest
      invariant |r| + |rest| == |s| && |r| <= n
    {
      var x :| x in rest;
      r, rest := r + {x}, rest - {x};
    }
  }

  /** The rows of a query, each once, in some order. */
  method Listed(s: set<nat>) returns (order: seq<nat>)
    ensures |order| == |s| && (forall x :: x in order <==> x in s)
    ensures forall i, j | 0 <= i < j < |order| :: order[i] != order[j]
  {
    order := [];
    var rest := s;
    while rest != {}
      invariant rest <= s && |order| + |rest| == |s|
      invariant forall x :: x in order <==> x in s - rest
      invariant forall i, j | 0 <= i < j < |order| :: order[i] != order[j]
    {
      var x :| x in rest;
      order, rest := order + [x], rest - {x};
    }
  }

  predicate Within(d: nat, firstId: nat, count: nat) { firstId <= d < firstId + count }

  function Numbered(order: seq<SubscriptionId>, firstId: nat): map<DeliveryId, SubscriptionId> {
    map d | firstId <= d < firstId + |order| && Within(d, firstId, |order|) :: order[d - firstId]
  }

  lemma NumberedIsOneEach(order: seq<SubscriptionId>, firstId: nat, audience: set<SubscriptionId>)
    requires forall x :: x in order <==> x in audience
    requires forall i, j | 0 <= i < j < |order| :: order[i] != order[j]
    ensures var born := Numbered(order, firstId);
      && born.Values == audience
      && (forall d, d' | d in born && d' in born && born[d] == born[d'] :: d == d')
      && (forall d <- born :: d >= firstId)
  {
    var born := Numbered(order, firstId);
    forall x | x in audience
      ensures x in born.Values
    {
      var i :| 0 <= i < |order| && order[i] == x;
      assert firstId + i in born && born[firstId + i] == x;
    }
  }

  /**
   * What a publish is to its caller: one pending row, due now, for each active
   * subscription of the topic that is global or of the event's organization;
   * every other row as it was.
   */
  ghost predicate Fanned(was: Db, db: Db, id: EventId, org: Option<string>, topic: string, born: map<DeliveryId, SubscriptionId>) {
    && db.events == was.events[id := Event(org, topic, was.now)]
    && db.deliveries.Keys == was.deliveries.Keys + born.Keys && was.deliveries.Keys !! born.Keys
    && (forall d <- was.deliveries :: db.deliveries[d] == was.deliveries[d])
    && (forall d <- born :: db.deliveries[d] == Delivery(id, born[d], Pending, 0, was.now, None, None, None))
    && (forall d, d' | d in born && d' in born && born[d] == born[d'] :: d == d')
    && (forall s :: s in born.Values <==>
          && s in was.subscriptions && was.subscriptions[s].active && was.subscriptions[s].topic == topic
          && (was.subscriptions[s].organizationId == None || was.subscriptions[s].organizationId == org))
  }

  lemma PublishMeans(db: Db, id: EventId, org: Option<string>, topic: string, born: map<DeliveryId, SubscriptionId>)
    requires id !in db.events && OnePerListener(db, topic, org, born) && db.deliveries.Keys !! born.Keys
    ensures Fanned(db, Publish(db, id, org, topic, born), id, org, topic, born)
    ensures |Audience(db, topic, org)| == |born.Values|
  {
    assert forall s :: s in born.Values <==> s in Audience(db, topic, org);
  }

  lemma HeldIsOwnRow(db: Db, t: Token)
    ensures Held(db, {t}) == if t.delivery in db.deliveries && Holds(db.deliveries[t.delivery], t.delivery, {t})
                             then {t.delivery} else {}
  {
  }

  lemma CompleteEffect(db: Db, t: Token, event: EventId, key: Option<ReceiptKey>)
    requires key.Some? ==> ReceiptWritable(db, t, event, key.value)
    ensures var hit := Held(db, {t}); var db' := Complete(db, t, event, key);
      && db'.deliveries == (if hit == {} then db.deliveries
                            else db.deliveries[t.delivery := DoneRow(db.deliveries[t.delivery], db.now)])
      && (hit != {} ==> t.delivery in db.deliveries)
  {
    HeldIsOwnRow(db, t);
  }

  lemma FailEffect(db: Db, t: Token, maxAttempts: nat, delayMs: nat)
    ensures var hit := Held(db, {t}); var db' := Fail(db, t, maxAttempts, delayMs);
      && db'.deliveries == (if hit == {} then db.deliveries
                            else db.deliveries[t.delivery :=
                              FailedRow(db.deliveries[t.delivery], t.attempts >= maxAttempts, db.now + delayMs)])
      && (hit != {} ==> t.delivery in db.deliveries && forall k <- db'.receipts :: db'.receipts[k].deliveryId != Some(t.delivery))
  {
    HeldIsOwnRow(db, t);
  }

  lemma ReleaseEffect(db: Db, t: Token, delayMs: nat)
    ensures var hit := Held(db, {t}); var db' := Release(db, {t}, delayMs);
      && db'.deliveries == (if hit == {} then db.deliveries
                            else db.deliveries[t.delivery := ReleasedRow(db.deliveries[t.delivery], db.now + delayMs)])
      && (hit != {} ==> t.delivery in db.deliveries && forall k <- db'.receipts :: db'.receipts[k].deliveryId != Some(t.delivery))
  {
    HeldIsOwnRow(db, t);
  }

  function ExpiredDones(db: Db, days: nat): set<DeliveryId> {
    set d | d in db.deliveries && ExpiredDone(db, d, days)
  }

  /** The finished deliveries that were done more than `days` days ago, all of them. */
  ghost predicate FinishedBefore(db: Db, ds: set<DeliveryId>, days: nat) {
    forall d :: d in ds <==>
      && d in db.deliveries && db.deliveries[d].status == Status.Done
      && db.deliveries[d].doneAt.Some? && db.deliveries[d].doneAt.value + days * 86_400_000 < db.now
  }

  lemma ExpiredDonesMean(db: Db, days: nat)
    ensures FinishedBefore(db, ExpiredDones(db, days), days)
  {
  }

  /** The delivery has work left, for a subscription that is active. */
  predicate OwesWork(db: Db, d: DeliveryId) {
    && d in db.deliveries && db.deliveries[d].subscriptionId in db.subscriptions
    && db.subscriptions[db.deliveries[d].subscriptionId].active
    && db.deliveries[d].status != Status.Done && db.deliveries[d].status != Dead
  }

  /** The events published more than `days` days ago of which no delivery owes work, all of them. */
  ghost predicate PublishedBefore(db: Db, es: set<EventId>, days: nat) {
    forall e :: e in es <==>
      && e in db.events && db.events[e].createdAt + days * 86_400_000 < db.now
      && forall d <- db.deliveries :: db.deliveries[d].eventId == e ==> !OwesWork(db, d)
  }

  lemma ExpiredEventsMean(db: Db, days: nat)
    ensures PublishedBefore(db, ExpiredEvents(db, days), days)
  {
    forall e <- db.events
      ensures (exists d :: d in db.deliveries && HeldBack(db, d, e))
         <==> (exists d :: d in db.deliveries && db.deliveries[d].eventId == e && OwesWork(db, d))
    {
      forall d <- db.deliveries ensures HeldBack(db, d, e) <==> db.deliveries[d].eventId == e && OwesWork(db, d) {}
    }
  }

  lemma NothingSwept(db: Db)
    ensures SweepDone(db, {}) == db
  {
    assert forall k <- db.receipts :: Orphaned(db.receipts[k], {}) == db.receipts[k];
  }

  /** What one batch deletes does not change what the next may. */
  lemma StillExpiredDone(db: Db, gone: set<DeliveryId>, days: nat)
    ensures ExpiredDones(SweepDone(db, gone), days) == ExpiredDones(db, days) - gone
  {
  }

  lemma SweptTwice(db: Db, a: set<DeliveryId>, b: set<DeliveryId>)
    ensures SweepDone(SweepDone(db, a), b) == SweepDone(db, a + b)
  {
    var twice, once := SweepDone(SweepDone(db, a), b), SweepDone(db, a + b);
    assert twice.receipts.Keys == once.receipts.Keys;
    assert forall k <- db.receipts :: twice.receipts[k] == once.receipts[k];
  }

  function ExpiredEvents(db: Db, days: nat): set<EventId> {
    set e | e in db.events && ExpiredEvent(db, e, days)
  }

  lemma NoEventSwept(db: Db)
    ensures SweepEvents(db, {}) == db
  {
  }

  lemma StillHeldBack(db: Db, gone: set<EventId>, d: DeliveryId, e: EventId)
    requires e !in gone
    ensures HeldBack(SweepEvents(db, gone), d, e) <==> HeldBack(db, d, e)
  {
  }

  lemma StillExpiredEvents(db: Db, gone: set<EventId>, days: nat)
    ensures ExpiredEvents(SweepEvents(db, gone), days) == ExpiredEvents(db, days) - gone
  {
    forall e <- db.events | e !in gone
      ensures ExpiredEvent(SweepEvents(db, gone), e, days) <==> ExpiredEvent(db, e, days)
    {
      forall d
        ensures HeldBack(SweepEvents(db, gone), d, e) <==> HeldBack(db, d, e)
      {
        StillHeldBack(db, gone, d, e);
      }
    }
  }

  lemma EventsSweptTwice(db: Db, a: set<EventId>, b: set<EventId>)
    ensures SweepEvents(SweepEvents(db, a), b) == SweepEvents(db, a + b)
  {
  }

  /** Deleting finished deliveries frees no event and holds none back. */
  lemma DoneSweepSparesEvents(db: Db, gone: set<DeliveryId>, days: nat)
    requires forall d <- gone :: d in db.deliveries && db.deliveries[d].status.Done?
    ensures ExpiredEvents(SweepDone(db, gone), days) == ExpiredEvents(db, days)
  {
    forall e <- db.events
      ensures ExpiredEvent(SweepDone(db, gone), e, days) <==> ExpiredEvent(db, e, days)
    {
      assert forall d :: HeldBack(SweepDone(db, gone), d, e) <==> HeldBack(db, d, e);
    }
  }

  lemma NextBatch(i: nat, batch: nat)
    ensures (i + 1) * batch == i * batch + batch
  {
  }

  lemma SameSize(a: set<nat>, b: set<nat>)
    requires a <= b && |a| == |b|
    ensures a == b
  {
    assert |b - a| == |b| - |a|;
  }

  lemma BatchTotal(eligible: nat, gone: nat, i: nat, batch: nat, maxBatches: nat, drained: bool)
    requires gone <= eligible && i <= maxBatches && gone <= i * batch
    requires if drained then gone == eligible else gone == i * batch && i == maxBatches
    ensures gone == Min(eligible, batch * maxBatches)
  {
    assert i * batch <= maxBatches * batch;
  }

  /** A failure is dead exactly when out of attempts; else the next one waits for the backoff, and no less than asked. */
  predicate FailedAs(c: Claimed, outcome: Outcome, random: real, minDelayMs: nat) {
    if c.token.attempts >= c.maxAttempts then outcome == DeadLettered
    else
      var backoffMs := Backoff.ComputeBackoffMs(c.token.attempts, random);
      outcome.Retrying? && outcome.delayMs == if backoffMs < minDelayMs then minDelayMs else backoffMs
  }

  /** Why a keyed delivery was not run: handled before, in flight, or refused by a foreign key, which is a failure. */
  predicate UnrunAs(c: Claimed, outcome: Outcome, random: real, reservation: Reservation) {
    match reservation
    case Reserved => true
    case SeenBefore(_) => outcome == Skipped
    case InFlight(_) => outcome == Released
    case Aborted => FailedAs(c, outcome, random, 0)
  }

  predicate Free(db: Db, d: DeliveryId, f: ClaimFilter, locked: set<DeliveryId>) { d !in locked && Claimable(db, d, f) }

  /** Of the first `n` rows scanned, the first free ones are picked; all of them while the limit is not reached. */
  predicate PickedUpTo(db: Db, f: ClaimFilter, locked: set<DeliveryId>, scan: seq<DeliveryId>, n: nat, limit: nat, picked: set<DeliveryId>)
    requires n <= |scan|
  {
    && |picked| <= limit
    && (forall d <- picked :: d in scan[..n] && Free(db, d, f, locked))
    && (forall i, j | 0 <= i < j < n && scan[j] in picked :: Free(db, scan[i], f, locked) ==> scan[i] in picked)
    && (|picked| < limit ==> forall i | 0 <= i < n :: Free(db, scan[i], f, locked) ==> scan[i] in picked)
  }

  lemma PicksOneMore(db: Db, f: ClaimFilter, locked: set<DeliveryId>, scan: seq<DeliveryId>, n: nat, limit: nat, picked: set<DeliveryId>)
    requires n < |scan| && PickedUpTo(db, f, locked, scan, n, limit, picked)
    requires forall i, j | 0 <= i < j < |scan| :: scan[i] != scan[j]
    ensures PickedUpTo(db, f, locked, scan, n + 1, limit,
                       if |picked| < limit && Free(db, scan[n], f, locked) then picked + {scan[n]} else picked)
  {
    assert scan[..n + 1] == scan[..n] + [scan[n]];
    assert scan[n] !in scan[..n];
  }

  class EventLedger {
    var events: map<EventId, Event>
    var subscriptions: map<SubscriptionId, Subscription>
    var deliveries: map<DeliveryId, Delivery>
    var receipts: map<ReceiptKey, Receipt>
    var clock: Time

    function Now(): Db
      reads this
    {
      Db(events, subscriptions, deliveries, receipts, clock)
    }

    constructor ()
      ensures Now() == Db(map[], map[], map[], map[], 0)
    {
      events, subscriptions, deliveries, receipts, clock := map[], map[], map[], map[], 0;
    }

    /** INSERT INTO event_deliveries: one row for each subscription read. */
    method InsertDeliveries(id: EventId, order: seq<SubscriptionId>, firstId: DeliveryId)
      requires forall d <- deliveries :: d < firstId
      modifies this`deliveries
      ensures var born := Numbered(order, firstId);
        deliveries == old(deliveries) + (map d | d in born :: FreshDelivery(id, born[d], clock))
    {
      for i := 0 to |order|
        invariant forall d <- deliveries :: d < firstId + i
        invariant forall d <- old(deliveries) :: d in deliveries && deliveries[d] == old(deliveries)[d]
        invariant forall d | firstId <= d < firstId + i :: d in deliveries && deliveries[d] == FreshDelivery(id, order[d - firstId], clock)
        invariant forall d <- deliveries :: d in old(deliveries) || firstId <= d
      {
        deliveries := deliveries[firstId + i := Delivery(id, order[i], Pending, 0, clock, None, None, None)];
      }
    }

    /** `firstId` and up are unused ids. Returns what publishEvent reports, and the fanout it made. */
    method PublishEvent(id: EventId, org: Option<string>, topic: string, firstId: DeliveryId)
      returns (inserted: bool, count: nat, ghost born: map<DeliveryId, SubscriptionId>)
      requires forall d <- deliveries :: d < firstId
      modifies this`events, this`deliveries
      ensures Now() == Publish(old(Now()), id, org, topic, born)
      ensures inserted == (id !in old(events))
      ensures inserted ==> OnePerListener(old(Now()), topic, org, born) && (forall d <- born :: d >= firstId)
      ensures count == if inserted then |Audience(old(Now()), topic, org)| else 0
      // One pending row, due now, for each active subscription of the topic that is global or of the event's organization.
      ensures inserted ==> Fanned(old(Now()), Now(), id, org, topic, born) && count == |born.Values|
      ensures !inserted ==> events == old(events) && deliveries == old(deliveries)
    {
      ghost var was := Now();
      inserted, count, born := InsertEvent(id, org, topic, firstId);
      if inserted { PublishMeans(was, id, org, topic, born); }
    }

    method InsertEvent(id: EventId, org: Option<string>, topic: string, firstId: DeliveryId)
      returns (inserted: bool, count: nat, ghost born: map<DeliveryId, SubscriptionId>)
      requires forall d <- deliveries :: d < firstId
      modifies this`events, this`deliveries
      ensures Now() == Publish(old(Now()), id, org, topic, born)
      ensures inserted == (id !in old(events))
      ensures inserted ==> OnePerListener(old(Now()), topic, org, born) && (forall d <- born :: d >= firstId)
      ensures count == if inserted then |Audience(old(Now()), topic, org)| else 0
    {
      if id in events { return false, 0, map[]; }
      events := events[id := Event(org, topic, clock)];
      var audience := Audience(Now(), topic, org);
      assert audience == Audience(old(Now()), topic, org);
      var order := Listed(audience);
      NumberedIsOneEach(order, firstId, audience);
      InsertDeliveries(id, order, firstId);
      return true, |order|, Numbered(order, firstId);
    }

    /** Upserts one declared handler under its unique index. */
    method UpsertHandler(e: Entry, id: SubscriptionId, ghost db: Db, ghost registry: map<HandlerRef, nat>,
                         ghost made: map<SubscriptionId, HandlerRef>)
      returns (minted: bool)
      requires Upserted(db, subscriptions, registry, made) && e.handler !in registry && db.now == clock
      requires GlobalsUnique(db.subscriptions) && id !in subscriptions
      modifies this`subscriptions
      ensures Upserted(db, subscriptions, registry[e.handler := e.maxAttempts], if minted then made[id := e.handler] else made)
      ensures subscriptions.Keys <= old(subscriptions).Keys + {id}
    {
      var found := set s | s in subscriptions && IsGlobal(subscriptions[s], e.handler);
      if found == {} {
        assert !HasGlobal(subscriptions, e.handler) by {
          assert forall s <- subscriptions :: s !in found;
        }
        InsertedIsUpserted(db, subscriptions, registry, made, e, id);
        subscriptions := subscriptions[id :=
          Subscription(None, e.handler.topic, e.handler.handler, Handler, e.maxAttempts, true, clock)];
        return true;
      } else {
        var s :| s in found;
        RevivedIsUpserted(db, subscriptions, registry, made, e, s);
        subscriptions := subscriptions[s := subscriptions[s].(maxAttempts := e.maxAttempts, active := true, updatedAt := clock)];
        return false;
      }
    }

    method SyncSubscriptionsFromRegistry(entries: seq<Entry>, firstId: SubscriptionId, graceMs: nat)
      returns (upserted: nat, deactivated: nat, ghost made: map<SubscriptionId, HandlerRef>)
      requires GlobalsUnique(subscriptions) && Distinct(entries)
      requires forall s <- subscriptions :: s < firstId
      modifies this`subscriptions
      ensures MakesMissing(old(Now()), Registry(entries), made)
      ensures Now() == Sync(old(Now()), Registry(entries), made, graceMs)
      ensures upserted == |entries|
      ensures deactivated == |Undeclared(old(subscriptions), Registry(entries), clock, graceMs)|
      ensures SyncsTo(old(subscriptions), subscriptions, entries, clock, graceMs)
    {
      ghost var db := Now();
      deactivated, made := SyncRows(entries, firstId, graceMs);
      SyncMeans(db, entries, made, graceMs);
      return |entries|, deactivated, made;
    }

    /** The upserts, and the closing UPDATE. */
    method SyncRows(entries: seq<Entry>, firstId: SubscriptionId, graceMs: nat)
      returns (deactivated: nat, ghost made: map<SubscriptionId, HandlerRef>)
      requires GlobalsUnique(subscriptions) && Distinct(entries)
      requires forall s <- subscriptions :: s < firstId
      modifies this`subscriptions
      ensures MakesMissing(old(Now()), Registry(entries), made)
      ensures Now() == Sync(old(Now()), Registry(entries), made, graceMs)
      ensures deactivated == |Undeclared(old(subscriptions), Registry(entries), clock, graceMs)|
    {
      ghost var db := Now();
      made := UpsertAll(entries, firstId, db);
      UndeclaredWereThere(db, subscriptions, Registry(entries), made, graceMs);
      deactivated := DeactivateUndeclared(Registry(entries), graceMs, db, made);
    }

    method UpsertNext(e: Entry, id: SubscriptionId, ghost db: Db, ghost registry: map<HandlerRef, nat>,
                      ghost made: map<SubscriptionId, HandlerRef>)
      returns (ghost makes: map<SubscriptionId, HandlerRef>)
      requires Upserted(db, subscriptions, registry, made) && e.handler !in registry && db.now == clock
      requires GlobalsUnique(db.subscriptions) && forall s <- subscriptions :: s < id
      modifies this`subscriptions
      ensures Upserted(db, subscriptions, registry[e.handler := e.maxAttempts], makes)
      ensures forall s <- subscriptions :: s < id + 1
    {
      var minted := UpsertHandler(e, id, db, registry, made);
      makes := if minted then made[id := e.handler] else made;
    }

    method UpsertAll(entries: seq<Entry>, firstId: SubscriptionId, ghost db: Db)
      returns (ghost made: map<SubscriptionId, HandlerRef>)
      requires db == Now() && GlobalsUnique(subscriptions) && Distinct(entries)
      requires forall s <- subscriptions :: s < firstId
      modifies this`subscriptions
      ensures Upserted(db, subscriptions, Registry(entries), made)
    {
      made := map[];
      ghost var registry: map<HandlerRef, nat> := map[];
      for i := 0 to |entries|
        invariant forall s <- subscriptions :: s < firstId + i
        invariant registry == Registry(entries[..i])
        invariant Upserted(db, subscriptions, registry, made)
      {
        FreshEntry(entries, i);
        made := UpsertNext(entries[i], firstId + i, db, registry, made);
        registry := registry[entries[i].handler := entries[i].maxAttempts];
      }
      assert entries[..|entries|] == entries;
    }

    method DeactivateUndeclared(registry: map<HandlerRef, nat>, graceMs: nat, ghost db: Db, ghost made: map<SubscriptionId, HandlerRef>)
      returns (count: nat)
      requires Upserted(db, subscriptions, registry, made) && db.now == clock
      modifies this`subscriptions
      ensures subscriptions == Sync(db, registry, made, graceMs).subscriptions
      ensures count == |Undeclared(old(subscriptions), registry, clock, graceMs)|
    {
      DeactivatedIsSynced(db, subscriptions, registry, made, graceMs);
      count := |Undeclared(subscriptions, registry, clock, graceMs)|;
      subscriptions := CheckedAll(subscriptions, registry, clock, graceMs);
    }

    /**
     * The rows to claim: `scan` is the order the query visits rows in and
     * `locked` what other transactions hold (SKIP LOCKED).
     */
    method PickDeliveries(limit: nat, f: ClaimFilter, scan: seq<DeliveryId>, locked: set<DeliveryId>)
      returns (picked: set<DeliveryId>)
      requires forall i, j | 0 <= i < j < |scan| :: scan[i] != scan[j]
      ensures |picked| <= limit && forall d <- picked :: d in scan && d !in locked && Claimable(Now(), d, f)
      ensures |picked| < limit ==> forall d <- scan :: d !in locked && Claimable(Now(), d, f) ==> d in picked
      // In the terms of the tables: of the unlocked rows those that wait and are due, of an active subscription, of the
      // topics asked for, and of handlers only those asked for; all of them while the limit is not reached.
      ensures DeliveriesConsistent(Now()) ==> forall d <- scan ::
        d in deliveries && d !in locked && (|picked| < limit || d in picked) ==> (d in picked <==>
          var row := deliveries[d]; var sub := subscriptions[row.subscriptionId];
          && (row.status == Pending || row.status == Status.Failed) && row.nextAttemptAt <= clock && sub.active
          && (f.topics == {} || events[row.eventId].topic in f.topics)
          && (f.runnable == None || sub.kind == Webhook || HandlerRef(events[row.eventId].topic, sub.handler) in f.runnable.value))
      // None is passed over for one behind it.
      ensures forall i, j | 0 <= i < j < |scan| && scan[j] in picked ::
        scan[i] !in locked && Claimable(Now(), scan[i], f) ==> scan[i] in picked
    {
      picked := {};
      for i := 0 to |scan|
        invariant PickedUpTo(Now(), f, locked, scan, i, limit, picked)
      {
        PicksOneMore(Now(), f, locked, scan, i, limit, picked);
        if |picked| < limit && scan[i] !in locked && Claimable(Now(), scan[i], f) {
          picked := picked + {scan[i]};
        }
      }
    }

    method ClaimDeliveries(batch: int, consumer: string, f: ClaimFilter, scan: seq<DeliveryId>, locked: set<DeliveryId>)
      returns (rows: seq<Claimed>, picked: set<DeliveryId>)
      requires forall i, j | 0 <= i < j < |scan| :: scan[i] != scan[j]
      modifies this`deliveries
      ensures MayPick(old(Now()), picked, f, batch) && picked !! locked
      ensures Now() == Take(old(Now()), picked, consumer)
      ensures |rows| == |picked| && (forall r <- rows :: r.token.delivery in picked && IsClaimOf(r, consumer))
      ensures forall i, j | 0 <= i < j < |rows| :: rows[i].token.delivery != rows[j].token.delivery
      ensures |picked| < ClaimLimit(batch) ==>
        forall d <- scan :: d !in locked && old(Claimable(Now(), d, f)) ==> d in picked
      ensures forall i, j | 0 <= i < j < |scan| && scan[j] in picked ::
        scan[i] !in locked && old(Claimable(Now(), scan[i], f)) ==> scan[i] in picked
      // In the terms of the tables, as for the query; a webhook waits for no pod in particular.
      ensures DeliveriesConsistent(old(Now())) ==> forall d <- scan ::
        d in old(deliveries) && d !in locked && (|picked| < ClaimLimit(batch) || d in picked) ==> (d in picked <==>
          var row := old(deliveries)[d]; var sub := subscriptions[row.subscriptionId];
          && (row.status == Pending || row.status == Status.Failed) && row.nextAttemptAt <= clock && sub.active
          && (f.topics == {} || events[row.eventId].topic in f.topics)
          && (f.runnable == None || sub.kind == Webhook || HandlerRef(events[row.eventId].topic, sub.handler) in f.runnable.value))
      ensures deliveries.Keys == old(deliveries).Keys && forall d <- deliveries ::
        if d in picked then
          deliveries[d] == old(deliveries)[d].(status := Running, claimedBy := Some(consumer), claimedAt := Some(clock),
                                               attempts := old(deliveries)[d].attempts + 1)
        else deliveries[d] == old(deliveries)[d]
    {
      picked := PickDeliveries(ClaimLimit(batch), f, scan, locked);
      deliveries := map d | d in deliveries :: if d in picked
        then deliveries[d].(status := Running, claimedBy := Some(consumer), claimedAt := Some(clock), attempts := deliveries[d].attempts + 1)
        else deliveries[d];
      rows := Returning(picked, consumer);
    }

    ghost predicate IsClaimOf(r: Claimed, consumer: string)
      reads this`deliveries, this`subscriptions
    {
      && r.token.delivery in deliveries
      && var row := deliveries[r.token.delivery];
      && row.subscriptionId in subscriptions
      && r == Claimed(Token(r.token.delivery, consumer, row.attempts), row.subscriptionId, row.eventId,
                      subscriptions[row.subscriptionId].maxAttempts)
    }

    /** RETURNING: one ClaimedDelivery per updated row. */
    method Returning(picked: set<DeliveryId>, consumer: string) returns (rows: seq<Claimed>)
      requires forall d <- picked :: d in deliveries && deliveries[d].subscriptionId in subscriptions
      ensures |rows| == |picked| && (forall r <- rows :: r.token.delivery in picked && IsClaimOf(r, consumer))
      ensures forall i, j | 0 <= i < j < |rows| :: rows[i].token.delivery != rows[j].token.delivery
    {
      rows := [];
      var order := Listed(picked);
      for i := 0 to |order|
        invariant |rows| == i && (forall r <- rows :: r.token.delivery in picked && IsClaimOf(r, consumer))
        invariant forall j | 0 <= j < i :: rows[j].token.delivery == order[j]
      {
        var row := deliveries[order[i]];
        rows := rows + [Claimed(Token(order[i], consumer, row.attempts), row.subscriptionId, row.eventId,
                                subscriptions[row.subscriptionId].maxAttempts)];
      }
    }

    method ReleaseClaims(tokens: set<Token>, delayMs: nat) returns (released: nat)
      modifies this`deliveries, this`receipts
      ensures Now() == Release(old(Now()), tokens, delayMs)
      ensures released == |Held(old(Now()), tokens)|
      ensures HandedBack(old(Now()), Now(), tokens, delayMs)
    {
      ghost var was := Now();
      ReleaseHandsBack(was, tokens, delayMs);
      released := UnclaimHeld(tokens, delayMs);
      assert Now() == Release(was, tokens, delayMs);
    }

    /** The transaction: the fenced UPDATE, and the reservations of the rows it touched. */
    method UnclaimHeld(tokens: set<Token>, delayMs: nat) returns (released: nat)
      modifies this`deliveries, this`receipts
      ensures Now() == Release(old(Now()), tokens, delayMs)
      ensures released == |Held(old(Now()), tokens)|
    {
      if tokens == {} {
        assert Held(Now(), tokens) == {};
        assert Release(Now(), tokens, delayMs) == Now();
        return 0;
      }
      var ids := Held(Now(), tokens);
      deliveries := map d | d in deliveries :: if d in ids
        then deliveries[d].(status := Pending, attempts := if deliveries[d].attempts > 0 then deliveries[d].attempts - 1 else 0,
                            claimedBy := None, claimedAt := None, nextAttemptAt := clock + delayMs)
        else deliveries[d];
      if |ids| > 0 {
        receipts := map k | k in receipts && !(receipts[k].deliveryId.Some? && receipts[k].deliveryId.value in ids) :: receipts[k];
      } else {
        assert ids == {};
        DroppingNothing(receipts);
      }
      return |ids|;
    }

    method CompleteDelivery(t: Token, event: EventId, key: Option<ReceiptKey>) returns (r: CompleteResult)
      modifies this`deliveries, this`receipts
      ensures Now() == Complete(old(Now()), t, event, key)
      ensures r.ForeignKeyViolation? <==> key.Some? && !ReceiptWritable(old(Now()), t, event, key.value)
      ensures !r.ForeignKeyViolation? ==> (r.Landed? <==> Held(old(Now()), {t}) != {})
      // Landed, the row is done now and otherwise as it was; no other row changes.
      ensures r.Landed? ==>
        && t.delivery in deliveries && t.delivery in old(deliveries)
        && deliveries[t.delivery] == old(deliveries)[t.delivery].(status := Status.Done, doneAt := Some(clock))
      ensures OnlyRow(old(deliveries), t.delivery) && (!r.Landed? ==> deliveries == old(deliveries))
    {
      if key.Some? && key.value !in receipts && !(t.delivery in deliveries && event in events) {
        return ForeignKeyViolation;   // the transaction rolls back
      }
      r := Superseded;
      ghost var hit := Held(Now(), {t});
      assert hit <= {t.delivery};
      if t.delivery in deliveries && Holds(deliveries[t.delivery], t.delivery, {t}) {
        assert t.delivery in hit;
        deliveries := deliveries[t.delivery := deliveries[t.delivery].(status := Status.Done, doneAt := Some(clock))];
        r := Landed;
      }
      if key.Some? {
        if key.value !in receipts {
          receipts := receipts[key.value := Receipt(event, Some(t.delivery), Some(clock))];
        } else if receipts[key.value].deliveryId == Some(t.delivery) {
          receipts := receipts[key.value := receipts[key.value].(completedAt := Some(clock))];
        }
      }
    }

    method FailDelivery(t: Token, maxAttempts: nat, random: real, minDelayMs: nat) returns (outcome: Outcome)
      modifies this`deliveries, this`receipts
      ensures Now() == Fail(old(Now()), t, maxAttempts, Backoff.FailDelayMs(t.attempts, maxAttempts, random, minDelayMs))
      ensures outcome == if t.attempts >= maxAttempts then DeadLettered
                         else Retrying(Backoff.FailDelayMs(t.attempts, maxAttempts, random, minDelayMs))
      // Dead without a delay when out of attempts; else after the backoff, but no sooner than asked.
      ensures outcome.DeadLettered? <==> t.attempts >= maxAttempts
      ensures outcome.Retrying? ==>
        outcome.delayMs >= minDelayMs && outcome.delayMs >= Backoff.ComputeBackoffMs(t.attempts, random)
        && (outcome.delayMs == minDelayMs || outcome.delayMs == Backoff.ComputeBackoffMs(t.attempts, random))
    {
      var dead := t.attempts >= maxAttempts;
      var delayMs := Backoff.FailDelayMs(t.attempts, maxAttempts, random, minDelayMs);
      ghost var hit := Held(Now(), {t});
      assert hit <= {t.delivery};
      if t.delivery in deliveries && Holds(deliveries[t.delivery], t.delivery, {t}) {
        assert hit == {t.delivery};
        deliveries := deliveries[t.delivery :=
          deliveries[t.delivery].(status := if dead then Dead else Failed, nextAttemptAt := clock + delayMs)];
        receipts := DropReceipts(receipts, {t.delivery});
      } else {
        assert hit == {};
        assert DropReceipts(receipts, {}) == receipts;
      }
      return if dead then DeadLettered else Retrying(delayMs);
    }

    method ReplayDelivery(d: DeliveryId) returns (replayed: bool)
      modifies this`deliveries
      ensures Now() == Replay(old(Now()), d)
      ensures replayed <==> d in old(deliveries) && Replayable(old(deliveries)[d])
      // Then it is due now with a fresh budget; a delivery in any other state, and every other one, stays as it is.
      ensures replayed ==>
        deliveries[d].status.Pending? && deliveries[d].attempts == 0 && deliveries[d].nextAttemptAt == clock
      ensures !replayed ==> deliveries == old(deliveries)
      ensures OnlyRow(old(deliveries), d)
      ensures Replay(Now(), d) == Now()
    {
      replayed := d in deliveries && deliveries[d].status in {Dead, Failed, Status.Done};
      if replayed {
        deliveries := deliveries[d := deliveries[d].(status := Pending, attempts := 0, nextAttemptAt := clock)];
      }
    }

    method RequeueStaleDeliveries(staleMs: nat) returns (requeued: nat)
      modifies this`deliveries, this`receipts
      ensures Now() == Requeue(old(Now()), staleMs)
      ensures requeued == |Stale(old(Now()), staleMs)|
      ensures Reaped(old(Now()), Now(), staleMs)
      // Touched are exactly the rows that have been running for longer than that.
      ensures DeliveriesConsistent(old(Now())) ==> forall d <- deliveries ::
        deliveries[d] != old(deliveries)[d] <==>
          && old(deliveries)[d].status == Running && old(deliveries)[d].claimedAt.Some?
          && old(deliveries)[d].claimedAt.value + staleMs < clock
    {
      ghost var was := Now();
      RequeueReaps(was, staleMs);
      requeued := RequeueRows(staleMs);
      assert Now() == Requeue(was, staleMs);
    }

    /** The transaction: the UPDATE of the stale rows, and their reservations. */
    method RequeueRows(staleMs: nat) returns (requeued: nat)
      modifies this`deliveries, this`receipts
      ensures Now() == Requeue(old(Now()), staleMs)
      ensures requeued == |Stale(old(Now()), staleMs)|
    {
      var ids := Stale(Now(), staleMs);
      deliveries := map d | d in deliveries :: if d in ids
        then deliveries[d].(status := if deliveries[d].attempts >= subscriptions[deliveries[d].subscriptionId].maxAttempts then Dead else Failed,
                            nextAttemptAt := clock)
        else deliveries[d];
      if |ids| > 0 {
        receipts := DropReceipts(receipts, ids);
      } else {
        assert ids == {};
        DroppingNothing(receipts);
      }
      return |ids|;
    }

    method ReserveIdempotencyKey(d: DeliveryId, event: EventId, k: ReceiptKey) returns (r: Reservation)
      modifies this`receipts
      ensures Now() == Reserve(old(Now()), d, event, k)
      ensures r == ReserveOutcome(old(Now()), d, event, k)
      // Granted, the key is this delivery's; otherwise nothing changes. Other keys never do.
      ensures if r.Reserved? then k in receipts && receipts[k] == Receipt(event, Some(d), None) else receipts == old(receipts)
      ensures forall k' :: k' != k ==> (k' in receipts <==> k' in old(receipts))
      ensures forall k' <- receipts :: k' != k ==> receipts[k'] == old(receipts)[k']
      // Seen means handled, in flight means another running delivery has it.
      ensures r.SeenBefore? <==> k in old(receipts) && old(receipts)[k].completedAt.Some?
      ensures r.InFlight? ==> r.owner != d && r.owner in deliveries && deliveries[r.owner].status.Running?
      ensures r.InFlight? <==>
        && k in old(receipts) && old(receipts)[k].completedAt.None?
        && exists o :: o != d && o in deliveries && old(receipts)[k].deliveryId == Some(o) && deliveries[o].status.Running?
      // While the grantee runs, every other delivery finds the key in flight.
      ensures r.Reserved? && deliveries[d].status.Running? ==>
        forall d', e' :: d' != d ==> ReserveOutcome(Now(), d', e', k) == InFlight(d)
    {
      if ReserveOutcome(Now(), d, event, k).Reserved? && deliveries[d].status.Running? {
        ReservationExcludesOthers(Now(), d, event, k);
      }
      var writable := d in deliveries && event in events;
      if k !in receipts {
        if !writable { return Aborted; }
        receipts := receipts[k := Receipt(event, Some(d), None)];
        return Reserved;
      }
      var owner := receipts[k];
      if owner.completedAt.Some? { return SeenBefore(owner.eventId); }
      if owner.deliveryId.Some? && owner.deliveryId.value != d
         && owner.deliveryId.value in deliveries && deliveries[owner.deliveryId.value].status.Running? {
        return InFlight(owner.deliveryId.value);
      }
      if !writable { return Aborted; }
      receipts := (receipts - {k})[k := Receipt(event, Some(d), None)];
      return Reserved;
    }

    /**
     * One claimed delivery to its outcome for this attempt, with nobody
     * else writing meanwhile (LedgerWorld covers interleavings). `run` is
     * what the handler or webhook would do; `ran` says whether it was asked.
     */
    method ProcessDelivery(c: Claimed, runner: Runner, run: HandlerRun, random: real, timeoutMs: nat)
      returns (outcome: Outcome, ran: bool)
      modifies this`deliveries, this`receipts
      // The handler runs unless this pod lacks it, the key was handled, or another run of the key is in flight.
      ensures runner.Keyed? ==>
        (ran <==> ReserveOutcome(old(Now()), c.token.delivery, c.eventId, ReceiptKey(c.subscriptionId, runner.key)).Reserved?)
      ensures !runner.Keyed? ==> (ran <==> !runner.Unregistered?)
      // A row held by this claim never stays running, and its status is the reported outcome.
      ensures Held(old(Now()), {c.token}) != {} ==> Settles(old(Now()), c, outcome)
      // Nothing of any other delivery changes; a superseded claim changes no row at all.
      ensures OnlyRow(old(deliveries), c.token.delivery)
      ensures Held(old(Now()), {c.token}) == {} ==> deliveries == old(deliveries)
      // A completed run leaves a completed receipt; any failed or released one leaves no reservation behind.
      ensures runner.Keyed? && ran && outcome == Outcome.Done ==>
        var k := ReceiptKey(c.subscriptionId, runner.key);
        k in receipts && receipts[k] == Receipt(c.eventId, Some(c.token.delivery), Some(clock))
      ensures Held(old(Now()), {c.token}) != {} && outcome != Outcome.Done && outcome != Skipped ==> OwnsNoReceipt(c.token.delivery)
      ensures outcome == Skipped ==> receipts == old(receipts)
      // It is done exactly if what was run returned, and a failure of it waits or is dead as FailedAs says.
      ensures ran ==> (outcome == Outcome.Done <==> run.Returned?)
      ensures ran && !run.Returned? ==> FailedAs(c, outcome, random, if run.TimedOut? then timeoutMs else 0)
      ensures ran && run.TimedOut? && outcome.Retrying? ==> outcome.delayMs >= timeoutMs
      // Unrun it is given back or, its key handled before, skipped.
      ensures runner.Unregistered? ==> outcome == Released
      ensures runner.Keyed? && !ran ==> UnrunAs(c, outcome, random,
        ReserveOutcome(old(Now()), c.token.delivery, c.eventId, ReceiptKey(c.subscriptionId, runner.key)))
    {
      match runner {
        case Unregistered =>
          ReleaseEffect(Now(), c.token, KEY_IN_FLIGHT_RETRY_MS);
          var n := ReleaseClaims({c.token}, KEY_IN_FLIGHT_RETRY_MS);
          return Released, false;
        case Keyed(key) =>
          outcome, ran := ProcessKeyed(c, ReceiptKey(c.subscriptionId, key), run, random, timeoutMs);
        case _ =>
          ran := true;
          if run.Returned? {
            CompleteEffect(Now(), c.token, c.eventId, None);
            var r := CompleteDelivery(c.token, c.eventId, None);
            outcome := Outcome.Done;
          } else {
            outcome := RecordFailure(c, run, random, timeoutMs);
          }
      }
    }

    method RecordFailure(c: Claimed, run: HandlerRun, random: real, timeoutMs: nat) returns (outcome: Outcome)
      modifies this`deliveries, this`receipts
      ensures Held(old(Now()), {c.token}) != {} ==> Settles(old(Now()), c, outcome) && OwnsNoReceipt(c.token.delivery)
      ensures FailedAs(c, outcome, random, if run.TimedOut? then timeoutMs else 0)
      ensures run.TimedOut? && outcome.Retrying? ==> outcome.delayMs >= timeoutMs
      ensures OnlyRow(old(deliveries), c.token.delivery)
      ensures Held(old(Now()), {c.token}) == {} ==> deliveries == old(deliveries)
    {
      var minDelayMs := if run.TimedOut? then timeoutMs else 0;
      FailEffect(Now(), c.token, c.maxAttempts, Backoff.FailDelayMs(c.token.attempts, c.maxAttempts, random, minDelayMs));
      outcome := FailDelivery(c.token, c.maxAttempts, random, minDelayMs);
    }

    method ProcessKeyed(c: Claimed, k: ReceiptKey, run: HandlerRun, random: real, timeoutMs: nat)
      returns (outcome: Outcome, ran: bool)
      modifies this`deliveries, this`receipts
      ensures ran <==> ReserveOutcome(old(Now()), c.token.delivery, c.eventId, k).Reserved?
      ensures Held(old(Now()), {c.token}) != {} ==> Settles(old(Now()), c, outcome)
      ensures OnlyRow(old(deliveries), c.token.delivery)
      ensures Held(old(Now()), {c.token}) == {} ==> deliveries == old(deliveries)
      ensures ran && outcome == Outcome.Done ==>
        k in receipts && receipts[k] == Receipt(c.eventId, Some(c.token.delivery), Some(clock))
      ensures Held(old(Now()), {c.token}) != {} && outcome != Outcome.Done && outcome != Skipped ==> OwnsNoReceipt(c.token.delivery)
      ensures outcome == Skipped ==> receipts == old(receipts)
      ensures ran ==> (outcome == Outcome.Done <==> run.Returned?)
      ensures ran && !run.Returned? ==> FailedAs(c, outcome, random, if run.TimedOut? then timeoutMs else 0)
      ensures ran && run.TimedOut? && outcome.Retrying? ==> outcome.delayMs >= timeoutMs
      ensures !ran ==> UnrunAs(c, outcome, random, ReserveOutcome(old(Now()), c.token.delivery, c.eventId, k))
    {
      var reservation := ReserveIdempotencyKey(c.token.delivery, c.eventId, k);
      assert Held(Now(), {c.token}) == Held(old(Now()), {c.token});
      ran := reservation.Reserved?;
      if reservation.SeenBefore? {
        CompleteEffect(Now(), c.token, c.eventId, None);
        var r := CompleteDelivery(c.token, c.eventId, None);
        outcome := Skipped;
      } else if reservation.InFlight? {
        ReleaseEffect(Now(), c.token, KEY_IN_FLIGHT_RETRY_MS);
        var n := ReleaseClaims({c.token}, KEY_IN_FLIGHT_RETRY_MS);
        outcome := Released;
      } else if reservation.Reserved? && run.Returned? {
        CompleteEffect(Now(), c.token, c.eventId, Some(k));
        var r := CompleteDelivery(c.token, c.eventId, Some(k));
        outcome := Outcome.Done;
      } else {
        outcome := RecordFailure(c, if reservation.Aborted? then Threw else run, random, timeoutMs);
      }
    }

    ghost predicate OnlyRow(was: map<DeliveryId, Delivery>, d: DeliveryId)
      reads this`deliveries
    {
      deliveries.Keys == was.Keys && forall x <- was :: x != d ==> deliveries[x] == was[x]
    }

    ghost predicate OwnsNoReceipt(d: DeliveryId)
      reads this`receipts
    {
      forall k <- receipts :: receipts[k].deliveryId != Some(d)
    }

    /** The row of `c` after it was processed, for each reported outcome. */
    ghost predicate Settles(was: Db, c: Claimed, outcome: Outcome)
      reads this`deliveries, this`clock
    {
      && c.token.delivery in was.deliveries && c.token.delivery in deliveries
      && var row := was.deliveries[c.token.delivery]; var row' := deliveries[c.token.delivery];
      match outcome
      case Done => row' == row.(status := Status.Done, doneAt := Some(clock))
      case Skipped => row' == row.(status := Status.Done, doneAt := Some(clock))
      case Released =>
        row' == row.(status := Pending, attempts := if row.attempts == 0 then 0 else row.attempts - 1,
                     claimedBy := None, claimedAt := None, nextAttemptAt := clock + 2_000)
      case Retrying(delayMs) => row' == row.(status := Status.Failed, nextAttemptAt := clock + delayMs) && c.token.attempts < c.maxAttempts
      case DeadLettered => row' == row.(status := Dead, nextAttemptAt := clock) && c.token.attempts >= c.maxAttempts
    }

    /** `days` 0 disables a half of the sweep. */
    method SweepDoneDeliveries(days: nat, batch: nat, maxBatches: nat) returns (deleted: nat, ghost gone: set<DeliveryId>)
      requires batch >= 1
      modifies this`deliveries, this`receipts
      ensures Now() == SweepDone(old(Now()), gone) && gone <= ExpiredDones(old(Now()), days)
      ensures deleted == |gone| == Min(|ExpiredDones(old(Now()), days)|, batch * maxBatches)
      ensures FinishedBefore(old(Now()), ExpiredDones(old(Now()), days), days)
    {
      ExpiredDonesMean(Now(), days);
      deleted, gone := 0, {};
      var i, drained := 0, false;
      ghost var eligible := ExpiredDones(Now(), days);
      NothingSwept(Now());
      while i < maxBatches && !drained
        invariant i <= maxBatches && gone <= eligible && deleted == |gone| <= i * batch
        invariant if drained then gone == eligible else |gone| == i * batch
        invariant Now() == SweepDone(old(Now()), gone)
      {
        StillExpiredDone(old(Now()), gone, days);
        assert |eligible - gone| == |eligible| - |gone|;
        var n, victims := DeleteDone(days, batch);
        SweptTwice(old(Now()), gone, victims);
        NextBatch(i, batch);
        gone, deleted, i := gone + victims, deleted + n, i + 1;
        if n < batch {
          drained := true;
          SameSize(gone, eligible);
        }
      }
      BatchTotal(|eligible|, |gone|, i, batch, maxBatches, drained);
    }

    /** One DELETE ... LIMIT batch. */
    method DeleteDone(days: nat, batch: nat) returns (n: nat, victims: set<DeliveryId>)
      modifies this`deliveries, this`receipts
      ensures victims <= ExpiredDones(old(Now()), days) && n == |victims| == Min(batch, |ExpiredDones(old(Now()), days)|)
      ensures Now() == SweepDone(old(Now()), victims)
    {
      victims := Limit(ExpiredDones(Now(), days), batch);
      n := |victims|;
      deliveries := deliveries - victims;
      receipts := map k | k in receipts :: Orphaned(receipts[k], victims);
    }

    /** `days` 0 disables a half of the sweep; each batch is its own transaction. */
    method SweepOldEvents(days: nat, batch: nat, maxBatches: nat) returns (deleted: nat, ghost gone: set<EventId>)
      requires batch >= 1
      modifies this`events, this`deliveries, this`receipts
      ensures Now() == SweepEvents(old(Now()), gone) && gone <= ExpiredEvents(old(Now()), days)
      ensures deleted == |gone| == Min(|ExpiredEvents(old(Now()), days)|, batch * maxBatches)
      ensures PublishedBefore(old(Now()), ExpiredEvents(old(Now()), days), days)
    {
      ExpiredEventsMean(Now(), days);
      deleted, gone := 0, {};
      var i, drained := 0, false;
      ghost var eligible := ExpiredEvents(Now(), days);
      NoEventSwept(Now());
      while i < maxBatches && !drained
        invariant i <= maxBatches && gone <= eligible && deleted == |gone| <= i * batch
        invariant if drained then gone == eligible else |gone| == i * batch
        invariant Now() == SweepEvents(old(Now()), gone)
      {
        StillExpiredEvents(old(Now()), gone, days);
        assert |eligible - gone| == |eligible| - |gone|;
        var n, victims := DeleteEvents(days, batch);
        EventsSweptTwice(old(Now()), gone, victims);
        NextBatch(i, batch);
        gone, deleted, i := gone + victims, deleted + n, i + 1;
        if n < batch {
          drained := true;
          SameSize(gone, eligible);
        }
      }
      BatchTotal(|eligible|, |gone|, i, batch, maxBatches, drained);
    }

    method DeleteEvents(days: nat, batch: nat) returns (n: nat, victims: set<EventId>)
      modifies this`events, this`deliveries, this`receipts
      ensures victims <= ExpiredEvents(old(Now()), days) && n == |victims| == Min(batch, |ExpiredEvents(old(Now()), days)|)
      ensures Now() == SweepEvents(old(Now()), victims)
    {
      victims := Limit(ExpiredEvents(Now(), days), batch);
      n := |victims|;
      events := events - victims;
      deliveries := map d | d in deliveries && deliveries[d].eventId !in victims :: deliveries[d];
      receipts := map k | k in receipts && receipts[k].eventId !in victims :: receipts[k];
    }

    /**
     * The whole sweep with nobody else writing: each half deletes
     * min(eligible, batch x maxBatches) rows of what was eligible at its start.
     */
    method SweepEventRetention(doneDays: int, eventDays: int, batch: int, maxBatches: int)
      returns (deliveriesDeleted: nat, eventsDeleted: nat, ghost goneDone: set<DeliveryId>, ghost goneEvents: set<EventId>)
      modifies this`events, this`deliveries, this`receipts
      ensures var limit := Clamp(batch, 1, 10_000) * Clamp(maxBatches, 1, 1_000); var was := old(Now());
        && Now() == SweepEvents(SweepDone(was, goneDone), goneEvents)
        && goneDone <= (if doneDays > 0 then ExpiredDones(was, doneDays) else {})
        && goneEvents <= (if eventDays > 0 then ExpiredEvents(was, eventDays) else {})
        && deliveriesDeleted == |goneDone| == (if doneDays > 0 then Min(|ExpiredDones(was, doneDays)|, limit) else 0)
        && eventsDeleted == |goneEvents| == (if eventDays > 0 then Min(|ExpiredEvents(was, eventDays)|, limit) else 0)
      // Eligible are all finished deliveries, and all events without unfinished work on an active subscription, that are old enough.
      ensures doneDays > 0 ==> FinishedBefore(old(Now()), ExpiredDones(old(Now()), doneDays), doneDays)
      ensures eventDays > 0 ==> PublishedBefore(old(Now()), ExpiredEvents(old(Now()), eventDays), eventDays)
      // So nothing younger is deleted, and nothing else.
      ensures forall d <- goneDone ::
        && d in old(deliveries) && old(deliveries)[d].status == Status.Done
        && old(deliveries)[d].doneAt.Some? && old(deliveries)[d].doneAt.value + doneDays * 86_400_000 < clock
      ensures forall e <- goneEvents :: e in old(events) && old(events)[e].createdAt + eventDays * 86_400_000 < clock
      ensures events.Keys == old(events).Keys - goneEvents
      ensures forall d <- old(deliveries) :: d !in deliveries <==> d in goneDone || old(deliveries)[d].eventId in goneEvents
      ensures forall d <- deliveries :: d in old(deliveries) && deliveries[d] == old(deliveries)[d]
      // A receipt goes only with its event; one whose delivery is gone stays, without it.
      ensures forall k <- old(receipts) :: k in receipts <==> old(receipts)[k].eventId !in goneEvents
      ensures forall k <- receipts ::
        && k in old(receipts) && receipts[k].eventId == old(receipts)[k].eventId && receipts[k].completedAt == old(receipts)[k].completedAt
        && (receipts[k].deliveryId == old(receipts)[k].deliveryId || receipts[k].deliveryId.None?)
        && (old(receipts)[k].deliveryId.Some? ==> (receipts[k].deliveryId.None? <==> old(receipts)[k].deliveryId.value in goneDone))
    {
      deliveriesDeleted, goneDone, eventsDeleted, goneEvents := 0, {}, 0, {};
      var size, rounds := Clamp(batch, 1, 10_000), Clamp(maxBatches, 1, 1_000);
      NothingSwept(Now());
      if doneDays > 0 { ExpiredDonesMean(Now(), doneDays); }
      if eventDays > 0 { ExpiredEventsMean(Now(), eventDays); }
      if doneDays > 0 {
        deliveriesDeleted, goneDone := SweepDoneDeliveries(doneDays, size, rounds);
      }
      NoEventSwept(Now());
      if eventDays > 0 {
        DoneSweepSparesEvents(old(Now()), goneDone, eventDays);
        eventsDeleted, goneEvents := SweepOldEvents(eventDays, size, rounds);
      }
    }
  }
}
