/** What the single transactions of the ledger mean to their callers: what they undo, exclude and leave alone. */
module LedgerFacts {
  import opened Tables
  import opened LedgerOps

  // ---- fenced writes ----

  lemma DroppingNothing(receipts: map<ReceiptKey, Receipt>)
    ensures DropReceipts(receipts, {}) == receipts
  {
  }

  /** A token serves once: after the hand-back none of the rows is held under it, and handing back again does nothing. */
  lemma ReleasedTokensAreSpent(db: Db, tokens: set<Token>, delayMs: nat, again: nat)
    ensures var after := Release(db, tokens, delayMs);
      Held(after, tokens) == {} && Release(after, tokens, again) == after
  {
    var after := Release(db, tokens, delayMs);
    assert Held(after, tokens) == {};
    assert Release(after, tokens, again).deliveries == after.deliveries;
    DroppingNothing(after.receipts);
  }

  /**
   * What a hand-back is to its caller: the tokens are spent; the rows they
   * still held wait again, the attempt uncounted, with no holder and no
   * reservation; every other row is as it was.
   */
  ghost predicate HandedBack(was: Db, later: Db, tokens: set<Token>, delayMs: nat) {
    && Held(later, tokens) == {}
    && later.deliveries.Keys == was.deliveries.Keys
    && (forall d <- was.deliveries :: d !in Held(was, tokens) ==> later.deliveries[d] == was.deliveries[d])
    && (forall d <- Held(was, tokens) ::
          && (was.deliveries[d].attempts >= 1 ==> later.deliveries[d].attempts + 1 == was.deliveries[d].attempts)
          && later.deliveries[d] == was.deliveries[d].(status := Pending, attempts := later.deliveries[d].attempts,
                                                       claimedBy := None, claimedAt := None, nextAttemptAt := was.now + delayMs))
    && (forall k <- later.receipts ::
          later.receipts[k].deliveryId.Some? ==> later.receipts[k].deliveryId.value !in Held(was, tokens))
    && (forall k <- was.receipts ::
          k !in later.receipts ==> was.receipts[k].deliveryId.Some? && was.receipts[k].deliveryId.value in Held(was, tokens))
  }

  lemma ReleaseHandsBack(db: Db, tokens: set<Token>, delayMs: nat)
    ensures HandedBack(db, Release(db, tokens, delayMs), tokens, delayMs)
  {
    ReleasedTokensAreSpent(db, tokens, delayMs, delayMs);
  }

  /** The tokens a claim hands out. */
  function TokensTaken(db: Db, picked: set<DeliveryId>, consumer: string): set<Token>
    requires picked <= db.deliveries.Keys
  {
    set d | d in picked :: Token(d, consumer, db.deliveries[d].attempts + 1)
  }

  lemma TakenAreHeld(db: Db, picked: set<DeliveryId>, consumer: string)
    requires picked <= db.deliveries.Keys
    ensures Held(Take(db, picked, consumer), TokensTaken(db, picked, consumer)) == picked
  {
    var after := Take(db, picked, consumer);
    var tokens := TokensTaken(db, picked, consumer);
    forall d <- picked ensures d in Held(after, tokens) {
      assert Token(d, consumer, db.deliveries[d].attempts + 1) in tokens;
    }
  }

  /**
   * Handing a claim back undoes it: the attempt is uncounted, nobody holds
   * the row, and but for being pending and due after the delay it is what it was.
   */
  lemma ReleaseUndoesTake(db: Db, picked: set<DeliveryId>, consumer: string, delayMs: nat)
    requires picked <= db.deliveries.Keys
    ensures var back := Release(Take(db, picked, consumer), TokensTaken(db, picked, consumer), delayMs);
      && back.deliveries.Keys == db.deliveries.Keys
      && (forall d <- db.deliveries :: back.deliveries[d] ==
            if d in picked then db.deliveries[d].(status := Pending, claimedBy := None, claimedAt := None, nextAttemptAt := db.now + delayMs)
            else db.deliveries[d])
      && back.events == db.events && back.subscriptions == db.subscriptions
      && (forall k <- back.receipts :: k in db.receipts && back.receipts[k] == db.receipts[k])
  {
    TakenAreHeld(db, picked, consumer);
  }

  // ---- claims ----

  /**
   * Which rows a claim may take, in the terms of the tables: a row that waits
   * and is due, of an active subscription; the topics asked for, if any; and of
   * handlers only those asked for, if any were - a webhook never needs one.
   */
  lemma ClaimableIff(db: Db, d: DeliveryId, f: ClaimFilter)
    requires DeliveriesConsistent(db) && d in db.deliveries
    ensures var row := db.deliveries[d]; var sub := db.subscriptions[row.subscriptionId];
      Claimable(db, d, f) <==>
        && (row.status == Status.Pending || row.status == Status.Failed) && row.nextAttemptAt <= db.now && sub.active
        && (f.topics == {} || db.events[row.eventId].topic in f.topics)
        && (f.runnable == None || sub.kind == Webhook || HandlerRef(db.events[row.eventId].topic, sub.handler) in f.runnable.value)
  {
  }

  // ---- the boot sync ----

  /** A row of the subscription table after a boot sync, from what it was. */
  ghost predicate SyncedFrom(was: Subscription, row: Subscription, registry: map<HandlerRef, nat>, now: Time, graceMs: nat) {
    var h := HandlerRef(was.topic, was.handler);
    // A code-declared handler is active, with the attempts declared, and seen now.
    && (was.organizationId == None && h in registry ==> row == was.(maxAttempts := registry[h], active := true, updatedAt := now))
    // One that nobody declared is switched off once nobody has for longer than the grace.
    && (was.organizationId == None && h !in registry && was.kind == Handler && was.active ==>
          if was.updatedAt + graceMs < now then row == was.(active := false, updatedAt := now) else row == was)
    // An organization's subscription, a global webhook and an inactive row stay as they are.
    && (was.organizationId != None || (h !in registry && (was.kind == Webhook || !was.active)) ==> row == was)
  }

  /** The handler has its row: global, of the kind of code-declared ones or kept from before, active, with the attempts declared, seen now. */
  ghost predicate Declared(subs: map<SubscriptionId, Subscription>, h: HandlerRef, maxAttempts: nat, now: Time) {
    exists s :: s in subs && DeclaredBy(subs[s], h, maxAttempts, now)
  }

  predicate DeclaredBy(row: Subscription, h: HandlerRef, maxAttempts: nat, now: Time) {
    && row.organizationId == None && row.topic == h.topic && row.handler == h.handler
    && row.maxAttempts == maxAttempts && row.active && row.updatedAt == now
  }

  lemma RowIsSynced(db: Db, registry: map<HandlerRef, nat>, made: map<SubscriptionId, HandlerRef>, graceMs: nat, s: SubscriptionId)
    requires MakesMissing(db, registry, made) && s in db.subscriptions
    ensures var subs := Sync(db, registry, made, graceMs).subscriptions;
      s in subs && SyncedFrom(db.subscriptions[s], subs[s], registry, db.now, graceMs)
  {
    assert s !in made;
  }

  lemma HandlerIsDeclared(db: Db, registry: map<HandlerRef, nat>, made: map<SubscriptionId, HandlerRef>, graceMs: nat, h: HandlerRef)
    requires MakesMissing(db, registry, made) && h in registry
    ensures Declared(Sync(db, registry, made, graceMs).subscriptions, h, registry[h], db.now)
  {
    var subs := Sync(db, registry, made, graceMs).subscriptions;
    var s := DeclaredRowOf(db, registry, made, h);
    assert s in made || s in db.subscriptions;
    assert DeclaredBy(subs[s], h, registry[h], db.now);
  }

  lemma NewRowIsDeclared(db: Db, registry: map<HandlerRef, nat>, made: map<SubscriptionId, HandlerRef>, graceMs: nat, s: SubscriptionId)
    requires MakesMissing(db, registry, made) && s in Sync(db, registry, made, graceMs).subscriptions && s !in db.subscriptions
    ensures s in made && made[s] in registry
    ensures Sync(db, registry, made, graceMs).subscriptions[s]
         == Subscription(None, made[s].topic, made[s].handler, Handler, registry[made[s]], true, db.now)
  {
    assert made[s] in made.Values;
  }

  lemma DeclaredRowOf(db: Db, registry: map<HandlerRef, nat>, made: map<SubscriptionId, HandlerRef>, h: HandlerRef)
    returns (s: SubscriptionId)
    requires MakesMissing(db, registry, made) && h in registry
    ensures (s in made && made[s] == h) || (s !in made && s in db.subscriptions && IsGlobal(db.subscriptions[s], h))
  {
    if h in made.Values {
      s :| s in made && made[s] == h;
    } else {
      assert HasGlobal(db.subscriptions, h);
      s :| s in db.subscriptions && IsGlobal(db.subscriptions[s], h);
      assert s !in made;
    }
  }

  // ---- replay ----

  /**
   * A replayed delivery may be claimed at once, by exactly the consumers its
   * subscription admits, with a fresh budget; no receipt changes, so a key
   * that was handled is still seen. Replaying it again changes nothing.
   */
  lemma ReplayedRunsAgain(db: Db, d: DeliveryId, f: ClaimFilter)
    requires DeliveriesConsistent(db) && d in db.deliveries && Replayable(db.deliveries[d])
    ensures var after := Replay(db, d);
      var row := after.deliveries[d];
      && (Claimable(after, d, f) <==>
            db.subscriptions[row.subscriptionId].active
            && Admits(f, db.events[row.eventId].topic, db.subscriptions[row.subscriptionId]))
      && row.attempts == 0
      && Replay(after, d) == after
      && (forall k, d', e :: k in db.receipts && db.receipts[k].completedAt.Some? ==>
            ReserveOutcome(after, d', e, k) == SeenBefore(db.receipts[k].eventId))
  {
  }

  // ---- the reaper ----

  /** After a reaping nothing is stale: reaping again at once does nothing. */
  lemma RequeueLeavesNothingStale(db: Db, staleMs: nat)
    ensures var after := Requeue(db, staleMs);
      Stale(after, staleMs) == {} && Requeue(after, staleMs) == after
  {
    var after := Requeue(db, staleMs);
    assert Stale(after, staleMs) == {};
    assert Requeue(after, staleMs).deliveries == after.deliveries;
    DroppingNothing(after.receipts);
  }

  /**
   * A reaped row is dead exactly if it had no attempt left, else claimable
   * at once as its subscription admits; its reservations are gone.
   */
  lemma ReapedRowGoesOn(db: Db, staleMs: nat, d: DeliveryId, f: ClaimFilter)
    requires DeliveriesConsistent(db) && IsStale(db, d, staleMs)
    ensures var after := Requeue(db, staleMs);
      var row, sub := after.deliveries[d], db.subscriptions[db.deliveries[d].subscriptionId];
      && (row.status.Dead? <==> db.deliveries[d].attempts >= sub.maxAttempts)
      && (Claimable(after, d, f) <==>
            db.deliveries[d].attempts < sub.maxAttempts && sub.active && Admits(f, db.events[row.eventId].topic, sub))
      && row.attempts == db.deliveries[d].attempts
      && forall k <- after.receipts :: after.receipts[k].deliveryId != Some(d)
  {
  }

  /**
   * What a reaping is to its caller: nothing is stale any more; a row that
   * was is dead exactly if out of attempts and else due now, its attempt
   * stays counted, its reservations go; every other row is as it was.
   */
  ghost predicate Reaped(was: Db, later: Db, staleMs: nat) {
    && Stale(later, staleMs) == {}
    && later.deliveries.Keys == was.deliveries.Keys
    && (forall d <- was.deliveries :: d !in Stale(was, staleMs) ==> later.deliveries[d] == was.deliveries[d])
    && (forall d <- Stale(was, staleMs) ::
          var row := later.deliveries[d];
          && row.subscriptionId in was.subscriptions
          && (row.status.Dead? || row.status.Failed?)
          && (row.status.Dead? <==> row.attempts >= was.subscriptions[row.subscriptionId].maxAttempts)
          && row.attempts == was.deliveries[d].attempts && row.nextAttemptAt == was.now)
    && (forall k <- later.receipts ::
          later.receipts[k].deliveryId.Some? ==> later.receipts[k].deliveryId.value !in Stale(was, staleMs))
  }

  lemma RequeueReaps(db: Db, staleMs: nat)
    ensures Reaped(db, Requeue(db, staleMs), staleMs)
  {
    RequeueLeavesNothingStale(db, staleMs);
  }

  // ---- reservations ----

  /**
   * While the owner of a reservation runs, every other delivery finds the
   * key in flight; the owner itself may reserve it again; other keys are untouched.
   */
  lemma ReservationExcludesOthers(db: Db, d: DeliveryId, event: EventId, k: ReceiptKey)
    requires ReserveOutcome(db, d, event, k).Reserved? && db.deliveries[d].status.Running?
    ensures var after := Reserve(db, d, event, k);
      && (forall d', e' :: d' != d ==> ReserveOutcome(after, d', e', k) == InFlight(d))
      && Reserve(after, d, event, k) == after
      && (forall k' :: k' != k ==> (k' in after.receipts <==> k' in db.receipts))
      && (forall k' :: k' != k && k' in db.receipts ==> after.receipts[k'] == db.receipts[k'])
  {
  }

  /** A key is granted exactly if it was not handled, no other delivery with it is running, and the delivery still exists. */
  lemma GrantedIff(db: Db, d: DeliveryId, event: EventId, k: ReceiptKey)
    requires ReceiptsConsistent(db)
    ensures ReserveOutcome(db, d, event, k).Reserved? <==>
      && d in db.deliveries && event in db.events
      && (k in db.receipts ==>
            && db.receipts[k].completedAt.None?
            && forall d' <- db.deliveries :: d' != d && db.receipts[k].deliveryId == Some(d') ==> !db.deliveries[d'].status.Running?)
    ensures !ReserveOutcome(db, d, event, k).Reserved? ==> Reserve(db, d, event, k) == db
  {
  }
}
