/** What every reachable ledger satisfies, and that every step keeps it. */
module LedgerInvariants {
  import opened Tables
  import opened LedgerOps
  import opened LedgerWorld

  /** Claims are numbered, each row knows its last one, and a running row's owner is accounted for. */
  ghost predicate TurnsOk(w: World) {
    && w.db.deliveries.Keys <= w.minted
    && w.owner.Keys <= w.minted
    && (forall d <- w.owner :: w.owner[d] < w.turn)
    && (forall c <- w.workers :: c.delivery in w.owner && c.turn <= w.owner[c.delivery])
    && (forall d <- w.db.deliveries :: w.db.deliveries[d].status.Running? ==>
          d in w.owner && (Claim(d, w.owner[d]) in w.workers || Claim(d, w.owner[d]) in w.lost))
  }

  /** A worker and the row it was claimed from. */
  ghost predicate WorkerFits(w: World, c: Claim)
    requires c in w.workers
  {
    var k := w.workers[c];
    && k.attempts >= 1
    && (c.delivery in w.db.deliveries ==>
          var row := w.db.deliveries[c.delivery];
          && k.subscriptionId == row.subscriptionId
          && k.eventId == row.eventId
          && (if Live(w, c) then row.claimedBy == Some(k.consumer) && row.attempts == k.attempts
              else k.phase.HandBack? || (row.status.Running? ==> row.claimedBy != Some(k.consumer))))
  }

  ghost predicate WorkersOk(w: World) {
    forall c <- w.workers :: WorkerFits(w, c)
  }

  /** A live worker past its reservation owns the receipt of its key. */
  ghost predicate OwnsReceipt(w: World, c: Claim)
    requires c in w.workers
  {
    var k := w.workers[c];
    k.phase.Holding? && Live(w, c) ==>
      var rk := ReceiptKey(k.subscriptionId, k.phase.key);
      rk in w.db.receipts && w.db.receipts[rk].deliveryId == Some(c.delivery)
  }

  ghost predicate HoldingsOk(w: World) {
    forall c <- w.workers :: OwnsReceipt(w, c)
  }

  ghost predicate RowsOk(db: Db) {
    && (forall d <- db.deliveries :: db.deliveries[d].status.Running? ==>
          db.deliveries[d].attempts >= 1 && db.deliveries[d].claimedAt.Some? && db.deliveries[d].claimedBy.Some?)
    && (forall d <- db.deliveries :: db.deliveries[d].status.Done? ==> db.deliveries[d].doneAt.Some?)
    && (forall s <- db.subscriptions :: db.subscriptions[s].maxAttempts >= 1)
  }

  ghost predicate TablesOk(db: Db) {
    && DeliveriesConsistent(db)
    && ReceiptsConsistent(db)
    && RowsOk(db)
    && GlobalsUnique(db.subscriptions)
  }

  ghost predicate Inv(w: World) {
    TablesOk(w.db) && TurnsOk(w) && WorkersOk(w) && HoldingsOk(w)
  }

  /** The claim's token can no longer match: the row has counted past it. */
  ghost predicate TokenSpent(w: World, c: Claim)
    requires c in w.workers
  {
    c.delivery in w.db.deliveries && !Live(w, c) ==>
      var row := w.db.deliveries[c.delivery];
      row.attempts >= w.workers[c].attempts && (row.status.Running? ==> row.attempts > w.workers[c].attempts)
  }

  /** The worker's token is its own: it still has a claim to complete or fail, or the row has counted past it. */
  ghost predicate OwnToken(w: World, c: Claim)
    requires c in w.workers
  {
    w.workers[c].phase.HandBack? ==> TokenSpent(w, c)
  }

  /** The fence opens for the claim that still owns the row, and for no other worker with a token of its own. */
  lemma FenceIsOwnership(w: World, c: Claim)
    requires Inv(w) && c in w.workers
    ensures Live(w, c) ==> FenceOpens(w, c)
    ensures OwnToken(w, c) ==> (FenceOpens(w, c) <==> Live(w, c))
  {
    assert WorkerFits(w, c);
  }

  // ---- steps that close claims ----

  /** Rows in `hit` stop running and every other row, owner and foreign receipt stays. */
  ghost predicate Closes(w: World, w': World, hit: set<DeliveryId>) {
    && w'.owner == w.owner && w'.turn == w.turn && w'.minted == w.minted && w'.lost == w.lost
    && w'.db.events == w.db.events && w'.db.subscriptions == w.db.subscriptions
    && w'.db.deliveries.Keys == w.db.deliveries.Keys
    && (forall d <- w.db.deliveries :: d !in hit ==> w'.db.deliveries[d] == w.db.deliveries[d])
    && (forall d <- hit :: d in w.db.deliveries && ClosedRow(w.db.deliveries[d], w'.db.deliveries[d]))
    && (forall c <- w'.workers :: c in w.workers && w'.workers[c] == w.workers[c])
    && (forall c <- w.workers :: c !in w'.workers && Live(w, c) ==> c.delivery in hit)
    && (forall k <- w.db.receipts ::
          w.db.receipts[k].deliveryId.Some? && w.db.receipts[k].deliveryId.value !in hit ==>
            k in w'.db.receipts && w'.db.receipts[k].deliveryId == w.db.receipts[k].deliveryId)
  }

  ghost predicate ClosedRow(row: Delivery, row': Delivery) {
    && row.status.Running? && !row'.status.Running?
    && row'.eventId == row.eventId && row'.subscriptionId == row.subscriptionId
    && (row'.status.Done? ==> row'.doneAt.Some?)
  }

  lemma ClosesKeepsRows(w: World, w': World, hit: set<DeliveryId>)
    requires Inv(w) && Closes(w, w', hit)
    ensures DeliveriesConsistent(w'.db) && RowsOk(w'.db) && TurnsOk(w')
  {
    forall d <- w'.db.deliveries
      ensures w'.db.deliveries[d].eventId == w.db.deliveries[d].eventId
      ensures w'.db.deliveries[d].subscriptionId == w.db.deliveries[d].subscriptionId
      ensures w'.db.deliveries[d].status.Running? ==> w'.db.deliveries[d] == w.db.deliveries[d]
    {
      if d in hit { assert ClosedRow(w.db.deliveries[d], w'.db.deliveries[d]); }
    }
    forall d <- w'.db.deliveries | w'.db.deliveries[d].status.Running?
      ensures d in w'.owner && (Claim(d, w'.owner[d]) in w'.workers || Claim(d, w'.owner[d]) in w'.lost)
    {
      assert d !in hit;
      assert Live(w, Claim(d, w.owner[d]));
    }
  }

  lemma ClosesKeepsWorkers(w: World, w': World, hit: set<DeliveryId>)
    requires Inv(w) && Closes(w, w', hit)
    ensures WorkersOk(w') && HoldingsOk(w')
  {
    forall c <- w'.workers
      ensures WorkerFits(w', c) && OwnsReceipt(w', c)
    {
      assert WorkerFits(w, c) && OwnsReceipt(w, c);
      if c.delivery in hit {
        assert ClosedRow(w.db.deliveries[c.delivery], w'.db.deliveries[c.delivery]);
      }
    }
  }

  lemma CompleteRowsCloses(w: World, c: Claim)
    requires Inv(w) && c in w.workers
    ensures var t := TokenOf(c, w.workers[c]);
      var w' := w.(db := CompleteRows(w.db, t), workers := w.workers - {c});
      Closes(w, w', Held(w.db, {t})) && ReceiptsConsistent(w'.db)
  {
    assert WorkerFits(w, c);
    FenceIsOwnership(w, c);
  }

  lemma WrittenReceiptFits(w: World, c: Claim, rk: ReceiptKey)
    requires Inv(w) && c in w.workers && rk.subscriptionId == w.workers[c].subscriptionId
    requires ReceiptWritable(w.db, TokenOf(c, w.workers[c]), w.workers[c].eventId, rk)
    ensures var receipts' := WriteReceipt(w.db, TokenOf(c, w.workers[c]), w.workers[c].eventId, rk);
      && ReceiptsConsistent(w.db.(receipts := receipts'))
      && (forall k <- w.db.receipts :: k in receipts' && receipts'[k].deliveryId == w.db.receipts[k].deliveryId)
  {
    assert WorkerFits(w, c);
  }

  /** A keyed completion that violates a foreign key belongs to a row that is gone. */
  lemma AbortedCompleteWasGone(w: World, c: Claim, rk: ReceiptKey)
    requires Inv(w) && c in w.workers
    requires !ReceiptWritable(w.db, TokenOf(c, w.workers[c]), w.workers[c].eventId, rk)
    ensures !Live(w, c)
  {
    assert WorkerFits(w, c);
  }

  lemma CompleteCloses(w: World, c: Claim)
    requires Inv(w) && c in w.workers
    ensures exists hit :: Closes(w, AfterComplete(w, c), hit)
    ensures ReceiptsConsistent(AfterComplete(w, c).db)
  {
    var k := w.workers[c];
    var t := TokenOf(c, k);
    var w' := AfterComplete(w, c);
    if ReceiptKeyOf(k).Some? && !ReceiptWritable(w.db, t, k.eventId, ReceiptKeyOf(k).value) {
      AbortedCompleteWasGone(w, c, ReceiptKeyOf(k).value);
      assert Closes(w, w', {});
    } else {
      CompleteRowsCloses(w, c);
      if ReceiptKeyOf(k).Some? { WrittenReceiptFits(w, c, ReceiptKeyOf(k).value); }
      assert Closes(w, w', Held(w.db, {t}));
    }
  }

  lemma FailCloses(w: World, c: Claim, random: real, minDelayMs: nat)
    requires Inv(w) && c in w.workers
    ensures exists hit :: Closes(w, AfterFail(w, c, random, minDelayMs), hit)
    ensures ReceiptsConsistent(AfterFail(w, c, random, minDelayMs).db)
  {
    assert WorkerFits(w, c);
    FenceIsOwnership(w, c);
    assert Closes(w, AfterFail(w, c, random, minDelayMs), Held(w.db, {TokenOf(c, w.workers[c])}));
  }

  lemma ReleaseCloses(w: World, turn: nat, ds: set<DeliveryId>, delayMs: nat)
    requires Inv(w) && (forall d <- ds :: Claim(d, turn) in w.workers)
    ensures exists hit :: Closes(w, AfterRelease(w, turn, ds, delayMs), hit)
    ensures ReceiptsConsistent(AfterRelease(w, turn, ds, delayMs).db)
  {
    var hit := Held(w.db, TokensOf(w, turn, ds));
    forall d <- ds ensures Live(w, Claim(d, turn)) ==> d in hit { ReleaseHits(w, turn, ds, d); }
    assert Closes(w, AfterRelease(w, turn, ds, delayMs), hit);
  }

  /** A release hits the listed rows whose fence opens, and with them those whose claim is still live. */
  lemma ReleaseHits(w: World, turn: nat, ds: set<DeliveryId>, d: DeliveryId)
    requires Inv(w) && (forall x <- ds :: Claim(x, turn) in w.workers)
    ensures d in Held(w.db, TokensOf(w, turn, ds)) <==> d in ds && FenceOpens(w, Claim(d, turn))
    ensures d in ds && Live(w, Claim(d, turn)) ==> d in Held(w.db, TokensOf(w, turn, ds))
  {
    if d in ds {
      FenceIsOwnership(w, Claim(d, turn));
      var tokens := TokensOf(w, turn, ds);
      assert TokenOf(Claim(d, turn), w.workers[Claim(d, turn)]) in tokens;
      assert forall t <- tokens :: t.delivery == d ==> t == TokenOf(Claim(d, turn), w.workers[Claim(d, turn)]);
    }
  }

  lemma RequeueCloses(w: World, staleMs: nat)
    requires Inv(w)
    ensures var w' := w.(db := LedgerOps.Requeue(w.db, staleMs));
      (exists hit :: Closes(w, w', hit)) && ReceiptsConsistent(w'.db)
  {
    var w' := w.(db := LedgerOps.Requeue(w.db, staleMs));
    assert Closes(w, w', Stale(w.db, staleMs));
  }

  lemma ClosingKeepsInv(w: World, w': World)
    requires Inv(w) && (exists hit :: Closes(w, w', hit)) && ReceiptsConsistent(w'.db)
    ensures Inv(w')
  {
    var hit :| Closes(w, w', hit);
    ClosesKeepsRows(w, w', hit);
    ClosesKeepsWorkers(w, w', hit);
  }

  // ---- the other steps ----

  /** Same rows, receipts and claims; only subscriptions, the clock or the workforce may differ. */
  ghost predicate SameLedger(w: World, w': World) {
    && w'.db.events == w.db.events && w'.db.deliveries == w.db.deliveries && w'.db.receipts == w.db.receipts
    && w'.owner == w.owner && w'.turn == w.turn && w'.minted == w.minted
    && w.db.subscriptions.Keys <= w'.db.subscriptions.Keys
    && (forall c <- w'.workers :: c in w.workers && w'.workers[c] == w.workers[c])
    && (forall c <- w.workers :: c in w'.workers || c in w'.lost)
    && w.lost <= w'.lost
  }

  lemma SameLedgerKeepsInv(w: World, w': World)
    requires Inv(w) && SameLedger(w, w')
    requires forall s <- w'.db.subscriptions :: w'.db.subscriptions[s].maxAttempts >= 1
    requires GlobalsUnique(w'.db.subscriptions)
    ensures Inv(w')
  {
    forall c <- w'.workers
      ensures WorkerFits(w', c) && OwnsReceipt(w', c)
    {
      assert WorkerFits(w, c) && OwnsReceipt(w, c);
    }
  }

  /** A made row clashes with no row that was there, and with no other made row. */
  lemma MadeRowsAreNew(db: Db, registry: map<HandlerRef, nat>, made: map<SubscriptionId, HandlerRef>, m: SubscriptionId)
    requires MakesMissing(db, registry, made) && m in made
    ensures made[m] in registry && m !in db.subscriptions
    ensures forall s <- db.subscriptions :: db.subscriptions[s].organizationId.None? ==>
              db.subscriptions[s].topic != made[m].topic || db.subscriptions[s].handler != made[m].handler
  {
    assert made[m] in made.Values;
    assert !HasGlobal(db.subscriptions, made[m]);
    assert forall s <- db.subscriptions :: !IsGlobal(db.subscriptions[s], made[m]);
  }

  lemma SyncKeepsPair(db: Db, registry: map<HandlerRef, nat>, made: map<SubscriptionId, HandlerRef>, graceMs: nat,
                      s: SubscriptionId, s': SubscriptionId)
    requires GlobalsUnique(db.subscriptions) && MakesMissing(db, registry, made)
    requires var subs := LedgerOps.Sync(db, registry, made, graceMs).subscriptions;
      && s in subs && s' in subs && subs[s].organizationId.None? && subs[s'].organizationId.None?
      && subs[s].topic == subs[s'].topic && subs[s].handler == subs[s'].handler
    ensures s == s'
  {
    if s in made { MadeRowsAreNew(db, registry, made, s); }
    if s' in made { MadeRowsAreNew(db, registry, made, s'); }
  }

  lemma SyncKeepsSubscriptions(db: Db, registry: map<HandlerRef, nat>, made: map<SubscriptionId, HandlerRef>, graceMs: nat)
    requires GlobalsUnique(db.subscriptions) && MakesMissing(db, registry, made)
    requires forall h <- registry :: registry[h] >= 1
    requires forall s <- db.subscriptions :: db.subscriptions[s].maxAttempts >= 1
    ensures var subs := LedgerOps.Sync(db, registry, made, graceMs).subscriptions;
      GlobalsUnique(subs) && forall s <- subs :: subs[s].maxAttempts >= 1
  {
    var subs := LedgerOps.Sync(db, registry, made, graceMs).subscriptions;
    forall s <- subs
      ensures subs[s].maxAttempts >= 1
    {
      if s in made { MadeRowsAreNew(db, registry, made, s); }
    }
    forall s, s' | s in subs && s' in subs && subs[s].organizationId.None? && subs[s'].organizationId.None?
                   && subs[s].topic == subs[s'].topic && subs[s].handler == subs[s'].handler
      ensures s == s'
    {
      SyncKeepsPair(db, registry, made, graceMs, s, s');
    }
  }

  /** All that fanout needs to keep the tables: known subscriptions, each once, under unused ids. */
  ghost predicate Spreads(db: Db, born: map<DeliveryId, SubscriptionId>) {
    && born.Keys !! db.deliveries.Keys
    && (forall d <- born :: born[d] in db.subscriptions)
    && (forall d, d' | d in born && d' in born && born[d] == born[d'] :: d == d')
  }

  lemma PublishKeepsPair(db: Db, id: EventId, org: Option<string>, topic: string, born: map<DeliveryId, SubscriptionId>,
                         d: DeliveryId, d': DeliveryId)
    requires DeliveriesConsistent(db) && id !in db.events && Spreads(db, born)
    requires var ds := LedgerOps.Publish(db, id, org, topic, born).deliveries;
      && d in ds && d' in ds && ds[d].eventId == ds[d'].eventId && ds[d].subscriptionId == ds[d'].subscriptionId
    ensures d == d'
  {
    if d in born { assert d' in born; } else { assert d' !in born; }
  }

  lemma PublishKeepsRows(db: Db, id: EventId, org: Option<string>, topic: string, born: map<DeliveryId, SubscriptionId>)
    requires TablesOk(db) && id !in db.events && Spreads(db, born)
    ensures var db' := LedgerOps.Publish(db, id, org, topic, born);
      RowsOk(db') && ReceiptsConsistent(db') && db'.subscriptions == db.subscriptions
  {
    var db' := LedgerOps.Publish(db, id, org, topic, born);
    assert forall d <- db.deliveries :: d !in born && db'.deliveries[d] == db.deliveries[d];
  }

  lemma PublishKeepsTables(db: Db, id: EventId, org: Option<string>, topic: string, born: map<DeliveryId, SubscriptionId>)
    requires DeliveriesConsistent(db) && id !in db.events && Spreads(db, born)
    ensures DeliveriesConsistent(LedgerOps.Publish(db, id, org, topic, born))
  {
    var db' := LedgerOps.Publish(db, id, org, topic, born);
    forall d, d' | d in db'.deliveries && d' in db'.deliveries
                   && db'.deliveries[d].eventId == db'.deliveries[d'].eventId
                   && db'.deliveries[d].subscriptionId == db'.deliveries[d'].subscriptionId
      ensures d == d'
    {
      PublishKeepsPair(db, id, org, topic, born, d, d');
    }
  }

  lemma PublishKeepsClaims(w: World, id: EventId, org: Option<string>, topic: string, born: map<DeliveryId, SubscriptionId>)
    requires Inv(w) && id !in w.db.events && born.Keys !! w.minted
    ensures var w' := AfterPublish(w, id, org, topic, born);
      TurnsOk(w') && WorkersOk(w') && HoldingsOk(w')
  {
    var w' := AfterPublish(w, id, org, topic, born);
    forall c <- w'.workers
      ensures WorkerFits(w', c) && OwnsReceipt(w', c)
    {
      assert WorkerFits(w, c) && OwnsReceipt(w, c);
      assert c.delivery !in born;
    }
  }

  lemma PublishKeepsInv(w: World, id: EventId, org: Option<string>, topic: string, born: map<DeliveryId, SubscriptionId>)
    requires Inv(w) && id !in w.db.events && OnePerListener(w.db, topic, org, born) && born.Keys !! w.minted
    ensures Inv(AfterPublish(w, id, org, topic, born))
  {
    assert forall d <- born :: born[d] in born.Values;
    PublishKeepsTables(w.db, id, org, topic, born);
    PublishKeepsRows(w.db, id, org, topic, born);
    PublishKeepsClaims(w, id, org, topic, born);
  }

  lemma TakeKeepsTables(db: Db, picked: set<DeliveryId>, consumer: string)
    requires TablesOk(db)
    ensures TablesOk(LedgerOps.Take(db, picked, consumer))
  {
  }

  lemma TakenClaimIsNew(w: World, consumer: string, picked: set<DeliveryId>, late: bool, d: DeliveryId)
    requires (forall x <- picked :: x in w.db.deliveries && w.db.deliveries[x].subscriptionId in w.db.subscriptions) && d in picked
    ensures Claim(d, w.turn) in AfterTake(w, consumer, picked, late).workers
    ensures AfterTake(w, consumer, picked, late).workers[Claim(d, w.turn)] == NewWorker(w.db, d, consumer, late)
  {
  }

  lemma TakenWorkerIsOldOrNew(w: World, consumer: string, picked: set<DeliveryId>, late: bool, c: Claim)
    requires forall x <- picked :: x in w.db.deliveries && w.db.deliveries[x].subscriptionId in w.db.subscriptions
    requires c in AfterTake(w, consumer, picked, late).workers
    ensures (c.delivery in picked && c.turn == w.turn)
            || (c in w.workers && AfterTake(w, consumer, picked, late).workers[c] == w.workers[c])
  {
  }

  lemma TakenRowHasItsOwner(w: World, consumer: string, picked: set<DeliveryId>, late: bool, d: DeliveryId)
    requires Inv(w) && d in w.db.deliveries
    requires forall x <- picked :: x in w.db.deliveries
    ensures var w' := AfterTake(w, consumer, picked, late);
      d in w'.db.deliveries && (w'.db.deliveries[d].status.Running? ==>
        d in w'.owner && (Claim(d, w'.owner[d]) in w'.workers || Claim(d, w'.owner[d]) in w'.lost))
  {
    if d in picked { TakenClaimIsNew(w, consumer, picked, late, d); }
  }

  lemma TakeKeepsTurns(w: World, consumer: string, picked: set<DeliveryId>, late: bool)
    requires Inv(w)
    requires forall d <- picked :: d in w.db.deliveries
    ensures TurnsOk(AfterTake(w, consumer, picked, late))
  {
    var w' := AfterTake(w, consumer, picked, late);
    forall d <- w.db.deliveries | w'.db.deliveries[d].status.Running?
      ensures d in w'.owner && (Claim(d, w'.owner[d]) in w'.workers || Claim(d, w'.owner[d]) in w'.lost)
    {
      TakenRowHasItsOwner(w, consumer, picked, late, d);
    }
    forall c <- w'.workers
      ensures c.delivery in w'.owner && c.turn <= w'.owner[c.delivery]
    {
      TakenWorkerIsOldOrNew(w, consumer, picked, late, c);
    }
  }

  lemma TakenRowIs(w: World, consumer: string, picked: set<DeliveryId>, late: bool, d: DeliveryId)
    requires (forall x <- picked :: x in w.db.deliveries && w.db.deliveries[x].subscriptionId in w.db.subscriptions) && d in picked
    ensures d in AfterTake(w, consumer, picked, late).db.deliveries
    ensures AfterTake(w, consumer, picked, late).db.deliveries[d] == TakenRow(w.db.deliveries[d], consumer, w.db.now)
    ensures d in AfterTake(w, consumer, picked, late).owner && AfterTake(w, consumer, picked, late).owner[d] == w.turn
  {
  }

  /** A new worker fits the row it just took, whatever else the world holds. */
  lemma NewWorkerFits(w: World, d: DeliveryId, consumer: string, late: bool, w': World, turn: nat)
    requires d in w.db.deliveries && w.db.deliveries[d].subscriptionId in w.db.subscriptions
    requires Claim(d, turn) in w'.workers && w'.workers[Claim(d, turn)] == NewWorker(w.db, d, consumer, late)
    requires d in w'.db.deliveries && w'.db.deliveries[d] == TakenRow(w.db.deliveries[d], consumer, w.db.now)
    requires d in w'.owner && w'.owner[d] == turn
    ensures WorkerFits(w', Claim(d, turn)) && OwnsReceipt(w', Claim(d, turn))
  {
  }

  lemma TakenWorkerFits(w: World, consumer: string, picked: set<DeliveryId>, late: bool, d: DeliveryId)
    requires Inv(w) && d in picked
    requires forall x <- picked :: x in w.db.deliveries && !w.db.deliveries[x].status.Running?
    ensures Claim(d, w.turn) in AfterTake(w, consumer, picked, late).workers
    ensures WorkerFits(AfterTake(w, consumer, picked, late), Claim(d, w.turn))
    ensures OwnsReceipt(AfterTake(w, consumer, picked, late), Claim(d, w.turn))
  {
    TakenClaimIsNew(w, consumer, picked, late, d);
    TakenRowIs(w, consumer, picked, late, d);
    NewWorkerFits(w, d, consumer, late, AfterTake(w, consumer, picked, late), w.turn);
  }

  lemma TakeSparesOtherWorker(w: World, consumer: string, picked: set<DeliveryId>, late: bool, c: Claim)
    requires Inv(w) && NotAtWorkOn(w, consumer, picked) && c in w.workers
    requires forall d <- picked :: d in w.db.deliveries && !w.db.deliveries[d].status.Running?
    requires c in AfterTake(w, consumer, picked, late).workers
    requires AfterTake(w, consumer, picked, late).workers[c] == w.workers[c]
    ensures WorkerFits(AfterTake(w, consumer, picked, late), c)
    ensures OwnsReceipt(AfterTake(w, consumer, picked, late), c)
  {
    assert WorkerFits(w, c) && OwnsReceipt(w, c);
    assert c.turn < w.turn;
  }

  lemma TakeKeepsWorker(w: World, consumer: string, picked: set<DeliveryId>, late: bool, c: Claim)
    requires Inv(w) && NotAtWorkOn(w, consumer, picked)
    requires forall d <- picked :: d in w.db.deliveries && !w.db.deliveries[d].status.Running?
    requires c in AfterTake(w, consumer, picked, late).workers
    ensures WorkerFits(AfterTake(w, consumer, picked, late), c)
    ensures OwnsReceipt(AfterTake(w, consumer, picked, late), c)
  {
    TakenWorkerIsOldOrNew(w, consumer, picked, late, c);
    if c.delivery in picked && c.turn == w.turn {
      TakenWorkerFits(w, consumer, picked, late, c.delivery);
    } else {
      TakeSparesOtherWorker(w, consumer, picked, late, c);
    }
  }

  lemma TakeKeepsInv(w: World, consumer: string, picked: set<DeliveryId>, late: bool)
    requires Inv(w) && NotAtWorkOn(w, consumer, picked)
    requires forall d <- picked :: d in w.db.deliveries && !w.db.deliveries[d].status.Running?
    ensures Inv(AfterTake(w, consumer, picked, late))
  {
    TakeKeepsTables(w.db, picked, consumer);
    TakeKeepsTurns(w, consumer, picked, late);
    forall c <- AfterTake(w, consumer, picked, late).workers
      ensures WorkerFits(AfterTake(w, consumer, picked, late), c)
      ensures OwnsReceipt(AfterTake(w, consumer, picked, late), c)
    {
      TakeKeepsWorker(w, consumer, picked, late, c);
    }
  }

  lemma ReplayKeepsWorker(w: World, d: DeliveryId, c: Claim)
    requires Inv(w) && c in w.workers
    ensures WorkerFits(w.(db := LedgerOps.Replay(w.db, d)), c) && OwnsReceipt(w.(db := LedgerOps.Replay(w.db, d)), c)
  {
    assert WorkerFits(w, c) && OwnsReceipt(w, c);
  }

  lemma ReplayKeepsTables(db: Db, d: DeliveryId)
    requires TablesOk(db)
    ensures TablesOk(LedgerOps.Replay(db, d))
  {
  }

  lemma ReplayKeepsInv(w: World, d: DeliveryId)
    requires Inv(w)
    ensures Inv(w.(db := LedgerOps.Replay(w.db, d)))
  {
    var w' := w.(db := LedgerOps.Replay(w.db, d));
    ReplayKeepsTables(w.db, d);
    forall c <- w'.workers
      ensures WorkerFits(w', c) && OwnsReceipt(w', c)
    {
      ReplayKeepsWorker(w, d, c);
    }
  }

  lemma ReserveKeepsInv(w: World, c: Claim, key: string)
    requires Inv(w) && c in w.workers && w.workers[c].phase.Claimed?
    ensures Inv(AfterReserve(w, c, key))
  {
    var w' := AfterReserve(w, c, key);
    assert WorkerFits(w, c);
    forall c' <- w'.workers
      ensures WorkerFits(w', c') && OwnsReceipt(w', c')
    {
      assert WorkerFits(w, c') && OwnsReceipt(w, c');
    }
  }

  lemma MissKeepsInv(w: World, c: Claim)
    requires Inv(w) && c in w.workers && w.workers[c].phase.Claimed?
    ensures Inv(AfterMiss(w, c))
  {
    var w' := AfterMiss(w, c);
    forall c' <- w'.workers
      ensures WorkerFits(w', c') && OwnsReceipt(w', c')
    {
      assert WorkerFits(w, c') && OwnsReceipt(w, c');
    }
  }

  lemma SweepDoneKeepsInv(w: World, s: Step)
    requires Inv(w) && Can(w, s) && s.SweepDone?
    ensures Inv(Do(w, s))
  {
    var w' := Do(w, s);
    forall c <- w'.workers
      ensures WorkerFits(w', c) && OwnsReceipt(w', c)
    {
      assert WorkerFits(w, c) && OwnsReceipt(w, c);
    }
  }

  lemma SweepEventsKeepsInv(w: World, s: Step)
    requires Inv(w) && Can(w, s) && s.SweepEvents?
    ensures Inv(Do(w, s))
  {
    var w' := Do(w, s);
    forall c <- w'.workers
      ensures WorkerFits(w', c) && OwnsReceipt(w', c)
    {
      assert WorkerFits(w, c) && OwnsReceipt(w, c);
    }
  }

  /** Steps that touch no row and no receipt. */
  predicate Quiet(s: Step) {
    s.Sync? || s.AddWebhook? || s.DropWebhook? || s.Abandon? || s.Crash? || s.Pass?
  }

  lemma QuietStepKeepsInv(w: World, s: Step)
    requires Inv(w) && Can(w, s) && Quiet(s)
    ensures SameLedger(w, Do(w, s)) && Inv(Do(w, s))
  {
    if s.Sync? { SyncKeepsSubscriptions(w.db, s.registry, s.made, s.graceMs); }
    SameLedgerKeepsInv(w, Do(w, s));
  }

  lemma ClosingStepKeepsInv(w: World, s: Step)
    requires Inv(w) && Can(w, s) && (s.Complete? || s.Fail? || s.Release? || s.Requeue?)
    ensures (exists hit :: Closes(w, Do(w, s), hit)) && Inv(Do(w, s))
  {
    match s {
      case Complete(c) => CompleteCloses(w, c);
      case Fail(c, random, minDelayMs) => FailCloses(w, c, random, minDelayMs);
      case Release(turn, ds, delayMs) => ReleaseCloses(w, turn, ds, delayMs);
      case Requeue(staleMs) => RequeueCloses(w, staleMs);
    }
    ClosingKeepsInv(w, Do(w, s));
  }

  /** Every step, of whatever kind, keeps every invariant. */
  lemma StepKeepsInv(w: World, s: Step)
    requires Inv(w) && Can(w, s)
    ensures Inv(Do(w, s))
  {
    if Quiet(s) {
      QuietStepKeepsInv(w, s);
    } else if s.Complete? || s.Fail? || s.Release? || s.Requeue? {
      ClosingStepKeepsInv(w, s);
    } else {
      match s
      case Publish(id, org, topic, born) =>
        if id !in w.db.events { PublishKeepsInv(w, id, org, topic, born); } else { assert Do(w, s) == w; }
      case Take(consumer, picked, _, _, late) => TakeKeepsInv(w, consumer, picked, late);
      case Reserve(c, key) => ReserveKeepsInv(w, c, key);
      case Misses(c) => MissKeepsInv(w, c);
      case Replay(d) => ReplayKeepsInv(w, d);
      case SweepDone(_, _) => SweepDoneKeepsInv(w, s);
      case SweepEvents(_, _) => SweepEventsKeepsInv(w, s);
    }
  }

  lemma {:induction false} RunKeepsInv(w: World, steps: seq<Step>)
    requires Inv(w) && Legal(w, steps)
    ensures Inv(Run(w, steps))
    decreases |steps|
  {
    if steps != [] {
      var n := |steps| - 1;
      RunKeepsInv(w, steps[..n]);
      StepKeepsInv(Run(w, steps[..n]), steps[n]);
    }
  }
}
