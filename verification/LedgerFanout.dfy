/** Fanout: who gets a delivery, when deliveries leave, and what a rolling deploy cannot lose. */
module LedgerFanout {
  import opened Tables
  import opened LedgerOps
  import opened LedgerWorld

  /** Every delivery has an id that was minted for it. A table fact: no claim, fence or replay bears on it. */
  ghost predicate Minted(w: World) { w.db.deliveries.Keys <= w.minted }

  lemma StepKeepsMinted(w: World, s: Step)
    requires Minted(w) && Can(w, s)
    ensures Minted(Do(w, s))
  {
    if !s.Publish? { OnlyPublishCreates(w, s); }
  }

  lemma {:induction false} RunKeepsMinted(w: World, steps: seq<Step>)
    requires Minted(w) && Legal(w, steps)
    ensures Minted(Run(w, steps))
    decreases |steps|
  {
    if steps != [] {
      var n := |steps| - 1;
      RunKeepsMinted(w, steps[..n]);
      StepKeepsMinted(Run(w, steps[..n]), steps[n]);
    }
  }

  /** A delivery of the subscription that was not there before. */
  ghost predicate NewFor(was: Db, db: Db, d: DeliveryId, sub: SubscriptionId) {
    d in db.deliveries && d !in was.deliveries && db.deliveries[d].subscriptionId == sub
  }

  /**
   * Publishing a new event adds one delivery, pending and due, for each active
   * subscription of its topic that is global or of the event's own
   * organization, and none for any other.
   */
  lemma PublishFansOutOnce(w: World, s: Step)
    requires Minted(w) && Can(w, s) && s.Publish? && s.id !in w.db.events
    ensures var db := w.db; var db' := Do(w, s).db;
      && db'.events == db.events[s.id := Event(s.org, s.topic, db.now)]
      && (forall d <- db.deliveries :: d in db'.deliveries && db'.deliveries[d] == db.deliveries[d])
      && (forall d, sub :: NewFor(db, db', d, sub) ==>
            && db'.deliveries[d] == Delivery(s.id, sub, Status.Pending, 0, db.now, None, None, None)
            && sub in db.subscriptions && db.subscriptions[sub].active && db.subscriptions[sub].topic == s.topic
            && (db.subscriptions[sub].organizationId == None || db.subscriptions[sub].organizationId == s.org))
      && (forall sub <- db.subscriptions ::
            db.subscriptions[sub].active && db.subscriptions[sub].topic == s.topic
            && (db.subscriptions[sub].organizationId == None || db.subscriptions[sub].organizationId == s.org)
            ==> exists d :: NewFor(db, db', d, sub))
      && (forall d, d', sub :: NewFor(db, db', d, sub) && NewFor(db, db', d', sub) ==> d == d')
  {
    var db' := Do(w, s).db;
    forall d <- s.born
      ensures d !in w.db.deliveries && s.born[d] in Audience(w.db, s.topic, s.org)
      ensures d in db'.deliveries && db'.deliveries[d] == FreshDelivery(s.id, s.born[d], w.db.now)
    {
      assert s.born[d] in s.born.Values;
    }
    forall d, sub | NewFor(w.db, db', d, sub) ensures d in s.born && s.born[d] == sub {}
    forall sub <- w.db.subscriptions | w.db.subscriptions[sub].active && w.db.subscriptions[sub].topic == s.topic
        && (w.db.subscriptions[sub].organizationId == None || w.db.subscriptions[sub].organizationId == s.org)
      ensures exists d :: NewFor(w.db, db', d, sub)
    {
      assert sub in Audience(w.db, s.topic, s.org);
      assert sub in s.born.Values;
      var d :| d in s.born && s.born[d] == sub;
      assert NewFor(w.db, db', d, sub);
    }
  }

  /** Publishing an id that is already there changes nothing. */
  lemma RepublishAddsNothing(w: World, s: Step)
    requires Can(w, s) && s.Publish? && s.id in w.db.events
    ensures Do(w, s) == w
  {
  }

  /** No step but a publish creates a delivery. */
  lemma OnlyPublishCreates(w: World, s: Step)
    requires Can(w, s) && !s.Publish?
    ensures Do(w, s).db.deliveries.Keys <= w.db.deliveries.Keys
  {
  }

  ghost predicate MayLeave(w: World, d: DeliveryId)
    requires d in w.db.deliveries
  {
    var row := w.db.deliveries[d];
    row.status.Done? || row.status.Dead?
    || row.subscriptionId !in w.db.subscriptions || !w.db.subscriptions[row.subscriptionId].active
  }

  lemma SweptEventHadNoneLeft(w: World, d: DeliveryId, days: nat)
    requires d in w.db.deliveries && ExpiredEvent(w.db, w.db.deliveries[d].eventId, days)
    ensures MayLeave(w, d)
  {
    assert !HeldBack(w.db, d, w.db.deliveries[d].eventId);
  }

  lemma OnlySweepsRemove(w: World, s: Step, d: DeliveryId)
    requires Can(w, s) && d in w.db.deliveries && d !in Do(w, s).db.deliveries
    ensures (s.SweepDone? && d in s.done) || (s.SweepEvents? && w.db.deliveries[d].eventId in s.aged)
  {
  }

  /** A delivery of an active subscription leaves the table only from done or dead. */
  lemma OnlyFinishedLeaves(w: World, s: Step, d: DeliveryId)
    requires Can(w, s) && d in w.db.deliveries && d !in Do(w, s).db.deliveries
    ensures MayLeave(w, d)
  {
    OnlySweepsRemove(w, s, d);
    if s.SweepDone? {
      assert ExpiredDone(w.db, d, s.days);
    } else {
      SweptEventHadNoneLeft(w, d, s.days);
    }
  }

  /**
   * And only when old enough: a finished delivery by when it was done, one
   * swept with its event by when that was published.
   */
  lemma OnlyOldLeaves(w: World, s: Step, d: DeliveryId)
    requires Can(w, s) && d in w.db.deliveries && d !in Do(w, s).db.deliveries
    ensures var row := w.db.deliveries[d];
      if s.SweepDone? then row.doneAt.Some? && row.doneAt.value + s.days * 86_400_000 < w.db.now
      else s.SweepEvents? && row.eventId in w.db.events && w.db.events[row.eventId].createdAt + s.days * 86_400_000 < w.db.now
  {
    OnlySweepsRemove(w, s, d);
    if s.SweepDone? { assert ExpiredDone(w.db, d, s.days); } else { assert ExpiredEvent(w.db, w.db.deliveries[d].eventId, s.days); }
  }

  /** Step `i` of the run removed `d`, which might leave by then. */
  ghost predicate LeftAt(w: World, steps: seq<Step>, d: DeliveryId, i: nat) {
    && i < |steps| && Legal(w, steps[..i]) && Legal(w, steps[..i + 1])
    && d in Run(w, steps[..i]).db.deliveries && d !in Run(w, steps[..i + 1]).db.deliveries
    && MayLeave(Run(w, steps[..i]), d)
  }

  lemma LeftEarlier(w: World, steps: seq<Step>, d: DeliveryId, n: nat, i: nat)
    requires n <= |steps| && LeftAt(w, steps[..n], d, i)
    ensures LeftAt(w, steps, d, i)
  {
    assert steps[..n][..i] == steps[..i] && steps[..n][..i + 1] == steps[..i + 1];
  }

  /** Over a run: whatever vanished did so at a step before which it was finished, or its subscription inactive. */
  lemma {:induction false} NothingUnfinishedVanishes(w: World, steps: seq<Step>, d: DeliveryId)
    requires Legal(w, steps)
    requires d in w.db.deliveries && d !in Run(w, steps).db.deliveries
    ensures exists i :: LeftAt(w, steps, d, i)
    decreases |steps|
  {
    if steps != [] {
      var n := |steps| - 1;
      var before := Run(w, steps[..n]);
      if d in before.db.deliveries {
        OnlyFinishedLeaves(before, steps[n], d);
        assert steps[..n + 1] == steps;
        assert LeftAt(w, steps, d, n);
      } else {
        NothingUnfinishedVanishes(w, steps[..n], d);
        var i :| LeftAt(w, steps[..n], d, i);
        LeftEarlier(w, steps, d, n, i);
      }
    }
  }

  // ---- rolling deploys ----

  /** The handler's row is active and was declared no earlier than `since`. */
  ghost predicate SeenSince(db: Db, h: HandlerRef, sub: SubscriptionId, since: Time) {
    && sub in db.subscriptions
    && IsGlobal(db.subscriptions[sub], h)
    && db.subscriptions[sub].active
    && since <= db.subscriptions[sub].updatedAt
  }

  lemma SyncDeclares(w: World, s: Step, h: HandlerRef) returns (sub: SubscriptionId)
    requires Can(w, s) && s.Sync? && h in s.registry
    ensures SeenSince(Do(w, s).db, h, sub, w.db.now)
  {
    if h in s.made.Values {
      sub :| sub in s.made && s.made[sub] == h;
    } else {
      assert HasGlobal(w.db.subscriptions, h);
      sub :| sub in w.db.subscriptions && IsGlobal(w.db.subscriptions[sub], h);
      assert sub !in s.made;
    }
  }

  lemma StepKeepsDeclared(w: World, s: Step, h: HandlerRef, sub: SubscriptionId, since: Time, graceMs: nat)
    requires Can(w, s) && SeenSince(w.db, h, sub, since) && since <= w.db.now <= since + graceMs
    requires s.Sync? ==> s.graceMs >= graceMs
    ensures SeenSince(Do(w, s).db, h, sub, since)
  {
    if s.Sync? { assert sub !in s.made; }
  }

  lemma ClockOnlyAdvances(w: World, s: Step)
    requires Can(w, s)
    ensures w.db.now <= Do(w, s).db.now
  {
  }

  /** No boot inside the grace window, whatever its registry, deactivates a handler some pod declared. */
  lemma {:induction false} DeclaredHandlerStaysActive(
    w: World, steps: seq<Step>, h: HandlerRef, sub: SubscriptionId, since: Time, graceMs: nat)
    requires Legal(w, steps) && SeenSince(w.db, h, sub, since) && since <= w.db.now
    requires forall s <- steps :: s.Sync? ==> s.graceMs >= graceMs
    requires Run(w, steps).db.now <= since + graceMs
    ensures SeenSince(Run(w, steps).db, h, sub, since)
    ensures w.db.now <= Run(w, steps).db.now
    decreases |steps|
  {
    if steps != [] {
      var n := |steps| - 1;
      var before := Run(w, steps[..n]);
      ClockOnlyAdvances(before, steps[n]);
      assert steps[n] in steps;
      DeclaredHandlerStaysActive(w, steps[..n], h, sub, since, graceMs);
      StepKeepsDeclared(before, steps[n], h, sub, since, graceMs);
    }
  }

  /**
   * Rolling-deploy safety: after some pod's boot sync declared `h`, every
   * matching event published within the grace window, over any schedule of
   * other pods' boots, gets a delivery for it. That a pod whose registry
   * lacks `h` does not claim it is PodsClaimOnlyWhatTheyCanRun.
   */
  lemma RollingDeployLosesNothing(
    w: World, boot: Step, steps: seq<Step>, h: HandlerRef, graceMs: nat, publish: Step)
    requires Minted(w) && Can(w, boot) && boot.Sync? && h in boot.registry
    requires Legal(Do(w, boot), steps)
    requires forall s <- steps :: s.Sync? ==> s.graceMs >= graceMs
    requires Run(Do(w, boot), steps).db.now <= w.db.now + graceMs
    requires var later := Run(Do(w, boot), steps);
      Can(later, publish) && publish.Publish? && publish.id !in later.db.events && publish.topic == h.topic
    ensures var later := Run(Do(w, boot), steps); var db := Do(later, publish).db;
      exists d ::
        && d in db.deliveries && d !in later.db.deliveries && db.deliveries[d].eventId == publish.id
        && db.deliveries[d].subscriptionId in db.subscriptions
        && IsGlobal(db.subscriptions[db.deliveries[d].subscriptionId], h)
  {
    var later := Run(Do(w, boot), steps);
    var sub := SyncDeclares(w, boot, h);
    DeclaredHandlerStaysActive(Do(w, boot), steps, h, sub, w.db.now, graceMs);
    StepKeepsMinted(w, boot);
    RunKeepsMinted(Do(w, boot), steps);
    PublishFansOutOnce(later, publish);
    var db := Do(later, publish).db;
    var d :| NewFor(later.db, db, d, sub);
    assert db.deliveries[d].eventId == publish.id;
  }

  // ---- pods with different registries ----

  /** The claim is made with handlers its own pod has registered by then; `pods` says which it ever has. */
  predicate OwnClaim(s: Step, pods: string -> set<HandlerRef>) {
    s.Take? ==> s.filter.runnable.Some? && s.filter.runnable.value <= pods(s.consumer)
  }

  predicate OwnClaims(steps: seq<Step>, pods: string -> set<HandlerRef>) { forall s <- steps :: OwnClaim(s, pods) }

  /** The consumer may run deliveries of the subscription. */
  ghost predicate CanServe(db: Db, sub: SubscriptionId, consumer: string, pods: string -> set<HandlerRef>) {
    && sub in db.subscriptions
    && var row := db.subscriptions[sub];
    row.kind.Handler? ==> HandlerRef(row.topic, row.handler) in pods(consumer)
  }

  /** A delivery's event has its subscription's topic, and its organization unless the subscription is global. */
  ghost predicate Addressed(db: Db, d: DeliveryId)
    requires d in db.deliveries
  {
    var row := db.deliveries[d];
    && row.eventId in db.events && row.subscriptionId in db.subscriptions
    && db.events[row.eventId].topic == db.subscriptions[row.subscriptionId].topic
    && (db.subscriptions[row.subscriptionId].organizationId == None
        || db.subscriptions[row.subscriptionId].organizationId == db.events[row.eventId].organizationId)
  }

  /** It is addressed rightly, and the pod that claimed it last has its handler. */
  ghost predicate RowInGoodHands(db: Db, d: DeliveryId, pods: string -> set<HandlerRef>)
    requires d in db.deliveries
  {
    var row := db.deliveries[d];
    && Addressed(db, d)
    && (row.claimedBy.Some? ==> CanServe(db, row.subscriptionId, row.claimedBy.value, pods))
  }

  ghost predicate InGoodHands(w: World, pods: string -> set<HandlerRef>) {
    && (forall d <- w.db.deliveries :: RowInGoodHands(w.db, d, pods))
    && (forall c <- w.workers :: CanServe(w.db, w.workers[c].subscriptionId, w.workers[c].consumer, pods))
  }

  /** Subscriptions keep their topic, handler, kind and organization, and events their topic and organization. */
  ghost predicate SameIdentities(db: Db, after: Db) {
    && (forall s <- db.subscriptions ::
          && s in after.subscriptions && after.subscriptions[s].topic == db.subscriptions[s].topic
          && after.subscriptions[s].handler == db.subscriptions[s].handler
          && after.subscriptions[s].kind == db.subscriptions[s].kind
          && after.subscriptions[s].organizationId == db.subscriptions[s].organizationId)
    && (forall e :: e in db.events && e in after.events ==>
          after.events[e].topic == db.events[e].topic && after.events[e].organizationId == db.events[e].organizationId)
  }

  /** The row was there, and has not been claimed since. */
  ghost predicate NotReclaimed(db: Db, after: Db, d: DeliveryId)
    requires d in after.deliveries
  {
    && d in db.deliveries
    && after.deliveries[d].eventId == db.deliveries[d].eventId && after.deliveries[d].eventId in after.events
    && after.deliveries[d].subscriptionId == db.deliveries[d].subscriptionId
    && (after.deliveries[d].claimedBy.Some? ==> after.deliveries[d].claimedBy == db.deliveries[d].claimedBy)
  }

  predicate ChangesSubscriptions(s: Step) { s.Sync? || s.AddWebhook? || s.DropWebhook? }

  lemma OnlyFourKindsReachBeyondRows(w: World, s: Step)
    requires Can(w, s)
    ensures !ChangesSubscriptions(s) ==> Do(w, s).db.subscriptions == w.db.subscriptions
    ensures ChangesSubscriptions(s) ==> Do(w, s).db.deliveries == w.db.deliveries && Do(w, s).db.events == w.db.events
    ensures !s.Publish? && !s.SweepEvents? ==> Do(w, s).db.events == w.db.events
  {
  }

  lemma SyncKeepsIdentities(w: World, s: Step)
    requires Can(w, s) && s.Sync?
    ensures SameIdentities(w.db, Do(w, s).db)
  {
  }

  lemma SubscriptionsStay(w: World, s: Step)
    requires Can(w, s) && ChangesSubscriptions(s)
    ensures SameIdentities(w.db, Do(w, s).db)
  {
    if s.Sync? { SyncKeepsIdentities(w, s); }
  }

  lemma IdentitiesStay(w: World, s: Step)
    requires Can(w, s)
    ensures SameIdentities(w.db, Do(w, s).db)
  {
    OnlyFourKindsReachBeyondRows(w, s);
    if ChangesSubscriptions(s) { SubscriptionsStay(w, s); }
  }

  predicate WritesRows(s: Step) { s.Complete? || s.Fail? || s.Release? || s.Requeue? || s.Replay? }

  lemma WritesDoNotReclaim(w: World, s: Step, d: DeliveryId)
    requires Can(w, s) && WritesRows(s) && d in w.db.deliveries && w.db.deliveries[d].eventId in w.db.events
    ensures d in Do(w, s).db.deliveries && NotReclaimed(w.db, Do(w, s).db, d)
  {
  }

  /** Every step but a claim leaves each row with its claimer, or with none. */
  lemma OnlyTakeReclaims(w: World, s: Step, d: DeliveryId)
    requires Minted(w) && Can(w, s) && !s.Take? && d in w.db.deliveries && w.db.deliveries[d].eventId in w.db.events
    ensures d in Do(w, s).db.deliveries ==> NotReclaimed(w.db, Do(w, s).db, d)
  {
    OnlyFourKindsReachBeyondRows(w, s);
    if WritesRows(s) { WritesDoNotReclaim(w, s, d); }
    else if s.Publish? { assert d in w.minted && (s.id in w.db.events || d !in s.born); }
    else if s.SweepEvents? { assert d in Do(w, s).db.deliveries ==> w.db.deliveries[d].eventId !in s.aged; }
  }

  lemma OnlyTakeHires(w: World, s: Step)
    requires Can(w, s) && !s.Take?
    ensures forall c <- Do(w, s).workers ::
      && c in w.workers && Do(w, s).workers[c].consumer == w.workers[c].consumer
      && Do(w, s).workers[c].subscriptionId == w.workers[c].subscriptionId
  {
  }

  lemma KeptRowIsInGoodHands(db: Db, after: Db, d: DeliveryId, pods: string -> set<HandlerRef>)
    requires d in db.deliveries && RowInGoodHands(db, d, pods)
    requires d in after.deliveries && NotReclaimed(db, after, d) && SameIdentities(db, after)
    ensures RowInGoodHands(after, d, pods)
  {
  }

  lemma BornAddressed(w: World, s: Step, d: DeliveryId)
    requires Minted(w) && Can(w, s) && d in Do(w, s).db.deliveries && d !in w.db.deliveries
    ensures Addressed(Do(w, s).db, d) && Do(w, s).db.deliveries[d].claimedBy.None?
  {
    if !s.Publish? { OnlyPublishCreates(w, s); assert false; }
    PublishFansOutOnce(w, s);
    assert NewFor(w.db, Do(w, s).db, d, Do(w, s).db.deliveries[d].subscriptionId);
  }

  // ---- tenants ----

  lemma StepKeepsAddressed(w: World, s: Step, d: DeliveryId)
    requires Minted(w) && Can(w, s) && d in Do(w, s).db.deliveries
    requires d in w.db.deliveries ==> Addressed(w.db, d)
    ensures Addressed(Do(w, s).db, d)
  {
    IdentitiesStay(w, s);
    if d !in w.db.deliveries { BornAddressed(w, s, d); }
    else if s.Take? { TakeKeepsAddress(w, s, d); }
    else { OnlyTakeReclaims(w, s, d); }
  }

  lemma TakeKeepsAddress(w: World, s: Step, d: DeliveryId)
    requires Can(w, s) && s.Take? && d in w.db.deliveries && Addressed(w.db, d)
    ensures d in Do(w, s).db.deliveries && Addressed(Do(w, s).db, d)
  {
  }

  lemma {:induction false} EveryDeliveryIsAddressed(steps: seq<Step>, d: DeliveryId)
    requires Legal(Empty, steps) && d in Run(Empty, steps).db.deliveries
    ensures Addressed(Run(Empty, steps).db, d)
    decreases |steps|
  {
    if steps != [] {
      var n := |steps| - 1;
      if d in Run(Empty, steps[..n]).db.deliveries { EveryDeliveryIsAddressed(steps[..n], d); }
      RunKeepsMinted(Empty, steps[..n]);
      StepKeepsAddressed(Run(Empty, steps[..n]), steps[n], d);
    }
  }

  /**
   * Over every run, whatever is published, claimed, replayed, synced or swept:
   * no organization's subscription ever has a delivery of another organization's event.
   */
  lemma NoEventLeavesItsOrganization(steps: seq<Step>, d: DeliveryId)
    requires Legal(Empty, steps) && d in Run(Empty, steps).db.deliveries
    ensures var db := Run(Empty, steps).db; var row := db.deliveries[d];
      && row.eventId in db.events && row.subscriptionId in db.subscriptions
      && (db.subscriptions[row.subscriptionId].organizationId.Some? ==>
            db.events[row.eventId].organizationId == db.subscriptions[row.subscriptionId].organizationId)
      && db.events[row.eventId].topic == db.subscriptions[row.subscriptionId].topic
  {
    EveryDeliveryIsAddressed(steps, d);
  }

  // ---- webhooks that are switched off ----

  /** A webhook is off, its deliveries are among those it had, and none was claimed since. */
  ghost predicate Silent(was: Db, db: Db, sub: SubscriptionId) {
    && sub in db.subscriptions && !db.subscriptions[sub].active
    && db.subscriptions[sub].kind == Webhook && db.subscriptions[sub].organizationId != None
    && forall d <- db.deliveries :: db.deliveries[d].subscriptionId == sub ==>
         d in was.deliveries && (db.deliveries[d].claimedBy == None || db.deliveries[d].claimedBy == was.deliveries[d].claimedBy)
  }

  lemma OffStaysOff(w: World, s: Step, sub: SubscriptionId)
    requires Can(w, s) && sub in w.db.subscriptions && !w.db.subscriptions[sub].active
    requires w.db.subscriptions[sub].kind == Webhook && w.db.subscriptions[sub].organizationId != None
    ensures sub in Do(w, s).db.subscriptions && !Do(w, s).db.subscriptions[sub].active
  {
    OnlyFourKindsReachBeyondRows(w, s);
    if s.Sync? { assert sub !in s.made; }
  }

  lemma TakeSparesOff(w: World, s: Step, d: DeliveryId)
    requires Can(w, s) && s.Take? && d in w.db.deliveries && w.db.deliveries[d].subscriptionId in w.db.subscriptions
    requires !w.db.subscriptions[w.db.deliveries[d].subscriptionId].active
    ensures d in Do(w, s).db.deliveries && Do(w, s).db.deliveries[d] == w.db.deliveries[d]
  {
    assert d in s.picked ==> Claimable(w.db, d, s.filter);
  }

  lemma NothingBornForOff(w: World, s: Step, d: DeliveryId)
    requires Minted(w) && Can(w, s) && d in Do(w, s).db.deliveries && d !in w.db.deliveries
    ensures var sub := Do(w, s).db.deliveries[d].subscriptionId; sub in w.db.subscriptions && w.db.subscriptions[sub].active
  {
    if !s.Publish? { OnlyPublishCreates(w, s); assert false; }
    PublishFansOutOnce(w, s);
    assert NewFor(w.db, Do(w, s).db, d, Do(w, s).db.deliveries[d].subscriptionId);
  }

  lemma StepKeepsSilent(was: Db, w: World, s: Step, sub: SubscriptionId)
    requires Minted(w) && (forall d <- w.db.deliveries :: Addressed(w.db, d)) && Can(w, s) && Silent(was, w.db, sub)
    ensures Silent(was, Do(w, s).db, sub)
  {
    var after := Do(w, s).db;
    IdentitiesStay(w, s);
    OffStaysOff(w, s, sub);
    forall d <- after.deliveries | after.deliveries[d].subscriptionId == sub
      ensures d in w.db.deliveries && w.db.deliveries[d].subscriptionId == sub
      ensures after.deliveries[d].claimedBy == None || after.deliveries[d].claimedBy == w.db.deliveries[d].claimedBy
    {
      if d !in w.db.deliveries { NothingBornForOff(w, s, d); }
      else if s.Take? { RowsKeepTheirSubscription(w, s, d); TakeSparesOff(w, s, d); }
      else { assert Addressed(w.db, d); OnlyTakeReclaims(w, s, d); }
    }
  }

  lemma RowsKeepTheirSubscription(w: World, s: Step, d: DeliveryId)
    requires Can(w, s) && s.Take? && d in w.db.deliveries
    ensures d in Do(w, s).db.deliveries && Do(w, s).db.deliveries[d].subscriptionId == w.db.deliveries[d].subscriptionId
  {
  }

  lemma DropSilences(w: World, sub: SubscriptionId)
    requires Can(w, Step.DropWebhook(sub))
    ensures Silent(w.db, Do(w, Step.DropWebhook(sub)).db, sub)
  {
  }

  /**
   * Over every run: once a webhook is switched off it gets no further delivery
   * and none that it has is claimed again, whatever is published, replayed or booted.
   */
  lemma {:induction false} DroppedWebhookIsSilent(before: seq<Step>, sub: SubscriptionId, after: seq<Step>)
    requires Legal(Empty, before) && Can(Run(Empty, before), Step.DropWebhook(sub))
    requires Legal(Empty, before + [Step.DropWebhook(sub)] + after)
    ensures Silent(Run(Empty, before).db, Run(Empty, before + [Step.DropWebhook(sub)] + after).db, sub)
    decreases |after|
  {
    var drop := [Step.DropWebhook(sub)];
    var all := before + drop + after;
    if after == [] {
      assert all[..|all| - 1] == before && all[|all| - 1] == drop[0];
      DropSilences(Run(Empty, before), sub);
    } else {
      var n := |after| - 1;
      assert all[..|all| - 1] == before + drop + after[..n] && all[|all| - 1] == after[n];
      DroppedWebhookIsSilent(before, sub, after[..n]);
      var w := Run(Empty, before + drop + after[..n]);
      RunKeepsMinted(Empty, before + drop + after[..n]);
      forall d <- w.db.deliveries ensures Addressed(w.db, d) { EveryDeliveryIsAddressed(before + drop + after[..n], d); }
      StepKeepsSilent(Run(Empty, before).db, w, after[n], sub);
    }
  }

  // ---- pods again ----

  lemma BornInGoodHands(w: World, s: Step, d: DeliveryId, pods: string -> set<HandlerRef>)
    requires Minted(w) && Can(w, s) && d in Do(w, s).db.deliveries && d !in w.db.deliveries
    ensures RowInGoodHands(Do(w, s).db, d, pods)
  {
    BornAddressed(w, s, d);
  }

  lemma OtherStepsKeepGoodHands(w: World, s: Step, pods: string -> set<HandlerRef>)
    requires Minted(w) && InGoodHands(w, pods) && Can(w, s) && !s.Take?
    ensures InGoodHands(Do(w, s), pods)
  {
    var after := Do(w, s);
    IdentitiesStay(w, s);
    OnlyTakeHires(w, s);
    forall d <- after.db.deliveries ensures RowInGoodHands(after.db, d, pods) {
      if d in w.db.deliveries {
        assert RowInGoodHands(w.db, d, pods);
        OnlyTakeReclaims(w, s, d);
        KeptRowIsInGoodHands(w.db, after.db, d, pods);
      } else {
        BornInGoodHands(w, s, d, pods);
      }
    }
  }

  lemma TakeKeepsRow(w: World, s: Step, d: DeliveryId, pods: string -> set<HandlerRef>)
    requires InGoodHands(w, pods) && Can(w, s) && s.Take? && OwnClaim(s, pods) && d in w.db.deliveries
    ensures d in Do(w, s).db.deliveries && RowInGoodHands(Do(w, s).db, d, pods)
    ensures d in s.picked ==> CanServe(w.db, w.db.deliveries[d].subscriptionId, s.consumer, pods)
  {
    assert RowInGoodHands(w.db, d, pods);
    if d in s.picked { assert Claimable(w.db, d, s.filter); }
  }

  lemma TakeHiresOwn(w: World, s: Step, c: Claim, pods: string -> set<HandlerRef>)
    requires InGoodHands(w, pods) && Can(w, s) && s.Take? && OwnClaim(s, pods) && c in Do(w, s).workers
    ensures CanServe(w.db, Do(w, s).workers[c].subscriptionId, Do(w, s).workers[c].consumer, pods)
  {
    if c.delivery in s.picked && c.turn == w.turn { TakeKeepsRow(w, s, c.delivery, pods); }
  }

  lemma TakeKeepsGoodHands(w: World, s: Step, pods: string -> set<HandlerRef>)
    requires InGoodHands(w, pods) && Can(w, s) && s.Take? && OwnClaim(s, pods)
    ensures InGoodHands(Do(w, s), pods)
  {
    var after := Do(w, s);
    assert after.db.subscriptions == w.db.subscriptions;
    forall d <- after.db.deliveries ensures RowInGoodHands(after.db, d, pods) { TakeKeepsRow(w, s, d, pods); }
    forall c <- after.workers ensures CanServe(after.db, after.workers[c].subscriptionId, after.workers[c].consumer, pods) {
      TakeHiresOwn(w, s, c, pods);
    }
  }

  /**
   * Pods with different registries share the ledger: over every run in which
   * each claims with its own, every handler delivery is claimed only by pods
   * that have its handler, and only such pods are at work on one.
   */
  lemma {:induction false} PodsClaimOnlyWhatTheyCanRun(steps: seq<Step>, pods: string -> set<HandlerRef>)
    requires Legal(Empty, steps) && OwnClaims(steps, pods)
    ensures InGoodHands(Run(Empty, steps), pods)
    decreases |steps|
  {
    if steps != [] {
      var n := |steps| - 1;
      var before := Run(Empty, steps[..n]);
      PodsClaimOnlyWhatTheyCanRun(steps[..n], pods);
      RunKeepsMinted(Empty, steps[..n]);
      assert steps[n] in steps;
      if steps[n].Take? { TakeKeepsGoodHands(before, steps[n], pods); }
      else { OtherStepsKeepGoodHands(before, steps[n], pods); }
    }
  }
}
