/** How a claim call, with its timer, appears in the shared ledger: as one claim step, or as none. */
module ClaimCalls {
  import opened Tables
  import opened LedgerOps
  import opened LedgerWorld
  import Race = ClaimRace

  /** The ledger after a settled call that would claim `picked`: its claim step, or nothing if it rolled back. */
  function AfterCall(w: World, c: Race.Call, consumer: string, picked: set<DeliveryId>): World
    requires forall d <- picked :: d in w.db.deliveries && w.db.deliveries[d].subscriptionId in w.db.subscriptions
  {
    if c.tx.Committed? then AfterTake(w, consumer, picked, c.timedOut) else w
  }

  /** The rows just claimed are only ever handed back. */
  ghost predicate OnlyHandedBack(w: World, turn: nat, picked: set<DeliveryId>) {
    && Can(w, Step.Release(turn, picked, 0))
    && forall d <- picked ::
         && !Can(w, Step.Complete(Claim(d, turn)))
         && (forall key :: !Can(w, Step.Reserve(Claim(d, turn), key)))
         && (forall random, ms :: !Can(w, Step.Fail(Claim(d, turn), random, ms)))
  }

  lemma TakenIsThere(w: World, consumer: string, picked: set<DeliveryId>, late: bool, d: DeliveryId)
    requires forall x <- picked :: x in w.db.deliveries && w.db.deliveries[x].subscriptionId in w.db.subscriptions
    requires d in picked
    ensures var after := AfterTake(w, consumer, picked, late);
      && Claim(d, w.turn) in after.workers
      && after.workers[Claim(d, w.turn)].phase == if late then HandBack else Phase.Claimed
  {
  }

  /** Every claim of the rows is a hand-back. */
  ghost predicate AllHandBacks(w: World, turn: nat, picked: set<DeliveryId>) {
    forall d <- picked :: Claim(d, turn) in w.workers && w.workers[Claim(d, turn)].phase.HandBack?
  }

  lemma HandBacksAreOnlyHandedBack(w: World, turn: nat, picked: set<DeliveryId>)
    requires AllHandBacks(w, turn, picked)
    ensures OnlyHandedBack(w, turn, picked)
  {
  }

  lemma LateTakeIsOnlyHandedBack(w: World, consumer: string, picked: set<DeliveryId>)
    requires forall x <- picked :: x in w.db.deliveries && w.db.deliveries[x].subscriptionId in w.db.subscriptions
    ensures OnlyHandedBack(AfterTake(w, consumer, picked, true), w.turn, picked)
  {
    var after := AfterTake(w, consumer, picked, true);
    forall d <- picked ensures Claim(d, w.turn) in after.workers && after.workers[Claim(d, w.turn)].phase.HandBack? {
      TakenIsThere(w, consumer, picked, true, d);
    }
    HandBacksAreOnlyHandedBack(after, w.turn, picked);
  }

  lemma NothingTaken(w: World, consumer: string, late: bool)
    ensures AfterTake(w, consumer, {}, late).db == w.db && AfterTake(w, consumer, {}, late).workers == w.workers
  {
  }

  /**
   * On every interleaving of a call's timer with its transaction, once both
   * are settled: if the caller has the rows, they are ordinary claims; if
   * they are handed back, they can only be released; if the transaction
   * rolled back or claimed nothing, the tables and workers are as they were.
   * A committed call is a claim step, late exactly if it is not in the caller's hands.
   */
  lemma SettledCallIsAClaimOrNothing(
    steps: seq<Race.Step>, w: World, consumer: string, picked: set<DeliveryId>, f: ClaimFilter, batch: int)
    requires Race.Legal(steps) && Race.Run(steps).settled
    requires Race.Run(steps).tx.Committed? ==> Race.Run(steps).rows == |picked|
    requires forall d <- picked :: d in w.db.deliveries && w.db.deliveries[d].subscriptionId in w.db.subscriptions
    ensures var c := Race.Run(steps); var after := AfterCall(w, c, consumer, picked);
      && (c.caller.HasRows? ==> forall d <- picked ::
            Claim(d, w.turn) in after.workers && after.workers[Claim(d, w.turn)].phase.Claimed?)
      && (c.handedBack ==> OnlyHandedBack(after, w.turn, picked))
      && (!c.caller.HasRows? && !c.handedBack ==> after.db == w.db && after.workers == w.workers)
      && var take := Step.Take(consumer, picked, f, batch, !c.caller.HasRows?);
      (c.tx.Committed? && MayPick(w.db, picked, f, batch) && NotAtWorkOn(w, consumer, picked) ==> Can(w, take) && after == Do(w, take))
  {
    Race.RunKeepsInv(steps);
    var c := Race.Run(steps);
    if c.caller.HasRows? {
      forall d <- picked ensures Claim(d, w.turn) in AfterTake(w, consumer, picked, false).workers
        && AfterTake(w, consumer, picked, false).workers[Claim(d, w.turn)].phase.Claimed?
      {
        TakenIsThere(w, consumer, picked, false, d);
      }
    } else if c.handedBack {
      LateTakeIsOnlyHandedBack(w, consumer, picked);
    } else if c.tx.Committed? {
      assert picked == {};
      NothingTaken(w, consumer, c.timedOut);
    }
  }
}
