/** The main results about the event ledger, over every run. What depends on the tokens of hand-backs is in LedgerHandBack. */
module LedgerTheorems {
  import opened Tables
  import opened LedgerOps
  import opened LedgerWorld
  import opened LedgerInvariants
  import opened Keys
  import RM = RetryMachine
  import Backoff

  // ---- refinement of the retry machine ----

  function OwnerOf(w: World, d: DeliveryId): nat { if d in w.owner then w.owner[d] else 0 }

  function Abs(w: World, d: DeliveryId): RM.Row {
    if d !in w.db.deliveries then RM.Absent
    else
      var row := w.db.deliveries[d];
      match row.status
      case Pending => RM.Waiting(row.attempts)
      case Failed => RM.Waiting(row.attempts)
      case Running => RM.InClaim(OwnerOf(w, d), row.attempts)
      case Done => RM.Finished(row.attempts)
      case Dead => RM.Buried(row.attempts)
  }

  /**
   * What a step means for row `d`. A completion or failure names the claim
   * number it was handed; a release whose fence opens ends the claim the row is
   * in, which is its own unless it is a hand-back with a reused token.
   */
  ghost function ActOn(w: World, s: Step, d: DeliveryId): RM.Act
    requires Can(w, s)
  {
    match s
    case Publish(id, _, _, born) => if id !in w.db.events && d in born then RM.Create else RM.Idle
    case Take(_, picked, _, _, _) => if d in picked then RM.Begin(w.turn) else RM.Idle
    case Complete(c) => if c.delivery == d then RM.End(c.turn, RM.Completed) else RM.Idle
    case Fail(c, _, _) => if c.delivery == d then RM.End(c.turn, RM.Failed(w.workers[c].maxAttempts)) else RM.Idle
    case Release(turn, ds, _) =>
      if d in ds && FenceOpens(w, Claim(d, turn)) then RM.End(OwnerOf(w, d), RM.Released) else RM.Idle
    case Requeue(staleMs) =>
      if IsStale(w.db, d, staleMs)
      then RM.Reap(w.db.subscriptions[w.db.deliveries[d].subscriptionId].maxAttempts) else RM.Idle
    case Replay(x) => if x == d && d in w.db.deliveries && Replayable(w.db.deliveries[d]) then RM.Revive else RM.Idle
    case SweepDone(done, _) => if d in done then RM.Remove else RM.Idle
    case SweepEvents(aged, _) =>
      if d in w.db.deliveries && w.db.deliveries[d].eventId in aged then RM.Remove else RM.Idle
    case _ => RM.Idle
  }

  /** What a completion does to a row: it is done if the fence opened, else nothing. */
  lemma CompletedRow(w: World, c: Claim, d: DeliveryId)
    requires Inv(w) && c in w.workers
    ensures var before, after := w.db.deliveries, AfterComplete(w, c).db.deliveries;
      && (d in after <==> d in before)
      && (d in before ==>
            after[d] == (if c.delivery == d && FenceOpens(w, c) then DoneRow(before[d], w.db.now) else before[d]))
  {
    assert WorkerFits(w, c);
    var k := w.workers[c];
    assert k.phase.Holding? && FenceOpens(w, c) ==>
      ReceiptWritable(w.db, TokenOf(c, k), k.eventId, ReceiptKey(k.subscriptionId, k.phase.key));
  }

  lemma CompleteRefines(w: World, c: Claim, d: DeliveryId)
    requires Inv(w) && c in w.workers && !w.workers[c].phase.HandBack?
    ensures Abs(AfterComplete(w, c), d)
         == if c.delivery == d then RM.After(Abs(w, d), RM.End(c.turn, RM.Completed)) else Abs(w, d)
  {
    FenceIsOwnership(w, c);
    CompletedRow(w, c, d);
  }

  lemma FailRefines(w: World, c: Claim, random: real, minDelayMs: nat, d: DeliveryId)
    requires Inv(w) && c in w.workers && !w.workers[c].phase.HandBack?
    ensures Abs(AfterFail(w, c, random, minDelayMs), d)
         == if c.delivery == d then RM.After(Abs(w, d), RM.End(c.turn, RM.Failed(w.workers[c].maxAttempts))) else Abs(w, d)
  {
    FenceIsOwnership(w, c);
    assert WorkerFits(w, c);
  }

  lemma ReleaseRefines(w: World, turn: nat, ds: set<DeliveryId>, delayMs: nat, d: DeliveryId)
    requires Inv(w) && (forall x <- ds :: Claim(x, turn) in w.workers)
    ensures Abs(AfterRelease(w, turn, ds, delayMs), d)
         == if d in ds && FenceOpens(w, Claim(d, turn)) then RM.After(Abs(w, d), RM.End(OwnerOf(w, d), RM.Released))
            else Abs(w, d)
  {
    ReleaseHits(w, turn, ds, d);
  }

  lemma TakeRefines(w: World, consumer: string, picked: set<DeliveryId>, late: bool, d: DeliveryId)
    requires forall x <- picked :: x in w.db.deliveries && w.db.deliveries[x].subscriptionId in w.db.subscriptions
    requires forall x <- picked :: w.db.deliveries[x].status.Pending? || w.db.deliveries[x].status.Failed?
    ensures Abs(AfterTake(w, consumer, picked, late), d)
         == if d in picked then RM.After(Abs(w, d), RM.Begin(w.turn)) else Abs(w, d)
  {
  }

  lemma PublishRefines(w: World, id: EventId, org: Option<string>, topic: string, born: map<DeliveryId, SubscriptionId>, d: DeliveryId)
    requires id !in w.db.events && born.Keys !! w.minted && w.db.deliveries.Keys <= w.minted
    ensures Abs(AfterPublish(w, id, org, topic, born), d)
         == if d in born then RM.After(Abs(w, d), RM.Create) else Abs(w, d)
  {
  }

  lemma ReaperRefines(w: World, s: Step, d: DeliveryId)
    requires Can(w, s) && (s.Requeue? || s.Replay?)
    ensures Abs(Do(w, s), d) == RM.After(Abs(w, d), ActOn(w, s, d))
  {
  }

  lemma SweepRefines(w: World, s: Step, d: DeliveryId)
    requires Can(w, s) && (s.SweepDone? || s.SweepEvents?)
    ensures Abs(Do(w, s), d) == RM.After(Abs(w, d), ActOn(w, s, d))
  {
  }

  lemma WriteRefines(w: World, s: Step, d: DeliveryId)
    requires Inv(w) && Can(w, s) && (s.Complete? || s.Fail? || s.Release?)
    ensures Abs(Do(w, s), d) == RM.After(Abs(w, d), ActOn(w, s, d))
  {
    match s
    case Complete(c) => CompleteRefines(w, c, d);
    case Fail(c, random, minDelayMs) => FailRefines(w, c, random, minDelayMs, d);
    case Release(turn, ds, delayMs) => ReleaseRefines(w, turn, ds, delayMs, d);
  }

  lemma ReserveRefines(w: World, s: Step, d: DeliveryId)
    requires Can(w, s) && (s.Reserve? || s.Misses?)
    ensures Abs(Do(w, s), d) == RM.After(Abs(w, d), ActOn(w, s, d))
  {
    assert Do(w, s).db.deliveries == w.db.deliveries && Do(w, s).owner == w.owner;
  }

  lemma QuietRefines(w: World, s: Step, d: DeliveryId)
    requires Can(w, s) && Quiet(s)
    ensures Abs(Do(w, s), d) == RM.After(Abs(w, d), ActOn(w, s, d))
  {
    assert Do(w, s).db.deliveries == w.db.deliveries && Do(w, s).owner == w.owner;
  }

  lemma IdleRefines(w: World, s: Step, d: DeliveryId)
    requires Can(w, s) && (Quiet(s) || s.Reserve? || s.Misses?)
    ensures Abs(Do(w, s), d) == RM.After(Abs(w, d), ActOn(w, s, d))
  {
    if Quiet(s) { QuietRefines(w, s, d); } else { ReserveRefines(w, s, d); }
  }

  lemma IntakeRefines(w: World, s: Step, d: DeliveryId)
    requires Inv(w) && Can(w, s) && (s.Take? || s.Publish?)
    ensures Abs(Do(w, s), d) == RM.After(Abs(w, d), ActOn(w, s, d))
  {
    match s
    case Take(consumer, picked, _, _, late) => TakeRefines(w, consumer, picked, late, d);
    case Publish(id, org, topic, born) =>
      if id !in w.db.events { PublishRefines(w, id, org, topic, born, d); }
  }

  /** Every step of the shared ledger is, row by row, one act of the sequential retry machine. */
  lemma RowRefinesRetryMachine(w: World, s: Step, d: DeliveryId)
    requires Inv(w) && Can(w, s)
    ensures Abs(Do(w, s), d) == RM.After(Abs(w, d), ActOn(w, s, d))
  {
    if Quiet(s) || s.Reserve? || s.Misses? {
      IdleRefines(w, s, d);
    } else if s.Complete? || s.Fail? || s.Release? {
      WriteRefines(w, s, d);
    } else if s.Take? || s.Publish? {
      IntakeRefines(w, s, d);
    } else if s.Requeue? || s.Replay? {
      ReaperRefines(w, s, d);
    } else {
      SweepRefines(w, s, d);
    }
  }

  lemma LateReleaseHitsNothing(w: World, turn: nat, ds: set<DeliveryId>)
    requires Inv(w) && forall d <- ds :: Claim(d, turn) in w.workers
    requires forall d <- ds :: OwnToken(w, Claim(d, turn)) && !Live(w, Claim(d, turn))
    ensures Held(w.db, TokensOf(w, turn, ds)) == {}
  {
    forall d ensures d !in Held(w.db, TokensOf(w, turn, ds)) {
      ReleaseHits(w, turn, ds, d);
      if d in ds { FenceIsOwnership(w, Claim(d, turn)); }
    }
  }

  /**
   * A superseded worker's late write changes no delivery row, if the token is
   * its own; only a late keyed completion touches a receipt.
   */
  lemma LateWriteChangesNoRow(w: World, s: Step)
    requires Inv(w) && Can(w, s)
    requires match s
      case Complete(c) => !Live(w, c)
      case Fail(c, _, _) => !Live(w, c)
      case Release(turn, ds, _) => forall d <- ds :: OwnToken(w, Claim(d, turn)) && !Live(w, Claim(d, turn))
      case _ => false
    ensures Do(w, s).db.deliveries == w.db.deliveries
    ensures (s.Complete? ==> !w.workers[s.claim].phase.Holding?) ==> Do(w, s).db == w.db
  {
    match s
    case Complete(c) => FenceIsOwnership(w, c);
    case Fail(c, _, _) => FenceIsOwnership(w, c);
    case Release(turn, ds, _) => LateReleaseHitsNothing(w, turn, ds);
  }

  /** A failed row is claimable exactly from its delay on, and the delay is at least half the exponential and the floor asked for. */
  lemma FailedRowSitsOutItsBackoff(w: World, c: Claim, random: real, minDelayMs: nat, ms: nat, f: ClaimFilter)
    requires Inv(w) && c in w.workers && Live(w, c) && w.workers[c].attempts < w.workers[c].maxAttempts
    ensures var k := w.workers[c];
      var delayMs := Backoff.FailDelayMs(k.attempts, k.maxAttempts, random, minDelayMs);
      var db := AfterFail(w, c, random, minDelayMs).db;
      var sub := db.subscriptions[k.subscriptionId];
      && minDelayMs <= delayMs && Backoff.ExpMs(k.attempts) / 2 <= delayMs
      && (Claimable(db.(now := db.now + ms), c.delivery, f)
          <==> ms >= delayMs && sub.active && Admits(f, db.events[k.eventId].topic, sub))
  {
    FenceIsOwnership(w, c);
    assert WorkerFits(w, c);
    Backoff.BackoffWithinHalf(w.workers[c].attempts, random);
  }

  // ---- each claim ends at most once ----

  /** How often the row leaves this very claim along a run. */
  ghost function Endings(w: World, steps: seq<Step>, c: Claim): nat
    requires Legal(w, steps)
    decreases |steps|
  {
    if steps == [] then 0
    else
      var n := |steps| - 1;
      var before := Run(w, steps[..n]);
      Endings(w, steps[..n], c)
      + (if RM.Inside(Abs(before, c.delivery), c.turn) && !RM.Inside(Abs(Do(before, steps[n]), c.delivery), c.turn)
         then 1 else 0)
  }

  /** A claim number that was seen stays behind the counter, and one act begins only the counter's number. */
  lemma TurnOnlyGrows(w: World, s: Step, c: Claim)
    requires Inv(w) && Can(w, s)
    ensures Do(w, s).turn == if s.Take? then w.turn + 1 else w.turn
    ensures RM.Inside(Abs(w, c.delivery), c.turn) ==> c.turn < w.turn
    ensures RM.Inside(Abs(Do(w, s), c.delivery), c.turn) && !RM.Inside(Abs(w, c.delivery), c.turn) ==> c.turn == w.turn
  {
    RowRefinesRetryMachine(w, s, c.delivery);
    TurnIsCounted(w, s);
    EntersAtTurn(w, Do(w, s), ActOn(w, s, c.delivery), c);
  }

  lemma EntersAtTurn(w: World, after: World, a: RM.Act, c: Claim)
    requires Inv(w) && Abs(after, c.delivery) == RM.After(Abs(w, c.delivery), a) && (a.Begin? ==> a.turn == w.turn)
    ensures RM.Inside(Abs(w, c.delivery), c.turn) ==> c.turn < w.turn
    ensures RM.Inside(Abs(after, c.delivery), c.turn) && !RM.Inside(Abs(w, c.delivery), c.turn) ==> c.turn == w.turn
  {
  }

  lemma TurnIsCounted(w: World, s: Step)
    requires Can(w, s)
    ensures Do(w, s).turn == if s.Take? then w.turn + 1 else w.turn
    ensures forall d :: ActOn(w, s, d).Begin? ==> ActOn(w, s, d).turn == w.turn
  {
  }

  lemma {:induction false} EndingsCounted(w: World, steps: seq<Step>, c: Claim)
    requires Inv(w) && Legal(w, steps)
    ensures var w' := Run(w, steps);
      && Endings(w, steps, c) + (if RM.Inside(Abs(w', c.delivery), c.turn) then 1 else 0) <= 1
      && (Endings(w, steps, c) > 0 ==> c.turn < w'.turn)
    decreases |steps|
  {
    if steps != [] {
      var n := |steps| - 1;
      EndingsCounted(w, steps[..n], c);
      RunKeepsInv(w, steps[..n]);
      TurnOnlyGrows(Run(w, steps[..n]), steps[n], c);
    }
  }

  /** Over every run each claim is completed, failed, released or reaped at most once. */
  lemma ClaimEndsAtMostOnce(steps: seq<Step>, c: Claim)
    requires Legal(Empty, steps)
    ensures Endings(Empty, steps, c) <= 1
  {
    EndingsCounted(Empty, steps, c);
  }

  /**
   * In every reachable world a worker's status write lands if its claim still
   * owns the row, and, unless the worker is a hand-back, only then.
   */
  lemma FenceIsExact(steps: seq<Step>, c: Claim)
    requires Legal(Empty, steps) && c in Run(Empty, steps).workers
    ensures var w := Run(Empty, steps);
      && (Live(w, c) ==> FenceOpens(w, c))
      && (!w.workers[c].phase.HandBack? ==> (FenceOpens(w, c) <==> Live(w, c)))
  {
    RunKeepsInv(Empty, steps);
    FenceIsOwnership(Run(Empty, steps), c);
  }

  /** Every running row has a worker that still owes its write, or an owner that was lost. */
  lemma RunningRowIsAccountedFor(steps: seq<Step>, d: DeliveryId)
    requires Legal(Empty, steps)
    requires var db := Run(Empty, steps).db; d in db.deliveries && db.deliveries[d].status.Running?
    ensures var w := Run(Empty, steps);
      && d in w.owner
      && var c := Claim(d, w.owner[d]);
      && (c in w.workers || c in w.lost)
      && (c in w.workers ==>
            && w.db.deliveries[d].claimedBy == Some(w.workers[c].consumer)
            && w.db.deliveries[d].attempts == w.workers[c].attempts)
  {
    RunKeepsInv(Empty, steps);
    var w := Run(Empty, steps);
    if Claim(d, w.owner[d]) in w.workers { assert WorkerFits(w, Claim(d, w.owner[d])); }
  }

  // ---- one run per idempotency key ----

  /** Two live claims past the reservation of one (subscription, key) are the same claim. */
  lemma OneLiveHolderPerKey(steps: seq<Step>, c: Claim, c': Claim)
    requires Legal(Empty, steps)
    requires var w := Run(Empty, steps);
      && c in w.workers && c' in w.workers && Live(w, c) && Live(w, c')
      && w.workers[c].phase.Holding? && w.workers[c'].phase == w.workers[c].phase
      && w.workers[c'].subscriptionId == w.workers[c].subscriptionId
    ensures c == c'
  {
    RunKeepsInv(Empty, steps);
    var w := Run(Empty, steps);
    assert OwnsReceipt(w, c) && OwnsReceipt(w, c');
  }

  /** The key is handled: its receipt is complete and its delivery is done, or swept since. */
  ghost predicate Handled(w: World, rk: ReceiptKey, d: DeliveryId, e: EventId) {
    && rk in w.db.receipts
    && w.db.receipts[rk].completedAt.Some?
    && w.db.receipts[rk].eventId == e
    && (w.db.receipts[rk].deliveryId.Some? ==>
          && w.db.receipts[rk].deliveryId.value == d
          && d in w.db.deliveries && d in w.minted && w.db.deliveries[d].status.Done?
          && w.db.deliveries[d].eventId == e)
  }

  /** Only a replay of the delivery or the sweep of its event can end that. */
  predicate Spares(s: Step, d: DeliveryId, e: EventId) {
    !(s.Replay? && s.d == d) && !(s.SweepEvents? && e in s.aged)
  }

  lemma HandledSurvivesComplete(w: World, c: Claim, rk: ReceiptKey, d: DeliveryId, e: EventId)
    requires Handled(w, rk, d, e) && c in w.workers
    ensures Handled(AfterComplete(w, c), rk, d, e)
  {
  }

  lemma HandledSurvivesWrite(w: World, s: Step, rk: ReceiptKey, d: DeliveryId, e: EventId)
    requires Handled(w, rk, d, e) && Can(w, s) && (s.Complete? || s.Fail? || s.Release? || s.Requeue?)
    ensures Handled(Do(w, s), rk, d, e)
  {
    if s.Complete? { HandledSurvivesComplete(w, s.claim, rk, d, e); }
  }

  lemma HandledSurvives(w: World, s: Step, rk: ReceiptKey, d: DeliveryId, e: EventId)
    requires Handled(w, rk, d, e) && Can(w, s) && Spares(s, d, e)
    ensures Handled(Do(w, s), rk, d, e)
  {
    if s.Complete? || s.Fail? || s.Release? || s.Requeue? { HandledSurvivesWrite(w, s, rk, d, e); }
  }

  lemma {:induction false} HandledSurvivesRun(w: World, steps: seq<Step>, rk: ReceiptKey, d: DeliveryId, e: EventId)
    requires Handled(w, rk, d, e) && Legal(w, steps)
    requires forall s <- steps :: Spares(s, d, e)
    ensures Handled(Run(w, steps), rk, d, e)
    decreases |steps|
  {
    if steps != [] {
      var n := |steps| - 1;
      HandledSurvivesRun(w, steps[..n], rk, d, e);
      assert steps[n] in steps;
      HandledSurvives(Run(w, steps[..n]), steps[n], rk, d, e);
    }
  }

  lemma LandedCompletionHandles(w: World, c: Claim)
    requires Inv(w) && c in w.workers && w.workers[c].phase.Holding? && Live(w, c)
    ensures Handled(AfterComplete(w, c), ReceiptKey(w.workers[c].subscriptionId, w.workers[c].phase.key), c.delivery,
                    w.workers[c].eventId)
  {
    assert WorkerFits(w, c) && OwnsReceipt(w, c);
    FenceIsOwnership(w, c);
  }

  /**
   * Once a keyed completion landed on its row, a reservation of that
   * (subscription, key) by any claim, ever after, finds it seen: the handler
   * is not run again until the delivery is replayed or its event swept.
   */
  lemma HandledKeyIsNeverHeldAgain(before: seq<Step>, c: Claim, after: seq<Step>, c': Claim)
    requires Legal(Empty, before)
    requires var w := Run(Empty, before);
      && c in w.workers && w.workers[c].phase.Holding? && Live(w, c)
      && Can(w, Step.Complete(c))
      && Legal(Do(w, Step.Complete(c)), after)
      && (forall s <- after :: Spares(s, c.delivery, w.workers[c].eventId))
    requires var w := Run(Empty, before); var w' := Run(Do(w, Step.Complete(c)), after);
      c' in w'.workers && w'.workers[c'].phase.Claimed? && w'.workers[c'].subscriptionId == w.workers[c].subscriptionId
    ensures var w := Run(Empty, before); var w' := Run(Do(w, Step.Complete(c)), after);
      AfterReserve(w', c', w.workers[c].phase.key).workers[c'].phase == Seen
      && AfterReserve(w', c', w.workers[c].phase.key).db == w'.db
  {
    RunKeepsInv(Empty, before);
    var w := Run(Empty, before);
    var rk := ReceiptKey(w.workers[c].subscriptionId, w.workers[c].phase.key);
    LandedCompletionHandles(w, c);
    HandledSurvivesRun(Do(w, Step.Complete(c)), after, rk, c.delivery, w.workers[c].eventId);
    HandledIsSeen(Run(Do(w, Step.Complete(c)), after), c', rk, c.delivery, w.workers[c].eventId);
  }

  lemma HandledIsSeen(w: World, c: Claim, rk: ReceiptKey, d: DeliveryId, e: EventId)
    requires Handled(w, rk, d, e) && c in w.workers && w.workers[c].subscriptionId == rk.subscriptionId
    ensures AfterReserve(w, c, rk.key).workers[c].phase == Seen && AfterReserve(w, c, rk.key).db == w.db
  {
  }

  lemma StepKeepsBlocked(w: World, s: Step, c: Claim)
    requires Inv(w) && Can(w, s) && c.turn < w.turn
    requires c in w.workers ==> w.workers[c].phase.Blocked?
    ensures c in Do(w, s).workers ==> Do(w, s).workers[c].phase.Blocked?
    ensures c.turn < Do(w, s).turn
  {
    if s.Take? && c in Do(w, s).workers { TakenWorkerIsOldOrNew(w, s.consumer, s.picked, s.late, c); }
  }

  ghost predicate StuckOrGone(w: World, c: Claim) { c.turn < w.turn && (c in w.workers ==> w.workers[c].phase.Blocked?) }

  lemma {:induction false} RunKeepsBlocked(w: World, steps: seq<Step>, c: Claim)
    requires Inv(w) && StuckOrGone(w, c) && Legal(w, steps)
    ensures StuckOrGone(Run(w, steps), c)
    decreases |steps|
  {
    if steps != [] {
      var n := |steps| - 1;
      RunKeepsBlocked(w, steps[..n], c);
      RunKeepsInv(w, steps[..n]);
      StepKeepsBlocked(Run(w, steps[..n]), steps[n], c);
    }
  }

  /** A claim that found its key in flight never completes and never holds the key: over every run it only gives its delivery back, fails or is lost. */
  lemma BlockedNeverCompletes(w: World, steps: seq<Step>, c: Claim)
    requires Inv(w) && c in w.workers && w.workers[c].phase.Blocked? && Legal(w, steps)
    ensures var later := Run(w, steps); !Can(later, Step.Complete(c)) && (c in later.workers ==> !later.workers[c].phase.Holding?)
  {
    assert c.delivery in w.owner;
    RunKeepsBlocked(w, steps, c);
  }

  /** Keys of different orgs, or of an org and of none, never collide: an org id is a UUID. */
  lemma ScopedKeysAreInjective(org: Option<string>, key: string, org': Option<string>, key': string)
    requires org.Some? ==> ColonFree(org.value) && org.value != "global"
    requires org'.Some? ==> ColonFree(org'.value) && org'.value != "global"
    ensures ScopedIdempotencyKey(org, key) == ScopedIdempotencyKey(org', key') <==> org == org' && key == key'
  {
    if ScopedIdempotencyKey(org, key) == ScopedIdempotencyKey(org', key') {
      CutAtColon(if org.Some? then org.value else "global", key, if org'.Some? then org'.value else "global", key');
    }
  }
}
