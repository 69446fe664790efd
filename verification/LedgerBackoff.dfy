/** The waits a run schedules for one delivery, and how long they can add up to before it is dead. */
module LedgerBackoff {
  import opened Tables
  import opened LedgerOps
  import opened LedgerWorld
  import opened LedgerInvariants
  import opened LedgerTheorems
  import opened LedgerAccounting
  import opened Backoff
  import RM = RetryMachine

  /** The step is a failed attempt of `d` whose write lands and leaves it another attempt. */
  ghost predicate Retries(w: World, s: Step, d: DeliveryId)
    requires Can(w, s)
  {
    && s.Fail? && s.claim.delivery == d && FenceOpens(w, s.claim)
    && w.workers[s.claim].attempts < w.workers[s.claim].maxAttempts
  }

  ghost function WaitOf(w: World, s: Step, d: DeliveryId): Wait
    requires Can(w, s) && Retries(w, s, d)
  {
    var k := w.workers[s.claim];
    Wait(k.attempts, FailDelayMs(k.attempts, k.maxAttempts, s.random, s.minDelayMs))
  }

  /** The waits scheduled for `d` along the run, since it was created or last replayed. */
  ghost function WaitsOf(steps: seq<Step>, d: DeliveryId): seq<Wait>
    requires Legal(Empty, steps)
    decreases |steps|
  {
    if steps == [] then [] else var n := |steps| - 1; WaitsAfter(Run(Empty, steps[..n]), steps[n], d, WaitsOf(steps[..n], d))
  }

  ghost function WaitsAfter(w: World, s: Step, d: DeliveryId, ws: seq<Wait>): seq<Wait>
    requires Can(w, s)
  {
    var act := ActOn(w, s, d);
    if Retries(w, s, d) then ws + [WaitOf(w, s, d)]
    else if act.Create? || act.Revive? || act.Remove? then []
    else ws
  }

  /** Such a wait is what the row then sits out, on the database clock. */
  lemma WaitIsScheduled(w: World, s: Step, d: DeliveryId)
    requires Can(w, s) && Retries(w, s, d)
    ensures d in Do(w, s).db.deliveries
    ensures Do(w, s).db.deliveries[d].status == Status.Failed
    ensures Do(w, s).db.deliveries[d].nextAttemptAt == w.db.now + WaitOf(w, s, d).ms
  {
    assert d in Held(w.db, {TokenOf(s.claim, w.workers[s.claim])});
  }

  /** No failure of `d` asks for a longer wait than `floor`. */
  predicate Floored(s: Step, d: DeliveryId, floor: nat) {
    s.Fail? && s.claim.delivery == d ==> s.minDelayMs <= floor
  }

  /** The last failed attempt is behind the row: strictly, once it was claimed again. */
  predicate Behind(r: RM.Row, ws: seq<Wait>) {
    ws != [] ==>
      var last := ws[|ws| - 1].attempt;
      match r
      case Absent => false
      case Waiting(n) => last <= n
      case InClaim(_, n) => last < n
      case Finished(n) => last < n
      case Buried(n) => last < n
  }

  lemma ActKeepsBehind(r: RM.Row, a: RM.Act, ws: seq<Wait>)
    requires Behind(r, ws) && !a.Create? && !a.Revive? && !a.Remove?
    ensures Behind(RM.After(r, a), ws)
  {
  }

  /** A landed failure is of the current claim, and leaves the row waiting on that attempt. */
  lemma RetryActs(w: World, s: Step, d: DeliveryId)
    requires Inv(w) && Can(w, s) && Retries(w, s, d)
    ensures Abs(w, d) == RM.InClaim(s.claim.turn, w.workers[s.claim].attempts)
    ensures Abs(Do(w, s), d) == RM.Waiting(w.workers[s.claim].attempts)
    ensures w.workers[s.claim].attempts >= 1
  {
    FenceIsOwnership(w, s.claim);
    assert WorkerFits(w, s.claim);
    RowRefinesRetryMachine(w, s, d);
  }

  ghost predicate Accounted(w: World, d: DeliveryId, ws: seq<Wait>, floor: nat) {
    Climbing(ws) && (forall x <- ws :: Drawn(x, floor)) && Behind(Abs(w, d), ws)
  }

  lemma RetryKeepsAccounted(w: World, s: Step, d: DeliveryId, ws: seq<Wait>, floor: nat)
    requires Inv(w) && Can(w, s) && Retries(w, s, d) && Floored(s, d, floor) && Accounted(w, d, ws, floor)
    ensures Accounted(Do(w, s), d, ws + [WaitOf(w, s, d)], floor)
  {
    RetryActs(w, s, d);
    var k := w.workers[s.claim];
    FailDelayIsDrawn(k.attempts, k.maxAttempts, s.random, s.minDelayMs, floor);
    OneMoreWait(ws, WaitOf(w, s, d));
  }

  lemma OneMoreWait(ws: seq<Wait>, w: Wait)
    requires Climbing(ws) && w.attempt >= 1 && (ws != [] ==> ws[|ws| - 1].attempt < w.attempt)
    ensures Climbing(ws + [w])
  {
    var more := ws + [w];
    forall i, j | 0 <= i < j < |more| ensures more[i].attempt < more[j].attempt {
      if j == |ws| && i < |ws| - 1 { assert ws[i].attempt < ws[|ws| - 1].attempt; }
    }
  }

  lemma StepKeepsAccounted(w: World, s: Step, d: DeliveryId, ws: seq<Wait>, floor: nat)
    requires Inv(w) && Can(w, s) && Floored(s, d, floor) && Accounted(w, d, ws, floor)
    ensures Accounted(Do(w, s), d, WaitsAfter(w, s, d, ws), floor)
  {
    var act := ActOn(w, s, d);
    if Retries(w, s, d) {
      RetryKeepsAccounted(w, s, d, ws, floor);
    } else if !act.Create? && !act.Revive? && !act.Remove? {
      RowRefinesRetryMachine(w, s, d);
      ActKeepsBehind(Abs(w, d), act, ws);
    }
  }

  lemma {:induction false} RunKeepsAccounted(steps: seq<Step>, d: DeliveryId, floor: nat)
    requires Legal(Empty, steps) && forall s <- steps :: Floored(s, d, floor)
    ensures Accounted(Run(Empty, steps), d, WaitsOf(steps, d), floor)
    decreases |steps|
  {
    if steps != [] {
      var n := |steps| - 1;
      RunKeepsAccounted(steps[..n], d, floor);
      RunKeepsInv(Empty, steps[..n]);
      assert steps[n] in steps;
      StepKeepsAccounted(Run(Empty, steps[..n]), steps[n], d, WaitsOf(steps[..n], d), floor);
    }
  }

  /** The longest wait any failure of the run asks for. */
  function LargestFloor(steps: seq<Step>): (floor: nat)
  {
    if steps == [] then 0
    else
      var n := |steps| - 1;
      if steps[n].Fail? then Max(LargestFloor(steps[..n]), steps[n].minDelayMs) else LargestFloor(steps[..n])
  }

  lemma {:induction false} EveryStepIsFloored(steps: seq<Step>, d: DeliveryId, floor: nat)
    requires LargestFloor(steps) <= floor
    ensures forall s <- steps :: Floored(s, d, floor)
  {
    if steps != [] {
      var n := |steps| - 1;
      EveryStepIsFloored(steps[..n], d, floor);
      assert forall s <- steps :: s in steps[..n] || s == steps[n];
    }
  }

  /** Across releases, reapings and claims by anyone, each failure that schedules a wait has a higher attempt number than the one before. */
  lemma FailuresClimb(steps: seq<Step>, d: DeliveryId)
    requires Legal(Empty, steps)
    ensures Climbing(WaitsOf(steps, d))
  {
    EveryStepIsFloored(steps, d, LargestFloor(steps));
    RunKeepsAccounted(steps, d, LargestFloor(steps));
  }

  /** Fewer than `max` waits, which add up to what that many failures can. */
  predicate WithinTotals(ws: seq<Wait>, max: nat, floor: nat) {
    && |ws| < max
    && WorstTotalMs(|ws|) / 2 <= TotalMs(ws) <= FlooredTotalMs(max - 1, floor)
    && (floor == 0 ==> TotalMs(ws) <= WorstTotalMs(max - 1))
  }

  lemma LastFailureIsWithinBudget(w: World, d: DeliveryId, ws: seq<Wait>)
    requires Inv(w) && Budgeted(w) && d in w.db.deliveries && Behind(Abs(w, d), ws)
    ensures var max := BudgetOf(w.db, w.db.deliveries[d].subscriptionId);
      max >= 1 && (ws != [] ==> ws[|ws| - 1].attempt < max)
  {
    assert WithinBudget(Abs(w, d), BudgetOf(w.db, w.db.deliveries[d].subscriptionId));
  }

  /**
   * The total backoff scheduled for a delivery with `max` attempts, however
   * its claims ended: fewer than `max` waits, at least half of the shortest
   * exponentials, and at most the floored exponentials of attempts 1 to
   * max - 1, which without a floor is the closed form.
   */
  lemma ScheduledBackoffIsBounded(steps: seq<Step>, d: DeliveryId, floor: nat)
    requires Legal(Empty, steps) && SteadyRun(Empty, steps)
    requires forall s <- steps :: Floored(s, d, floor)
    requires d in Run(Empty, steps).db.deliveries
    ensures var max := BudgetOf(Run(Empty, steps).db, Run(Empty, steps).db.deliveries[d].subscriptionId);
      WithinTotals(WaitsOf(steps, d), max, floor)
  {
    RunKeepsAccounted(steps, d, floor);
    RunKeepsBudget(steps);
    RunKeepsInv(Empty, steps);
    BoundsAt(Run(Empty, steps), d, WaitsOf(steps, d), floor);
  }

  lemma BoundsAt(w: World, d: DeliveryId, ws: seq<Wait>, floor: nat)
    requires Inv(w) && Budgeted(w) && d in w.db.deliveries && Accounted(w, d, ws, floor)
    ensures WithinTotals(ws, BudgetOf(w.db, w.db.deliveries[d].subscriptionId), floor)
  {
    LastFailureIsWithinBudget(w, d, ws);
    BoundsUpTo(ws, BudgetOf(w.db, w.db.deliveries[d].subscriptionId), floor);
  }

  lemma BoundsUpTo(ws: seq<Wait>, max: nat, floor: nat)
    requires Climbing(ws) && (forall x <- ws :: Drawn(x, floor))
    requires max >= 1 && (ws != [] ==> ws[|ws| - 1].attempt < max)
    ensures WithinTotals(ws, max, floor)
  {
    TotalBackoffBounds(ws, floor);
    if ws != [] { FlooredTotalGrows(ws[|ws| - 1].attempt, max - 1, floor); }
    UnflooredTotal(max - 1);
  }
}
