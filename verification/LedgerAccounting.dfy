/** Attempt counting: what `attempts` means over a run, and that the budget holds. */
module LedgerAccounting {
  import opened Tables
  import opened LedgerOps
  import opened LedgerWorld
  import opened LedgerInvariants
  import opened LedgerTheorems
  import RM = RetryMachine

  /** Claims of row `d` along the run, since it was created or last replayed. */
  ghost function TallyOf(steps: seq<Step>, d: DeliveryId): RM.Tally
    requires Legal(Empty, steps)
    decreases |steps|
  {
    if steps == [] then RM.Tally(0, 0, 0)
    else
      var n := |steps| - 1;
      var before := Run(Empty, steps[..n]);
      RM.Tallied(TallyOf(steps[..n], d), Abs(before, d), ActOn(before, steps[n], d))
  }

  lemma {:induction false} RunIsBalanced(steps: seq<Step>, d: DeliveryId)
    requires Legal(Empty, steps)
    ensures RM.Balanced(Abs(Run(Empty, steps), d), TallyOf(steps, d))
    decreases |steps|
  {
    if steps != [] {
      var n := |steps| - 1;
      RunIsBalanced(steps[..n], d);
      RunKeepsInv(Empty, steps[..n]);
      var before := Run(Empty, steps[..n]);
      RowRefinesRetryMachine(before, steps[n], d);
      RM.ActKeepsBalance(Abs(before, d), TallyOf(steps[..n], d), ActOn(before, steps[n], d));
    }
  }

  /**
   * `attempts` equals claims minus releases since creation or last replay,
   * which is the claims used up plus the open one.
   */
  lemma AttemptsAreClaimsMinusReleases(steps: seq<Step>, d: DeliveryId)
    requires Legal(Empty, steps) && d in Run(Empty, steps).db.deliveries
    ensures var row := Run(Empty, steps).db.deliveries[d]; var t := TallyOf(steps, d);
      && row.attempts == t.begun - t.released
      && row.attempts == t.spent + (if row.status.Running? then 1 else 0)
  {
    RunIsBalanced(steps, d);
  }

  // ---- the budget ----

  /** A sync that re-declares a handler with the retries its row already has. */
  ghost predicate KeepsBudgets(w: World, s: Step) {
    s.Sync? ==>
      forall sub <- w.db.subscriptions ::
        var row := w.db.subscriptions[sub];
        row.organizationId.None? && HandlerRef(row.topic, row.handler) in s.registry ==>
          s.registry[HandlerRef(row.topic, row.handler)] == row.maxAttempts
  }

  ghost predicate SteadyRun(w: World, steps: seq<Step>) {
    steps == [] || (
      var n := |steps| - 1;
      Legal(w, steps) && SteadyRun(w, steps[..n]) && KeepsBudgets(Run(w, steps[..n]), steps[n]))
  }

  /** Waiting rows have an attempt left; buried rows have used all of them. */
  predicate WithinBudget(r: RM.Row, budget: nat) {
    match r
    case Absent => true
    case Waiting(n) => n < budget
    case InClaim(_, n) => 1 <= n <= budget
    case Finished(n) => n <= budget
    case Buried(n) => n == budget
  }

  predicate Budget(a: RM.Act, budget: nat) {
    (a.End? && a.how.Failed? ==> a.how.budget == budget) && (a.Reap? ==> a.budget == budget)
  }

  lemma ActStaysWithinBudget(r: RM.Row, a: RM.Act, budget: nat)
    requires budget >= 1 && WithinBudget(r, budget) && Budget(a, budget)
    ensures WithinBudget(RM.After(r, a), budget)
  {
  }

  function BudgetOf(db: Db, s: SubscriptionId): nat {
    if s in db.subscriptions then db.subscriptions[s].maxAttempts else 0
  }

  ghost predicate Budgeted(w: World) {
    && (forall d <- w.db.deliveries :: WithinBudget(Abs(w, d), BudgetOf(w.db, w.db.deliveries[d].subscriptionId)))
    && (forall c <- w.workers ::
          && w.workers[c].subscriptionId in w.db.subscriptions
          && w.workers[c].maxAttempts == BudgetOf(w.db, w.workers[c].subscriptionId))
  }

  lemma SyncKeepsBudget(w: World, s: Step, sub: SubscriptionId)
    requires Can(w, s) && s.Sync? && KeepsBudgets(w, s) && sub in w.db.subscriptions
    ensures sub in Do(w, s).db.subscriptions && BudgetOf(Do(w, s).db, sub) == BudgetOf(w.db, sub)
  {
    assert sub !in s.made;
  }

  lemma StepKeepsSubscriptions(w: World, s: Step, sub: SubscriptionId)
    requires Can(w, s) && KeepsBudgets(w, s) && sub in w.db.subscriptions
    ensures sub in Do(w, s).db.subscriptions && BudgetOf(Do(w, s).db, sub) == BudgetOf(w.db, sub)
  {
    if s.Sync? { SyncKeepsBudget(w, s, sub); }
  }

  /** A worker was there before with the same budget, or was claimed just now with its subscription's. */
  lemma WorkerHasABudget(w: World, s: Step, c: Claim)
    requires Budgeted(w) && Can(w, s) && c in Do(w, s).workers
    ensures var k := Do(w, s).workers[c]; k.subscriptionId in w.db.subscriptions && k.maxAttempts == BudgetOf(w.db, k.subscriptionId)
  {
    if !s.Take? { assert c in w.workers; }
  }

  lemma StepKeepsWorkerBudgets(w: World, s: Step, c: Claim)
    requires Budgeted(w) && Can(w, s) && KeepsBudgets(w, s) && c in Do(w, s).workers
    ensures var k := Do(w, s).workers[c];
      k.subscriptionId in Do(w, s).db.subscriptions && k.maxAttempts == BudgetOf(Do(w, s).db, k.subscriptionId)
  {
    var k := Do(w, s).workers[c];
    WorkerHasABudget(w, s, c);
    StepKeepsSubscriptions(w, s, k.subscriptionId);
  }

  lemma PublishKeepsIdentity(w: World, s: Step, d: DeliveryId)
    requires Inv(w) && Can(w, s) && s.Publish? && d in w.db.deliveries
    ensures d in Do(w, s).db.deliveries && Do(w, s).db.deliveries[d] == w.db.deliveries[d]
  {
  }

  lemma WriteKeepsIdentity(w: World, s: Step, d: DeliveryId)
    requires Can(w, s) && (s.Complete? || s.Fail? || s.Release? || s.Requeue?)
    requires d in w.db.deliveries && d in Do(w, s).db.deliveries
    ensures Do(w, s).db.deliveries[d].subscriptionId == w.db.deliveries[d].subscriptionId
  {
  }

  lemma OtherStepKeepsIdentity(w: World, s: Step, d: DeliveryId)
    requires Can(w, s) && !s.Publish? && !s.Complete? && !s.Fail? && !s.Release? && !s.Requeue?
    requires d in w.db.deliveries && d in Do(w, s).db.deliveries
    ensures Do(w, s).db.deliveries[d].subscriptionId == w.db.deliveries[d].subscriptionId
  {
  }

  lemma RowKeepsIdentity(w: World, s: Step, d: DeliveryId)
    requires Inv(w) && Can(w, s) && d in w.db.deliveries && d in Do(w, s).db.deliveries
    ensures Do(w, s).db.deliveries[d].subscriptionId == w.db.deliveries[d].subscriptionId
  {
    if s.Publish? {
      PublishKeepsIdentity(w, s, d);
    } else if s.Complete? || s.Fail? || s.Release? || s.Requeue? {
      WriteKeepsIdentity(w, s, d);
    } else {
      OtherStepKeepsIdentity(w, s, d);
    }
  }

  lemma FailActsWithinBudget(w: World, s: Step, d: DeliveryId)
    requires Inv(w) && Budgeted(w) && Can(w, s) && s.Fail? && d in w.db.deliveries
    ensures Budget(ActOn(w, s, d), BudgetOf(w.db, w.db.deliveries[d].subscriptionId))
  {
    assert WorkerFits(w, s.claim);
  }

  lemma StepActsWithinBudget(w: World, s: Step, d: DeliveryId)
    requires Inv(w) && Budgeted(w) && Can(w, s) && d in w.db.deliveries
    ensures Budget(ActOn(w, s, d), BudgetOf(w.db, w.db.deliveries[d].subscriptionId))
  {
    if s.Fail? { FailActsWithinBudget(w, s, d); }
  }

  lemma StepKeepsBudget(w: World, s: Step)
    requires Inv(w) && Budgeted(w) && Can(w, s) && KeepsBudgets(w, s)
    ensures Budgeted(Do(w, s))
  {
    var w' := Do(w, s);
    StepKeepsInv(w, s);
    forall d <- w'.db.deliveries
      ensures WithinBudget(Abs(w', d), BudgetOf(w'.db, w'.db.deliveries[d].subscriptionId))
    {
      RowRefinesRetryMachine(w, s, d);
      if d in w.db.deliveries {
        RowKeepsIdentity(w, s, d);
        StepKeepsSubscriptions(w, s, w.db.deliveries[d].subscriptionId);
        StepActsWithinBudget(w, s, d);
        ActStaysWithinBudget(Abs(w, d), ActOn(w, s, d), BudgetOf(w.db, w.db.deliveries[d].subscriptionId));
      }
    }
    forall c <- w'.workers
      ensures w'.workers[c].subscriptionId in w'.db.subscriptions
      ensures w'.workers[c].maxAttempts == BudgetOf(w'.db, w'.workers[c].subscriptionId)
    {
      StepKeepsWorkerBudgets(w, s, c);
    }
  }

  lemma {:induction false} RunKeepsBudget(steps: seq<Step>)
    requires Legal(Empty, steps) && SteadyRun(Empty, steps)
    ensures Budgeted(Run(Empty, steps))
    decreases |steps|
  {
    if steps != [] {
      var n := |steps| - 1;
      RunKeepsBudget(steps[..n]);
      RunKeepsInv(Empty, steps[..n]);
      StepKeepsBudget(Run(Empty, steps[..n]), steps[n]);
    }
  }

  /**
   * While budgets are not re-declared: a row that may still be claimed has
   * an attempt left, a running one is on attempt 1..max, a dead one used
   * them all; and no more than max claims end other than by a release.
   */
  lemma BudgetIsRespected(steps: seq<Step>, d: DeliveryId)
    requires Legal(Empty, steps) && SteadyRun(Empty, steps)
    requires d in Run(Empty, steps).db.deliveries
    ensures var db := Run(Empty, steps).db; var row := db.deliveries[d];
      && row.subscriptionId in db.subscriptions
      && var max := db.subscriptions[row.subscriptionId].maxAttempts;
      && (row.status.Pending? || row.status.Failed? ==> row.attempts < max)
      && (row.status.Running? ==> 1 <= row.attempts <= max)
      && (row.status.Dead? ==> row.attempts == max)
      && TallyOf(steps, d).spent <= max
  {
    RunKeepsBudget(steps);
    RunKeepsInv(Empty, steps);
    AttemptsAreClaimsMinusReleases(steps, d);
    BudgetedRow(Run(Empty, steps), d);
  }

  lemma BudgetedRow(w: World, d: DeliveryId)
    requires Inv(w) && Budgeted(w) && d in w.db.deliveries
    ensures var row := w.db.deliveries[d];
      && row.subscriptionId in w.db.subscriptions
      && var max := w.db.subscriptions[row.subscriptionId].maxAttempts;
      && row.attempts <= max
      && (row.status.Pending? || row.status.Failed? ==> row.attempts < max)
      && (row.status.Running? ==> 1 <= row.attempts)
      && (row.status.Dead? ==> row.attempts == max)
  {
    assert WithinBudget(Abs(w, d), BudgetOf(w.db, w.db.deliveries[d].subscriptionId));
  }
}
