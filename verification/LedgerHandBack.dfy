/**
 * The tokens of hand-backs, and the limit of the (claimed_by, attempts) fence. A hand-back may still be
 * outstanding when its row has long been reaped; replaying that row resets
 * `attempts`, the same consumer counts up to the old token again, and the
 * late hand-back then releases a claim that is not its own.
 */
module LedgerHandBack {
  import opened Tables
  import opened LedgerOps
  import opened LedgerWorld
  import opened LedgerInvariants
  import opened LedgerTheorems
  import RM = RetryMachine

  // ---- orderly runs ----

  /** No hand-back has a token that could match a later claim. */
  ghost predicate TokensSpent(w: World) { forall c <- w.workers :: OwnToken(w, c) }

  /** The row is in claim `turn` on that attempt, or has counted past it. */
  predicate Past(r: RM.Row, turn: nat, attempts: nat) {
    match r
    case Absent => true
    case InClaim(t, n) => if t == turn then n == attempts else n > attempts
    case Waiting(n) => n >= attempts
    case Finished(n) => n >= attempts
    case Buried(n) => n >= attempts
  }

  lemma SpentIsPast(w: World, c: Claim)
    requires Inv(w) && c in w.workers
    ensures TokenSpent(w, c) <==> Past(Abs(w, c.delivery), c.turn, w.workers[c].attempts)
  {
    assert WorkerFits(w, c);
  }

  lemma ActKeepsPast(r: RM.Row, a: RM.Act, turn: nat, attempts: nat)
    requires Past(r, turn, attempts) && !a.Create? && !a.Revive? && (a.Begin? ==> a.turn != turn)
    requires a.End? && a.how.Released? ==> a.turn != turn
    ensures Past(RM.After(r, a), turn, attempts)
  {
  }

  lemma HandBackWasThere(w: World, s: Step, c: Claim)
    requires Can(w, s) && c in Do(w, s).workers && Do(w, s).workers[c].phase.HandBack?
    ensures (c in w.workers && w.workers[c] == Do(w, s).workers[c]) || (s.Take? && c.delivery in s.picked && c.turn == w.turn)
  {
  }

  /** A release that lands on the row of an outstanding hand-back is not its own, and so ends another claim. */
  lemma ReleaseSparesToken(w: World, s: Step, c: Claim)
    requires Inv(w) && TokensSpent(w) && Can(w, s) && s.Release? && c in w.workers && c in Do(w, s).workers
    requires c.delivery in s.ds && FenceOpens(w, Claim(c.delivery, s.turn))
    ensures OwnerOf(w, c.delivery) != c.turn
  {
    var own := Claim(c.delivery, s.turn);
    assert OwnToken(w, own);
    FenceIsOwnership(w, own);
  }

  lemma WhereActsComeFrom(w: World, s: Step, d: DeliveryId)
    requires Can(w, s)
    ensures var a := ActOn(w, s, d);
      && (a.Create? ==> s.Publish? && s.id !in w.db.events && d in s.born)
      && (a.Revive? ==> s.Replay? && s.d == d)
      && (a.Begin? ==> a.turn == w.turn)
      && (a.End? && a.how.Released? ==>
            s.Release? && d in s.ds && FenceOpens(w, Claim(d, s.turn)) && a.turn == OwnerOf(w, d))
  {
  }

  /** What an orderly step does to the row of a hand-back that stays outstanding does not give the token back. */
  lemma ActSparesToken(w: World, s: Step, c: Claim)
    requires Inv(w) && TokensSpent(w) && Can(w, s) && Orderly(w, s)
    requires c in w.workers && w.workers[c].phase.HandBack? && c in Do(w, s).workers
    ensures var a := ActOn(w, s, c.delivery);
      && !a.Create? && !a.Revive? && (a.Begin? ==> a.turn != c.turn)
      && (a.End? && a.how.Released? ==> a.turn != c.turn)
  {
    WhereActsComeFrom(w, s, c.delivery);
    assert c.delivery in w.minted && c.turn < w.turn;
    if s.Release? && c.delivery in s.ds && FenceOpens(w, Claim(c.delivery, s.turn)) { ReleaseSparesToken(w, s, c); }
  }

  lemma TokenStaysSpent(w: World, s: Step, c: Claim)
    requires Inv(w) && TokensSpent(w) && Can(w, s) && Orderly(w, s)
    requires c in w.workers && w.workers[c].phase.HandBack? && c in Do(w, s).workers && Do(w, s).workers[c] == w.workers[c]
    ensures TokenSpent(Do(w, s), c)
  {
    assert OwnToken(w, c);
    SpentIsPast(w, c);
    ActSparesToken(w, s, c);
    ActKeepsPast(Abs(w, c.delivery), ActOn(w, s, c.delivery), c.turn, w.workers[c].attempts);
    RowRefinesRetryMachine(w, s, c.delivery);
    StepKeepsInv(w, s);
    SpentIsPast(Do(w, s), c);
  }

  lemma NewHandBackIsLive(w: World, s: Step, c: Claim)
    requires Can(w, s) && s.Take? && c.delivery in s.picked && c.turn == w.turn
    ensures Live(Do(w, s), c)
  {
  }

  lemma StepKeepsTokens(w: World, s: Step)
    requires Inv(w) && TokensSpent(w) && Can(w, s) && Orderly(w, s)
    ensures TokensSpent(Do(w, s))
  {
    forall c <- Do(w, s).workers | Do(w, s).workers[c].phase.HandBack? ensures TokenSpent(Do(w, s), c) {
      HandBackWasThere(w, s, c);
      if s.Take? && c.delivery in s.picked && c.turn == w.turn { NewHandBackIsLive(w, s, c); }
      else { TokenStaysSpent(w, s, c); }
    }
  }

  lemma {:induction false} RunKeepsTokens(w: World, steps: seq<Step>)
    requires Inv(w) && TokensSpent(w) && Legal(w, steps) && OrderlyRun(w, steps)
    ensures Inv(Run(w, steps)) && TokensSpent(Run(w, steps))
    decreases |steps|
  {
    RunKeepsInv(w, steps);
    if steps != [] {
      var n := |steps| - 1;
      RunKeepsTokens(w, steps[..n]);
      StepKeepsTokens(Run(w, steps[..n]), steps[n]);
    }
  }

  /** In orderly runs the fence is exact for hand-backs as well. */
  lemma EveryFenceIsExactInOrderlyRuns(steps: seq<Step>, c: Claim)
    requires Legal(Empty, steps) && OrderlyRun(Empty, steps) && c in Run(Empty, steps).workers
    ensures FenceOpens(Run(Empty, steps), c) <==> Live(Run(Empty, steps), c)
  {
    RunKeepsTokens(Empty, steps);
    assert OwnToken(Run(Empty, steps), c);
    FenceIsOwnership(Run(Empty, steps), c);
  }

  lemma ReleaseActsOnItsOwn(w: World, turn: nat, ds: set<DeliveryId>, delayMs: nat, d: DeliveryId)
    requires Inv(w) && (forall x <- ds :: Claim(x, turn) in w.workers) && (d in ds ==> OwnToken(w, Claim(d, turn)))
    ensures Abs(AfterRelease(w, turn, ds, delayMs), d)
         == RM.After(Abs(w, d), if d in ds then RM.End(turn, RM.Released) else RM.Idle)
  {
    ReleaseRefines(w, turn, ds, delayMs, d);
    if d in ds { FenceIsOwnership(w, Claim(d, turn)); }
  }

  /** And a release, too, is the end of the claim number it was handed, which does nothing once that claim is over. */
  lemma ReleaseEndsItsOwnClaim(steps: seq<Step>, s: Step, d: DeliveryId)
    requires Legal(Empty, steps) && OrderlyRun(Empty, steps) && Can(Run(Empty, steps), s) && s.Release?
    ensures var w := Run(Empty, steps);
      Abs(Do(w, s), d) == RM.After(Abs(w, d), if d in s.ds then RM.End(s.turn, RM.Released) else RM.Idle)
  {
    var w := Run(Empty, steps);
    RunKeepsTokens(Empty, steps);
    ReleaseActsOnItsOwn(w, s.turn, s.ds, s.delayMs, d);
  }

  // ---- disorderly ones ----

  const ANY := ClaimFilter({}, None)

  lemma {:induction false} RunsCompose(w: World, a: seq<Step>, b: seq<Step>)
    requires Legal(w, a) && Legal(Run(w, a), b)
    ensures Legal(w, a + b) && Run(w, a + b) == Run(Run(w, a), b)
    decreases |b|
  {
    if b == [] {
      assert a + b == a;
    } else {
      var n := |b| - 1;
      RunsCompose(w, a, b[..n]);
      assert (a + b)[..|a + b| - 1] == a + b[..n];
      assert (a + b)[|a + b| - 1] == b[n];
    }
  }

  lemma OneStep(w: World, s: Step)
    requires Can(w, s)
    ensures Legal(w, [s]) && Run(w, [s]) == Do(w, s)
  {
    assert [s][..0] == [];
  }

  lemma Extend(w: World, a: seq<Step>, s: Step)
    requires Legal(w, a) && Can(Run(w, a), s)
    ensures Legal(w, a + [s]) && Run(w, a + [s]) == Do(Run(w, a), s)
  {
    OneStep(Run(w, a), s);
    RunsCompose(w, a, [s]);
  }

  predicate NoReplay(steps: seq<Step>) { forall s <- steps :: !s.Replay? }

  /** A hand-back of `c` is outstanding and the row may be claimed, now on attempt `n`. */
  ghost predicate Exposed(w: World, c: Claim, n: nat) {
    && c in w.workers && w.workers[c].phase.HandBack? && c.turn < w.turn
    && Claimable(w.db, c.delivery, ANY)
    && w.db.deliveries[c.delivery].attempts == n
    && w.workers[c].attempts <= w.db.subscriptions[w.db.deliveries[c.delivery].subscriptionId].maxAttempts
  }

  /** And the consumer of `c` may claim it. */
  ghost predicate Ripe(w: World, c: Claim, n: nat) {
    Exposed(w, c, n) && NotAtWorkOn(w, w.workers[c].consumer, {c.delivery})
  }

  lemma ClaimOne(w: World, c: Claim, n: nat, late: bool) returns (s: Step)
    requires Ripe(w, c, n)
    ensures s == Step.Take(w.workers[c].consumer, {c.delivery}, ANY, 1, late) && Can(w, s)
    ensures var w' := Do(w, s); var row := w'.db.deliveries[c.delivery];
      && w' == AfterTake(w, w.workers[c].consumer, {c.delivery}, late)
      && c in w'.workers && w'.workers[c] == w.workers[c]
      && c.delivery in w'.db.deliveries && row.status.Running? && row.attempts == n + 1
      && row.claimedBy == Some(w.workers[c].consumer)
      && w'.owner[c.delivery] == w.turn
  {
    s := Step.Take(w.workers[c].consumer, {c.delivery}, ANY, 1, late);
  }

  function AMomentAndAReaper(w: World): World {
    w.(db := LedgerOps.Requeue(w.db.(now := w.db.now + 1), 0))
  }

  /** A late claim, a moment, a reaper: the row is ripe again one attempt further. */
  lemma ReapedIsRipe(w: World, c: Claim, n: nat)
    requires Ripe(w, c, n) && n + 1 < w.workers[c].attempts
    ensures var w1 := AfterTake(w, w.workers[c].consumer, {c.delivery}, true);
      Ripe(AMomentAndAReaper(w1), c, n + 1) && AMomentAndAReaper(w1).workers[c] == w.workers[c]
  {
    var w1 := AfterTake(w, w.workers[c].consumer, {c.delivery}, true);
    var db2 := w1.db.(now := w1.db.now + 1);
    assert IsStale(db2, c.delivery, 0);
    assert c.delivery in Stale(db2, 0);
  }

  lemma AMomentAndAReaperAreSteps(w: World)
    ensures Can(w, Step.Pass(1)) && Can(Do(w, Step.Pass(1)), Step.Requeue(0))
    ensures Do(Do(w, Step.Pass(1)), Step.Requeue(0)) == AMomentAndAReaper(w)
  {
  }

  lemma ThenReap(w: World, s: Step)
    requires Can(w, s)
    ensures var steps := [s] + [Step.Pass(1)] + [Step.Requeue(0)];
      && Legal(w, steps) && (!s.Replay? ==> NoReplay(steps))
      && Run(w, steps) == AMomentAndAReaper(Do(w, s))
  {
    OneStep(w, s);
    AMomentAndAReaperAreSteps(Do(w, s));
    Extend(w, [s], Step.Pass(1));
    Extend(w, [s] + [Step.Pass(1)], Step.Requeue(0));
  }

  lemma ReapOnce(w: World, c: Claim, n: nat) returns (steps: seq<Step>)
    requires Ripe(w, c, n) && n + 1 < w.workers[c].attempts
    ensures Legal(w, steps) && NoReplay(steps)
    ensures Ripe(Run(w, steps), c, n + 1) && Run(w, steps).workers[c] == w.workers[c]
  {
    var take := ClaimOne(w, c, n, true);
    ThenReap(w, take);
    ReapedIsRipe(w, c, n);
    steps := [take] + [Step.Pass(1)] + [Step.Requeue(0)];
  }

  lemma {:induction false} CountUp(w: World, c: Claim, n: nat) returns (steps: seq<Step>)
    requires Ripe(w, c, n) && n < w.workers[c].attempts
    ensures Legal(w, steps) && NoReplay(steps) && Ripe(Run(w, steps), c, w.workers[c].attempts - 1)
    ensures Run(w, steps).workers[c] == w.workers[c]
    decreases w.workers[c].attempts - n
  {
    if n + 1 == w.workers[c].attempts {
      steps := [];
    } else {
      var first := ReapOnce(w, c, n);
      var rest := CountUp(Run(w, first), c, n + 1);
      RunsCompose(w, first, rest);
      steps := first + rest;
    }
  }

  /** The hand-back's fence opens on a claim that is not its own. */
  ghost predicate OpensOnForeign(w: World, c: Claim) {
    c in w.workers && w.workers[c].phase.HandBack? && FenceOpens(w, c) && !Live(w, c)
  }

  /** Claimed once more the row carries the old token, under a new claim. */
  lemma LastClaimReachesTheOldToken(w: World, c: Claim, n: nat) returns (take: Step)
    requires Ripe(w, c, n) && n + 1 == w.workers[c].attempts
    ensures Can(w, take) && !take.Replay? && OpensOnForeign(Do(w, take), c)
  {
    take := ClaimOne(w, c, n, false);
  }

  /** From a ripe row the consumer counts up to the old token and claims once more. */
  lemma RipeOpensForeignFence(w: World, c: Claim) returns (steps: seq<Step>)
    requires Ripe(w, c, 0) && w.workers[c].attempts >= 1
    ensures Legal(w, steps) && NoReplay(steps) && OpensOnForeign(Run(w, steps), c)
  {
    steps := CountUp(w, c, 0);
    var take := LastClaimReachesTheOldToken(Run(w, steps), c, w.workers[c].attempts - 1);
    Extend(w, steps, take);
    steps := steps + [take];
  }

  // ---- the consumer's other work on the row ----

  function AtWork(w: World, consumer: string, d: DeliveryId): set<Claim> {
    set x | x in w.workers && w.workers[x].consumer == consumer && x.delivery == d && !w.workers[x].phase.HandBack?
  }

  /** Status writes that fail end a consumer's work on a row without touching a table or a hand-back. */
  lemma {:induction false} SettleOthers(w: World, consumer: string, c: Claim, n: nat) returns (steps: seq<Step>)
    requires Exposed(w, c, n)
    ensures Legal(w, steps) && NoReplay(steps)
    ensures Exposed(Run(w, steps), c, n) && Run(w, steps).workers[c] == w.workers[c]
    ensures NotAtWorkOn(Run(w, steps), consumer, {c.delivery})
    decreases |AtWork(w, consumer, c.delivery)|
  {
    steps := [];
    if x :| x in AtWork(w, consumer, c.delivery) {
      var gone := Step.Abandon(x);
      OneStep(w, gone);
      assert AtWork(Do(w, gone), consumer, c.delivery) == AtWork(w, consumer, c.delivery) - {x};
      var rest := SettleOthers(Do(w, gone), consumer, c, n);
      RunsCompose(w, [gone], rest);
      steps := [gone] + rest;
    } else {
      NobodyAtWork(w, consumer, c.delivery);
    }
  }

  lemma NobodyAtWork(w: World, consumer: string, d: DeliveryId)
    requires AtWork(w, consumer, d) == {}
    ensures NotAtWorkOn(w, consumer, {d})
  {
    forall x <- w.workers | w.workers[x].consumer == consumer && x.delivery == d ensures w.workers[x].phase.HandBack? {
      assert x !in AtWork(w, consumer, d);
    }
  }

  // ---- replaying under a hand-back ----

  /** A hand-back of the row is outstanding, and its token is within the row's budget. */
  ghost predicate HandBackWithinBudget(w: World, c: Claim) {
    && c in w.workers && w.workers[c].phase.HandBack?
    && c.delivery in w.db.deliveries && w.db.deliveries[c.delivery].subscriptionId in w.db.subscriptions
    && w.workers[c].attempts <= w.db.subscriptions[w.db.deliveries[c.delivery].subscriptionId].maxAttempts
  }

  /** The row may be replayed, and will be claimed again. */
  ghost predicate RunsAgain(w: World, d: DeliveryId) {
    && d in w.db.deliveries && Replayable(w.db.deliveries[d])
    && w.db.deliveries[d].subscriptionId in w.db.subscriptions
    && w.db.subscriptions[w.db.deliveries[d].subscriptionId].active
  }

  lemma ReplayedIsExposed(w: World, c: Claim)
    requires Inv(w) && HandBackWithinBudget(w, c) && RunsAgain(w, c.delivery)
    ensures Exposed(w.(db := LedgerOps.Replay(w.db, c.delivery)), c, 0) && w.workers[c].attempts >= 1
  {
    assert WorkerFits(w, c);
  }

  lemma ReplayedOpensForeignFence(w: World, c: Claim) returns (steps: seq<Step>)
    requires Inv(w) && HandBackWithinBudget(w, c) && RunsAgain(w, c.delivery)
    ensures var replayed := Do(w, Step.Replay(c.delivery));
      Legal(replayed, steps) && NoReplay(steps) && OpensOnForeign(Run(replayed, steps), c)
  {
    var replayed := Do(w, Step.Replay(c.delivery));
    ReplayedIsExposed(w, c);
    var settle := SettleOthers(replayed, w.workers[c].consumer, c, 0);
    var rest := RipeOpensForeignFence(Run(replayed, settle), c);
    RunsCompose(replayed, settle, rest);
    steps := settle + rest;
  }

  /**
   * Replaying a row under an outstanding hand-back of it can always end in
   * the hand-back's fence opening on a later claim, whenever the row may be
   * claimed at all and its budget reaches the old attempt.
   */
  lemma ReplayUnderHandBackOpensForeignFence(w: World, c: Claim) returns (steps: seq<Step>)
    requires Inv(w) && HandBackWithinBudget(w, c) && RunsAgain(w, c.delivery)
    ensures steps != [] && steps[0] == Step.Replay(c.delivery) && Legal(w, steps)
    ensures OpensOnForeign(Run(w, steps), c)
  {
    var replay := Step.Replay(c.delivery);
    OneStep(w, replay);
    var rest := ReplayedOpensForeignFence(w, c);
    RunsCompose(w, [replay], rest);
    steps := [replay] + rest;
  }

  /** In every state an orderly run from here reaches, each fence opens exactly for the live claim. */
  ghost predicate FencesStayExact(w: World) {
    forall steps :: Legal(w, steps) && OrderlyRun(w, steps) ==> FencesExact(Run(w, steps))
  }

  ghost predicate FencesExact(w: World) { forall c <- w.workers :: FenceOpens(w, c) <==> Live(w, c) }

  lemma OrderlyRunsStayExact(w: World)
    requires Inv(w) && TokensSpent(w)
    ensures FencesStayExact(w)
  {
    forall steps | Legal(w, steps) && OrderlyRun(w, steps) ensures FencesExact(Run(w, steps)) {
      RunKeepsTokens(w, steps);
      forall c <- Run(w, steps).workers ensures FenceOpens(Run(w, steps), c) <==> Live(Run(w, steps), c) {
        assert OwnToken(Run(w, steps), c);
        FenceIsOwnership(Run(w, steps), c);
      }
    }
  }

  /**
   * So the proviso is exact, one replay at a time: after the replay of a row
   * that will be claimed again, all fences stay exact over every orderly run
   * if and only if no hand-back of the row was outstanding.
   */
  lemma ReplayIsSafeIffOrderly(w: World, d: DeliveryId)
    requires Inv(w) && TokensSpent(w) && RunsAgain(w, d)
    requires forall c <- w.workers :: c.delivery == d && w.workers[c].phase.HandBack? ==> HandBackWithinBudget(w, c)
    ensures FencesStayExact(Do(w, Step.Replay(d))) <==> Orderly(w, Step.Replay(d))
  {
    var replay := Step.Replay(d);
    if Orderly(w, replay) {
      StepKeepsInv(w, replay);
      StepKeepsTokens(w, replay);
      OrderlyRunsStayExact(Do(w, replay));
    } else {
      var c :| c in w.workers && c.delivery == d && w.workers[c].phase.HandBack?;
      var steps := ReplayedOpensForeignFence(w, c);
      NoReplayIsOrderly(Do(w, replay), steps);
      assert !FencesExact(Run(Do(w, replay), steps));
    }
  }

  function Hook(org: string, topic: string, name: string): Subscription {
    Subscription(Some(org), topic, name, Webhook, 8, true, 0)
  }

  lemma PublishedIsReachable(org: string, topic: string, name: string) returns (steps: seq<Step>)
    ensures Legal(Empty, steps) && NoReplay(steps)
    ensures Run(Empty, steps) == Published(org, topic, name)
  {
    var add := Step.AddWebhook(0, Hook(org, topic, name));
    var w1 := Do(Empty, add);
    OneStep(Empty, add);
    assert Audience(w1.db, topic, Some(org)) == {0};
    var born: map<DeliveryId, SubscriptionId> := map[0 := 0];
    assert born.Values == {born[0]};
    var publish := Step.Publish(0, Some(org), topic, born);
    Extend(Empty, [add], publish);
    steps := [add] + [publish];
  }

  function Published(org: string, topic: string, name: string): World {
    World(Db(map[0 := Event(Some(org), topic, 0)], map[0 := Hook(org, topic, name)], map[0 := FreshDelivery(0, 0, 0)], map[], 0),
          map[], map[], 0, {0}, {})
  }

  lemma TakesTheOnlyRow(org: string, topic: string, name: string, pod: string)
    ensures var w := Published(org, topic, name);
      && Can(w, Step.Take(pod, {0}, ANY, 1, true))
      && var w' := AfterTake(w, pod, {0}, true);
      && w'.workers == map[Claim(0, 0) := Worker(pod, 0, 0, 1, 8, HandBack)]
      && w'.db.deliveries == map[0 := Delivery(0, 0, Running, 1, 0, Some(pod), Some(0), None)]
  {
    var w := Published(org, topic, name);
    assert MayPick(w.db, {0}, ANY, 1);
    var w' := AfterTake(w, pod, {0}, true);
    assert w'.workers == map[Claim(0, 0) := NewWorker(w.db, 0, pod, true)];
    assert w'.db.deliveries == map[0 := TakenRow(FreshDelivery(0, 0, 0), pod, 0)];
  }

  /** One webhook delivery, claimed at time 0 by a call that had already timed out. */
  lemma LateClaimIsReachable(org: string, topic: string, name: string, pod: string) returns (steps: seq<Step>)
    ensures Legal(Empty, steps) && NoReplay(steps)
    ensures var w := Run(Empty, steps);
      && w.workers == map[Claim(0, 0) := Worker(pod, 0, 0, 1, 8, HandBack)]
      && w.db.subscriptions == map[0 := Hook(org, topic, name)] && w.db.now == 0
      && w.db.deliveries == map[0 := Delivery(0, 0, Running, 1, 0, Some(pod), Some(0), None)]
  {
    var first := PublishedIsReachable(org, topic, name);
    TakesTheOnlyRow(org, topic, name, pod);
    Extend(Empty, first, Step.Take(pod, {0}, ANY, 1, true));
    steps := first + [Step.Take(pod, {0}, ANY, 1, true)];
  }

  /** A stale hand-back on a replayable row is reachable: a late commit, then a reaper. */
  lemma StaleHandBackIsReachable(org: string, topic: string, name: string, pod: string) returns (steps: seq<Step>, c: Claim)
    ensures Legal(Empty, steps) && OrderlyRun(Empty, steps)
    ensures var w := Run(Empty, steps);
      HandBackWithinBudget(w, c) && RunsAgain(w, c.delivery)
  {
    var first := LateClaimIsReachable(org, topic, name, pod);
    c := Claim(0, 0);
    Extend(Empty, first, Step.Pass(600_001));
    var w4 := Run(Empty, first + [Step.Pass(600_001)]);
    Extend(Empty, first + [Step.Pass(600_001)], Step.Requeue(600_000));
    assert IsStale(w4.db, 0, 600_000);
    steps := first + [Step.Pass(600_001)] + [Step.Requeue(600_000)];
    NoReplayIsOrderly(Empty, steps);
  }

  lemma {:induction false} NoReplayIsOrderly(w: World, steps: seq<Step>)
    requires Legal(w, steps) && NoReplay(steps)
    ensures OrderlyRun(w, steps)
    decreases |steps|
  {
    if steps != [] {
      NoReplayIsOrderly(w, steps[..|steps| - 1]);
      assert steps[|steps| - 1] in steps;
    }
  }

  /** So without the proviso on replays the fence is not exact: some run opens it for a claim that lost the row. */
  lemma FenceIsNotExactUnderEveryReplay() returns (steps: seq<Step>, c: Claim)
    ensures Legal(Empty, steps) && c in Run(Empty, steps).workers
    ensures FenceOpens(Run(Empty, steps), c) && !Live(Run(Empty, steps), c)
  {
    var first;
    first, c := StaleHandBackIsReachable("org", "order.created", "sync", "pod");
    RunKeepsInv(Empty, first);
    var rest := ReplayUnderHandBackOpensForeignFence(Run(Empty, first), c);
    RunsCompose(Empty, first, rest);
    steps := first + rest;
  }
}
