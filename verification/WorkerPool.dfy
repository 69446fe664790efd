/**
 * forEachLimited: a shared cursor drained by a fixed number of workers, and
 * the stale-claim floor that must outlast a batch.
 */
module WorkerPool {
  import Tables
  import LedgerOps

  /** `started[i]` is when item i started; items `started` has not reached are queued. */
  datatype Pool = Pool(now: nat, running: set<nat>, started: seq<nat>, finished: set<nat>)

  /** A batch of `items`, `limit` workers, and the longest one item may take. */
  datatype Job = Job(items: nat, limit: nat, period: nat)

  function Min(a: nat, b: nat): nat { if a < b then a else b }

  function UpTo(n: nat): (s: set<nat>)
    ensures |s| == n && forall i :: i in s <==> 0 <= i < n
  {
    if n == 0 then {} else UpTo(n - 1) + {n - 1}
  }

  /** Every worker takes one item before the first await. */
  function Begin(j: Job): Pool {
    var first := Min(j.limit, j.items);
    Pool(0, UpTo(first), seq(first, i => 0), {})
  }

  /** Time may pass as long as no running item overstays its period. */
  predicate CanWait(j: Job, p: Pool, ms: nat) {
    forall i <- p.running :: i < |p.started| && p.now + ms <= p.started[i] + j.period
  }

  function Wait(p: Pool, ms: nat): Pool { p.(now := p.now + ms) }

  /** An item settles, and its worker at once takes the next queued one. */
  function Settle(j: Job, p: Pool, i: nat): Pool {
    if |p.started| < j.items then
      Pool(p.now, p.running - {i} + {|p.started|}, p.started + [p.now], p.finished + {i})
    else p.(running := p.running - {i}, finished := p.finished + {i})
  }

  datatype Step = Waits(ms: nat) | Settles(item: nat)

  ghost predicate Can(j: Job, p: Pool, s: Step) {
    match s
    case Waits(ms) => p.running != {} && CanWait(j, p, ms)
    case Settles(i) => i in p.running
  }

  function Do(j: Job, p: Pool, s: Step): Pool {
    match s
    case Waits(ms) => Wait(p, ms)
    case Settles(i) => Settle(j, p, i)
  }

  ghost predicate Legal(j: Job, steps: seq<Step>)
    decreases |steps|, 0
  {
    steps == [] || (var n := |steps| - 1; Legal(j, steps[..n]) && Can(j, Run(j, steps[..n]), steps[n]))
  }

  ghost function Run(j: Job, steps: seq<Step>): Pool
    requires Legal(j, steps)
    decreases |steps|, 1
  {
    if steps == [] then Begin(j) else var n := |steps| - 1; Do(j, Run(j, steps[..n]), steps[n])
  }

  /** One period for each full round of items ahead of item i. */
  function StartBound(i: nat, limit: nat, period: nat): nat
    requires limit > 0
  {
    if i < limit then 0 else StartBound(i - limit, limit, period) + period
  }

  lemma {:induction false} StartBoundIsFloor(i: nat, limit: nat, period: nat)
    requires limit > 0
    ensures StartBound(i, limit, period) == (i / limit) * period
  {
    if i < limit {
      assert i / limit == 0;
    } else {
      StartBoundIsFloor(i - limit, limit, period);
      OneLess(i, limit);
      assert (i / limit) * period == ((i - limit) / limit) * period + period;
    }
  }

  lemma OneLess(i: nat, limit: nat)
    requires 0 < limit <= i
    ensures i / limit == (i - limit) / limit + 1
  {
    var q, r := (i - limit) / limit, (i - limit) % limit;
    Quotient(i, limit, q + 1, r);
  }

  lemma Quotient(x: nat, d: nat, q: nat, r: nat)
    requires r < d && x == q * d + r
    ensures x / d == q
  {
    var k: int := x / d - q;
    assert x == (x / d) * d + x % d;
    assert k * d == r - x % d;
    Multiple(k, d);
  }

  lemma Multiple(k: int, d: int)
    requires d > 0
    ensures k > 0 ==> k * d >= d
    ensures k < 0 ==> k * d <= -d
  {
  }

  lemma {:induction false} StartBoundGrows(a: nat, b: nat, limit: nat, period: nat)
    requires limit > 0 && a <= b
    ensures StartBound(a, limit, period) <= StartBound(b, limit, period)
    decreases b
  {
    if b >= limit { StartBoundGrows(if a < limit then 0 else a - limit, b - limit, limit, period); }
  }

  function EndBound(items: nat, limit: nat, period: nat): nat
    requires limit > 0
  {
    if items == 0 then 0 else StartBound(items - 1, limit, period) + period
  }

  function Rounds(items: nat, limit: nat): nat
    requires limit > 0
  {
    (items + limit - 1) / limit
  }

  lemma EndBoundIsCeil(items: nat, limit: nat, period: nat)
    requires limit > 0
    ensures EndBound(items, limit, period) == Rounds(items, limit) * period
  {
    if items == 0 {
      assert (limit - 1) / limit == 0;
    } else {
      StartBoundIsFloor(items + limit - 1, limit, period);
    }
  }

  /** Item i has started by floor(i / limit) periods. */
  ghost predicate OnTime(j: Job, p: Pool)
    requires j.limit > 0
  {
    forall i | 0 <= i < |p.started| :: p.started[i] <= StartBound(i, j.limit, j.period)
  }

  /** Every started item is either running or finished, never both. */
  ghost predicate EachOnce(p: Pool) {
    && p.running !! p.finished
    && (forall i <- p.running :: i < |p.started|)
    && (forall i <- p.finished :: i < |p.started|)
    && (forall i | 0 <= i < |p.started| :: i in p.running || i in p.finished)
  }

  ghost predicate Inv(j: Job, p: Pool)
    requires j.limit > 0
  {
    && |p.started| <= j.items && |p.running| <= j.limit
    && EachOnce(p)
    && (|p.started| < j.items ==> |p.running| == j.limit)
    && (forall i | 0 <= i < |p.started| :: p.started[i] <= p.now)
    && (forall i <- p.running :: p.now <= p.started[i] + j.period)
    && OnTime(j, p)
  }

  /** Of `n` distinct numbers below `m` one is at most m - n. */
  lemma LowRunner(s: set<nat>, m: nat, n: nat) returns (low: nat)
    requires |s| == n && n > 0 && forall i <- s :: i < m
    ensures low in s && low + n <= m
  {
    if forall i <- s :: i + n > m {
      if n <= m {
        var shifted := UpTo(m) - UpTo(m - n + 1);
        Complement(m - n + 1, m);
        Fits(s, shifted);
      } else {
        Fits(s, UpTo(m));
      }
    }
    low :| low in s && low + n <= m;
  }

  lemma Complement(a: nat, b: nat)
    requires a <= b
    ensures |UpTo(b) - UpTo(a)| == b - a
  {
    assert UpTo(a) <= UpTo(b);
    assert (UpTo(b) - UpTo(a)) + UpTo(a) == UpTo(b);
  }

  lemma Fits(a: set<nat>, b: set<nat>)
    requires a <= b
    ensures |a| <= |b|
  {
    assert a + (b - a) == b;
  }

  /** The queue's next item starts one period after some item a full round before it. */
  lemma NextIsOnTime(j: Job, p: Pool)
    requires j.limit > 0 && Inv(j, p) && |p.started| < j.items
    ensures p.now <= StartBound(|p.started|, j.limit, j.period)
  {
    var n := |p.started|;
    var low := LowRunner(p.running, n, j.limit);
    StartBoundGrows(low, n - j.limit, j.limit, j.period);
  }

  lemma BeginInv(j: Job)
    requires j.limit > 0
    ensures Inv(j, Begin(j))
  {
  }

  lemma SettleKeepsEachOnce(j: Job, p: Pool, i: nat)
    requires EachOnce(p) && i in p.running
    ensures EachOnce(Settle(j, p, i))
    ensures |Settle(j, p, i).running| == |p.running| - (if |p.started| < j.items then 0 else 1)
  {
    assert |p.running - {i}| == |p.running| - 1;
  }

  lemma SettleKeepsInv(j: Job, p: Pool, i: nat)
    requires j.limit > 0 && Inv(j, p) && i in p.running
    ensures Inv(j, Settle(j, p, i))
  {
    SettleKeepsEachOnce(j, p, i);
    if |p.started| < j.items {
      NextIsOnTime(j, p);
    }
  }

  lemma {:induction false} RunKeepsInv(j: Job, steps: seq<Step>)
    requires j.limit > 0 && Legal(j, steps)
    ensures Inv(j, Run(j, steps))
    decreases |steps|
  {
    if steps == [] {
      BeginInv(j);
    } else {
      var n := |steps| - 1;
      RunKeepsInv(j, steps[..n]);
      if steps[n].Settles? { SettleKeepsInv(j, Run(j, steps[..n]), steps[n].item); }
    }
  }

  /** However items interleave: at most `limit` at once, each once, item i by floor(i/limit) periods, all over in time. */
  lemma GreedyPoolBound(j: Job, steps: seq<Step>)
    requires j.limit > 0 && Legal(j, steps)
    ensures var p := Run(j, steps);
      && |p.running| <= j.limit
      && (forall i | 0 <= i < |p.started| :: p.started[i] <= (i / j.limit) * j.period)
      && EachOnce(p)
      && (p.running != {} ==> p.now <= Rounds(j.items, j.limit) * j.period)
      && (p.running == {} ==> |p.started| == j.items && forall i | 0 <= i < j.items :: i in p.finished)
  {
    RunKeepsInv(j, steps);
    var p := Run(j, steps);
    forall i | 0 <= i < |p.started|
      ensures p.started[i] <= (i / j.limit) * j.period
    {
      StartBoundIsFloor(i, j.limit, j.period);
    }
    if p.running != {} { RunningEndsInTime(j, p); }
    EndBoundIsCeil(j.items, j.limit, j.period);
  }

  lemma RunningEndsInTime(j: Job, p: Pool)
    requires j.limit > 0 && Inv(j, p) && p.running != {}
    ensures p.now <= EndBound(j.items, j.limit, j.period)
  {
    var i :| i in p.running;
    StartBoundGrows(i, j.items - 1, j.limit, j.period);
  }

  /** The pool once its item `i` settles at time `at`. */
  function SettledAt(j: Job, p: Pool, at: nat, i: nat): Pool { Settle(j, p.(now := at), i) }

  /** One turn of the loop: time passes while nothing overruns, then an item settles. */
  lemma TurnKeepsInv(j: Job, p: Pool, later: nat, settled: nat)
    requires j.limit > 0 && Inv(j, p) && settled in p.running
    requires p.now <= later && forall i <- p.running :: later <= p.started[i] + j.period
    ensures Inv(j, SettledAt(j, p, later, settled)) && later <= EndBound(j.items, j.limit, j.period)
  {
    RunningEndsInTime(j, p.(now := later));
    SettleKeepsInv(j, p.(now := later), settled);
  }

  lemma OverMeansAll(j: Job, p: Pool)
    requires j.limit > 0 && Inv(j, p) && p.running == {}
    ensures |p.started| == j.items && p.finished == UpTo(j.items)
  {
  }

  /** Some running item settles, at some time before any of them overruns. */
  method WhateverSettlesNext(j: Job, now: nat, running: set<nat>, started: seq<nat>, ghost finished: set<nat>)
    returns (later: nat, settled: nat)
    requires j.limit > 0 && Inv(j, Pool(now, running, started, finished)) && running != {}
    ensures now <= later && settled in running && forall i <- running :: later <= started[i] + j.period
  {
    later :| now <= later && forall i <- running :: later <= started[i] + j.period;
    settled :| settled in running;
  }

  /** The loop itself: `next` is shared by the workers; which one settles next, and when, is up to the handlers. */
  method ForEachLimited(j: Job) returns (started: seq<nat>, finished: set<nat>, end: nat)
    requires j.limit > 0
    ensures |started| == j.items && finished == UpTo(j.items)
    ensures forall i | 0 <= i < j.items :: started[i] <= StartBound(i, j.limit, j.period)
    ensures end <= EndBound(j.items, j.limit, j.period)
  {
    var first := Min(j.limit, j.items);
    var next := first;
    var now: nat := 0;
    var running := UpTo(first);
    started := seq(first, i => 0);
    finished := {};
    BeginInv(j);
    while running != {}
      invariant next == |started| && Inv(j, Pool(now, running, started, finished))
      invariant now <= EndBound(j.items, j.limit, j.period)
      decreases j.items - next + |running|
    {
      ghost var p := Pool(now, running, started, finished);
      var later, settled := WhateverSettlesNext(j, now, running, started, finished);
      TurnKeepsInv(j, p, later, settled);
      now, running, finished := later, running - {settled}, finished + {settled};
      if next < j.items {
        started := started + [now];
        running := running + {next};
        next := next + 1;
      }
      assert Pool(now, running, started, finished) == SettledAt(j, p, later, settled);
    }
    OverMeansAll(j, Pool(now, running, started, finished));
    end := now;
  }

  // ---- the stale-claim floor ----

  const WRITE_TIMEOUT_MS := 5_000
  const STALE_CLAIM_SLACK_MS := 60_000

  function StaleClaimFloorMs(batch: nat, concurrency: nat, handlerTimeoutMs: nat): nat
    requires concurrency > 0
  {
    Rounds(batch, concurrency) * (handlerTimeoutMs + WRITE_TIMEOUT_MS) + STALE_CLAIM_SLACK_MS
  }

  /** The configured window, but never less than the floor. */
  function StaleClaimMs(configured: nat, batch: nat, concurrency: nat, handlerTimeoutMs: nat): (ms: nat)
    requires concurrency > 0
    ensures ms >= configured && ms >= StaleClaimFloorMs(batch, concurrency, handlerTimeoutMs)
    ensures ms == configured || ms == StaleClaimFloorMs(batch, concurrency, handlerTimeoutMs)
  {
    var floor := StaleClaimFloorMs(batch, concurrency, handlerTimeoutMs);
    if configured < floor then floor else configured
  }

  lemma EndBoundGrows(items: nat, batch: nat, limit: nat, period: nat)
    requires limit > 0 && items <= batch
    ensures EndBound(items, limit, period) <= EndBound(batch, limit, period)
  {
    if items > 0 { StartBoundGrows(items - 1, batch - 1, limit, period); }
  }

  lemma RunningBatchIsWithinItsRounds(j: Job, steps: seq<Step>)
    requires j.limit > 0 && Legal(j, steps) && Run(j, steps).running != {}
    ensures Run(j, steps).now <= Rounds(j.items, j.limit) * j.period
  {
    RunKeepsInv(j, steps);
    RunningEndsInTime(j, Run(j, steps));
    EndBoundIsCeil(j.items, j.limit, j.period);
  }

  /**
   * A row claimed `lag` before its batch began, within the slack, is never
   * stale for a peer's reaper while the batch is not over, whatever an item
   * can take, if the stale window covers all rounds and the slack.
   */
  lemma ReaperSparesARunningBatch(
    db: Tables.Db, d: Tables.DeliveryId, j: Job, windowMs: nat, steps: seq<Step>, lag: nat)
    requires j.limit > 0 && lag <= STALE_CLAIM_SLACK_MS
    requires Rounds(j.items, j.limit) * j.period + STALE_CLAIM_SLACK_MS <= windowMs
    requires Legal(j, steps) && Run(j, steps).running != {}
    requires d in db.deliveries && db.deliveries[d].claimedAt.Some?
    requires db.now == db.deliveries[d].claimedAt.value + lag + Run(j, steps).now
    ensures !LedgerOps.IsStale(db, d, windowMs)
  {
    RunningBatchIsWithinItsRounds(j, steps);
  }

  /** The consumer's window does, for batches up to its size, if no item takes longer than the handler timeout and one write. */
  lemma FloorCoversOneWrite(items: nat, batch: nat, concurrency: nat, handlerTimeoutMs: nat, configured: nat)
    requires concurrency > 0 && items <= batch
    ensures Rounds(items, concurrency) * (handlerTimeoutMs + WRITE_TIMEOUT_MS) + STALE_CLAIM_SLACK_MS
         <= StaleClaimMs(configured, batch, concurrency, handlerTimeoutMs)
  {
    var period := handlerTimeoutMs + WRITE_TIMEOUT_MS;
    EndBoundIsCeil(items, concurrency, period);
    EndBoundIsCeil(batch, concurrency, period);
    EndBoundGrows(items, batch, concurrency, period);
  }

  // ---- the bound is tight ----

  /** Items lo..hi-1 running, all started at their bound, the clock at the last start. */
  ghost predicate Lockstep(j: Job, p: Pool, lo: nat, hi: nat)
    requires j.limit > 0
  {
    && lo < hi == |p.started| <= j.items
    && (forall i :: i in p.running <==> lo <= i < hi)
    && (forall i | 0 <= i < hi :: p.started[i] == StartBound(i, j.limit, j.period))
    && p.now == StartBound(hi - 1, j.limit, j.period)
  }

  lemma Then(j: Job, steps: seq<Step>, s: Step)
    requires Legal(j, steps) && Can(j, Run(j, steps), s)
    ensures Legal(j, steps + [s]) && Run(j, steps + [s]) == Do(j, Run(j, steps), s)
  {
    var more := steps + [s];
    assert more[..|more| - 1] == steps && more[|more| - 1] == s;
  }

  /** Wait until the oldest running item is due, then settle it: the next one starts at its bound. */
  lemma AdvanceOne(j: Job, p: Pool, hi: nat)
    requires 0 < j.limit <= hi < j.items && Lockstep(j, p, hi - j.limit, hi)
    ensures var at := StartBound(hi, j.limit, j.period);
      && at >= p.now && CanWait(j, p, at - p.now) && hi - j.limit in p.running
      && Lockstep(j, SettledAt(j, p, at, hi - j.limit), hi + 1 - j.limit, hi + 1)
  {
    StartBoundGrows(hi - 1, hi, j.limit, j.period);
    forall i <- p.running
      ensures StartBound(hi, j.limit, j.period) <= p.started[i] + j.period
    {
      StartBoundGrows(hi - j.limit, i, j.limit, j.period);
    }
  }

  lemma WaitAndSettle(j: Job, steps: seq<Step>, at: nat, i: nat) returns (more: seq<Step>)
    requires Legal(j, steps) && at >= Run(j, steps).now
    requires CanWait(j, Run(j, steps), at - Run(j, steps).now) && i in Run(j, steps).running
    ensures Legal(j, more) && Run(j, more) == SettledAt(j, Run(j, steps), at, i)
  {
    var p := Run(j, steps);
    var wait := Waits(at - p.now);
    var waited := steps + [wait];
    Then(j, steps, wait);
    assert Run(j, waited) == p.(now := at);
    Then(j, waited, Settles(i));
    more := waited + [Settles(i)];
  }

  lemma RampOne(j: Job, steps: seq<Step>, p: Pool, hi: nat) returns (more: seq<Step>)
    requires 0 < j.limit <= hi < j.items && Legal(j, steps) && Run(j, steps) == p && Lockstep(j, p, hi - j.limit, hi)
    ensures Legal(j, more) && Lockstep(j, Run(j, more), hi + 1 - j.limit, hi + 1)
  {
    AdvanceOne(j, p, hi);
    more := WaitAndSettle(j, steps, StartBound(hi, j.limit, j.period), hi - j.limit);
  }

  lemma {:induction false} Ramp(j: Job, steps: seq<Step>, p: Pool, hi: nat) returns (more: seq<Step>)
    requires 0 < j.limit <= hi <= j.items && Legal(j, steps) && Run(j, steps) == p && Lockstep(j, p, hi - j.limit, hi)
    ensures Legal(j, more) && Lockstep(j, Run(j, more), j.items - j.limit, j.items)
    decreases j.items - hi
  {
    more := steps;
    if hi < j.items {
      more := RampOne(j, steps, p, hi);
      more := Ramp(j, more, Run(j, more), hi + 1);
    }
  }

  /** Settle everything but the last item on the spot. */
  lemma Drain(j: Job, steps: seq<Step>, lo: nat) returns (more: seq<Step>)
    requires j.limit > 0 && Legal(j, steps) && Lockstep(j, Run(j, steps), lo, j.items)
    ensures Legal(j, more) && Lockstep(j, Run(j, more), j.items - 1, j.items)
    decreases j.items - lo
  {
    more := steps;
    if lo + 1 < j.items {
      Then(j, steps, Settles(lo));
      more := Drain(j, steps + [Settles(lo)], lo + 1);
    }
  }

  lemma BeginInLockstep(j: Job)
    requires j.limit > 0 && j.items > 0
    ensures Lockstep(j, Begin(j), 0, Min(j.limit, j.items))
  {
  }

  /** Some schedule keeps the batch running up to the very bound. */
  lemma BoundIsReached(j: Job) returns (steps: seq<Step>)
    requires j.limit > 0 && j.items > 0
    ensures Legal(j, steps) && Run(j, steps).running != {}
    ensures Run(j, steps).now == Rounds(j.items, j.limit) * j.period
  {
    BeginInLockstep(j);
    if j.items <= j.limit {
      steps := Drain(j, [], 0);
    } else {
      steps := Ramp(j, [], Begin(j), j.limit);
      steps := Drain(j, steps, j.items - j.limit);
    }
    assert j.items - 1 in Run(j, steps).running;
    Then(j, steps, Waits(j.period));
    steps := steps + [Waits(j.period)];
    EndBoundIsCeil(j.items, j.limit, j.period);
  }

  /** A stale window is safe for every schedule of a batch exactly when it covers all its rounds. */
  lemma WindowIsSafeIffItCoversTheRounds(j: Job, windowMs: nat)
    requires j.limit > 0 && j.items > 0
    ensures (forall steps :: Legal(j, steps) && Run(j, steps).running != {} ==> Run(j, steps).now <= windowMs)
       <==> Rounds(j.items, j.limit) * j.period <= windowMs
  {
    if Rounds(j.items, j.limit) * j.period <= windowMs {
      forall steps | Legal(j, steps)
        ensures Run(j, steps).running != {} ==> Run(j, steps).now <= windowMs
      {
        GreedyPoolBound(j, steps);
      }
    } else {
      var steps := BoundIsReached(j);
      assert Run(j, steps).now > windowMs;
    }
  }

  /** A row claimed within the slack before its batch is older than the window while the batch runs. */
  ghost predicate Overaged(j: Job, steps: seq<Step>, lag: nat, windowMs: nat)
    requires j.limit > 0
  {
    && lag <= STALE_CLAIM_SLACK_MS && Legal(j, steps) && Run(j, steps).running != {}
    && lag + Run(j, steps).now > windowMs
  }

  /** With that slack, no schedule lets a row of the batch get older than the window exactly if it covers the rounds and the slack. */
  lemma RowsStayFreshIffWindowCovers(j: Job, windowMs: nat)
    requires j.limit > 0 && j.items > 0
    ensures (forall steps, lag :: !Overaged(j, steps, lag, windowMs))
       <==> Rounds(j.items, j.limit) * j.period + STALE_CLAIM_SLACK_MS <= windowMs
  {
    if Rounds(j.items, j.limit) * j.period + STALE_CLAIM_SLACK_MS <= windowMs {
      forall steps, lag ensures !Overaged(j, steps, lag, windowMs) {
        if Legal(j, steps) && Run(j, steps).running != {} { RunningBatchIsWithinItsRounds(j, steps); }
      }
    } else {
      var steps := BoundIsReached(j);
      assert Overaged(j, steps, STALE_CLAIM_SLACK_MS, windowMs);
    }
  }

  /** Reserving the key, completing and then failing can each take a full write on top of the handler. */
  function ItemWorstMs(handlerTimeoutMs: nat): nat { handlerTimeoutMs + 3 * WRITE_TIMEOUT_MS }

  /** The floor is short of the worst a batch can take; the default window of ten minutes is not. */
  lemma DefaultFigures()
    ensures Rounds(25, 4) * ItemWorstMs(30_000) == 315_000
    ensures StaleClaimFloorMs(25, 4, 30_000) == 305_000
    ensures Rounds(25, 4) * ItemWorstMs(30_000) + STALE_CLAIM_SLACK_MS <= StaleClaimMs(600_000, 25, 4, 30_000) == 600_000
  {
    assert Rounds(25, 4) == 7;
  }

  /** The floor budgets one write per item: at the default batch, concurrency and timeout it is too short for three. */
  lemma FloorIsShortOfThreeWrites() returns (steps: seq<Step>)
    ensures var j := Job(25, 4, ItemWorstMs(30_000));
      && Legal(j, steps) && Run(j, steps).running != {}
      && Run(j, steps).now > StaleClaimMs(60_000, 25, 4, 30_000) == StaleClaimFloorMs(25, 4, 30_000)
  {
    steps := BoundIsReached(Job(25, 4, ItemWorstMs(30_000)));
    DefaultFigures();
  }
}
