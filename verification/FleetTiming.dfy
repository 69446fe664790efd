/**
 * A fleet whose batches are drained by greedy pools on the database's clock:
 * the stale-claim reaper, whoever runs it, leaves work in progress alone.
 */
module FleetTiming {
  import opened Tables
  import opened LedgerOps
  import Race = ClaimRace
  import Ledger = LedgerWorld
  import LedgerInvariants
  import opened Fleet = ConsumerFleet
  import Pools = WorkerPool

  /** Concurrency, the longest an item takes, and the batch size of every pod. */
  datatype Figures = Figures(limit: nat, period: nat, batch: nat)

  /** All rounds of a full batch, and the slack. */
  function Window(g: Figures): nat
    requires g.limit > 0
  {
    Pools.Rounds(g.batch, g.limit) * g.period + Pools.STALE_CLAIM_SLACK_MS
  }

  datatype Batch = Batch(pod: string, tick: nat)

  /** A batch in progress: its rows in order, when its pool began, and the pool. */
  datatype Watch = Watch(items: seq<DeliveryId>, began: Time, pool: Pools.Pool)

  datatype Timed = Timed(fleet: Fleet.Fleet, watches: map<Batch, Watch>)

  datatype TimedStep =
    | Plain(s: Fleet.Step)
    | Begins(pod: string, tick: nat, items: seq<DeliveryId>)
    | ItemSettles(pod: string, tick: nat, item: nat)

  function JobOf(g: Figures, v: Watch): Pools.Job { Pools.Job(|v.items|, g.limit, g.period) }

  /** The caller waits for a claim that committed. */
  predicate Due(a: Attempt) { OnTime(a) && a.call.caller.Waiting? }

  /** Time passes only as far as no running item overstays its period, and no batch starts later than the slack after its claim. */
  ghost predicate MayPass(g: Figures, t: Timed, ms: nat) {
    && (forall b <- t.watches :: t.watches[b].pool.running != {} ==> Pools.CanWait(JobOf(g, t.watches[b]), t.watches[b].pool, ms))
    && (forall pod, tick :: HasCall(t.fleet, pod, tick) && Due(t.fleet.pods[pod].calls[tick]) ==>
          t.fleet.w.db.now + ms <= t.fleet.pods[pod].calls[tick].at + Pools.STALE_CLAIM_SLACK_MS)
  }

  predicate PassesTime(s: Fleet.Step) { s.Writes? && s.write.Pass? }

  ghost predicate PlainCan(g: Figures, t: Timed, s: Fleet.Step) {
    && Fleet.Can(t.fleet, s)
    && (s.Races? ==> !(s.event.Settle? && Due(t.fleet.pods[s.pod].calls[s.tick])))
    && (s.Commits? ==> ClaimLimit(s.batch) <= g.batch)
    && (s.Ends? && Batch(s.pod, s.tick) in t.watches ==> t.watches[Batch(s.pod, s.tick)].pool.running == {})
    && (PassesTime(s) ==> MayPass(g, t, s.write.ms))
  }

  ghost predicate TimedCan(g: Figures, t: Timed, s: TimedStep) {
    match s
    case Plain(m) => PlainCan(g, t, m)
    case Begins(pod, tick, items) =>
      && Fleet.Can(t.fleet, Races(pod, tick, Race.Settle))
      && var a := t.fleet.pods[pod].calls[tick];
      Due(a) && |items| == |a.rows| && forall d <- a.rows :: d in items
    case ItemSettles(pod, tick, item) =>
      && HasCall(t.fleet, pod, tick) && Batch(pod, tick) in t.watches
      && var v := t.watches[Batch(pod, tick)];
      && item in v.pool.running && item < |v.items|
      && Ledger.Claim(v.items[item], t.fleet.pods[pod].calls[tick].turn) !in t.fleet.w.workers
  }

  function Waited(v: Watch, ms: nat): Watch { if v.pool.running == {} then v else v.(pool := Pools.Wait(v.pool, ms)) }

  function WatchesAfter(t: Timed, s: Fleet.Step): map<Batch, Watch> {
    if PassesTime(s) then map b | b in t.watches :: Waited(t.watches[b], s.write.ms)
    else if s.Ends? then t.watches - {Batch(s.pod, s.tick)}
    else if s.Restarts? then map b | b in t.watches && b.pod != s.pod :: t.watches[b]
    else t.watches
  }

  function TimedDo(g: Figures, t: Timed, s: TimedStep): Timed
    requires TimedCan(g, t, s)
  {
    match s
    case Plain(m) => Timed(Fleet.Do(t.fleet, m), WatchesAfter(t, m))
    case Begins(pod, tick, items) =>
      Timed(Fleet.Do(t.fleet, Races(pod, tick, Race.Settle)),
            t.watches[Batch(pod, tick) := Watch(items, t.fleet.w.db.now, Pools.Begin(Pools.Job(|items|, g.limit, g.period)))])
    case ItemSettles(pod, tick, item) =>
      var v := t.watches[Batch(pod, tick)];
      t.(watches := t.watches[Batch(pod, tick) := v.(pool := Pools.Settle(JobOf(g, v), v.pool, item))])
  }

  ghost predicate TimedLegal(g: Figures, pods: set<string>, steps: seq<TimedStep>)
    decreases |steps|, 0
  {
    steps == [] || (var n := |steps| - 1; TimedLegal(g, pods, steps[..n]) && TimedCan(g, TimedRun(g, pods, steps[..n]), steps[n]))
  }

  ghost function TimedRun(g: Figures, pods: set<string>, steps: seq<TimedStep>): Timed
    requires TimedLegal(g, pods, steps)
    decreases |steps|, 1
  {
    if steps == [] then Timed(Fresh(pods), map[]) else var n := |steps| - 1; TimedDo(g, TimedRun(g, pods, steps[..n]), steps[n])
  }

  ghost predicate TimedPatient(t: Timed, s: TimedStep) { s.Plain? ==> Patient(t.fleet, s.s) }

  ghost predicate TimedPatientRun(g: Figures, pods: set<string>, steps: seq<TimedStep>) {
    steps == [] || (var n := |steps| - 1;
      && TimedPatientRun(g, pods, steps[..n]) && TimedLegal(g, pods, steps)
      && TimedPatient(TimedRun(g, pods, steps[..n]), steps[n]))
  }

  // ---- it is a fleet ----

  /** The fleet's part of the run. */
  function FleetSteps(steps: seq<TimedStep>): seq<Fleet.Step> {
    if steps == [] then []
    else
      var n := |steps| - 1;
      match steps[n]
      case Plain(m) => FleetSteps(steps[..n]) + [m]
      case Begins(pod, tick, _) => FleetSteps(steps[..n]) + [Races(pod, tick, Race.Settle)]
      case ItemSettles(_, _, _) => FleetSteps(steps[..n])
  }

  lemma FleetOneMore(pods: set<string>, steps: seq<Fleet.Step>, m: Fleet.Step)
    requires Legal(pods, steps) && Fleet.Can(Run(pods, steps), m)
    ensures Legal(pods, steps + [m]) && Run(pods, steps + [m]) == Fleet.Do(Run(pods, steps), m)
    ensures PatientRun(pods, steps) && Patient(Run(pods, steps), m) ==> PatientRun(pods, steps + [m])
  {
    var more := steps + [m];
    assert more[..|more| - 1] == steps && more[|more| - 1] == m;
  }

  /** Without its pools and its clock the run is a run of the fleet, so its results hold here as well. */
  lemma {:induction false} TimedRunIsAFleetRun(g: Figures, pods: set<string>, steps: seq<TimedStep>)
    requires TimedLegal(g, pods, steps)
    ensures Legal(pods, FleetSteps(steps)) && Run(pods, FleetSteps(steps)) == TimedRun(g, pods, steps).fleet
    ensures TimedPatientRun(g, pods, steps) ==> PatientRun(pods, FleetSteps(steps))
    decreases |steps|
  {
    if steps != [] {
      var n := |steps| - 1;
      TimedRunIsAFleetRun(g, pods, steps[..n]);
      if steps[n].Plain? { FleetOneMore(pods, FleetSteps(steps[..n]), steps[n].s); }
      if steps[n].Begins? { FleetOneMore(pods, FleetSteps(steps[..n]), Races(steps[n].pod, steps[n].tick, Race.Settle)); }
    }
  }

  // ---- what holds of a batch in progress ----

  ghost predicate WatchFits(g: Figures, w: Ledger.World, a: Attempt, v: Watch)
    requires g.limit > 0
  {
    && Pools.Inv(JobOf(g, v), v.pool) && |v.items| <= g.batch && (forall d <- a.rows :: d in v.items)
    && v.began <= a.at + Pools.STALE_CLAIM_SLACK_MS
    && (v.pool.running != {} ==> w.db.now == v.began + v.pool.now)
    && (forall i <- v.pool.finished :: i < |v.items| && Ledger.Claim(v.items[i], a.turn) !in w.workers)
  }

  /** The rows still in this claim carry its time. */
  ghost predicate Stamped(w: Ledger.World, turn: nat, at: Time) {
    forall d <- w.db.deliveries :: Ledger.Live(w, Ledger.Claim(d, turn)) ==> w.db.deliveries[d].claimedAt == Some(at)
  }

  ghost predicate AttemptTimed(g: Figures, w: Ledger.World, a: Attempt, watches: map<Batch, Watch>, b: Batch)
    requires g.limit > 0
  {
    && |a.rows| <= g.batch && a.turn < w.turn && Stamped(w, a.turn, a.at)
    && (a.call.caller.Waiting? ==> w.db.now <= a.at + Pools.STALE_CLAIM_SLACK_MS)
    && (a.call.caller.HasRows? ==> b in watches && WatchFits(g, w, a, watches[b]))
  }

  /** The call of an executing tick whose claim committed in time. */
  predicate OpenIn(p: Pod, tick: nat) { tick in p.calls && tick in p.ticks && OnTime(p.calls[tick]) }

  predicate Open(f: Fleet.Fleet, pod: string, tick: nat) { pod in f.pods && OpenIn(f.pods[pod], tick) }

  ghost predicate TimedInv(g: Figures, t: Timed)
    requires g.limit > 0
  {
    && Fleet.Inv(t.fleet) && LedgerInvariants.Inv(t.fleet.w)
    && (forall pod, tick :: Open(t.fleet, pod, tick) ==>
          AttemptTimed(g, t.fleet.w, t.fleet.pods[pod].calls[tick], t.watches, Batch(pod, tick)))
  }

  /** Work in progress is younger than the window. */
  lemma WorkIsFresh(g: Figures, w: Ledger.World, a: Attempt, watches: map<Batch, Watch>, b: Batch, c: Ledger.Claim)
    requires g.limit > 0 && AttemptTimed(g, w, a, watches, b) && (a.call.caller.Waiting? || a.call.caller.HasRows?)
    requires c in w.workers && c.turn == a.turn && c.delivery in a.rows
    ensures w.db.now <= a.at + Window(g)
  {
    if a.call.caller.HasRows? {
      var v := watches[b];
      var i :| 0 <= i < |v.items| && v.items[i] == c.delivery;
      assert i !in v.pool.finished;
      assert v.pool.running != {};
      Pools.RunningEndsInTime(JobOf(g, v), v.pool);
      Pools.EndBoundGrows(|v.items|, g.batch, g.limit, g.period);
      Pools.EndBoundIsCeil(g.batch, g.limit, g.period);
    }
  }

  /** So it is not stale. */
  lemma InvSparesWork(g: Figures, t: Timed, c: Ledger.Claim, staleMs: nat)
    requires g.limit > 0 && TimedInv(g, t) && Window(g) <= staleMs
    requires c in t.fleet.w.workers && !t.fleet.w.workers[c].phase.HandBack? && Ledger.Live(t.fleet.w, c)
    ensures !IsStale(t.fleet.w.db, c.delivery, staleMs)
  {
    var w := t.fleet.w;
    var pod := w.workers[c].consumer;
    var p := t.fleet.pods[pod];
    assert PodFits(w, pod, p) && AtWork(w, c, pod);
    var tick :| Serving(p, c, tick);
    assert Open(t.fleet, pod, tick);
    WorkIsFresh(g, w, p.calls[tick], t.watches, Batch(pod, tick), c);
  }

  // ---- what the ledger keeps meanwhile ----

  /** Old claims get no new worker, and a row still in one is as it was stamped. */
  ghost predicate Ages(w: Ledger.World, after: Ledger.World) {
    && w.turn <= after.turn
    && (forall c <- after.workers :: c.turn < w.turn ==> c in w.workers)
    && (forall d <- after.db.deliveries, turn: nat | turn < w.turn && Ledger.Live(after, Ledger.Claim(d, turn)) ::
          && Ledger.Live(w, Ledger.Claim(d, turn))
          && after.db.deliveries[d].claimedAt == w.db.deliveries[d].claimedAt)
  }

  predicate WritesARow(m: Ledger.Step) { m.Complete? || m.Fail? || m.Release? || m.Requeue? || m.Replay? }

  lemma WritesAge(w: Ledger.World, m: Ledger.Step)
    requires Ledger.Can(w, m) && WritesARow(m)
    ensures Ages(w, Ledger.Do(w, m)) && Ledger.Do(w, m).db.now == w.db.now
  {
  }

  lemma PublishAges(w: Ledger.World, m: Ledger.Step)
    requires Ledger.Can(w, m) && m.Publish?
    ensures Ages(w, Ledger.Do(w, m)) && Ledger.Do(w, m).db.now == w.db.now
  {
  }

  lemma TakeAges(w: Ledger.World, m: Ledger.Step)
    requires LedgerInvariants.Inv(w) && Ledger.Can(w, m) && m.Take?
    ensures Ages(w, Ledger.Do(w, m)) && Ledger.Do(w, m).db.now == w.db.now
  {
  }

  lemma SweepsAge(w: Ledger.World, m: Ledger.Step)
    requires Ledger.Can(w, m) && (m.SweepDone? || m.SweepEvents?)
    ensures Ages(w, Ledger.Do(w, m)) && Ledger.Do(w, m).db.now == w.db.now
  {
  }

  lemma OthersAge(w: Ledger.World, m: Ledger.Step)
    requires Ledger.Can(w, m) && !WritesARow(m) && !m.Publish? && !m.Take? && !m.SweepDone? && !m.SweepEvents?
    ensures Ages(w, Ledger.Do(w, m))
    ensures Ledger.Do(w, m).db.now == w.db.now + (if m.Pass? then m.ms else 0)
  {
    assert Ledger.Do(w, m).db.deliveries == w.db.deliveries && Ledger.Do(w, m).owner == w.owner;
  }

  lemma LedgerAges(w: Ledger.World, m: Ledger.Step)
    requires LedgerInvariants.Inv(w) && Ledger.Can(w, m)
    ensures Ages(w, Ledger.Do(w, m))
    ensures Ledger.Do(w, m).db.now == w.db.now + (if m.Pass? then m.ms else 0)
  {
    if WritesARow(m) { WritesAge(w, m); }
    else if m.Publish? { PublishAges(w, m); }
    else if m.Take? { TakeAges(w, m); }
    else if m.SweepDone? || m.SweepEvents? { SweepsAge(w, m); }
    else { OthersAge(w, m); }
  }

  lemma FleetAges(f: Fleet.Fleet, s: Fleet.Step)
    requires Fleet.Inv(f) && LedgerInvariants.Inv(f.w) && Fleet.Can(f, s)
    ensures Ages(f.w, LedgerAfter(f, s)) && LedgerInvariants.Inv(LedgerAfter(f, s))
    ensures LedgerAfter(f, s).db.now == f.w.db.now + (if PassesTime(s) then s.write.ms else 0)
  {
    StepFollows(f, s);
    var m := LedgerStep(f, s);
    if m.Some? {
      LedgerAges(f.w, m.value);
      LedgerInvariants.StepKeepsInv(f.w, m.value);
    }
  }

  /** The claim just made carries its time. */
  lemma NewClaimIsStamped(w: Ledger.World, pod: string, rows: set<DeliveryId>, late: bool)
    requires LedgerInvariants.Inv(w)
    requires forall d <- rows :: d in w.db.deliveries && w.db.deliveries[d].subscriptionId in w.db.subscriptions
    ensures Stamped(Ledger.AfterTake(w, pod, rows, late), w.turn, w.db.now)
  {
  }

  // ---- steps without time ----

  /** An attempt that the step leaves alone stays timed. */
  lemma AttemptStaysTimed(g: Figures, w: Ledger.World, after: Ledger.World, a: Attempt, watches: map<Batch, Watch>,
                          later: map<Batch, Watch>, b: Batch)
    requires g.limit > 0 && AttemptTimed(g, w, a, watches, b) && Ages(w, after) && after.db.now == w.db.now
    requires b in watches ==> b in later && later[b] == watches[b]
    ensures AttemptTimed(g, after, a, later, b)
  {
  }

  /** Nothing but its settling happens to a call that committed in time. */
  lemma OpenCallWaitsForSettle(a: Attempt, e: Race.Step)
    requires Race.Inv(a.call) && AttemptFits(a) && Race.Can(a.call, e) && !e.Update? && !e.Commit? && Foretold(a, e)
    ensures OnTime(a.(call := Race.Do(a.call, e))) ==> e.Settle? && Due(a)
  {
  }

  lemma OwnOpenIsOldOrNew(w: Ledger.World, p: Pod, s: Fleet.Step, tick: nat)
    requires LoopFits(p) && CallsFit(p) && !s.Writes? && PodCan(w, p, s) && OpenIn(PodAfter(w, p, s), tick)
    requires s.Races? ==> !(s.event.Settle? && Due(p.calls[s.tick]))
    ensures (s.Commits? && s.tick == tick && !s.late) || (OpenIn(p, tick) && PodAfter(w, p, s).calls[tick] == p.calls[tick])
  {
    if s.Races? && s.tick == tick { OpenCallWaitsForSettle(p.calls[tick], s.event); }
  }

  /** An open call was open before, or just committed in time. */
  lemma OpenIsOldOrNew(f: Fleet.Fleet, s: Fleet.Step, pod: string, tick: nat)
    requires Fleet.Inv(f) && Fleet.Can(f, s) && Open(Fleet.Do(f, s), pod, tick)
    requires s.Races? ==> !(s.event.Settle? && Due(f.pods[s.pod].calls[s.tick]))
    ensures (s.Commits? && s.pod == pod && s.tick == tick && !s.late)
            || (Open(f, pod, tick) && Fleet.Do(f, s).pods[pod].calls[tick] == f.pods[pod].calls[tick])
  {
    if !s.Writes? && s.pod == pod {
      assert PodFits(f.w, pod, f.pods[pod]);
      OwnOpenIsOldOrNew(f.w, f.pods[pod], s, tick);
    }
  }

  /** An open call's watch goes only with its tick. */
  lemma WatchStays(t: Timed, s: Fleet.Step, pod: string, tick: nat)
    requires Fleet.Can(t.fleet, s) && !PassesTime(s) && Open(Fleet.Do(t.fleet, s), pod, tick)
    requires Batch(pod, tick) in t.watches
    ensures Batch(pod, tick) in WatchesAfter(t, s) && WatchesAfter(t, s)[Batch(pod, tick)] == t.watches[Batch(pod, tick)]
  {
  }

  lemma CommittedIsTimed(g: Figures, w: Ledger.World, a: Attempt, pod: string, filter: ClaimFilter, batch: int,
                         watches: map<Batch, Watch>, b: Batch)
    requires g.limit > 0 && LedgerInvariants.Inv(w) && Race.Inv(a.call) && Race.Can(a.call, Race.Commit)
    requires MayPick(w.db, a.rows, filter, batch) && ClaimLimit(batch) <= g.batch
    ensures AttemptTimed(g, Ledger.AfterTake(w, pod, a.rows, false), Committed(w, a, false), watches, b)
  {
    NewClaimIsStamped(w, pod, a.rows, false);
  }

  lemma CommitIsTimed(g: Figures, f: Fleet.Fleet, s: Fleet.Step, watches: map<Batch, Watch>)
    requires g.limit > 0 && Fleet.Inv(f) && LedgerInvariants.Inv(f.w) && Fleet.Can(f, s)
    requires s.Commits? && !s.late && ClaimLimit(s.batch) <= g.batch
    ensures AttemptTimed(g, LedgerAfter(f, s), PodAfter(f.w, f.pods[s.pod], s).calls[s.tick], watches, Batch(s.pod, s.tick))
  {
    assert PodFits(f.w, s.pod, f.pods[s.pod]);
    CommittedIsTimed(g, f.w, f.pods[s.pod].calls[s.tick], s.pod, s.filter, s.batch, watches, Batch(s.pod, s.tick));
  }

  lemma PlainKeepsCall(g: Figures, t: Timed, s: Fleet.Step, pod: string, tick: nat)
    requires g.limit > 0 && TimedInv(g, t) && PlainCan(g, t, s) && !PassesTime(s) && Open(Fleet.Do(t.fleet, s), pod, tick)
    ensures AttemptTimed(g, LedgerAfter(t.fleet, s), Fleet.Do(t.fleet, s).pods[pod].calls[tick], WatchesAfter(t, s), Batch(pod, tick))
  {
    var f := t.fleet;
    FleetAges(f, s);
    OpenIsOldOrNew(f, s, pod, tick);
    if s.Commits? && s.pod == pod && s.tick == tick && !s.late {
      CommitIsTimed(g, f, s, WatchesAfter(t, s));
    } else {
      if Batch(pod, tick) in t.watches { WatchStays(t, s, pod, tick); }
      AttemptStaysTimed(g, f.w, LedgerAfter(f, s), f.pods[pod].calls[tick], t.watches, WatchesAfter(t, s), Batch(pod, tick));
    }
  }

  lemma PlainKeepsInv(g: Figures, t: Timed, s: Fleet.Step)
    requires g.limit > 0 && TimedInv(g, t) && PlainCan(g, t, s) && !PassesTime(s) && Patient(t.fleet, s)
    ensures TimedInv(g, TimedDo(g, t, Plain(s)))
  {
    Fleet.StepKeepsInv(t.fleet, s);
    FleetAges(t.fleet, s);
    forall pod, tick | Open(Fleet.Do(t.fleet, s), pod, tick)
      ensures AttemptTimed(g, LedgerAfter(t.fleet, s), Fleet.Do(t.fleet, s).pods[pod].calls[tick], WatchesAfter(t, s), Batch(pod, tick))
    {
      PlainKeepsCall(g, t, s, pod, tick);
    }
  }

  // ---- time ----

  lemma WaitFits(g: Figures, w: Ledger.World, a: Attempt, v: Watch, ms: nat, after: Ledger.World)
    requires g.limit > 0 && WatchFits(g, w, a, v)
    requires after.workers == w.workers && after.db.now == w.db.now + ms
    requires v.pool.running != {} ==> Pools.CanWait(JobOf(g, v), v.pool, ms)
    ensures WatchFits(g, after, a, Waited(v, ms))
  {
  }

  function Later(w: Ledger.World, ms: nat): Ledger.World { w.(db := w.db.(now := w.db.now + ms)) }

  lemma WaitedCallIsTimed(g: Figures, w: Ledger.World, a: Attempt, watches: map<Batch, Watch>, later: map<Batch, Watch>, b: Batch, ms: nat)
    requires g.limit > 0 && AttemptTimed(g, w, a, watches, b)
    requires a.call.caller.Waiting? ==> w.db.now + ms <= a.at + Pools.STALE_CLAIM_SLACK_MS
    requires b in watches ==>
      && b in later && later[b] == Waited(watches[b], ms)
      && (watches[b].pool.running != {} ==> Pools.CanWait(JobOf(g, watches[b]), watches[b].pool, ms))
    ensures AttemptTimed(g, Later(w, ms), a, later, b)
  {
    if a.call.caller.HasRows? { WaitFits(g, w, a, watches[b], ms, Later(w, ms)); }
    assert forall c: Ledger.Claim :: Ledger.Live(Later(w, ms), c) <==> Ledger.Live(w, c);
  }

  lemma PassIsLater(t: Timed, s: Fleet.Step)
    requires Fleet.Can(t.fleet, s) && PassesTime(s)
    ensures LedgerAfter(t.fleet, s) == Later(t.fleet.w, s.write.ms)
  {
  }

  lemma PassKeepsCall(g: Figures, t: Timed, s: Fleet.Step, pod: string, tick: nat)
    requires g.limit > 0 && TimedInv(g, t) && PlainCan(g, t, s) && PassesTime(s) && Open(t.fleet, pod, tick)
    ensures AttemptTimed(g, LedgerAfter(t.fleet, s), t.fleet.pods[pod].calls[tick], WatchesAfter(t, s), Batch(pod, tick))
  {
    PassIsLater(t, s);
    WaitedCallIsTimed(g, t.fleet.w, t.fleet.pods[pod].calls[tick], t.watches, WatchesAfter(t, s), Batch(pod, tick), s.write.ms);
  }

  lemma PassKeepsInv(g: Figures, t: Timed, s: Fleet.Step)
    requires g.limit > 0 && TimedInv(g, t) && PlainCan(g, t, s) && PassesTime(s)
    ensures TimedInv(g, TimedDo(g, t, Plain(s)))
  {
    Fleet.StepKeepsInv(t.fleet, s);
    FleetAges(t.fleet, s);
    forall pod, tick | Open(t.fleet, pod, tick)
      ensures AttemptTimed(g, LedgerAfter(t.fleet, s), t.fleet.pods[pod].calls[tick], WatchesAfter(t, s), Batch(pod, tick))
    {
      PassKeepsCall(g, t, s, pod, tick);
    }
  }

  // ---- a batch begins, an item settles ----

  /** The batch that begins. */
  lemma BegunFits(g: Figures, w: Ledger.World, a: Attempt, watches: map<Batch, Watch>, b: Batch, items: seq<DeliveryId>)
    requires g.limit > 0 && AttemptTimed(g, w, a, watches, b) && Due(a)
    requires |items| == |a.rows| && forall d <- a.rows :: d in items
    ensures WatchFits(g, w, a, Watch(items, w.db.now, Pools.Begin(Pools.Job(|items|, g.limit, g.period))))
  {
    Pools.BeginInv(Pools.Job(|items|, g.limit, g.period));
  }

  lemma BegunIsTimed(g: Figures, w: Ledger.World, a: Attempt, watches: map<Batch, Watch>, b: Batch, items: seq<DeliveryId>)
    requires g.limit > 0 && AttemptTimed(g, w, a, watches, b) && Due(a) && Race.Can(a.call, Race.Settle)
    requires |items| == |a.rows| && forall d <- a.rows :: d in items
    ensures AttemptTimed(g, w, a.(call := Race.Do(a.call, Race.Settle)),
                         watches[b := Watch(items, w.db.now, Pools.Begin(Pools.Job(|items|, g.limit, g.period)))], b)
  {
    BegunFits(g, w, a, watches, b, items);
  }

  lemma OtherBatchesGoOn(g: Figures, w: Ledger.World, a: Attempt, watches: map<Batch, Watch>, b: Batch, other: Batch, v: Watch)
    requires g.limit > 0 && AttemptTimed(g, w, a, watches, b) && b != other
    ensures AttemptTimed(g, w, a, watches[other := v], b)
  {
  }

  /** The fleet when a caller gets its rows. */
  function WhenSettled(f: Fleet.Fleet, pod: string, tick: nat): Fleet.Fleet
    requires Fleet.Can(f, Races(pod, tick, Race.Settle))
  {
    Fleet.Do(f, Races(pod, tick, Race.Settle))
  }

  lemma SettlingTouchesOneCall(f: Fleet.Fleet, pod: string, tick: nat, pod': string, tick': nat)
    requires Fleet.Can(f, Races(pod, tick, Race.Settle)) && Open(WhenSettled(f, pod, tick), pod', tick')
    ensures WhenSettled(f, pod, tick).w == f.w && Open(f, pod', tick')
    ensures var a, b := f.pods[pod'].calls[tick'], WhenSettled(f, pod, tick).pods[pod'].calls[tick'];
      if pod' == pod && tick' == tick then b == a.(call := Race.Do(a.call, Race.Settle)) else b == a
  {
  }

  lemma BeginKeepsCall(g: Figures, t: Timed, s: TimedStep, pod: string, tick: nat)
    requires g.limit > 0 && TimedInv(g, t) && TimedCan(g, t, s) && s.Begins?
    requires Open(WhenSettled(t.fleet, s.pod, s.tick), pod, tick)
    ensures AttemptTimed(g, t.fleet.w, WhenSettled(t.fleet, s.pod, s.tick).pods[pod].calls[tick], TimedDo(g, t, s).watches, Batch(pod, tick))
  {
    SettlingTouchesOneCall(t.fleet, s.pod, s.tick, pod, tick);
    var a, b := t.fleet.pods[pod].calls[tick], Batch(pod, tick);
    if pod == s.pod && tick == s.tick {
      BegunIsTimed(g, t.fleet.w, a, t.watches, b, s.items);
    } else {
      OtherBatchesGoOn(g, t.fleet.w, a, t.watches, b, Batch(s.pod, s.tick), TimedDo(g, t, s).watches[Batch(s.pod, s.tick)]);
    }
  }

  lemma BeginKeepsInv(g: Figures, t: Timed, s: TimedStep)
    requires g.limit > 0 && TimedInv(g, t) && TimedCan(g, t, s) && s.Begins?
    ensures TimedInv(g, TimedDo(g, t, s))
  {
    var after := WhenSettled(t.fleet, s.pod, s.tick);
    Fleet.StepKeepsInv(t.fleet, Races(s.pod, s.tick, Race.Settle));
    forall pod, tick | Open(after, pod, tick)
      ensures AttemptTimed(g, after.w, after.pods[pod].calls[tick], TimedDo(g, t, s).watches, Batch(pod, tick))
    {
      SettlingTouchesOneCall(t.fleet, s.pod, s.tick, pod, tick);
      BeginKeepsCall(g, t, s, pod, tick);
    }
    assert after.w == t.fleet.w;
  }

  lemma SettledFits(g: Figures, w: Ledger.World, a: Attempt, v: Watch, item: nat)
    requires g.limit > 0 && WatchFits(g, w, a, v) && item in v.pool.running && item < |v.items|
    requires Ledger.Claim(v.items[item], a.turn) !in w.workers
    ensures WatchFits(g, w, a, v.(pool := Pools.Settle(JobOf(g, v), v.pool, item)))
  {
    Pools.SettleKeepsInv(JobOf(g, v), v.pool, item);
  }

  lemma ItemKeepsCall(g: Figures, t: Timed, s: TimedStep, pod: string, tick: nat)
    requires g.limit > 0 && TimedInv(g, t) && TimedCan(g, t, s) && s.ItemSettles? && Open(t.fleet, pod, tick)
    ensures AttemptTimed(g, t.fleet.w, t.fleet.pods[pod].calls[tick], TimedDo(g, t, s).watches, Batch(pod, tick))
  {
    var a, b, v := t.fleet.pods[pod].calls[tick], Batch(pod, tick), t.watches[Batch(s.pod, s.tick)];
    if b != Batch(s.pod, s.tick) {
      OtherBatchesGoOn(g, t.fleet.w, a, t.watches, b, Batch(s.pod, s.tick), TimedDo(g, t, s).watches[Batch(s.pod, s.tick)]);
    } else if a.call.caller.HasRows? {
      SettledFits(g, t.fleet.w, a, v, s.item);
    }
  }

  lemma ItemKeepsInv(g: Figures, t: Timed, s: TimedStep)
    requires g.limit > 0 && TimedInv(g, t) && TimedCan(g, t, s) && s.ItemSettles?
    ensures TimedInv(g, TimedDo(g, t, s))
  {
    forall pod, tick | Open(t.fleet, pod, tick)
      ensures AttemptTimed(g, t.fleet.w, t.fleet.pods[pod].calls[tick], TimedDo(g, t, s).watches, Batch(pod, tick))
    {
      ItemKeepsCall(g, t, s, pod, tick);
    }
  }

  lemma TimedStepKeepsInv(g: Figures, t: Timed, s: TimedStep)
    requires g.limit > 0 && TimedInv(g, t) && TimedCan(g, t, s) && TimedPatient(t, s)
    ensures TimedInv(g, TimedDo(g, t, s))
  {
    match s
    case Plain(m) => if PassesTime(m) { PassKeepsInv(g, t, m); } else { PlainKeepsInv(g, t, m); }
    case Begins(_, _, _) => BeginKeepsInv(g, t, s);
    case ItemSettles(_, _, _) => ItemKeepsInv(g, t, s);
  }

  lemma {:induction false} TimedRunKeepsInv(g: Figures, pods: set<string>, steps: seq<TimedStep>)
    requires g.limit > 0 && TimedLegal(g, pods, steps) && TimedPatientRun(g, pods, steps)
    ensures TimedInv(g, TimedRun(g, pods, steps))
    decreases |steps|
  {
    if steps != [] {
      var n := |steps| - 1;
      TimedRunKeepsInv(g, pods, steps[..n]);
      TimedStepKeepsInv(g, TimedRun(g, pods, steps[..n]), steps[n]);
    }
  }

  /**
   * Over every run of such a fleet: a reaper whose window covers the rounds
   * of a full batch and the slack, on whatever pod and at whatever moment,
   * leaves every row alone whose claim is live and at work.
   */
  lemma ReaperSparesWorkInProgress(g: Figures, pods: set<string>, steps: seq<TimedStep>, c: Ledger.Claim, staleMs: nat)
    requires g.limit > 0 && TimedLegal(g, pods, steps) && TimedPatientRun(g, pods, steps) && Window(g) <= staleMs
    requires var w := TimedRun(g, pods, steps).fleet.w;
      c in w.workers && !w.workers[c].phase.HandBack? && Ledger.Live(w, c)
    ensures var w := TimedRun(g, pods, steps).fleet.w;
      && Ledger.Can(w, Ledger.Requeue(staleMs)) && Ledger.Live(Ledger.Do(w, Ledger.Requeue(staleMs)), c)
      && Ledger.Do(w, Ledger.Requeue(staleMs)).db.deliveries[c.delivery] == w.db.deliveries[c.delivery]
  {
    TimedRunKeepsInv(g, pods, steps);
    InvSparesWork(g, TimedRun(g, pods, steps), c, staleMs);
  }
}
