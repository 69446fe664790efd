/**
 * Any number of pods, each with its timers (ConsumerLoop), its ticks and its
 * claim calls (ClaimRace), on one ledger (LedgerWorld). What the ledger takes
 * for granted of a claim - that its consumer is not still at work on the rows -
 * follows from the loop: a tick claims once, and ends when its batch has.
 */
module ConsumerFleet {
  import opened Tables
  import opened LedgerOps
  import Loop = ConsumerLoop
  import Race = ClaimRace
  import Ledger = LedgerWorld
  import LedgerTheorems
  import LedgerHandBack

  /**
   * A claim call: its race with its timer, the rows its UPDATE found and, once
   * committed, the number and time of the claim. `late` foretells at the
   * commit whether the timer fires before the outcome is back.
   */
  datatype Attempt = Attempt(call: Race.Call, rows: set<DeliveryId>, turn: nat, at: Time, late: bool)

  const Asked := Attempt(Race.Start, {}, 0, 0, false)

  /**
   * `ticks` are the ticks executing, `calls` the claim call of each tick,
   * `orphans` the rows of commits that were under way when their process died.
   */
  datatype Pod = Pod(loop: Loop.Loop, ticks: set<nat>, calls: map<nat, Attempt>, orphans: set<set<DeliveryId>>)

  datatype Fleet = Fleet(pods: map<string, Pod>, w: Ledger.World)

  /** `Restarts`: a process dies, and its successor has the same consumer id. */
  datatype Step =
    | Moves(pod: string, move: Loop.Step)
    | Asks(pod: string, tick: nat)
    | Races(pod: string, tick: nat, event: Race.Step)
    | Updates(pod: string, tick: nat, rows: set<DeliveryId>)
    | Commits(pod: string, tick: nat, filter: ClaimFilter, batch: int, late: bool)
    | Ends(pod: string, tick: nat, fullBatch: bool, pollMs: nat)
    | Restarts(pod: string)
    | OrphanCommits(pod: string, rows: set<DeliveryId>, filter: ClaimFilter, batch: int)
    | OrphanFails(pod: string, rows: set<DeliveryId>)
    | Writes(write: Ledger.Step)

  const NewPod := Pod(Loop.Idle, {}, map[], {})

  function Fresh(pods: set<string>): Fleet { Fleet(map p | p in pods :: NewPod, Ledger.Empty) }

  /** The rows a call has locked. */
  function Locks(a: Attempt): set<DeliveryId> { if a.call.tx.Updated? || a.call.tx.Checked? then a.rows else {} }

  /** SKIP LOCKED: no row that another transaction of this pod has locked. */
  predicate Unlocked(p: Pod, rows: set<DeliveryId>) {
    (forall t <- p.calls :: Locks(p.calls[t]) !! rows) && (forall o <- p.orphans :: o !! rows)
  }

  predicate OnTime(a: Attempt) { a.call.tx.Committed? && !a.late }

  /** What the call foretold at its commit comes true. */
  predicate Foretold(a: Attempt, e: Race.Step) {
    match e
    case TimerFires => a.call.tx.Committed? ==> a.late
    case Settle => a.call.tx.Committed? ==> (a.late <==> a.call.timedOut)
    case _ => true
  }

  ghost predicate BatchSettled(w: Ledger.World, pod: string) {
    forall c <- w.workers :: w.workers[c].consumer == pod ==> w.workers[c].phase.HandBack?
  }

  /** Every item of the batch has settled. */
  ghost predicate Drained(w: Ledger.World, pod: string, turn: nat) {
    forall c <- w.workers :: w.workers[c].consumer == pod && c.turn == turn ==> w.workers[c].phase.HandBack?
  }

  /** A tick is over without a claim, after a failed one, or when its batch is drained. */
  ghost predicate MayEnd(w: Ledger.World, pod: string, p: Pod, tick: nat) {
    tick !in p.calls || p.calls[tick].call.caller.Rejected?
    || (p.calls[tick].call.caller.HasRows? && Drained(w, pod, p.calls[tick].turn))
  }

  ghost predicate PodCan(w: Ledger.World, p: Pod, s: Step)
    requires !s.Writes?
  {
    match s
    case Moves(_, m) => !m.Ticked? && Loop.Enabled(p.loop, m)
    case Asks(_, tick) => tick in p.ticks && tick !in p.calls
    case Races(_, tick, e) =>
      tick in p.calls && !e.Update? && !e.Commit? && Race.Can(p.calls[tick].call, e) && Foretold(p.calls[tick], e)
    case Updates(_, tick, rows) => tick in p.calls && Race.Can(p.calls[tick].call, Race.Update(|rows|)) && Unlocked(p, rows)
    case Commits(_, tick, filter, batch, late) =>
      && tick in p.calls && Race.Can(p.calls[tick].call, Race.Commit) && (p.calls[tick].call.timedOut ==> late)
      && MayPick(w.db, p.calls[tick].rows, filter, batch)
    case Ends(pod, tick, full, poll) => tick in p.ticks && Loop.Enabled(p.loop, Loop.Ticked(full, poll)) && MayEnd(w, pod, p, tick)
    case Restarts(_) => true
    case OrphanCommits(_, rows, filter, batch) => rows in p.orphans && MayPick(w.db, rows, filter, batch)
    case OrphanFails(_, rows) => rows in p.orphans
  }

  ghost predicate Can(f: Fleet, s: Step) {
    if s.Writes? then !s.write.Take? && !s.write.Crash? && Ledger.Can(f.w, s.write)
    else s.pod in f.pods && PodCan(f.w, f.pods[s.pod], s)
  }

  /** A loop step of a pod; a tick that starts is known by its number. */
  function Moved(p: Pod, m: Loop.Step): Pod
    requires Loop.Enabled(p.loop, m)
  {
    var l := Loop.Do(p.loop, m);
    p.(loop := l, ticks := if l.ticks > p.loop.ticks then p.ticks + {l.ticks} else p.ticks)
  }

  function Called(p: Pod, tick: nat, a: Attempt): Pod { p.(calls := p.calls[tick := a]) }

  /** Of a dead process only a commit it had sent can still take effect. */
  function CommitsUnderWay(p: Pod): set<set<DeliveryId>> {
    set t | t in p.calls && p.calls[t].call.tx.Checked? :: p.calls[t].rows
  }

  function PodAfter(w: Ledger.World, p: Pod, s: Step): Pod
    requires !s.Writes? && PodCan(w, p, s)
  {
    match s
    case Moves(_, m) => Moved(p, m)
    case Asks(_, tick) => Called(p, tick, Asked)
    case Races(_, tick, e) => Called(p, tick, p.calls[tick].(call := Race.Do(p.calls[tick].call, e)))
    case Updates(_, tick, rows) =>
      Called(p, tick, p.calls[tick].(call := Race.Do(p.calls[tick].call, Race.Update(|rows|)), rows := rows))
    case Commits(_, tick, _, _, late) => Called(p, tick, Committed(w, p.calls[tick], late))
    case Ends(_, tick, full, poll) => p.(loop := Loop.Do(p.loop, Loop.Ticked(full, poll)), ticks := p.ticks - {tick})
    case Restarts(_) => NewPod.(orphans := p.orphans + CommitsUnderWay(p))
    case OrphanCommits(_, rows, _, _) => p.(orphans := p.orphans - {rows})
    case OrphanFails(_, rows) => p.(orphans := p.orphans - {rows})
  }

  function Committed(w: Ledger.World, a: Attempt, late: bool): Attempt
    requires Race.Can(a.call, Race.Commit)
  {
    Attempt(Race.Do(a.call, Race.Commit), a.rows, w.turn, w.db.now, late)
  }

  /** What the step does to the ledger, if anything. Nobody is left to process what an orphaned commit claimed. */
  function LedgerStep(f: Fleet, s: Step): Option<Ledger.Step>
    requires Can(f, s)
  {
    match s
    case Commits(pod, tick, filter, batch, late) => Some(Ledger.Take(pod, f.pods[pod].calls[tick].rows, filter, batch, late))
    case OrphanCommits(pod, rows, filter, batch) => Some(Ledger.Take(pod, rows, filter, batch, true))
    case Restarts(pod) => Some(Ledger.Crash(pod))
    case Writes(m) => Some(m)
    case _ => None
  }

  function LedgerAfter(f: Fleet, s: Step): Ledger.World
    requires Can(f, s)
  {
    match s
    case Commits(pod, tick, _, _, late) => Ledger.AfterTake(f.w, pod, f.pods[pod].calls[tick].rows, late)
    case OrphanCommits(pod, rows, _, _) => Ledger.AfterTake(f.w, pod, rows, true)
    case Restarts(pod) => Ledger.Do(f.w, Ledger.Crash(pod))
    case Writes(m) => Ledger.Do(f.w, m)
    case _ => f.w
  }

  function Do(f: Fleet, s: Step): Fleet
    requires Can(f, s)
  {
    Fleet(if s.Writes? then f.pods else f.pods[s.pod := PodAfter(f.w, f.pods[s.pod], s)], LedgerAfter(f, s))
  }

  ghost predicate Legal(pods: set<string>, steps: seq<Step>)
    decreases |steps|, 0
  {
    steps == [] || (var n := |steps| - 1; Legal(pods, steps[..n]) && Can(Run(pods, steps[..n]), steps[n]))
  }

  ghost function Run(pods: set<string>, steps: seq<Step>): Fleet
    requires Legal(pods, steps)
    decreases |steps|, 1
  {
    if steps == [] then Fresh(pods) else var n := |steps| - 1; Do(Run(pods, steps[..n]), steps[n])
  }

  /** No process starts its stopped consumer again before what was in flight has settled. */
  predicate Patient(f: Fleet, s: Step) {
    s.Moves? && s.pod in f.pods ==> Loop.Patient(f.pods[s.pod].loop, s.move)
  }

  ghost predicate PatientRun(pods: set<string>, steps: seq<Step>) {
    steps == [] || (var n := |steps| - 1;
      PatientRun(pods, steps[..n]) && Legal(pods, steps) && Patient(Run(pods, steps[..n]), steps[n]))
  }

  // ---- every call is a race ----

  /** What the step is to the call of this tick. */
  function CallEvent(s: Step, pod: string, tick: nat): Option<Race.Step> {
    match s
    case Races(p, t, e) => if p == pod && t == tick then Some(e) else None
    case Updates(p, t, rows) => if p == pod && t == tick then Some(Race.Update(|rows|)) else None
    case Commits(p, t, _, _, _) => if p == pod && t == tick then Some(Race.Commit) else None
    case _ => None
  }

  /** What befell the call since it was made. */
  ghost function CallSteps(steps: seq<Step>, pod: string, tick: nat): seq<Race.Step> {
    if steps == [] then []
    else
      var n := |steps| - 1;
      var sofar, e := CallSteps(steps[..n], pod, tick), CallEvent(steps[n], pod, tick);
      if steps[n] == Asks(pod, tick) then [] else if e.Some? then sofar + [e.value] else sofar
  }

  lemma RaceOneMore(steps: seq<Race.Step>, e: Race.Step)
    requires Race.Legal(steps) && Race.Can(Race.Run(steps), e)
    ensures Race.Legal(steps + [e]) && Race.Run(steps + [e]) == Race.Do(Race.Run(steps), e)
  {
    var more := steps + [e];
    assert more[..|more| - 1] == steps && more[|more| - 1] == e;
  }

  /** The rows are those the UPDATE found, and what was foretold is so. */
  ghost predicate AttemptFits(a: Attempt) {
    && (a.call.tx.Updated? || a.call.tx.Checked? || a.call.tx.Committed? ==> a.call.rows == |a.rows|)
    && (a.call.tx.Committed? && a.call.timedOut ==> a.late)
    && (a.call.tx.Committed? && a.call.settled ==> (a.late <==> a.call.timedOut))
  }

  predicate HasCall(f: Fleet, pod: string, tick: nat) { pod in f.pods && tick in f.pods[pod].calls }

  lemma CallStays(f: Fleet, s: Step, pod: string, tick: nat)
    requires Can(f, s) && HasCall(Do(f, s), pod, tick) && s != Asks(pod, tick) && CallEvent(s, pod, tick).None?
    ensures HasCall(f, pod, tick) && Do(f, s).pods[pod].calls[tick] == f.pods[pod].calls[tick]
  {
  }

  lemma CallMoves(f: Fleet, s: Step, pod: string, tick: nat)
    requires Can(f, s) && HasCall(Do(f, s), pod, tick) && CallEvent(s, pod, tick).Some?
    ensures HasCall(f, pod, tick) && Race.Can(f.pods[pod].calls[tick].call, CallEvent(s, pod, tick).value)
    ensures var a, b := f.pods[pod].calls[tick], Do(f, s).pods[pod].calls[tick];
      && b.call == Race.Do(a.call, CallEvent(s, pod, tick).value)
      && (AttemptFits(a) && Race.Inv(a.call) ==> AttemptFits(b))
  {
  }

  /** Each claim call of a fleet is a run of the race, over all runs. */
  lemma {:induction false} EveryCallIsARace(pods: set<string>, steps: seq<Step>, pod: string, tick: nat)
    requires Legal(pods, steps) && HasCall(Run(pods, steps), pod, tick)
    ensures var a := Run(pods, steps).pods[pod].calls[tick]; var race := CallSteps(steps, pod, tick);
      Race.Legal(race) && Race.Run(race) == a.call && AttemptFits(a)
    decreases |steps|
  {
    var n := |steps| - 1;
    var f, s, sofar := Run(pods, steps[..n]), steps[n], CallSteps(steps[..n], pod, tick);
    if s != Asks(pod, tick) {
      if CallEvent(s, pod, tick).None? {
        CallStays(f, s, pod, tick);
        EveryCallIsARace(pods, steps[..n], pod, tick);
      } else {
        CallMoves(f, s, pod, tick);
        EveryCallIsARace(pods, steps[..n], pod, tick);
        Race.RunKeepsInv(sofar);
        RaceOneMore(sofar, CallEvent(s, pod, tick).value);
      }
    }
  }

  /** So no fleet orphans a claim while its process lives: a settled call has one of four ends, and it was late exactly if its caller is without the rows. */
  lemma FleetCallsNeverOrphan(pods: set<string>, steps: seq<Step>, pod: string, tick: nat)
    requires Legal(pods, steps) && HasCall(Run(pods, steps), pod, tick) && Run(pods, steps).pods[pod].calls[tick].call.settled
    ensures var a := Run(pods, steps).pods[pod].calls[tick]; var c := a.call;
      && c.caller.HasRows? == OnTime(a)
      && c.handedBack == (c.tx.Committed? && a.late && a.rows != {})
      && (c.caller.HasRows? || c.handedBack || c.tx.RolledBack? || (c.tx.Committed? && a.late && a.rows == {}))
  {
    EveryCallIsARace(pods, steps, pod, tick);
    var race := CallSteps(steps, pod, tick);
    Race.ClaimNeverOrphans(race);
    Race.RunKeepsInv(race);
  }

  // ---- what every patient step keeps ----

  ghost predicate LoopFits(p: Pod) {
    && Loop.Inv(p.loop) && |p.ticks| == p.loop.ticking
    && (forall t <- p.ticks :: t <= p.loop.ticks) && (forall t <- p.calls :: t <= p.loop.ticks)
  }

  /** A call somebody waits for is its tick's; locks do not overlap. */
  ghost predicate CallsFit(p: Pod) {
    && (forall t <- p.calls :: Race.Inv(p.calls[t].call) && AttemptFits(p.calls[t]))
    && (forall t <- p.calls :: p.calls[t].call.caller.Waiting? ==> t in p.ticks)
    && (forall t, u :: t in p.calls && u in p.calls && t != u ==> Locks(p.calls[t]) !! Locks(p.calls[u]))
    && (forall t, o :: t in p.calls && o in p.orphans ==> Locks(p.calls[t]) !! o)
  }

  predicate AtWork(w: Ledger.World, c: Ledger.Claim, name: string)
    requires c in w.workers
  {
    w.workers[c].consumer == name && !w.workers[c].phase.HandBack?
  }

  /** The claim is of the batch of tick `t`. */
  predicate Serving(p: Pod, c: Ledger.Claim, t: nat) {
    t in p.ticks && t in p.calls && OnTime(p.calls[t]) && p.calls[t].turn == c.turn && c.delivery in p.calls[t].rows
  }

  /** A call that timed out before its second check commits nothing. */
  predicate MayStillCommit(a: Attempt) { a.call.tx.Checked? || (a.call.tx.Updated? && !a.call.timedOut) }

  /** Every claim a pod is at work on is of a tick's batch, and none is on a row whose claim may still commit. */
  ghost predicate WorkFits(w: Ledger.World, name: string, p: Pod) {
    && (forall c <- w.workers :: AtWork(w, c, name) ==> exists t :: Serving(p, c, t))
    && (forall t <- p.calls :: MayStillCommit(p.calls[t]) ==> Ledger.NotAtWorkOn(w, name, p.calls[t].rows))
    && (forall o <- p.orphans :: Ledger.NotAtWorkOn(w, name, o))
  }

  ghost predicate PodFits(w: Ledger.World, name: string, p: Pod) { LoopFits(p) && CallsFit(p) && WorkFits(w, name, p) }

  ghost predicate Inv(f: Fleet) {
    && (forall name <- f.pods :: PodFits(f.w, name, f.pods[name]))
    && (forall c <- f.w.workers :: f.w.workers[c].consumer in f.pods)
  }

  lemma OnlyOneTick(p: Pod, tick: nat)
    requires LoopFits(p) && tick in p.ticks
    ensures p.ticks == {tick}
  {
    assert |p.ticks - {tick}| == 0;
  }

  /** A pod whose one tick has no batch is at work on nothing. */
  lemma TickAloneIsSettled(w: Ledger.World, name: string, p: Pod, tick: nat)
    requires LoopFits(p) && WorkFits(w, name, p) && tick in p.ticks && (tick in p.calls ==> !OnTime(p.calls[tick]))
    ensures BatchSettled(w, name)
  {
    OnlyOneTick(p, tick);
    assert forall c: Ledger.Claim, t :: !Serving(p, c, t);
  }

  /** A call that may still be in time is the call of the pod's only tick. */
  lemma UndecidedIsSettled(w: Ledger.World, name: string, p: Pod, tick: nat)
    requires PodFits(w, name, p) && tick in p.calls && !p.calls[tick].call.timedOut
    requires !p.calls[tick].call.tx.Committed? && !p.calls[tick].call.tx.RolledBack?
    ensures tick in p.ticks && p.ticks == {tick} && BatchSettled(w, name)
  {
    assert p.calls[tick].call.caller.Waiting?;
    OnlyOneTick(p, tick);
    TickAloneIsSettled(w, name, p, tick);
  }

  // ---- a pod's own steps ----

  lemma MoveKeepsLoop(p: Pod, m: Loop.Step)
    requires LoopFits(p) && Loop.Enabled(p.loop, m) && Loop.Patient(p.loop, m) && !m.Ticked?
    ensures LoopFits(Moved(p, m)) && p.ticks <= Moved(p, m).ticks
  {
    Loop.StepKeepsInv(p.loop, m);
  }

  lemma MoreTicksFit(w: Ledger.World, name: string, p: Pod, q: Pod)
    requires CallsFit(p) && WorkFits(w, name, p)
    requires q.calls == p.calls && q.orphans == p.orphans && p.ticks <= q.ticks
    ensures CallsFit(q) && WorkFits(w, name, q)
  {
    forall c <- w.workers | AtWork(w, c, name) ensures exists t :: Serving(q, c, t) {
      var t :| Serving(p, c, t);
      assert Serving(q, c, t);
    }
  }

  lemma MoveFits(w: Ledger.World, name: string, p: Pod, m: Loop.Step)
    requires PodFits(w, name, p) && Loop.Enabled(p.loop, m) && Loop.Patient(p.loop, m) && !m.Ticked?
    ensures PodFits(w, name, Moved(p, m))
  {
    MoveKeepsLoop(p, m);
    MoreTicksFit(w, name, p, Moved(p, m));
  }

  /** A call's other events lock nothing, put nobody to work, and only ever rule a commit out. */
  ghost predicate Quieter(a: Attempt, b: Attempt) {
    && Race.Inv(b.call) && AttemptFits(b) && Locks(b) <= Locks(a) && b.rows == a.rows && b.turn == a.turn
    && (b.call.caller.Waiting? ==> a.call.caller.Waiting?)
    && (OnTime(a) <==> OnTime(b)) && (MayStillCommit(b) ==> MayStillCommit(a))
  }

  lemma RaceIsQuieter(a: Attempt, e: Race.Step)
    requires Race.Inv(a.call) && AttemptFits(a) && Race.Can(a.call, e) && !e.Update? && !e.Commit? && Foretold(a, e)
    ensures Quieter(a, a.(call := Race.Do(a.call, e)))
  {
  }

  lemma QuieterCallFits(w: Ledger.World, name: string, p: Pod, tick: nat, b: Attempt)
    requires PodFits(w, name, p) && tick in p.calls && Quieter(p.calls[tick], b)
    ensures PodFits(w, name, Called(p, tick, b))
  {
    var q := Called(p, tick, b);
    forall c <- w.workers | AtWork(w, c, name) ensures exists t :: Serving(q, c, t) {
      var t :| Serving(p, c, t);
      assert Serving(q, c, t);
    }
  }

  lemma AskFits(w: Ledger.World, name: string, p: Pod, tick: nat)
    requires PodFits(w, name, p) && tick in p.ticks && tick !in p.calls
    ensures PodFits(w, name, Called(p, tick, Asked))
  {
    TickAloneIsSettled(w, name, p, tick);
  }

  /** A call without a batch serves nothing, so it may change. */
  lemma OthersGoOnServing(p: Pod, tick: nat, b: Attempt)
    requires tick in p.calls && !OnTime(p.calls[tick])
    ensures forall c, t | Serving(p, c, t) :: Serving(Called(p, tick, b), c, t)
  {
  }

  lemma UpdatedCallsFit(p: Pod, tick: nat, b: Attempt)
    requires LoopFits(p) && CallsFit(p) && tick in p.calls && Race.Inv(b.call) && AttemptFits(b) && Unlocked(p, Locks(b))
    requires b.call.caller.Waiting? ==> p.calls[tick].call.caller.Waiting?
    ensures LoopFits(Called(p, tick, b)) && CallsFit(Called(p, tick, b))
  {
  }

  lemma UpdateFits(w: Ledger.World, name: string, p: Pod, tick: nat, rows: set<DeliveryId>)
    requires PodFits(w, name, p) && tick in p.calls && Race.Can(p.calls[tick].call, Race.Update(|rows|)) && Unlocked(p, rows)
    ensures PodFits(w, name, PodAfter(w, p, Updates(name, tick, rows)))
  {
    var a := p.calls[tick];
    var b := a.(call := Race.Do(a.call, Race.Update(|rows|)), rows := rows);
    UpdatedCallsFit(p, tick, b);
    OthersGoOnServing(p, tick, b);
    if !a.call.timedOut { UndecidedIsSettled(w, name, p, tick); }
  }

  /** The pod took up no work. */
  ghost predicate NoNewWork(w: Ledger.World, after: Ledger.World, name: string) {
    forall c <- after.workers :: AtWork(after, c, name) ==> c in w.workers && AtWork(w, c, name)
  }

  lemma NoNewWorkFits(w: Ledger.World, after: Ledger.World, name: string, p: Pod)
    requires PodFits(w, name, p) && NoNewWork(w, after, name)
    ensures PodFits(after, name, p)
  {
  }

  lemma Taken(w: Ledger.World, pod: string, rows: set<DeliveryId>, late: bool, c: Ledger.Claim)
    requires forall d <- rows :: d in w.db.deliveries && w.db.deliveries[d].subscriptionId in w.db.subscriptions
    requires c in Ledger.AfterTake(w, pod, rows, late).workers
    ensures var k := Ledger.AfterTake(w, pod, rows, late).workers[c];
      || (c in w.workers && k == w.workers[c])
      || (c.turn == w.turn && c.delivery in rows && k.consumer == pod && (k.phase.HandBack? <==> late))
  {
  }

  lemma TakeIsWorkOfItsPod(w: Ledger.World, pod: string, rows: set<DeliveryId>, late: bool, name: string)
    requires forall d <- rows :: d in w.db.deliveries && w.db.deliveries[d].subscriptionId in w.db.subscriptions
    requires name != pod || late
    ensures NoNewWork(w, Ledger.AfterTake(w, pod, rows, late), name)
  {
    var after := Ledger.AfterTake(w, pod, rows, late);
    forall c <- after.workers ensures AtWork(after, c, name) ==> c in w.workers && AtWork(w, c, name) {
      Taken(w, pod, rows, late, c);
    }
  }

  /** A call that committed holds no lock. */
  lemma CommittedCallsFit(w: Ledger.World, p: Pod, tick: nat, late: bool)
    requires LoopFits(p) && CallsFit(p) && tick in p.calls && Race.Can(p.calls[tick].call, Race.Commit)
    requires p.calls[tick].call.timedOut ==> late
    ensures LoopFits(Called(p, tick, Committed(w, p.calls[tick], late)))
    ensures CallsFit(Called(p, tick, Committed(w, p.calls[tick], late)))
  {
  }

  /** The pod's own batch after a claim in time. */
  lemma CommitInTimeFits(w: Ledger.World, name: string, p: Pod, tick: nat)
    requires PodFits(w, name, p) && tick in p.calls && Race.Can(p.calls[tick].call, Race.Commit) && !p.calls[tick].call.timedOut
    requires forall d <- p.calls[tick].rows :: d in w.db.deliveries && w.db.deliveries[d].subscriptionId in w.db.subscriptions
    ensures WorkFits(Ledger.AfterTake(w, name, p.calls[tick].rows, false), name, Called(p, tick, Committed(w, p.calls[tick], false)))
  {
    UndecidedIsSettled(w, name, p, tick);
    var rows, q := p.calls[tick].rows, Called(p, tick, Committed(w, p.calls[tick], false));
    var after := Ledger.AfterTake(w, name, rows, false);
    forall c <- after.workers | AtWork(after, c, name)
      ensures c.delivery in rows && exists t :: Serving(q, c, t)
    {
      Taken(w, name, rows, false, c);
      assert Serving(q, c, tick);
    }
    forall t <- q.calls | MayStillCommit(q.calls[t]) ensures Ledger.NotAtWorkOn(after, name, q.calls[t].rows) {
      assert Locks(p.calls[t]) !! Locks(p.calls[tick]);
    }
    forall o <- q.orphans ensures Ledger.NotAtWorkOn(after, name, o) {
      assert Locks(p.calls[tick]) !! o;
    }
  }

  lemma CommitLateFits(w: Ledger.World, name: string, p: Pod, tick: nat)
    requires PodFits(w, name, p) && tick in p.calls && Race.Can(p.calls[tick].call, Race.Commit)
    requires forall d <- p.calls[tick].rows :: d in w.db.deliveries && w.db.deliveries[d].subscriptionId in w.db.subscriptions
    ensures WorkFits(Ledger.AfterTake(w, name, p.calls[tick].rows, true), name, Called(p, tick, Committed(w, p.calls[tick], true)))
  {
    var after := Ledger.AfterTake(w, name, p.calls[tick].rows, true);
    TakeIsWorkOfItsPod(w, name, p.calls[tick].rows, true, name);
    NoNewWorkFits(w, after, name, p);
    OthersGoOnServing(p, tick, Committed(w, p.calls[tick], true));
  }

  lemma CommitFits(w: Ledger.World, name: string, p: Pod, s: Step)
    requires PodFits(w, name, p) && s.Commits? && PodCan(w, p, s)
    ensures PodFits(Ledger.AfterTake(w, name, p.calls[s.tick].rows, s.late), name, PodAfter(w, p, s))
  {
    CommittedCallsFit(w, p, s.tick, s.late);
    if s.late { CommitLateFits(w, name, p, s.tick); } else { CommitInTimeFits(w, name, p, s.tick); }
  }

  lemma EndKeepsLoop(p: Pod, tick: nat, full: bool, poll: nat)
    requires LoopFits(p) && tick in p.ticks && Loop.Enabled(p.loop, Loop.Ticked(full, poll))
    ensures LoopFits(p.(loop := Loop.Do(p.loop, Loop.Ticked(full, poll)), ticks := p.ticks - {tick}))
  {
    Loop.StepKeepsInv(p.loop, Loop.Ticked(full, poll));
  }

  /** When its tick ends, a pod is at work on nothing. */
  lemma EndIsSettled(w: Ledger.World, name: string, p: Pod, tick: nat)
    requires PodFits(w, name, p) && tick in p.ticks && MayEnd(w, name, p, tick)
    ensures BatchSettled(w, name)
  {
    OnlyOneTick(p, tick);
    if tick !in p.calls || !OnTime(p.calls[tick]) {
      TickAloneIsSettled(w, name, p, tick);
    } else {
      assert Drained(w, name, p.calls[tick].turn);
      assert forall c: Ledger.Claim, t :: Serving(p, c, t) ==> c.turn == p.calls[tick].turn;
    }
  }

  lemma EndFits(w: Ledger.World, name: string, p: Pod, tick: nat, full: bool, poll: nat)
    requires PodFits(w, name, p) && tick in p.ticks && Loop.Enabled(p.loop, Loop.Ticked(full, poll)) && MayEnd(w, name, p, tick)
    ensures PodFits(w, name, p.(loop := Loop.Do(p.loop, Loop.Ticked(full, poll)), ticks := p.ticks - {tick}))
  {
    EndKeepsLoop(p, tick, full, poll);
    EndIsSettled(w, name, p, tick);
    assert forall c <- w.workers :: !AtWork(w, c, name);
  }

  /** A restart drops the calls of the process, but what it had sent to commit, and that only, may still commit. */
  lemma RestartKeepsCommitsUnderWay(f: Fleet, pod: string, rows: set<DeliveryId>)
    requires Can(f, Restarts(pod))
    ensures var p, q := f.pods[pod], Do(f, Restarts(pod)).pods[pod];
      && q.calls == map[] && q.ticks == {}
      && (rows in q.orphans <==> rows in p.orphans || exists t :: t in p.calls && p.calls[t].call.tx.Checked? && p.calls[t].rows == rows)
  {
  }

  lemma RestartFits(after: Ledger.World, name: string, p: Pod)
    requires forall c <- after.workers :: after.workers[c].consumer != name
    ensures PodFits(after, name, NewPod.(orphans := p.orphans + CommitsUnderWay(p)))
  {
  }

  lemma OrphanFits(w: Ledger.World, name: string, p: Pod, rows: set<DeliveryId>)
    requires PodFits(w, name, p)
    ensures PodFits(w, name, p.(orphans := p.orphans - {rows}))
  {
    var q := p.(orphans := p.orphans - {rows});
    forall c <- w.workers | AtWork(w, c, name) ensures exists t :: Serving(q, c, t) {
      var t :| Serving(p, c, t);
      assert Serving(q, c, t);
    }
  }

  lemma OrphanCommitFits(w: Ledger.World, name: string, p: Pod, rows: set<DeliveryId>)
    requires PodFits(w, name, p)
    requires forall d <- rows :: d in w.db.deliveries && w.db.deliveries[d].subscriptionId in w.db.subscriptions
    ensures PodFits(Ledger.AfterTake(w, name, rows, true), name, p.(orphans := p.orphans - {rows}))
  {
    OrphanFits(w, name, p, rows);
    TakeIsWorkOfItsPod(w, name, rows, true, name);
    NoNewWorkFits(w, Ledger.AfterTake(w, name, rows, true), name, p.(orphans := p.orphans - {rows}));
  }

  predicate CallStep(s: Step) { s.Asks? || s.Races? || s.Updates? }

  lemma CallStepFits(f: Fleet, s: Step)
    requires Inv(f) && Can(f, s) && CallStep(s)
    ensures PodFits(f.w, s.pod, PodAfter(f.w, f.pods[s.pod], s))
  {
    var p := f.pods[s.pod];
    match s
    case Asks(_, tick) => AskFits(f.w, s.pod, p, tick);
    case Races(_, tick, e) =>
      RaceIsQuieter(p.calls[tick], e);
      QuieterCallFits(f.w, s.pod, p, tick, p.calls[tick].(call := Race.Do(p.calls[tick].call, e)));
    case Updates(_, tick, rows) => UpdateFits(f.w, s.pod, p, tick, rows);
  }

  predicate TakeStep(s: Step) { s.Commits? || s.OrphanCommits? }

  lemma TakeStepFits(f: Fleet, s: Step)
    requires Inv(f) && Can(f, s) && TakeStep(s)
    ensures PodFits(LedgerAfter(f, s), s.pod, PodAfter(f.w, f.pods[s.pod], s))
  {
    if s.Commits? { CommitFits(f.w, s.pod, f.pods[s.pod], s); } else { OrphanCommitFits(f.w, s.pod, f.pods[s.pod], s.rows); }
  }

  lemma CrashTakesAll(w: Ledger.World, pod: string)
    ensures var after := Ledger.Do(w, Ledger.Crash(pod));
      && (forall c <- after.workers :: c in w.workers && after.workers[c] == w.workers[c] && after.workers[c].consumer != pod)
      && (forall c <- w.workers :: w.workers[c].consumer != pod ==> c in after.workers)
      && after.db == w.db
  {
  }

  /** A pod's own step. */
  lemma OwnStepFits(f: Fleet, s: Step)
    requires Inv(f) && Can(f, s) && Patient(f, s) && !s.Writes?
    ensures PodFits(LedgerAfter(f, s), s.pod, PodAfter(f.w, f.pods[s.pod], s))
  {
    var p := f.pods[s.pod];
    if CallStep(s) { CallStepFits(f, s); }
    else if TakeStep(s) { TakeStepFits(f, s); }
    else if s.Moves? { MoveFits(f.w, s.pod, p, s.move); }
    else if s.Ends? { EndFits(f.w, s.pod, p, s.tick, s.fullBatch, s.pollMs); }
    else if s.Restarts? { CrashTakesAll(f.w, s.pod); RestartFits(LedgerAfter(f, s), s.pod, p); }
    else { OrphanFits(f.w, s.pod, p, s.rows); }
  }

  // ---- everybody else ----

  lemma WritesTakeUpNothing(w: Ledger.World, m: Ledger.Step, name: string)
    requires Ledger.Can(w, m) && !m.Take?
    ensures NoNewWork(w, Ledger.Do(w, m), name)
    ensures forall c <- Ledger.Do(w, m).workers :: c in w.workers && Ledger.Do(w, m).workers[c].consumer == w.workers[c].consumer
  {
  }

  lemma ForeignTakeBringsNothing(f: Fleet, s: Step, name: string)
    requires Can(f, s) && TakeStep(s) && s.pod != name
    ensures NoNewWork(f.w, LedgerAfter(f, s), name)
  {
    if s.Commits? { TakeIsWorkOfItsPod(f.w, s.pod, f.pods[s.pod].calls[s.tick].rows, s.late, name); }
    else { TakeIsWorkOfItsPod(f.w, s.pod, s.rows, true, name); }
  }

  lemma ForeignStepFits(f: Fleet, s: Step, name: string)
    requires Inv(f) && Can(f, s) && name in f.pods && (s.Writes? || s.pod != name)
    ensures PodFits(LedgerAfter(f, s), name, f.pods[name])
  {
    if TakeStep(s) { ForeignTakeBringsNothing(f, s, name); }
    else if s.Restarts? { CrashTakesAll(f.w, s.pod); }
    else if s.Writes? { WritesTakeUpNothing(f.w, s.write, name); }
    NoNewWorkFits(f.w, LedgerAfter(f, s), name, f.pods[name]);
  }

  lemma TakersArePods(f: Fleet, s: Step, c: Ledger.Claim)
    requires Can(f, s) && TakeStep(s) && c in LedgerAfter(f, s).workers
    ensures LedgerAfter(f, s).workers[c].consumer == s.pod || (c in f.w.workers && LedgerAfter(f, s).workers[c] == f.w.workers[c])
  {
    if s.Commits? { Taken(f.w, s.pod, f.pods[s.pod].calls[s.tick].rows, s.late, c); }
    else { Taken(f.w, s.pod, s.rows, true, c); }
  }

  lemma WorkersArePods(f: Fleet, s: Step)
    requires Inv(f) && Can(f, s)
    ensures forall c <- LedgerAfter(f, s).workers :: LedgerAfter(f, s).workers[c].consumer in f.pods
  {
    forall c <- LedgerAfter(f, s).workers ensures LedgerAfter(f, s).workers[c].consumer in f.pods {
      if TakeStep(s) { TakersArePods(f, s, c); }
      else if s.Restarts? { CrashTakesAll(f.w, s.pod); }
      else if s.Writes? { WritesTakeUpNothing(f.w, s.write, ""); }
    }
  }

  lemma PodStaysFit(f: Fleet, s: Step, name: string)
    requires Inv(f) && Can(f, s) && Patient(f, s) && name in f.pods
    ensures name in Do(f, s).pods && PodFits(Do(f, s).w, name, Do(f, s).pods[name])
  {
    if s.Writes? || s.pod != name { ForeignStepFits(f, s, name); } else { OwnStepFits(f, s); }
  }

  lemma StepKeepsInv(f: Fleet, s: Step)
    requires Inv(f) && Can(f, s) && Patient(f, s)
    ensures Inv(Do(f, s))
  {
    WorkersArePods(f, s);
    assert Do(f, s).pods.Keys == f.pods.Keys;
    forall name <- Do(f, s).pods ensures PodFits(Do(f, s).w, name, Do(f, s).pods[name]) {
      PodStaysFit(f, s, name);
    }
  }

  lemma {:induction false} RunKeepsInv(pods: set<string>, steps: seq<Step>)
    requires Legal(pods, steps) && PatientRun(pods, steps)
    ensures Inv(Run(pods, steps))
    decreases |steps|
  {
    if steps != [] {
      var n := |steps| - 1;
      RunKeepsInv(pods, steps[..n]);
      StepKeepsInv(Run(pods, steps[..n]), steps[n]);
    }
  }

  // ---- the fleet is a run of the ledger ----

  /** The ledger moves by the step, and the step is enabled there; or it stays. */
  ghost predicate Follows(f: Fleet, s: Step)
    requires Can(f, s)
  {
    var m := LedgerStep(f, s);
    if m.Some? then Ledger.Can(f.w, m.value) && LedgerAfter(f, s) == Ledger.Do(f.w, m.value) else LedgerAfter(f, s) == f.w
  }

  lemma CommitMeetsSettledWork(w: Ledger.World, name: string, p: Pod, tick: nat)
    requires PodFits(w, name, p) && tick in p.calls && Race.Can(p.calls[tick].call, Race.Commit)
    ensures Ledger.NotAtWorkOn(w, name, p.calls[tick].rows)
    ensures !p.calls[tick].call.timedOut ==> BatchSettled(w, name)
  {
    assert MayStillCommit(p.calls[tick]);
    if !p.calls[tick].call.timedOut { UndecidedIsSettled(w, name, p, tick); }
  }

  lemma TakeIsEnabled(w: Ledger.World, name: string, rows: set<DeliveryId>, filter: ClaimFilter, batch: int, late: bool)
    requires MayPick(w.db, rows, filter, batch) && Ledger.NotAtWorkOn(w, name, rows)
    ensures var take := Ledger.Take(name, rows, filter, batch, late);
      Ledger.Can(w, take) && Ledger.Do(w, take) == Ledger.AfterTake(w, name, rows, late)
  {
  }

  lemma CommitFollows(f: Fleet, s: Step)
    requires Inv(f) && Can(f, s) && s.Commits?
    ensures Follows(f, s) && (!s.late ==> BatchSettled(f.w, s.pod))
  {
    CommitMeetsSettledWork(f.w, s.pod, f.pods[s.pod], s.tick);
    TakeIsEnabled(f.w, s.pod, f.pods[s.pod].calls[s.tick].rows, s.filter, s.batch, s.late);
  }

  lemma OrphanMeetsSettledWork(w: Ledger.World, name: string, p: Pod, rows: set<DeliveryId>)
    requires PodFits(w, name, p) && rows in p.orphans
    ensures Ledger.NotAtWorkOn(w, name, rows)
  {
  }

  lemma OrphanCommitFollows(f: Fleet, s: Step)
    requires Inv(f) && Can(f, s) && s.OrphanCommits?
    ensures Follows(f, s)
  {
    OrphanMeetsSettledWork(f.w, s.pod, f.pods[s.pod], s.rows);
    TakeIsEnabled(f.w, s.pod, s.rows, s.filter, s.batch, true);
  }

  lemma OtherStepFollows(f: Fleet, s: Step)
    requires Can(f, s) && !TakeStep(s)
    ensures Follows(f, s)
  {
  }

  lemma StepFollows(f: Fleet, s: Step)
    requires Inv(f) && Can(f, s)
    ensures Follows(f, s) && (s.Commits? && !s.late ==> BatchSettled(f.w, s.pod))
  {
    if s.Commits? { CommitFollows(f, s); }
    else if s.OrphanCommits? { OrphanCommitFollows(f, s); }
    else { OtherStepFollows(f, s); }
  }

  /**
   * Over every run in which consumers are restarted patiently: a claim in
   * time finds the whole batch before it settled, and one that commits late,
   * or after its process died, takes no row its pod is at work on by then.
   */
  lemma ClaimsMeetSettledWork(pods: set<string>, steps: seq<Step>, s: Step)
    requires Legal(pods, steps) && PatientRun(pods, steps) && Can(Run(pods, steps), s)
    ensures s.Commits? && !s.late ==> BatchSettled(Run(pods, steps).w, s.pod)
    ensures Follows(Run(pods, steps), s)
  {
    RunKeepsInv(pods, steps);
    StepFollows(Run(pods, steps), s);
  }

  /** What the run does to the ledger. */
  ghost function LedgerSteps(pods: set<string>, steps: seq<Step>): seq<Ledger.Step>
    requires Legal(pods, steps)
    decreases |steps|
  {
    if steps == [] then []
    else
      var n := |steps| - 1;
      var done, m := LedgerSteps(pods, steps[..n]), LedgerStep(Run(pods, steps[..n]), steps[n]);
      if m.Some? then done + [m.value] else done
  }

  lemma LedgerOneMore(steps: seq<Ledger.Step>, m: Ledger.Step)
    requires Ledger.Legal(Ledger.Empty, steps) && Ledger.Can(Ledger.Run(Ledger.Empty, steps), m)
    ensures Ledger.Legal(Ledger.Empty, steps + [m])
    ensures Ledger.Run(Ledger.Empty, steps + [m]) == Ledger.Do(Ledger.Run(Ledger.Empty, steps), m)
  {
    var more := steps + [m];
    assert more[..|more| - 1] == steps && more[|more| - 1] == m;
  }

  /** So whatever the pods' timers, ticks, timeouts and deaths do, the ledger sees a run of its own, and every result about those holds. */
  lemma {:induction false} PatientFleetRunsTheLedger(pods: set<string>, steps: seq<Step>)
    requires Legal(pods, steps) && PatientRun(pods, steps)
    ensures Ledger.Legal(Ledger.Empty, LedgerSteps(pods, steps))
    ensures Ledger.Run(Ledger.Empty, LedgerSteps(pods, steps)) == Run(pods, steps).w
    decreases |steps|
  {
    if steps != [] {
      var n := |steps| - 1;
      PatientFleetRunsTheLedger(pods, steps[..n]);
      ClaimsMeetSettledWork(pods, steps[..n], steps[n]);
      var m := LedgerStep(Run(pods, steps[..n]), steps[n]);
      if m.Some? { LedgerOneMore(LedgerSteps(pods, steps[..n]), m.value); }
    }
  }

  /**
   * In particular a status write of such a fleet lands if its claim still owns
   * the row, and only then: always for work on a row, and for a hand-back if
   * the replays were orderly.
   */
  lemma FleetFencesAreExact(pods: set<string>, steps: seq<Step>, c: Ledger.Claim)
    requires Legal(pods, steps) && PatientRun(pods, steps) && c in Run(pods, steps).w.workers
    ensures var w := Run(pods, steps).w;
      && (Ledger.Live(w, c) ==> Ledger.FenceOpens(w, c))
      && (!w.workers[c].phase.HandBack? || Ledger.OrderlyRun(Ledger.Empty, LedgerSteps(pods, steps)) ==>
            (Ledger.FenceOpens(w, c) <==> Ledger.Live(w, c)))
  {
    PatientFleetRunsTheLedger(pods, steps);
    LedgerTheorems.FenceIsExact(LedgerSteps(pods, steps), c);
    if Ledger.OrderlyRun(Ledger.Empty, LedgerSteps(pods, steps)) {
      LedgerHandBack.EveryFenceIsExactInOrderlyRuns(LedgerSteps(pods, steps), c);
    }
  }
}
