/**
 * reserveIdempotencyKey (src/lib/events.ts:961-1008) statement by statement:
 * an insert that yields to a conflict, a read of the owner, and the delete and
 * insert that take an orphaned reservation over. Each statement sees what is
 * committed when it starts, so others may write between any two of them.
 */
module ReservationRace {
  import opened Tables
  import opened LedgerOps
  import Ledger = LedgerWorld
  import LedgerInvariants
  import LedgerTheorems

  /** The statement a call has reached. */
  datatype Stage = Inserting | Reading | Replacing | InsertingAgain

  datatype Ask = Ask(key: string, stage: Stage)

  /** `asks` are the reservation calls under way, by the claim they are for. */
  datatype World = World(w: Ledger.World, asks: map<Ledger.Claim, Ask>)

  datatype Step = Asks(c: Ledger.Claim, key: string) | Advances(c: Ledger.Claim) | Writes(write: Ledger.Step)

  function KeyOf(w: Ledger.World, c: Ledger.Claim, key: string): ReceiptKey
    requires c in w.workers
  {
    ReceiptKey(w.workers[c].subscriptionId, key)
  }

  function Outcome(w: Ledger.World, c: Ledger.Claim, key: string): Reservation
    requires c in w.workers
  {
    ReserveOutcome(w.db, c.delivery, w.workers[c].eventId, KeyOf(w, c, key))
  }

  predicate Taken(w: Ledger.World, c: Ledger.Claim, key: string)
    requires c in w.workers
  {
    KeyOf(w, c, key) in w.db.receipts
  }

  /** There is a reservation which is not completed, and no other running delivery has it. */
  predicate Orphaned(w: Ledger.World, c: Ledger.Claim, key: string)
    requires c in w.workers
  {
    Taken(w, c, key) && (Outcome(w, c, key).Reserved? || Outcome(w, c, key).Aborted?)
  }

  /** DELETE by key, then INSERT: whatever the reservation is by now, it is replaced. A foreign key may refuse the insert. */
  function Replaced(w: Ledger.World, c: Ledger.Claim, key: string): Ledger.World
    requires c in w.workers
  {
    var k := w.workers[c];
    if c.delivery in w.db.deliveries && k.eventId in w.db.events then
      w.(db := w.db.(receipts := w.db.receipts[KeyOf(w, c, key) := Receipt(k.eventId, Some(c.delivery), None)]),
         workers := w.workers[c := k.(phase := Ledger.Holding(key))])
    else w
  }

  predicate MayAsk(r: World, c: Ledger.Claim) { c in r.w.workers && r.w.workers[c].phase.Claimed? }

  predicate Advancing(r: World, c: Ledger.Claim) { c in r.asks && MayAsk(r, c) }

  ghost predicate Can(r: World, s: Step) {
    match s
    case Asks(c, _) => MayAsk(r, c) && c !in r.asks
    case Advances(c) => Advancing(r, c)
    case Writes(m) => !m.Reserve? && !m.Misses? && Ledger.Can(r.w, m)
  }

  /** The call ends, with what it did to the ledger. */
  function Answered(r: World, c: Ledger.Claim, w: Ledger.World): World { World(w, r.asks - {c}) }

  function NextStage(r: World, c: Ledger.Claim, stage: Stage): World
    requires c in r.asks
  {
    r.(asks := r.asks[c := r.asks[c].(stage := stage)])
  }

  function Advanced(r: World, c: Ledger.Claim): World
    requires Advancing(r, c)
  {
    var key := r.asks[c].key;
    match r.asks[c].stage
    case Inserting => if Taken(r.w, c, key) then NextStage(r, c, Reading) else Answered(r, c, Ledger.AfterReserve(r.w, c, key))
    case Reading =>
      if !Taken(r.w, c, key) then Answered(r, c, Ledger.AfterMiss(r.w, c))
      else if Orphaned(r.w, c, key) then NextStage(r, c, Replacing)
      else Answered(r, c, Ledger.AfterReserve(r.w, c, key))
    case Replacing => if Taken(r.w, c, key) then Answered(r, c, Replaced(r.w, c, key)) else NextStage(r, c, InsertingAgain)
    case InsertingAgain =>
      if Taken(r.w, c, key) then Answered(r, c, Ledger.AfterMiss(r.w, c)) else Answered(r, c, Ledger.AfterReserve(r.w, c, key))
  }

  function Do(r: World, s: Step): World
    requires Can(r, s)
  {
    match s
    case Asks(c, key) => r.(asks := r.asks[c := Ask(key, Inserting)])
    case Advances(c) => Advanced(r, c)
    case Writes(m) => r.(w := Ledger.Do(r.w, m))
  }

  ghost predicate Legal(r: World, steps: seq<Step>)
    decreases |steps|, 0
  {
    steps == [] || (var n := |steps| - 1; Legal(r, steps[..n]) && Can(Run(r, steps[..n]), steps[n]))
  }

  ghost function Run(r: World, steps: seq<Step>): World
    requires Legal(r, steps)
    decreases |steps|, 1
  {
    if steps == [] then r else var n := |steps| - 1; Do(Run(r, steps[..n]), steps[n])
  }

  const Start := World(Ledger.Empty, map[])

  // ---- when a takeover is one step ----

  /** The takeover does what the whole call would do now exactly if the reservation is still an orphan. */
  lemma TakeoverIsAtomicIffStillOrphaned(w: Ledger.World, c: Ledger.Claim, key: string)
    requires c in w.workers && w.workers[c].phase.Claimed? && Taken(w, c, key)
    ensures Replaced(w, c, key) == Ledger.AfterReserve(w, c, key) <==> Orphaned(w, c, key)
  {
    var k := w.workers[c];
    assert Replaced(w, c, key).workers[c].phase == if c.delivery in w.db.deliveries && k.eventId in w.db.events then Ledger.Holding(key) else Ledger.Claimed;
    assert Ledger.AfterReserve(w, c, key).workers[c].phase == Ledger.PhaseAfter(Outcome(w, c, key), key);
  }

  /** The guard the source lacks: a takeover goes ahead only on what is still an orphan. */
  predicate Checked(r: World, s: Step) {
    s.Advances? && Advancing(r, s.c) && r.asks[s.c].stage.Replacing? && Taken(r.w, s.c, r.asks[s.c].key) ==>
      Orphaned(r.w, s.c, r.asks[s.c].key)
  }

  ghost predicate CheckedRun(r: World, steps: seq<Step>) {
    steps == [] || (var n := |steps| - 1;
      CheckedRun(r, steps[..n]) && Legal(r, steps) && Checked(Run(r, steps[..n]), steps[n]))
  }

  /** What the statement is to the ledger, if the call is a single step there. */
  function LedgerStep(r: World, s: Step): Option<Ledger.Step>
    requires Can(r, s)
  {
    match s
    case Asks(_, _) => None
    case Writes(m) => Some(m)
    case Advances(c) =>
      var key := r.asks[c].key;
      match r.asks[c].stage
      case Inserting => if Taken(r.w, c, key) then None else Some(Ledger.Reserve(c, key))
      case Reading =>
        if !Taken(r.w, c, key) then Some(Ledger.Misses(c))
        else if Orphaned(r.w, c, key) then None
        else Some(Ledger.Reserve(c, key))
      case Replacing => if Taken(r.w, c, key) then Some(Ledger.Reserve(c, key)) else None
      case InsertingAgain => if Taken(r.w, c, key) then Some(Ledger.Misses(c)) else Some(Ledger.Reserve(c, key))
  }

  ghost predicate Follows(r: World, s: Step)
    requires Can(r, s)
  {
    var m := LedgerStep(r, s);
    if m.Some? then Ledger.Can(r.w, m.value) && Do(r, s).w == Ledger.Do(r.w, m.value) else Do(r, s).w == r.w
  }

  /** A statement is a step of the ledger, or none, exactly if it is no takeover of a live or completed reservation. */
  lemma StepFollowsIffChecked(r: World, s: Step)
    requires Can(r, s)
    ensures Follows(r, s) <==> Checked(r, s)
  {
    if s.Advances? && r.asks[s.c].stage.Replacing? && Taken(r.w, s.c, r.asks[s.c].key) {
      TakeoverIsAtomicIffStillOrphaned(r.w, s.c, r.asks[s.c].key);
    }
  }

  ghost function LedgerSteps(steps: seq<Step>): seq<Ledger.Step>
    requires Legal(Start, steps)
    decreases |steps|
  {
    if steps == [] then []
    else
      var n := |steps| - 1;
      var done, m := LedgerSteps(steps[..n]), LedgerStep(Run(Start, steps[..n]), steps[n]);
      if m.Some? then done + [m.value] else done
  }

  lemma LedgerOneMore(steps: seq<Ledger.Step>, m: Ledger.Step)
    requires Ledger.Legal(Ledger.Empty, steps) && Ledger.Can(Ledger.Run(Ledger.Empty, steps), m)
    ensures Ledger.Legal(Ledger.Empty, steps + [m])
    ensures Ledger.Run(Ledger.Empty, steps + [m]) == Ledger.Do(Ledger.Run(Ledger.Empty, steps), m)
  {
    var more := steps + [m];
    assert more[..|more| - 1] == steps && more[|more| - 1] == m;
  }

  /** However reservations overlap, with checked takeovers the ledger sees a run of its own: all results about those hold. */
  lemma {:induction false} CheckedTakeoversRunTheLedger(steps: seq<Step>)
    requires Legal(Start, steps) && CheckedRun(Start, steps)
    ensures Ledger.Legal(Ledger.Empty, LedgerSteps(steps))
    ensures Ledger.Run(Ledger.Empty, LedgerSteps(steps)) == Run(Start, steps).w
    decreases |steps|
  {
    if steps != [] {
      var n := |steps| - 1;
      var r := Run(Start, steps[..n]);
      CheckedTakeoversRunTheLedger(steps[..n]);
      StepFollowsIffChecked(r, steps[n]);
      var m := LedgerStep(r, steps[n]);
      if m.Some? { LedgerOneMore(LedgerSteps(steps[..n]), m.value); }
    }
  }

  /** Two live claims past the reservation of one key. */
  ghost predicate TwoHolders(w: Ledger.World, c: Ledger.Claim, c': Ledger.Claim) {
    && c != c' && c in w.workers && c' in w.workers && Ledger.Live(w, c) && Ledger.Live(w, c')
    && w.workers[c].phase.Holding? && w.workers[c'].phase == w.workers[c].phase
    && w.workers[c'].subscriptionId == w.workers[c].subscriptionId
  }

  /** So one run per key. */
  lemma OneHolderUnderCheckedTakeovers(steps: seq<Step>, c: Ledger.Claim, c': Ledger.Claim)
    requires Legal(Start, steps) && CheckedRun(Start, steps)
    ensures !TwoHolders(Run(Start, steps).w, c, c')
  {
    CheckedTakeoversRunTheLedger(steps);
    if TwoHolders(Run(Start, steps).w, c, c') { LedgerTheorems.OneLiveHolderPerKey(LedgerSteps(steps), c, c'); }
  }

  /** An unchecked takeover of a completed receipt forgets that the key was handled, and runs the handler again. */
  lemma UncheckedTakeoverForgets(w: Ledger.World, c: Ledger.Claim, key: string, d: DeliveryId, e: EventId)
    requires c in w.workers && c.delivery in w.db.deliveries && w.workers[c].eventId in w.db.events
    requires LedgerTheorems.Handled(w, KeyOf(w, c, key), d, e)
    ensures Replaced(w, c, key).workers[c].phase == Ledger.Holding(key)
    ensures forall d', e' :: !LedgerTheorems.Handled(Replaced(w, c, key), KeyOf(w, c, key), d', e')
  {
  }

  // ---- two takeovers of one orphan ----

  /** Two live claims of the subscription, with nothing reserved for them yet. */
  ghost predicate BothReady(r: World, c: Ledger.Claim, c': Ledger.Claim) {
    && c != c' && MayAsk(r, c) && MayAsk(r, c') && c !in r.asks && c' !in r.asks
    && Ledger.Live(r.w, c) && Ledger.Live(r.w, c')
    && r.w.workers[c'].subscriptionId == r.w.workers[c].subscriptionId
  }

  /** An orphan for either of them. */
  predicate OrphanedForBoth(w: Ledger.World, c: Ledger.Claim, c': Ledger.Claim, key: string)
    requires c in w.workers && c' in w.workers
  {
    Orphaned(w, c, key) && Orphaned(w, c', key)
  }

  lemma Extend(r: World, steps: seq<Step>, s: Step)
    requires Legal(r, steps) && Can(Run(r, steps), s)
    ensures Legal(r, steps + [s]) && Run(r, steps + [s]) == Do(Run(r, steps), s)
  {
    var more := steps + [s];
    assert more[..|more| - 1] == steps && more[|more| - 1] == s;
  }

  lemma OrphanIsRead(r: World, c: Ledger.Claim, key: string)
    requires Advancing(r, c) && r.asks[c] == Ask(key, Inserting) && Orphaned(r.w, c, key)
    ensures var one := Advanced(r, c);
      && one == r.(asks := r.asks[c := Ask(key, Reading)]) && Advancing(one, c)
      && Advanced(one, c) == r.(asks := r.asks[c := Ask(key, Replacing)])
  {
  }

  /** A call up to its takeover: it finds the key taken, and the reservation an orphan. */
  lemma ReadsAnOrphan(r: World, steps: seq<Step>, c: Ledger.Claim, key: string) returns (more: seq<Step>)
    requires Legal(r, steps) && MayAsk(Run(r, steps), c) && c !in Run(r, steps).asks && Orphaned(Run(r, steps).w, c, key)
    ensures more == steps + [Asks(c, key)] + [Advances(c)] + [Advances(c)]
    ensures Legal(r, more) && Run(r, more) == Run(r, steps).(asks := Run(r, steps).asks[c := Ask(key, Replacing)])
  {
    Extend(r, steps, Asks(c, key));
    more := steps + [Asks(c, key)];
    OrphanIsRead(Run(r, more), c, key);
    Extend(r, more, Advances(c));
    more := more + [Advances(c)];
    Extend(r, more, Advances(c));
    more := more + [Advances(c)];
  }

  /** The takeover of a live claim always succeeds, and leaves every other claim as it was. */
  lemma TakesOver(r: World, c: Ledger.Claim)
    requires LedgerInvariants.Inv(r.w) && Advancing(r, c) && r.asks[c].stage.Replacing?
    requires Ledger.Live(r.w, c) && Taken(r.w, c, r.asks[c].key)
    ensures var after := Advanced(r, c);
      && after.asks == r.asks - {c} && after.w.workers == r.w.workers[c := r.w.workers[c].(phase := Ledger.Holding(r.asks[c].key))]
      && after.w.db == r.w.db.(receipts := after.w.db.receipts) && after.w.owner == r.w.owner
      && KeyOf(r.w, c, r.asks[c].key) in after.w.db.receipts
  {
    assert LedgerInvariants.WorkerFits(r.w, c);
  }

  /** Whoever reads the orphan before the other replaced it replaces in turn: both run their handlers. */
  lemma BothTakeOver(r: World, c: Ledger.Claim, c': Ledger.Claim, key: string)
    requires LedgerInvariants.Inv(r.w) && c != c' && Advancing(r, c) && Advancing(r, c')
    requires Ledger.Live(r.w, c) && Ledger.Live(r.w, c') && r.w.workers[c'].subscriptionId == r.w.workers[c].subscriptionId
    requires r.asks[c] == r.asks[c'] == Ask(key, Replacing) && Taken(r.w, c, key)
    ensures Advancing(Advanced(r, c), c') && TwoHolders(Advanced(Advanced(r, c), c').w, c, c')
  {
    var one := Advanced(r, c);
    TakesOver(r, c);
    assert Ledger.Live(one.w, c) && Ledger.Live(one.w, c');
    assert LedgerInvariants.WorkerFits(r.w, c');
    assert Advanced(one, c').w == Replaced(one.w, c', key);
  }

  /**
   * From every state with an orphan and two live claims for its key, two
   * overlapping calls end with both of them holding it. So the check cannot be
   * dropped, and neither can the assumption that the call is one step.
   */
  lemma OverlappingTakeoversRunTwice(r: World, c: Ledger.Claim, c': Ledger.Claim, key: string) returns (steps: seq<Step>)
    requires LedgerInvariants.Inv(r.w) && BothReady(r, c, c') && OrphanedForBoth(r.w, c, c', key)
    ensures steps == [Asks(c, key)] + [Advances(c)] + [Advances(c)] + [Asks(c', key)] + [Advances(c')] + [Advances(c')]
                     + [Advances(c)] + [Advances(c')]
    ensures Legal(r, steps) && TwoHolders(Run(r, steps).w, c, c')
  {
    steps := ReadsAnOrphan(r, [], c, key);
    assert [] + [Asks(c, key)] == [Asks(c, key)];
    steps := ReadsAnOrphan(r, steps, c', key);
    var both := Run(r, steps);
    BothTakeOver(both, c, c', key);
    Extend(r, steps, Advances(c));
    steps := steps + [Advances(c)];
    Extend(r, steps, Advances(c'));
    steps := steps + [Advances(c')];
  }

  /** Such an orphan comes of a reservation that is made after its claim was reaped: it is granted, and nobody runs it. */
  lemma LateReservationIsAnOrphan(w: Ledger.World, c: Ledger.Claim, key: string, other: Ledger.Claim)
    requires LedgerInvariants.Inv(w) && c in w.workers && w.workers[c].phase.Claimed? && !Taken(w, c, key)
    requires c.delivery in w.db.deliveries && !w.db.deliveries[c.delivery].status.Running?
    requires other in w.workers && w.workers[other].subscriptionId == w.workers[c].subscriptionId
    ensures other != c ==> Orphaned(Ledger.AfterReserve(w, c, key), other, key)
    ensures Ledger.AfterReserve(w, c, key).workers[c].phase == Ledger.Holding(key)
  {
    assert LedgerInvariants.WorkerFits(w, c);
  }

  // ---- it is reachable ----

  /** A webhook with one attempt, and the consumers that claim its deliveries. */
  datatype Case = Case(org: string, topic: string, name: string, pod: string, other: string)

  function Hook(x: Case): Subscription { Subscription(Some(x.org), x.topic, x.name, Webhook, 1, true, 0) }

  function EventAt(x: Case, at: Time): Event { Event(Some(x.org), x.topic, at) }

  /** The first delivery, its one attempt reaped, its worker still about to reserve. */
  function Reaped(x: Case): Ledger.World {
    Ledger.World(
      Db(map[0 := EventAt(x, 0)], map[0 := Hook(x)],
         map[0 := Delivery(0, 0, Dead, 1, 1, Some(x.pod), Some(0), None)], map[], 1),
      map[Ledger.Claim(0, 0) := Ledger.Worker(x.pod, 0, 0, 1, 1, Ledger.Phase.Claimed)], map[0 := 0], 1, {0}, {})
  }

  lemma PublishedOnce(x: Case)
    ensures var add, publish := Ledger.AddWebhook(0, Hook(x)), Ledger.Publish(0, Some(x.org), x.topic, map[0 := 0]);
      && Ledger.Can(Ledger.Empty, add)
      && Ledger.Can(Ledger.Do(Ledger.Empty, add), publish)
      && Ledger.Do(Ledger.Do(Ledger.Empty, add), publish) == Published(x)
  {
    var w1 := Ledger.Do(Ledger.Empty, Ledger.AddWebhook(0, Hook(x)));
    var born: map<DeliveryId, SubscriptionId> := map[0 := 0];
    assert Audience(w1.db, x.topic, Some(x.org)) == {0};
    assert born.Values == {born[0]};
  }

  function Published(x: Case): Ledger.World {
    Ledger.World(Db(map[0 := EventAt(x, 0)], map[0 := Hook(x)], map[0 := FreshDelivery(0, 0, 0)], map[], 0),
                 map[], map[], 0, {0}, {})
  }

  function Claimed0(x: Case): Ledger.World {
    Ledger.World(Db(map[0 := EventAt(x, 0)], map[0 := Hook(x)], map[0 := TakenRow(FreshDelivery(0, 0, 0), x.pod, 0)], map[], 0),
                 map[Ledger.Claim(0, 0) := Ledger.Worker(x.pod, 0, 0, 1, 1, Ledger.Phase.Claimed)], map[0 := 0], 1, {0}, {})
  }

  const ANY := ClaimFilter({}, None)

  lemma ClaimsTheFirst(x: Case)
    ensures var take := Ledger.Take(x.pod, {0}, ANY, 1, false);
      Ledger.Can(Published(x), take) && Ledger.Do(Published(x), take) == Claimed0(x)
  {
    var w := Published(x);
    assert MayPick(w.db, {0}, ANY, 1);
    FirstTaken(x);
  }

  lemma FirstTaken(x: Case)
    ensures Ledger.AfterTake(Published(x), x.pod, {0}, false) == Claimed0(x)
  {
    var after := Ledger.AfterTake(Published(x), x.pod, {0}, false);
    assert after.workers == Claimed0(x).workers;
    assert after.db.deliveries == Claimed0(x).db.deliveries;
  }

  lemma ReapsTheFirst(x: Case)
    ensures Ledger.Do(Ledger.Do(Claimed0(x), Ledger.Pass(1)), Ledger.Requeue(0)) == Reaped(x)
  {
    var w := Ledger.Do(Claimed0(x), Ledger.Pass(1));
    assert Stale(w.db, 0) == {0};
    assert LedgerOps.Requeue(w.db, 0).deliveries == Reaped(x).db.deliveries;
  }

  lemma LedgerExtend(steps: seq<Ledger.Step>, m: Ledger.Step)
    requires Ledger.Legal(Ledger.Empty, steps) && Ledger.Can(Ledger.Run(Ledger.Empty, steps), m) && NoReservation(steps)
    requires !m.Reserve? && !m.Misses?
    ensures Ledger.Legal(Ledger.Empty, steps + [m]) && NoReservation(steps + [m])
    ensures Ledger.Run(Ledger.Empty, steps + [m]) == Ledger.Do(Ledger.Run(Ledger.Empty, steps), m)
  {
    LedgerOneMore(steps, m);
  }

  predicate NoReservation(steps: seq<Ledger.Step>) { forall m <- steps :: !m.Reserve? && !m.Misses? }

  lemma ReapedIsReachable(x: Case) returns (steps: seq<Ledger.Step>)
    ensures Ledger.Legal(Ledger.Empty, steps) && NoReservation(steps) && Ledger.Run(Ledger.Empty, steps) == Reaped(x)
  {
    PublishedOnce(x);
    steps := [];
    LedgerExtend(steps, Ledger.AddWebhook(0, Hook(x)));
    steps := steps + [Ledger.AddWebhook(0, Hook(x))];
    LedgerExtend(steps, Ledger.Publish(0, Some(x.org), x.topic, map[0 := 0]));
    steps := steps + [Ledger.Publish(0, Some(x.org), x.topic, map[0 := 0])];
    ClaimsTheFirst(x);
    LedgerExtend(steps, Ledger.Take(x.pod, {0}, ANY, 1, false));
    steps := steps + [Ledger.Take(x.pod, {0}, ANY, 1, false)];
    LedgerExtend(steps, Ledger.Pass(1));
    steps := steps + [Ledger.Pass(1)];
    LedgerExtend(steps, Ledger.Requeue(0));
    steps := steps + [Ledger.Requeue(0)];
    ReapsTheFirst(x);
  }

  /** Two more events of the topic, and both their deliveries claimed. */
  function Spread(x: Case): Ledger.World {
    Ledger.World(
      Db(map[0 := EventAt(x, 0), 1 := EventAt(x, 1), 2 := EventAt(x, 1)], map[0 := Hook(x)],
         map[0 := Delivery(0, 0, Dead, 1, 1, Some(x.pod), Some(0), None), 1 := FreshDelivery(1, 0, 1), 2 := FreshDelivery(2, 0, 1)],
         map[], 1),
      Reaped(x).workers, map[0 := 0], 1, {0, 1, 2}, {})
  }

  function SpreadOnce(x: Case): Ledger.World {
    Ledger.World(
      Db(map[0 := EventAt(x, 0), 1 := EventAt(x, 1)], map[0 := Hook(x)],
         map[0 := Delivery(0, 0, Dead, 1, 1, Some(x.pod), Some(0), None), 1 := FreshDelivery(1, 0, 1)], map[], 1),
      Reaped(x).workers, map[0 := 0], 1, {0, 1}, {})
  }

  function PublishAs(x: Case, id: nat): Ledger.Step { Ledger.Publish(id, Some(x.org), x.topic, map[id := 0]) }

  lemma MayPublish(x: Case, w: Ledger.World, id: nat)
    requires w.db.subscriptions == map[0 := Hook(x)] && id !in w.db.events && id !in w.minted
    ensures Ledger.Can(w, PublishAs(x, id))
  {
    var born: map<DeliveryId, SubscriptionId> := map[id := 0];
    assert Audience(w.db, x.topic, Some(x.org)) == {0};
    assert born.Values == {born[id]};
  }

  lemma PublishesTheSecond(x: Case)
    ensures Ledger.Can(Reaped(x), PublishAs(x, 1)) && Ledger.Do(Reaped(x), PublishAs(x, 1)) == SpreadOnce(x)
  {
    MayPublish(x, Reaped(x), 1);
  }

  lemma PublishesTheThird(x: Case)
    ensures Ledger.Can(SpreadOnce(x), PublishAs(x, 2)) && Ledger.Do(SpreadOnce(x), PublishAs(x, 2)) == Spread(x)
  {
    MayPublish(x, SpreadOnce(x), 2);
  }

  /** Two live claims, and one that was reaped, none of which has reserved. */
  ghost predicate Prepared(w: Ledger.World) {
    var c, c1, c2 := Ledger.Claim(0, 0), Ledger.Claim(1, 1), Ledger.Claim(2, 1);
    && c in w.workers && c1 in w.workers && c2 in w.workers
    && w.workers[c].phase.Claimed? && w.workers[c1].phase.Claimed? && w.workers[c2].phase.Claimed?
    && w.workers[c].subscriptionId == w.workers[c1].subscriptionId == w.workers[c2].subscriptionId
    && Ledger.Live(w, c1) && Ledger.Live(w, c2) && w.db.receipts == map[]
    && 0 in w.db.deliveries && w.db.deliveries[0].status.Dead?
  }

  lemma MayClaimBoth(x: Case)
    ensures Ledger.Can(Spread(x), Ledger.Take(x.other, {1, 2}, ANY, 2, false))
  {
    var w := Spread(x);
    assert Claimable(w.db, 1, ANY) && Claimable(w.db, 2, ANY);
    assert MayPick(w.db, {1, 2}, ANY, 2);
  }

  lemma ClaimedOf(w: Ledger.World, pod: string, rows: set<DeliveryId>, d: DeliveryId)
    requires (forall x <- rows :: x in w.db.deliveries && w.db.deliveries[x].subscriptionId in w.db.subscriptions) && d in rows
    ensures var after := Ledger.AfterTake(w, pod, rows, false); var c := Ledger.Claim(d, w.turn);
      && c in after.workers && after.workers[c].phase.Claimed?
      && after.workers[c].subscriptionId == w.db.deliveries[d].subscriptionId && Ledger.Live(after, c)
  {
  }

  lemma OthersStay(w: Ledger.World, pod: string, rows: set<DeliveryId>, c: Ledger.Claim)
    requires forall x <- rows :: x in w.db.deliveries && w.db.deliveries[x].subscriptionId in w.db.subscriptions
    requires c in w.workers && c.delivery !in rows && c.delivery in w.db.deliveries
    ensures var after := Ledger.AfterTake(w, pod, rows, false);
      && c in after.workers && after.workers[c] == w.workers[c] && after.db.receipts == w.db.receipts
      && c.delivery in after.db.deliveries && after.db.deliveries[c.delivery] == w.db.deliveries[c.delivery]
  {
  }

  lemma ClaimsBoth(x: Case)
    ensures Prepared(Ledger.AfterTake(Spread(x), x.other, {1, 2}, false))
  {
    ClaimedOf(Spread(x), x.other, {1, 2}, 1);
    ClaimedOf(Spread(x), x.other, {1, 2}, 2);
    OthersStay(Spread(x), x.other, {1, 2}, Ledger.Claim(0, 0));
  }

  lemma ReadyIsReachable(x: Case) returns (steps: seq<Ledger.Step>)
    ensures Ledger.Legal(Ledger.Empty, steps) && NoReservation(steps)
    ensures Ledger.Run(Ledger.Empty, steps) == Ledger.AfterTake(Spread(x), x.other, {1, 2}, false)
  {
    steps := ReapedIsReachable(x);
    PublishesTheSecond(x);
    LedgerExtend(steps, PublishAs(x, 1));
    steps := steps + [PublishAs(x, 1)];
    PublishesTheThird(x);
    LedgerExtend(steps, PublishAs(x, 2));
    steps := steps + [PublishAs(x, 2)];
    MayClaimBoth(x);
    var take := Ledger.Take(x.other, {1, 2}, ANY, 2, false);
    LedgerExtend(steps, take);
    steps := steps + [take];
  }

  /** A ledger run without reservations is a run here. */
  lemma {:induction false} Lifted(ms: seq<Ledger.Step>) returns (steps: seq<Step>)
    requires Ledger.Legal(Ledger.Empty, ms) && NoReservation(ms)
    ensures Legal(Start, steps) && Run(Start, steps) == World(Ledger.Run(Ledger.Empty, ms), map[])
    decreases |ms|
  {
    steps := [];
    if ms != [] {
      var n := |ms| - 1;
      steps := Lifted(ms[..n]);
      assert ms[n] in ms;
      Extend(Start, steps, Writes(ms[n]));
      steps := steps + [Writes(ms[n])];
    }
  }

  lemma {:induction false} RunsCompose(r: World, a: seq<Step>, b: seq<Step>)
    requires Legal(r, a) && Legal(Run(r, a), b)
    ensures Legal(r, a + b) && Run(r, a + b) == Run(Run(r, a), b)
    decreases |b|
  {
    if b == [] {
      assert a + b == a;
    } else {
      var n := |b| - 1;
      RunsCompose(r, a, b[..n]);
      assert (a + b)[..|a + b| - 1] == a + b[..n];
      assert (a + b)[|a + b| - 1] == b[n];
    }
  }

  lemma ReserveSparesLive(w: Ledger.World, c: Ledger.Claim, key: string, other: Ledger.Claim)
    requires c in w.workers && other in w.workers && other != c
    ensures var after := Ledger.AfterReserve(w, c, key);
      other in after.workers && after.workers[other] == w.workers[other] && (Ledger.Live(after, other) <==> Ledger.Live(w, other))
  {
  }

  lemma OrphanIsMade(w: Ledger.World, key: string)
    requires LedgerInvariants.Inv(w) && Prepared(w)
    ensures var after := Ledger.AfterReserve(w, Ledger.Claim(0, 0), key);
      && LedgerInvariants.Inv(after)
      && BothReady(World(after, map[]), Ledger.Claim(1, 1), Ledger.Claim(2, 1))
      && OrphanedForBoth(after, Ledger.Claim(1, 1), Ledger.Claim(2, 1), key)
  {
    LedgerInvariants.ReserveKeepsInv(w, Ledger.Claim(0, 0), key);
    LateReservationIsAnOrphan(w, Ledger.Claim(0, 0), key, Ledger.Claim(1, 1));
    LateReservationIsAnOrphan(w, Ledger.Claim(0, 0), key, Ledger.Claim(2, 1));
    ReserveSparesLive(w, Ledger.Claim(0, 0), key, Ledger.Claim(1, 1));
    ReserveSparesLive(w, Ledger.Claim(0, 0), key, Ledger.Claim(2, 1));
  }

  /** The superseded worker reserves, late. */
  lemma ReservesAtOnce(r: World, c: Ledger.Claim, key: string)
    requires MayAsk(r, c) && r.asks == map[] && !Taken(r.w, c, key)
    ensures var steps := [Asks(c, key)] + [Advances(c)];
      Legal(r, steps) && Run(r, steps) == World(Ledger.AfterReserve(r.w, c, key), map[])
  {
    assert [] + [Asks(c, key)] == [Asks(c, key)];
    Extend(r, [], Asks(c, key));
    Extend(r, [Asks(c, key)], Advances(c));
    assert Run(r, [Asks(c, key)] + [Advances(c)]).asks == map[];
  }

  lemma PreparedRacesTwice(r: World, key: string) returns (steps: seq<Step>)
    requires LedgerInvariants.Inv(r.w) && Prepared(r.w) && r.asks == map[]
    ensures Legal(r, steps) && TwoHolders(Run(r, steps).w, Ledger.Claim(1, 1), Ledger.Claim(2, 1))
  {
    ReservesAtOnce(r, Ledger.Claim(0, 0), key);
    OrphanIsMade(r.w, key);
    var late := [Asks(Ledger.Claim(0, 0), key)] + [Advances(Ledger.Claim(0, 0))];
    var race := OverlappingTakeoversRunTwice(Run(r, late), Ledger.Claim(1, 1), Ledger.Claim(2, 1), key);
    RunsCompose(r, late, race);
    steps := late + race;
  }

  /** So from an empty ledger some run ends with two live holders of one key: the call is not one step. */
  lemma OneHolderFailsUnderEveryTakeover(x: Case, key: string) returns (steps: seq<Step>)
    ensures Legal(Start, steps) && TwoHolders(Run(Start, steps).w, Ledger.Claim(1, 1), Ledger.Claim(2, 1))
  {
    var ms := ReadyIsReachable(x);
    steps := Lifted(ms);
    ClaimsBoth(x);
    LedgerInvariants.RunKeepsInv(Ledger.Empty, ms);
    var rest := PreparedRacesTwice(Run(Start, steps), key);
    RunsCompose(Start, steps, rest);
    steps := steps + rest;
  }
}
