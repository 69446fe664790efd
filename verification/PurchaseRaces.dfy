/**
 * Webhook handlers that overlap. recordProductPurchase and
 * applyProductSubscriptionEvent (src/services/product.service.ts:465-584) are
 * two statements each, without a transaction around them: anything may
 * happen between a handler's lookup and its own write.
 */
module PurchaseRaces {
  import opened Tables
  import opened Purchases

  /** What a handler still has to write after its first statement. `row` is the id its SELECT returned. */
  datatype Pending =
    | FillsIn(row: nat, checkout: CheckoutCompleted)
    | InsertsCheckout(checkout: CheckoutCompleted)
    | InsertsChange(change: SubscriptionChanged)

  function EventOf(p: Pending): StripeEvent {
    match p
    case FillsIn(_, c) => Checkout(c)
    case InsertsCheckout(c) => Checkout(c)
    case InsertsChange(e) => Change(e)
  }

  /** What the first statement of a handler leaves to be done. */
  function Decide(rows: seq<Purchase>, event: StripeEvent): Option<Pending> {
    match event
    case Checkout(c) =>
      var i := if c.subscription.Some? then BySubscription(rows, c.subscription.value) else |rows|;
      if i == |rows| then Some(InsertsCheckout(c))
      else if rows[i].session.Some? then None
      else Some(FillsIn(i, c))
    case Change(e) =>
      if BySubscription(rows, e.subscription) < |rows| || e.org.None? || e.product.None? then None
      else Some(InsertsChange(e))
  }

  /** The first statement is a lookup, or the UPDATE of an existing row. */
  function FirstWrite(rows: seq<Purchase>, event: StripeEvent): seq<Purchase> {
    match event
    case Checkout(_) => rows
    case Change(e) =>
      var i := BySubscription(rows, e.subscription);
      if i < |rows| then rows[i := Changed(rows[i], e)] else rows
  }

  /** Another row than `i` has the session. */
  predicate TakenElsewhere(rows: seq<Purchase>, session: Id, i: nat) {
    exists k :: 0 <= k < |rows| && k != i && rows[k].session == Some(session)
  }

  /** The second statement, on whatever the table is by then; false if a unique index refuses it. */
  function SecondWrite(rows: seq<Purchase>, p: Pending): (seq<Purchase>, bool)
    requires p.FillsIn? ==> p.row < |rows|
  {
    match p
    case FillsIn(i, c) =>
      if TakenElsewhere(rows, c.session, i) then (rows, false) else (rows[i := Completed(rows[i], c)], true)
    case InsertsCheckout(c) =>
      if HasSession(rows, c.session) then (rows, true)
      else if c.subscription.Some? && BySubscription(rows, c.subscription.value) < |rows| then (rows, false)
      else (rows + [FromCheckout(c)], true)
    case InsertsChange(e) =>
      if BySubscription(rows, e.subscription) < |rows| || e.org.None? || e.product.None? then (rows, true)
      else (rows + [FromSubscription(e)], true)
  }

  /** `begun` are the events whose handling began. */
  datatype World = World(rows: seq<Purchase>, pending: map<nat, Pending>, begun: seq<StripeEvent>)

  datatype Step = Begins(handler: nat, event: StripeEvent) | Finishes(handler: nat) | Drops(handler: nat)

  /** Rows are never deleted, so an id stays the place of its row. */
  predicate Can(w: World, s: Step) {
    match s
    case Begins(h, _) => h !in w.pending
    case Finishes(h) => h in w.pending && (w.pending[h].FillsIn? ==> w.pending[h].row < |w.rows|)
    case Drops(h) => h in w.pending
  }

  function Do(w: World, s: Step): World
    requires Can(w, s)
  {
    match s
    case Begins(h, event) =>
      var left := Decide(w.rows, event);
      World(FirstWrite(w.rows, event), if left.Some? then w.pending[h := left.value] else w.pending, w.begun + [event])
    case Finishes(h) => World(SecondWrite(w.rows, w.pending[h]).0, w.pending - {h}, w.begun)
    case Drops(h) => w.(pending := w.pending - {h})
  }

  ghost predicate Legal(steps: seq<Step>)
    decreases |steps|, 0
  {
    steps == [] || (var n := |steps| - 1; Legal(steps[..n]) && Can(Run(steps[..n]), steps[n]))
  }

  ghost function Run(steps: seq<Step>): World
    requires Legal(steps)
    decreases |steps|, 1
  {
    if steps == [] then World([], map[], []) else var n := |steps| - 1; Do(Run(steps[..n]), steps[n])
  }

  /** A handler that crashes after its first statement writes nothing more; one that was refused or done is over. */
  lemma HandlersEnd(w: World, h: nat)
    requires h in w.pending
    ensures Do(w, Drops(h)).rows == w.rows && h !in Do(w, Drops(h)).pending
    ensures Can(w, Finishes(h)) ==> h !in Do(w, Finishes(h)).pending
  {
  }

  // ---- one row each, under every interleaving ----

  /** A fill-in remembers a row of its checkout's subscription. */
  ghost predicate Aimed(rows: seq<Purchase>, p: Pending) {
    p.FillsIn? ==>
      p.row < |rows| && p.checkout.subscription.Some? && rows[p.row].subscription == p.checkout.subscription
  }

  ghost predicate Inv(w: World) {
    && OneRowEach(w.rows)
    && (forall h <- w.pending :: Aimed(w.rows, w.pending[h]))
  }

  /** Rows stay where they are and keep their subscription. */
  ghost predicate Grows(rows: seq<Purchase>, later: seq<Purchase>) {
    |rows| <= |later| && forall k :: 0 <= k < |rows| ==> later[k].subscription == rows[k].subscription
  }

  lemma FirstWriteKeepsOneRowEach(rows: seq<Purchase>, event: StripeEvent)
    requires OneRowEach(rows)
    ensures OneRowEach(FirstWrite(rows, event)) && Grows(rows, FirstWrite(rows, event))
  {
  }

  lemma SecondWriteKeepsOneRowEach(rows: seq<Purchase>, p: Pending)
    requires OneRowEach(rows) && Aimed(rows, p)
    ensures OneRowEach(SecondWrite(rows, p).0) && Grows(rows, SecondWrite(rows, p).0)
  {
  }

  lemma StepKeepsInv(w: World, s: Step)
    requires Inv(w) && Can(w, s)
    ensures Inv(Do(w, s)) && Grows(w.rows, Do(w, s).rows)
  {
    match s
    case Begins(h, event) => FirstWriteKeepsOneRowEach(w.rows, event);
    case Finishes(h) => SecondWriteKeepsOneRowEach(w.rows, w.pending[h]);
    case Drops(h) =>
  }

  /** However handlers overlap, crash or are redelivered: never a second row for a subscription or a session. */
  lemma {:induction false} NeverASecondRowUnderRaces(steps: seq<Step>)
    requires Legal(steps)
    ensures OneRowEach(Run(steps).rows) && Inv(Run(steps))
    decreases |steps|
  {
    if steps != [] {
      var n := |steps| - 1;
      NeverASecondRowUnderRaces(steps[..n]);
      StepKeepsInv(Run(steps[..n]), steps[n]);
    }
  }

  // ---- when overlapping handlers are as good as handling one event after the other ----

  /**
   * The second statement does what handling the event now would do. It does
   * not when a foreign write came after the lookup: a change finds its row
   * inserted and is dropped although it would change it; a checkout finds its
   * row inserted unpaid and is refused; a fill-in finds another session and
   * overwrites it.
   */
  ghost predicate Harmless(rows: seq<Purchase>, p: Pending)
    requires p.FillsIn? ==> p.row < |rows|
  {
    match p
    case InsertsChange(e) =>
      var i := BySubscription(rows, e.subscription);
      i < |rows| ==> Changed(rows[i], e) == rows[i]
    case InsertsCheckout(c) =>
      c.subscription.Some? ==>
        var i := BySubscription(rows, c.subscription.value);
        i < |rows| ==> rows[i].session.Some? || HasSession(rows, c.session)
    case FillsIn(i, c) =>
      rows[i].session.Some? ==> TakenElsewhere(rows, c.session, i) || Completed(rows[i], c) == rows[i]
  }

  lemma FirstOfItsSubscription(rows: seq<Purchase>, i: nat)
    requires OneRowEach(rows) && i < |rows| && rows[i].subscription.Some?
    ensures BySubscription(rows, rows[i].subscription.value) == i
  {
    var k := BySubscription(rows, rows[i].subscription.value);
    assert !(k < i) && !(i < k);
  }

  /** Exactly then, and for every state the second statement can meet. */
  lemma SecondWriteIsAtomicIffHarmless(rows: seq<Purchase>, p: Pending)
    requires OneRowEach(rows) && Aimed(rows, p)
    ensures SecondWrite(rows, p).0 == Handle(rows, EventOf(p)) <==> Harmless(rows, p)
  {
    match p
    case InsertsChange(e) =>
      var i := BySubscription(rows, e.subscription);
      if i < |rows| { assert rows[i := Changed(rows[i], e)][i] == Changed(rows[i], e); }
    case InsertsCheckout(c) =>
      if c.subscription.Some? {
        var i := BySubscription(rows, c.subscription.value);
        if i < |rows| { assert rows[i := Completed(rows[i], c)][i].session == Some(c.session); }
      }
    case FillsIn(i, c) =>
      FirstOfItsSubscription(rows, i);
      assert rows[i := Completed(rows[i], c)][i] == Completed(rows[i], c);
      if rows[i].session.None? { assert HasSession(rows, c.session) <==> TakenElsewhere(rows, c.session, i); }
  }

  /** The first statement is the whole handling exactly when it leaves nothing to do. */
  lemma FirstWriteIsAtomic(rows: seq<Purchase>, event: StripeEvent)
    ensures FirstWrite(rows, event) == if Decide(rows, event).None? then Handle(rows, event) else rows
  {
  }

  /** Repeating the lookup now would lead to the same write: no foreign insert or fill-in came in between. */
  predicate MissStillHolds(rows: seq<Purchase>, p: Pending) { Decide(rows, EventOf(p)) == Some(p) }

  lemma StillHoldingIsHarmless(rows: seq<Purchase>, p: Pending)
    requires OneRowEach(rows) && Aimed(rows, p) && MissStillHolds(rows, p)
    ensures Harmless(rows, p)
  {
  }

  /** The events in the order in which they took effect. */
  ghost function Linear(steps: seq<Step>): seq<StripeEvent>
    requires Legal(steps)
    decreases |steps|
  {
    if steps == [] then []
    else
      var n := |steps| - 1;
      var w := Run(steps[..n]);
      match steps[n]
      case Begins(_, event) => if Decide(w.rows, event).None? then Linear(steps[..n]) + [event] else Linear(steps[..n])
      case Finishes(h) => Linear(steps[..n]) + [EventOf(w.pending[h])]
      case Drops(_) => Linear(steps[..n])
  }

  ghost predicate HarmlessStep(w: World, s: Step)
    requires Can(w, s)
  {
    s.Finishes? ==> Harmless(w.rows, w.pending[s.handler])
  }

  ghost predicate HarmlessRun(steps: seq<Step>) {
    steps == [] || (var n := |steps| - 1;
      HarmlessRun(steps[..n]) && Legal(steps) && HarmlessStep(Run(steps[..n]), steps[n]))
  }

  lemma TableOneMore(history: seq<StripeEvent>, event: StripeEvent)
    ensures Table(history + [event]) == Handle(Table(history), event)
  {
    assert (history + [event])[..|history|] == history;
  }

  /** Without a harmful overlap the table is that of handling the events one by one, in the order of their effects. */
  lemma {:induction false} HarmlessRunsAreSequential(steps: seq<Step>)
    requires Legal(steps) && HarmlessRun(steps)
    ensures Run(steps).rows == Table(Linear(steps))
    decreases |steps|
  {
    if steps != [] {
      var n := |steps| - 1;
      var w := Run(steps[..n]);
      HarmlessRunsAreSequential(steps[..n]);
      NeverASecondRowUnderRaces(steps[..n]);
      match steps[n]
      case Begins(h, event) =>
        FirstWriteIsAtomic(w.rows, event);
        TableOneMore(Linear(steps[..n]), event);
      case Finishes(h) =>
        SecondWriteIsAtomicIffHarmless(w.rows, w.pending[h]);
        TableOneMore(Linear(steps[..n]), EventOf(w.pending[h]));
      case Drops(_) =>
    }
  }

  ghost predicate RecheckedRun(steps: seq<Step>) {
    steps == [] || (var n := |steps| - 1;
      && RecheckedRun(steps[..n]) && Legal(steps)
      && (steps[n].Finishes? ==> var w := Run(steps[..n]); MissStillHolds(w.rows, w.pending[steps[n].handler])))
  }

  /**
   * A guard the two statements lack and a handler could check: writing only
   * what repeating the lookup would still lead to. Every run that keeps it is
   * sequential, whatever else overlaps.
   */
  lemma {:induction false} RecheckedRunsAreSequential(steps: seq<Step>)
    requires Legal(steps) && RecheckedRun(steps)
    ensures HarmlessRun(steps) && Run(steps).rows == Table(Linear(steps))
    decreases |steps|
  {
    if steps != [] {
      var n := |steps| - 1;
      RecheckedRunsAreSequential(steps[..n]);
      NeverASecondRowUnderRaces(steps[..n]);
      var w := Run(steps[..n]);
      if steps[n].Finishes? { StillHoldingIsHarmless(w.rows, w.pending[steps[n].handler]); }
    }
    HarmlessRunsAreSequential(steps);
  }

  /** And the first harmful one makes it another table. */
  lemma FirstHarmfulStepDeviates(steps: seq<Step>, s: Step)
    requires Legal(steps) && HarmlessRun(steps) && Can(Run(steps), s) && Legal(steps + [s])
    ensures Run(steps + [s]).rows == Table(Linear(steps + [s])) <==> HarmlessStep(Run(steps), s)
  {
    var all := steps + [s];
    assert all[..|all| - 1] == steps;
    HarmlessRunsAreSequential(steps);
    NeverASecondRowUnderRaces(steps);
    var w := Run(steps);
    match s
    case Begins(h, event) =>
      FirstWriteIsAtomic(w.rows, event);
      TableOneMore(Linear(steps), event);
    case Finishes(h) =>
      SecondWriteIsAtomicIffHarmless(w.rows, w.pending[h]);
      TableOneMore(Linear(steps), EventOf(w.pending[h]));
    case Drops(_) =>
  }

  /** So the checkout commutes with the changes under every overlap that is harmless. */
  lemma CheckoutCommutesUnderHarmlessRaces(one: seq<Step>, two: seq<Step>, c: CheckoutCompleted)
    requires Legal(one) && HarmlessRun(one) && Legal(two) && HarmlessRun(two)
    requires SessionsBelongTogether(Linear(one)) && SessionsBelongTogether(Linear(two))
    requires c.subscription.Some? && c.purchasedBy.Some?
    requires var s := c.subscription.value;
      && Stamped(OwnEvents(Linear(one), s), c) && Stamped(OwnEvents(Linear(two), s), c)
      && Checkout(c) in OwnEvents(Linear(one), s) && Checkout(c) in OwnEvents(Linear(two), s)
      && Changes(OwnEvents(Linear(one), s)) == Changes(OwnEvents(Linear(two), s))
    ensures var s := c.subscription.value;
      var x, y := RowOf(Run(one).rows, s), RowOf(Run(two).rows, s);
      && x.Some? && y.Some?
      && x.value.status == y.value.status && x.value.periodEnd == y.value.periodEnd
      && x.value.session == y.value.session == Some(c.session)
      && x.value.paymentIntent == y.value.paymentIntent == c.paymentIntent
      && x.value.amountCents == y.value.amountCents && x.value.purchasedBy == y.value.purchasedBy
  {
    HarmlessRunsAreSequential(one);
    HarmlessRunsAreSequential(two);
    CheckoutCommutesWithChanges(Linear(one), Linear(two), c);
  }

  // ---- refusals ----

  /** A session in the table came with a checkout of that row's subscription. */
  lemma {:induction false} SessionsCameWithCheckouts(steps: seq<Step>)
    requires Legal(steps)
    ensures SessionsHaveCheckouts(Run(steps).rows, Run(steps).begun)
    ensures forall h <- Run(steps).pending :: EventOf(Run(steps).pending[h]) in Run(steps).begun
    decreases |steps|
  {
    if steps != [] {
      var n := |steps| - 1;
      var w, after := Run(steps[..n]), Run(steps);
      SessionsCameWithCheckouts(steps[..n]);
      NeverASecondRowUnderRaces(steps[..n]);
      assert w.begun == after.begun[..|w.begun|];
      forall k | 0 <= k < |after.rows| && after.rows[k].session.Some? ensures CameWith(after.rows[k], after.begun) {
        if k < |w.rows| && w.rows[k].session == after.rows[k].session {
          CameWithEarlier(w.rows[k], after.begun, |w.begun|);
        } else {
          assert Happened(w.pending[steps[n].handler].checkout, after.begun);
        }
      }
    }
  }

  lemma OwnRowHasTheSession(rows: seq<Purchase>, begun: seq<StripeEvent>, i: nat, c: CheckoutCompleted)
    requires OneRowEach(rows) && SessionsHaveCheckouts(rows, begun) && SessionsBelongTogether(begun)
    requires Happened(c, begun) && i < |rows| && c.subscription.Some? && rows[i].subscription == c.subscription
    ensures !TakenElsewhere(rows, c.session, i)
  {
    forall k | 0 <= k < |rows| && rows[k].session == Some(c.session)
      ensures rows[k].subscription == c.subscription
    {
      assert CameWith(rows[k], begun);
      var d :| Happened(d, begun) && d.session == c.session && d.subscription == rows[k].subscription;
    }
  }

  /**
   * If a session belongs to one subscription, a checkout is refused exactly
   * when its lookup missed, its subscription has a row by now, and its session
   * is in no row: filling in is never refused.
   */
  lemma RefusedIffOvertaken(steps: seq<Step>, h: nat)
    requires Legal(steps) && Can(Run(steps), Finishes(h))
    requires SessionsBelongTogether(Run(steps).begun)
    ensures var w := Run(steps); var p := w.pending[h];
      !SecondWrite(w.rows, p).1 <==>
        && p.InsertsCheckout? && p.checkout.subscription.Some?
        && BySubscription(w.rows, p.checkout.subscription.value) < |w.rows|
        && !HasSession(w.rows, p.checkout.session)
  {
    var w := Run(steps);
    var p := w.pending[h];
    SessionsCameWithCheckouts(steps);
    NeverASecondRowUnderRaces(steps);
    if p.FillsIn? { OwnRowHasTheSession(w.rows, w.begun, p.row, p.checkout); }
  }

  // ---- the two races ----

  lemma Extend(steps: seq<Step>, s: Step)
    requires Legal(steps) && Can(Run(steps), s)
    ensures Legal(steps + [s]) && Run(steps + [s]) == Do(Run(steps), s)
  {
    var more := steps + [s];
    assert more[..|more| - 1] == steps && more[|more| - 1] == s;
  }

  lemma LooksAtNothing(w: World, h: nat, event: StripeEvent)
    requires w.rows == [] && h !in w.pending && Decide([], event).Some?
    ensures Do(w, Begins(h, event)).rows == []
    ensures Do(w, Begins(h, event)).pending == w.pending[h := Decide([], event).value]
  {
  }

  lemma BothLooked(first: StripeEvent, second: StripeEvent)
    requires Decide([], first).Some? && Decide([], second).Some?
    ensures var steps := [Begins(1, first)] + [Begins(2, second)];
      && Legal(steps)
      && Run(steps).rows == []
      && Run(steps).pending == map[1 := Decide([], first).value, 2 := Decide([], second).value]
  {
    assert [] + [Begins(1, first)] == [Begins(1, first)];
    LooksAtNothing(Run([]), 1, first);
    Extend([], Begins(1, first));
    LooksAtNothing(Run([Begins(1, first)]), 2, second);
    Extend([Begins(1, first)], Begins(2, second));
  }

  /** The first handler looks, the second handles its event completely, the first writes. */
  lemma Overtaking(first: StripeEvent, second: StripeEvent) returns (steps: seq<Step>)
    requires Decide([], first).Some? && Decide([], second).Some?
    ensures steps == [Begins(1, first)] + [Begins(2, second)] + [Finishes(2)] + [Finishes(1)]
    ensures Legal(steps)
    ensures Run(steps).rows == SecondWrite(SecondWrite([], Decide([], second).value).0, Decide([], first).value).0
  {
    BothLooked(first, second);
    steps := [Begins(1, first)] + [Begins(2, second)];
    BothWrite(steps, Decide([], first).value, Decide([], second).value);
    steps := steps + [Finishes(2)] + [Finishes(1)];
  }

  lemma BothWrite(steps: seq<Step>, first: Pending, second: Pending)
    requires Legal(steps) && Run(steps).rows == [] && Run(steps).pending == map[1 := first, 2 := second]
    requires !first.FillsIn? && !second.FillsIn?
    ensures Legal(steps + [Finishes(2)] + [Finishes(1)])
    ensures Run(steps + [Finishes(2)] + [Finishes(1)]).rows == SecondWrite(SecondWrite([], second).0, first).0
  {
    Extend(steps, Finishes(2));
    Extend(steps + [Finishes(2)], Finishes(1));
  }

  lemma InOrder(first: StripeEvent, second: StripeEvent)
    ensures Table([first, second]) == Handle(Handle([], first), second)
  {
    TableOneMore([], first);
    TableOneMore([first], second);
    assert [] + [first] == [first] && [first] + [second] == [first, second];
  }

  /**
   * A change overtaken by its subscription's checkout is lost: the table is
   * that of neither order, exactly unless the change says nothing new.
   */
  lemma OvertakenChangeIsLost(c: CheckoutCompleted, e: SubscriptionChanged) returns (steps: seq<Step>)
    requires c.subscription == Some(e.subscription) && e.org.Some? && e.product.Some?
    ensures steps == [Begins(1, Change(e))] + [Begins(2, Checkout(c))] + [Finishes(2)] + [Finishes(1)]
    ensures Legal(steps) && Run(steps).rows == [FromCheckout(c)]
    ensures Run(steps).rows == Table([Checkout(c), Change(e)]) || Run(steps).rows == Table([Change(e), Checkout(c)])
       <==> Changed(FromCheckout(c), e) == FromCheckout(c)
  {
    steps := Overtaking(Change(e), Checkout(c));
    InOrder(Checkout(c), Change(e));
    InOrder(Change(e), Checkout(c));
    assert Table([Checkout(c), Change(e)]) == [Changed(FromCheckout(c), e)];
    assert Table([Change(e), Checkout(c)]) == [Completed(FromSubscription(e), c)];
    assert [FromCheckout(c)][0] == FromCheckout(c);
    assert [Completed(FromSubscription(e), c)][0] == Completed(FromSubscription(e), c);
    assert [Changed(FromCheckout(c), e)][0] == Changed(FromCheckout(c), e);
  }

  /** A checkout overtaken by a change throws and leaves its row unpaid; delivering it again repairs that. */
  lemma OvertakenCheckoutIsRefused(c: CheckoutCompleted, e: SubscriptionChanged) returns (steps: seq<Step>)
    requires c.subscription == Some(e.subscription) && e.org.Some? && e.product.Some?
    ensures steps == [Begins(1, Checkout(c))] + [Begins(2, Change(e))] + [Finishes(2)] + [Finishes(1)]
    ensures Legal(steps) && Run(steps).rows == [FromSubscription(e)]
    ensures !SecondWrite([FromSubscription(e)], InsertsCheckout(c)).1
    ensures Handle(Run(steps).rows, Checkout(c)) == Table([Change(e), Checkout(c)])
  {
    steps := Overtaking(Checkout(c), Change(e));
    InOrder(Change(e), Checkout(c));
    assert [FromSubscription(e)][0].subscription == c.subscription;
  }
}
