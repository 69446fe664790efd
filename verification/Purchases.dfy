/**
 * Fulfilment of product purchases from Stripe events
 * (src/services/product.service.ts:435-605), which arrive at least once and
 * in any order: the checkout may come before, between or after the
 * subscription events it belongs to.
 */
module Purchases {
  import opened Tables
  import opened Text

  /** Stripe and table identifiers; never empty, only equality matters. */
  type Id = nat

  datatype PurchaseStatus = Active | PastDue | Canceled

  datatype Purchase = Purchase(
    org: Id,
    product: Id,
    purchasedBy: Option<Id>,
    status: PurchaseStatus,
    session: Option<Id>,
    subscription: Option<Id>,
    paymentIntent: Option<Id>,
    amountCents: nat,
    currency: string,
    periodEnd: Option<Time>,
    canceledAt: Option<Time>)

  datatype CheckoutCompleted = CheckoutCompleted(
    org: Id,
    product: Id,
    session: Id,
    subscription: Option<Id>,
    paymentIntent: Option<Id>,
    amountCents: Option<nat>,
    currency: Option<string>,
    purchasedBy: Option<Id>)

  /** `org` and `product` are the stamped metadata; times are Unix seconds, 0 meaning absent. */
  datatype SubscriptionChanged = SubscriptionChanged(
    subscription: Id,
    status: string,
    currentPeriodEnd: Option<nat>,
    canceledAt: Option<nat>,
    org: Option<Id>,
    product: Option<Id>,
    user: Option<Id>,
    now: Time)

  datatype StripeEvent = Checkout(checkout: CheckoutCompleted) | Change(change: SubscriptionChanged)

  function MapStripeSubscriptionStatus(status: string): (r: PurchaseStatus)
    ensures r == Active <==> status in {"active", "trialing"}
    ensures r == PastDue <==> status == "past_due"
  {
    if status == "active" || status == "trialing" then Active
    else if status == "past_due" then PastDue
    else Canceled
  }

  /** Unix seconds as milliseconds; 0 is no time. */
  function Seconds(t: Option<nat>): (ms: Option<Time>)
    ensures ms == None <==> t == None || t == Some(0)
    ensures ms != None ==> ms.value / 1000 == t.value && ms.value % 1000 == 0
  {
    if t.Some? && t.value != 0 then Some(t.value * 1000) else None
  }

  function CanceledAt(e: SubscriptionChanged): Option<Time> {
    if Seconds(e.canceledAt).Some? then Seconds(e.canceledAt)
    else if MapStripeSubscriptionStatus(e.status) == Canceled then Some(e.now)
    else None
  }

  // ---- rows ----

  function FromCheckout(c: CheckoutCompleted): Purchase {
    Purchase(c.org, c.product, c.purchasedBy, Active, Some(c.session), c.subscription, c.paymentIntent,
             if c.amountCents.Some? then c.amountCents.value else 0,
             if c.currency.Some? then Lower(c.currency.value) else "usd", None, None)
  }

  /** A row that a subscription event created is filled in. */
  function Completed(row: Purchase, c: CheckoutCompleted): Purchase {
    row.(session := Some(c.session),
         paymentIntent := if c.paymentIntent.Some? then c.paymentIntent else row.paymentIntent,
         amountCents := if c.amountCents.Some? then c.amountCents.value else row.amountCents,
         currency := if c.currency.Some? && c.currency.value != "" then c.currency.value else row.currency,
         purchasedBy := if c.purchasedBy.Some? then c.purchasedBy else row.purchasedBy)
  }

  function FromSubscription(e: SubscriptionChanged): Purchase
    requires e.org.Some? && e.product.Some?
  {
    Purchase(e.org.value, e.product.value, e.user, MapStripeSubscriptionStatus(e.status), None, Some(e.subscription),
             None, 0, "usd", Seconds(e.currentPeriodEnd), CanceledAt(e))
  }

  function Changed(row: Purchase, e: SubscriptionChanged): Purchase {
    var status := MapStripeSubscriptionStatus(e.status);
    row.(status := status,
         periodEnd := if Seconds(e.currentPeriodEnd).Some? then Seconds(e.currentPeriodEnd) else row.periodEnd,
         canceledAt := if status == Canceled then CanceledAt(e) else row.canceledAt)
  }

  // ---- the table ----

  /** The first row of the subscription; |rows| if there is none. */
  function BySubscription(rows: seq<Purchase>, subscription: Id): (i: nat)
    ensures i <= |rows|
    ensures i < |rows| ==> rows[i].subscription == Some(subscription)
    ensures forall k :: 0 <= k < i ==> rows[k].subscription != Some(subscription)
  {
    if rows == [] then 0
    else if rows[0].subscription == Some(subscription) then 0
    else 1 + BySubscription(rows[1..], subscription)
  }

  predicate HasSession(rows: seq<Purchase>, session: Id) {
    exists k :: 0 <= k < |rows| && rows[k].session == Some(session)
  }

  /** The new rows, and false if a unique index refused the write: the call throws and nothing changes. */
  function Record(rows: seq<Purchase>, c: CheckoutCompleted): (seq<Purchase>, bool) {
    var i := if c.subscription.Some? then BySubscription(rows, c.subscription.value) else |rows|;
    if i < |rows| then
      if rows[i].session.Some? then (rows, true)
      else if HasSession(rows, c.session) then (rows, false)
      else (rows[i := Completed(rows[i], c)], true)
    else if HasSession(rows, c.session) then (rows, true)
    else (rows + [FromCheckout(c)], true)
  }

  function ApplyChange(rows: seq<Purchase>, e: SubscriptionChanged): seq<Purchase> {
    var i := BySubscription(rows, e.subscription);
    if i < |rows| then rows[i := Changed(rows[i], e)]
    else if e.org.None? || e.product.None? then rows
    else rows + [FromSubscription(e)]
  }

  function Handle(rows: seq<Purchase>, event: StripeEvent): seq<Purchase> {
    match event
    case Checkout(c) => Record(rows, c).0
    case Change(e) => ApplyChange(rows, e)
  }

  function Table(history: seq<StripeEvent>): seq<Purchase> {
    if history == [] then [] else Handle(Table(history[..|history| - 1]), history[|history| - 1])
  }

  // ---- one row each ----

  /** What the unique indexes of the table demand. */
  ghost predicate OneRowEach(rows: seq<Purchase>) {
    && (forall i, j :: 0 <= i < j < |rows| && rows[i].subscription.Some? ==> rows[i].subscription != rows[j].subscription)
    && (forall i, j :: 0 <= i < j < |rows| && rows[i].session.Some? ==> rows[i].session != rows[j].session)
  }

  lemma HandleKeepsOneRowEach(rows: seq<Purchase>, event: StripeEvent)
    requires OneRowEach(rows)
    ensures OneRowEach(Handle(rows, event))
  {
  }

  /** Whatever arrives, in whatever order: never a second row for a subscription or a checkout session. */
  lemma {:induction false} NeverASecondRow(history: seq<StripeEvent>)
    ensures OneRowEach(Table(history))
  {
    if history != [] {
      var n := |history| - 1;
      NeverASecondRow(history[..n]);
      HandleKeepsOneRowEach(Table(history[..n]), history[n]);
    }
  }

  /** Stripe's side: a checkout session belongs to one subscription, or to none. */
  ghost predicate SessionsBelongTogether(history: seq<StripeEvent>) {
    forall a, b :: Happened(a, history) && Happened(b, history) && a.session == b.session ==> a.subscription == b.subscription
  }

  predicate Happened(c: CheckoutCompleted, history: seq<StripeEvent>) { Checkout(c) in history }

  /** A session in the table came from a checkout of that row's subscription. */
  ghost predicate SessionsHaveCheckouts(rows: seq<Purchase>, history: seq<StripeEvent>) {
    forall k :: 0 <= k < |rows| && rows[k].session.Some? ==> CameWith(rows[k], history)
  }

  ghost predicate CameWith(row: Purchase, history: seq<StripeEvent>)
    requires row.session.Some?
  {
    exists c :: Happened(c, history) && c.session == row.session.value && c.subscription == row.subscription
  }

  lemma CameWithEarlier(row: Purchase, history: seq<StripeEvent>, n: nat)
    requires n <= |history| && row.session.Some? && CameWith(row, history[..n])
    ensures CameWith(row, history)
  {
    var c :| Happened(c, history[..n]) && c.session == row.session.value && c.subscription == row.subscription;
    assert Happened(c, history);
  }

  lemma {:induction false} TableSessionsHaveCheckouts(history: seq<StripeEvent>)
    ensures SessionsHaveCheckouts(Table(history), history)
  {
    if history != [] {
      var n := |history| - 1;
      var before, after := Table(history[..n]), Table(history);
      TableSessionsHaveCheckouts(history[..n]);
      assert history[n] in history;
      assert history[n].Checkout? ==> Happened(history[n].checkout, history);
      forall k | 0 <= k < |after| && after[k].session.Some? ensures CameWith(after[k], history) {
        if k < |before| && before[k].session == after[k].session {
          assert before[k].subscription == after[k].subscription;
          CameWithEarlier(before[k], history, n);
        } else {
          assert history[n].Checkout? && after[k].session == Some(history[n].checkout.session);
          assert after[k].subscription == history[n].checkout.subscription;
        }
      }
    }
  }

  /** So the unique indexes never refuse a checkout that is handled by itself. */
  lemma CheckoutIsNeverRefused(history: seq<StripeEvent>, c: CheckoutCompleted)
    requires SessionsBelongTogether(history + [Checkout(c)])
    ensures Record(Table(history), c).1
  {
    var rows := Table(history);
    if !Record(rows, c).1 {
      var k :| 0 <= k < |rows| && rows[k].session == Some(c.session);
      SessionOwner(history, c, k);
      NeverASecondRow(history);
      assert false;
    }
  }

  /** A row that has the session of `c` is the row of its subscription. */
  lemma SessionOwner(history: seq<StripeEvent>, c: CheckoutCompleted, k: nat)
    requires SessionsBelongTogether(history + [Checkout(c)])
    requires k < |Table(history)| && Table(history)[k].session == Some(c.session)
    ensures Table(history)[k].subscription == c.subscription
  {
    TableSessionsHaveCheckouts(history);
    assert CameWith(Table(history)[k], history);
    var d :| Happened(d, history) && d.session == c.session && d.subscription == Table(history)[k].subscription;
    assert Happened(d, history + [Checkout(c)]) && Happened(c, history + [Checkout(c)]);
  }

  // ---- one subscription's row depends on its own events ----

  function RowOf(rows: seq<Purchase>, subscription: Id): Option<Purchase> {
    var i := BySubscription(rows, subscription);
    if i < |rows| then Some(rows[i]) else None
  }

  predicate About(event: StripeEvent, subscription: Id) {
    match event
    case Checkout(c) => c.subscription == Some(subscription)
    case Change(e) => e.subscription == subscription
  }

  function OwnEvents(history: seq<StripeEvent>, subscription: Id): seq<StripeEvent> {
    if history == [] then []
    else
      var n := |history| - 1;
      var before := OwnEvents(history[..n], subscription);
      if About(history[n], subscription) then before + [history[n]] else before
  }

  function RowStep(row: Option<Purchase>, event: StripeEvent): Option<Purchase> {
    match event
    case Checkout(c) =>
      if row.None? then Some(FromCheckout(c))
      else if row.value.session.Some? then row
      else Some(Completed(row.value, c))
    case Change(e) =>
      if row.Some? then Some(Changed(row.value, e))
      else if e.org.None? || e.product.None? then None
      else Some(FromSubscription(e))
  }

  function RowAfter(own: seq<StripeEvent>): Option<Purchase> {
    if own == [] then None else RowStep(RowAfter(own[..|own| - 1]), own[|own| - 1])
  }

  lemma {:induction false} BySubscriptionOf(rows: seq<Purchase>, more: seq<Purchase>, subscription: Id)
    requires forall k :: 0 <= k < |rows| ==> rows[k].subscription != Some(subscription)
    ensures BySubscription(rows + more, subscription) == |rows| + BySubscription(more, subscription)
  {
    if rows == [] {
      assert rows + more == more;
    } else {
      assert (rows + more)[1..] == rows[1..] + more;
      BySubscriptionOf(rows[1..], more, subscription);
    }
  }

  lemma AppendedRow(rows: seq<Purchase>, row: Purchase, subscription: Id)
    ensures RowOf(rows + [row], subscription) ==
      if RowOf(rows, subscription).Some? then RowOf(rows, subscription)
      else if row.subscription == Some(subscription) then Some(row) else None
  {
    var i := BySubscription(rows, subscription);
    if i < |rows| {
      BySubscriptionOf(rows[..i], rows[i..] + [row], subscription);
      assert rows + [row] == rows[..i] + (rows[i..] + [row]);
    } else {
      BySubscriptionOf(rows, [row], subscription);
    }
  }

  lemma ReplacedRow(rows: seq<Purchase>, at: nat, row: Purchase, subscription: Id)
    requires at < |rows| && row.subscription == rows[at].subscription && OneRowEach(rows)
    ensures RowOf(rows[at := row], subscription) ==
      if rows[at].subscription == Some(subscription) then Some(row) else RowOf(rows, subscription)
  {
    var updated := rows[at := row];
    var i := BySubscription(rows, subscription);
    assert forall k :: 0 <= k < |rows| ==> updated[k].subscription == rows[k].subscription;
    BySubscriptionOf(updated[..i], updated[i..], subscription);
    assert updated == updated[..i] + updated[i..];
  }

  lemma EventStepsTheRow(history: seq<StripeEvent>, event: StripeEvent, subscription: Id)
    requires SessionsBelongTogether(history + [event])
    ensures var before, after := Table(history), Handle(Table(history), event);
      RowOf(after, subscription) ==
        if About(event, subscription) then RowStep(RowOf(before, subscription), event) else RowOf(before, subscription)
  {
    var rows := Table(history);
    NeverASecondRow(history);
    match event
    case Change(e) =>
      var i := BySubscription(rows, e.subscription);
      if i < |rows| {
        ReplacedRow(rows, i, Changed(rows[i], e), subscription);
      } else if e.org.Some? && e.product.Some? {
        AppendedRow(rows, FromSubscription(e), subscription);
      }
    case Checkout(c) =>
      CheckoutIsNeverRefused(history, c);
      var i := if c.subscription.Some? then BySubscription(rows, c.subscription.value) else |rows|;
      if i < |rows| {
        if rows[i].session.None? { ReplacedRow(rows, i, Completed(rows[i], c), subscription); }
      } else if HasSession(rows, c.session) {
        var k :| 0 <= k < |rows| && rows[k].session == Some(c.session);
        SessionOwner(history, c, k);
      } else {
        AppendedRow(rows, FromCheckout(c), subscription);
      }
  }

  lemma RowAfterOneMore(own: seq<StripeEvent>, event: StripeEvent)
    ensures RowAfter(own + [event]) == RowStep(RowAfter(own), event)
  {
    assert (own + [event])[..|own|] == own;
  }

  lemma TogetherEarlier(history: seq<StripeEvent>, n: nat)
    requires SessionsBelongTogether(history) && n <= |history|
    ensures SessionsBelongTogether(history[..n])
  {
    assert forall c :: Happened(c, history[..n]) ==> Happened(c, history);
  }

  /** Events of other purchases in between change nothing: the row is what its own events make of it. */
  lemma {:induction false} RowFollowsItsOwnEvents(history: seq<StripeEvent>, subscription: Id)
    requires SessionsBelongTogether(history)
    ensures RowOf(Table(history), subscription) == RowAfter(OwnEvents(history, subscription))
  {
    if history != [] {
      var n := |history| - 1;
      TogetherEarlier(history, n);
      RowFollowsItsOwnEvents(history[..n], subscription);
      assert history[..n] + [history[n]] == history;
      EventStepsTheRow(history[..n], history[n], subscription);
      if About(history[n], subscription) { RowAfterOneMore(OwnEvents(history[..n], subscription), history[n]); }
    }
  }

  // ---- the checkout commutes with the subscription events ----

  function Changes(own: seq<StripeEvent>): seq<SubscriptionChanged> {
    if own == [] then []
    else
      var n := |own| - 1;
      if own[n].Change? then Changes(own[..n]) + [own[n].change] else Changes(own[..n])
  }

  /** The last period end that a change gave. */
  function PeriodEnd(changes: seq<SubscriptionChanged>): Option<Time> {
    if changes == [] then None
    else
      var n := |changes| - 1;
      if Seconds(changes[n].currentPeriodEnd).Some? then Seconds(changes[n].currentPeriodEnd) else PeriodEnd(changes[..n])
  }

  function StatusAfter(changes: seq<SubscriptionChanged>): PurchaseStatus {
    if changes == [] then Active else MapStripeSubscriptionStatus(changes[|changes| - 1].status)
  }

  /** Every event is the one checkout, or a change stamped with the checkout's organization and product. */
  ghost predicate Stamped(own: seq<StripeEvent>, c: CheckoutCompleted) {
    forall event <- own ::
      && (event.Checkout? ==> event.checkout == c)
      && (event.Change? ==> event.change.org == Some(c.org) && event.change.product == Some(c.product)
                                  && Some(event.change.subscription) == c.subscription)
  }

  /** The currency: an insert writes it in lower case, filling in a row writes it as it came. */
  function CurrencyAfter(c: CheckoutCompleted, paid: bool, paidFirst: bool): string {
    if paidFirst then FromCheckout(c).currency
    else if paid && c.currency.Some? && c.currency.value != "" then c.currency.value
    else "usd"
  }

  predicate PaidFirst(own: seq<StripeEvent>) { own != [] && own[0].Checkout? }

  /** The row as far as the two kinds of event determine it. */
  ghost predicate Reflects(row: Purchase, c: CheckoutCompleted, own: seq<StripeEvent>) {
    var paid, changes := Checkout(c) in own, Changes(own);
    && row.org == c.org && row.product == c.product && row.subscription == c.subscription
    && row.status == StatusAfter(changes)
    && row.periodEnd == PeriodEnd(changes)
    && row.session == (if paid then Some(c.session) else None)
    && row.paymentIntent == (if paid then c.paymentIntent else None)
    && row.amountCents == (if paid && c.amountCents.Some? then c.amountCents.value else 0)
    && (paid && c.purchasedBy.Some? ==> row.purchasedBy == c.purchasedBy)
    && row.currency == CurrencyAfter(c, paid, PaidFirst(own))
  }

  lemma {:induction false} RowReflectsItsEvents(own: seq<StripeEvent>, c: CheckoutCompleted)
    requires Stamped(own, c)
    ensures RowAfter(own).None? <==> own == []
    ensures own != [] ==> Reflects(RowAfter(own).value, c, own)
  {
    if own != [] {
      var n := |own| - 1;
      var before := own[..n];
      assert own[n] in own;
      assert Stamped(before, c);
      RowReflectsItsEvents(before, c);
      assert Checkout(c) in own <==> Checkout(c) in before || own[n] == Checkout(c);
      if own[n].Change? { assert Changes(own)[..|Changes(own)| - 1] == Changes(before); }
    }
  }

  /**
   * Wherever the checkout arrives among the same changes of a subscription,
   * however often, and whatever other purchases' events are handled in
   * between: one row, with the same status, period end, session, payment
   * intent, amount and purchaser. PurchaseRaces covers handlers that overlap.
   */
  lemma CheckoutCommutesWithChanges(one: seq<StripeEvent>, two: seq<StripeEvent>, c: CheckoutCompleted)
    requires SessionsBelongTogether(one) && SessionsBelongTogether(two)
    requires c.subscription.Some? && c.purchasedBy.Some?
    requires var s := c.subscription.value;
      && Stamped(OwnEvents(one, s), c) && Stamped(OwnEvents(two, s), c)
      && Checkout(c) in OwnEvents(one, s) && Checkout(c) in OwnEvents(two, s)
      && Changes(OwnEvents(one, s)) == Changes(OwnEvents(two, s))
    ensures var s := c.subscription.value;
      var x, y := RowOf(Table(one), s), RowOf(Table(two), s);
      && x.Some? && y.Some?
      && x.value.status == y.value.status && x.value.periodEnd == y.value.periodEnd
      && x.value.session == y.value.session == Some(c.session)
      && x.value.paymentIntent == y.value.paymentIntent == c.paymentIntent
      && x.value.amountCents == y.value.amountCents && x.value.purchasedBy == y.value.purchasedBy
      && x.value.org == y.value.org && x.value.product == y.value.product
  {
    var s := c.subscription.value;
    RowFollowsItsOwnEvents(one, s);
    RowFollowsItsOwnEvents(two, s);
    RowReflectsItsEvents(OwnEvents(one, s), c);
    RowReflectsItsEvents(OwnEvents(two, s), c);
  }

  /**
   * The currency is not part of that. Between the same two histories it
   * agrees exactly when both begin with the same kind of event, or the
   * checkout gave no currency, or one in lower case.
   */
  lemma CurrencyAgreesIff(one: seq<StripeEvent>, two: seq<StripeEvent>, c: CheckoutCompleted)
    requires SessionsBelongTogether(one) && SessionsBelongTogether(two)
    requires c.subscription.Some?
    requires var s := c.subscription.value;
      && Stamped(OwnEvents(one, s), c) && Stamped(OwnEvents(two, s), c)
      && Checkout(c) in OwnEvents(one, s) && Checkout(c) in OwnEvents(two, s)
    ensures var s := c.subscription.value;
      var x, y := RowOf(Table(one), s), RowOf(Table(two), s);
      && x.Some? && y.Some?
      && (x.value.currency == y.value.currency <==>
            || PaidFirst(OwnEvents(one, s)) == PaidFirst(OwnEvents(two, s))
            || c.currency.None?
            || (c.currency.value != "" && Lower(c.currency.value) == c.currency.value))
  {
    var s := c.subscription.value;
    RowFollowsItsOwnEvents(one, s);
    RowFollowsItsOwnEvents(two, s);
    RowReflectsItsEvents(OwnEvents(one, s), c);
    RowReflectsItsEvents(OwnEvents(two, s), c);
    assert c.currency.Some? && c.currency.value == "" ==> |Lower(c.currency.value)| == 0;
  }

  /** A one-time purchase is recorded, and stays. */
  lemma {:induction false} OneTimePurchaseIsRecorded(history: seq<StripeEvent>, c: CheckoutCompleted)
    requires Checkout(c) in history && c.subscription.None?
    ensures HasSession(Table(history), c.session)
  {
    var n := |history| - 1;
    var rows := Table(history[..n]);
    if history[n] != Checkout(c) {
      assert Checkout(c) in history[..n];
      OneTimePurchaseIsRecorded(history[..n], c);
      var k :| 0 <= k < |rows| && rows[k].session == Some(c.session);
      assert Table(history)[k].session == Some(c.session);
    } else if !HasSession(rows, c.session) {
      assert Table(history)[|rows|].session == Some(c.session);
    }
  }

  // ---- replays ----

  lemma {:induction false} BySubscriptionAt(rows: seq<Purchase>, subscription: Id, i: nat)
    requires i < |rows| && rows[i].subscription == Some(subscription)
    requires forall k :: 0 <= k < i ==> rows[k].subscription != Some(subscription)
    ensures BySubscription(rows, subscription) == i
  {
  }

  lemma RecordTwiceIsRecordOnce(rows: seq<Purchase>, c: CheckoutCompleted)
    ensures var (after, ok) := Record(rows, c); Record(after, c) == (after, ok)
  {
    var (after, ok) := Record(rows, c);
    if c.subscription.Some? {
      var i := BySubscription(rows, c.subscription.value);
      if i < |rows| { BySubscriptionAt(after, c.subscription.value, i); }
    }
    if after != rows && |after| > |rows| {
      assert after[|rows|].session == Some(c.session);
      if c.subscription.Some? { BySubscriptionAt(after, c.subscription.value, |rows|); }
    }
  }

  lemma ChangeTwiceIsChangeOnce(rows: seq<Purchase>, e: SubscriptionChanged)
    ensures var after := ApplyChange(rows, e); ApplyChange(after, e) == after
  {
    var after := ApplyChange(rows, e);
    var i := BySubscription(rows, e.subscription);
    if i < |after| { BySubscriptionAt(after, e.subscription, i); }
  }

  predicate IsRecorded(rows: seq<Purchase>, c: CheckoutCompleted) {
    || HasSession(rows, c.session)
    || (c.subscription.Some? && RowOf(rows, c.subscription.value).Some?
        && RowOf(rows, c.subscription.value).value.session.Some?)
  }

  // ---- the service ----

  /** The row a checkout inserts. */
  predicate BoughtBy(row: Purchase, c: CheckoutCompleted) {
    && row.org == c.org && row.product == c.product && row.purchasedBy == c.purchasedBy && row.status == Active
    && row.session == Some(c.session) && row.subscription == c.subscription && row.paymentIntent == c.paymentIntent
    && row.amountCents == (if c.amountCents == None then 0 else c.amountCents.value)
    && row.currency == (if c.currency == None then "usd" else Lower(c.currency.value))
    && row.periodEnd == None && row.canceledAt == None
  }

  /** The row a checkout fills in, from what it was. */
  predicate FilledIn(was: Purchase, row: Purchase, c: CheckoutCompleted) {
    && row == was.(session := Some(c.session), paymentIntent := row.paymentIntent, amountCents := row.amountCents,
                   currency := row.currency, purchasedBy := row.purchasedBy)
    && (if c.paymentIntent == None then row.paymentIntent == was.paymentIntent else row.paymentIntent == c.paymentIntent)
    && (if c.amountCents == None then row.amountCents == was.amountCents else row.amountCents == c.amountCents.value)
    && (if c.currency == None || c.currency == Some("") then row.currency == was.currency else Some(row.currency) == c.currency)
    && (if c.purchasedBy == None then row.purchasedBy == was.purchasedBy else row.purchasedBy == c.purchasedBy)
  }

  /** When the subscription was canceled: as Stripe says, or now if it is canceled and Stripe does not say. */
  predicate EndedAt(at: Option<Time>, e: SubscriptionChanged) {
    if Seconds(e.canceledAt) != None then at == Seconds(e.canceledAt)
    else at == if MapStripeSubscriptionStatus(e.status) == Canceled then Some(e.now) else None
  }

  /** The row a stamped event inserts. */
  predicate StampedBy(row: Purchase, e: SubscriptionChanged) {
    && Some(row.org) == e.org && Some(row.product) == e.product && row.purchasedBy == e.user
    && row.status == MapStripeSubscriptionStatus(e.status) && row.subscription == Some(e.subscription)
    && row.session == None && row.paymentIntent == None && row.amountCents == 0 && row.currency == "usd"
    && row.periodEnd == Seconds(e.currentPeriodEnd) && EndedAt(row.canceledAt, e)
  }

  /** The row an event changes, from what it was. */
  predicate MovedOn(was: Purchase, row: Purchase, e: SubscriptionChanged) {
    && was.subscription == Some(e.subscription)
    && row == was.(status := MapStripeSubscriptionStatus(e.status), periodEnd := row.periodEnd, canceledAt := row.canceledAt)
    && row.periodEnd == (if Seconds(e.currentPeriodEnd) == None then was.periodEnd else Seconds(e.currentPeriodEnd))
    && (if row.status == Canceled then EndedAt(row.canceledAt, e) else row.canceledAt == was.canceledAt)
  }

  class ProductPurchases {
    var rows: seq<Purchase>

    constructor ()
      ensures rows == []
    {
      rows := [];
    }

    /** `ok` is false when a unique index refuses the update and the call throws. */
    method RecordProductPurchase(input: CheckoutCompleted) returns (ok: bool)
      modifies this
      ensures (rows, ok) == Record(old(rows), input)
      // A replay of the same checkout is a no-op with the same answer.
      ensures Record(rows, input) == (rows, ok)
      // At most one row changes, and only one that a subscription event pre-created.
      ensures |old(rows)| <= |rows| <= |old(rows)| + 1
      ensures forall k :: 0 <= k < |old(rows)| && rows[k] != old(rows)[k] ==>
        old(rows)[k].subscription.Some? && old(rows)[k].subscription == input.subscription && old(rows)[k].session.None?
      ensures OneRowEach(old(rows)) ==> OneRowEach(rows)
      // A new row is active and has what the checkout says; a row filled in takes what the checkout knows and keeps the rest.
      ensures |rows| > |old(rows)| ==> BoughtBy(rows[|old(rows)|], input)
      ensures forall k :: 0 <= k < |old(rows)| && rows[k] != old(rows)[k] ==> FilledIn(old(rows)[k], rows[k], input)
      // Afterwards the purchase is there: under its session, or as the row its subscription already had.
      ensures ok ==> IsRecorded(rows, input)
    {
      RecordTwiceIsRecordOnce(rows, input);
      if OneRowEach(rows) { HandleKeepsOneRowEach(rows, Checkout(input)); }
      if input.subscription.Some? {
        var i := BySubscription(rows, input.subscription.value);
        if i < |rows| {
          if rows[i].session.None? {
            if HasSession(rows, input.session) { return false; }
            rows := rows[i := Completed(rows[i], input)];
            assert rows[i].session == Some(input.session);
          }
          return true;
        }
      }
      if !HasSession(rows, input.session) {
        rows := rows + [FromCheckout(input)];
        assert rows[|rows| - 1].session == Some(input.session);
      }
      return true;
    }

    method ApplyProductSubscriptionEvent(input: SubscriptionChanged)
      modifies this
      ensures rows == ApplyChange(old(rows), input)
      // A replay of the same event is a no-op.
      ensures ApplyChange(rows, input) == rows
      // Rows of other subscriptions stay as they are.
      ensures |old(rows)| <= |rows| <= |old(rows)| + 1
      ensures forall k :: 0 <= k < |old(rows)| && old(rows)[k].subscription != Some(input.subscription) ==>
        rows[k] == old(rows)[k]
      ensures OneRowEach(old(rows)) ==> OneRowEach(rows)
      // The subscription has a row exactly if it had one or the event is stamped, and the row has the event's status.
      ensures var row := RowOf(rows, input.subscription);
        && (row.Some? <==> RowOf(old(rows), input.subscription).Some? || (input.org.Some? && input.product.Some?))
        && (row.Some? ==> row.value.status == MapStripeSubscriptionStatus(input.status))
        && (row.Some? && Seconds(input.currentPeriodEnd).Some? ==> row.value.periodEnd == Seconds(input.currentPeriodEnd))
      // A new row is what the event is stamped with; the row it had keeps everything else but the end of a canceled one.
      ensures |rows| > |old(rows)| ==> StampedBy(rows[|old(rows)|], input)
      ensures forall k :: 0 <= k < |old(rows)| && rows[k] != old(rows)[k] ==> MovedOn(old(rows)[k], rows[k], input)
    {
      ChangeTwiceIsChangeOnce(rows, input);
      if OneRowEach(rows) { HandleKeepsOneRowEach(rows, Change(input)); }
      var i := BySubscription(rows, input.subscription);
      if i < |rows| {
        rows := rows[i := Changed(rows[i], input)];
        BySubscriptionAt(rows, input.subscription, i);
        return;
      }
      if input.org.None? || input.product.None? { return; }
      rows := rows + [FromSubscription(input)];
      BySubscriptionAt(rows, input.subscription, |rows| - 1);
    }
  }
}
