/**
 * The mirror of Chipp sales (src/services/chipp-entitlements.ts). Deliveries
 * come at least once and in any order; the row follows the highest sequence
 * number.
 */
module Entitlements {
  import opened Tables

  type Id = nat

  datatype Mode = Test | Live
  datatype PurchaseStatus = Active | PastDue | Canceled | Refunded

  /** A parsed payload; `org` is what the customer reference decodes to. */
  datatype Payload = Payload(
    purchase: Id,
    productKey: Id,
    org: Option<Id>,
    mode: Mode,
    status: string,
    entitled: bool,
    periodEnd: Option<Time>,
    amountCents: Option<nat>,
    seqNo: nat)

  datatype Purchase = Purchase(
    org: Id,
    product: Id,
    status: PurchaseStatus,
    amountCents: nat,
    periodEnd: Option<Time>,
    canceledAt: Option<Time>,
    chippSeq: Option<nat>,
    mode: Mode)

  /** What the application knows when a payload arrives. */
  datatype Env = Env(mode: Mode, orgs: set<Id>, products: map<Id, Id>, now: Time)

  datatype Arrival = Arrival(payload: Payload, env: Env)

  datatype ApplyOutcome = Applied | Stale | OtherMode | UnknownOrg | UnknownProduct

  function LocalPurchaseStatus(p: Payload): (r: PurchaseStatus)
    ensures r.Active? || r.PastDue? <==> p.entitled && p.status != "refunded"
    ensures r.Refunded? <==> p.status == "refunded"
    ensures r.PastDue? <==> p.entitled && p.status == "past_due"
  {
    if p.status == "refunded" then Refunded
    else if !p.entitled then Canceled
    else if p.status == "past_due" then PastDue
    else Active
  }

  /** Why a payload is not applied at all, if so. */
  function Rejection(p: Payload, env: Env): Option<ApplyOutcome> {
    if p.mode != env.mode then Some(OtherMode)
    else if p.org.None? || p.org.value !in env.orgs then Some(UnknownOrg)
    else if p.productKey !in env.products then Some(UnknownProduct)
    else None
  }

  function Inserted(p: Payload, env: Env): Purchase
    requires Rejection(p, env).None?
  {
    var status := LocalPurchaseStatus(p);
    Purchase(p.org.value, env.products[p.productKey], status, if p.amountCents.Some? then p.amountCents.value else 0,
             p.periodEnd, if status == Canceled then Some(env.now) else None, Some(p.seqNo), p.mode)
  }

  function Updated(row: Purchase, p: Payload, env: Env): Purchase {
    var status := LocalPurchaseStatus(p);
    row.(status := status,
         periodEnd := p.periodEnd,
         canceledAt := if status != Canceled then None else if row.canceledAt.Some? then row.canceledAt else Some(env.now),
         chippSeq := Some(p.seqNo),
         mode := p.mode)
  }

  /** The upsert, and the guards in front of it. */
  function Apply(purchases: map<Id, Purchase>, p: Payload, env: Env): (map<Id, Purchase>, ApplyOutcome) {
    var why := Rejection(p, env);
    if why.Some? then (purchases, why.value)
    else if p.purchase !in purchases then (purchases[p.purchase := Inserted(p, env)], Applied)
    else
      var row := purchases[p.purchase];
      if row.chippSeq.None? || row.chippSeq.value < p.seqNo
      then (purchases[p.purchase := Updated(row, p, env)], Applied)
      else (purchases, Stale)
  }

  /** The table after a sequence of arrivals, from an empty one. */
  function Mirror(arrivals: seq<Arrival>): map<Id, Purchase> {
    if arrivals == [] then map[]
    else
      var last := arrivals[|arrivals| - 1];
      Apply(Mirror(arrivals[..|arrivals| - 1]), last.payload, last.env).0
  }

  /** The arrival is about `id` and passes the guards. */
  predicate Counts(a: Arrival, id: Id) { a.payload.purchase == id && Rejection(a.payload, a.env).None? }

  /** Some arrival that counts carried `p`. */
  ghost predicate Heard(arrivals: seq<Arrival>, id: Id, p: Payload) {
    exists a <- arrivals :: Counts(a, id) && a.payload == p
  }

  /** Sequence numbers name versions of the sale: an equal number is the same payload again. */
  ghost predicate SeqNamesVersion(arrivals: seq<Arrival>, id: Id) {
    forall p, q :: Heard(arrivals, id, p) && Heard(arrivals, id, q) && p.seqNo == q.seqNo ==> p == q
  }

  /** The row says what `p` says. */
  predicate Shows(row: Purchase, p: Payload) {
    && row.status == LocalPurchaseStatus(p)
    && row.periodEnd == p.periodEnd
    && row.chippSeq == Some(p.seqNo)
    && row.mode == p.mode
  }

  /** No arrival that counts has a higher number than `p`. */
  ghost predicate Highest(p: Payload, arrivals: seq<Arrival>, id: Id) {
    && Heard(arrivals, id, p)
    && (forall a <- arrivals :: Counts(a, id) ==> a.payload.seqNo <= p.seqNo)
  }

  ghost predicate AnyCounts(arrivals: seq<Arrival>, id: Id) { exists a <- arrivals :: Counts(a, id) }

  /**
   * The mirror shows the payload with the highest number among those that
   * count, whatever their order and however often each arrived; there is a
   * row exactly when one counted.
   */
  lemma {:induction false} MirrorShowsTheHighest(arrivals: seq<Arrival>, id: Id) returns (top: Option<Payload>)
    ensures id in Mirror(arrivals) <==> AnyCounts(arrivals, id)
    ensures id in Mirror(arrivals) <==> top.Some?
    ensures top.Some? ==> Highest(top.value, arrivals, id) && Shows(Mirror(arrivals)[id], top.value)
    ensures id in Mirror(arrivals) ==>
      (Mirror(arrivals)[id].canceledAt.Some? <==> Mirror(arrivals)[id].status == Canceled)
    decreases |arrivals|
  {
    top := None;
    if arrivals != [] {
      var n := |arrivals| - 1;
      var last := arrivals[n];
      var before := arrivals[..n];
      top := MirrorShowsTheHighest(before, id);
      assert forall a <- arrivals :: a in before || a == last;
      assert last in arrivals;
      if Counts(last, id) && (top.None? || top.value.seqNo < last.payload.seqNo) {
        top := Some(last.payload);
      } else if top.Some? {
        var a :| a in before && Counts(a, id) && a.payload == top.value;
        assert a in arrivals;
      }
    }
  }

  lemma HighestIsUnique(arrivals: seq<Arrival>, others: seq<Arrival>, id: Id, p: Payload, q: Payload)
    requires SeqNamesVersion(arrivals, id)
    requires Highest(p, arrivals, id) && Highest(q, others, id)
    requires Heard(others, id, p) && Heard(arrivals, id, q)
    ensures p == q
  {
  }

  /** Two histories made of the same payloads for a sale end alike: order and repetition do not matter. */
  lemma OrderAndRepetitionDoNotMatter(one: seq<Arrival>, two: seq<Arrival>, id: Id)
    requires SeqNamesVersion(one, id)
    requires forall p :: Heard(one, id, p) <==> Heard(two, id, p)
    ensures id in Mirror(one) <==> id in Mirror(two)
    ensures id in Mirror(one) ==>
      var x, y := Mirror(one)[id], Mirror(two)[id];
      && x.status == y.status && x.periodEnd == y.periodEnd && x.chippSeq == y.chippSeq
      && (x.canceledAt.Some? <==> y.canceledAt.Some?)
  {
    var p := MirrorShowsTheHighest(one, id);
    var q := MirrorShowsTheHighest(two, id);
    if p.Some? { assert Heard(two, id, p.value); }
    if q.Some? { assert Heard(one, id, q.value); }
    if p.Some? && q.Some? { HighestIsUnique(one, two, id, p.value, q.value); }
  }

  /** A payload is applied exactly when it counts and is newer than all before it; a late or repeated one changes nothing. */
  lemma AppliedIffNewest(before: seq<Arrival>, a: Arrival)
    ensures var (after, outcome) := Apply(Mirror(before), a.payload, a.env);
      && (outcome == Applied <==>
            && Rejection(a.payload, a.env).None?
            && forall b <- before :: Counts(b, a.payload.purchase) ==> b.payload.seqNo < a.payload.seqNo)
      && (outcome != Applied ==> after == Mirror(before))
      && (forall id :: id != a.payload.purchase ==> (id in after <==> id in Mirror(before)))
      && (forall id :: id != a.payload.purchase && id in after ==> after[id] == Mirror(before)[id])
  {
    var top := MirrorShowsTheHighest(before, a.payload.purchase);
    if top.Some? {
      var b :| b in before && Counts(b, a.payload.purchase) && b.payload == top.value;
    }
  }

  /** The first arrival that counts. */
  ghost predicate FirstToCount(arrivals: seq<Arrival>, id: Id, k: nat) {
    && k < |arrivals| && Counts(arrivals[k], id)
    && forall i :: 0 <= i < k ==> !Counts(arrivals[i], id)
  }

  /** Who bought what for how much is what the first arrival that counts said; later ones never change it. */
  lemma {:induction false} FirstArrivalFixesTheSale(arrivals: seq<Arrival>, id: Id, k: nat)
    requires FirstToCount(arrivals, id, k)
    ensures id in Mirror(arrivals)
    ensures var row, a := Mirror(arrivals)[id], arrivals[k];
      && a.payload.org == Some(row.org) && a.env.products[a.payload.productKey] == row.product
      && row.amountCents == (if a.payload.amountCents.Some? then a.payload.amountCents.value else 0)
    decreases |arrivals|
  {
    var n := |arrivals| - 1;
    if k < n {
      FirstArrivalFixesTheSale(arrivals[..n], id, k);
    } else {
      NoneCountsNoRow(arrivals[..n], id);
    }
  }

  lemma {:induction false} NoneCountsNoRow(arrivals: seq<Arrival>, id: Id)
    requires forall i :: 0 <= i < |arrivals| ==> !Counts(arrivals[i], id)
    ensures id !in Mirror(arrivals)
  {
    if arrivals != [] { NoneCountsNoRow(arrivals[..|arrivals| - 1], id); }
  }

  /** How many of `arrivals`, coming after `history`, change the mirror. */
  function AppliedAmong(history: seq<Arrival>, arrivals: seq<Arrival>): nat {
    if arrivals == [] then 0
    else
      var n := |arrivals| - 1;
      var outcome := Apply(Mirror(history + arrivals[..n]), arrivals[n].payload, arrivals[n].env).1;
      AppliedAmong(history, arrivals[..n]) + (if outcome == Applied then 1 else 0)
  }

  /** Pulling what has all been applied before applies nothing: a push that was already seen is not counted twice. */
  lemma {:induction false} PullingAgainAppliesNothing(history: seq<Arrival>, arrivals: seq<Arrival>)
    requires forall a <- arrivals :: a in history
    ensures AppliedAmong(history, arrivals) == 0
  {
    if arrivals != [] {
      var n := |arrivals| - 1;
      PullingAgainAppliesNothing(history, arrivals[..n]);
      var a := arrivals[n];
      assert a in history;
      assert a in history + arrivals[..n];
      AppliedIffNewest(history + arrivals[..n], a);
    }
  }

  lemma OneMoreArrival(history: seq<Arrival>, arrivals: seq<Arrival>, i: nat)
    requires i < |arrivals|
    ensures var (after, outcome) := Apply(Mirror(history + arrivals[..i]), arrivals[i].payload, arrivals[i].env);
      && Mirror(history + arrivals[..i + 1]) == after
      && AppliedAmong(history, arrivals[..i + 1]) == AppliedAmong(history, arrivals[..i]) + (if outcome == Applied then 1 else 0)
  {
    var was, next := history + arrivals[..i], history + arrivals[..i + 1];
    assert next[..|next| - 1] == was && next[|next| - 1] == arrivals[i];
    assert arrivals[..i + 1][..i] == arrivals[..i];
  }

  /** The service with its table. */
  class ChippMirror {
    var purchases: map<Id, Purchase>

    constructor ()
      ensures purchases == Mirror([])
    {
      purchases := map[];
    }

    method ApplyChippEntitlement(p: Payload, env: Env) returns (outcome: ApplyOutcome)
      modifies this
      ensures (purchases, outcome) == Apply(old(purchases), p, env)
      // Applied exactly if nothing speaks against it and it is newer than what is there.
      ensures outcome == Applied <==>
        && Rejection(p, env).None?
        && (p.purchase in old(purchases) && old(purchases)[p.purchase].chippSeq.Some? ==>
              old(purchases)[p.purchase].chippSeq.value < p.seqNo)
      // Else the first thing that speaks against it is reported.
      ensures outcome == OtherMode <==> p.mode != env.mode
      ensures outcome == UnknownOrg <==> p.mode == env.mode && (p.org == None || p.org.value !in env.orgs)
      ensures outcome == UnknownProduct <==>
        p.mode == env.mode && p.org != None && p.org.value in env.orgs && p.productKey !in env.products
      // A new row is the organization's purchase of the product; a row canceled keeps the time it first was.
      ensures outcome == Applied && p.purchase !in old(purchases) ==>
        var row := purchases[p.purchase];
        && row.org == p.org.value && row.product == env.products[p.productKey]
        && row.amountCents == (if p.amountCents == None then 0 else p.amountCents.value)
        && row.canceledAt == if row.status == Canceled then Some(env.now) else None
      ensures outcome == Applied && p.purchase in old(purchases) ==>
        var was, row := old(purchases)[p.purchase], purchases[p.purchase];
        row.canceledAt ==
          if row.status != Canceled then None else if was.canceledAt == None then Some(env.now) else was.canceledAt
      // Then the row shows the payload and keeps who bought what for how much; otherwise nothing changes.
      ensures outcome == Applied ==> p.purchase in purchases && Shows(purchases[p.purchase], p)
      ensures p.purchase in old(purchases) ==>
        && purchases[p.purchase].org == old(purchases)[p.purchase].org
        && purchases[p.purchase].product == old(purchases)[p.purchase].product
        && purchases[p.purchase].amountCents == old(purchases)[p.purchase].amountCents
      ensures outcome != Applied ==> purchases == old(purchases)
      ensures forall id :: id != p.purchase ==> (id in purchases <==> id in old(purchases))
      ensures forall id <- purchases :: id != p.purchase ==> purchases[id] == old(purchases)[id]
      // The same delivery again is stale.
      ensures Apply(purchases, p, env) == (purchases, if outcome == Applied then Stale else outcome)
    {
      if p.mode != env.mode { return OtherMode; }
      if p.org.None? { return UnknownOrg; }
      if p.org.value !in env.orgs { return UnknownOrg; }
      if p.productKey !in env.products { return UnknownProduct; }
      if p.purchase !in purchases {
        purchases := purchases[p.purchase := Inserted(p, env)];
        return Applied;
      }
      var row := purchases[p.purchase];
      if row.chippSeq.Some? && row.chippSeq.value >= p.seqNo { return Stale; }
      purchases := purchases[p.purchase := Updated(row, p, env)];
      return Applied;
    }

    /** Arrivals in any order keep the table the mirror of what arrived. */
    method SyncChippEntitlements(arrivals: seq<Arrival>, ghost history: seq<Arrival>) returns (applied: nat)
      requires purchases == Mirror(history)
      modifies this
      ensures purchases == Mirror(history + arrivals)
      ensures applied == AppliedAmong(history, arrivals)
    {
      applied := 0;
      assert history + arrivals[..0] == history;
      for i := 0 to |arrivals|
        invariant purchases == Mirror(history + arrivals[..i])
        invariant applied == AppliedAmong(history, arrivals[..i])
      {
        OneMoreArrival(history, arrivals, i);
        var outcome := ApplyChippEntitlement(arrivals[i].payload, arrivals[i].env);
        if outcome == Applied { applied := applied + 1; }
      }
      assert arrivals[..|arrivals|] == arrivals;
    }
  }
}
