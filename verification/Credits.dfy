/**
 * The prepaid credit ledger (src/services/credit.service.ts), the gate that
 * charges a tool call and the wrapper that refunds one that throws
 * (src/mcp/gates.ts:142-190, src/mcp/server.ts:137-191).
 */
module Credits {
  import opened Tables

  type Org = nat

  datatype Entry = Entry(org: Org, delta: int, externalRef: Option<string>)

  datatype Ledger = Ledger(balances: map<Org, int>, entries: seq<Entry>)

  datatype GrantResult = Granted(balance: int) | Replayed(balance: int) | BadGrant
  datatype DebitResult = Debited(balance: int) | Insufficient(balance: int) | BadDebit

  const Empty := Ledger(map[], [])

  /** No row reads as zero. */
  function Balance(l: Ledger, org: Org): int { if org in l.balances then l.balances[org] else 0 }

  predicate HasRef(entries: seq<Entry>, externalRef: string) {
    exists k :: 0 <= k < |entries| && entries[k].externalRef == Some(externalRef)
  }

  function Grant(l: Ledger, org: Org, amount: int, externalRef: Option<string>): (Ledger, GrantResult) {
    if amount <= 0 then (l, BadGrant)
    else if externalRef.Some? && HasRef(l.entries, externalRef.value) then (l, Replayed(Balance(l, org)))
    else
      var balance := Balance(l, org) + amount;
      (Ledger(l.balances[org := balance], l.entries + [Entry(org, amount, externalRef)]), Granted(balance))
  }

  function Debit(l: Ledger, org: Org, amount: int): (Ledger, DebitResult) {
    if amount <= 0 then (l, BadDebit)
    else if org !in l.balances || l.balances[org] < amount then (l, Insufficient(Balance(l, org)))
    else
      var balance := l.balances[org] - amount;
      (Ledger(l.balances[org := balance], l.entries + [Entry(org, -amount, None)]), Debited(balance))
  }

  // ---- the ledger adds up ----

  function SumOf(entries: seq<Entry>, org: Org): int {
    if entries == [] then 0
    else
      var last := entries[|entries| - 1];
      SumOf(entries[..|entries| - 1], org) + (if last.org == org then last.delta else 0)
  }

  /** Every balance is the sum of its entries and never negative; no reference was used twice. */
  ghost predicate Sound(l: Ledger) {
    && (forall org :: Balance(l, org) == SumOf(l.entries, org))
    && (forall org :: Balance(l, org) >= 0)
    && (forall i, j :: 0 <= i < j < |l.entries| && l.entries[i].externalRef.Some? ==>
          l.entries[i].externalRef != l.entries[j].externalRef)
  }

  lemma SumOfOneMore(entries: seq<Entry>, e: Entry, org: Org)
    ensures SumOf(entries + [e], org) == SumOf(entries, org) + (if e.org == org then e.delta else 0)
  {
    assert (entries + [e])[..|entries|] == entries;
  }

  lemma GrantIsSound(l: Ledger, org: Org, amount: int, externalRef: Option<string>)
    requires Sound(l)
    ensures Sound(Grant(l, org, amount, externalRef).0)
  {
    var after := Grant(l, org, amount, externalRef).0;
    if after != l {
      forall other ensures Balance(after, other) == SumOf(after.entries, other) {
        SumOfOneMore(l.entries, Entry(org, amount, externalRef), other);
      }
    }
  }

  lemma DebitIsSound(l: Ledger, org: Org, amount: int)
    requires Sound(l)
    ensures Sound(Debit(l, org, amount).0)
  {
    var after := Debit(l, org, amount).0;
    if after != l {
      forall other ensures Balance(after, other) == SumOf(after.entries, other) {
        SumOfOneMore(l.entries, Entry(org, -amount, None), other);
      }
    }
  }

  // ---- grants and tool calls, interleaved ----

  datatype Phase = InFlight | Returned | Refunded | RefundLost

  /** A call that passed the gate, and what the gate took. */
  datatype Call = Call(org: Org, cost: nat, phase: Phase)

  datatype World = World(ledger: Ledger, calls: seq<Call>)

  datatype Step =
    | GrantCredits(org: Org, amount: int, externalRef: Option<string>)
    | CallsTool(caller: Option<Org>, cost: nat)
    | Returns(call: nat)
    | Throws(call: nat, refundLands: bool)

  predicate Can(w: World, s: Step) {
    match s
    case Returns(call) => call < |w.calls| && w.calls[call].phase == InFlight
    case Throws(call, _) => call < |w.calls| && w.calls[call].phase == InFlight
    case _ => true
  }

  /** The gate: free tools pass, others need an organization and a debit. */
  function AfterCall(w: World, org: Option<Org>, cost: nat): World {
    if cost == 0 || org.None? then w
    else
      var (ledger, result) := Debit(w.ledger, org.value, cost);
      if result.Debited? then World(ledger, w.calls + [Call(org.value, cost, InFlight)]) else w
  }

  function AfterThrow(w: World, call: nat, refundLands: bool): World
    requires call < |w.calls|
  {
    var c := w.calls[call];
    if refundLands then World(Grant(w.ledger, c.org, c.cost, None).0, w.calls[call := c.(phase := Refunded)])
    else w.(calls := w.calls[call := c.(phase := RefundLost)])
  }

  function Do(w: World, s: Step): World
    requires Can(w, s)
  {
    match s
    case GrantCredits(org, amount, externalRef) => w.(ledger := Grant(w.ledger, org, amount, externalRef).0)
    case CallsTool(org, cost) => AfterCall(w, org, cost)
    case Returns(call) => w.(calls := w.calls[call := w.calls[call].(phase := Returned)])
    case Throws(call, refundLands) => AfterThrow(w, call, refundLands)
  }

  ghost predicate Legal(steps: seq<Step>)
    decreases |steps|, 0
  {
    steps == [] || (var n := |steps| - 1; Legal(steps[..n]) && Can(Run(steps[..n]), steps[n]))
  }

  ghost function Run(steps: seq<Step>): World
    requires Legal(steps)
    decreases |steps|, 1
  {
    if steps == [] then World(Empty, []) else var n := |steps| - 1; Do(Run(steps[..n]), steps[n])
  }

  /**
   * What a call does at the gate and at its end. One that costs credits passes
   * exactly if it has an organization and that has them, and then they are
   * taken; a blocked call and a free one cost nothing. A call ends once, and a
   * throw whose refund lands gives back what it took.
   */
  lemma CallsArePaidFor(w: World, s: Step)
    requires Can(w, s) && Sound(w.ledger)
    ensures s.CallsTool? ==>
      var after := Do(w, s);
      if s.cost > 0 && s.caller != None && Balance(w.ledger, s.caller.value) >= s.cost
      then
        && after.calls == w.calls + [Call(s.caller.value, s.cost, InFlight)]
        && Balance(after.ledger, s.caller.value) == Balance(w.ledger, s.caller.value) - s.cost
      else after == w
    ensures s.Returns? || s.Throws? ==>
      var after := Do(w, s); var c := w.calls[s.call];
      && |after.calls| == |w.calls| && (forall k :: 0 <= k < |w.calls| && k != s.call ==> after.calls[k] == w.calls[k])
      && after.calls[s.call] == c.(phase := if s.Returns? then Returned else if s.refundLands then Refunded else RefundLost)
      && (s.Returns? ==> after.ledger == w.ledger)
      && (s.Throws? && !s.refundLands ==> after.ledger == w.ledger)
      && (s.Throws? && s.refundLands && c.cost > 0 ==> Balance(after.ledger, c.org) == Balance(w.ledger, c.org) + c.cost)
  {
  }

  // ---- what the grants and the calls should come to ----

  /** A valid grant step that used this reference. */
  predicate UsedRef(steps: seq<Step>, externalRef: string) {
    exists k :: 0 <= k < |steps| && steps[k].GrantCredits? && steps[k].amount > 0 && steps[k].externalRef == Some(externalRef)
  }

  /** What was granted, reading only the requests: a reference counts the first time anyone uses it. */
  function GrantsDue(steps: seq<Step>, org: Org): nat {
    if steps == [] then 0
    else
      var n := |steps| - 1;
      var s := steps[n];
      var counts := s.GrantCredits? && s.org == org && s.amount > 0
                    && !(s.externalRef.Some? && UsedRef(steps[..n], s.externalRef.value));
      GrantsDue(steps[..n], org) + (if counts then s.amount else 0)
  }

  /** What the calls of an organization cost it; a refunded call costs nothing. */
  function Charges(calls: seq<Call>, org: Org): nat {
    if calls == [] then 0
    else
      var n := |calls| - 1;
      Charges(calls[..n], org) + (if calls[n].org == org && calls[n].phase != Refunded then calls[n].cost else 0)
  }

  lemma {:induction false} ChargesAfterSettling(calls: seq<Call>, k: nat, phase: Phase, org: Org)
    requires k < |calls| && calls[k].phase == InFlight
    ensures Charges(calls[k := calls[k].(phase := phase)], org) ==
      Charges(calls, org) - (if calls[k].org == org && phase == Refunded then calls[k].cost else 0)
    decreases |calls|
  {
    var n := |calls| - 1;
    var after := calls[k := calls[k].(phase := phase)];
    if k == n {
      assert after[..n] == calls[..n];
    } else {
      assert after[..n] == calls[..n][k := calls[k].(phase := phase)];
      ChargesAfterSettling(calls[..n], k, phase, org);
    }
  }

  lemma ChargesOfOneMore(calls: seq<Call>, c: Call, org: Org)
    ensures Charges(calls + [c], org) == Charges(calls, org) + (if c.org == org && c.phase != Refunded then c.cost else 0)
  {
    assert (calls + [c])[..|calls|] == calls;
  }

  ghost predicate CallsArePaid(w: World) { forall c <- w.calls :: c.cost > 0 }

  lemma StepKeepsSound(w: World, s: Step)
    requires Sound(w.ledger) && CallsArePaid(w) && Can(w, s)
    ensures Sound(Do(w, s).ledger) && CallsArePaid(Do(w, s))
  {
    match s
    case GrantCredits(org, amount, externalRef) => GrantIsSound(w.ledger, org, amount, externalRef);
    case CallsTool(org, cost) => if org.Some? { DebitIsSound(w.ledger, org.value, cost); }
    case Returns(call) =>
    case Throws(call, refundLands) => GrantIsSound(w.ledger, w.calls[call].org, w.calls[call].cost, None);
  }

  /** Every balance equals its ledger sum and is never negative, and no reference is ever granted twice. */
  lemma {:induction false} EveryRunIsSound(steps: seq<Step>)
    requires Legal(steps)
    ensures Sound(Run(steps).ledger) && CallsArePaid(Run(steps))
    decreases |steps|
  {
    if steps != [] {
      var n := |steps| - 1;
      EveryRunIsSound(steps[..n]);
      StepKeepsSound(Run(steps[..n]), steps[n]);
    }
  }

  lemma StepUsesRef(w: World, s: Step, externalRef: string)
    requires Can(w, s)
    ensures HasRef(Do(w, s).ledger.entries, externalRef) <==>
      HasRef(w.ledger.entries, externalRef) || (s.GrantCredits? && s.amount > 0 && s.externalRef == Some(externalRef))
  {
    var before, after := w.ledger.entries, Do(w, s).ledger.entries;
    assert before <= after && |after| <= |before| + 1;
    assert forall k :: 0 <= k < |before| ==> after[k] == before[k];
    if s.GrantCredits? && s.amount > 0 && s.externalRef == Some(externalRef) && |after| > |before| {
      assert after[|before|].externalRef == Some(externalRef);
    }
  }

  /** A reference is in the ledger exactly when some valid grant used it. */
  lemma {:induction false} RefsInTheLedger(steps: seq<Step>, externalRef: string)
    requires Legal(steps)
    ensures HasRef(Run(steps).ledger.entries, externalRef) <==> UsedRef(steps, externalRef)
    decreases |steps|
  {
    if steps != [] {
      var n := |steps| - 1;
      RefsInTheLedger(steps[..n], externalRef);
      StepUsesRef(Run(steps[..n]), steps[n], externalRef);
      assert forall k :: 0 <= k < n ==> steps[..n][k] == steps[k];
    }
  }

  /** The balance and what is missing from it because of calls. */
  function Due(w: World, org: Org): int { Balance(w.ledger, org) + Charges(w.calls, org) }

  lemma GrantAdds(w: World, payee: Org, amount: int, externalRef: Option<string>, org: Org)
    ensures Due(w.(ledger := Grant(w.ledger, payee, amount, externalRef).0), org) == Due(w, org)
      + (if payee == org && amount > 0 && !(externalRef.Some? && HasRef(w.ledger.entries, externalRef.value)) then amount else 0)
  {
  }

  lemma CallMoves(w: World, caller: Option<Org>, cost: nat, org: Org)
    ensures Due(AfterCall(w, caller, cost), org) == Due(w, org)
  {
    if caller.Some? { ChargesOfOneMore(w.calls, Call(caller.value, cost, InFlight), org); }
  }

  lemma ReturnMoves(w: World, call: nat, org: Org)
    requires Can(w, Returns(call))
    ensures Due(Do(w, Returns(call)), org) == Due(w, org)
  {
    ChargesAfterSettling(w.calls, call, Returned, org);
  }

  lemma ThrowMoves(w: World, call: nat, refundLands: bool, org: Org)
    requires CallsArePaid(w) && Can(w, Throws(call, refundLands))
    ensures Due(AfterThrow(w, call, refundLands), org) == Due(w, org)
  {
    assert w.calls[call] in w.calls;
    ChargesAfterSettling(w.calls, call, if refundLands then Refunded else RefundLost, org);
  }

  /**
   * Over any interleaving of grants, replayed references and concurrent
   * calls: the balance is what the grants come to less what the calls that
   * were not refunded cost.
   */
  lemma {:induction false} BalanceIsGrantsMinusCharges(steps: seq<Step>, org: Org)
    requires Legal(steps)
    ensures Balance(Run(steps).ledger, org) == GrantsDue(steps, org) - Charges(Run(steps).calls, org)
    decreases |steps|
  {
    if steps != [] {
      var n := |steps| - 1;
      var w := Run(steps[..n]);
      BalanceIsGrantsMinusCharges(steps[..n], org);
      EveryRunIsSound(steps[..n]);
      match steps[n]
      case GrantCredits(o, amount, externalRef) =>
        if externalRef.Some? { RefsInTheLedger(steps[..n], externalRef.value); }
        GrantAdds(w, o, amount, externalRef, org);
      case CallsTool(caller, cost) => CallMoves(w, caller, cost, org);
      case Returns(call) => ReturnMoves(w, call, org);
      case Throws(call, refundLands) => ThrowMoves(w, call, refundLands, org);
    }
  }

  /** What the calls that returned or still run cost. */
  function Earned(calls: seq<Call>, org: Org): nat {
    if calls == [] then 0
    else
      var n := |calls| - 1;
      var counts := calls[n].org == org && (calls[n].phase == InFlight || calls[n].phase == Returned);
      Earned(calls[..n], org) + (if counts then calls[n].cost else 0)
  }

  ghost predicate NoRefundLost(calls: seq<Call>, org: Org) {
    forall c <- calls :: c.org == org ==> c.phase != RefundLost
  }

  lemma {:induction false} ChargedForNothingIffLost(calls: seq<Call>, org: Org)
    requires forall c <- calls :: c.cost > 0
    ensures Earned(calls, org) <= Charges(calls, org)
    ensures Earned(calls, org) == Charges(calls, org) <==> NoRefundLost(calls, org)
  {
    if calls != [] {
      var n := |calls| - 1;
      ChargedForNothingIffLost(calls[..n], org);
      assert calls[n] in calls;
      assert forall c <- calls :: c in calls[..n] || c == calls[n];
    }
  }

  /**
   * Over every run: an organization has what the grants come to less the cost
   * of the calls that returned or are in flight, so a thrown call costs
   * nothing, if and only if none of its refunds was lost.
   */
  lemma BalanceIsExactIffNoRefundLost(steps: seq<Step>, org: Org)
    requires Legal(steps)
    ensures Balance(Run(steps).ledger, org) == GrantsDue(steps, org) - Earned(Run(steps).calls, org)
       <==> NoRefundLost(Run(steps).calls, org)
  {
    BalanceIsGrantsMinusCharges(steps, org);
    EveryRunIsSound(steps);
    ChargedForNothingIffLost(Run(steps).calls, org);
  }

  function CountEarned(calls: seq<Call>, org: Org): nat {
    if calls == [] then 0
    else
      var n := |calls| - 1;
      var counts := calls[n].org == org && (calls[n].phase == InFlight || calls[n].phase == Returned);
      CountEarned(calls[..n], org) + (if counts then 1 else 0)
  }

  lemma {:induction false} UniformCost(calls: seq<Call>, org: Org, cost: nat)
    requires forall c <- calls :: c.org == org ==> c.cost == cost
    ensures Earned(calls, org) == cost * CountEarned(calls, org)
  {
    if calls != [] {
      var n := |calls| - 1;
      UniformCost(calls[..n], org, cost);
      assert calls[n] in calls;
      if CountEarned(calls, org) > CountEarned(calls[..n], org) {
        assert cost * (CountEarned(calls[..n], org) + 1) == cost * CountEarned(calls[..n], org) + cost;
      }
    }
  }

  /** At one price: grants less the price times the calls that returned or still run, under the same condition. */
  lemma BalanceAtOnePrice(steps: seq<Step>, org: Org, cost: nat)
    requires Legal(steps)
    requires forall c <- Run(steps).calls :: c.org == org ==> c.cost == cost
    ensures Balance(Run(steps).ledger, org) == GrantsDue(steps, org) - cost * CountEarned(Run(steps).calls, org)
       <==> NoRefundLost(Run(steps).calls, org)
  {
    BalanceIsExactIffNoRefundLost(steps, org);
    UniformCost(Run(steps).calls, org, cost);
  }

  // ---- the service ----

  /** How a charged call ends: registration refuses a tool that also has a machine price, so it runs. */
  datatype Outcome = Ran | Threw(refundLands: bool)

  class CreditService {
    var balances: map<Org, int>
    var entries: seq<Entry>

    ghost function Contents(): Ledger
      reads this
    {
      Ledger(balances, entries)
    }

    constructor ()
      ensures Contents() == Empty
    {
      balances, entries := map[], [];
    }

    method GetBalance(org: Org) returns (balance: int)
      ensures balance == Balance(Contents(), org)
    {
      if org in balances { return balances[org]; }
      return 0;
    }

    method GrantTo(org: Org, amount: int, externalRef: Option<string>) returns (r: GrantResult)
      modifies this
      ensures (Contents(), r) == Grant(old(Contents()), org, amount, externalRef)
      // Granted exactly for a positive amount under a reference nobody has used.
      ensures r.Granted? <==> amount > 0 && (externalRef.Some? ==> !HasRef(old(entries), externalRef.value))
      // Then the balance rises by the amount, and the reference is used up for every organization.
      ensures Balance(Contents(), org) == Balance(old(Contents()), org) + (if r.Granted? then amount else 0)
      ensures externalRef.Some? && amount > 0 ==>
        forall o, a :: !Grant(Contents(), o, a, externalRef).1.Granted?
      ensures !r.Granted? ==> Contents() == old(Contents())
      ensures forall other :: other != org ==> Balance(Contents(), other) == Balance(old(Contents()), other)
      ensures !r.BadGrant? ==> r.balance == Balance(Contents(), org)
      ensures Sound(old(Contents())) ==> Sound(Contents())
    {
      if Sound(Contents()) { GrantIsSound(Contents(), org, amount, externalRef); }
      if amount <= 0 { return BadGrant; }
      if externalRef.Some? && HasRef(entries, externalRef.value) {
        var existing := GetBalance(org);
        return Replayed(existing);
      }
      entries := entries + [Entry(org, amount, externalRef)];
      assert entries[|entries| - 1].externalRef == externalRef;
      var balance := if org in balances then balances[org] + amount else amount;
      balances := balances[org := balance];
      return Granted(balance);
    }

    method DebitFrom(org: Org, amount: int) returns (r: DebitResult)
      modifies this
      ensures (Contents(), r) == Debit(old(Contents()), org, amount)
      // Paid in full exactly if the balance covers a positive amount; otherwise nothing is taken.
      ensures r.Debited? <==> 0 < amount <= Balance(old(Contents()), org)
      ensures Balance(Contents(), org) == Balance(old(Contents()), org) - (if r.Debited? then amount else 0)
      ensures !r.Debited? ==> Contents() == old(Contents())
      ensures forall other :: other != org ==> Balance(Contents(), other) == Balance(old(Contents()), other)
      ensures !r.BadDebit? ==> r.balance == Balance(Contents(), org)
      ensures Sound(old(Contents())) ==> Sound(Contents())
      // A refund of it restores the balance.
      ensures r.Debited? ==> Balance(Grant(Contents(), org, amount, None).0, org) == Balance(old(Contents()), org)
    {
      if Sound(Contents()) { DebitIsSound(Contents(), org, amount); }
      if amount <= 0 { return BadDebit; }
      if org !in balances || balances[org] < amount {
        var existing := GetBalance(org);
        return Insufficient(existing);
      }
      balances := balances[org := balances[org] - amount];
      entries := entries + [Entry(org, -amount, None)];
      return Debited(balances[org]);
    }

    /** One charged call from gate to end, nothing interleaved: a thrown call whose refund lands costs nothing. */
    method CallCharged(org: Org, cost: nat, outcome: Outcome) returns (blocked: bool)
      requires cost > 0
      modifies this
      ensures blocked <==> Balance(old(Contents()), org) < cost
      ensures blocked ==> Contents() == old(Contents())
      ensures !blocked ==>
        Balance(Contents(), org) == Balance(old(Contents()), org) - (if outcome == Threw(true) then 0 else cost)
      ensures forall other :: other != org ==> Balance(Contents(), other) == Balance(old(Contents()), other)
      ensures old(entries) <= entries && |entries| == |old(entries)| + (if blocked then 0 else if outcome == Threw(true) then 2 else 1)
    {
      var debit := DebitFrom(org, cost);
      if !debit.Debited? { return true; }
      if outcome == Threw(true) {
        var refund := GrantTo(org, cost, None);
      }
      return false;
    }
  }
}
