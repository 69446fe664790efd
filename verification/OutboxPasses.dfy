/**
 * One outbox row and all the delivery passes that have claimed it. Claim, send
 * and outcome write are separate (src/services/email-outbox.service.ts
 * :221-246 and :248-330), the write is not fenced, and a row whose lock is
 * stale is claimed again while its first pass may still be sending. The `sent`
 * write stands in the same `try` as the send, so its failure is handled as a
 * failed send, although the mail is out.
 */
module OutboxPasses {
  import opened Tables
  import opened EmailOutbox

  /**
   * `accepted` are the passes still out whose mail was accepted, `sends` counts
   * the mails accepted so far, `takeovers` the claims of a row that was still
   * sending, `lost` the accepted mails whose pass then wrote a failed attempt.
   */
  datatype Track = Track(row: OutboxRow, clock: Time, passes: map<nat, Pass>, takeovers: nat,
                         accepted: set<nat>, sends: nat, lost: nat)

  datatype Step =
    | ClockAdvances(until: Time)
    | ClaimsRow(pass: nat)
    | Sends(pass: nat)
    | Settles(pass: nat, outcome: SendOutcome)
    | Dies(pass: nat)
    | CancelsRow

  predicate Can(t: Track, s: Step) {
    match s
    case ClockAdvances(until) => t.clock <= until
    case ClaimsRow(pass) => pass !in t.passes && IsDue(t.row, t.clock)
    case Sends(pass) => pass in t.passes && pass !in t.accepted
    case Settles(pass, outcome) => pass in t.passes && MayWrite(t, pass, outcome)
    case Dies(pass) => pass in t.passes
    case CancelsRow => true
  }

  /** `sent` is written after an accepted mail only; a rejected one was not accepted; anything may fail. */
  predicate MayWrite(t: Track, pass: nat, outcome: SendOutcome) {
    match outcome
    case Accepted => pass in t.accepted
    case SenderRejected => pass !in t.accepted
    case Errored => true
  }

  function AfterWrite(t: Track, pass: nat, outcome: SendOutcome): Track
    requires pass in t.passes
  {
    t.(row := Written(t.row, t.passes[pass], outcome),
       passes := t.passes - {pass},
       accepted := t.accepted - {pass},
       lost := t.lost + (if pass in t.accepted && outcome == Errored then 1 else 0))
  }

  function AfterClaim(t: Track, pass: nat): Track {
    t.(row := Claimed(t.row, t.clock),
       passes := t.passes[pass := Pass(t.row.attempts + 1, t.clock)],
       takeovers := t.takeovers + (if t.row.status == Sending then 1 else 0))
  }

  function Do(t: Track, s: Step): Track
    requires Can(t, s)
  {
    match s
    case ClockAdvances(until) => t.(clock := until)
    case ClaimsRow(pass) => AfterClaim(t, pass)
    case Sends(pass) => t.(accepted := t.accepted + {pass}, sends := t.sends + 1)
    case Settles(pass, outcome) => AfterWrite(t, pass, outcome)
    case Dies(pass) => t.(passes := t.passes - {pass}, accepted := t.accepted - {pass})
    case CancelsRow => t.(row := AfterCancel(t.row))
  }

  ghost predicate Legal(t: Track, steps: seq<Step>)
    decreases |steps|, 0
  {
    steps == [] || (var n := |steps| - 1; Legal(t, steps[..n]) && Can(Run(t, steps[..n]), steps[n]))
  }

  ghost function Run(t: Track, steps: seq<Step>): Track
    requires Legal(t, steps)
    decreases |steps|, 1
  {
    if steps == [] then t else var n := |steps| - 1; Do(Run(t, steps[..n]), steps[n])
  }

  lemma OneStep(t: Track, s: Step)
    requires Can(t, s)
    ensures Legal(t, [s]) && Run(t, [s]) == Do(t, s)
  {
    assert [s][..0] == [];
  }

  lemma Extend(t: Track, steps: seq<Step>, s: Step)
    requires Legal(t, steps) && Can(Run(t, steps), s)
    ensures Legal(t, steps + [s]) && Run(t, steps + [s]) == Do(Run(t, steps), s)
  {
    var more := steps + [s];
    assert more[..|more| - 1] == steps && more[|more| - 1] == s;
  }

  lemma {:induction false} RunsCompose(t: Track, a: seq<Step>, b: seq<Step>)
    requires Legal(t, a) && Legal(Run(t, a), b)
    ensures Legal(t, a + b) && Run(t, a + b) == Run(Run(t, a), b)
    decreases |b|
  {
    if b == [] {
      assert a + b == a;
    } else {
      var n := |b| - 1;
      RunsCompose(t, a, b[..n]);
      assert (a + b)[..|a + b| - 1] == a + b[..n];
      assert (a + b)[|a + b| - 1] == b[n];
    }
  }

  /** Only a pending email can be cancelled, and with no pass out it then stays cancelled. */
  lemma CancelledIsFinal(t: Track, steps: seq<Step>)
    requires t.passes == map[] && t.row.status == OutboxStatus.Pending && Legal(Do(t, CancelsRow), steps)
    ensures Run(Do(t, CancelsRow), steps).row == t.row.(status := Cancelled)
  {
    NothingOutNothingChanges(Do(t, CancelsRow), steps);
  }

  // ---- when a finished email stays finished ----

  lemma {:induction false} NothingOutNothingChanges(t: Track, steps: seq<Step>)
    requires IsTerminal(t.row) && t.passes == map[] && Legal(t, steps)
    ensures Run(t, steps).row == t.row && Run(t, steps).passes == map[]
    decreases |steps|
  {
    if steps != [] { NothingOutNothingChanges(t, steps[..|steps| - 1]); }
  }

  /** The steps of a pass that turn one finished status into another. */
  function Contradicting(t: Track, pass: nat): seq<Step> {
    if t.row.status == Sent then [Settles(pass, if pass in t.accepted then Errored else SenderRejected)]
    else if pass in t.accepted then [Settles(pass, Accepted)]
    else [Sends(pass)] + [Settles(pass, Accepted)]
  }

  lemma ContradictingChanges(t: Track, pass: nat)
    requires IsTerminal(t.row) && pass in t.passes
    ensures Legal(t, Contradicting(t, pass)) && Run(t, Contradicting(t, pass)).row != t.row
  {
    if t.row.status != Sent && pass !in t.accepted {
      OneStep(t, Sends(pass));
      Extend(t, [Sends(pass)], Settles(pass, Accepted));
    } else {
      OneStep(t, Contradicting(t, pass)[0]);
    }
  }

  /** A sent, failed or cancelled email is final, whatever happens next, exactly when no pass that claimed it is still out. */
  lemma FinishedForGoodIffNoPassIsOut(t: Track)
    requires IsTerminal(t.row)
    ensures (forall steps :: Legal(t, steps) ==> Run(t, steps).row == t.row) <==> t.passes == map[]
  {
    if t.passes == map[] {
      forall steps | Legal(t, steps) ensures Run(t, steps).row == t.row {
        NothingOutNothingChanges(t, steps);
      }
    } else {
      var p :| p in t.passes;
      ContradictingChanges(t, p);
    }
  }

  /** The guard the source's write lacks: the row is still being sent under this pass's own claim. */
  predicate OwnsRow(t: Track, pass: nat)
    requires pass in t.passes
  {
    t.row.status == Sending && t.row.attempts == t.passes[pass].attempts
  }

  ghost predicate GuardedRun(t: Track, steps: seq<Step>) {
    steps == [] || (var n := |steps| - 1;
      && GuardedRun(t, steps[..n]) && Legal(t, steps)
      && (steps[n].Settles? ==> OwnsRow(Run(t, steps[..n]), steps[n].pass)))
  }

  /** Over every run in which only owners write, a finished email never changes. */
  lemma {:induction false} GuardKeepsFinished(t: Track, steps: seq<Step>)
    requires IsTerminal(t.row) && Legal(t, steps) && GuardedRun(t, steps)
    ensures Run(t, steps).row == t.row
    decreases |steps|
  {
    if steps != [] { GuardKeepsFinished(t, steps[..|steps| - 1]); }
  }

  // ---- passes that do not outlast the lock ----

  /** Every pass writes its outcome before a peer may take its row over. */
  ghost predicate PromptRun(t: Track, steps: seq<Step>) {
    steps == [] || (var n := |steps| - 1;
      && PromptRun(t, steps[..n]) && Legal(t, steps)
      && (steps[n].Settles? ==> Run(t, steps[..n]).clock <= Run(t, steps[..n]).passes[steps[n].pass].now + STALE_LOCK_MS))
  }

  predicate Prompt(t: Track, s: Step)
    requires Can(t, s)
  {
    s.Settles? ==> t.clock <= t.passes[s.pass].now + STALE_LOCK_MS
  }

  /** A pass is the row's current one, or its time is over. */
  ghost predicate Inv(t: Track) {
    && (forall p <- t.passes ::
          || (OwnsRow(t, p) && t.row.lockedAt == Some(t.passes[p].now))
          || t.passes[p].now + STALE_LOCK_MS < t.clock)
    && (forall p <- t.passes :: t.passes[p].attempts <= t.row.attempts)
    && (forall p, q :: p in t.passes && q in t.passes && t.passes[p].attempts == t.passes[q].attempts ==> p == q)
    && t.row.attempts <= t.row.maxAttempts + t.takeovers
    && (t.row.status == OutboxStatus.Pending ==> t.row.attempts < t.row.maxAttempts)
  }

  lemma StepKeepsInv(t: Track, s: Step)
    requires Inv(t) && Can(t, s) && Prompt(t, s)
    ensures Inv(Do(t, s)) && Do(t, s).row.maxAttempts == t.row.maxAttempts
    ensures s.Settles? ==> OwnsRow(t, s.pass)
  {
  }

  predicate IsNew(t: Track) {
    t.row.status == OutboxStatus.Pending && t.row.attempts == 0 && t.row.maxAttempts >= 1 && t.passes == map[]
    && t.takeovers == 0 && t.accepted == {} && t.sends == 0 && t.lost == 0
  }

  lemma {:induction false} PromptRunKeepsInv(t: Track, steps: seq<Step>)
    requires Inv(t) && Legal(t, steps) && PromptRun(t, steps)
    ensures Inv(Run(t, steps)) && Run(t, steps).row.maxAttempts == t.row.maxAttempts
    ensures GuardedRun(t, steps)
    decreases |steps|
  {
    if steps != [] {
      var n := |steps| - 1;
      PromptRunKeepsInv(t, steps[..n]);
      StepKeepsInv(Run(t, steps[..n]), steps[n]);
    }
  }

  lemma {:induction false} PromptSuffix(t: Track, a: seq<Step>, b: seq<Step>)
    requires Legal(t, a) && Legal(t, a + b) && PromptRun(t, a + b)
    ensures Legal(Run(t, a), b) && Run(Run(t, a), b) == Run(t, a + b) && PromptRun(Run(t, a), b) && PromptRun(t, a)
    decreases |b|
  {
    if b == [] {
      assert a + b == a;
    } else {
      var n := |b| - 1;
      assert (a + b)[..|a + b| - 1] == a + b[..n];
      PromptSuffix(t, a, b[..n]);
    }
  }

  /** With prompt passes every email, once finished, stays as it is. */
  lemma FinishedStaysFinished(t: Track, before: seq<Step>, after: seq<Step>)
    requires IsNew(t) && Legal(t, before) && Legal(t, before + after) && PromptRun(t, before + after)
    requires IsTerminal(Run(t, before).row)
    ensures Run(t, before + after).row == Run(t, before).row
  {
    PromptSuffix(t, before, after);
    PromptRunKeepsInv(t, before);
    PromptRunKeepsInv(Run(t, before), after);
    GuardKeepsFinished(Run(t, before), after);
  }

  /** With prompt passes a row is tried at most its budget of times, plus once for every takeover of a stale row. */
  lemma AttemptsWithinBudgetPlusTakeovers(t: Track, steps: seq<Step>)
    requires IsNew(t) && Legal(t, steps) && PromptRun(t, steps)
    ensures Run(t, steps).row.attempts <= t.row.maxAttempts + Run(t, steps).takeovers
    ensures Run(t, steps).row.status == OutboxStatus.Pending ==> Run(t, steps).row.attempts < t.row.maxAttempts
  {
    PromptRunKeepsInv(t, steps);
  }

  // ---- the overrun that undoes a finished email ----

  /**
   * A pass outlasts its lock, a peer takes the row over and sends the email,
   * and the first pass's failed attempt then makes it pending: it will be
   * sent again. This happens to every new row with a budget of two or more.
   */
  lemma OverrunResendsASentEmail(t: Track, start: Time, late: Time) returns (steps: seq<Step>)
    requires IsNew(t) && t.row.maxAttempts >= 2
    requires t.clock <= start && t.row.sendAt <= start && start + STALE_LOCK_MS < late
    ensures steps == [ClockAdvances(start)] + [ClaimsRow(1)] + [ClockAdvances(late)] + [ClaimsRow(2)]
                     + [Sends(2)] + [Settles(2, Accepted)] + [Settles(1, Errored)]
    ensures Legal(t, steps)
    ensures Run(t, steps[..6]).row.status == Sent
    ensures Run(t, steps).row.status == OutboxStatus.Pending && IsDue(Run(t, steps).row, late)
  {
    var first := [ClockAdvances(start)] + [ClaimsRow(1)] + [ClockAdvances(late)] + [ClaimsRow(2)];
    TakenOver(t, start, late);
    Extend(t, first, Sends(2));
    Extend(t, first + [Sends(2)], Settles(2, Accepted));
    var sent := first + [Sends(2)] + [Settles(2, Accepted)];
    Extend(t, sent, Settles(1, Errored));
    steps := sent + [Settles(1, Errored)];
    assert steps[..6] == sent;
  }

  lemma TakenOver(t: Track, start: Time, late: Time)
    requires IsNew(t) && t.clock <= start && t.row.sendAt <= start && start + STALE_LOCK_MS < late
    ensures var steps := [ClockAdvances(start)] + [ClaimsRow(1)] + [ClockAdvances(late)] + [ClaimsRow(2)];
      && Legal(t, steps)
      && Run(t, steps) == Track(Claimed(Claimed(t.row, start), late), late, map[1 := Pass(1, start), 2 := Pass(2, late)], 1, {}, 0, 0)
  {
    OneStep(t, ClockAdvances(start));
    var one := [ClockAdvances(start)];
    Extend(t, one, ClaimsRow(1));
    var two := one + [ClaimsRow(1)];
    Extend(t, two, ClockAdvances(late));
    Extend(t, two + [ClockAdvances(late)], ClaimsRow(2));
  }

  // ---- how often an email is sent ----

  /** Passes at work that have not sent yet. */
  function Unsent(t: Track): set<nat> { t.passes.Keys - t.accepted }

  function MayStillBeSent(t: Track): nat { if t.row.status == Sending || t.row.status == Sent then 1 else 0 }

  /** Each mail sent, or still to be sent by a pass at work, is paid for by a takeover, a lost write or the row's status. */
  ghost predicate SendsArePaidFor(t: Track) {
    t.accepted <= t.passes.Keys && t.sends + |Unsent(t)| <= t.takeovers + t.lost + MayStillBeSent(t)
  }

  lemma ClaimIsPaidFor(t: Track, pass: nat)
    requires SendsArePaidFor(t) && Can(t, ClaimsRow(pass))
    ensures SendsArePaidFor(Do(t, ClaimsRow(pass)))
  {
    assert pass !in Unsent(t);
    assert Unsent(Do(t, ClaimsRow(pass))) == Unsent(t) + {pass};
  }

  lemma SendIsPaidFor(t: Track, pass: nat)
    requires SendsArePaidFor(t) && Can(t, Sends(pass))
    ensures SendsArePaidFor(Do(t, Sends(pass)))
  {
    assert Unsent(Do(t, Sends(pass))) == Unsent(t) - {pass};
  }

  lemma EndIsPaidFor(t: Track, s: Step)
    requires SendsArePaidFor(t) && Can(t, s) && (s.Settles? || s.Dies?)
    ensures SendsArePaidFor(Do(t, s))
  {
    assert Unsent(Do(t, s)) == Unsent(t) - {s.pass};
  }

  lemma {:induction false} EveryRunIsPaidFor(t: Track, steps: seq<Step>)
    requires SendsArePaidFor(t) && Legal(t, steps)
    ensures SendsArePaidFor(Run(t, steps))
    decreases |steps|
  {
    if steps != [] {
      var n := |steps| - 1;
      var before, s := Run(t, steps[..n]), steps[n];
      EveryRunIsPaidFor(t, steps[..n]);
      if s.ClaimsRow? { ClaimIsPaidFor(before, s.pass); }
      else if s.Sends? { SendIsPaidFor(before, s.pass); }
      else if s.Settles? || s.Dies? { EndIsPaidFor(before, s); }
      else { assert Unsent(Do(before, s)) == Unsent(before); }
    }
  }

  /**
   * Over every run, prompt or not, an email is sent at most once, plus once
   * for every takeover and once for every lost outcome write; a row that is
   * neither being sent nor marked sent has used up nothing but those.
   */
  lemma SentOncePlusTakeoversAndLostWrites(t: Track, steps: seq<Step>)
    requires IsNew(t) && Legal(t, steps)
    ensures var r := Run(t, steps);
      && r.sends <= 1 + r.takeovers + r.lost
      && (r.row.status != Sending && r.row.status != Sent ==> r.sends <= r.takeovers + r.lost)
  {
    EveryRunIsPaidFor(t, steps);
  }

  /** An email marked sent was sent: over every run, some pass had it accepted first. */
  lemma {:induction false} MarkedSentWasSent(t: Track, steps: seq<Step>)
    requires IsNew(t) && Legal(t, steps)
    ensures var r := Run(t, steps); (r.row.status == Sent || r.accepted != {} ==> r.sends >= 1)
    decreases |steps|
  {
    if steps != [] {
      var n := |steps| - 1;
      var before, s := Run(t, steps[..n]), steps[n];
      MarkedSentWasSent(t, steps[..n]);
      if s.Settles? && s.outcome == Accepted { assert s.pass in before.accepted; }
    }
  }

  // ---- the bounds are reached ----

  lemma PromptOneMore(t: Track, steps: seq<Step>, s: Step)
    requires Legal(t, steps) && PromptRun(t, steps) && Can(Run(t, steps), s) && Prompt(Run(t, steps), s)
    ensures Legal(t, steps + [s]) && PromptRun(t, steps + [s]) && Run(t, steps + [s]) == Do(Run(t, steps), s)
  {
    Extend(t, steps, s);
    var more := steps + [s];
    assert more[..|more| - 1] == steps && more[|more| - 1] == s;
  }

  /** Waiting for its next attempt with nobody at work on it, after `lost` mails whose outcome write failed. */
  predicate Waiting(t: Track, max: nat, lost: nat) {
    && t.row.status == OutboxStatus.Pending && t.row.attempts == lost && t.row.maxAttempts == max
    && t.passes == map[] && t.accepted == {}
    && t.takeovers == 0 && t.sends == lost && t.lost == lost
  }

  function Later(t: Track): Time { if t.clock < t.row.sendAt then t.row.sendAt else t.clock }

  /** A new claim sends the email. */
  lemma SendWhenDue(t: Track, steps: seq<Step>, max: nat, k: nat) returns (more: seq<Step>)
    requires Legal(t, steps) && PromptRun(t, steps) && Waiting(Run(t, steps), max, k)
    ensures Legal(t, more) && PromptRun(t, more)
    ensures var w, r := Run(t, steps), Run(t, more); var now := Later(w);
      r == Track(Claimed(w.row, now), now, map[k := Pass(k + 1, now)], 0, {k}, k + 1, k)
  {
    var now := Later(Run(t, steps));
    PromptOneMore(t, steps, ClockAdvances(now));
    more := steps + [ClockAdvances(now)];
    PromptOneMore(t, more, ClaimsRow(k));
    more := more + [ClaimsRow(k)];
    PromptOneMore(t, more, Sends(k));
    more := more + [Sends(k)];
  }

  /** One mail sent whose outcome write fails, with budget left. */
  lemma LoseOnce(t: Track, steps: seq<Step>, max: nat, k: nat) returns (more: seq<Step>)
    requires Legal(t, steps) && PromptRun(t, steps) && Waiting(Run(t, steps), max, k) && k + 1 < max
    ensures Legal(t, more) && PromptRun(t, more) && Waiting(Run(t, more), max, k + 1)
  {
    more := SendWhenDue(t, steps, max, k);
    PromptOneMore(t, more, Settles(k, Errored));
    assert Run(t, more).passes - {k} == map[];
    more := more + [Settles(k, Errored)];
  }

  lemma {:induction false} LoseTimes(t: Track, steps: seq<Step>, max: nat, k: nat, lost: nat) returns (more: seq<Step>)
    requires Legal(t, steps) && PromptRun(t, steps) && Waiting(Run(t, steps), max, k) && k <= lost < max
    ensures Legal(t, more) && PromptRun(t, more) && Waiting(Run(t, more), max, lost)
    decreases lost - k
  {
    more := steps;
    if k < lost {
      more := LoseOnce(t, steps, max, k);
      more := LoseTimes(t, more, max, k + 1, lost);
    }
  }

  /** Sent and not yet written by the pass of attempt `attempts`, the passes before it being smaller. */
  predicate Hanging(t: Track, attempts: nat, takeovers: nat, lost: nat) {
    && t.row.status == Sending && t.row.attempts == attempts && t.row.lockedAt == Some(t.clock)
    && t.row.sendAt <= t.clock && attempts > 0 && attempts - 1 in t.passes && attempts - 1 in t.accepted
    && t.passes[attempts - 1].now == t.clock
    && t.takeovers == takeovers && t.lost == lost && t.sends == attempts
    && (forall p <- t.passes :: p < attempts) && (forall p <- t.accepted :: p < attempts)
  }

  /** The pass at work never writes; its row is taken over and the email sent again. */
  lemma TakeOverOnce(t: Track, steps: seq<Step>, attempts: nat, takeovers: nat, lost: nat) returns (more: seq<Step>)
    requires Legal(t, steps) && PromptRun(t, steps) && Hanging(Run(t, steps), attempts, takeovers, lost)
    ensures Legal(t, more) && PromptRun(t, more) && Hanging(Run(t, more), attempts + 1, takeovers + 1, lost)
  {
    var later := Run(t, steps).clock + STALE_LOCK_MS + 1;
    PromptOneMore(t, steps, ClockAdvances(later));
    more := steps + [ClockAdvances(later)];
    PromptOneMore(t, more, ClaimsRow(attempts));
    more := more + [ClaimsRow(attempts)];
    PromptOneMore(t, more, Sends(attempts));
    more := more + [Sends(attempts)];
  }

  lemma {:induction false} TakeOverTimes(t: Track, steps: seq<Step>, attempts: nat, from: nat, lost: nat, n: nat) returns (more: seq<Step>)
    requires Legal(t, steps) && PromptRun(t, steps) && Hanging(Run(t, steps), attempts, from, lost)
    ensures Legal(t, more) && PromptRun(t, more) && Hanging(Run(t, more), attempts + n, from + n, lost)
    decreases n
  {
    more := steps;
    if n > 0 {
      more := TakeOverOnce(t, steps, attempts, from, lost);
      more := TakeOverTimes(t, more, attempts + 1, from + 1, lost, n - 1);
    }
  }

  /**
   * Both terms of the bound are needed and it is the best possible: for every
   * new row, every number of lost writes its budget allows and every number of
   * takeovers, some run with prompt passes ends sent, having sent that often.
   */
  lemma SendBoundIsReached(t: Track, lost: nat, takeovers: nat) returns (steps: seq<Step>)
    requires IsNew(t) && lost < t.row.maxAttempts
    ensures Legal(t, steps) && PromptRun(t, steps)
    ensures var r := Run(t, steps);
      && r.takeovers == takeovers && r.lost == lost
      && r.row.status == Sent && r.sends == 1 + takeovers + lost && r.row.attempts == r.sends
  {
    steps := LoseTimes(t, [], t.row.maxAttempts, 0, lost);
    steps := SendWhenDue(t, steps, t.row.maxAttempts, lost);
    steps := TakeOverTimes(t, steps, lost + 1, 0, lost, takeovers);
    var last := Settles(lost + takeovers, Accepted);
    PromptOneMore(t, steps, last);
    steps := steps + [last];
  }

  /**
   * So is the bound on attempts: every new row, for every number of
   * takeovers, has a run with prompt passes that reaches its budget plus
   * that number. So the budget itself holds exactly when nothing is taken over.
   */
  lemma BudgetPlusTakeoversIsReached(t: Track, takeovers: nat) returns (steps: seq<Step>)
    requires IsNew(t)
    ensures Legal(t, steps) && PromptRun(t, steps)
    ensures Run(t, steps).takeovers == takeovers && Run(t, steps).row.attempts == t.row.maxAttempts + takeovers
  {
    steps := SendBoundIsReached(t, t.row.maxAttempts - 1, takeovers);
  }
}
