/** The email outbox (src/services/email-outbox.service.ts): deduplicated enqueue, delivery with backoff. */
module EmailOutbox {
  import opened Tables
  import opened Text
  import Selection

  datatype OutboxStatus = Pending | Sending | Sent | Failed | Cancelled

  datatype OutboxRow = OutboxRow(
    to: string,
    subject: string,
    idempotencyKey: Option<string>,
    status: OutboxStatus,
    attempts: nat,
    maxAttempts: nat,
    sendAt: Time,
    lockedAt: Option<Time>)

  datatype Email = Email(
    to: string,
    subject: string,
    text: string,
    idempotencyKey: Option<string>,
    sendAt: Option<Time>,
    maxAttempts: Option<int>)

  datatype BadEmail = BadRecipient | NoSubject | NoText | BadAttempts | KeyTooLong

  /** `row` is the place of the row in the table. */
  datatype EnqueueResult = Queued(row: nat, created: bool) | BadRequest(why: BadEmail)

  const DEFAULT_MAX_ATTEMPTS := 5
  const STALE_LOCK_MS := 600_000

  predicate IsAddressChar(c: char) { !IsSpace(c) && c != '@' }

  /** One `@`, a dot somewhere behind it, nothing empty, no white space. */
  predicate IsAddress(s: string) {
    exists at, dot :: 0 < at && at + 1 < dot < |s| - 1 && SplitsAddress(s, at, dot)
  }

  predicate SplitsAddress(s: string, at: int, dot: int) {
    && 0 <= at < |s| && 0 <= dot < |s| && s[at] == '@' && s[dot] == '.'
    && forall k :: 0 <= k < |s| && k != at ==> IsAddressChar(s[k])
  }

  /** What the expression of the source matches: something, an at sign, something, a dot and something, none of it white space or another at sign. */
  lemma AddressGrammar(s: string)
    ensures IsAddress(s) <==> exists user, host, top :: IsPart(user) && IsPart(host) && IsPart(top) && s == user + "@" + host + "." + top
  {
    if IsAddress(s) {
      var at, dot :| 0 < at && at + 1 < dot < |s| - 1 && SplitsAddress(s, at, dot);
      assert s == s[..at] + "@" + s[at + 1..dot] + "." + s[dot + 1..];
      assert IsPart(s[..at]) && IsPart(s[at + 1..dot]) && IsPart(s[dot + 1..]);
    }
    if user, host, top :| IsPart(user) && IsPart(host) && IsPart(top) && s == user + "@" + host + "." + top {
      PartsMakeAnAddress(user, host, top);
    }
  }

  predicate IsPart(s: string) { s != "" && forall c <- s :: !IsSpace(c) && c != '@' }

  lemma PartsMakeAnAddress(user: string, host: string, top: string)
    requires IsPart(user) && IsPart(host) && IsPart(top)
    ensures IsAddress(user + "@" + host + "." + top)
  {
    var s, at, dot := user + "@" + host + "." + top, |user|, |user| + 1 + |host|;
    forall k | 0 <= k < |s| && k != at ensures IsAddressChar(s[k]) {
      if k < at { assert s[k] == user[k] && user[k] in user; }
      else if k < dot { assert s[k] == host[k - at - 1] && host[k - at - 1] in host; }
      else if k > dot { assert s[k] == top[k - dot - 1] && top[k - dot - 1] in top; }
    }
    assert SplitsAddress(s, at, dot);
  }

  /** The key as stored: trimmed, and none if nothing is left. */
  function StoredKey(idempotencyKey: Option<string>): (key: Option<string>)
    ensures key.Some? ==> key.value != "" && idempotencyKey.Some? && key.value == Trim(idempotencyKey.value)
    ensures key.None? <==> idempotencyKey.None? || Trim(idempotencyKey.value) == ""
  {
    if idempotencyKey.Some? && Trim(idempotencyKey.value) != "" then Some(Trim(idempotencyKey.value)) else None
  }

  function Recipient(input: Email): string { Lower(Trim(input.to)) }

  function Problem(input: Email): Option<BadEmail> {
    if !IsAddress(Recipient(input)) then Some(BadRecipient)
    else if Trim(input.subject) == "" then Some(NoSubject)
    else if Trim(input.text) == "" then Some(NoText)
    else if input.maxAttempts.Some? && (input.maxAttempts.value < 1 || input.maxAttempts.value > 20) then Some(BadAttempts)
    else if StoredKey(input.idempotencyKey).Some? && |StoredKey(input.idempotencyKey).value| > 512 then Some(KeyTooLong)
    else None
  }

  function NewRow(input: Email, now: Time): OutboxRow
    requires Problem(input).None?
  {
    OutboxRow(Recipient(input), Trim(input.subject), StoredKey(input.idempotencyKey), OutboxStatus.Pending, 0,
              if input.maxAttempts.Some? then input.maxAttempts.value else DEFAULT_MAX_ATTEMPTS,
              if input.sendAt.Some? then input.sendAt.value else now, None)
  }

  /** The first row with this key; |rows| if there is none. */
  function ByKey(rows: seq<OutboxRow>, key: string): (i: nat)
    ensures i <= |rows|
    ensures i < |rows| ==> rows[i].idempotencyKey == Some(key)
    ensures forall k :: 0 <= k < i ==> rows[k].idempotencyKey != Some(key)
  {
    if rows == [] then 0
    else if rows[0].idempotencyKey == Some(key) then 0
    else 1 + ByKey(rows[1..], key)
  }

  function Enqueue(rows: seq<OutboxRow>, input: Email, now: Time): (seq<OutboxRow>, EnqueueResult) {
    var problem := Problem(input);
    if problem.Some? then (rows, BadRequest(problem.value))
    else
      var key := StoredKey(input.idempotencyKey);
      var i := if key.Some? then ByKey(rows, key.value) else |rows|;
      if i < |rows| then (rows, Queued(i, false)) else (rows + [NewRow(input, now)], Queued(|rows|, true))
  }

  /** The unique index on the key. */
  ghost predicate KeysUnique(rows: seq<OutboxRow>) {
    forall i, j :: 0 <= i < j < |rows| && rows[i].idempotencyKey.Some? ==> rows[i].idempotencyKey != rows[j].idempotencyKey
  }

  /**
   * A key has one row for good: the first enqueue creates it, every further
   * one returns it and creates nothing, and no row ever changes by it.
   */
  lemma EnqueueTwiceIsEnqueueOnce(rows: seq<OutboxRow>, input: Email, now: Time, later: seq<OutboxRow>, again: Email, at: Time)
    requires KeysUnique(rows) && KeysUnique(later)
    requires Problem(input).None? && Problem(again).None?
    requires StoredKey(input.idempotencyKey).Some? && StoredKey(again.idempotencyKey) == StoredKey(input.idempotencyKey)
    requires var (after, r) := Enqueue(rows, input, now);
      |after| <= |later| && forall k :: 0 <= k < |after| ==> later[k].idempotencyKey == after[k].idempotencyKey
    ensures var (after, r) := Enqueue(rows, input, now);
      && KeysUnique(after) && rows <= after
      && r.Queued? && after[r.row].idempotencyKey == StoredKey(input.idempotencyKey)
      && Enqueue(later, again, at) == (later, Queued(r.row, false))
  {
  }

  // ---- delivery ----

  /** Seconds to wait after a failed attempt. */
  function BackoffSeconds(attempt: int): (s: nat)
    ensures 60 <= s <= 43200
    ensures attempt < 5 ==> s == [60, 60, 300, 1800, 7200][if attempt < 0 then 0 else attempt]
    ensures attempt >= 5 ==> s == 43200
  {
    if attempt <= 1 then 60
    else if attempt == 2 then 300
    else if attempt == 3 then 1800
    else if attempt == 4 then 7200
    else 43200
  }

  predicate IsDue(row: OutboxRow, now: Time) {
    && row.sendAt <= now
    && (row.status == OutboxStatus.Pending
        || (row.status == Sending && row.lockedAt.Some? && row.lockedAt.value + STALE_LOCK_MS < now))
  }

  function Claimed(row: OutboxRow, now: Time): OutboxRow {
    row.(status := Sending, lockedAt := Some(now), attempts := row.attempts + 1)
  }

  datatype SendOutcome = Accepted | SenderRejected | Errored

  /** What a pass remembers of its claim: the attempt it counted and its clock. */
  datatype Pass = Pass(attempts: nat, now: Time)

  /** The outcome write. It is by id alone: whatever the row is by now, it becomes this. */
  function Written(row: OutboxRow, pass: Pass, outcome: SendOutcome): OutboxRow {
    match outcome
    case Accepted => row.(status := Sent, lockedAt := None)
    case SenderRejected => row.(status := OutboxStatus.Failed, lockedAt := None)
    case Errored =>
      if pass.attempts >= row.maxAttempts then row.(status := OutboxStatus.Failed, lockedAt := None)
      else row.(status := OutboxStatus.Pending, sendAt := pass.now + BackoffSeconds(pass.attempts) * 1000, lockedAt := None)
  }

  /** The outcome of the row's own claim. */
  function Settled(row: OutboxRow, outcome: SendOutcome, now: Time): OutboxRow {
    Written(row, Pass(row.attempts, now), outcome)
  }

  function AfterCancel(row: OutboxRow): OutboxRow {
    if row.status == OutboxStatus.Pending then row.(status := Cancelled) else row
  }

  /** Everything that can happen to a queued row. */
  datatype RowAction = Claims(now: Time) | Writes(pass: Pass, outcome: SendOutcome) | Cancels

  function Acted(row: OutboxRow, action: RowAction): OutboxRow {
    match action
    case Claims(now) => if IsDue(row, now) then Claimed(row, now) else row
    case Writes(pass, outcome) => Written(row, pass, outcome)
    case Cancels => AfterCancel(row)
  }

  predicate IsTerminal(row: OutboxRow) {
    row.status == Sent || row.status == OutboxStatus.Failed || row.status == Cancelled
  }

  lemma SettledIsNotDue(row: OutboxRow, outcome: SendOutcome, now: Time)
    ensures !IsDue(Settled(row, outcome, now), now)
  {
    assert BackoffSeconds(row.attempts) * 1000 > 0;
  }

  /** The row a pass claimed and settled, from what it was: one more attempt, the lock given up, and the outcome of the send. */
  predicate SettledAs(was: OutboxRow, row: OutboxRow, outcome: SendOutcome, now: Time) {
    && row == was.(status := row.status, attempts := was.attempts + 1, sendAt := row.sendAt, lockedAt := None)
    && (outcome == Accepted ==> row.status == Sent && row.sendAt == was.sendAt)
    && (outcome == SenderRejected ==> row.status == OutboxStatus.Failed && row.sendAt == was.sendAt)
    && (outcome == Errored && was.attempts + 1 >= was.maxAttempts ==> row.status == OutboxStatus.Failed && row.sendAt == was.sendAt)
    && (outcome == Errored && was.attempts + 1 < was.maxAttempts ==>
          row.status == OutboxStatus.Pending && row.sendAt == now + BackoffSeconds(was.attempts + 1) * 1000)
  }

  lemma SettledMeans(row: OutboxRow, outcome: SendOutcome, now: Time)
    ensures SettledAs(row, Settled(Claimed(row, now), outcome, now), outcome, now)
  {
  }

  /** The rows a claim may take. */
  function Claimables(rows: seq<OutboxRow>, locked: set<nat>, now: Time): nat -> bool {
    (k: nat) => k < |rows| && k !in locked && IsDue(rows[k], now)
  }

  /** The send ends in a failure that is not tried again. */
  predicate FailsFor(rows: seq<OutboxRow>, sending: nat -> SendOutcome, p: nat) {
    p < |rows| && (sending(p) == SenderRejected || (sending(p) == Errored && rows[p].attempts + 1 >= rows[p].maxAttempts))
  }

  predicate Distinct(picks: seq<nat>, n: nat) {
    && (forall i :: 0 <= i < |picks| ==> picks[i] < n)
    && (forall i, j :: 0 <= i < j < |picks| ==> picks[i] != picks[j])
  }

  // ---- the service ----

  datatype DeliverResult = DeliverResult(claimed: nat, sent: nat, retried: nat, failed: nat)

  class Outbox {
    var rows: seq<OutboxRow>

    constructor ()
      ensures rows == []
    {
      rows := [];
    }

    method EnqueueEmail(input: Email, now: Time) returns (r: EnqueueResult)
      modifies this
      ensures (rows, r) == Enqueue(old(rows), input, now)
      // No row changes or goes; there is one more exactly if a new one was queued.
      ensures old(rows) <= rows && |rows| == |old(rows)| + (if r == Queued(|old(rows)|, true) then 1 else 0)
      ensures KeysUnique(old(rows)) ==> KeysUnique(rows)
      // A bad email is refused whole; a good one has a row under its key, and asking again finds that very row.
      ensures r.BadRequest? <==> Problem(input).Some?
      ensures r.Queued? ==> r.row < |rows| && rows[r.row].idempotencyKey == StoredKey(input.idempotencyKey)
      ensures r.Queued? && StoredKey(input.idempotencyKey).Some? ==>
        Enqueue(rows, input, now) == (rows, Queued(r.row, false))
      ensures r.Queued? && r.created ==> rows[r.row] == OutboxRow(
        Lower(Trim(input.to)), Trim(input.subject), StoredKey(input.idempotencyKey), OutboxStatus.Pending, 0,
        if input.maxAttempts == None then 5 else input.maxAttempts.value,
        if input.sendAt == None then now else input.sendAt.value, None)
    {
      var to := Lower(Trim(input.to));
      if !IsAddress(to) { return BadRequest(BadRecipient); }
      var subject := Trim(input.subject);
      if subject == "" { return BadRequest(NoSubject); }
      if Trim(input.text) == "" { return BadRequest(NoText); }
      if input.maxAttempts.Some? && (input.maxAttempts.value < 1 || input.maxAttempts.value > 20) {
        return BadRequest(BadAttempts);
      }
      var key := StoredKey(input.idempotencyKey);
      if key.Some? && |key.value| > 512 { return BadRequest(KeyTooLong); }
      if key.Some? {
        var existing := ByKey(rows, key.value);
        if existing < |rows| { return Queued(existing, false); }
      }
      rows := rows + [NewRow(input, now)];
      return Queued(|rows| - 1, true);
    }

    method CancelEmail(row: nat) returns (ok: bool)
      requires row < |rows|
      modifies this
      ensures ok <==> old(rows)[row].status == OutboxStatus.Pending
      ensures rows == old(rows)[row := AfterCancel(old(rows)[row])]
      ensures ok ==> rows == old(rows)[row := old(rows)[row].(status := Cancelled)]
      ensures !ok ==> rows == old(rows)
    {
      if rows[row].status != OutboxStatus.Pending { return false; }
      rows := rows[row := rows[row].(status := Cancelled)];
      return true;
    }

    /** The claim: one transaction that marks every selected row. */
    method ClaimRows(now: Time, picks: seq<nat>)
      requires Distinct(picks, |rows|)
      modifies this
      ensures |rows| == |old(rows)|
      ensures forall i :: 0 <= i < |picks| ==> rows[picks[i]] == Claimed(old(rows)[picks[i]], now)
      ensures forall k :: 0 <= k < |rows| && k !in picks ==> rows[k] == old(rows)[k]
    {
      var c := 0;
      while c < |picks|
        invariant c <= |picks| && |rows| == |old(rows)|
        invariant forall i :: 0 <= i < c ==> rows[picks[i]] == Claimed(old(rows)[picks[i]], now)
        invariant forall i :: c <= i < |picks| ==> rows[picks[i]] == old(rows)[picks[i]]
        invariant forall k :: 0 <= k < |rows| && k !in picks ==> rows[k] == old(rows)[k]
      {
        rows := rows[picks[c] := Claimed(rows[picks[c]], now)];
        c := c + 1;
      }
    }

    /** One send and the write of its outcome. */
    method SendOne(now: Time, at: nat, outcome: SendOutcome, tally: DeliverResult) returns (r: DeliverResult)
      requires at < |rows|
      modifies this
      ensures rows == old(rows)[at := Settled(old(rows)[at], outcome, now)]
      ensures r.claimed == tally.claimed && r.sent + r.retried + r.failed == tally.sent + tally.retried + tally.failed + 1
      ensures r.sent == tally.sent + (if outcome == Accepted then 1 else 0)
      ensures r.failed == tally.failed + (if outcome == SenderRejected
                                             || (outcome == Errored && old(rows)[at].attempts >= old(rows)[at].maxAttempts) then 1 else 0)
    {
      var row := rows[at];
      rows := rows[at := Settled(row, outcome, now)];
      match outcome {
        case Accepted => r := tally.(sent := tally.sent + 1);
        case SenderRejected => r := tally.(failed := tally.failed + 1);
        case Errored =>
          if row.attempts >= row.maxAttempts {
            r := tally.(failed := tally.failed + 1);
          } else {
            r := tally.(retried := tally.retried + 1);
          }
      }
    }

    /**
     * One pass: `scan` is the order the query visits rows in, `locked` what
     * other passes are claiming, `sending` how each send ends. Every claimed
     * row is settled once, counted once, and not due again now.
     */
    method DeliverDueEmails(now: Time, limit: int, scan: seq<nat>, locked: set<nat>, sending: nat -> SendOutcome)
      returns (r: DeliverResult, picks: seq<nat>)
      requires Distinct(scan, |rows|)
      modifies this
      ensures |rows| == |old(rows)|
      // Claimed are the first rows that may be: pending or stuck in sending for over ten minutes, and due.
      ensures |picks| <= Selection.Limit(limit, 500) && (forall p <- picks :: p in scan && p !in locked)
      ensures forall k <- scan :: k !in locked && (k in picks || |picks| < Selection.Limit(limit, 500)) ==>
        (k in picks <==>
           var row := old(rows)[k];
           && row.sendAt <= now
           && (row.status == OutboxStatus.Pending
               || (row.status == Sending && row.lockedAt.Some? && row.lockedAt.value + 600_000 < now)))
      ensures Selection.FirstFree(picks, scan, Claimables(old(rows), locked, now), Selection.Limit(limit, 500))
      ensures forall p <- picks :: SettledAs(old(rows)[p], rows[p], sending(p), now) && !IsDue(rows[p], now)
      ensures forall k :: 0 <= k < |rows| && k !in picks ==> rows[k] == old(rows)[k]
      ensures r.claimed == |picks| == r.sent + r.retried + r.failed
      ensures r.sent == Selection.Count(picks, p => sending(p) == Accepted)
      ensures var was := old(rows); r.failed == Selection.Count(picks, p => FailsFor(was, sending, p))
    {
      ghost var was := rows;
      picks := SelectDue(now, limit, scan, locked);
      ClaimRows(now, picks);
      r := SendAll(now, picks, sending, was);
      forall p <- picks ensures SettledAs(was[p], rows[p], sending(p), now) && !IsDue(rows[p], now) {
        SettledMeans(was[p], sending(p), now);
        SettledIsNotDue(Claimed(was[p], now), sending(p), now);
      }
    }

    /** The query of the claim. */
    method SelectDue(now: Time, limit: int, scan: seq<nat>, locked: set<nat>) returns (picks: seq<nat>)
      requires Distinct(scan, |rows|)
      ensures Selection.FirstFree(picks, scan, Claimables(rows, locked, now), Selection.Limit(limit, 500))
      ensures Distinct(picks, |rows|) && |picks| <= Selection.Limit(limit, 500)
      ensures forall p <- picks :: p in scan && p !in locked && IsDue(rows[p], now)
      ensures |picks| < Selection.Limit(limit, 500) ==> forall k <- scan :: k !in locked && IsDue(rows[k], now) ==> k in picks
    {
      picks := Selection.Select(scan, Claimables(rows, locked, now), Selection.Limit(limit, 500));
      Selection.PicksAreFree(picks, scan, Claimables(rows, locked, now), Selection.Limit(limit, 500));
      assert Selection.Distinct(scan);
      assert forall i :: 0 <= i < |picks| ==> picks[i] in picks;
      assert forall k <- scan :: k < |rows|;
    }

    /** The sends, one after the other. */
    method SendAll(now: Time, picks: seq<nat>, sending: nat -> SendOutcome, ghost was: seq<OutboxRow>) returns (r: DeliverResult)
      requires Distinct(picks, |rows|) && |was| == |rows|
      requires forall p <- picks :: rows[p] == Claimed(was[p], now)
      modifies this
      ensures |rows| == |old(rows)|
      ensures forall p <- picks :: rows[p] == Settled(Claimed(was[p], now), sending(p), now)
      ensures forall k :: 0 <= k < |rows| && k !in picks ==> rows[k] == old(rows)[k]
      ensures r.claimed == |picks| == r.sent + r.retried + r.failed
      ensures r.sent == Selection.Count(picks, p => sending(p) == Accepted)
      ensures r.failed == Selection.Count(picks, p => FailsFor(was, sending, p))
    {
      r := DeliverResult(|picks|, 0, 0, 0);
      var i := 0;
      while i < |picks|
        invariant i <= |picks| && |rows| == |old(rows)|
        invariant forall j :: 0 <= j < i ==> rows[picks[j]] == Settled(Claimed(was[picks[j]], now), sending(picks[j]), now)
        invariant forall j :: i <= j < |picks| ==> rows[picks[j]] == Claimed(was[picks[j]], now)
        invariant forall k :: 0 <= k < |rows| && k !in picks ==> rows[k] == old(rows)[k]
        invariant r.claimed == |picks| && r.sent + r.retried + r.failed == i
        invariant r.sent == Selection.Count(picks[..i], p => sending(p) == Accepted)
        invariant r.failed == Selection.Count(picks[..i], p => FailsFor(was, sending, p))
      {
        assert picks[..i + 1][..i] == picks[..i];
        r := SendOne(now, picks[i], sending(picks[i]), r);
        i := i + 1;
      }
      assert picks[..|picks|] == picks;
    }
  }
}
