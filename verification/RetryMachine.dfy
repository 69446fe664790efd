/**
 * The sequential retry machine each delivery row is meant to be: one claim
 * at a time, identified by a number that is never used again.
 */
module RetryMachine {
  datatype Row =
    | Absent
    | Waiting(attempts: nat)
    | InClaim(turn: nat, attempts: nat)
    | Finished(attempts: nat)
    | Buried(attempts: nat)

  datatype Ending = Completed | Failed(budget: nat) | Released

  datatype Act = Idle | Create | Begin(turn: nat) | End(turn: nat, how: Ending) | Reap(budget: nat) | Revive | Remove

  /** Out of budget is buried, otherwise the row waits for its next attempt. */
  function Settle(attempts: nat, budget: nat): Row {
    if attempts >= budget then Buried(attempts) else Waiting(attempts)
  }

  function Ended(attempts: nat, how: Ending): Row {
    match how
    case Completed => Finished(attempts)
    case Failed(budget) => Settle(attempts, budget)
    case Released => Waiting(if attempts > 0 then attempts - 1 else 0)
  }

  /** An ending that names any claim but the current one does nothing. */
  function After(r: Row, a: Act): Row {
    match a
    case Idle => r
    case Create => if r.Absent? then Waiting(0) else r
    case Begin(turn) => if r.Waiting? then InClaim(turn, r.attempts + 1) else r
    case End(turn, how) => if r.InClaim? && r.turn == turn then Ended(r.attempts, how) else r
    case Reap(budget) => if r.InClaim? then Settle(r.attempts, budget) else r
    case Revive => if r.Absent? || r.InClaim? then r else Waiting(0)
    case Remove => Absent
  }

  predicate Inside(r: Row, turn: nat) { r.InClaim? && r.turn == turn }

  /** Claims begun, given back and used up since the row was created or last replayed. */
  datatype Tally = Tally(begun: nat, released: nat, spent: nat)

  function Tallied(t: Tally, r: Row, a: Act): Tally {
    match a
    case Idle => t
    case Create => if r.Absent? then Tally(0, 0, 0) else t
    case Begin(_) => if r.Waiting? then t.(begun := t.begun + 1) else t
    case End(turn, how) =>
      if !Inside(r, turn) then t
      else if how.Released? then t.(released := t.released + 1)
      else t.(spent := t.spent + 1)
    case Reap(_) => if r.InClaim? then t.(spent := t.spent + 1) else t
    case Revive => if r.Absent? || r.InClaim? then t else Tally(0, 0, 0)
    case Remove => t
  }

  function Open(r: Row): nat { if r.InClaim? then 1 else 0 }

  /** Attempts are claims minus releases, and every claim was released, used up or is still open. */
  ghost predicate Balanced(r: Row, t: Tally) {
    !r.Absent? ==>
      && r.attempts + t.released == t.begun
      && t.begun == t.released + t.spent + Open(r)
  }

  lemma ActKeepsBalance(r: Row, t: Tally, a: Act)
    requires Balanced(r, t)
    ensures Balanced(After(r, a), Tallied(t, r, a))
  {
  }
}
