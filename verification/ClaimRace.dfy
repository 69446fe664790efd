/**
 * One `claimDeliveries` call: its transaction races a timer. Every callback
 * is a step, and any order of steps the event loop allows is a run.
 */
module ClaimRace {
  /** Queued for a connection, past the first check, updated, past the second check, ended. */
  datatype Tx = Queued | Open | Updated | Checked | Committed | RolledBack

  datatype Caller = Waiting | HasRows | Rejected

  /** `settled`: the transaction's outcome has reached this process. */
  datatype Call = Call(tx: Tx, rows: nat, timedOut: bool, caller: Caller, settled: bool, handedBack: bool)

  datatype Step = TimerFires | Begin | Update(found: nat) | SecondCheck | Commit | Fault | Settle

  const Start := Call(Queued, 0, false, Waiting, false, false)

  predicate Can(c: Call, s: Step) {
    match s
    case TimerFires => !c.timedOut && c.caller.Waiting?   // cleared once the race is decided
    case Begin => c.tx.Queued?
    case Update(_) => c.tx.Open?
    case SecondCheck => c.tx.Updated?
    case Commit => c.tx.Checked?
    case Fault => !c.tx.Committed? && !c.tx.RolledBack?
    case Settle => (c.tx.Committed? || c.tx.RolledBack?) && !c.settled
  }

  function Do(c: Call, s: Step): Call
    requires Can(c, s)
  {
    match s
    case TimerFires => c.(timedOut := true, caller := Rejected)
    case Begin => c.(tx := if c.timedOut then RolledBack else Open)
    case Update(found) => c.(tx := Updated, rows := found)
    case SecondCheck => c.(tx := if c.timedOut then RolledBack else Checked)
    case Commit => c.(tx := Committed)
    case Fault => c.(tx := RolledBack)
    case Settle =>
      if c.tx.Committed? then
        c.(settled := true,
           handedBack := c.timedOut && c.rows > 0,
           caller := if c.caller.Waiting? then HasRows else c.caller)
      else c.(settled := true, caller := Rejected)
  }

  ghost predicate Legal(steps: seq<Step>)
    decreases |steps|, 0
  {
    steps == [] || (var n := |steps| - 1; Legal(steps[..n]) && Can(Run(steps[..n]), steps[n]))
  }

  ghost function Run(steps: seq<Step>): Call
    requires Legal(steps)
    decreases |steps|, 1
  {
    if steps == [] then Start else var n := |steps| - 1; Do(Run(steps[..n]), steps[n])
  }

  ghost predicate Inv(c: Call) {
    && (c.timedOut ==> c.caller.Rejected?)
    && (c.caller.HasRows? ==> c.settled && c.tx.Committed? && !c.timedOut)
    && (c.caller.Waiting? ==> !c.settled)
    && (c.caller.Rejected? ==> c.timedOut || (c.settled && c.tx.RolledBack?))
    && (c.settled ==> c.tx.Committed? || c.tx.RolledBack?)
    && (c.handedBack <==> c.settled && c.tx.Committed? && c.timedOut && c.rows > 0)
    && (c.settled && c.tx.Committed? && !c.timedOut ==> c.caller.HasRows?)
  }

  lemma {:induction false} RunKeepsInv(steps: seq<Step>)
    requires Legal(steps)
    ensures Inv(Run(steps))
    decreases |steps|
  {
    if steps != [] { RunKeepsInv(steps[..|steps| - 1]); }
  }

  /**
   * Once both sides are done, exactly one holds: the caller has the rows,
   * the transaction rolled back, the committed rows are handed back, or a
   * late commit had claimed nothing.
   */
  lemma ClaimNeverOrphans(steps: seq<Step>)
    requires Legal(steps) && Run(steps).settled
    ensures var c := Run(steps);
      var got, rolled, back, empty := c.caller.HasRows?, c.tx.RolledBack?, c.handedBack, c.tx.Committed? && c.timedOut && c.rows == 0;
      && (got || rolled || back || empty)
      && !(got && rolled) && !(got && back) && !(got && empty) && !(rolled && back) && !(rolled && empty) && !(back && empty)
      && !c.caller.Waiting?
  {
    RunKeepsInv(steps);
  }

  /** A timer that fires while the call still waits for a connection: the UPDATE is never even run. */
  lemma {:induction false} TimeoutInTheQueueUpdatesNothing(before: seq<Step>, after: seq<Step>)
    requires Legal(before) && Legal(before + after) && Run(before).timedOut && Run(before).tx.Queued?
    ensures var c := Run(before + after); c.timedOut && (c.tx.Queued? || c.tx.RolledBack?) && c.rows == Run(before).rows
    decreases |after|
  {
    if after == [] {
      assert before + after == before;
    } else {
      var n := |after| - 1;
      assert (before + after)[..|before + after| - 1] == before + after[..n];
      assert (before + after)[|before + after| - 1] == after[n];
      TimeoutInTheQueueUpdatesNothing(before, after[..n]);
    }
  }

  /** A fault before the commit rolls back for good, and the caller sees a rejection. */
  lemma {:induction false} FaultCommitsNothing(before: seq<Step>, after: seq<Step>)
    requires Legal(before) && Can(Run(before), Fault) && Legal(before + [Fault] + after)
    ensures var c := Run(before + [Fault] + after); c.tx.RolledBack? && (c.settled ==> c.caller.Rejected?) && !c.handedBack
    decreases |after|
  {
    var all := before + [Fault] + after;
    if after == [] {
      assert all[..|all| - 1] == before && all[|all| - 1] == Fault;
      RunKeepsInv(before);
    } else {
      var n := |after| - 1;
      assert all[..|all| - 1] == before + [Fault] + after[..n] && all[|all| - 1] == after[n];
      FaultCommitsNothing(before, after[..n]);
    }
  }

  /** The timer firing before the second check rolls the claim back: nothing commits after it. */
  lemma {:induction false} EarlyTimeoutRollsBack(before: seq<Step>, after: seq<Step>)
    requires Legal(before + after)
    requires Legal(before) && Run(before).timedOut
    requires var tx := Run(before).tx; tx.Queued? || tx.Open? || tx.Updated? || tx.RolledBack?
    ensures var tx := Run(before + after).tx; tx.Queued? || tx.Open? || tx.Updated? || tx.RolledBack?
    ensures Run(before + after).timedOut
    decreases |after|
  {
    if after == [] {
      assert before + after == before;
    } else {
      var n := |after| - 1;
      assert (before + after)[..|before + after| - 1] == before + after[..n];
      EarlyTimeoutRollsBack(before, after[..n]);
    }
  }
}
