/**
 * The timers and flags of src/jobs/event-consumer.ts. Each macrotask is one
 * step: `start`, `wake` and `stop` as called, a timer firing, the boot sync
 * settling, a tick settling.
 */
module ConsumerLoop {
  datatype Timer = NoTimer | BootTimer | TickTimer(delayMs: nat)

  /**
   * The module's fields, plus what is executing: `booting` and `ticking`
   * count boot syncs and ticks in progress, `strays` the timers that were
   * overwritten without being cleared. `ticks` counts tick starts.
   */
  datatype Loop = Loop(
    timer: Timer,
    running: bool,
    shuttingDown: bool,
    tickInFlight: bool,
    wakeRequested: bool,
    booting: nat,
    ticking: nat,
    strays: nat,
    ticks: nat)

  const Idle := Loop(NoTimer, false, false, false, false, 0, 0, 0, 0)

  /** `dormant`: a test environment or no database. */
  function Start(l: Loop, dormant: bool): Loop {
    if l.running || !l.timer.NoTimer? || dormant then l
    else l.(running := true, shuttingDown := false, wakeRequested := false, tickInFlight := true, timer := BootTimer)
  }

  function Wake(l: Loop): Loop {
    if !l.running || l.shuttingDown then l
    else if l.tickInFlight then l.(wakeRequested := true)
    else l.(timer := TickTimer(0))
  }

  /** The synchronous head of `tick()`. */
  function TickStarts(l: Loop): Loop {
    if l.shuttingDown then l
    else l.(timer := NoTimer, tickInFlight := true, wakeRequested := false, ticks := l.ticks + 1, ticking := l.ticking + 1)
  }

  function TimerFires(l: Loop): Loop
    requires !l.timer.NoTimer?
  {
    if l.timer.BootTimer? then l.(timer := NoTimer, booting := l.booting + 1) else TickStarts(l)
  }

  function BootSettles(l: Loop): Loop
    requires l.booting > 0
  {
    TickStarts(l.(booting := l.booting - 1, tickInFlight := false))
  }

  function TickSettles(l: Loop, fullBatch: bool, pollMs: nat): Loop
    requires l.ticking > 0
  {
    var done := l.(ticking := l.ticking - 1, tickInFlight := false);
    if l.shuttingDown then done
    else done.(wakeRequested := false,
               strays := if l.timer.NoTimer? then l.strays else l.strays + 1,
               timer := TickTimer(if fullBatch || l.wakeRequested then 0 else pollMs))
  }

  function Stop(l: Loop): Loop { l.(shuttingDown := true, running := false, timer := NoTimer) }

  datatype Step = Starts(dormant: bool) | Wakes | Fires | Booted | Ticked(fullBatch: bool, pollMs: nat) | Stops

  /** How many things will still run the loop on. */
  function Continuations(l: Loop): nat {
    (if l.timer.NoTimer? then 0 else 1) + l.booting + l.ticking + l.strays
  }

  predicate Enabled(l: Loop, s: Step) {
    match s
    case Fires => !l.timer.NoTimer?
    case Booted => l.booting > 0
    case Ticked(_, _) => l.ticking > 0
    case _ => true
  }

  function Do(l: Loop, s: Step): Loop
    requires Enabled(l, s)
  {
    match s
    case Starts(dormant) => Start(l, dormant)
    case Wakes => Wake(l)
    case Fires => TimerFires(l)
    case Booted => BootSettles(l)
    case Ticked(fullBatch, pollMs) => TickSettles(l, fullBatch, pollMs)
    case Stops => Stop(l)
  }

  ghost predicate Legal(steps: seq<Step>)
    decreases |steps|, 0
  {
    steps == [] || (var n := |steps| - 1; Legal(steps[..n]) && Enabled(Run(steps[..n]), steps[n]))
  }

  ghost function Run(steps: seq<Step>): Loop
    requires Legal(steps)
    decreases |steps|, 1
  {
    if steps == [] then Idle else var n := |steps| - 1; Do(Run(steps[..n]), steps[n])
  }

  /** A stopped consumer is started again only after what was in flight has settled. */
  predicate Patient(l: Loop, s: Step) {
    s.Starts? && !l.running ==> l.booting + l.ticking == 0
  }

  ghost predicate PatientRun(steps: seq<Step>) {
    steps == [] || (var n := |steps| - 1; PatientRun(steps[..n]) && Legal(steps) && Patient(Run(steps[..n]), steps[n]))
  }

  ghost predicate Inv(l: Loop) {
    && (l.running ==>
          && !l.shuttingDown && l.strays == 0 && Continuations(l) == 1
          && (l.tickInFlight <==> !l.timer.TickTimer?))
    && (!l.running ==>
          && l.timer.NoTimer? && l.strays == 0 && l.booting + l.ticking <= 1
          && (l.booting + l.ticking > 0 ==> l.shuttingDown))
  }

  lemma StepKeepsInv(l: Loop, s: Step)
    requires Inv(l) && Enabled(l, s) && Patient(l, s)
    ensures Inv(Do(l, s))
  {
  }

  lemma {:induction false} RunKeepsInv(steps: seq<Step>)
    requires Legal(steps) && PatientRun(steps)
    ensures Inv(Run(steps))
    decreases |steps|
  {
    if steps != [] {
      var n := |steps| - 1;
      RunKeepsInv(steps[..n]);
      StepKeepsInv(Run(steps[..n]), steps[n]);
    }
  }

  /**
   * While running there is exactly one continuation: one pending timer, or
   * one boot or tick executing. So ticks never overlap and the loop never
   * dies; once stopped, at most what was in flight is left and nothing is armed.
   */
  lemma ExactlyOneContinuation(steps: seq<Step>)
    requires Legal(steps) && PatientRun(steps)
    ensures var l := Run(steps);
      && l.booting + l.ticking <= 1
      && (l.running ==> Continuations(l) == 1)
      && (!l.running ==> l.timer.NoTimer? && l.strays == 0)
  {
    RunKeepsInv(steps);
  }

  /** A restart is safe exactly when nothing of the stopped loop is still executing. */
  lemma RestartIsSafeIffSettled(steps: seq<Step>)
    requires Legal(steps) && PatientRun(steps) && !Run(steps).running
    ensures Continuations(Start(Run(steps), false)) == 1 <==> Run(steps).booting + Run(steps).ticking == 0
    ensures Inv(Start(Run(steps), false)) <==> Run(steps).booting + Run(steps).ticking == 0
  {
    RunKeepsInv(steps);
  }

  lemma Then(steps: seq<Step>, s: Step)
    requires Legal(steps) && Enabled(Run(steps), s)
    ensures Legal(steps + [s]) && Run(steps + [s]) == Do(Run(steps), s)
  {
    var more := steps + [s];
    assert more[..|more| - 1] == steps && more[|more| - 1] == s;
  }

  /** stop() gives up waiting after its bound, so that state can be reached: the next tick end then leaves two timers. */
  lemma ImpatientRestartDoublesTheLoop(pollMs: nat) returns (steps: seq<Step>)
    ensures steps == [Starts(false)] + [Fires] + [Booted] + [Stops] + [Starts(false)] + [Ticked(false, pollMs)]
    ensures Legal(steps) && Continuations(Run(steps)) == 2
  {
    assert [] + [Starts(false)] == [Starts(false)];
    Then([], Starts(false));
    steps := [Starts(false)];
    Then(steps, Fires);
    steps := steps + [Fires];
    Then(steps, Booted);
    steps := steps + [Booted];
    Then(steps, Stops);
    steps := steps + [Stops];
    Then(steps, Starts(false));
    steps := steps + [Starts(false)];
    Then(steps, Ticked(false, pollMs));
    steps := steps + [Ticked(false, pollMs)];
  }

  // ---- wake-ups ----

  predicate Accepted(l: Loop) { l.running && !l.shuttingDown }

  /** Starting a tick is what moves the counter. */
  predicate StartsTick(l: Loop, s: Step)
    requires Enabled(l, s)
  {
    Do(l, s).ticks > l.ticks
  }

  /** An accepted wake is still owed its tick: nothing but a zero timer or work in progress lies ahead. */
  predicate Owed(l: Loop) {
    && l.running
    && (l.timer.TickTimer? ==> l.timer.delayMs == 0)
    && (l.ticking > 0 ==> l.wakeRequested)
  }

  /** Continuation steps until the tick an owed wake gets. */
  function Ahead(l: Loop): nat {
    if l.timer.TickTimer? then 1
    else if l.booting > 0 then 1
    else 2
  }

  lemma AcceptedWakeIsOwed(l: Loop)
    requires Inv(l) && Accepted(l)
    ensures Owed(Wake(l))
  {
  }

  /**
   * From an accepted wake on, every step either starts a tick, or is the
   * stop, or leaves the wake owed with no poll interval armed and, unless
   * it is yet another call, one step nearer to its tick.
   */
  lemma OwedWakeProgresses(l: Loop, s: Step)
    requires Inv(l) && Owed(l) && Enabled(l, s) && Patient(l, s) && !s.Stops?
    ensures StartsTick(l, s) || Owed(Do(l, s))
    ensures s.Fires? || s.Booted? || s.Ticked? ==> StartsTick(l, s) || Ahead(Do(l, s)) < Ahead(l)
    ensures s.Starts? || s.Wakes? ==> Ahead(Do(l, s)) <= Ahead(l)
  {
  }

  predicate Continues(s: Step) { s.Fires? || s.Booted? || s.Ticked? }

  lemma Unsnoc(steps: seq<Step>, s: Step)
    requires Legal(steps + [s]) && PatientRun(steps + [s])
    ensures Legal(steps) && PatientRun(steps) && Enabled(Run(steps), s) && Patient(Run(steps), s)
    ensures Run(steps + [s]) == Do(Run(steps), s)
  {
    var more := steps + [s];
    assert more[..|more| - 1] == steps && more[|more| - 1] == s;
  }

  lemma StepOwesOrTicks(l: Loop, s: Step, sofar: nat)
    requires Inv(l) && Enabled(l, s) && Patient(l, s) && !s.Stops?
    requires Owed(l) && Ahead(l) + sofar <= 2
    ensures StartsTick(l, s) || (Owed(Do(l, s)) && Ahead(Do(l, s)) + sofar + (if Continues(s) then 1 else 0) <= 2)
  {
    OwedWakeProgresses(l, s);
  }

  /** Over a run without a stop: a wake gets its tick within two continuation steps, whatever calls come between. */
  lemma {:induction false} WakeIsFollowedByATick(before: seq<Step>, after: seq<Step>)
    requires Legal(before) && PatientRun(before) && Accepted(Run(before))
    requires Legal(before + [Wakes] + after) && PatientRun(before + [Wakes] + after)
    requires forall s <- after :: !s.Stops?
    ensures var l := Run(before + [Wakes] + after);
      && l.ticks >= Run(before).ticks
      && (l.ticks == Run(before).ticks ==> Owed(l) && Ahead(l) + Continued(after) <= 2)
    decreases |after|
  {
    RunKeepsInv(before);
    if after == [] {
      assert before + [Wakes] + after == before + [Wakes];
      Unsnoc(before, Wakes);
      AcceptedWakeIsOwed(Run(before));
    } else {
      var n := |after| - 1;
      var prefix := before + [Wakes] + after[..n];
      assert before + [Wakes] + after == prefix + [after[n]];
      Unsnoc(prefix, after[n]);
      WakeIsFollowedByATick(before, after[..n]);
      RunKeepsInv(prefix);
      assert after[n] in after;
      if Run(prefix).ticks == Run(before).ticks { StepOwesOrTicks(Run(prefix), after[n], Continued(after[..n])); }
    }
  }

  /** Continuation steps in a stretch of the run. */
  function Continued(steps: seq<Step>): nat {
    if steps == [] then 0
    else Continued(steps[..|steps| - 1]) + (if Continues(steps[|steps| - 1]) then 1 else 0)
  }

  // ---- the module itself ----

  /** The fields of the module and the callbacks that update them. */
  class EventConsumer {
    var timer: Timer
    var running: bool
    var shuttingDown: bool
    var tickInFlight: bool
    var wakeRequested: bool
    var ticks: nat
    ghost var booting: nat
    ghost var ticking: nat
    ghost var strays: nat

    ghost function State(): Loop
      reads this
    {
      Loop(timer, running, shuttingDown, tickInFlight, wakeRequested, booting, ticking, strays, ticks)
    }

    constructor ()
      ensures State() == Idle
    {
      timer, running, shuttingDown, tickInFlight, wakeRequested, ticks := NoTimer, false, false, false, false, 0;
      booting, ticking, strays := 0, 0, 0;
    }

    method StartEventConsumer(dormant: bool)
      modifies this
      ensures State() == Start(old(State()), dormant)
      // A consumer that runs, or has a timer left, is not started a second time.
      ensures old(running) || old(timer) != NoTimer || dormant ==> State() == old(State())
      // Started anew it is one loop, which remembers wakes from the boot on, exactly if nothing of an old one is left.
      ensures !old(running) && Inv(old(State())) && !dormant ==>
        running && tickInFlight && (Continuations(State()) == 1 <==> old(booting) + old(ticking) == 0)
    {
      if running || timer != NoTimer { return; }
      if dormant { return; }
      running := true;
      shuttingDown := false;
      wakeRequested := false;
      tickInFlight := true;
      timer := BootTimer;
    }

    method WakeEventConsumer()
      modifies this
      ensures State() == Wake(old(State()))
      // An accepted wake is owed a tick without a poll interval in between, and starts no second loop.
      ensures Inv(old(State())) && Accepted(old(State())) ==>
        Owed(State()) && Inv(State()) && Continuations(State()) == 1
      ensures !Accepted(old(State())) ==> State() == old(State())
    {
      if !running || shuttingDown { return; }
      if tickInFlight {
        wakeRequested := true;
        return;
      }
      timer := TickTimer(0);
    }

    method Tick()
      modifies this
      ensures State() == TickStarts(old(State()))
    {
      if shuttingDown { return; }
      timer := NoTimer;
      tickInFlight := true;
      wakeRequested := false;
      ticks := ticks + 1;
      ticking := ticking + 1;
    }

    method OnTimer()
      requires timer != NoTimer
      modifies this
      ensures State() == TimerFires(old(State()))
    {
      if timer.BootTimer? {
        timer := NoTimer;
        booting := booting + 1;
      } else {
        Tick();
      }
    }

    method OnBootSynced()
      requires booting > 0
      modifies this
      ensures State() == BootSettles(old(State()))
    {
      booting := booting - 1;
      tickInFlight := false;
      if !shuttingDown { Tick(); }
    }

    method OnTickSettled(fullBatch: bool, pollMs: nat)
      requires ticking > 0
      modifies this
      ensures State() == TickSettles(old(State()), fullBatch, pollMs)
      // The next tick waits for the poll interval exactly if the batch was not full and no wake came meanwhile.
      ensures !old(shuttingDown) ==> timer.TickTimer?
      ensures !old(shuttingDown) && pollMs > 0 ==> (timer.delayMs == 0 <==> fullBatch || old(wakeRequested))
      // The loop goes on as one loop while it runs, and ends once it was stopped.
      ensures Inv(old(State())) && old(running) ==> Inv(State()) && Continuations(State()) == 1
      ensures Inv(old(State())) && !old(running) ==> Continuations(State()) == 0
    {
      ticking := ticking - 1;
      tickInFlight := false;
      if shuttingDown { return; }
      var delay := if fullBatch || wakeRequested then 0 else pollMs;
      wakeRequested := false;
      strays := if timer == NoTimer then strays else strays + 1;
      timer := TickTimer(delay);
    }

    method StopEventConsumer()
      modifies this
      ensures State() == Stop(old(State()))
      // Nothing stays armed, no wake arms anything, and what is in flight is all that is left.
      ensures timer == NoTimer && Wake(State()) == State()
      ensures Inv(old(State())) ==> Inv(State()) && Continuations(State()) == old(booting) + old(ticking) <= 1
    {
      shuttingDown := true;
      running := false;
      if timer != NoTimer { timer := NoTimer; }
    }
  }
}
