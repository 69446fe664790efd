/**
 * Scheduled jobs (src/services/scheduled-jobs.service.ts:190-329) and the
 * emails their handlers enqueue. Runs may crash, be abandoned by the handler
 * timeout, or be claimed again when their lock goes stale.
 */
module ScheduledJobs {
  import opened Tables
  import opened Text
  import opened Keys
  import O = EmailOutbox
  import Selection

  const STALE_JOB_LOCK_MS := 900_000

  // ---- idempotency keys ----

  /** `stamp` is the fire time as toISOString writes it. */
  function JobKey(kind: string, job: string, stamp: string, suffix: string): string {
    "job:" + (kind + ":" + (job + ":" + (stamp + ":" + suffix)))
  }

  lemma {:induction false} TrimEndBehind(p: string, x: string)
    requires p != "" && !IsSpace(p[|p| - 1])
    ensures TrimEnd(p + x) == p + TrimEnd(x)
    decreases |x|
  {
    var s := p + x;
    if x == "" {
      assert s == p;
    } else {
      assert s[|s| - 1] == x[|x| - 1];
      assert s[..|s| - 1] == p + x[..|x| - 1];
      if IsSpace(x[|x| - 1]) { TrimEndBehind(p, x[..|x| - 1]); }
    }
  }

  /** Storing the key trims it: only white space at the end of the suffix is lost. */
  lemma StoredJobKey(kind: string, job: string, stamp: string, suffix: string)
    ensures O.StoredKey(Some(JobKey(kind, job, stamp, suffix))) == Some(JobKey(kind, job, stamp, TrimEnd(suffix)))
  {
    var p := "job:" + (kind + ":" + (job + ":" + (stamp + ":")));
    KeyIsPrefixAndSuffix(kind, job, stamp, suffix);
    KeyIsPrefixAndSuffix(kind, job, stamp, TrimEnd(suffix));
    TrimEndBehind(p, suffix);
  }

  lemma KeyIsPrefixAndSuffix(kind: string, job: string, stamp: string, suffix: string)
    ensures var p := "job:" + (kind + ":" + (job + ":" + (stamp + ":")));
      && JobKey(kind, job, stamp, suffix) == p + suffix
      && p[|p| - 1] == ':' && TrimStart(p + suffix) == p + suffix && p + suffix != ""
  {
    var p := "job:" + (kind + ":" + (job + ":" + (stamp + ":")));
    assert (p + suffix)[0] == 'j';
  }

  /** Two keys are stored alike exactly when job, fire time and suffix are, up to white space at the suffix's end. */
  lemma JobKeysMeet(kind: string, job: string, stamp: string, suffix: string,
                    kind': string, job': string, stamp': string, suffix': string)
    requires ColonFree(kind) && ColonFree(kind') && ColonFree(job) && ColonFree(job')
    requires |stamp| == |stamp'|
    ensures O.StoredKey(Some(JobKey(kind, job, stamp, suffix))) == O.StoredKey(Some(JobKey(kind', job', stamp', suffix')))
       <==> kind == kind' && job == job' && stamp == stamp' && TrimEnd(suffix) == TrimEnd(suffix')
  {
    StoredJobKey(kind, job, stamp, suffix);
    StoredJobKey(kind', job', stamp', suffix');
    var l, r := TrimEnd(suffix), TrimEnd(suffix');
    if JobKey(kind, job, stamp, l) == JobKey(kind', job', stamp', r) {
      KeyParts(kind, job, stamp, l, kind', job', stamp', r);
    }
  }

  lemma KeyParts(kind: string, job: string, stamp: string, suffix: string,
                 kind': string, job': string, stamp': string, suffix': string)
    requires ColonFree(kind) && ColonFree(kind') && ColonFree(job) && ColonFree(job')
    requires |stamp| == |stamp'|
    requires JobKey(kind, job, stamp, suffix) == JobKey(kind', job', stamp', suffix')
    ensures kind == kind' && job == job' && stamp == stamp' && suffix == suffix'
  {
    var a2, b2 := stamp + ":" + suffix, stamp' + ":" + suffix';
    var a1, b1 := job + ":" + a2, job' + ":" + b2;
    var a0, b0 := kind + ":" + a1, kind' + ":" + b1;
    assert ("job:" + a0)[4..] == a0 && ("job:" + b0)[4..] == b0;
    CutAtColon(kind, a1, kind', b1);
    CutAtColon(job, a2, job', b2);
    assert a2[..|stamp|] == stamp && b2[..|stamp'|] == stamp';
    assert a2[|stamp| + 1..] == suffix && b2[|stamp'| + 1..] == suffix';
  }

  // ---- jobs, runs and the outbox ----

  datatype JobRow = JobRow(kind: string, enabled: bool, nextRunAt: Time, lockedAt: Option<Time>)

  /** One claim of a job; `now` is the tick clock. */
  datatype JobRun = JobRun(job: string, kind: string, scheduledFor: Time, now: Time, finished: bool)

  /** `kinds` remembers every job ever created; ids are not used again. */
  datatype World = World(
    jobs: map<string, JobRow>,
    kinds: map<string, string>,
    runs: seq<JobRun>,
    outbox: seq<O.OutboxRow>,
    clock: Time)

  const Fresh := World(map[], map[], [], [], 0)

  predicate IsDue(row: JobRow, now: Time) {
    && row.enabled && row.nextRunAt <= now
    && (row.lockedAt.None? || row.lockedAt.value + STALE_JOB_LOCK_MS < now)
  }

  /** The row after a run: later than the tick clock, or disabled. */
  function Finished(row: JobRow, next: Option<Time>): JobRow {
    if next.Some? then row.(lockedAt := None, nextRunAt := next.value) else row.(lockedAt := None, enabled := false)
  }

  /** The formatted fire time: 24 characters and one-to-one up to the year 9999. */
  ghost predicate FixedWidth(iso: Time -> string) {
    && (forall t: Time :: t < YEAR_10000 ==> |iso(t)| == 24)
    && (forall t: Time, u: Time :: t < YEAR_10000 && u < YEAR_10000 && iso(t) == iso(u) ==> t == u)
  }

  const YEAR_10000: Time := 253_402_300_800_000

  function KeyOf(run: JobRun, suffix: string, iso: Time -> string): string {
    JobKey(run.kind, run.job, iso(run.scheduledFor), suffix)
  }

  datatype Step =
    | ClockAdvances(until: Time)
    | Creates(job: string, kind: string, enabled: bool, first: Time)
    | Edits(job: string, enabled: bool, rescheduled: Option<Time>)
    | Deletes(job: string)
    | Claims(job: string)
    | EnqueuesKeyed(run: nat, suffix: string, email: O.Email)
    | EnqueuesOther(email: O.Email)
    | Delivers(row: nat, action: O.RowAction)
    | Finishes(run: nat, next: Option<Time>)

  predicate Can(w: World, s: Step) {
    match s
    case ClockAdvances(until) => w.clock <= until
    case Creates(job, kind, _, first) => job !in w.kinds && ColonFree(job) && ColonFree(kind) && w.clock < first
    case Edits(job, _, rescheduled) => job in w.jobs && (rescheduled.Some? ==> w.clock < rescheduled.value)
    case Deletes(job) => job in w.jobs
    case Claims(job) => job in w.jobs && IsDue(w.jobs[job], w.clock)
    case EnqueuesKeyed(run, _, _) => run < |w.runs|
    case EnqueuesOther(_) => true
    case Delivers(row, _) => row < |w.outbox|
    case Finishes(run, next) =>
      run < |w.runs| && !w.runs[run].finished && (next.Some? ==> w.runs[run].now < next.value)
  }

  function AfterClaim(w: World, job: string): World
    requires job in w.jobs
  {
    var row := w.jobs[job];
    w.(jobs := w.jobs[job := row.(lockedAt := Some(w.clock))],
       runs := w.runs + [JobRun(job, row.kind, row.nextRunAt, w.clock, false)])
  }

  /** The write is by id alone, whoever holds the lock by now. */
  function AfterFinish(w: World, run: nat, next: Option<Time>): World
    requires run < |w.runs|
  {
    var r := w.runs[run];
    w.(runs := w.runs[run := r.(finished := true)],
       jobs := if r.job in w.jobs then w.jobs[r.job := Finished(w.jobs[r.job], next)] else w.jobs)
  }

  function AfterEdit(row: JobRow, enabled: bool, rescheduled: Option<Time>): JobRow {
    row.(enabled := enabled, nextRunAt := if rescheduled.Some? then rescheduled.value else row.nextRunAt)
  }

  function Do(w: World, s: Step, iso: Time -> string): World
    requires Can(w, s)
  {
    match s
    case ClockAdvances(until) => w.(clock := until)
    case Creates(job, kind, enabled, first) =>
      w.(jobs := w.jobs[job := JobRow(kind, enabled, first, None)], kinds := w.kinds[job := kind])
    case Edits(job, enabled, rescheduled) => w.(jobs := w.jobs[job := AfterEdit(w.jobs[job], enabled, rescheduled)])
    case Deletes(job) => w.(jobs := w.jobs - {job})
    case Claims(job) => AfterClaim(w, job)
    case EnqueuesKeyed(run, suffix, email) =>
      w.(outbox := O.Enqueue(w.outbox, email.(idempotencyKey := Some(KeyOf(w.runs[run], suffix, iso))), w.clock).0)
    case EnqueuesOther(email) => w.(outbox := O.Enqueue(w.outbox, email, w.clock).0)
    case Delivers(row, action) => w.(outbox := w.outbox[row := O.Acted(w.outbox[row], action)])
    case Finishes(run, next) => AfterFinish(w, run, next)
  }

  /** What happens to jobs and rows from outside: an edit switches and reschedules, a deletion ends later claims, a queued row goes through its states. */
  lemma OutsideStepsMean(w: World, s: Step, iso: Time -> string)
    requires Can(w, s)
    ensures s.Edits? ==>
      var was, row := w.jobs[s.job], Do(w, s, iso).jobs[s.job];
      && row.enabled == s.enabled && row.kind == was.kind && row.lockedAt == was.lockedAt
      && row.nextRunAt == if s.rescheduled == None then was.nextRunAt else s.rescheduled.value
    ensures s.Deletes? ==> !Can(Do(w, s, iso), Claims(s.job)) && Do(w, s, iso).runs == w.runs
    ensures s.EnqueuesOther? ==> Do(w, s, iso).outbox == O.Enqueue(w.outbox, s.email, w.clock).0
    ensures s.Delivers? ==>
      |Do(w, s, iso).outbox| == |w.outbox| && Do(w, s, iso).outbox[s.row] == O.Acted(w.outbox[s.row], s.action)
  {
  }

  ghost predicate Legal(steps: seq<Step>, iso: Time -> string)
    decreases |steps|, 0
  {
    steps == [] || (var n := |steps| - 1; Legal(steps[..n], iso) && Can(Run(steps[..n], iso), steps[n]))
  }

  ghost function Run(steps: seq<Step>, iso: Time -> string): World
    requires Legal(steps, iso)
    decreases |steps|, 1
  {
    if steps == [] then Fresh else var n := |steps| - 1; Do(Run(steps[..n], iso), steps[n], iso)
  }

  // ---- at most one email ----

  ghost predicate Inv(w: World) {
    && O.KeysUnique(w.outbox)
    && (forall j <- w.jobs :: j in w.kinds && w.kinds[j] == w.jobs[j].kind)
    && (forall j <- w.kinds :: ColonFree(j) && ColonFree(w.kinds[j]))
    && (forall r <- w.runs :: r.job in w.kinds && w.kinds[r.job] == r.kind && r.scheduledFor <= r.now <= w.clock)
  }

  lemma EnqueueKeepsKeys(rows: seq<O.OutboxRow>, input: O.Email, now: Time)
    requires O.KeysUnique(rows)
    ensures O.KeysUnique(O.Enqueue(rows, input, now).0) && rows <= O.Enqueue(rows, input, now).0
  {
  }

  lemma StepKeepsInv(w: World, s: Step, iso: Time -> string)
    requires Inv(w) && Can(w, s)
    ensures Inv(Do(w, s, iso))
  {
    match s
    case EnqueuesKeyed(run, suffix, email) =>
      EnqueueKeepsKeys(w.outbox, email.(idempotencyKey := Some(KeyOf(w.runs[run], suffix, iso))), w.clock);
    case EnqueuesOther(email) => EnqueueKeepsKeys(w.outbox, email, w.clock);
    case _ =>
  }

  lemma {:induction false} RunKeepsInv(steps: seq<Step>, iso: Time -> string)
    requires Legal(steps, iso)
    ensures Inv(Run(steps, iso))
    decreases |steps|
  {
    if steps != [] {
      var n := |steps| - 1;
      RunKeepsInv(steps[..n], iso);
      StepKeepsInv(Run(steps[..n], iso), steps[n], iso);
    }
  }

  /** The row an enqueue with the job's key stands for. */
  ghost predicate IsEmailOf(w: World, row: nat, run: nat, suffix: string, iso: Time -> string) {
    && row < |w.outbox| && run < |w.runs|
    && w.outbox[row].idempotencyKey == O.StoredKey(Some(KeyOf(w.runs[run], suffix, iso)))
  }

  /** The same fire of the same job, and the same suffix up to white space at its end. */
  predicate SameEmail(w: World, run: nat, suffix: string, run': nat, suffix': string)
    requires run < |w.runs| && run' < |w.runs|
  {
    && w.runs[run].job == w.runs[run'].job && w.runs[run].scheduledFor == w.runs[run'].scheduledFor
    && TrimEnd(suffix) == TrimEnd(suffix')
  }

  lemma SameKeyIffSameEmail(w: World, run: nat, suffix: string, run': nat, suffix': string, iso: Time -> string)
    requires Inv(w) && FixedWidth(iso) && run < |w.runs| && run' < |w.runs|
    requires w.runs[run].scheduledFor < YEAR_10000 && w.runs[run'].scheduledFor < YEAR_10000
    ensures O.StoredKey(Some(KeyOf(w.runs[run], suffix, iso))) == O.StoredKey(Some(KeyOf(w.runs[run'], suffix', iso)))
       <==> SameEmail(w, run, suffix, run', suffix')
  {
    var a, b := w.runs[run], w.runs[run'];
    assert a in w.runs && b in w.runs;
    JobKeysMeet(a.kind, a.job, iso(a.scheduledFor), suffix, b.kind, b.job, iso(b.scheduledFor), suffix');
  }

  /**
   * Over any run with crashes, stale re-claims and re-runs: a job's fire and
   * a suffix have at most one row in the outbox, and no other fire, job or
   * suffix shares it.
   */
  lemma OneRowPerFireAndSuffix(steps: seq<Step>, iso: Time -> string, row: nat, run: nat, suffix: string,
                               row': nat, run': nat, suffix': string)
    requires Legal(steps, iso) && FixedWidth(iso)
    requires IsEmailOf(Run(steps, iso), row, run, suffix, iso) && IsEmailOf(Run(steps, iso), row', run', suffix', iso)
    requires Run(steps, iso).runs[run].scheduledFor < YEAR_10000 && Run(steps, iso).runs[run'].scheduledFor < YEAR_10000
    ensures row == row' <==> SameEmail(Run(steps, iso), run, suffix, run', suffix')
  {
    var w := Run(steps, iso);
    RunKeepsInv(steps, iso);
    SameKeyIffSameEmail(w, run, suffix, run', suffix', iso);
    StoredJobKey(w.runs[run].kind, w.runs[run].job, iso(w.runs[run].scheduledFor), suffix);
  }

  lemma EnqueueFinds(rows: seq<O.OutboxRow>, input: O.Email, now: Time, row: nat)
    requires O.KeysUnique(rows) && row < |rows| && O.Problem(input).None?
    requires O.StoredKey(input.idempotencyKey).Some? && rows[row].idempotencyKey == O.StoredKey(input.idempotencyKey)
    ensures O.Enqueue(rows, input, now) == (rows, O.Queued(row, false))
  {
  }

  /** So a second run of the same fire finds the first one's email and queues nothing. */
  lemma RerunQueuesNothing(steps: seq<Step>, iso: Time -> string, row: nat, run: nat, rerun: nat, suffix: string,
                           email: O.Email, now: Time)
    requires Legal(steps, iso) && IsEmailOf(Run(steps, iso), row, run, suffix, iso)
    requires rerun < |Run(steps, iso).runs| && SameEmail(Run(steps, iso), run, suffix, rerun, suffix)
    requires email.idempotencyKey == Some(KeyOf(Run(steps, iso).runs[rerun], suffix, iso)) && O.Problem(email).None?
    ensures O.Enqueue(Run(steps, iso).outbox, email, now) == (Run(steps, iso).outbox, O.Queued(row, false))
  {
    var w := Run(steps, iso);
    RunKeepsInv(steps, iso);
    var a, b := w.runs[run], w.runs[rerun];
    assert a in w.runs && b in w.runs;
    assert KeyOf(a, suffix, iso) == KeyOf(b, suffix, iso);
    StoredJobKey(a.kind, a.job, iso(a.scheduledFor), suffix);
    EnqueueFinds(w.outbox, email, now, row);
  }

  lemma StepKeepsQueued(w: World, s: Step, iso: Time -> string, row: nat)
    requires Can(w, s) && row < |w.outbox|
    ensures row < |Do(w, s, iso).outbox| && Do(w, s, iso).outbox[row].idempotencyKey == w.outbox[row].idempotencyKey
  {
  }

  /** And a queued email keeps its row and key for the rest of the run. */
  lemma {:induction false} QueuedEmailStays(steps: seq<Step>, iso: Time -> string, n: nat, row: nat)
    requires Legal(steps, iso) && n <= |steps| && Legal(steps[..n], iso) && row < |Run(steps[..n], iso).outbox|
    ensures row < |Run(steps, iso).outbox|
    ensures Run(steps, iso).outbox[row].idempotencyKey == Run(steps[..n], iso).outbox[row].idempotencyKey
    decreases |steps|
  {
    if n == |steps| {
      assert steps[..n] == steps;
    } else {
      var m := |steps| - 1;
      assert steps[..m][..n] == steps[..n];
      QueuedEmailStays(steps[..m], iso, n, row);
      StepKeepsQueued(Run(steps[..m], iso), steps[m], iso, row);
    }
  }

  // ---- the schedule ----

  /** The step is about the job's schedule: an edit, a deletion, the end of one of its runs. */
  predicate Reschedules(w: World, s: Step, job: string) {
    match s
    case Creates(j, _, _, _) => j == job
    case Edits(j, _, _) => j == job
    case Deletes(j) => j == job
    case Finishes(run, _) => run < |w.runs| && w.runs[run].job == job
    case _ => false
  }

  ghost predicate Unscheduled(steps: seq<Step>, iso: Time -> string, n: nat, job: string)
    requires Legal(steps, iso) && n <= |steps|
    decreases |steps|
  {
    n == |steps| ||
    (var m := |steps| - 1;
     !Reschedules(Run(steps[..m], iso), steps[m], job) && Unscheduled(steps[..m], iso, n, job))
  }

  /**
   * Between two such steps the fire time is fixed, however often the lock
   * goes stale and the job is claimed again: every claim services the same
   * fire and so uses the same keys.
   */
  lemma {:induction false} ReclaimsServiceTheSameFire(steps: seq<Step>, iso: Time -> string, n: nat, job: string)
    requires Legal(steps, iso) && n <= |steps| && Legal(steps[..n], iso)
    requires job in Run(steps[..n], iso).jobs && Unscheduled(steps, iso, n, job)
    ensures job in Run(steps, iso).jobs
    ensures Run(steps, iso).jobs[job].nextRunAt == Run(steps[..n], iso).jobs[job].nextRunAt
    ensures Run(steps, iso).jobs[job].enabled == Run(steps[..n], iso).jobs[job].enabled
    ensures Can(Run(steps, iso), Claims(job)) ==>
      AfterClaim(Run(steps, iso), job).runs[|Run(steps, iso).runs|].scheduledFor == Run(steps[..n], iso).jobs[job].nextRunAt
    decreases |steps|
  {
    if n == |steps| {
      assert steps[..n] == steps;
    } else {
      var m := |steps| - 1;
      assert steps[..m][..n] == steps[..n];
      ReclaimsServiceTheSameFire(steps[..m], iso, n, job);
    }
  }

  /**
   * A finished run leaves the job disabled or due only after its tick clock:
   * fires missed up to then collapse into the one that was serviced.
   */
  lemma FinishedRunMovesOn(steps: seq<Step>, iso: Time -> string, run: nat, next: Option<Time>, t: Time)
    requires Legal(steps, iso) && Can(Run(steps, iso), Finishes(run, next))
    requires Run(steps, iso).runs[run].job in Run(steps, iso).jobs
    ensures var w, after := Run(steps, iso), AfterFinish(Run(steps, iso), run, next);
      var row := after.jobs[w.runs[run].job];
      && row.lockedAt.None?
      && (IsDue(row, t) <==> row.enabled && next.Some? && next.value <= t)
      && (IsDue(row, t) ==> w.runs[run].scheduledFor <= w.runs[run].now < t)
  {
    RunKeepsInv(steps, iso);
    assert Run(steps, iso).runs[run] in Run(steps, iso).runs;
  }

  /**
   * Whether the schedule itself moves forward is another matter, because the
   * closing write is by id alone: it does, whatever the next fire, exactly
   * when the row's next fire is not past the run's tick clock yet.
   */
  lemma FinishMovesForwardIff(w: World, run: nat)
    requires run < |w.runs| && w.runs[run].job in w.jobs
    ensures (forall next: Time | w.runs[run].now < next ::
               w.jobs[w.runs[run].job].nextRunAt < AfterFinish(w, run, Some(next)).jobs[w.runs[run].job].nextRunAt)
       <==> w.jobs[w.runs[run].job].nextRunAt <= w.runs[run].now
  {
    var r := w.runs[run];
    var soonest: Time := r.now + 1;
    assert AfterFinish(w, run, Some(soonest)).jobs[r.job].nextRunAt == soonest;
  }

  /** That guard, on a step. */
  predicate NotOvertaken(w: World, s: Step) {
    s.Finishes? && s.run < |w.runs| && w.runs[s.run].job in w.jobs ==> w.jobs[w.runs[s.run].job].nextRunAt <= w.runs[s.run].now
  }

  /** Nobody edits or deletes the job. */
  predicate Unedited(steps: seq<Step>, job: string) {
    forall s <- steps :: !(s.Edits? && s.job == job) && !(s.Deletes? && s.job == job)
  }

  ghost predicate ForwardRun(steps: seq<Step>, iso: Time -> string) {
    steps == [] || (var n := |steps| - 1;
      ForwardRun(steps[..n], iso) && Legal(steps, iso) && NotOvertaken(Run(steps[..n], iso), steps[n]))
  }

  /** A closing write of the job that sets a next fire. */
  predicate IsAdvance(w: World, s: Step, job: string) {
    s.Finishes? && s.next.Some? && s.run < |w.runs| && w.runs[s.run].job == job
  }

  /** How many of them a run has. */
  ghost function Advances(steps: seq<Step>, iso: Time -> string, job: string): nat
    requires Legal(steps, iso)
    decreases |steps|
  {
    if steps == [] then 0
    else
      var n := |steps| - 1;
      Advances(steps[..n], iso, job) + (if IsAdvance(Run(steps[..n], iso), steps[n], job) then 1 else 0)
  }

  lemma StepMovesForward(w: World, s: Step, iso: Time -> string, job: string)
    requires Inv(w) && Can(w, s) && NotOvertaken(w, s) && Unedited([s], job) && job in w.jobs
    ensures job in Do(w, s, iso).jobs
    ensures w.jobs[job].nextRunAt + (if IsAdvance(w, s, job) then 1 else 0) <= Do(w, s, iso).jobs[job].nextRunAt
  {
    assert s in [s];
  }

  /** Over runs that keep the guard the schedule never moves back, and every closing write moves it on. */
  lemma {:induction false} ScheduleOnlyMovesForward(before: seq<Step>, after: seq<Step>, iso: Time -> string, job: string)
    requires Legal(before, iso) && Legal(before + after, iso) && ForwardRun(before + after, iso)
    requires job in Run(before, iso).jobs && Unedited(after, job)
    ensures job in Run(before + after, iso).jobs
    ensures Run(before, iso).jobs[job].nextRunAt + Advances(before + after, iso, job)
         <= Run(before + after, iso).jobs[job].nextRunAt + Advances(before, iso, job)
    decreases |after|
  {
    if after == [] {
      assert before + after == before;
    } else {
      var n := |after| - 1;
      var all := before + after;
      assert all[..|all| - 1] == before + after[..n] && all[|all| - 1] == after[n];
      assert after[n] in after;
      ScheduleOnlyMovesForward(before, after[..n], iso, job);
      RunKeepsInv(before + after[..n], iso);
      StepMovesForward(Run(before + after[..n], iso), after[n], iso, job);
    }
  }

  // ---- each fire once ----

  /** The fence the closing write lacks: the job still stands at the fire this run services. */
  predicate InTurn(w: World, s: Step) {
    s.Finishes? && s.run < |w.runs| && w.runs[s.run].job in w.jobs ==>
      w.jobs[w.runs[s.run].job].enabled && w.jobs[w.runs[s.run].job].nextRunAt == w.runs[s.run].scheduledFor
  }

  ghost predicate FencedRun(steps: seq<Step>, iso: Time -> string) {
    steps == [] || (var n := |steps| - 1;
      FencedRun(steps[..n], iso) && Legal(steps, iso) && InTurn(Run(steps[..n], iso), steps[n]))
  }

  /** The fires of the job that were closed, in order. */
  ghost function FiresDone(steps: seq<Step>, iso: Time -> string, job: string): seq<Time>
    requires Legal(steps, iso)
    decreases |steps|
  {
    if steps == [] then []
    else
      var n := |steps| - 1;
      var w := Run(steps[..n], iso);
      if steps[n].Finishes? && w.runs[steps[n].run].job == job
      then FiresDone(steps[..n], iso, job) + [w.runs[steps[n].run].scheduledFor]
      else FiresDone(steps[..n], iso, job)
  }

  predicate Increasing(fires: seq<Time>) { forall i, j :: 0 <= i < j < |fires| ==> fires[i] < fires[j] }

  /** Every run of the job is for the fire it stands at, or for one that was closed or passed by a closed one. */
  ghost predicate Accounted(w: World, done: seq<Time>, job: string) {
    && Increasing(done)
    && (job in w.jobs ==>
          && (done != [] ==> done[|done| - 1] <= w.jobs[job].nextRunAt)
          && (done != [] && w.jobs[job].enabled ==> done[|done| - 1] < w.jobs[job].nextRunAt))
    && (forall r <- w.runs :: r.job == job ==>
          && job in w.jobs && r.scheduledFor <= w.jobs[job].nextRunAt
          && ((w.jobs[job].enabled && r.scheduledFor == w.jobs[job].nextRunAt)
              || (done != [] && r.scheduledFor <= done[|done| - 1])))
  }

  lemma FinishKeepsAccounted(w: World, s: Step, iso: Time -> string, done: seq<Time>, job: string)
    requires Inv(w) && Accounted(w, done, job) && Can(w, s) && InTurn(w, s) && s.Finishes?
    ensures var now := if w.runs[s.run].job == job then done + [w.runs[s.run].scheduledFor] else done;
      Accounted(Do(w, s, iso), now, job)
  {
    assert w.runs[s.run] in w.runs;
  }

  lemma ClaimKeepsAccounted(w: World, s: Step, iso: Time -> string, done: seq<Time>, job: string)
    requires Inv(w) && Accounted(w, done, job) && Can(w, s) && s.Claims?
    ensures Accounted(Do(w, s, iso), done, job)
  {
  }

  lemma StepKeepsAccounted(w: World, s: Step, iso: Time -> string, done: seq<Time>, job: string)
    requires Inv(w) && Accounted(w, done, job) && Can(w, s) && InTurn(w, s) && Unedited([s], job)
    requires job !in w.kinds ==> done == []
    ensures var now := if s.Finishes? && w.runs[s.run].job == job then done + [w.runs[s.run].scheduledFor] else done;
      Accounted(Do(w, s, iso), now, job) && (job !in Do(w, s, iso).kinds ==> now == [])
  {
    assert s in [s];
    if s.Finishes? {
      assert w.runs[s.run] in w.runs;
      FinishKeepsAccounted(w, s, iso, done, job);
    } else if s.Claims? {
      ClaimKeepsAccounted(w, s, iso, done, job);
    } else if s.Creates? {
      CreateKeepsAccounted(w, s, iso, done, job);
    }
  }

  lemma CreateKeepsAccounted(w: World, s: Step, iso: Time -> string, done: seq<Time>, job: string)
    requires Inv(w) && Accounted(w, done, job) && Can(w, s) && s.Creates? && (job !in w.kinds ==> done == [])
    ensures Accounted(Do(w, s, iso), done, job) && (job !in Do(w, s, iso).kinds ==> done == [])
  {
  }

  lemma {:induction false} FencedRunIsAccounted(steps: seq<Step>, iso: Time -> string, job: string)
    requires Legal(steps, iso) && FencedRun(steps, iso) && Unedited(steps, job)
    ensures Accounted(Run(steps, iso), FiresDone(steps, iso, job), job)
    ensures job !in Run(steps, iso).kinds ==> FiresDone(steps, iso, job) == []
    decreases |steps|
  {
    if steps != [] {
      var n := |steps| - 1;
      FencedRunIsAccounted(steps[..n], iso, job);
      RunKeepsInv(steps[..n], iso);
      assert steps[n] in steps;
      StepKeepsAccounted(Run(steps[..n], iso), steps[n], iso, FiresDone(steps[..n], iso, job), job);
    }
  }

  /** With the fence each fire of an unedited job is closed at most once, and later fires later. */
  lemma FencedFiresCloseOnce(steps: seq<Step>, iso: Time -> string, job: string)
    requires Legal(steps, iso) && FencedRun(steps, iso) && Unedited(steps, job)
    ensures Increasing(FiresDone(steps, iso, job))
  {
    FencedRunIsAccounted(steps, iso, job);
  }

  /** And the fence is exact: after such a run, one more closing write keeps that if and only if it is in turn. */
  lemma FenceIsExact(steps: seq<Step>, iso: Time -> string, run: nat, next: Option<Time>)
    requires Legal(steps, iso) && FencedRun(steps, iso) && Can(Run(steps, iso), Finishes(run, next))
    requires Unedited(steps, Run(steps, iso).runs[run].job)
    ensures Legal(steps + [Finishes(run, next)], iso)
    ensures Increasing(FiresDone(steps + [Finishes(run, next)], iso, Run(steps, iso).runs[run].job))
       <==> InTurn(Run(steps, iso), Finishes(run, next))
  {
    var w := Run(steps, iso);
    var job := w.runs[run].job;
    var done := FiresDone(steps, iso, job);
    var all := steps + [Finishes(run, next)];
    Extend(steps, iso, Finishes(run, next));
    assert all[..|all| - 1] == steps;
    FencedRunIsAccounted(steps, iso, job);
    assert w.runs[run] in w.runs;
    OneMoreFire(done, w.runs[run].scheduledFor);
  }

  lemma OneMoreFire(done: seq<Time>, fire: Time)
    requires Increasing(done)
    ensures Increasing(done + [fire]) <==> done == [] || done[|done| - 1] < fire
  {
    var more := done + [fire];
    if done != [] { assert more[|done| - 1] == done[|done| - 1] && more[|done|] == fire; }
  }

  // ---- what a late closing write does ----

  lemma Extend(steps: seq<Step>, iso: Time -> string, s: Step)
    requires Legal(steps, iso) && Can(Run(steps, iso), s)
    ensures Legal(steps + [s], iso) && Run(steps + [s], iso) == Do(Run(steps, iso), s, iso)
  {
    var more := steps + [s];
    assert more[..|more| - 1] == steps && more[|more| - 1] == s;
  }

  /** Any job, claimed when due and, its lock stale, claimed again: two runs of one fire. */
  function TwoClaims(job: string, kind: string, first: Time, start: Time, late: Time): seq<Step> {
    [Creates(job, kind, true, first)] + [ClockAdvances(start)] + [Claims(job)] + [ClockAdvances(late)] + [Claims(job)]
  }

  predicate CanClaimTwice(job: string, kind: string, first: Time, start: Time, late: Time) {
    ColonFree(job) && ColonFree(kind) && 0 < first <= start && start + STALE_JOB_LOCK_MS < late
  }

  lemma ClaimedOnce(iso: Time -> string, job: string, kind: string, first: Time, start: Time)
    requires ColonFree(job) && ColonFree(kind) && 0 < first <= start
    ensures var steps := [Creates(job, kind, true, first)] + [ClockAdvances(start)] + [Claims(job)];
      && Legal(steps, iso)
      && Run(steps, iso) == World(map[job := JobRow(kind, true, first, Some(start))], map[job := kind],
                                  [JobRun(job, kind, first, start, false)], [], start)
  {
    assert [] + [Creates(job, kind, true, first)] == [Creates(job, kind, true, first)];
    Extend([], iso, Creates(job, kind, true, first));
    var one := [Creates(job, kind, true, first)];
    Extend(one, iso, ClockAdvances(start));
    Extend(one + [ClockAdvances(start)], iso, Claims(job));
  }

  lemma ClaimedTwice(iso: Time -> string, job: string, kind: string, first: Time, start: Time, late: Time)
    requires CanClaimTwice(job, kind, first, start, late)
    ensures var steps := TwoClaims(job, kind, first, start, late);
      && Legal(steps, iso)
      && Run(steps, iso) == World(map[job := JobRow(kind, true, first, Some(late))], map[job := kind],
                                  [JobRun(job, kind, first, start, false), JobRun(job, kind, first, late, false)], [], late)
  {
    ClaimedOnce(iso, job, kind, first, start);
    var once := [Creates(job, kind, true, first)] + [ClockAdvances(start)] + [Claims(job)];
    Extend(once, iso, ClockAdvances(late));
    Extend(once + [ClockAdvances(late)], iso, Claims(job));
  }

  /**
   * For every job and all such times: the second run finishes, then the first
   * one. Its write moves the schedule back, to a time that is due at once.
   */
  lemma LateFinishRewindsTheSchedule(iso: Time -> string, job: string, kind: string, first: Time, start: Time, late: Time,
                                     next: Time, stale: Time) returns (steps: seq<Step>)
    requires CanClaimTwice(job, kind, first, start, late) && late < next && start < stale <= late
    ensures steps == TwoClaims(job, kind, first, start, late) + [Finishes(1, Some(next))] + [Finishes(0, Some(stale))]
    ensures Legal(steps, iso) && Legal(steps[..6], iso) && job in Run(steps, iso).jobs && job in Run(steps[..6], iso).jobs
    ensures Run(steps[..6], iso).jobs[job].nextRunAt == next > Run(steps, iso).jobs[job].nextRunAt == stale
    ensures IsDue(Run(steps, iso).jobs[job], late)
  {
    ClaimedTwice(iso, job, kind, first, start, late);
    var claimed := TwoClaims(job, kind, first, start, late);
    Extend(claimed, iso, Finishes(1, Some(next)));
    Extend(claimed + [Finishes(1, Some(next))], iso, Finishes(0, Some(stale)));
    steps := claimed + [Finishes(1, Some(next))] + [Finishes(0, Some(stale))];
    assert steps[..6] == claimed + [Finishes(1, Some(next))];
  }

  /** Moving forward is not enough for once: in the other order both writes do, and close the same fire. */
  lemma ForwardFinishesCanCloseAFireTwice(iso: Time -> string, job: string, kind: string, first: Time, start: Time, late: Time,
                                          soon: Time, next: Time) returns (steps: seq<Step>)
    requires CanClaimTwice(job, kind, first, start, late) && start < soon <= late < next
    ensures steps == TwoClaims(job, kind, first, start, late) + [Finishes(0, Some(soon))] + [Finishes(1, Some(next))]
    ensures Legal(steps, iso) && Legal(steps[..5], iso) && Legal(steps[..6], iso)
    ensures NotOvertaken(Run(steps[..5], iso), steps[5]) && NotOvertaken(Run(steps[..6], iso), steps[6])
    ensures Run(steps[..5], iso).runs[0].scheduledFor == Run(steps[..6], iso).runs[1].scheduledFor == first
    ensures Run(steps, iso).runs[0].finished && Run(steps, iso).runs[1].finished
  {
    ClaimedTwice(iso, job, kind, first, start, late);
    var claimed := TwoClaims(job, kind, first, start, late);
    Extend(claimed, iso, Finishes(0, Some(soon)));
    Extend(claimed + [Finishes(0, Some(soon))], iso, Finishes(1, Some(next)));
    steps := claimed + [Finishes(0, Some(soon))] + [Finishes(1, Some(next))];
    assert steps[..5] == claimed && steps[..6] == claimed + [Finishes(0, Some(soon))];
  }

  // ---- the runner ----

  datatype RunDueResult = RunDueResult(claimed: nat, ok: nat, failed: nat)

  /** How one job goes: its handler, and the next fire after the tick clock; none also when it cannot be computed. */
  datatype Outcome = Outcome(handled: bool, next: Option<Time>, computed: bool)

  predicate IsOk(o: Outcome) { o.handled && o.computed }

  function CountOk(outcomes: seq<Outcome>): nat {
    if outcomes == [] then 0
    else CountOk(outcomes[..|outcomes| - 1]) + (if IsOk(outcomes[|outcomes| - 1]) then 1 else 0)
  }

  /** croner's next fire is later than the time it was asked about. */
  predicate MovesOn(o: Outcome, now: Time) {
    (o.next.Some? ==> now < o.next.value) && (!o.computed ==> o.next.None?)
  }

  /** The closing write: unlocked, and due at the next fire, or disabled if there is none. */
  predicate ClosedAs(was: JobRow, row: JobRow, next: Option<Time>) {
    && row.kind == was.kind && row.lockedAt == None
    && (next == None ==> !row.enabled && row.nextRunAt == was.nextRunAt)
    && (next != None ==> row.enabled == was.enabled && row.nextRunAt == next.value)
  }

  /** The jobs a claim may take. */
  function Claimables(jobs: map<string, JobRow>, locked: set<string>, now: Time): string -> bool {
    j => j in jobs && j !in locked && IsDue(jobs[j], now)
  }

  predicate Distinct(picks: seq<string>) { forall i, j :: 0 <= i < j < |picks| ==> picks[i] != picks[j] }

  /** The first `n` picks have had their closing write and are not due again; every other job is as it was. */
  predicate ClosedUpTo(before: map<string, JobRow>, jobs: map<string, JobRow>, now: Time,
                       picks: seq<string>, outcomes: seq<Outcome>, n: nat)
    requires n <= |picks| == |outcomes| && jobs.Keys == before.Keys && forall p <- picks :: p in jobs
  {
    && (forall k :: 0 <= k < n ==> jobs[picks[k]] == Finished(before[picks[k]], outcomes[k].next))
    && (forall k :: 0 <= k < n ==> !IsDue(jobs[picks[k]], now))
    && (forall k :: n <= k < |picks| ==> jobs[picks[k]] == before[picks[k]])
    && (forall j <- jobs :: j !in picks ==> jobs[j] == before[j])
  }

  lemma ClosesOneMore(before: map<string, JobRow>, jobs: map<string, JobRow>, now: Time,
                      picks: seq<string>, outcomes: seq<Outcome>, n: nat)
    requires n < |picks| == |outcomes| && jobs.Keys == before.Keys && forall p <- picks :: p in jobs
    requires Distinct(picks) && MovesOn(outcomes[n], now) && ClosedUpTo(before, jobs, now, picks, outcomes, n)
    ensures var after := jobs[picks[n] := Finished(jobs[picks[n]], outcomes[n].next)];
      after.Keys == before.Keys && ClosedUpTo(before, after, now, picks, outcomes, n + 1)
  {
    var after := jobs[picks[n] := Finished(jobs[picks[n]], outcomes[n].next)];
    forall k | 0 <= k < |picks| && k != n ensures after[picks[k]] == jobs[picks[k]] {
      assert picks[k] != picks[n];
    }
  }

  class JobRunner {
    var jobs: map<string, JobRow>

    constructor (jobs: map<string, JobRow>)
      ensures this.jobs == jobs
    {
      this.jobs := jobs;
    }

    method ExecuteOne(job: string, o: Outcome) returns (ok: bool)
      requires job in jobs && (!o.computed ==> o.next.None?)
      modifies this
      ensures jobs == old(jobs)[job := Finished(old(jobs)[job], o.next)]
      ensures ClosedAs(old(jobs)[job], jobs[job], o.next)
      ensures ok <==> o.handled && o.computed
      ensures forall now :: MovesOn(o, now) ==> !IsDue(jobs[job], now)
    {
      ok := o.handled;
      if !o.computed { ok := false; }
      var row := jobs[job];
      if o.next.Some? {
        jobs := jobs[job := row.(lockedAt := None, nextRunAt := o.next.value)];
      } else {
        jobs := jobs[job := row.(lockedAt := None, enabled := false)];
      }
    }

    /** The claim: one transaction that locks every selected row. */
    method ClaimJobs(now: Time, picks: seq<string>)
      requires Distinct(picks) && forall p <- picks :: p in jobs
      modifies this
      ensures jobs.Keys == old(jobs).Keys
      ensures forall p <- picks :: jobs[p] == old(jobs)[p].(lockedAt := Some(now))
      ensures forall j <- jobs :: j !in picks ==> jobs[j] == old(jobs)[j]
    {
      var c := 0;
      while c < |picks|
        invariant c <= |picks| && jobs.Keys == old(jobs).Keys
        invariant forall i :: 0 <= i < c ==> jobs[picks[i]] == old(jobs)[picks[i]].(lockedAt := Some(now))
        invariant forall i :: c <= i < |picks| ==> jobs[picks[i]] == old(jobs)[picks[i]]
        invariant forall j <- jobs :: j !in picks ==> jobs[j] == old(jobs)[j]
      {
        jobs := jobs[picks[c] := jobs[picks[c]].(lockedAt := Some(now))];
        c := c + 1;
      }
    }

    /** The loop over the claimed rows. */
    method ExecuteAll(now: Time, picks: seq<string>, outcomes: seq<Outcome>) returns (r: RunDueResult)
      requires |outcomes| == |picks| && Distinct(picks) && forall p <- picks :: p in jobs
      requires forall o <- outcomes :: MovesOn(o, now)
      modifies this
      ensures jobs.Keys == old(jobs).Keys
      ensures forall i :: 0 <= i < |picks| ==> jobs[picks[i]] == Finished(old(jobs)[picks[i]], outcomes[i].next)
      ensures forall i :: 0 <= i < |picks| ==> !IsDue(jobs[picks[i]], now)
      ensures forall j <- jobs :: j !in picks ==> jobs[j] == old(jobs)[j]
      ensures r.claimed == |picks| == r.ok + r.failed && r.ok == CountOk(outcomes)
    {
      r := RunDueResult(|picks|, 0, 0);
      var i := 0;
      while i < |picks|
        invariant i <= |picks| && jobs.Keys == old(jobs).Keys && ClosedUpTo(old(jobs), jobs, now, picks, outcomes, i)
        invariant r.claimed == |picks| && r.ok + r.failed == i && r.ok == CountOk(outcomes[..i])
      {
        ClosesOneMore(old(jobs), jobs, now, picks, outcomes, i);
        var ok := ExecuteOne(picks[i], outcomes[i]);
        assert outcomes[..i + 1][..i] == outcomes[..i];
        if ok { r := r.(ok := r.ok + 1); } else { r := r.(failed := r.failed + 1); }
        i := i + 1;
      }
      assert outcomes[..|picks|] == outcomes;
    }

    /**
     * One tick: `scan` is the order the query visits jobs in, `locked` what
     * other ticks are claiming, `running` how each run goes. Each claimed job
     * is run once, counted once, and not due again at this tick.
     */
    method RunDueScheduledJobs(now: Time, limit: int, scan: seq<string>, locked: set<string>, running: string -> Outcome)
      returns (r: RunDueResult, picks: seq<string>)
      requires Distinct(scan) && forall j <- scan :: j in jobs
      requires forall j <- scan :: MovesOn(running(j), now)
      modifies this
      ensures jobs.Keys == old(jobs).Keys
      // Claimed are the first jobs that may be: enabled, due, and unlocked or locked for over fifteen minutes.
      ensures |picks| <= Selection.Limit(limit, 200) && (forall p <- picks :: p in scan && p !in locked)
      ensures forall j <- scan :: j !in locked && (j in picks || |picks| < Selection.Limit(limit, 200)) ==>
        (j in picks <==>
           var row := old(jobs)[j];
           && row.enabled && row.nextRunAt <= now
           && (row.lockedAt == None || row.lockedAt.value + 900_000 < now))
      ensures Selection.FirstFree(picks, scan, Claimables(old(jobs), locked, now), Selection.Limit(limit, 200))
      ensures forall p <- picks :: ClosedAs(old(jobs)[p], jobs[p], running(p).next) && !IsDue(jobs[p], now)
      ensures forall j <- jobs :: j !in picks ==> jobs[j] == old(jobs)[j]
      ensures r.claimed == |picks| == r.ok + r.failed && r.ok == Selection.Count(picks, p => IsOk(running(p)))
    {
      picks := SelectDue(now, limit, scan, locked);
      ClaimJobs(now, picks);
      r := RunClaimed(now, picks, running);
    }

    /** The runs of the claimed jobs, one after the other. */
    method RunClaimed(now: Time, picks: seq<string>, running: string -> Outcome) returns (r: RunDueResult)
      requires Distinct(picks) && (forall p <- picks :: p in jobs && MovesOn(running(p), now))
      modifies this
      ensures jobs.Keys == old(jobs).Keys
      ensures forall p <- picks :: ClosedAs(old(jobs)[p], jobs[p], running(p).next) && !IsDue(jobs[p], now)
      ensures forall j <- jobs :: j !in picks ==> jobs[j] == old(jobs)[j]
      ensures r.claimed == |picks| == r.ok + r.failed && r.ok == Selection.Count(picks, p => IsOk(running(p)))
    {
      var outcomes := seq(|picks|, i requires 0 <= i < |picks| => running(picks[i]));
      assert forall i :: 0 <= i < |picks| ==> picks[i] in picks;
      r := ExecuteAll(now, picks, outcomes);
      CountsOk(picks, running, outcomes);
    }

    /** The query of the claim. */
    method SelectDue(now: Time, limit: int, scan: seq<string>, locked: set<string>) returns (picks: seq<string>)
      requires Distinct(scan) && forall j <- scan :: j in jobs
      ensures Selection.FirstFree(picks, scan, Claimables(jobs, locked, now), Selection.Limit(limit, 200))
      ensures Distinct(picks) && |picks| <= Selection.Limit(limit, 200)
      ensures forall p <- picks :: p in scan && p !in locked && p in jobs && IsDue(jobs[p], now)
      ensures |picks| < Selection.Limit(limit, 200) ==> forall j <- scan :: j !in locked && IsDue(jobs[j], now) ==> j in picks
    {
      picks := Selection.Select(scan, Claimables(jobs, locked, now), Selection.Limit(limit, 200));
      assert Selection.Distinct(scan);
      Selection.PicksAreFree(picks, scan, Claimables(jobs, locked, now), Selection.Limit(limit, 200));
    }
  }

  lemma {:induction false} CountsOk(picks: seq<string>, running: string -> Outcome, outcomes: seq<Outcome>)
    requires |outcomes| == |picks| && forall i :: 0 <= i < |picks| ==> outcomes[i] == running(picks[i])
    ensures CountOk(outcomes) == Selection.Count(picks, p => IsOk(running(p)))
  {
    if picks != [] {
      var n := |picks| - 1;
      CountsOk(picks[..n], running, outcomes[..n]);
    }
  }
}
