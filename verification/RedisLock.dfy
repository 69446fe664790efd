/**
 * The owner-checked lock of src/lib/redis.ts:186-318: SET NX with a token and
 * a TTL; refresh and release go WATCH, GET, MULTI/EXEC on a connection of
 * their own, so anything can happen between any two of these commands.
 */
module RedisLock {
  import opened Tables

  /** A random UUID in the source; here each acquisition draws the next number. */
  type LockToken = nat
  type Pod = nat

  datatype Entry = Entry(token: LockToken, expiresAt: Time)

  datatype Mutation = Expire(ttl: nat) | Del

  /** A guarded operation after WATCH: `seen` is what WATCH remembers, `matched` that GET returned the token. */
  datatype GuardedOp = GuardedOp(token: LockToken, mutation: Mutation, seen: nat, matched: bool)

  /** `version` counts the writes to the key; EXEC aborts if it moved since WATCH. */
  datatype World = World(
    key: Option<Entry>,
    version: nat,
    now: Time,
    nextToken: LockToken,
    held: map<Pod, LockToken>,
    retired: set<LockToken>,
    ops: map<nat, GuardedOp>)

  const Free := World(None, 0, 0, 0, map[], {}, map[])

  /** What GET returns. */
  function Live(w: World): Option<LockToken> {
    if w.key.Some? && w.now < w.key.value.expiresAt then Some(w.key.value.token) else None
  }

  /** Redis refuses a TTL below one. */
  function Ttl(seconds: nat): (s: nat)
    ensures s >= 1 && (seconds >= 1 ==> s == seconds)
  {
    if seconds == 0 then 1 else seconds
  }

  datatype Step =
    | TimePasses(until: Time)
    | Acquires(pod: Pod, ttl: nat, replyArrives: bool)
    | BeginsRefresh(pod: Pod, op: nat, ttl: nat)
    | BeginsRelease(pod: Pod, op: nat)
    | RetriesRelease(token: LockToken, op: nat)
    | Gets(op: nat)
    | Execs(op: nat, abortsOnExpiry: bool)
    | Drops(op: nat)

  predicate Can(w: World, s: Step) {
    match s
    case TimePasses(until) => w.now <= until
    case Acquires(_, _, _) => true
    case BeginsRefresh(pod, op, _) => pod in w.held && op !in w.ops
    case BeginsRelease(pod, op) => pod in w.held && op !in w.ops
    case RetriesRelease(token, op) => token in w.retired && op !in w.ops
    case Gets(op) => op in w.ops && !w.ops[op].matched
    case Execs(op, _) => op in w.ops && w.ops[op].matched
    case Drops(op) => op in w.ops
  }

  /** SET NX. The write can land although the reply is lost; the caller then holds nothing. */
  function AfterAcquire(w: World, pod: Pod, ttl: nat, replyArrives: bool): World {
    if Live(w).Some? then w
    else
      var token := w.nextToken;
      w.(key := Some(Entry(token, w.now + Ttl(ttl))), version := w.version + 1, nextToken := token + 1,
         held := if replyArrives then w.held[pod := token] else w.held)
  }

  function AfterWatch(w: World, op: nat, token: LockToken, mutation: Mutation): World {
    w.(ops := w.ops[op := GuardedOp(token, mutation, w.version, false)])
  }

  function AfterGet(w: World, op: nat): World
    requires op in w.ops
  {
    if Live(w) == Some(w.ops[op].token) then w.(ops := w.ops[op := w.ops[op].(matched := true)])
    else w.(ops := w.ops - {op})
  }

  /** What the queued command does to the key; a key that is gone is not touched. */
  function Mutated(w: World, mutation: Mutation): Option<Entry> {
    if Live(w).None? then w.key
    else match mutation
      case Expire(ttl) => Some(w.key.value.(expiresAt := w.now + Ttl(ttl)))
      case Del => None
  }

  /** EXEC runs unless the key was written, or (in newer servers) has expired, since WATCH. */
  predicate ExecRuns(w: World, op: nat, abortsOnExpiry: bool)
    requires op in w.ops
  {
    w.version == w.ops[op].seen && !(abortsOnExpiry && Live(w).None?)
  }

  function AfterExec(w: World, op: nat, abortsOnExpiry: bool): World
    requires op in w.ops
  {
    var done := w.(ops := w.ops - {op});
    if ExecRuns(w, op, abortsOnExpiry) then done.(key := Mutated(w, w.ops[op].mutation), version := w.version + 1) else done
  }

  function Do(w: World, s: Step): World
    requires Can(w, s)
  {
    match s
    case TimePasses(until) => w.(now := until)
    case Acquires(pod, ttl, replyArrives) => AfterAcquire(w, pod, ttl, replyArrives)
    case BeginsRefresh(pod, op, ttl) => AfterWatch(w, op, w.held[pod], Expire(ttl))
    case BeginsRelease(pod, op) =>
      AfterWatch(w.(held := w.held - {pod}, retired := w.retired + {w.held[pod]}), op, w.held[pod], Del)
    case RetriesRelease(token, op) => AfterWatch(w, op, token, Del)
    case Gets(op) => AfterGet(w, op)
    case Execs(op, abortsOnExpiry) => AfterExec(w, op, abortsOnExpiry)
    case Drops(op) => w.(ops := w.ops - {op})
  }

  /** A guarded operation goes on exactly if GET returned its token; otherwise it, and one that is dropped, is over and touched nothing. */
  lemma GetDecides(w: World, op: nat)
    requires op in w.ops && !w.ops[op].matched
    ensures var after := Do(w, Gets(op));
      && (op in after.ops <==> Live(w) == Some(w.ops[op].token)) && (op in after.ops ==> after.ops[op] == w.ops[op].(matched := true))
      && after.key == w.key && after.version == w.version
    ensures op !in Do(w, Drops(op)).ops && Do(w, Drops(op)).key == w.key
  {
  }

  ghost predicate Legal(steps: seq<Step>)
    decreases |steps|, 0
  {
    steps == [] || (var n := |steps| - 1; Legal(steps[..n]) && Can(Run(steps[..n]), steps[n]))
  }

  ghost function Run(steps: seq<Step>): World
    requires Legal(steps)
    decreases |steps|, 1
  {
    if steps == [] then Free else var n := |steps| - 1; Do(Run(steps[..n]), steps[n])
  }

  // ---- the invariant ----

  /** An operation whose EXEC can still run is looking at its own token. */
  ghost predicate OpSound(w: World, op: GuardedOp) {
    && op.token < w.nextToken
    && op.seen <= w.version
    && (op.matched && op.seen == w.version ==> w.key.Some? && w.key.value.token == op.token)
    && (op.mutation.Del? ==> op.token in w.retired)
  }

  ghost predicate Inv(w: World) {
    && (w.key.Some? ==> w.key.value.token < w.nextToken)
    && (forall p <- w.held :: w.held[p] < w.nextToken && w.held[p] !in w.retired)
    && (forall p, q :: p in w.held && q in w.held && w.held[p] == w.held[q] ==> p == q)
    && (forall t <- w.retired :: t < w.nextToken)
    && (forall o <- w.ops :: OpSound(w, w.ops[o]))
  }

  lemma StepKeepsInv(w: World, s: Step)
    requires Inv(w) && Can(w, s)
    ensures Inv(Do(w, s))
  {
  }

  lemma {:induction false} RunKeepsInv(steps: seq<Step>)
    requires Legal(steps)
    ensures Inv(Run(steps))
    decreases |steps|
  {
    if steps != [] {
      var n := |steps| - 1;
      RunKeepsInv(steps[..n]);
      StepKeepsInv(Run(steps[..n]), steps[n]);
    }
  }

  // ---- safety ----

  /** Under every interleaving: a refresh or release touches the key only while it still is its own lock. */
  lemma LateOperationNeverTouchesAPeersLock(steps: seq<Step>, op: nat, abortsOnExpiry: bool)
    requires Legal(steps) && Can(Run(steps), Execs(op, abortsOnExpiry))
    ensures var before, after := Run(steps), Do(Run(steps), Execs(op, abortsOnExpiry));
      && (after.key != before.key ==> Live(before) == Some(before.ops[op].token))
      && (Live(before) != Some(before.ops[op].token) ==> after.key == before.key)
  {
    RunKeepsInv(steps);
  }

  /** The pod has the lock: it has not called release, and the key still carries its token. */
  predicate Holds(w: World, pod: Pod) { pod in w.held && Live(w) == Some(w.held[pod]) }

  /** A pod that wins the key holds it under a token no pod had before, for the whole of its TTL. */
  lemma WinnerHoldsForItsTtl(steps: seq<Step>, pod: Pod, ttl: nat, until: Time)
    requires Legal(steps) && Live(Run(steps)).None?
    requires Run(steps).now <= until < Run(steps).now + Ttl(ttl)
    ensures var w, after := Run(steps), Do(Run(steps), Acquires(pod, ttl, true));
      && Holds(Do(after, TimePasses(until)), pod)
      && (forall p <- w.held :: w.held[p] != after.held[pod]) && after.held[pod] !in w.retired
  {
    RunKeepsInv(steps);
  }

  /** No two pods believe in the same lock, so at most one of them is right. */
  lemma OneOwnerAtATime(steps: seq<Step>, p: Pod, q: Pod)
    requires Legal(steps) && p in Run(steps).held && q in Run(steps).held
    requires Live(Run(steps)) == Some(Run(steps).held[p]) && Live(Run(steps)) == Some(Run(steps).held[q])
    ensures p == q
  {
    RunKeepsInv(steps);
  }

  predicate OutlivesItsTtl(w: World, s: Step) {
    s.TimePasses? && w.key.Some? && w.key.value.expiresAt <= s.until
  }

  lemma StepKeepsTheHolder(w: World, s: Step, pod: Pod)
    requires Inv(w) && Can(w, s) && Holds(w, pod)
    requires !OutlivesItsTtl(w, s)
    requires !(s.BeginsRelease? && s.pod == pod)
    ensures Holds(Do(w, s), pod) && Do(w, s).held[pod] == w.held[pod]
  {
  }

  /** From `n` on no TTL runs out and `pod` does not call release. */
  ghost predicate Undisturbed(steps: seq<Step>, n: nat, pod: Pod)
    requires Legal(steps) && n <= |steps|
    decreases |steps|
  {
    n == |steps| ||
    (var m := |steps| - 1;
     && !OutlivesItsTtl(Run(steps[..m]), steps[m])
     && !(steps[m].BeginsRelease? && steps[m].pod == pod)
     && Undisturbed(steps[..m], n, pod))
  }

  /** Until its own release or expiry a holder keeps the key, whatever all other pods and late operations do. */
  lemma {:induction false} HolderKeepsTheKey(steps: seq<Step>, n: nat, pod: Pod)
    requires Legal(steps) && n <= |steps| && Legal(steps[..n])
    requires Holds(Run(steps[..n]), pod) && Undisturbed(steps, n, pod)
    ensures Holds(Run(steps), pod) && Run(steps).held[pod] == Run(steps[..n]).held[pod]
    decreases |steps|
  {
    if n == |steps| {
      assert steps[..n] == steps;
    } else {
      var m := |steps| - 1;
      assert steps[..m][..n] == steps[..n];
      HolderKeepsTheKey(steps[..m], n, pod);
      RunKeepsInv(steps[..m]);
      StepKeepsTheHolder(Run(steps[..m]), steps[m], pod);
    }
  }

  /** Undisturbed by other writes, what began as the holder's own refresh or release takes effect. */
  lemma OwnOperationTakesEffect(steps: seq<Step>, op: nat, abortsOnExpiry: bool)
    requires Legal(steps) && Can(Run(steps), Execs(op, abortsOnExpiry))
    requires var w := Run(steps); w.version == w.ops[op].seen && Live(w).Some?
    ensures var w, after := Run(steps), Do(Run(steps), Execs(op, abortsOnExpiry));
      && (w.ops[op].mutation == Del ==> Live(after).None?)
      && (w.ops[op].mutation.Expire? ==>
            after.key == Some(Entry(w.ops[op].token, w.now + Ttl(w.ops[op].mutation.ttl))) && Live(after) == Live(w))
  {
    RunKeepsInv(steps);
  }

  // ---- the client ----

  /** The outcome of one command, as `run` hands it on. */
  datatype Reply<T> = Answered(value: T) | Failed

  /** How a command fares: an error may come before it reached the server or after it took effect there. */
  datatype Trip = Answers | ReplyLost | NeverArrives

  /** One process: its held locks, and the server's keys it talks to. */
  class LockClient {
    var heldLocks: map<string, LockToken>
    var keys: map<string, Entry>
    var now: Time
    var nextToken: LockToken

    ghost predicate Valid()
      reads this
    {
      && (forall name <- heldLocks :: heldLocks[name] < nextToken)
      && (forall name <- keys :: keys[name].token < nextToken)
    }

    function Get(name: string): Option<LockToken>
      reads this
    {
      if name in keys && now < keys[name].expiresAt then Some(keys[name].token) else None
    }

    constructor (now: Time)
      ensures Valid() && heldLocks == map[] && keys == map[] && this.now == now
    {
      heldLocks, keys, nextToken := map[], map[], 0;
      this.now := now;
    }

    /**
     * Fails open only when there is no client. An operation that errs is
     * reported as not acquired, although the key may have been set.
     */
    method AcquireLock(name: string, ttlSeconds: nat, hasClient: bool, trip: Trip) returns (ok: bool)
      requires Valid()
      modifies this
      ensures Valid() && now == old(now)
      ensures ok <==> !hasClient || (trip.Answers? && old(Get(name)).None?)
      ensures !(hasClient && ok) ==> heldLocks == old(heldLocks)
      ensures hasClient && ok ==> name in heldLocks && Get(name) == Some(heldLocks[name]) && heldLocks[name] >= old(nextToken)
      ensures keys == if hasClient && !trip.NeverArrives? && old(Get(name)).None?
                      then old(keys)[name := Entry(old(nextToken), now + Ttl(ttlSeconds))] else old(keys)
      ensures forall other :: other != name ==> Get(other) == old(Get(other))
    {
      if !hasClient { return true; }
      var token := nextToken;
      nextToken := nextToken + 1;
      var reply: Reply<bool> := Answered(false);
      if !trip.NeverArrives? && Get(name).None? {
        keys := keys[name := Entry(token, now + Ttl(ttlSeconds))];
        reply := Answered(true);
      }
      if !trip.Answers? { reply := Reply.Failed; }
      if reply == Answered(true) {
        heldLocks := heldLocks[name := token];
        return true;
      }
      return false;
    }

    /** Compare and run, nothing interleaved. */
    method GuardedLockOp(name: string, token: LockToken, mutation: Mutation) returns (applied: bool)
      requires Valid() && token < nextToken
      modifies this`keys
      ensures Valid()
      ensures applied <==> old(Get(name)) == Some(token)
      ensures !applied ==> keys == old(keys)
      ensures applied && mutation.Del? ==> keys == old(keys) - {name}
      ensures applied && mutation.Expire? ==> keys == old(keys)[name := Entry(token, now + Ttl(mutation.ttl))]
    {
      if Get(name) != Some(token) { return false; }
      keys := match mutation
        case Expire(ttl) => keys[name := Entry(token, now + Ttl(ttl))]
        case Del => keys - {name};
      return true;
    }

    method RefreshLock(name: string, ttlSeconds: nat) returns (ok: bool)
      requires Valid()
      modifies this`keys
      ensures Valid()
      ensures ok <==> name in heldLocks && old(Get(name)) == Some(heldLocks[name])
      ensures ok ==> keys == old(keys)[name := Entry(heldLocks[name], now + Ttl(ttlSeconds))]
      ensures !ok ==> keys == old(keys)
    {
      if name !in heldLocks { return false; }
      ok := GuardedLockOp(name, heldLocks[name], Expire(ttlSeconds));
    }

    method ReleaseLock(name: string)
      requires Valid()
      modifies this`heldLocks, this`keys
      ensures Valid()
      ensures heldLocks == old(heldLocks) - {name}
      ensures keys == if name in old(heldLocks) && old(Get(name)) == Some(old(heldLocks)[name]) then old(keys) - {name} else old(keys)
    {
      if name !in heldLocks { return; }
      var token := heldLocks[name];
      heldLocks := heldLocks - {name};
      var applied := GuardedLockOp(name, token, Del);
    }
  }
}
