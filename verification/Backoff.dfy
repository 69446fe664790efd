/** Retry delays of a failed delivery (`computeBackoffMs`). */
module Backoff {
  const BASE_MS := 1_000
  const CAP_MS := 3_600_000

  function Min(a: int, b: int): int { if a < b then a else b }

  function Max(a: int, b: int): int { if a < b then b else a }

  function Pow2(n: nat): nat { if n == 0 then 1 else 2 * Pow2(n - 1) }

  /** The full, unjittered delay after `attempt` attempts. */
  function ExpMs(attempt: int): nat {
    Min(CAP_MS, BASE_MS * Pow2(Max(0, attempt - 1)))
  }

  /** Equal jitter: half of the delay is fixed, half is scaled by `random`. */
  function ComputeBackoffMs(attempt: int, random: real): int {
    var exp := ExpMs(attempt) as real;
    var r := if random < 0.0 then 0.0 else if random > 1.0 then 1.0 else random;
    (exp / 2.0 + r * (exp / 2.0) + 0.5).Floor
  }

  /** The delay `failDelivery` schedules: nothing once dead, else backoff floored at `minDelayMs`. */
  function FailDelayMs(attempts: nat, maxAttempts: nat, random: real, minDelayMs: nat): (delay: nat)
  {
    if attempts >= maxAttempts then 0
    else
      BackoffWithinHalf(attempts, random);
      Max(ComputeBackoffMs(attempts, random), minDelayMs)
  }

  lemma Pow2Grows(n: nat, m: nat)
    requires n <= m
    ensures Pow2(n) <= Pow2(m)
    decreases m - n
  {
    if n < m { Pow2Grows(n + 1, m); }
  }

  /** Twelve doublings stay under the hour, the thirteenth attempt hits the cap. */
  lemma ExpCases(attempt: nat)
    requires attempt >= 1
    ensures attempt <= 12 ==> ExpMs(attempt) == BASE_MS * Pow2(attempt - 1)
    ensures attempt >= 13 ==> ExpMs(attempt) == CAP_MS
    ensures ExpMs(attempt) % 2 == 0
  {
    assert Pow2(11) == 2048;
    assert Pow2(12) == 4096;
    if attempt <= 12 { Pow2Grows(attempt - 1, 11); } else { Pow2Grows(12, attempt - 1); }
  }

  lemma ExpFacts(attempt: int)
    ensures ExpMs(attempt) % 2 == 0 && ExpMs(attempt) >= BASE_MS
  {
    if attempt >= 1 { ExpCases(attempt); } else { assert Pow2(0) == 1; }
    Pow2Grows(0, Max(0, attempt - 1));
  }

  lemma JitterStaysWithinHalf(exp: nat, r: real)
    requires exp % 2 == 0 && 0.0 <= r <= 1.0
    ensures exp / 2 <= (exp as real / 2.0 + r * (exp as real / 2.0) + 0.5).Floor <= exp
  {
    Halved(exp, exp / 2);
    JitterOfHalf(exp / 2, exp as real / 2.0, r);
  }

  lemma JitterOfHalf(h: nat, half: real, r: real)
    requires half == h as real && 0.0 <= r <= 1.0
    ensures h <= (half + r * half + 0.5).Floor <= 2 * h
  {
    FractionOf(r, half);
    RoundsWithin(h, half, r * half);
  }

  lemma Halved(exp: nat, h: nat)
    requires exp == 2 * h
    ensures exp as real / 2.0 == h as real
  {
    assert exp as real == 2.0 * (h as real);
  }

  lemma RoundsWithin(h: nat, half: real, t: real)
    requires half == h as real && 0.0 <= t <= half
    ensures h <= (half + t + 0.5).Floor <= 2 * h
  {
    var x := half + t + 0.5;
    assert h as real <= x < (2 * h + 1) as real;
  }

  lemma FractionOf(r: real, x: real)
    requires 0.0 <= r <= 1.0 && 0.0 <= x
    ensures 0.0 <= r * x <= x
  {
    NotNegative(r, x);
    NotNegative(1.0 - r, x);
    assert (1.0 - r) * x == x - r * x;
  }

  lemma NotNegative(a: real, b: real)
    requires a >= 0.0 && b >= 0.0
    ensures a * b >= 0.0
  {
  }

  /** Every delay lies between half and the whole of the exponential, whatever `random` returns. */
  lemma BackoffWithinHalf(attempt: int, random: real)
    ensures ExpMs(attempt) / 2 <= ComputeBackoffMs(attempt, random) <= ExpMs(attempt)
    ensures ComputeBackoffMs(attempt, random) >= BASE_MS / 2
  {
    ExpFacts(attempt);
    JitterStaysWithinHalf(ExpMs(attempt), if random < 0.0 then 0.0 else if random > 1.0 then 1.0 else random);
  }

  /** One second after the first attempt, twice as long after each further one, and never more than an hour. */
  lemma ExpDoubles(attempt: int)
    ensures attempt <= 1 ==> ExpMs(attempt) == 1_000
    ensures attempt >= 1 ==> ExpMs(attempt + 1) == if 2 * ExpMs(attempt) < 3_600_000 then 2 * ExpMs(attempt) else 3_600_000
  {
    assert Pow2(0) == 1;
    if attempt >= 1 { assert Pow2(attempt) == 2 * Pow2(attempt - 1); }
  }

  /**
   * The jitter is equal: what `random` draws, kept between 0 and 1, scales half
   * of the exponential on top of the other half, rounded to the nearest millisecond.
   */
  lemma JitterFollowsTheDraw(attempt: int, random: real)
    ensures var exact := ExpMs(attempt) as real * (1.0 + random) / 2.0; var ms := ComputeBackoffMs(attempt, random) as real;
      0.0 <= random <= 1.0 ==> exact - 0.5 < ms <= exact + 0.5
    ensures random < 0.0 ==> ComputeBackoffMs(attempt, random) == ExpMs(attempt) / 2
    ensures random > 1.0 ==> ComputeBackoffMs(attempt, random) == ExpMs(attempt)
  {
    var exp := ExpMs(attempt) as real;
    ExpFacts(attempt);
    Halved(ExpMs(attempt), ExpMs(attempt) / 2);
    assert exp / 2.0 + random * (exp / 2.0) == exp * (1.0 + random) / 2.0;
  }

  /** The longest a delivery can be scheduled to wait over its first `n` failures. */
  function WorstTotalMs(n: nat): nat {
    if n == 0 then 0 else WorstTotalMs(n - 1) + ExpMs(n)
  }

  /** Closed form: geometric up to the twelfth failure, one hour each after that. */
  lemma {:induction false} WorstTotalClosedForm(n: nat)
    ensures WorstTotalMs(n) == if n <= 12 then BASE_MS * (Pow2(n) - 1) else 4_095_000 + (n - 12) * CAP_MS
  {
    if n > 0 {
      WorstTotalClosedForm(n - 1);
      ExpCases(n);
      assert Pow2(12) == 4096;
    }
  }

  // ---- the waits of one delivery ----

  /** The wait scheduled after a failed attempt. */
  datatype Wait = Wait(attempt: nat, ms: nat)

  /** A wait failDelivery can schedule when nobody asks for a longer floor. */
  predicate Drawn(w: Wait, floor: nat) { ExpMs(w.attempt) / 2 <= w.ms <= Max(ExpMs(w.attempt), floor) }

  lemma FailDelayIsDrawn(attempts: nat, maxAttempts: nat, random: real, minDelayMs: nat, floor: nat)
    requires attempts < maxAttempts && minDelayMs <= floor
    ensures Drawn(Wait(attempts, FailDelayMs(attempts, maxAttempts, random, minDelayMs)), floor)
  {
    BackoffWithinHalf(attempts, random);
  }

  /** Later failures have higher attempt numbers, the first one at least 1. */
  predicate Climbing(ws: seq<Wait>) {
    && (ws != [] ==> ws[0].attempt >= 1)
    && forall i, j :: 0 <= i < j < |ws| ==> ws[i].attempt < ws[j].attempt
  }

  function TotalMs(ws: seq<Wait>): nat {
    if ws == [] then 0 else TotalMs(ws[..|ws| - 1]) + ws[|ws| - 1].ms
  }

  /** The longest total over attempts 1 to n, each wait floored. */
  function FlooredTotalMs(n: nat, floor: nat): nat {
    if n == 0 then 0 else FlooredTotalMs(n - 1, floor) + Max(ExpMs(n), floor)
  }

  lemma {:induction false} UnflooredTotal(n: nat)
    ensures FlooredTotalMs(n, 0) == WorstTotalMs(n)
  {
    if n > 0 { UnflooredTotal(n - 1); }
  }

  lemma {:induction false} FlooredTotalGrows(m: nat, n: nat, floor: nat)
    requires m <= n
    ensures FlooredTotalMs(m, floor) <= FlooredTotalMs(n, floor)
    decreases n
  {
    if m < n { FlooredTotalGrows(m, n - 1, floor); }
  }

  lemma ExpGrows(a: nat, b: nat)
    requires 1 <= a <= b
    ensures ExpMs(a) <= ExpMs(b)
  {
    Pow2Grows(a - 1, b - 1);
  }

  lemma {:induction false} WorstTotalIsEven(n: nat)
    ensures WorstTotalMs(n) % 2 == 0
  {
    if n > 0 {
      WorstTotalIsEven(n - 1);
      ExpFacts(n);
      EvenSum(WorstTotalMs(n - 1), ExpMs(n));
    }
  }

  lemma EvenSum(a: nat, b: nat)
    requires a % 2 == 0 && b % 2 == 0
    ensures (a + b) % 2 == 0
  {
  }

  /**
   * Whatever jitter is drawn and whichever attempts failed: k waits add up to
   * at least half of the k shortest exponentials, and to no more than the
   * floored exponentials of all attempts so far.
   */
  lemma {:induction false} TotalBackoffBounds(ws: seq<Wait>, floor: nat)
    requires Climbing(ws) && forall w <- ws :: Drawn(w, floor)
    ensures WorstTotalMs(|ws|) / 2 <= TotalMs(ws)
    ensures ws != [] ==> |ws| <= ws[|ws| - 1].attempt && TotalMs(ws) <= FlooredTotalMs(ws[|ws| - 1].attempt, floor)
    ensures ws == [] ==> TotalMs(ws) == 0
    decreases |ws|
  {
    if ws != [] {
      var n := |ws| - 1;
      var last := ws[n];
      TotalBackoffBounds(ws[..n], floor);
      assert last in ws;
      if n > 0 { assert ws[n - 1].attempt < last.attempt; }
      ExpGrows(n + 1, last.attempt);
      ExpFacts(n + 1);
      ExpFacts(last.attempt);
      WorstTotalIsEven(n);
      FlooredTotalGrows(if n > 0 then ws[n - 1].attempt else 0, last.attempt - 1, floor);
    }
  }
}
