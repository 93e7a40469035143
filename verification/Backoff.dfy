/** Retry delays: exponential backoff with a cap and a jitter of a fifth either way. */
module Backoff {
  import opened Jobs

  /** The longest base delay, in seconds. */
  const MAX_DELAY := 3600

  function Pow2(n: nat): (p: nat)
    ensures p >= 1
  {
    if n == 0 then 1 else 2 * Pow2(n - 1)
  }

  /** The delay before jitter: the backoff doubled once per failed attempt, up to the cap. */
  function Base(attempt: nat, backoff: nat): nat {
    if backoff * Pow2(attempt) <= MAX_DELAY then backoff * Pow2(attempt) else MAX_DELAY
  }

  /** The delays that jitter can turn a base delay into. */
  predicate Possible(base: nat, delay: int) {
    base - base / 5 <= delay <= base + base / 5
  }

  lemma {:induction false} Pow2Grows(m: nat, n: nat)
    requires m <= n
    ensures Pow2(m) <= Pow2(n)
  {
    if m < n { Pow2Grows(m, n - 1); }
  }

  lemma ScaleGrows(k: nat, m: nat, n: nat)
    requires m <= n
    ensures k * m <= k * n
  {
    assert k * (n - m) >= 0;
  }

  lemma ScaleDoubles(backoff: nat, i: nat)
    ensures backoff * Pow2(i + 1) == 2 * (backoff * Pow2(i))
  {
  }

  lemma BaseIsPositive(attempt: nat, backoff: nat)
    requires backoff >= 1
    ensures 1 <= Base(attempt, backoff) <= MAX_DELAY
  {
    ScaleGrows(backoff, 1, Pow2(attempt));
  }

  /** Once the doubled delay has reached the cap, further doublings leave it there. */
  lemma CapIsFinal(i: nat, attempt: nat, backoff: nat)
    requires i <= attempt && backoff * Pow2(i) >= MAX_DELAY
    ensures Base(attempt, backoff) == MAX_DELAY
  {
    Pow2Grows(i, attempt);
    ScaleGrows(backoff, Pow2(i), Pow2(attempt));
  }

  /** `draw` is what the random generator returned for the range 0 to twice the jitter. */
  method NextRetryAt(attempt: nat, backoff: nat, now: Time, draw: nat) returns (at: Time)
    requires 1 <= backoff <= MAX_BACKOFF_SECONDS
    requires draw <= 2 * (Base(attempt, backoff) / 5)
    ensures var base := Base(attempt, backoff);
            var delay := (at - now) / 1000;
            && at == now + 1000 * delay
            && Possible(base, delay)
            && delay - base == draw - base / 5
            && 0 - base <= 5 * (delay - base) <= base
            && 1 <= delay <= 4320
  {
    var d: int := backoff;
    var i := 0;
    while i < attempt && d < MAX_DELAY
      invariant 0 <= i <= attempt && d == backoff * Pow2(i)
    {
      ScaleDoubles(backoff, i);
      d := d * 2;
      i := i + 1;
    }
    if d >= MAX_DELAY { CapIsFinal(i, attempt, backoff); }
    if d > MAX_DELAY {
      d := MAX_DELAY;
    }
    assert d == Base(attempt, backoff);
    BaseIsPositive(attempt, backoff);
    var jitter := d / 5;
    if jitter > 0 {
      d := d + draw - jitter;
    }
    at := now + d * 1000;
  }

  /** One more failure doubles the base delay or reaches the cap. */
  lemma BaseDoubles(attempt: nat, backoff: nat)
    ensures Base(attempt + 1, backoff) == if 2 * Base(attempt, backoff) <= MAX_DELAY then 2 * Base(attempt, backoff) else MAX_DELAY
  {
    ScaleDoubles(backoff, attempt);
  }

  ghost predicate AlwaysLater(base: nat, next: nat) {
    forall d, e | Possible(base, d) && Possible(next, e) :: d < e
  }

  /**
   Each retry waits longer than the one before, whatever the jitter, exactly while
   the earlier base delay is below 2400 s. Up to half the cap the base doubles, which
   outruns the jitter; above it the cap takes over, and from 2400 s the ranges meet.
   */
  lemma LaterWaitsLonger(attempt: nat, backoff: nat)
    requires backoff >= 1
    ensures AlwaysLater(Base(attempt, backoff), Base(attempt + 1, backoff)) <==> Base(attempt, backoff) < 2400
  {
    BaseDoubles(attempt, backoff);
    var b, c := Base(attempt, backoff), Base(attempt + 1, backoff);
    BaseIsPositive(attempt, backoff);
    assert Possible(b, b + b / 5) && Possible(c, c - c / 5);
  }

  /** Below the cap is not enough: a base of 3000 s may wait as long as the capped delay that follows it. */
  lemma NearCapOverlaps()
    ensures Base(0, 3000) < MAX_DELAY && !AlwaysLater(Base(0, 3000), Base(1, 3000))
  {
    LaterWaitsLonger(0, 3000);
  }
}
