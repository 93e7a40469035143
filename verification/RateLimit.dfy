/**
 The per-tenant token bucket. The stored bucket disappears two seconds after its
 last use; the specification is a bucket that never does.
 */
module RateLimit {
  import opened Jobs

  /** How long a stored bucket lives after a request, in milliseconds. */
  const BUCKET_TTL: Time := 2000

  datatype Bucket = Bucket(tokens: real, ts: Time)

  datatype Request = Request(tenant: Uuid, limit: int, now: Time)

  /** The tokens that `limit` jobs per second earn in `elapsed` milliseconds. */
  function Refill(limit: int, elapsed: Time): real {
    (limit * elapsed) as real / 1000.0
  }

  function Min(x: real, y: real): real {
    if x <= y then x else y
  }

  /** The tokens a bucket holds at `now`; a missing bucket is full. */
  function Level(b: Option<Bucket>, limit: int, now: Time): real {
    if b.None? then limit as real else Min(limit as real, b.value.tokens + Refill(limit, now - b.value.ts))
  }

  function Spent(level: real): real {
    if level >= 1.0 then level - 1.0 else level
  }

  // ---- the specification: buckets that never expire ----------------------------------------

  function BucketOf(log: seq<Request>, tenant: Uuid): Option<Bucket> {
    if log == [] then None
    else
      var before := BucketOf(log[..|log| - 1], tenant);
      var r := log[|log| - 1];
      if r.tenant != tenant || r.limit <= 0 then before
      else Some(Bucket(Spent(Level(before, r.limit, r.now)), r.now))
  }

  /** Whether a request is let through after the requests in `log`. */
  predicate Admits(log: seq<Request>, r: Request) {
    r.limit <= 0 || Level(BucketOf(log, r.tenant), r.limit, r.now) >= 1.0
  }

  /** Redis times every request by its own clock, which does not run backwards. */
  predicate InClockOrder(log: seq<Request>) {
    forall i, j | 0 <= i < j < |log| :: log[i].now <= log[j].now
  }

  /** A bucket is never overdrawn, and carries the time of its tenant's last metered request. */
  lemma {:induction false} BucketIsSound(log: seq<Request>, tenant: Uuid)
    requires InClockOrder(log)
    ensures var b := BucketOf(log, tenant);
            b.Some? ==>
              && b.value.tokens >= 0.0
              && exists k :: 0 <= k < |log| && log[k].tenant == tenant && log[k].limit > 0 && log[k].now == b.value.ts
  {
    if log != [] {
      var init := log[..|log| - 1];
      BucketIsSound(init, tenant);
      var before := BucketOf(init, tenant);
      if before.Some? {
        var k :| 0 <= k < |init| && init[k].tenant == tenant && init[k].limit > 0 && init[k].now == before.value.ts;
        assert log[k] == init[k];
        var r := log[|log| - 1];
        if r.tenant == tenant && r.limit > 0 { RefillIsPositive(r.limit, r.now - before.value.ts); }
      }
      assert log[|log| - 1].now == log[|log| - 1].now;
    }
  }

  lemma RefillIsPositive(limit: int, elapsed: Time)
    requires limit >= 0 && elapsed >= 0
    ensures Refill(limit, elapsed) >= 0.0
  {
    assert limit * elapsed >= 0;
  }

  lemma RefillAdds(limit: int, a: Time, b: Time)
    ensures Refill(limit, a) + Refill(limit, b) == Refill(limit, a + b)
  {
    assert limit * (a + b) == limit * a + limit * b;
  }

  lemma RefillGrows(limit: int, a: Time, b: Time)
    requires limit >= 0 && a <= b
    ensures Refill(limit, a) <= Refill(limit, b)
  {
    RefillAdds(limit, a, b - a);
    RefillIsPositive(limit, b - a);
  }

  // ---- at most rate + rate * d / 1000 in any window of d milliseconds -------------------------

  function Admissions(log: seq<Request>, tenant: Uuid, i: nat, j: nat): nat
    requires i <= j <= |log|
  {
    if i == j then 0
    else Admissions(log, tenant, i, j - 1) + if log[j - 1].tenant == tenant && Admits(log[..j - 1], log[j - 1]) then 1 else 0
  }

  /** What has been admitted since `start`, together with what is left, was earned since `start`. */
  ghost predicate Earned(admitted: nat, b: Option<Bucket>, rate: int, start: Time) {
    admitted == 0 ||
    (b.Some? && start <= b.value.ts && admitted as real + b.value.tokens <= rate as real + Refill(rate, b.value.ts - start))
  }

  lemma EarnedOneMore(admitted: nat, b: Option<Bucket>, rate: int, start: Time, now: Time)
    requires rate > 0 && start <= now && Earned(admitted, b, rate, start)
    requires b.Some? ==> b.value.ts <= now
    ensures var level := Level(b, rate, now);
            Earned(admitted + if level >= 1.0 then 1 else 0, Some(Bucket(Spent(level), now)), rate, start)
  {
    RefillIsPositive(rate, now - start);
    if admitted != 0 {
      RefillAdds(rate, b.value.ts - start, now - b.value.ts);
    }
  }

  predicate InWindow(log: seq<Request>, tenant: Uuid, i: nat, j: nat, rate: int, start: Time, length: Time) {
    forall k | i <= k < j && k < |log| && log[k].tenant == tenant :: log[k].limit == rate && start <= log[k].now <= start + length
  }

  lemma {:induction false} AdmissionsAreEarned(log: seq<Request>, tenant: Uuid, i: nat, j: nat, rate: int, start: Time, length: Time)
    requires i <= j <= |log| && InClockOrder(log) && rate > 0 && InWindow(log, tenant, i, j, rate, start, length)
    ensures Earned(Admissions(log, tenant, i, j), BucketOf(log[..j], tenant), rate, start)
    ensures Admissions(log, tenant, i, j) > 0 ==> BucketOf(log[..j], tenant).value.ts <= start + length
    decreases j
  {
    if i < j {
      var r := log[j - 1];
      AdmissionsAreEarned(log, tenant, i, j - 1, rate, start, length);
      assert log[..j][..j - 1] == log[..j - 1];
      if r.tenant == tenant {
        BucketIsSound(log[..j - 1], tenant);
        EarnedOneMore(Admissions(log, tenant, i, j - 1), BucketOf(log[..j - 1], tenant), rate, start, r.now);
      }
    }
  }

  /**
   The bound: whatever came before and whatever other tenants do, a window of
   `length` milliseconds admits at most rate + rate * length / 1000 requests.
   */
  lemma WindowBound(log: seq<Request>, tenant: Uuid, i: nat, j: nat, rate: int, start: Time, length: nat)
    requires i <= j <= |log| && InClockOrder(log) && rate > 0 && InWindow(log, tenant, i, j, rate, start, length)
    ensures 1000 * Admissions(log, tenant, i, j) <= 1000 * rate + rate * length
  {
    var n := Admissions(log, tenant, i, j);
    AdmissionsAreEarned(log, tenant, i, j, rate, start, length);
    RefillIsPositive(rate, length);
    if n > 0 {
      BucketIsSound(log[..j], tenant);
      RefillGrows(rate, BucketOf(log[..j], tenant).value.ts - start, length);
    }
    assert n as real <= rate as real + Refill(rate, length);
    assert (1000 * n) as real <= (1000 * rate + rate * length) as real;
  }

  /** Requests far enough apart to earn a token in between are never refused. */
  lemma SpacedIsAdmitted(log: seq<Request>, r: Request)
    requires InClockOrder(log)
    requires forall k | 0 <= k < |log| && log[k].tenant == r.tenant && log[k].limit > 0 :: (r.now - log[k].now) * r.limit >= 1000
    ensures Admits(log, r)
  {
    BucketIsSound(log, r.tenant);
    var b := BucketOf(log, r.tenant);
    if r.limit > 0 && b.Some? {
      assert r.limit * (r.now - b.value.ts) >= 1000;
      assert Refill(r.limit, r.now - b.value.ts) >= 1.0;
    }
  }

  function Requests(log: seq<Request>, tenant: Uuid): nat {
    if log == [] then 0
    else Requests(log[..|log| - 1], tenant) + if log[|log| - 1].tenant == tenant then 1 else 0
  }

  lemma {:induction false} UnusedTokensRemain(log: seq<Request>, tenant: Uuid, rate: int)
    requires InClockOrder(log) && rate > 0 && forall k | 0 <= k < |log| && log[k].tenant == tenant :: log[k].limit == rate
    ensures var b := BucketOf(log, tenant);
            if b.Some? then b.value.tokens >= (rate - Requests(log, tenant)) as real else Requests(log, tenant) == 0
  {
    if log != [] {
      var init := log[..|log| - 1];
      UnusedTokensRemain(init, tenant, rate);
      BucketIsSound(init, tenant);
      var before := BucketOf(init, tenant);
      if before.Some? && before.value.ts <= log[|log| - 1].now { RefillIsPositive(rate, log[|log| - 1].now - before.value.ts); }
    }
  }

  /** A tenant's first `rate` requests all go through, however close together. */
  lemma BurstIsAdmitted(log: seq<Request>, r: Request)
    requires InClockOrder(log) && forall k | 0 <= k < |log| :: log[k].now <= r.now
    requires forall k | 0 <= k < |log| && log[k].tenant == r.tenant :: log[k].limit == r.limit
    requires Requests(log, r.tenant) < r.limit
    ensures Admits(log, r)
  {
    UnusedTokensRemain(log, r.tenant, r.limit);
    BucketIsSound(log, r.tenant);
    assert (r.limit - Requests(log, r.tenant)) as real >= 1.0;
    var b := BucketOf(log, r.tenant);
    if b.Some? { RefillIsPositive(r.limit, r.now - b.value.ts); }
  }

  /** A bucket left alone for a second is full, so forgetting it then changes nothing. */
  lemma IdleBucketIsFull(b: Bucket, limit: int, now: Time)
    requires b.tokens >= 0.0 && limit > 0 && now - b.ts >= 1000
    ensures Level(Some(b), limit, now) == Level(None, limit, now)
  {
    RefillGrows(limit, 1000, now - b.ts);
  }

  // ---- the limiter ---------------------------------------------------------------------------

  /** What Redis holds agrees with the specification wherever it still holds anything. */
  ghost predicate Mirrors(buckets: map<Uuid, Bucket>, expires: map<Uuid, Time>, log: seq<Request>) {
    && expires.Keys == buckets.Keys
    && (forall t | t in buckets :: BucketOf(log, t) == Some(buckets[t]) && expires[t] == buckets[t].ts + BUCKET_TTL)
    && (forall t: Uuid | t !in buckets :: BucketOf(log, t).None?)
  }

  lemma MirrorsOneMore(buckets: map<Uuid, Bucket>, expires: map<Uuid, Time>, log: seq<Request>, r: Request)
    requires Mirrors(buckets, expires, log)
    ensures r.limit <= 0 ==> Mirrors(buckets, expires, log + [r])
    ensures r.limit > 0 ==>
              Mirrors(buckets[r.tenant := Bucket(Spent(Level(BucketOf(log, r.tenant), r.limit, r.now)), r.now)],
                      expires[r.tenant := r.now + BUCKET_TTL], log + [r])
  {
    assert (log + [r])[..|log|] == log;
  }

  class Limiter {
    var buckets: map<Uuid, Bucket>
    var expires: map<Uuid, Time>
    ghost var log: seq<Request>

    ghost predicate Valid()
      reads this
    {
      InClockOrder(log) && Mirrors(buckets, expires, log)
    }

    constructor ()
      ensures Valid() && log == []
    {
      buckets, expires, log := map[], map[], [];
    }

    /** The script reads a bucket only while its key lives; the answer is that of a bucket that never expires. */
    method Allow(tenant: Uuid, limit: int, now: Time) returns (allowed: bool)
      requires Valid() && forall i | 0 <= i < |log| :: log[i].now <= now
      modifies this
      ensures Valid() && log == old(log) + [Request(tenant, limit, now)]
      ensures allowed == Admits(old(log), Request(tenant, limit, now))
    {
      ghost var r := Request(tenant, limit, now);
      MirrorsOneMore(buckets, expires, log, r);
      log := log + [r];
      if limit <= 0 {
        return true;
      }
      BucketIsSound(old(log), tenant);
      var tokens := limit as real;
      if tenant in buckets && now < expires[tenant] {
        tokens := Min(limit as real, buckets[tenant].tokens + Refill(limit, now - buckets[tenant].ts));
      } else if tenant in buckets {
        IdleBucketIsFull(buckets[tenant], limit, now);
      }
      assert tokens == Level(BucketOf(old(log), tenant), limit, now);
      allowed := tokens >= 1.0;
      if allowed {
        tokens := tokens - 1.0;
      }
      buckets := buckets[tenant := Bucket(tokens, now)];
      expires := expires[tenant := now + BUCKET_TTL];
    }
  }
}
