/**
 * Token buckets: the plain never-evicting limiter (backend/socket.io/rateLimiter.ts) and the bounded,
 * idle-sweeping HTTP limiter (backend/middleware/httpRateLimiter.ts), which answers like the plain one.
 */
module RateLimiter {
  import opened Common

  datatype Bucket = Bucket(tokens: real, last: int)

  function MinReal(a: real, b: real): (m: real)
  {
    if a <= b then a else b
  }

  /** Tokens of a bucket once refilled up to `now`; a clock that went back adds nothing. */
  function Refilled(capacity: real, refill: real, b: Bucket, now: int): (tokens: real)
  {
    MinReal(capacity, b.tokens + Max(0, now - b.last) as real / 1000.0 * refill)
  }

  function BucketFor(capacity: real, buckets: map<string, Bucket>, key: string, now: int): (b: Bucket)
  {
    if key in buckets then buckets[key] else Bucket(capacity, now)
  }

  /** Spends `cost` if the refilled bucket holds it; either way the bucket is refilled and stamped. */
  function Spend(capacity: real, refill: real, b: Bucket, now: int, cost: real): (r: (Bucket, bool))
  {
    var tokens := Refilled(capacity, refill, b, now);
    if tokens < cost then (Bucket(tokens, now), false) else (Bucket(tokens - cost, now), true)
  }

  // ---------- the plain limiter ----------

  class RateLimiter {
    const capacity: real
    const refillPerSecond: real
    var buckets: map<string, Bucket>

    constructor (capacity: real, refillPerSecond: real)
      ensures this.capacity == capacity && this.refillPerSecond == refillPerSecond && buckets == map[]
    {
      this.capacity := capacity;
      this.refillPerSecond := refillPerSecond;
      buckets := map[];
    }

    method Consume(key: string, cost: real, now: int) returns (allowed: bool)
      modifies this
      ensures var r := Spend(capacity, refillPerSecond, BucketFor(capacity, old(buckets), key, now), now, cost);
        buckets == old(buckets)[key := r.0] && allowed == r.1
    {
      if key !in buckets { buckets := buckets[key := Bucket(capacity, now)]; }
      var b := buckets[key];
      b := Bucket(Refilled(capacity, refillPerSecond, b, now), now);
      buckets := buckets[key := b];
      if b.tokens < cost { return false; }
      buckets := buckets[key := b.(tokens := b.tokens - cost)];
      return true;
    }
  }

  // ---------- the HTTP limiter ----------

  datatype Bounds = Bounds(capacity: real, refill: real, maxBuckets: int, idleMs: real)

  /** What the constructor accepts: an idle time long enough for any bucket to refill completely. */
  predicate Accepted(p: Bounds)
  {
    && p.capacity >= 1.0 && p.refill >= 0.0 && p.maxBuckets >= 1 && p.idleMs >= 1.0
    && (p.refill > 0.0 ==> p.idleMs >= p.capacity / p.refill * 1000.0)
  }

  datatype Table = Table(buckets: map<string, Bucket>, sweptAt: int)

  predicate Idle(p: Bounds, b: Bucket, now: int)
  {
    (now - b.last) as real >= p.idleMs
  }

  /** At most once a second, idle buckets are forgotten. */
  function Swept(p: Bounds, t: Table, now: int): (s: Table)
  {
    if now - t.sweptAt >= 1000 then Table(map k | k in t.buckets && !Idle(p, t.buckets[k], now) :: t.buckets[k], now) else t
  }

  /** A new key meets a full table. */
  predicate Saturated(p: Bounds, t: Table, key: string, now: int)
  {
    key !in Swept(p, t, now).buckets && |Swept(p, t, now).buckets| >= p.maxBuckets
  }

  function HttpStep(p: Bounds, t: Table, key: string, now: int): (r: (Table, bool))
  {
    var s := Swept(p, t, now);
    if Saturated(p, t, key, now) then (s, false)
    else
      var spent := Spend(p.capacity, p.refill, BucketFor(p.capacity, s.buckets, key, now), now, 1.0);
      (s.(buckets := s.buckets[key := spent.0]), spent.1)
  }

  class HttpRateLimiter {
    const p: Bounds
    var buckets: map<string, Bucket>
    var sweptAt: int

    constructor (p: Bounds)
      requires Accepted(p)
      ensures this.p == p && buckets == map[] && sweptAt == 0
    {
      this.p := p;
      buckets := map[];
      sweptAt := 0;
    }

    /** The constructor as callers meet it: bad bounds are refused. */
    static method Make(p: Bounds) returns (r: Result<HttpRateLimiter, ()>)
      ensures r.Ok? <==> Accepted(p)
      ensures r.Ok? ==> fresh(r.value) && r.value.p == p && r.value.buckets == map[] && r.value.sweptAt == 0
    {
      if p.capacity < 1.0 || p.refill < 0.0 || p.maxBuckets < 1 || p.idleMs < 1.0 { return Err(()); }
      if p.refill > 0.0 && p.idleMs < p.capacity / p.refill * 1000.0 { return Err(()); }
      var limiter := new HttpRateLimiter(p);
      return Ok(limiter);
    }

    method Consume(key: string, now: int) returns (allowed: bool)
      modifies this
      ensures var r := HttpStep(p, Table(old(buckets), old(sweptAt)), key, now);
        Table(buckets, sweptAt) == r.0 && allowed == r.1
    {
      Sweep(now);
      hide Swept, Idle, Spend, Refilled;
      if key !in buckets && |buckets| >= p.maxBuckets { return false; }
      allowed := SpendFrom(key, now);
    }

    method Sweep(now: int)
      modifies this
      ensures Table(buckets, sweptAt) == Swept(p, Table(old(buckets), old(sweptAt)), now)
    {
      if now - sweptAt >= 1000 {
        SweepIdle(now);
        sweptAt := now;
      }
    }

    /** The key's bucket, created full if it is new, is refilled and charged. */
    method SpendFrom(key: string, now: int) returns (allowed: bool)
      modifies this`buckets
      ensures var r := Spend(p.capacity, p.refill, BucketFor(p.capacity, old(buckets), key, now), now, 1.0);
        buckets == old(buckets)[key := r.0] && allowed == r.1
    {
      hide Refilled;
      if key !in buckets { buckets := buckets[key := Bucket(p.capacity, now)]; }
      var b := buckets[key];
      b := Bucket(Refilled(p.capacity, p.refill, b, now), now);
      buckets := buckets[key := b];
      if b.tokens < 1.0 { return false; }
      buckets := buckets[key := b.(tokens := b.tokens - 1.0)];
      return true;
    }

    method SweepIdle(now: int)
      modifies this`buckets
      ensures buckets == map k | k in old(buckets) && !Idle(p, old(buckets)[k], now) :: old(buckets)[k]
    {
      ghost var was := buckets;
      var pending := buckets.Keys;
      while pending != {}
        invariant pending <= was.Keys
        invariant buckets == map k | k in was && (k in pending || !Idle(p, was[k], now)) :: was[k]
        decreases |pending|
      {
        var id :| id in pending;
        if (now - buckets[id].last) as real >= p.idleMs { buckets := buckets - {id}; }
        pending := pending - {id};
      }
    }
  }

  // ---------- the refinement ----------

  datatype Call = Call(key: string, now: int)

  predicate ClockMonotone(calls: seq<Call>)
  {
    forall i, j | 0 <= i < j < |calls| :: calls[i].now <= calls[j].now
  }

  function LastNow(calls: seq<Call>): (t: int)
    requires calls != []
  {
    calls[|calls| - 1].now
  }

  function FastAfter(p: Bounds, calls: seq<Call>): (t: Table)
  {
    if calls == [] then Table(map[], 0)
    else
      var c := calls[|calls| - 1];
      HttpStep(p, FastAfter(p, calls[..|calls| - 1]), c.key, c.now).0
  }

  /** The answer of the HTTP limiter to call `i`, after all calls before it. */
  function FastAnswer(p: Bounds, calls: seq<Call>, i: nat): (allowed: bool)
    requires i < |calls|
  {
    HttpStep(p, FastAfter(p, calls[..i]), calls[i].key, calls[i].now).1
  }

  predicate Refused(p: Bounds, calls: seq<Call>, i: nat)
    requires i < |calls|
  {
    Saturated(p, FastAfter(p, calls[..i]), calls[i].key, calls[i].now)
  }

  function SlowStep(p: Bounds, slow: map<string, Bucket>, c: Call): (r: (map<string, Bucket>, bool))
  {
    var spent := Spend(p.capacity, p.refill, BucketFor(p.capacity, slow, c.key, c.now), c.now, 1.0);
    (slow[c.key := spent.0], spent.1)
  }

  /** The plain limiter after the same calls, without those refused by a full table: they leave no trace. */
  function SlowAfter(p: Bounds, calls: seq<Call>): (slow: map<string, Bucket>)
  {
    if calls == [] then map[]
    else
      var n := |calls| - 1;
      if Refused(p, calls, n) then SlowAfter(p, calls[..n]) else SlowStep(p, SlowAfter(p, calls[..n]), calls[n]).0
  }

  function SlowAnswer(p: Bounds, calls: seq<Call>, i: nat): (allowed: bool)
    requires i < |calls|
  {
    SlowStep(p, SlowAfter(p, calls[..i]), calls[i]).1
  }

  predicate BucketOk(p: Bounds, b: Bucket, now: int)
  {
    0.0 <= b.tokens <= p.capacity && b.last <= now
  }

  /** Buckets still in the table are the plain limiter's; those forgotten are full there by now. */
  ghost predicate Related(p: Bounds, fast: map<string, Bucket>, slow: map<string, Bucket>, now: int)
  {
    && |fast| <= p.maxBuckets
    && (forall k | k in slow :: BucketOk(p, slow[k], now))
    && (forall k | k in fast :: k in slow && fast[k] == slow[k])
    && (forall k | k in slow && k !in fast :: Refilled(p.capacity, p.refill, slow[k], now) == p.capacity)
  }

  /** A bucket left idle for the accepted time is full. This is where the constructor's bound is used. */
  lemma IdleIsFull(p: Bounds, b: Bucket, now: int)
    requires Accepted(p) && p.refill > 0.0 && BucketOk(p, b, now) && Idle(p, b, now)
    ensures Refilled(p.capacity, p.refill, b, now) == p.capacity
  {
    var elapsed := (now - b.last) as real;
    MulOrder(p.capacity / p.refill * 1000.0, elapsed, p.refill);
    assert p.capacity / p.refill * 1000.0 * p.refill == p.capacity * 1000.0;
    assert elapsed / 1000.0 * p.refill == elapsed * p.refill / 1000.0;
  }

  lemma MulOrder(a: real, b: real, c: real)
    requires a <= b && c >= 0.0
    ensures a * c <= b * c
  {
  }

  lemma RefillGrows(p: Bounds, b: Bucket, t1: int, t2: int)
    requires p.refill >= 0.0 && b.last <= t1 <= t2
    ensures Refilled(p.capacity, p.refill, b, t1) <= Refilled(p.capacity, p.refill, b, t2)
  {
    MulOrder((t1 - b.last) as real / 1000.0, (t2 - b.last) as real / 1000.0, p.refill);
  }

  lemma SpendKeepsBucket(p: Bounds, b: Bucket, now: int)
    requires Accepted(p) && BucketOk(p, b, now)
    ensures BucketOk(p, Spend(p.capacity, p.refill, b, now, 1.0).0, now)
  {
    MulOrder(0.0, (now - b.last) as real / 1000.0, p.refill);
  }

  lemma SweepRelated(p: Bounds, t: Table, slow: map<string, Bucket>, before: int, now: int)
    requires Accepted(p) && p.refill > 0.0 && before <= now && Related(p, t.buckets, slow, before)
    ensures Related(p, Swept(p, t, now).buckets, slow, now)
  {
    var s := Swept(p, t, now);
    SubsetCount(s.buckets, t.buckets);
    forall k | k in slow && k !in s.buckets
      ensures Refilled(p.capacity, p.refill, slow[k], now) == p.capacity
    {
      if k in t.buckets { IdleIsFull(p, slow[k], now); } else { RefillGrows(p, slow[k], before, now); }
    }
  }

  lemma SubsetCount(a: map<string, Bucket>, b: map<string, Bucket>)
    requires a.Keys <= b.Keys
    ensures |a| <= |b|
  {
    SetCount(a.Keys, b.Keys);
  }

  lemma {:induction false} SetCount(a: set<string>, b: set<string>)
    requires a <= b
    ensures |a| <= |b|
    decreases a
  {
    if a != {} {
      var x :| x in a;
      SetCount(a - {x}, b - {x});
    }
  }

  lemma StepRelated(p: Bounds, t: Table, slow: map<string, Bucket>, c: Call, before: int)
    requires Accepted(p) && p.refill > 0.0 && before <= c.now && Related(p, t.buckets, slow, before)
    ensures var fast := HttpStep(p, t, c.key, c.now);
      if Saturated(p, t, c.key, c.now) then !fast.1 && Related(p, fast.0.buckets, slow, c.now)
      else fast.1 == SlowStep(p, slow, c).1 && Related(p, fast.0.buckets, SlowStep(p, slow, c).0, c.now)
  {
    SweepRelated(p, t, slow, before, c.now);
    var s := Swept(p, t, c.now).buckets;
    if !Saturated(p, t, c.key, c.now) {
      var mine, theirs := BucketFor(p.capacity, s, c.key, c.now), BucketFor(p.capacity, slow, c.key, c.now);
      assert Refilled(p.capacity, p.refill, mine, c.now) == Refilled(p.capacity, p.refill, theirs, c.now);
      SpendKeepsBucket(p, theirs, c.now);
      var spent := Spend(p.capacity, p.refill, mine, c.now, 1.0).0;
      assert s[c.key := spent].Keys == s.Keys + {c.key};
    }
  }

  lemma {:induction false} RunRelated(p: Bounds, calls: seq<Call>, start: int)
    requires Accepted(p) && p.refill > 0.0 && ClockMonotone(calls) && (calls != [] ==> start <= calls[0].now)
    ensures Related(p, FastAfter(p, calls).buckets, SlowAfter(p, calls), if calls == [] then start else LastNow(calls))
  {
    if calls != [] {
      var n := |calls| - 1;
      RunRelated(p, calls[..n], start);
      StepRelated(p, FastAfter(p, calls[..n]), SlowAfter(p, calls[..n]), calls[n],
                  if n == 0 then start else calls[n - 1].now);
    }
  }

  /**
   * The bounded limiter gives the plain limiter's answer to every call, except that a new key is refused
   * while the table is full; and the table never outgrows its bound.
   */
  lemma HttpRefinesPlain(p: Bounds, calls: seq<Call>, i: nat)
    requires Accepted(p) && p.refill > 0.0 && ClockMonotone(calls) && i < |calls|
    ensures FastAnswer(p, calls, i) == (!Refused(p, calls, i) && SlowAnswer(p, calls, i))
    ensures |FastAfter(p, calls).buckets| <= p.maxBuckets
  {
    RunRelated(p, calls, calls[0].now);
    RunRelated(p, calls[..i], calls[0].now);
    StepRelated(p, FastAfter(p, calls[..i]), SlowAfter(p, calls[..i]), calls[i],
                if i == 0 then calls[0].now else calls[i - 1].now);
  }

  // ---------- without refill the sweep forgets ----------

  function At(gap: nat, n: nat): (t: nat)
  {
    if n == 0 then 0 else At(gap, n - 1) + gap
  }

  function SpacedRun(gap: nat, n: nat): (calls: seq<Call>)
    ensures |calls| == n
  {
    if n == 0 then [] else SpacedRun(gap, n - 1) + [Call("k", At(gap, n))]
  }

  lemma {:induction false} SpacedPrefix(gap: nat, n: nat, i: nat)
    requires i <= n
    ensures SpacedRun(gap, n)[..i] == SpacedRun(gap, i)
  {
    if i < n {
      SpacedPrefix(gap, n - 1, i);
      assert SpacedRun(gap, n)[..i] == SpacedRun(gap, n - 1)[..i];
    }
  }

  lemma {:induction false} SpacedMonotone(gap: nat, n: nat)
    ensures ClockMonotone(SpacedRun(gap, n))
    ensures n > 0 ==> SpacedRun(gap, n)[n - 1] == Call("k", At(gap, n))
  {
    if n > 1 {
      SpacedMonotone(gap, n - 1);
      var calls := SpacedRun(gap, n);
      assert calls[n - 2] == SpacedRun(gap, n - 1)[n - 2];
      forall i, j | 0 <= i < j < n ensures calls[i].now <= calls[j].now {
        assert calls[i] == SpacedRun(gap, n - 1)[i];
        if j < n - 1 { assert calls[j] == SpacedRun(gap, n - 1)[j]; }
        else if i < n - 2 { assert SpacedRun(gap, n - 1)[i].now <= SpacedRun(gap, n - 1)[n - 2].now; }
      }
    }
  }

  /** Calls spaced wider than the idle time meet a fresh bucket every time. */
  lemma {:induction false} SpacedFast(p: Bounds, gap: nat, n: nat)
    requires Accepted(p) && p.refill == 0.0 && gap >= 1000 && gap as real >= p.idleMs
    ensures FastAfter(p, SpacedRun(gap, n)) ==
      if n == 0 then Table(map[], 0) else Table(map["k" := Bucket(p.capacity - 1.0, At(gap, n))], At(gap, n))
    ensures n > 0 ==> FastAnswer(p, SpacedRun(gap, n), n - 1) && !Refused(p, SpacedRun(gap, n), n - 1)
  {
    hide Refilled;
    if n > 0 {
      SpacedFast(p, gap, n - 1);
      SpacedPrefix(gap, n, n - 1);
      var t := FastAfter(p, SpacedRun(gap, n - 1));
      assert Swept(p, t, At(gap, n)).buckets == map[];
      NoRefill(p, Bucket(p.capacity, At(gap, n)), At(gap, n));
    }
  }

  lemma SlowAfterCall(p: Bounds, calls: seq<Call>)
    requires calls != [] && !Refused(p, calls, |calls| - 1)
    ensures SlowAfter(p, calls) == SlowStep(p, SlowAfter(p, calls[..|calls| - 1]), calls[|calls| - 1]).0
  {
  }

  lemma NoRefill(p: Bounds, b: Bucket, now: int)
    requires p.refill == 0.0 && b.tokens <= p.capacity
    ensures Refilled(p.capacity, p.refill, b, now) == b.tokens
  {
  }

  lemma {:induction false} SpacedSlow(p: Bounds, gap: nat, n: nat)
    requires Accepted(p) && p.refill == 0.0 && gap >= 1000 && gap as real >= p.idleMs
    requires n as real <= p.capacity
    ensures n > 0 ==> SlowAfter(p, SpacedRun(gap, n)) == map["k" := Bucket(p.capacity - n as real, At(gap, n))]
    ensures n == 0 ==> SlowAfter(p, SpacedRun(gap, n)) == map[]
  {
    hide SlowStep, Refused, HttpStep, Swept, Saturated, FastAfter, FastAnswer;
    if n > 0 {
      SpacedSlow(p, gap, n - 1);
      SpacedPrefix(gap, n, n - 1);
      SpacedFast(p, gap, n);
      SlowAfterCall(p, SpacedRun(gap, n));
      if n == 1 {
        SlowFirst(p, At(gap, 1));
      } else {
        SlowAgain(p, p.capacity - (n - 1) as real, At(gap, n - 1), At(gap, n));
      }
    }
  }

  lemma SlowFirst(p: Bounds, now: int)
    requires p.refill == 0.0 && p.capacity >= 1.0
    ensures SlowStep(p, map[], Call("k", now)) == (map["k" := Bucket(p.capacity - 1.0, now)], true)
  {
    NoRefill(p, Bucket(p.capacity, now), now);
  }

  lemma SlowAgain(p: Bounds, tokens: real, last: int, now: int)
    requires p.refill == 0.0 && tokens <= p.capacity
    ensures SlowStep(p, map["k" := Bucket(tokens, last)], Call("k", now)) ==
      if tokens < 1.0 then (map["k" := Bucket(tokens, now)], false) else (map["k" := Bucket(tokens - 1.0, now)], true)
  {
    var slow := map["k" := Bucket(tokens, last)];
    NoRefill(p, Bucket(tokens, last), now);
    var spent := Spend(p.capacity, p.refill, slow["k"], now, 1.0);
    assert spent == if tokens < 1.0 then (Bucket(tokens, now), false) else (Bucket(tokens - 1.0, now), true);
    assert slow["k" := spent.0] == map["k" := spent.0];
  }

  /**
   * With refill 0 the constructor accepts bounds for which the refinement fails, whatever the capacity:
   * wait out the idle time between calls and the bounded limiter never denies, while the plain one stops.
   */
  lemma NoRefillForgets(p: Bounds) returns (calls: seq<Call>, i: nat)
    requires Accepted(p) && p.refill == 0.0
    ensures ClockMonotone(calls) && i < |calls| && !Refused(p, calls, i)
    ensures FastAnswer(p, calls, i) && !SlowAnswer(p, calls, i)
  {
    var gap: nat := Max(1000, p.idleMs.Floor + 1);
    i := p.capacity.Floor;
    calls := SpacedRun(gap, i + 1);
    SpacedMonotone(gap, i + 1);
    SpacedFast(p, gap, i + 1);
    SpacedPrefix(gap, i + 1, i);
    SpacedSlow(p, gap, i);
    SlowAgain(p, p.capacity - i as real, At(gap, i), At(gap, i + 1));
    hide SlowStep, HttpStep, FastAfter, SlowAfter;
  }

  ghost predicate AlwaysAgrees(p: Bounds)
  {
    forall calls: seq<Call>, i: nat | ClockMonotone(calls) && i < |calls| && !Refused(p, calls, i) ::
      FastAnswer(p, calls, i) == SlowAnswer(p, calls, i)
  }

  /** The exact condition: among accepted bounds, the refinement holds on every run if and only if tokens refill. */
  lemma AgreesExactlyWithRefill(p: Bounds)
    requires Accepted(p)
    ensures AlwaysAgrees(p) <==> p.refill > 0.0
  {
    if p.refill > 0.0 {
      forall calls: seq<Call>, i: nat | ClockMonotone(calls) && i < |calls| && !Refused(p, calls, i)
        ensures FastAnswer(p, calls, i) == SlowAnswer(p, calls, i)
      {
        HttpRefinesPlain(p, calls, i);
      }
    } else {
      var calls, i := NoRefillForgets(p);
      assert FastAnswer(p, calls, i) != SlowAnswer(p, calls, i);
    }
  }

  // ---------- the rate ----------

  /** What key `k` could spend at `now`. */
  function Level(p: Bounds, slow: map<string, Bucket>, k: string, now: int): (tokens: real)
  {
    Refilled(p.capacity, p.refill, BucketFor(p.capacity, slow, k, now), now)
  }

  /** Calls of key `k` answered yes among calls [i, j). */
  function Admitted(p: Bounds, calls: seq<Call>, k: string, i: nat, j: nat): (n: nat)
    requires i <= j <= |calls|
  {
    if i == j then 0
    else Admitted(p, calls, k, i, j - 1) + if calls[j - 1].key == k && FastAnswer(p, calls, j - 1) then 1 else 0
  }

  lemma LevelLater(p: Bounds, slow: map<string, Bucket>, k: string, t1: int, t2: int)
    requires Accepted(p) && t1 <= t2 && (k in slow ==> BucketOk(p, slow[k], t1))
    ensures Level(p, slow, k, t2) <= Level(p, slow, k, t1) + (t2 - t1) as real / 1000.0 * p.refill
    ensures 0.0 <= Level(p, slow, k, t2) <= p.capacity
  {
    MulOrder(0.0, (t2 - t1) as real / 1000.0, p.refill);
    if k in slow {
      var b := slow[k];
      MulOrder(0.0, (t2 - b.last) as real / 1000.0, p.refill);
      assert (t2 - b.last) as real / 1000.0 == (t1 - b.last) as real / 1000.0 + (t2 - t1) as real / 1000.0;
      assert (t2 - b.last) as real / 1000.0 * p.refill
          == (t1 - b.last) as real / 1000.0 * p.refill + (t2 - t1) as real / 1000.0 * p.refill;
    }
  }

  lemma LevelAfterCall(p: Bounds, slow: map<string, Bucket>, c: Call, k: string)
    requires Accepted(p) && (c.key in slow ==> BucketOk(p, slow[c.key], c.now)) && (k in slow ==> BucketOk(p, slow[k], c.now))
    ensures Level(p, SlowStep(p, slow, c).0, k, c.now) ==
      Level(p, slow, k, c.now) - if c.key == k && SlowStep(p, slow, c).1 then 1.0 else 0.0
  {
    assert Max(0, c.now - c.now) as real / 1000.0 * p.refill == 0.0;
    SpendKeepsBucket(p, BucketFor(p.capacity, slow, c.key, c.now), c.now);
  }

  /** One call lowers the key's level by one exactly when it is admitted. */
  lemma AdmittedStep(p: Bounds, calls: seq<Call>, k: string, n: nat)
    requires Accepted(p) && p.refill > 0.0 && ClockMonotone(calls) && n < |calls|
    ensures Level(p, SlowAfter(p, calls[..n + 1]), k, calls[n].now) ==
      Level(p, SlowAfter(p, calls[..n]), k, calls[n].now)
      - if calls[n].key == k && FastAnswer(p, calls, n) then 1.0 else 0.0
    ensures 0.0 <= Level(p, SlowAfter(p, calls[..n]), k, calls[n].now) <= p.capacity
    ensures n > 0 ==>
      Level(p, SlowAfter(p, calls[..n]), k, calls[n].now) <=
      Level(p, SlowAfter(p, calls[..n]), k, calls[n - 1].now) + (calls[n].now - calls[n - 1].now) as real / 1000.0 * p.refill
  {
    hide Level, HttpStep, FastAfter, SlowStep, BucketOk;
    SlowBucketsOk(p, calls, n);
    HttpRefinesPlain(p, calls, n);
    assert calls[..n + 1][..n] == calls[..n] && calls[..n + 1][n] == calls[n];
    var slow := SlowAfter(p, calls[..n]);
    LevelAfterCall(p, slow, calls[n], k);
    LevelLater(p, slow, k, if n == 0 then calls[n].now else calls[n - 1].now, calls[n].now);
  }

  lemma SlowBucketsOk(p: Bounds, calls: seq<Call>, n: nat)
    requires Accepted(p) && p.refill > 0.0 && ClockMonotone(calls) && n < |calls|
    ensures forall k | k in SlowAfter(p, calls[..n]) ::
      BucketOk(p, SlowAfter(p, calls[..n])[k], calls[n].now) && (n > 0 ==> BucketOk(p, SlowAfter(p, calls[..n])[k], calls[n - 1].now))
  {
    hide FastAfter, SlowAfter;
    RunRelated(p, calls[..n], calls[0].now);
  }

  lemma SplitElapsed(p: Bounds, t0: int, t1: int, t2: int)
    ensures (t2 - t0) as real / 1000.0 * p.refill == (t1 - t0) as real / 1000.0 * p.refill + (t2 - t1) as real / 1000.0 * p.refill
  {
    var a, b := (t1 - t0) as real / 1000.0, (t2 - t1) as real / 1000.0;
    assert (t2 - t0) as real / 1000.0 == a + b;
    assert (a + b) * p.refill == a * p.refill + b * p.refill;
  }

  lemma {:induction false} AdmittedBound(p: Bounds, calls: seq<Call>, k: string, i: nat, j: nat)
    requires Accepted(p) && p.refill > 0.0 && ClockMonotone(calls) && i < j <= |calls|
    ensures Admitted(p, calls, k, i, j) as real + Level(p, SlowAfter(p, calls[..j]), k, calls[j - 1].now)
         <= p.capacity + (calls[j - 1].now - calls[i].now) as real / 1000.0 * p.refill
  {
    hide Level, SlowAfter, FastAnswer, Accepted, ClockMonotone;
    AdmittedStep(p, calls, k, j - 1);
    if i == j - 1 {
      assert Admitted(p, calls, k, i, j - 1) == 0;
    } else {
      AdmittedBound(p, calls, k, i, j - 1);
      SplitElapsed(p, calls[i].now, calls[j - 2].now, calls[j - 1].now);
    }
  }

  /** Over any window a key is admitted at most capacity + refill × elapsed seconds times. */
  lemma RateIsBounded(p: Bounds, calls: seq<Call>, k: string, i: nat, j: nat)
    requires Accepted(p) && p.refill > 0.0 && ClockMonotone(calls) && i < j <= |calls|
    ensures Admitted(p, calls, k, i, j) as real
         <= p.capacity + (calls[j - 1].now - calls[i].now) as real / 1000.0 * p.refill
  {
    AdmittedBound(p, calls, k, i, j);
    RunRelated(p, calls[..j], calls[0].now);
    LevelLater(p, SlowAfter(p, calls[..j]), k, calls[j - 1].now, calls[j - 1].now);
  }

  // ---------- the bound is reached ----------

  /** When call `i` of the greedy run is made: a burst of `burst` calls, then one call per `gap` milliseconds. */
  function GreedyTime(start: int, gap: nat, burst: nat, i: nat): (t: int)
  {
    if i < burst then start else start + gap * (i - burst + 1)
  }

  function GreedyRun(key: string, start: int, gap: nat, burst: nat, n: nat): (calls: seq<Call>)
    ensures |calls| == n && forall i | 0 <= i < n :: calls[i] == Call(key, GreedyTime(start, gap, burst, i))
  {
    seq(n, i requires 0 <= i < n => Call(key, GreedyTime(start, gap, burst, i)))
  }

  lemma LaterStep(gap: nat, a: nat, b: nat)
    requires a <= b
    ensures gap * a <= gap * b
  {
  }

  lemma GreedyMonotone(key: string, start: int, gap: nat, burst: nat, n: nat)
    ensures ClockMonotone(GreedyRun(key, start, gap, burst, n))
  {
    forall i, j | 0 <= i < j < n ensures GreedyTime(start, gap, burst, i) <= GreedyTime(start, gap, burst, j) {
      if i >= burst { LaterStep(gap, i - burst + 1, j - burst + 1); }
    }
  }

  /** What the greedy run leaves in the bucket: a token less with every call of the burst, then nothing. */
  function GreedyBucket(start: int, gap: nat, burst: nat, n: nat): (b: Bucket)
    requires n > 0
  {
    Bucket(if n < burst then (burst - n) as real else 0.0, GreedyTime(start, gap, burst, n - 1))
  }

  /** One token more after every gap. */
  lemma GapIsAToken(p: Bounds, gap: nat)
    requires p.refill * gap as real == 1000.0
    ensures gap as real / 1000.0 * p.refill == 1.0
  {
  }

  lemma GreedyStep(start: int, gap: nat, burst: nat, n: nat)
    requires n > 0 && burst > 0
    ensures GreedyTime(start, gap, burst, n) - GreedyTime(start, gap, burst, n - 1) == if n < burst then 0 else gap
  {
    if n > burst {
      var a := n - burst;
      assert gap * (a + 1) == gap * a + gap;
    }
  }

  /** A bucket that has gained `gained` tokens since its last call, and does not overflow, pays for one more. */
  lemma SpendsGained(p: Bounds, b: Bucket, now: int, gained: real)
    requires b.last <= now && (now - b.last) as real / 1000.0 * p.refill == gained && 1.0 <= b.tokens + gained <= p.capacity
    ensures Spend(p.capacity, p.refill, b, now, 1.0) == (Bucket(b.tokens + gained - 1.0, now), true)
  {
    assert Max(0, now - b.last) == now - b.last;
    assert Refilled(p.capacity, p.refill, b, now) == b.tokens + gained;
  }

  lemma GreedySpends(p: Bounds, start: int, gap: nat, burst: nat, n: nat)
    requires p.capacity == burst as real && p.refill * gap as real == 1000.0 && burst > 0 && n > 0
    ensures Spend(p.capacity, p.refill, GreedyBucket(start, gap, burst, n), GreedyTime(start, gap, burst, n), 1.0)
      == (GreedyBucket(start, gap, burst, n + 1), true)
  {
    hide GreedyTime, Spend;
    GreedyStep(start, gap, burst, n);
    GapIsAToken(p, gap);
    SpendsGained(p, GreedyBucket(start, gap, burst, n), GreedyTime(start, gap, burst, n), if n < burst then 0.0 else 1.0);
  }

  /** A table whose only key is the one asked for never refuses it. */
  lemma LoneKeyFits(p: Bounds, t: Table, key: string, now: int)
    requires Accepted(p) && t.buckets.Keys <= {key}
    ensures !Saturated(p, t, key, now)
  {
    var s := Swept(p, t, now).buckets;
    if key !in s { assert s.Keys == {}; assert |s| == 0; }
  }

  lemma {:induction false} GreedyAdmitted(p: Bounds, key: string, start: int, gap: nat, burst: nat, n: nat)
    requires Accepted(p) && p.capacity == burst as real && p.refill * gap as real == 1000.0 && p.refill > 0.0 && n > 0
    ensures var calls := GreedyRun(key, start, gap, burst, n);
      && SlowAfter(p, calls) == map[key := GreedyBucket(start, gap, burst, n)]
      && FastAnswer(p, calls, n - 1)
  {
    hide FastAfter, HttpStep, Spend, Refilled, GreedyTime, GreedyBucket, Swept, Saturated;
    var calls, before := GreedyRun(key, start, gap, burst, n), GreedyRun(key, start, gap, burst, n - 1);
    assert calls[..n - 1] == before;
    GreedyMonotone(key, start, gap, burst, n);
    GreedyMonotone(key, start, gap, burst, n - 1);
    var now := calls[n - 1].now;
    RunRelated(p, before, calls[0].now);
    var slow := SlowAfter(p, before);
    if n > 1 {
      GreedyAdmitted(p, key, start, gap, burst, n - 1);
      GreedySpends(p, start, gap, burst, n - 1);
    } else {
      FirstSpends(p, start, gap, burst);
    }
    LoneKeyFits(p, FastAfter(p, before), key, now);
    assert !Refused(p, calls, n - 1);
    SlowAfterCall(p, calls);
    HttpRefinesPlain(p, calls, n - 1);
    assert slow[key := GreedyBucket(start, gap, burst, n)] == map[key := GreedyBucket(start, gap, burst, n)];
  }

  lemma FirstSpends(p: Bounds, start: int, gap: nat, burst: nat)
    requires p.capacity == burst as real && burst > 0
    ensures var now := GreedyTime(start, gap, burst, 0);
      Spend(p.capacity, p.refill, Bucket(p.capacity, now), now, 1.0) == (GreedyBucket(start, gap, burst, 1), true)
  {
    assert Max(0, 0) as real / 1000.0 * p.refill == 0.0;
  }

  lemma {:induction false} GreedyCount(p: Bounds, key: string, start: int, gap: nat, burst: nat, n: nat, j: nat)
    requires Accepted(p) && p.capacity == burst as real && p.refill * gap as real == 1000.0 && p.refill > 0.0 && j <= n
    ensures Admitted(p, GreedyRun(key, start, gap, burst, n), key, 0, j) == j
  {
    hide FastAfter, HttpStep, SlowAfter, GreedyTime, Accepted;
    if j > 0 {
      GreedyCount(p, key, start, gap, burst, n, j - 1);
      GreedyAdmitted(p, key, start, gap, burst, j);
      var all, calls := GreedyRun(key, start, gap, burst, n), GreedyRun(key, start, gap, burst, j);
      assert all[..j - 1] == calls[..j - 1] && all[j - 1] == calls[j - 1];
    }
  }

  /**
   * The bound is reached: where the capacity is a whole number and a token takes a whole number of milliseconds, a key
   * that spends its burst and then asks once per token is admitted exactly capacity + refill × elapsed seconds times.
   */
  lemma RateIsReached(p: Bounds, key: string, start: int, gap: nat, more: nat) returns (calls: seq<Call>)
    requires Accepted(p) && p.capacity == p.capacity.Floor as real && p.refill * gap as real == 1000.0
    ensures ClockMonotone(calls) && |calls| == p.capacity.Floor + more
    ensures Admitted(p, calls, key, 0, |calls|) as real
         == p.capacity + (calls[|calls| - 1].now - calls[0].now) as real / 1000.0 * p.refill
  {
    hide Accepted, Admitted, ClockMonotone, GreedyRun;
    PositiveRefill(p, gap);
    var burst: nat := p.capacity.Floor;
    calls := GreedyRun(key, start, gap, burst, burst + more);
    GreedyMonotone(key, start, gap, burst, burst + more);
    GreedyCount(p, key, start, gap, burst, burst + more, burst + more);
    GreedySpan(p, start, gap, burst, more);
  }

  lemma GreedySpan(p: Bounds, start: int, gap: nat, burst: nat, more: nat)
    requires p.refill * gap as real == 1000.0 && burst > 0
    ensures var elapsed := GreedyTime(start, gap, burst, burst + more - 1) - GreedyTime(start, gap, burst, 0);
      elapsed as real / 1000.0 * p.refill == more as real
  {
    GapIsAToken(p, gap);
    ManyGaps(p, gap, more);
  }

  lemma PositiveRefill(p: Bounds, gap: nat)
    requires Accepted(p) && p.refill * gap as real == 1000.0
    ensures p.refill > 0.0 && p.capacity.Floor > 0
  {
  }

  lemma ManyGaps(p: Bounds, gap: nat, n: nat)
    requires gap as real / 1000.0 * p.refill == 1.0
    ensures (gap * n) as real / 1000.0 * p.refill == n as real
  {
    assert (gap * n) as real == gap as real * n as real;
    assert gap as real * n as real / 1000.0 * p.refill == n as real * (gap as real / 1000.0 * p.refill);
  }
}
