/**
  The durable rate limiter (src/data/platform_security.py): one counted row per
  key and aligned bucket, with garbage collection of old rows.
*/
module BucketLimiter {
  type Key(==, !new, 0)

  datatype Limit = Limit(requests: nat, window: nat)
  {
    predicate Valid() {
      1 <= requests && 1 <= window
    }

    /** The number of the aligned bucket a moment falls into. */
    function Bucket(now: real): int
      requires Valid()
    {
      (now / window as real).Floor
    }

    /** When a bucket starts. */
    function Start(bucket: int): real {
      (bucket * window) as real
    }
  }

  datatype RowKey = RowKey(key: Key, bucket: int)

  datatype Row = Row(count: nat, expires: real)

  type Rows = map<RowKey, Row>

  /** Which calls sweep: a digit of the key's hash against the second, modulo 128. */
  function Truncate(x: real): int {
    if x >= 0.0 then x.Floor else -((-x).Floor)
  }

  predicate Sweeps(shard: Key -> nat, key: Key, now: real) {
    (shard(key) + Truncate(now)) % 128 == 0
  }

  function Swept(rows: Rows, now: real): Rows {
    map k | k in rows && rows[k].expires >= now :: rows[k]
  }

  function WithoutOlder(rows: Rows, key: Key, bucket: int): Rows {
    map k | k in rows && !(k.key == key && k.bucket < bucket) :: rows[k]
  }

  /** Inserts the first request of a bucket or counts one more, unless it is full. */
  function Counted(limit: Limit, rows: Rows, k: RowKey): Rows {
    if k !in rows then rows[k := Row(1, limit.Start(k.bucket) + limit.window as real * 2.0)]
    else if rows[k].count < limit.requests then rows[k := rows[k].(count := rows[k].count + 1)]
    else rows
  }

  predicate Admits(limit: Limit, rows: Rows, k: RowKey) {
    k in rows ==> rows[k].count < limit.requests
  }

  datatype Decision = Decision(rows: Rows, allowed: bool, retryAfter: int)

  function Ceiling(x: real): int {
    -((-x).Floor)
  }

  function RetryAfter(limit: Limit, now: real): int
    requires limit.Valid()
  {
    var wait := Ceiling(limit.Start(limit.Bucket(now)) + limit.window as real - now);
    if wait > 1 then wait else 1
  }

  function Decide(limit: Limit, shard: Key -> nat, rows: Rows, key: Key, now: real): Decision
    requires limit.Valid()
  {
    var swept := if Sweeps(shard, key, now) then Swept(rows, now) else rows;
    var current := WithoutOlder(swept, key, limit.Bucket(now));
    var k := RowKey(key, limit.Bucket(now));
    var allowed := Admits(limit, current, k);
    Decision(Counted(limit, current, k), allowed, if allowed then 0 else RetryAfter(limit, now))
  }

  class PostgresRateLimiter {
    const limit: Limit
    const shard: Key -> nat
    var rows: Rows

    constructor (limit: Limit, shard: Key -> nat)
      requires limit.requests >= 1 && limit.window >= 1
      ensures limit.Valid()
      ensures this.limit == limit && this.shard == shard && rows == map[]
    {
      this.limit, this.shard, rows := limit, shard, map[];
    }

    /** One transaction: sweep sometimes, drop the key's older buckets, count. */
    method Allow(key: Key, now: real) returns (allowed: bool, retryAfter: int)
      requires limit.Valid()
      modifies this
      ensures Decision(rows, allowed, retryAfter) == Decide(limit, shard, old(rows), key, now)
    {
      var bucket := limit.Bucket(now);
      if Sweeps(shard, key, now) {
        rows := Swept(rows, now);
      }
      rows := WithoutOlder(rows, key, bucket);
      var k := RowKey(key, bucket);
      if k !in rows {
        rows := rows[k := Row(1, limit.Start(bucket) + limit.window as real * 2.0)];
        return true, 0;
      }
      if rows[k].count < limit.requests {
        rows := rows[k := rows[k].(count := rows[k].count + 1)];
        return true, 0;
      }
      return false, RetryAfter(limit, now);
    }
  }

  /**
    What one call leaves of any rows: the key's older buckets go, on some calls
    the overdue rows of every key go too, and the row of the current bucket
    counts one more unless it is full.
  */
  lemma AllowOutcome(limit: Limit, shard: Key -> nat, rows: Rows, key: Key, now: real)
    requires limit.requests >= 1 && limit.window >= 1
    ensures var bucket, second := (now / limit.window as real).Floor,
                                  if now >= 0.0 then now.Floor else -((-now).Floor);
            var k, decision := RowKey(key, bucket), Decide(limit, shard, rows, key, now);
            var due := (shard(key) + second) % 128 == 0;
            var kept := k in rows && (due ==> rows[k].expires >= now);
            && (decision.allowed <==> kept ==> rows[k].count < limit.requests)
            && k in decision.rows
            && (decision.rows[k]
                == if !kept then Row(1, (bucket * limit.window) as real + 2.0 * limit.window as real)
                   else if decision.allowed then Row(rows[k].count + 1, rows[k].expires)
                   else rows[k])
            && (decision.allowed ==> decision.retryAfter == 0)
            && (!decision.allowed ==> decision.retryAfter >= 1)
            && forall q :: q != k ==>
                 && (q in decision.rows
                     <==> && q in rows && (due ==> rows[q].expires >= now)
                          && !(q.key == key && q.bucket < bucket))
                 && (q in decision.rows ==> decision.rows[q] == rows[q])
  {
  }

  // ---------- buckets ----------

  lemma ProductRises(a: real, b: real, w: real)
    requires w > 0.0 && a <= b
    ensures a * w <= b * w
  {
  }

  lemma ProductRisesStrictly(a: real, b: real, w: real)
    requires w > 0.0 && a < b
    ensures a * w < b * w
  {
  }

  lemma QuotientTimes(x: real, w: real)
    requires w > 0.0
    ensures (x / w) * w == x
  {
  }

  lemma StartBelow(limit: Limit, b: int, now: real)
    requires limit.Valid() && b as real <= now / limit.window as real
    ensures limit.Start(b) <= now
  {
    QuotientTimes(now, limit.window as real);
    ProductRises(b as real, now / limit.window as real, limit.window as real);
    StartIs(limit, b);
  }

  lemma StartAbove(limit: Limit, b: int, now: real)
    requires limit.Valid() && now / limit.window as real < b as real
    ensures now < limit.Start(b)
  {
    QuotientTimes(now, limit.window as real);
    ProductRisesStrictly(now / limit.window as real, b as real, limit.window as real);
    StartIs(limit, b);
  }

  /** A bucket is the half-open interval of one window length around its moment. */
  lemma BucketBounds(limit: Limit, now: real)
    requires limit.Valid()
    ensures limit.Start(limit.Bucket(now)) <= now < limit.Start(limit.Bucket(now)) + limit.window as real
  {
    StartBelow(limit, limit.Bucket(now), now);
    StartAbove(limit, limit.Bucket(now) + 1, now);
    NextStart(limit, limit.Bucket(now));
  }

  lemma StartIs(limit: Limit, b: int)
    ensures limit.Start(b) == b as real * limit.window as real
  {
  }

  lemma NextStart(limit: Limit, b: int)
    ensures limit.Start(b + 1) == limit.Start(b) + limit.window as real
  {
    assert (b + 1) * limit.window == b * limit.window + limit.window;
  }

  lemma StartMono(limit: Limit, b: int, b': int)
    requires limit.Valid()
    ensures b <= b' ==> limit.Start(b) <= limit.Start(b')
    ensures b < b' ==> limit.Start(b) < limit.Start(b')
  {
    if b < b' {
      IntegerProduct(b, b', limit.window);
    }
  }

  lemma IntegerProduct(b: int, b': int, w: int)
    requires w > 0 && b < b'
    ensures b * w < b' * w
  {
  }

  /** A moment lies in the bucket whose interval holds it. */
  lemma BucketUnique(limit: Limit, now: real, b: int)
    requires limit.Valid() && limit.Start(b) <= now < limit.Start(b) + limit.window as real
    ensures limit.Bucket(now) == b
  {
    var c := limit.Bucket(now);
    BucketBounds(limit, now);
    NextStart(limit, b);
    NextStart(limit, c);
    StartMono(limit, b + 1, c);
    StartMono(limit, c + 1, b);
  }

  lemma BucketMono(limit: Limit, now: real, later: real)
    requires limit.Valid() && now <= later
    ensures limit.Bucket(now) <= limit.Bucket(later)
  {
    BucketBounds(limit, now);
    BucketBounds(limit, later);
    var b, c := limit.Bucket(now), limit.Bucket(later);
    NextStart(limit, c);
    StartMono(limit, c + 1, b);
  }

  // ---------- runs ----------

  datatype Call = Call(key: Key, now: real)

  datatype Past = Past(rows: Rows, grants: seq<Call>)

  function Run(limit: Limit, shard: Key -> nat, calls: seq<Call>): Past
    requires limit.Valid()
  {
    if calls == [] then Past(map[], [])
    else
      var past, call := Run(limit, shard, calls[..|calls| - 1]), calls[|calls| - 1];
      var decision := Decide(limit, shard, past.rows, call.key, call.now);
      Past(decision.rows, if decision.allowed then past.grants + [call] else past.grants)
  }

  predicate ClockRises(calls: seq<Call>) {
    forall i, j :: 0 <= i < j < |calls| ==> calls[i].now <= calls[j].now
  }

  /** How many grants of a key fell into a bucket. */
  function Granted(limit: Limit, grants: seq<Call>, k: RowKey): nat
    requires limit.Valid()
  {
    if grants == [] then 0
    else
      var last := grants[|grants| - 1];
      Granted(limit, grants[..|grants| - 1], k)
      + (if last.key == k.key && limit.Bucket(last.now) == k.bucket then 1 else 0)
  }

  lemma GrantedAppend(limit: Limit, grants: seq<Call>, call: Call, k: RowKey)
    requires limit.Valid()
    ensures Granted(limit, grants + [call], k)
         == Granted(limit, grants, k)
            + (if call.key == k.key && limit.Bucket(call.now) == k.bucket then 1 else 0)
  {
    assert (grants + [call])[..|grants|] == grants;
  }

  /** The row count of a live bucket is its number of grants. */
  predicate RowExact(limit: Limit, rows: Rows, grants: seq<Call>, k: RowKey)
    requires limit.Valid()
  {
    Granted(limit, grants, k) == if k in rows then rows[k].count else 0
  }

  ghost predicate Kept(limit: Limit, calls: seq<Call>, past: Past)
    requires limit.Valid()
  {
    && (forall k :: k in past.rows ==>
          past.rows[k].count <= limit.requests
          && past.rows[k].expires == limit.Start(k.bucket) + limit.window as real * 2.0)
    && (forall k: RowKey :: Granted(limit, past.grants, k) <= limit.requests)
    && (calls == [] ==> past == Past(map[], []))
    && (calls != [] ==>
          forall k: RowKey :: limit.Bucket(calls[|calls| - 1].now) <= k.bucket ==>
            RowExact(limit, past.rows, past.grants, k))
  }

  /** Garbage collection never deletes a bucket that is still counting. */
  lemma LiveRowsStay(limit: Limit, shard: Key -> nat, rows: Rows, key: Key, now: real, k: RowKey)
    requires limit.Valid() && k in rows && limit.Bucket(now) <= k.bucket
    requires rows[k].expires == limit.Start(k.bucket) + limit.window as real * 2.0
    ensures k in WithoutOlder(if Sweeps(shard, key, now) then Swept(rows, now) else rows, key, limit.Bucket(now))
  {
    BucketBounds(limit, now);
    StartMono(limit, limit.Bucket(now), k.bucket);
  }

  lemma {:induction false} StepExact(
    limit: Limit, shard: Key -> nat, past: Past, call: Call, k: RowKey)
    requires limit.Valid() && limit.Bucket(call.now) <= k.bucket
    requires RowExact(limit, past.rows, past.grants, k)
    requires k in past.rows ==>
               past.rows[k].expires == limit.Start(k.bucket) + limit.window as real * 2.0
    ensures var decision := Decide(limit, shard, past.rows, call.key, call.now);
            RowExact(limit, decision.rows, if decision.allowed then past.grants + [call] else past.grants, k)
  {
    GrantedAppend(limit, past.grants, call, k);
    if k in past.rows {
      LiveRowsStay(limit, shard, past.rows, call.key, call.now, k);
    }
  }

  lemma StepRows(limit: Limit, shard: Key -> nat, rows: Rows, call: Call)
    requires limit.Valid()
    requires forall k :: k in rows ==>
               rows[k].count <= limit.requests
               && rows[k].expires == limit.Start(k.bucket) + limit.window as real * 2.0
    ensures var rows' := Decide(limit, shard, rows, call.key, call.now).rows;
            forall k :: k in rows' ==>
              rows'[k].count <= limit.requests
              && rows'[k].expires == limit.Start(k.bucket) + limit.window as real * 2.0
  {
  }

  /** Rows of buckets not yet over are exact also at an earlier moment's bucket. */
  lemma {:induction false} StillExact(limit: Limit, calls: seq<Call>, past: Past, k: RowKey)
    requires limit.Valid() && calls != [] && ClockRises(calls) && Kept(limit, calls[..|calls| - 1], past)
    requires limit.Bucket(calls[|calls| - 1].now) <= k.bucket
    ensures RowExact(limit, past.rows, past.grants, k)
  {
    if |calls| > 1 {
      var n := |calls| - 1;
      assert calls[..n][|calls[..n]| - 1] == calls[n - 1];
      BucketMono(limit, calls[n - 1].now, calls[n].now);
    }
  }

  lemma {:induction false} RunKept(limit: Limit, shard: Key -> nat, calls: seq<Call>)
    requires limit.Valid() && ClockRises(calls)
    ensures Kept(limit, calls, Run(limit, shard, calls))
    decreases |calls|
  {
    if calls == [] {
    } else {
      var n := |calls| - 1;
      var past, call := Run(limit, shard, calls[..n]), calls[n];
      var past' := Run(limit, shard, calls);
      RunKept(limit, shard, calls[..n]);
      StepRows(limit, shard, past.rows, call);
      forall k: RowKey | limit.Bucket(call.now) <= k.bucket
        ensures RowExact(limit, past'.rows, past'.grants, k)
      {
        StillExact(limit, calls, past, k);
        StepExact(limit, shard, past, call, k);
      }
      forall k: RowKey ensures Granted(limit, past'.grants, k) <= limit.requests {
        GrantedAppend(limit, past.grants, call, k);
        if k == RowKey(call.key, limit.Bucket(call.now)) {
          assert RowExact(limit, past'.rows, past'.grants, k);
        }
      }
    }
  }

  /** No more grants per key and aligned bucket than configured. */
  lemma BucketHolds(limit: Limit, shard: Key -> nat, calls: seq<Call>, k: RowKey)
    requires limit.Valid() && ClockRises(calls)
    ensures Granted(limit, Run(limit, shard, calls).grants, k) <= limit.requests
  {
    RunKept(limit, shard, calls);
  }

  /** A request is granted exactly while its bucket has seen fewer grants of its key than configured. */
  lemma GrantedUntilFull(limit: Limit, shard: Key -> nat, calls: seq<Call>, call: Call)
    requires limit.Valid() && ClockRises(calls + [call])
    ensures var past := Run(limit, shard, calls);
            Decide(limit, shard, past.rows, call.key, call.now).allowed
            <==> Granted(limit, past.grants, RowKey(call.key, limit.Bucket(call.now))) < limit.requests
  {
    var past, k := Run(limit, shard, calls), RowKey(call.key, limit.Bucket(call.now));
    assert (calls + [call])[..|calls|] == calls;
    forall i, j | 0 <= i < j < |calls| ensures calls[i].now <= calls[j].now {
      assert (calls + [call])[i].now <= (calls + [call])[j].now;
    }
    RunKept(limit, shard, calls);
    StillExact(limit, calls + [call], past, k);
    if k in past.rows {
      LiveRowsStay(limit, shard, past.rows, call.key, call.now, k);
    }
  }

  /** How many grants of a key fell into the window (t - W, t]. */
  function GrantedIn(limit: Limit, grants: seq<Call>, key: Key, t: real): nat {
    if grants == [] then 0
    else
      var last := grants[|grants| - 1];
      GrantedIn(limit, grants[..|grants| - 1], key, t)
      + (if last.key == key && t - limit.window as real < last.now <= t then 1 else 0)
  }

  lemma TwoBuckets(limit: Limit, now: real, t: real)
    requires limit.Valid() && t - limit.window as real < now <= t
    ensures limit.Bucket(now) == limit.Bucket(t) || limit.Bucket(now) == limit.Bucket(t) - 1
  {
    BucketMono(limit, now, t);
    BucketBounds(limit, now);
    BucketBounds(limit, t);
    var b, c := limit.Bucket(now), limit.Bucket(t);
    NextStart(limit, b);
    NextStart(limit, b + 1);
    StartMono(limit, b + 2, c);
  }

  lemma {:induction false} WindowSplits(limit: Limit, grants: seq<Call>, key: Key, t: real)
    requires limit.Valid()
    ensures GrantedIn(limit, grants, key, t)
         <= Granted(limit, grants, RowKey(key, limit.Bucket(t)))
            + Granted(limit, grants, RowKey(key, limit.Bucket(t) - 1))
    decreases |grants|
  {
    if grants == [] {
    } else {
      var last := grants[|grants| - 1];
      WindowSplits(limit, grants[..|grants| - 1], key, t);
      if last.key == key && t - limit.window as real < last.now <= t {
        TwoBuckets(limit, last.now, t);
      }
    }
  }

  /** Any window of one window length, aligned or not, holds at most twice as many. */
  lemma WindowHoldsTwice(limit: Limit, shard: Key -> nat, calls: seq<Call>, key: Key, t: real)
    requires limit.Valid() && ClockRises(calls)
    ensures GrantedIn(limit, Run(limit, shard, calls).grants, key, t) <= 2 * limit.requests
  {
    var grants := Run(limit, shard, calls).grants;
    WindowSplits(limit, grants, key, t);
    BucketHolds(limit, shard, calls, RowKey(key, limit.Bucket(t)));
    BucketHolds(limit, shard, calls, RowKey(key, limit.Bucket(t) - 1));
  }

  /** Coming back after the retry hint always reaches a later bucket, and no fewer whole seconds do. */
  lemma RetryReachesLater(limit: Limit, now: real, s: nat)
    requires limit.Valid()
    ensures limit.Bucket(now + s as real) > limit.Bucket(now) <==> s >= RetryAfter(limit, now)
  {
    var b := limit.Bucket(now);
    var later := now + s as real;
    BucketBounds(limit, now);
    NextStart(limit, b);
    if s < RetryAfter(limit, now) {
      BucketUnique(limit, later, b);
    } else {
      BucketBounds(limit, later);
      StartMono(limit, limit.Bucket(later), b);
    }
  }
}
