/**
 Token buckets keyed by the username claimed at AUTH. Instants are seconds and tokens are
 exact reals; rounding of floating point numbers is not modelled.
 */
module RateLimit {
  import opened Bytes

  const MAX_BUCKETS: nat := 10000

  datatype Bucket = Bucket(tokens: real, last: real)

  type Buckets = map<Octets, Bucket>

  function Max(a: real, b: real): real {
    if a < b then b else a
  }

  function Min(a: real, b: real): real {
    if a < b then a else b
  }

  /** The time from `then` to `now`, and none when the clock went back. */
  function Since(now: real, before: real): (d: real)
    ensures d >= 0.0
  {
    Max(now - before, 0.0)
  }

  function Refill(b: Bucket, capacity: real, now: real): Bucket {
    Bucket(Min(b.tokens + Since(now, b.last) / 60.0 * capacity, capacity), Max(b.last, now))
  }

  /** One use of a bucket: refilled, then a token taken if there is one. */
  function Use(b: Bucket, capacity: real, now: real): (bool, Bucket) {
    var r := Refill(b, capacity, now);
    if r.tokens >= 1.0 then (true, r.(tokens := r.tokens - 1.0)) else (false, r)
  }

  predicate InRange(b: Bucket, capacity: real) {
    0.0 <= b.tokens <= capacity
  }

  // ----- one bucket over any run of calls

  function LatestOf(from: real, times: seq<real>): (t: real)
    ensures t >= from
    decreases |times|
  {
    if times == [] then from else LatestOf(Max(from, times[0]), times[1..])
  }

  function Grants(b: Bucket, capacity: real, times: seq<real>): nat
    decreases |times|
  {
    if times == [] then 0
    else
      var (ok, b') := Use(b, capacity, times[0]);
      (if ok then 1 else 0) + Grants(b', capacity, times[1..])
  }

  /** The tokens a bucket of this capacity gains between two instants. */
  function Gain(capacity: real, from: real, to: real): real {
    (to - from) / 60.0 * capacity
  }

  lemma GainAdds(capacity: real, a: real, b: real, c: real)
    ensures Gain(capacity, a, b) + Gain(capacity, b, c) == Gain(capacity, a, c)
  {
    assert (b - a) / 60.0 + (c - b) / 60.0 == (c - a) / 60.0;
  }

  lemma Product(x: real, y: real)
    requires x >= 0.0 && y >= 0.0
    ensures x * y >= 0.0
  {
  }

  lemma UseBound(b: Bucket, capacity: real, now: real)
    requires capacity >= 0.0 && InRange(b, capacity)
    ensures var (ok, b') := Use(b, capacity, now);
            && InRange(b', capacity) && b'.last == Max(b.last, now)
            && (if ok then 1.0 else 0.0) + b'.tokens <= b.tokens + Gain(capacity, b.last, b'.last)
  {
    Product(Since(now, b.last) / 60.0, capacity);
  }

  /**
   However the instants jump about, a bucket grants no more than its tokens and the gain up to
   the latest instant: from full, `per_minute + per_minute * (latest - creation) / 60`.
   */
  lemma {:induction false} GrantsBound(b: Bucket, capacity: real, times: seq<real>)
    requires capacity >= 0.0 && InRange(b, capacity)
    ensures Grants(b, capacity, times) as real <= b.tokens + Gain(capacity, b.last, LatestOf(b.last, times))
    decreases |times|
  {
    if times == [] {
      assert Gain(capacity, b.last, b.last) == 0.0;
    } else {
      var (ok, b') := Use(b, capacity, times[0]);
      var latest := LatestOf(b.last, times);
      UseBound(b, capacity, times[0]);
      GrantsBound(b', capacity, times[1..]);
      GainAdds(capacity, b.last, b'.last, latest);
      AddBounds(if ok then 1.0 else 0.0, Grants(b', capacity, times[1..]) as real, b.tokens, b'.tokens,
                Gain(capacity, b.last, b'.last), Gain(capacity, b'.last, latest));
    }
  }

  /** What a bucket holds it gives: refilling takes nothing away, and a whole token is granted. */
  lemma UseGives(b: Bucket, capacity: real, now: real)
    requires capacity >= 0.0 && InRange(b, capacity)
    ensures var (ok, b') := Use(b, capacity, now);
            && (b.tokens >= 1.0 ==> ok) && b'.tokens >= b.tokens - (if ok then 1.0 else 0.0)
  {
    Product(Since(now, b.last) / 60.0, capacity);
  }

  /** A bucket with at least `k` tokens grants the first `k` of any run of calls. */
  lemma {:induction false} GrantsAtLeast(b: Bucket, capacity: real, times: seq<real>, k: nat)
    requires capacity >= 0.0 && InRange(b, capacity) && k as real <= b.tokens
    ensures Grants(b, capacity, times) >= if |times| < k then |times| else k
    decreases |times|
  {
    if times != [] && k > 0 {
      var (ok, b') := Use(b, capacity, times[0]);
      UseBound(b, capacity, times[0]);
      UseGives(b, capacity, times[0]);
      assert (k - 1) as real == k as real - 1.0;
      GrantsAtLeast(b', capacity, times[1..], k - 1);
    }
  }

  /** A full bucket grants as many calls as its capacity, whenever they come. */
  lemma FullGrants(capacity: nat, at: real, times: seq<real>)
    ensures Grants(Bucket(capacity as real, at), capacity as real, times) >= if |times| < capacity then |times| else capacity
  {
    GrantsAtLeast(Bucket(capacity as real, at), capacity as real, times, capacity);
  }

  /** The time one token takes is enough to be granted one, however empty the bucket. */
  lemma WaitIsGranted(b: Bucket, capacity: real, now: real)
    requires capacity >= 1.0 && InRange(b, capacity) && now >= b.last + 60.0 / capacity
    ensures Use(b, capacity, now).0
  {
    var minutes := (now - b.last) / 60.0;
    assert 60.0 / capacity / 60.0 == 1.0 / capacity;
    assert minutes >= 1.0 / capacity;
    Product(minutes - 1.0 / capacity, capacity);
    assert (minutes - 1.0 / capacity) * capacity == minutes * capacity - 1.0 / capacity * capacity;
    assert 1.0 / capacity * capacity == 1.0;
  }

  lemma AddBounds(g: real, rest: real, t: real, t': real, x: real, y: real)
    requires g + t' <= t + x && rest <= t' + y
    ensures g + rest <= t + (x + y)
  {
  }

  // ----- the limiter

  function BucketFor(buckets: Buckets, capacity: real, key: Octets, now: real): Bucket {
    if key in buckets then buckets[key] else Bucket(capacity, now)
  }

  /** How often a key has been granted a token since its bucket was made. */
  ghost function CountOf(granted: map<Octets, nat>, key: Octets): nat {
    if key in granted then granted[key] else 0
  }

  ghost function Tally(granted: map<Octets, nat>, key: Octets, ok: bool): map<Octets, nat> {
    granted[key := CountOf(granted, key) + if ok then 1 else 0]
  }

  ghost function Dated(born: map<Octets, real>, key: Octets, now: real): map<Octets, real> {
    born[key := if key in born then born[key] else now]
  }

  /** One call, on a map that does not have to make room. */
  function Allow(buckets: Buckets, capacity: real, key: Octets, now: real): (bool, Buckets) {
    var (ok, b) := Use(BucketFor(buckets, capacity, key, now), capacity, now);
    (ok, buckets[key := b])
  }

  /** The buckets used within the last `idle` seconds. */
  function Swept(buckets: Buckets, now: real, idle: real): Buckets {
    map k | k in buckets && Since(now, buckets[k].last) < idle :: buckets[k]
  }

  predicate IsIdlest(buckets: Buckets, key: Octets) {
    key in buckets && forall k | k in buckets :: buckets[key].last <= buckets[k].last
  }

  class RateLimiter {
    const perMinute: nat
    var buckets: Buckets
    /** For each bucket now held: when it was made, and how many grants it has given. */
    ghost var born: map<Octets, real>
    ghost var granted: map<Octets, nat>

    ghost predicate Valid()
      reads this
    {
      && |buckets| <= MAX_BUCKETS && (perMinute == 0 ==> buckets == map[])
      && AllBounded(perMinute as real, buckets, born, granted)
    }

    constructor (limit: nat)
      ensures Valid() && perMinute == limit && buckets == map[]
    {
      perMinute, buckets, born, granted := limit, map[], map[], map[];
    }

    /** Drops the least recently used bucket. */
    method EvictIdlest() returns (ghost victim: Octets)
      requires Valid() && buckets != map[]
      modifies this
      ensures Valid() && IsIdlest(old(buckets), victim) && buckets == old(buckets) - {victim}
      ensures |buckets| == |old(buckets)| - 1
    {
      var todo := buckets.Keys;
      var idlest :| idlest in todo;
      while todo != {}
        invariant todo <= buckets.Keys && idlest in buckets
        invariant forall k | k in buckets && k !in todo :: buckets[idlest].last <= buckets[k].last
        decreases |todo|
      {
        var k :| k in todo;
        if buckets[k].last < buckets[idlest].last {
          idlest := k;
        }
        todo := todo - {k};
      }
      victim := idlest;
      assert (buckets - {idlest}).Keys == buckets.Keys - {idlest};
      buckets, born, granted := buckets - {idlest}, born - {idlest}, granted - {idlest};
    }

    /** Takes one token for `key` if one is available. */
    method AllowAt(key: Octets, now: real) returns (ok: bool, ghost base: Buckets)
      requires Valid()
      modifies this
      ensures Valid()
      ensures (ok, buckets) == Answer(base, perMinute, key, now)
      ensures base == old(buckets) ||
              (|old(buckets)| == MAX_BUCKETS && key !in old(buckets) &&
               exists v :: IsIdlest(old(buckets), v) && base == old(buckets) - {v})
      ensures |old(buckets)| < MAX_BUCKETS || key in old(buckets) ==> base == old(buckets)
      ensures perMinute > 0 ==> key in granted && granted[key] == CountOf(old(granted), key) + if ok then 1 else 0
      ensures perMinute == 0 || key !in old(buckets) ==> ok
      ensures key in old(buckets) && old(granted)[key] < perMinute ==> ok
      ensures key in old(buckets) && perMinute > 0 && now >= old(buckets)[key].last + 60.0 / perMinute as real ==> ok
    {
      base := buckets;
      if perMinute == 0 {
        return true, base;
      }
      if |buckets| >= MAX_BUCKETS && key !in buckets {
        ghost var victim := EvictIdlest();
        base := buckets;
      }
      if key !in buckets || granted[key] < perMinute || now >= buckets[key].last + 60.0 / perMinute as real {
        KeyMustGrant(perMinute, buckets, born, granted, key, now);
      }
      ok := UseToken(key, now);
    }

    method UseToken(key: Octets, now: real) returns (ok: bool)
      requires Valid() && perMinute > 0 && (|buckets| < MAX_BUCKETS || key in buckets)
      modifies this
      ensures Valid() && (ok, buckets) == Allow(old(buckets), perMinute as real, key, now)
      ensures granted == Tally(old(granted), key, ok)
    {
      UsedStaysBounded(perMinute as real, buckets, born, granted, key, now);
      born := Dated(born, key, now);
      ok := TakeToken(key, now);
      granted := Tally(granted, key, ok);
    }

    /** One use of the key's bucket, which is made full when there is none. */
    method TakeToken(key: Octets, now: real) returns (ok: bool)
      requires perMinute > 0 && (|buckets| < MAX_BUCKETS || (|buckets| == MAX_BUCKETS && key in buckets))
      modifies `buckets
      ensures (ok, buckets) == Allow(old(buckets), perMinute as real, key, now) && |buckets| <= MAX_BUCKETS
    {
      var capacity := perMinute as real;
      var used := Use(BucketFor(buckets, capacity, key, now), capacity, now);
      assert buckets[key := used.1].Keys == buckets.Keys + {key};
      ok, buckets := used.0, buckets[key := used.1];
    }

    method Prune(now: real, idle: real)
      requires Valid()
      modifies this
      ensures Valid() && buckets == Swept(old(buckets), now, idle)
      ensures forall k | k in old(buckets) :: (k in buckets <==> now - old(buckets)[k].last < idle && idle > 0.0)
    {
      SweptSize(buckets, now, idle);
      ghost var kept := Swept(buckets, now, idle).Keys;
      buckets := Swept(buckets, now, idle);
      born, granted := map k | k in born && k in kept :: born[k], map k | k in granted && k in kept :: granted[k];
    }
  }

  /** A bucket that has granted less than the capacity, or that has waited for a token, grants. */
  lemma MustGrant(perMinute: nat, b: Bucket, count: nat, now: real)
    requires perMinute > 0 && InRange(b, perMinute as real) && perMinute as real <= count as real + b.tokens
    ensures count < perMinute || now >= b.last + 60.0 / perMinute as real ==> Use(b, perMinute as real, now).0
  {
    if count < perMinute {
      assert b.tokens >= (perMinute - count) as real >= 1.0;
      UseGives(b, perMinute as real, now);
    }
    if now >= b.last + 60.0 / perMinute as real {
      WaitIsGranted(b, perMinute as real, now);
    }
  }

  lemma SweptSize(buckets: Buckets, now: real, idle: real)
    ensures Swept(buckets, now, idle).Keys <= buckets.Keys && |Swept(buckets, now, idle)| <= |buckets|
  {
    Smaller(Swept(buckets, now, idle).Keys, buckets.Keys);
  }

  lemma Smaller<T>(a: set<T>, b: set<T>)
    requires a <= b
    ensures |a| <= |b|
  {
    assert b == a + (b - a);
  }

  /** A bucket in range, with grants within its allowance since it was made. */
  ghost predicate Bounded(capacity: real, b: Bucket, since: real, count: nat) {
    && InRange(b, capacity) && since <= b.last
    && capacity <= count as real + b.tokens <= capacity + Gain(capacity, since, b.last)
  }

  ghost predicate AllBounded(capacity: real, buckets: Buckets, born: map<Octets, real>, granted: map<Octets, nat>) {
    && buckets.Keys == born.Keys == granted.Keys
    && forall k | k in buckets :: Bounded(capacity, buckets[k], born[k], granted[k])
  }

  lemma OneStaysBounded(capacity: real, b: Bucket, since: real, count: nat, now: real)
    requires capacity >= 0.0 && Bounded(capacity, b, since, count)
    ensures var (ok, b') := Use(b, capacity, now);
            Bounded(capacity, b', since, if ok then count + 1 else count)
  {
    UseBound(b, capacity, now);
    GainAdds(capacity, since, b.last, Max(b.last, now));
  }

  lemma NewIsBounded(capacity: real, now: real)
    requires capacity >= 0.0
    ensures Bounded(capacity, Bucket(capacity, now), now, 0)
  {
    assert Gain(capacity, now, now) == 0.0;
  }

  lemma UsedStaysBounded(capacity: real, buckets: Buckets, born: map<Octets, real>, granted: map<Octets, nat>,
                         key: Octets, now: real)
    requires capacity >= 0.0 && AllBounded(capacity, buckets, born, granted)
    ensures var (ok, after) := Allow(buckets, capacity, key, now);
            AllBounded(capacity, after, Dated(born, key, now), Tally(granted, key, ok))
  {
    var since := if key in born then born[key] else now;
    NewIsBounded(capacity, now);
    OneStaysBounded(capacity, BucketFor(buckets, capacity, key, now), since, CountOf(granted, key), now);
  }

  /** What a new key, a key still below the limit and a key that has waited for a token can count on. */
  lemma KeyMustGrant(perMinute: nat, buckets: Buckets, born: map<Octets, real>, granted: map<Octets, nat>,
                     key: Octets, now: real)
    requires perMinute > 0 && AllBounded(perMinute as real, buckets, born, granted)
    requires key in buckets && key in granted ==>
               granted[key] < perMinute || now >= buckets[key].last + 60.0 / perMinute as real
    ensures Allow(buckets, perMinute as real, key, now).0
  {
    NewIsBounded(perMinute as real, now);
    MustGrant(perMinute, BucketFor(buckets, perMinute as real, key, now), CountOf(granted, key), now);
  }

  // ----- sweeping is invisible

  datatype Op = Ask(key: Octets, at: real) | Sweep(at: real, idle: real)

  /** One call on a limiter that has room: without a limit no bucket is made. */
  function Answer(buckets: Buckets, perMinute: nat, key: Octets, at: real): (bool, Buckets) {
    if perMinute == 0 then (true, buckets) else Allow(buckets, perMinute as real, key, at)
  }

  /** The answers of a limiter that sweeps, and of one that never forgets a bucket. */
  function Answers(buckets: Buckets, perMinute: nat, ops: seq<Op>, sweeping: bool): seq<bool>
    decreases |ops|
  {
    if ops == [] then []
    else match ops[0]
      case Ask(key, at) =>
        var (ok, next) := Answer(buckets, perMinute, key, at);
        [ok] + Answers(next, perMinute, ops[1..], sweeping)
      case Sweep(at, idle) =>
        Answers(if sweeping then Swept(buckets, at, idle) else buckets, perMinute, ops[1..], sweeping)
  }

  /** The clock does not go back, and nothing used within a minute is swept. */
  predicate Orderly(clock: real, ops: seq<Op>)
    decreases |ops|
  {
    ops == [] || (clock <= ops[0].at && (ops[0].Sweep? ==> ops[0].idle >= 60.0) && Orderly(ops[0].at, ops[1..]))
  }

  /** The buckets missing on one side have been idle for a minute: they would be full again. */
  ghost predicate Forgets(few: Buckets, all: Buckets, capacity: real, clock: real) {
    && (forall k | k in all :: InRange(all[k], capacity))
    && (forall k | k in few :: k in all && few[k] == all[k])
    && (forall k | k in all && k !in few :: all[k].last + 60.0 <= clock)
  }

  lemma IdleIsFull(b: Bucket, capacity: real, now: real)
    requires capacity >= 0.0 && InRange(b, capacity) && b.last + 60.0 <= now
    ensures Use(b, capacity, now) == Use(Bucket(capacity, now), capacity, now)
  {
    var minutes := (now - b.last) / 60.0;
    Product(minutes - 1.0, capacity);
    assert (minutes - 1.0) * capacity == minutes * capacity - capacity;
    assert Refill(b, capacity, now) == Bucket(capacity, now);
    assert Since(now, now) / 60.0 * capacity == 0.0;
    assert Refill(Bucket(capacity, now), capacity, now) == Bucket(capacity, now);
  }

  lemma AskForgets(few: Buckets, all: Buckets, perMinute: nat, clock: real, key: Octets, at: real)
    requires Forgets(few, all, perMinute as real, clock) && clock <= at
    ensures var (ok, few') := Answer(few, perMinute, key, at);
            var (ok', all') := Answer(all, perMinute, key, at);
            ok == ok' && Forgets(few', all', perMinute as real, at)
  {
    var capacity := perMinute as real;
    var b := BucketFor(all, capacity, key, at);
    UseBound(b, capacity, at);
    if key in all && key !in few {
      IdleIsFull(b, capacity, at);
    }
  }

  /** Sweeping changes no answer, on any run of calls and sweeps in order. */
  lemma {:induction false} SweepingIsInvisible(few: Buckets, all: Buckets, perMinute: nat, clock: real, ops: seq<Op>)
    requires Forgets(few, all, perMinute as real, clock) && Orderly(clock, ops)
    ensures Answers(few, perMinute, ops, true) == Answers(all, perMinute, ops, false)
    decreases |ops|
  {
    if ops != [] {
      var at := ops[0].at;
      match ops[0] {
        case Ask(key, _) =>
          AskForgets(few, all, perMinute, clock, key, at);
          SweepingIsInvisible(Answer(few, perMinute, key, at).1, Answer(all, perMinute, key, at).1, perMinute, at, ops[1..]);
        case Sweep(_, idle) =>
          SweepingIsInvisible(Swept(few, at, idle), all, perMinute, at, ops[1..]);
      }
    }
  }

  /** From the start: a limiter that sweeps answers like one that forgets nothing. */
  lemma SweptLimiterAnswersAlike(perMinute: nat, start: real, ops: seq<Op>)
    requires Orderly(start, ops)
    ensures Answers(map[], perMinute, ops, true) == Answers(map[], perMinute, ops, false)
  {
    SweepingIsInvisible(map[], map[], perMinute, start, ops);
  }
}
