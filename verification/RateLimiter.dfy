/**
  The per-IP rate limiter: a map of token buckets, swept of entries not seen for ten minutes.

  A bucket follows the documented contract of golang.org/x/time/rate, with exact arithmetic: it fills at `limit` tokens
  a second up to `burst`, starts full, and a request takes one token if there is one. Times are in seconds.
*/
module RateLimiter {

  const TTL: real := 600.0
  const SWEEP_EVERY: real := 60.0

  datatype Params = Params(limit: real, burst: nat)

  datatype Bucket = Bucket(tokens: real, last: real)

  datatype Entry = Entry(bucket: Bucket, lastSeen: real)

  function Cap(x: real, y: real): real {
    if x < y then x else y
  }

  /** The tokens that flow in during `elapsed` seconds. */
  function Inflow(limit: real, elapsed: real): real {
    limit * elapsed
  }

  /** The tokens at time `now`; a clock that stands still or runs backwards adds none. */
  function Available(p: Params, b: Bucket, now: real): real {
    Cap(p.burst as real, if now <= b.last then b.tokens else b.tokens + Inflow(p.limit, now - b.last))
  }

  /** A bucket fills within the time after which it may be forgotten. */
  predicate BurstFits(p: Params) {
    p.limit > 0.0 && p.burst as real <= p.limit * 600.0
  }

  function NewBucket(p: Params, now: real): Bucket {
    Bucket(p.burst as real, now)
  }

  predicate Allows(p: Params, b: Bucket, now: real) {
    Available(p, b, now) >= 1.0
  }

  /** The bucket after a request: a denied request leaves it as it was. */
  function Use(p: Params, b: Bucket, now: real): Bucket {
    if Allows(p, b, now) then Bucket(Available(p, b, now) - 1.0, now) else b
  }

  // ---------- The limiter as functions on its map ----------

  function BucketFor(p: Params, m: map<string, Entry>, ip: string, now: real): Bucket {
    if ip in m then m[ip].bucket else NewBucket(p, now)
  }

  function Requested(p: Params, m: map<string, Entry>, ip: string, now: real): map<string, Entry> {
    m[ip := Entry(Use(p, BucketFor(p, m, ip, now), now), now)]
  }

  predicate Stale(e: Entry, now: real) {
    e.lastSeen < now - TTL
  }

  function Swept(m: map<string, Entry>, now: real): (r: map<string, Entry>)
    ensures forall ip :: ip in r <==> ip in m && !Stale(m[ip], now)
    ensures forall ip :: ip in r ==> r[ip] == m[ip]
  {
    map ip | ip in m && !Stale(m[ip], now) :: m[ip]
  }

  // ---------- The limiter itself ----------

  predicate HasPrefix(s: string, prefix: string) {
    |prefix| <= |s| && s[..|prefix|] == prefix
  }

  class Limiter {
    const enabled: bool
    const params: Params
    var entries: map<string, Entry>

    constructor (enabled: bool, params: Params)
      ensures this.enabled == enabled && this.params == params && entries == map[]
    {
      this.enabled, this.params, entries := enabled, params, map[];
    }

    /** getLimiter: the entry is created full, and marked as seen. */
    method GetLimiter(ip: string, now: real) returns (b: Bucket)
      modifies this
      ensures b == BucketFor(params, old(entries), ip, now)
      ensures entries == old(entries)[ip := Entry(b, now)]
    {
      if ip !in entries {
        entries := entries[ip := Entry(NewBucket(params, now), now)];
      }
      var e := entries[ip];
      entries := entries[ip := e.(lastSeen := now)];
      b := e.bucket;
    }

    /** The middleware: is the request let through? */
    method Serve(path: string, ip: string, now: real) returns (ok: bool)
      modifies this
      ensures !enabled || HasPrefix(path, "/actuator/") ==> ok && entries == old(entries)
      ensures enabled && !HasPrefix(path, "/actuator/") ==>
                && ok == Allows(params, BucketFor(params, old(entries), ip, now), now)
                && entries == Requested(params, old(entries), ip, now)
    {
      if !enabled || HasPrefix(path, "/actuator/") {
        return true;
      }
      var b := GetLimiter(ip, now);
      ok := Allows(params, b, now);
      entries := entries[ip := entries[ip].(bucket := Use(params, b, now))];
    }

    /** One pass of the janitor, deleting from the map while iterating over it. */
    method Sweep(now: real)
      modifies this
      ensures entries == Swept(old(entries), now)
      ensures forall ip :: ip in entries <==> ip in old(entries) && old(entries)[ip].lastSeen >= now - 600.0
    {
      var cutoff := now - TTL;
      var left := entries.Keys;
      while left != {}
        invariant left <= entries.Keys <= old(entries).Keys
        invariant forall ip :: ip in entries ==> entries[ip] == old(entries)[ip]
        invariant forall ip :: ip in old(entries) && ip !in left ==> (ip in entries <==> !Stale(old(entries)[ip], now))
        decreases left
      {
        var ip :| ip in left;
        left := left - {ip};
        if entries[ip].lastSeen < cutoff {
          entries := entries - {ip};
        }
      }
    }
  }

  // ---------- Traces ----------

  datatype Tick = Request(ip: string, at: real) | Sweep(at: real)

  predicate Monotone(ts: seq<Tick>) {
    forall i, j :: 0 <= i < j < |ts| ==> ts[i].at <= ts[j].at
  }

  /** The map after a trace, starting empty. */
  function After(p: Params, ts: seq<Tick>): map<string, Entry> {
    if ts == [] then map[]
    else
      var m := After(p, ts[..|ts| - 1]);
      match ts[|ts| - 1]
      case Request(ip, t) => Requested(p, m, ip, t)
      case Sweep(t) => Swept(m, t)
  }

  /** The swept limiter's decision on the request at position `i`. */
  predicate Decides(p: Params, ts: seq<Tick>, i: nat)
    requires i < |ts| && ts[i].Request?
  {
    Allows(p, BucketFor(p, After(p, ts[..i]), ts[i].ip, ts[i].at), ts[i].at)
  }

  // ---------- The reference: one bucket per IP, never forgotten ----------

  /** The times at which `ip` sent a request. */
  function OwnTimes(ts: seq<Tick>, ip: string): seq<real> {
    if ts == [] then []
    else
      var rest := OwnTimes(ts[..|ts| - 1], ip);
      var t := ts[|ts| - 1];
      if t.Request? && t.ip == ip then rest + [t.at] else rest
  }

  function BucketAfter(p: Params, times: seq<real>): Bucket
    requires times != []
  {
    var n := |times| - 1;
    Use(p, if n == 0 then NewBucket(p, times[0]) else BucketAfter(p, times[..n]), times[n])
  }

  /** The decision on the last of the requests made at `times`, by a bucket that saw all of them and nothing else. */
  predicate ReferenceAllows(p: Params, times: seq<real>)
    requires times != []
  {
    var n := |times| - 1;
    Allows(p, if n == 0 then NewBucket(p, times[0]) else BucketAfter(p, times[..n]), times[n])
  }

  predicate Sorted(times: seq<real>) {
    forall i, j :: 0 <= i < j < |times| ==> times[i] <= times[j]
  }

  lemma OwnTimesSnoc(ts: seq<Tick>, t: Tick, ip: string)
    ensures OwnTimes(ts + [t], ip) == if t.Request? && t.ip == ip then OwnTimes(ts, ip) + [t.at] else OwnTimes(ts, ip)
  {
    assert (ts + [t])[..|ts|] == ts;
  }

  /** An IP's own times are in order and none is later than the last event. */
  lemma {:induction false} OwnTimesSorted(ts: seq<Tick>, ip: string)
    requires Monotone(ts)
    ensures Sorted(OwnTimes(ts, ip))
    ensures forall i :: 0 <= i < |OwnTimes(ts, ip)| ==> OwnTimes(ts, ip)[i] <= ts[|ts| - 1].at
  {
    if ts == [] {
    } else {
      OwnTimesSorted(ts[..|ts| - 1], ip);
    }
  }

  /** The tokens are never negative, and the bucket was last changed at or before the last request. */
  lemma {:induction false} BucketSane(p: Params, times: seq<real>)
    requires times != [] && Sorted(times) && p.limit > 0.0
    ensures BucketAfter(p, times).tokens >= 0.0 && BucketAfter(p, times).last <= times[|times| - 1]
  {
    var n := |times| - 1;
    if n == 0 {
    } else {
      BucketSane(p, times[..n]);
    }
  }

  lemma MulMonotone(limit: real, x: real, y: real)
    requires limit > 0.0 && x <= y
    ensures Inflow(limit, x) <= Inflow(limit, y)
  {
    assert limit * (y - x) >= 0.0;
  }

  lemma MulNonNegative(limit: real, x: real)
    requires limit > 0.0 && x >= 0.0
    ensures Inflow(limit, x) >= 0.0
  {
  }

  /** At the moment a bucket was last changed, or before, it holds just its tokens. */
  lemma NothingFlowsAtOnce(p: Params, b: Bucket, now: real)
    requires now <= b.last
    ensures Available(p, b, now) == Cap(p.burst as real, b.tokens)
  {
  }

  /** A bucket left alone for ten minutes is full again, if the burst fits into ten minutes of filling. */
  lemma RefillsInTtl(p: Params, b: Bucket, now: real)
    requires BurstFits(p)
    requires b.tokens >= 0.0 && b.last + TTL < now
    ensures Available(p, b, now) == p.burst as real
  {
    MulMonotone(p.limit, TTL, now - b.last);
  }

  /** What the swept map knows about `ip`, against a bucket that never forgets. */
  ghost predicate Remembers(p: Params, m: map<string, Entry>, times: seq<real>, ip: string, now: real) {
    if ip in m then
      && times != [] && m[ip].lastSeen == times[|times| - 1]
      && (p.burst == 0 || m[ip].bucket == BucketAfter(p, times))
    else times != [] ==> times[|times| - 1] + TTL < now
  }

  /** Forgotten or not, the bucket found for `ip` at `now` has the tokens of the one that never forgets. */
  lemma SameTokens(p: Params, m: map<string, Entry>, times: seq<real>, ip: string, before: real, now: real)
    requires BurstFits(p)
    requires Remembers(p, m, times, ip, before) && before <= now && Sorted(times + [now])
    ensures ReferenceAllows(p, times + [now]) == Allows(p, BucketFor(p, m, ip, now), now)
    ensures p.burst == 0 || BucketAfter(p, times + [now]) == Use(p, BucketFor(p, m, ip, now), now)
  {
    var all := times + [now];
    assert all[..|times|] == times;
    if times != [] {
      assert Sorted(times) by {
        assert forall i :: 0 <= i < |times| ==> times[i] == all[i];
      }
      BucketSane(p, times);
      if ip !in m {
        RefillsInTtl(p, BucketAfter(p, times), now);
      }
    }
  }

  lemma {:induction false} MapRemembers(p: Params, ts: seq<Tick>, ip: string)
    requires BurstFits(p) && Monotone(ts) && ts != []
    ensures Remembers(p, After(p, ts), OwnTimes(ts, ip), ip, ts[|ts| - 1].at)
  {
    var n := |ts| - 1;
    var t := ts[n];
    if n == 0 {
      assert ts[..n] == [];
      assert OwnTimes(ts[..n], ip) == [] && After(p, ts[..n]) == map[];
    } else {
      MapRemembers(p, ts[..n], ip);
      OwnTimesSorted(ts, ip);
      if t.Request? && t.ip == ip {
        SameTokens(p, After(p, ts[..n]), OwnTimes(ts[..n], ip), ip, ts[n - 1].at, t.at);
      }
    }
  }

  /** The swept limiter agrees with the reference on every request of the trace. */
  ghost predicate Agrees(p: Params, ts: seq<Tick>) {
    forall i :: 0 <= i < |ts| && ts[i].Request? ==>
      Decides(p, ts, i) == ReferenceAllows(p, OwnTimes(ts[..i], ts[i].ip) + [ts[i].at])
  }

  /**
    Eviction is unobservable: for every trace over any IPs with any sweeps, each decision is the one of a bucket that
    saw all requests of that IP, is never forgotten, and knows nothing of other IPs or of sweeps.
  */
  lemma EvictionUnobservable(p: Params, ts: seq<Tick>)
    requires BurstFits(p) && Monotone(ts)
    ensures Agrees(p, ts)
  {
    forall i | 0 <= i < |ts| && ts[i].Request?
      ensures Decides(p, ts, i) == ReferenceAllows(p, OwnTimes(ts[..i], ts[i].ip) + [ts[i].at])
    {
      var ip, now := ts[i].ip, ts[i].at;
      var before := ts[..i];
      assert ts[..i + 1] == before + [ts[i]];
      OwnTimesSnoc(before, ts[i], ip);
      OwnTimesSorted(ts[..i + 1], ip);
      if i > 0 {
        MapRemembers(p, before, ip);
        SameTokens(p, After(p, before), OwnTimes(before, ip), ip, ts[i - 1].at, now);
      } else {
        assert before == [];
        assert OwnTimes(before, ip) + [now] == [now];
      }
    }
  }

  // ---------- When the burst does not fit ----------

  function Repeat(n: nat, t: real): (r: seq<real>)
    ensures |r| == n && forall i :: 0 <= i < n ==> r[i] == t
  {
    if n == 0 then [] else Repeat(n - 1, t) + [t]
  }

  function Burst(n: nat, ip: string, t: real): (r: seq<Tick>)
    ensures |r| == n && forall i :: 0 <= i < n ==> r[i] == Request(ip, t)
  {
    if n == 0 then [] else Burst(n - 1, ip, t) + [Request(ip, t)]
  }

  /** A burst from one IP, a sweep once it has been forgotten, and the same burst again. */
  function Probe(p: Params, ip: string, t: real): seq<Tick> {
    Burst(p.burst, ip, 0.0) + [Sweep(t)] + Burst(p.burst, ip, t)
  }

  lemma Snoc<T>(a: seq<T>, b: seq<T>, x: T)
    ensures a + (b + [x]) == (a + b) + [x] && (a + (b + [x]))[..|a| + |b|] == a + b
  {
  }

  lemma AfterSnoc(p: Params, ts: seq<Tick>, ip: string, t: real)
    ensures After(p, ts + [Request(ip, t)]) == Requested(p, After(p, ts), ip, t)
  {
    assert (ts + [Request(ip, t)])[..|ts|] == ts;
  }

  lemma BucketSnoc(p: Params, times: seq<real>, t: real)
    requires times != []
    ensures BucketAfter(p, times + [t]) == Use(p, BucketAfter(p, times), t)
    ensures ReferenceAllows(p, times + [t]) == Allows(p, BucketAfter(p, times), t)
  {
    assert (times + [t])[..|times|] == times;
  }

  /** Requests made together drain a full bucket one token at a time. */
  lemma {:induction false} Drains(p: Params, n: nat, t: real)
    requires 1 <= n <= p.burst && p.limit > 0.0
    ensures BucketAfter(p, Repeat(n, t)) == Bucket((p.burst - n) as real, t)
  {
    if n == 1 {
      assert Repeat(1, t) == [t];
    } else {
      Drains(p, n - 1, t);
      BucketSnoc(p, Repeat(n - 1, t), t);
    }
  }

  lemma {:induction false} BurstTimes(ts: seq<Tick>, ip: string, n: nat, t: real)
    ensures OwnTimes(ts + Burst(n, ip, t), ip) == OwnTimes(ts, ip) + Repeat(n, t)
  {
    if n == 0 {
      assert ts + Burst(n, ip, t) == ts;
      assert OwnTimes(ts, ip) + [] == OwnTimes(ts, ip);
    } else {
      BurstTimes(ts, ip, n - 1, t);
      Snoc(ts, Burst(n - 1, ip, t), Request(ip, t));
      OwnTimesSnoc(ts + Burst(n - 1, ip, t), Request(ip, t), ip);
      Snoc(OwnTimes(ts, ip), Repeat(n - 1, t), t);
    }
  }

  /** Within one instant a bucket that holds k tokens lets k requests through. */
  lemma TakesOneAtOnce(p: Params, k: nat, t: real)
    requires k <= p.burst
    ensures Allows(p, Bucket(k as real, t), t) <==> k >= 1
    ensures k >= 1 ==> Use(p, Bucket(k as real, t), t) == Bucket((k - 1) as real, t)
  {
    NothingFlowsAtOnce(p, Bucket(k as real, t), t);
  }

  lemma RequestedAt(p: Params, m: map<string, Entry>, ip: string, k: nat, t: real)
    requires 1 <= k <= p.burst && BucketFor(p, m, ip, t) == Bucket(k as real, t)
    ensures var m' := Requested(p, m, ip, t); ip in m' && m'[ip] == Entry(Bucket((k - 1) as real, t), t)
  {
    TakesOneAtOnce(p, k, t);
  }

  /** The bucket `ip` meets after `n` requests at `t`, when it was forgotten before them. */
  lemma {:induction false} BurstPasses(p: Params, ts: seq<Tick>, ip: string, n: nat, t: real)
    requires ip !in After(p, ts) && n <= p.burst
    ensures BucketFor(p, After(p, ts + Burst(n, ip, t)), ip, t) == Bucket((p.burst - n) as real, t)
    ensures n > 0 ==> ip in After(p, ts + Burst(n, ip, t)) && After(p, ts + Burst(n, ip, t))[ip].lastSeen == t
  {
    if n == 0 {
      assert ts + Burst(n, ip, t) == ts;
    } else {
      BurstPasses(p, ts, ip, n - 1, t);
      RequestedAt(p, After(p, ts + Burst(n - 1, ip, t)), ip, p.burst - n + 1, t);
      assert ts + Burst(n, ip, t) == ts + Burst(n - 1, ip, t) + [Request(ip, t)];
      AfterSnoc(p, ts + Burst(n - 1, ip, t), ip, t);
    }
  }

  /** Nothing flows in within one instant: a bucket that allowed n requests at `t` had n tokens, and has lost them. */
  lemma {:induction false} AllowedTakeTokens(p: Params, times: seq<real>, n: nat, t: real)
    requires times != [] && n >= 1
    requires forall k :: 0 <= k < n ==> ReferenceAllows(p, times + Repeat(k, t) + [t])
    ensures BucketAfter(p, times + Repeat(n, t)) == Bucket(Available(p, BucketAfter(p, times), t) - n as real, t)
    ensures n as real <= Available(p, BucketAfter(p, times), t)
  {
    var earlier := times + Repeat(n - 1, t);
    Snoc(times, Repeat(n - 1, t), t);
    BucketSnoc(p, earlier, t);
    assert ReferenceAllows(p, earlier + [t]);
    if n == 1 {
      assert earlier == times;
    } else {
      AllowedTakeTokens(p, times, n - 1, t);
      NothingFlowsAtOnce(p, BucketAfter(p, earlier), t);
    }
  }

  /** A time by which the bucket may be forgotten, though it is not full again. */
  lemma ForgottenTooEarly(p: Params) returns (t: real)
    requires p.limit > 0.0 && !BurstFits(p)
    ensures TTL < t && Inflow(p.limit, t) < p.burst as real
  {
    var full := p.burst as real / p.limit;
    assert full * p.limit == p.burst as real;
    if full <= TTL {
      MulMonotone(p.limit, full, TTL);
    }
    t := (full + TTL) / 2.0;
    assert p.limit * (full - t) > 0.0;
  }

  /** If the burst takes more than ten minutes to fill, some trace tells a swept limiter from one that never forgets. */
  lemma EvictionObservable(p: Params, ip: string) returns (ts: seq<Tick>)
    requires p.limit > 0.0 && !BurstFits(p)
    ensures Monotone(ts) && !Agrees(p, ts)
  {
    var t := ForgottenTooEarly(p);
    MulMonotone(p.limit, 0.0, TTL);
    ts := Probe(p, ip, t);
    ProbeTakesTooMuch(p, t);
    if Agrees(p, ts) {
      forall k | 0 <= k < p.burst
        ensures ReferenceAllows(p, Repeat(p.burst, 0.0) + Repeat(k, t) + [t])
      {
        ProbeAllows(p, ip, t, k);
      }
    }
  }

  /** Would a reference bucket drained at time 0 allow a whole second burst at `t`? */
  ghost predicate AllowsSecondBurst(p: Params, t: real) {
    forall k :: 0 <= k < p.burst ==> ReferenceAllows(p, Repeat(p.burst, 0.0) + Repeat(k, t) + [t])
  }

  /** By `t` it has not filled again. */
  lemma ProbeTakesTooMuch(p: Params, t: real)
    requires p.limit > 0.0 && p.burst >= 1 && t > 0.0 && Inflow(p.limit, t) < p.burst as real
    ensures !AllowsSecondBurst(p, t)
  {
    Drains(p, p.burst, 0.0);
    PartlyFilled(p, t);
    if AllowsSecondBurst(p, t) {
      AllowedTakeTokens(p, Repeat(p.burst, 0.0), p.burst, t);
    }
  }

  lemma PartlyFilled(p: Params, t: real)
    requires t > 0.0 && Inflow(p.limit, t) < p.burst as real
    ensures Available(p, Bucket(0.0, 0.0), t) < p.burst as real
  {
    assert t - 0.0 == t;
  }

  lemma {:induction false} BurstPrefix(ip: string, t: real, n: nat, k: nat)
    requires k <= n
    ensures Burst(n, ip, t)[..k] == Burst(k, ip, t)
  {
  }

  /** The swept limiter lets through the k-th request of the second burst; if the two agree, so does the reference. */
  lemma ProbeAllows(p: Params, ip: string, t: real, k: nat)
    requires p.limit > 0.0 && TTL < t && k < p.burst && Agrees(p, Probe(p, ip, t))
    ensures ReferenceAllows(p, Repeat(p.burst, 0.0) + Repeat(k, t) + [t])
  {
    var first := Burst(p.burst, ip, 0.0) + [Sweep(t)];
    var ts := Probe(p, ip, t);
    var i := |first| + k;
    FirstBurst(p, ip, t);
    BurstPrefix(ip, t, p.burst, k);
    assert ts[..i] == first + Burst(k, ip, t);
    assert ts[i] == Request(ip, t);
    BurstPasses(p, first, ip, k, t);
    TakesOneAtOnce(p, p.burst - k, t);
    BurstTimes(first, ip, k, t);
    assert Decides(p, ts, i);
  }

  /** After the first burst and the sweep, `ip` is forgotten. */
  lemma FirstBurst(p: Params, ip: string, t: real)
    requires p.limit > 0.0 && p.burst >= 1 && TTL < t
    ensures var first := Burst(p.burst, ip, 0.0) + [Sweep(t)];
      ip !in After(p, first) && OwnTimes(first, ip) == Repeat(p.burst, 0.0)
  {
    var burst := Burst(p.burst, ip, 0.0);
    var first := burst + [Sweep(t)];
    assert first[..|first| - 1] == burst;
    assert [] + burst == burst;
    BurstPasses(p, [], ip, p.burst, 0.0);
    BurstTimes([], ip, p.burst, 0.0);
    assert OwnTimes([], ip) + Repeat(p.burst, 0.0) == Repeat(p.burst, 0.0);
    OwnTimesSnoc(burst, Sweep(t), ip);
  }

  /** Eviction is unobservable exactly when a bucket fills within the time after which it may be forgotten. */
  lemma UnobservableIffBurstFits(p: Params)
    requires p.limit > 0.0
    ensures (forall ts :: Monotone(ts) ==> Agrees(p, ts)) <==> BurstFits(p)
  {
    if BurstFits(p) {
      forall ts | Monotone(ts)
        ensures Agrees(p, ts)
      {
        EvictionUnobservable(p, ts);
      }
    } else {
      var ts := EvictionObservable(p, "");
    }
  }

  // ---------- Rate bound ----------

  /** How many of the requests at `times` are allowed at or after `from` and at or before `to`. */
  function AllowedWithin(p: Params, times: seq<real>, from: real, to: real): nat {
    if times == [] then 0
    else
      var n := |times| - 1;
      AllowedWithin(p, times[..n], from, to) + (if from <= times[n] <= to && ReferenceAllows(p, times) then 1 else 0)
  }

  lemma ScaledSum(limit: real, x: real, y: real)
    ensures Inflow(limit, x + y) == Inflow(limit, x) + Inflow(limit, y)
  {
  }

  /** Tokens flow in at `limit` a second at most, and never beyond the burst. */
  lemma Flow(p: Params, b: Bucket, t: real, now: real)
    requires p.limit > 0.0 && b.tokens >= 0.0 && b.last <= t <= now
    ensures 0.0 <= Available(p, b, now) <= p.burst as real
    ensures Available(p, b, now) <= Available(p, b, t) + Inflow(p.limit, now - t)
  {
    var before, after := t - b.last, now - t;
    ScaledSum(p.limit, before, after);
    MulNonNegative(p.limit, before);
    MulNonNegative(p.limit, after);
    assert now - b.last == before + after;
  }

  /** An allowed request takes one token; a denied one takes none. */
  lemma TakesOne(p: Params, b: Bucket, t: real)
    ensures Available(p, Use(p, b, t), t) <= Available(p, b, t) - (if Allows(p, b, t) then 1.0 else 0.0)
  {
    if Allows(p, b, t) {
      NothingFlowsAtOnce(p, Use(p, b, t), t);
    }
  }

  /** `count` requests allowed since `from`, plus the tokens left, are covered by the burst and what has flowed in. */
  ghost predicate Covered(p: Params, b: Bucket, count: nat, from: real, now: real) {
    count as real + Available(p, b, now) <= p.burst as real + Inflow(p.limit, now - from)
  }

  lemma CoveredLater(p: Params, b: Bucket, count: nat, from: real, t: real, now: real)
    requires p.limit > 0.0 && b.tokens >= 0.0 && b.last <= t <= now
    requires Covered(p, b, count, from, t)
    ensures Covered(p, b, count, from, now)
  {
    Flow(p, b, t, now);
    assert now - from == (t - from) + (now - t);
    ScaledSum(p.limit, t - from, now - t);
  }

  lemma CoveredByBurst(p: Params, b: Bucket, from: real, now: real)
    requires p.limit > 0.0 && b.tokens >= 0.0 && b.last <= now && from <= now
    ensures Covered(p, b, 0, from, now)
  {
    Flow(p, b, now, now);
    MulNonNegative(p.limit, now - from);
  }

  lemma CoveredByUse(p: Params, b: Bucket, count: nat, from: real, t: real)
    requires Covered(p, b, count, from, t)
    ensures Covered(p, Use(p, b, t), count + (if Allows(p, b, t) then 1 else 0), from, t)
  {
    TakesOne(p, b, t);
  }

  lemma CoveredIsBound(p: Params, b: Bucket, count: nat, from: real, now: real)
    requires p.limit > 0.0 && b.tokens >= 0.0 && b.last <= now && Covered(p, b, count, from, now)
    ensures count as real <= p.burst as real + Inflow(p.limit, now - from)
  {
    Flow(p, b, now, now);
  }

  /** The bucket that meets the request at position `n`. */
  function Before(p: Params, times: seq<real>): Bucket
    requires times != []
  {
    var n := |times| - 1;
    if n == 0 then NewBucket(p, times[0]) else BucketAfter(p, times[..n])
  }

  /** What was allowed since `from`, plus what is still in the bucket, is covered from then on. */
  lemma {:induction false} Potential(p: Params, times: seq<real>, from: real, to: real, now: real)
    requires p.limit > 0.0 && times != [] && Sorted(times) && times[|times| - 1] <= now && from <= now <= to
    ensures Covered(p, BucketAfter(p, times), AllowedWithin(p, times, from, to), from, now)
    decreases |times|
  {
    var n := |times| - 1;
    var t := times[n];
    BucketSane(p, times);
    if t < from {
      NoneBefore(p, times, from, to);
      CoveredByBurst(p, BucketAfter(p, times), from, now);
    } else {
      if n == 0 {
        assert times[..n] == [];
        CoveredByBurst(p, NewBucket(p, t), from, t);
      } else {
        Potential(p, times[..n], from, to, t);
      }
      CoveredByUse(p, Before(p, times), AllowedWithin(p, times[..n], from, to), from, t);
      CoveredLater(p, BucketAfter(p, times), AllowedWithin(p, times, from, to), from, t, now);
    }
  }

  lemma {:induction false} NoneBefore(p: Params, times: seq<real>, from: real, to: real)
    requires forall i :: 0 <= i < |times| ==> times[i] < from
    ensures AllowedWithin(p, times, from, to) == 0
  {
    if times == [] {
    } else {
      NoneBefore(p, times[..|times| - 1], from, to);
    }
  }

  /** One bucket lets through at most the burst plus `limit` a second in any window. */
  lemma {:induction false} BucketRate(p: Params, times: seq<real>, from: real, to: real)
    requires p.limit > 0.0 && Sorted(times) && from <= to
    ensures AllowedWithin(p, times, from, to) as real <= p.burst as real + Inflow(p.limit, to - from)
    decreases |times|
  {
    MulNonNegative(p.limit, to - from);
    if times == [] {
    } else {
      if times[|times| - 1] <= to {
        Potential(p, times, from, to, to);
        BucketSane(p, times);
        CoveredIsBound(p, BucketAfter(p, times), AllowedWithin(p, times, from, to), from, to);
      } else {
        BucketRate(p, times[..|times| - 1], from, to);
      }
    }
  }

  /** How many requests of `ip` the swept limiter lets through in a window. */
  function Passed(p: Params, ts: seq<Tick>, ip: string, from: real, to: real): nat {
    if ts == [] then 0
    else
      var n := |ts| - 1;
      Passed(p, ts[..n], ip, from, to)
      + (if ts[n].Request? && ts[n].ip == ip && from <= ts[n].at <= to && Decides(p, ts, n) then 1 else 0)
  }

  lemma {:induction false} PassedIsReference(p: Params, ts: seq<Tick>, ip: string, from: real, to: real)
    requires BurstFits(p) && Monotone(ts)
    ensures Passed(p, ts, ip, from, to) == AllowedWithin(p, OwnTimes(ts, ip), from, to)
  {
    if ts == [] {
    } else {
      var n := |ts| - 1;
      PassedIsReference(p, ts[..n], ip, from, to);
      if ts[n].Request? && ts[n].ip == ip {
        EvictionUnobservable(p, ts);
        assert Decides(p, ts, n) == ReferenceAllows(p, OwnTimes(ts[..n], ip) + [ts[n].at]);
        var times := OwnTimes(ts, ip);
        assert times[..|times| - 1] == OwnTimes(ts[..n], ip);
      }
    }
  }

  lemma PassedWithin(p: Params, ts: seq<Tick>, ip: string, from: real, to: real)
    requires BurstFits(p) && Monotone(ts) && from <= to
    ensures Passed(p, ts, ip, from, to) as real <= p.burst as real + Inflow(p.limit, to - from)
  {
    PassedIsReference(p, ts, ip, from, to);
    OwnTimesSorted(ts, ip);
    BucketRate(p, OwnTimes(ts, ip), from, to);
  }

  /** The same for a window given by its length. */
  lemma PassedDuring(p: Params, ts: seq<Tick>, ip: string, from: real, to: real, window: real)
    requires BurstFits(p) && Monotone(ts) && window >= 0.0 && to == from + window
    ensures Passed(p, ts, ip, from, to) as real <= p.burst as real + Inflow(p.limit, window)
  {
    assert to - from == window;
    PassedWithin(p, ts, ip, from, to);
  }

  /** So many requests keep within a burst and `limit` a second, in a window of that length. */
  predicate InRate(p: Params, count: nat, window: real) {
    count as real <= p.burst as real + p.limit * window
  }

  lemma InRateByInflow(p: Params, count: nat, window: real)
    ensures InRate(p, count, window) <==> count as real <= p.burst as real + Inflow(p.limit, window)
  {
  }

  /** In any window, across any sweeps and re-creations, an IP gets at most the burst plus `limit` a second. */
  lemma RateBound(p: Params, ts: seq<Tick>, ip: string, from: real, window: real)
    requires BurstFits(p) && Monotone(ts) && window >= 0.0
    ensures InRate(p, Passed(p, ts, ip, from, from + window), window)
  {
    InRateByInflow(p, Passed(p, ts, ip, from, from + window), window);
    PassedDuring(p, ts, ip, from, from + window, window);
  }

  // ---------- What is due gets through ----------

  /**
    The tokens of a bucket are at least what a burst at `from`, filled up since then, leaves after `count` requests.
  */
  ghost predicate Accounts(p: Params, b: Bucket, count: nat, from: real) {
    from <= b.last && b.tokens >= p.burst as real + Inflow(p.limit, b.last - from) - count as real
  }

  /** A request that finds the bucket not full takes its token from the same account. */
  lemma AccountsForUse(p: Params, b: Bucket, count: nat, from: real, t: real)
    requires Accounts(p, b, count, from) && b.last <= t && Available(p, b, t) < p.burst as real
    ensures Accounts(p, Use(p, b, t), count + (if Allows(p, b, t) then 1 else 0), from)
  {
    assert t - from == (b.last - from) + (t - b.last);
    ScaledSum(p.limit, b.last - from, t - b.last);
  }

  /** One that finds it full opens a new account. */
  lemma AccountOpens(p: Params, b: Bucket, t: real)
    requires p.burst >= 1 && Available(p, b, t) == p.burst as real
    ensures Allows(p, b, t) && Accounts(p, Use(p, b, t), 1, t)
  {
  }

  lemma MoreCovers(p: Params, b: Bucket, count: nat, more: nat, from: real)
    requires Accounts(p, b, count, from) && count <= more
    ensures Accounts(p, b, more, from)
  {
  }

  /** The bucket accounts for all requests since the last one that found it full. */
  lemma {:induction false} AccountsSince(p: Params, times: seq<real>, to: real) returns (from: real)
    requires p.limit > 0.0 && p.burst >= 1 && times != [] && Sorted(times) && times[|times| - 1] <= to
    ensures Accounts(p, BucketAfter(p, times), AllowedWithin(p, times, from, to), from)
    decreases |times|
  {
    var n := |times| - 1;
    var t := times[n];
    var b := Before(p, times);
    if n > 0 {
      BucketSane(p, times[..n]);
    }
    if Available(p, b, t) == p.burst as real {
      AccountOpens(p, b, t);
      from := t;
      MoreCovers(p, BucketAfter(p, times), 1, AllowedWithin(p, times, from, to), from);
    } else {
      from := AccountsSince(p, times[..n], to);
      AccountsForUse(p, b, AllowedWithin(p, times[..n], from, to), from, t);
    }
  }

  /** A request denied by one bucket was not due: since some moment a burst and all that flowed in had been used up. */
  lemma DeniedWasUsedUp(p: Params, times: seq<real>, now: real) returns (from: real)
    requires p.limit > 0.0 && Sorted(times + [now]) && !ReferenceAllows(p, times + [now])
    ensures from <= now
    ensures AllowedWithin(p, times, from, now) as real + 1.0 > p.burst as real + Inflow(p.limit, now - from)
  {
    from := now;
    assert (times + [now])[..|times|] == times;
    if p.burst >= 1 && times != [] {
      assert forall i :: 0 <= i < |times| ==> times[i] == (times + [now])[i];
      from := AccountsSince(p, times, now);
      BucketSane(p, times);
      EmptyWasUsedUp(p, BucketAfter(p, times), AllowedWithin(p, times, from, now), from, now);
    } else {
      assert now - from == 0.0 && Inflow(p.limit, 0.0) == 0.0;
    }
  }

  lemma EmptyWasUsedUp(p: Params, b: Bucket, count: nat, from: real, now: real)
    requires p.burst >= 1 && Accounts(p, b, count, from) && b.last <= now && !Allows(p, b, now)
    ensures count as real + 1.0 > p.burst as real + Inflow(p.limit, now - from)
  {
    assert now - from == (b.last - from) + (now - b.last);
    ScaledSum(p.limit, b.last - from, now - b.last);
  }

  /** How many requests of `ip` passed in the last `window` seconds. */
  function PassedInLast(p: Params, ts: seq<Tick>, ip: string, now: real, window: real): nat {
    Passed(p, ts, ip, now - window, now)
  }

  /** In no window up to `now` has what passed of `ip` used up a burst and all that flowed in. */
  ghost predicate Due(p: Params, ts: seq<Tick>, ip: string, now: real) {
    forall window :: window >= 0.0 ==> InRate(p, PassedInLast(p, ts, ip, now, window) + 1, window)
  }

  /** An allowed request counts among those that passed. */
  lemma AllowedWasDue(p: Params, ts: seq<Tick>, i: nat)
    requires BurstFits(p) && Monotone(ts) && i < |ts| && ts[i].Request? && Decides(p, ts, i)
    ensures Due(p, ts[..i], ts[i].ip, ts[i].at)
  {
    var upTo, now := ts[..i + 1], ts[i].at;
    assert upTo[..i] == ts[..i];
    forall window | window >= 0.0
      ensures InRate(p, PassedInLast(p, ts[..i], ts[i].ip, now, window) + 1, window)
    {
      assert Passed(p, upTo, ts[i].ip, now - window, now) == PassedInLast(p, ts[..i], ts[i].ip, now, window) + 1;
      PassedDuring(p, upTo, ts[i].ip, now - window, now, window);
      InRateByInflow(p, PassedInLast(p, ts[..i], ts[i].ip, now, window) + 1, window);
    }
  }

  lemma DeniedExceedsInflow(p: Params, ts: seq<Tick>, ip: string, now: real) returns (window: real)
    requires BurstFits(p) && Monotone(ts) && Sorted(OwnTimes(ts, ip) + [now])
    requires !ReferenceAllows(p, OwnTimes(ts, ip) + [now])
    ensures window >= 0.0
    ensures (PassedInLast(p, ts, ip, now, window) + 1) as real > p.burst as real + Inflow(p.limit, window)
  {
    var from := DeniedWasUsedUp(p, OwnTimes(ts, ip), now);
    PassedIsReference(p, ts, ip, from, now);
    window := now - from;
    assert now - window == from;
  }

  /** A denied request would have exceeded the bound in some window. */
  lemma DeniedWouldExceed(p: Params, ts: seq<Tick>, ip: string, now: real) returns (window: real)
    requires BurstFits(p) && Monotone(ts) && Sorted(OwnTimes(ts, ip) + [now])
    requires !ReferenceAllows(p, OwnTimes(ts, ip) + [now])
    ensures window >= 0.0 && !InRate(p, PassedInLast(p, ts, ip, now, window) + 1, window)
  {
    window := DeniedExceedsInflow(p, ts, ip, now);
    InRateByInflow(p, PassedInLast(p, ts, ip, now, window) + 1, window);
  }

  lemma DeniedWasNotDue(p: Params, ts: seq<Tick>, i: nat)
    requires BurstFits(p) && Monotone(ts) && i < |ts| && ts[i].Request? && !Decides(p, ts, i)
    ensures !Due(p, ts[..i], ts[i].ip, ts[i].at)
  {
    EvictionUnobservable(p, ts);
    assert ts[..i + 1] == ts[..i] + [ts[i]];
    OwnTimesSnoc(ts[..i], ts[i], ts[i].ip);
    OwnTimesSorted(ts[..i + 1], ts[i].ip);
    var window := DeniedWouldExceed(p, ts[..i], ts[i].ip, ts[i].at);
  }

  /**
    The decision without any bucket: a request passes if and only if it is due, that is, if in every window up to now it
    stays, together with those of its IP that passed, within a burst and `limit` a second.
  */
  lemma PassesIffDue(p: Params, ts: seq<Tick>, i: nat)
    requires BurstFits(p) && Monotone(ts) && i < |ts| && ts[i].Request?
    ensures Decides(p, ts, i) <==> Due(p, ts[..i], ts[i].ip, ts[i].at)
  {
    if Decides(p, ts, i) {
      AllowedWasDue(p, ts, i);
    } else {
      DeniedWasNotDue(p, ts, i);
    }
  }

  // ---------- The janitor keeps the map small ----------

  /** The time of the last sweep, or 0, when the janitor was started. */
  function LastSweep(ts: seq<Tick>): real {
    if ts == [] then 0.0
    else if ts[|ts| - 1].Sweep? then ts[|ts| - 1].at
    else LastSweep(ts[..|ts| - 1])
  }

  predicate StartsAtZero(ts: seq<Tick>) {
    forall i :: 0 <= i < |ts| ==> ts[i].at >= 0.0
  }

  lemma {:induction false} LastSweepBefore(ts: seq<Tick>)
    requires Monotone(ts) && StartsAtZero(ts) && ts != []
    ensures LastSweep(ts) <= ts[|ts| - 1].at
  {
    var n := |ts| - 1;
    if ts[n].Sweep? || n == 0 {
    } else {
      LastSweepBefore(ts[..n]);
    }
  }

  /** An entry that survives was seen at most ten minutes before the last sweep. */
  lemma {:induction false} SurvivorsAreRecent(p: Params, ts: seq<Tick>, ip: string)
    requires Monotone(ts) && StartsAtZero(ts) && ip in After(p, ts)
    ensures After(p, ts)[ip].lastSeen >= LastSweep(ts) - TTL
  {
    var n := |ts| - 1;
    match ts[n]
    case Request(who, t) =>
      if who == ip {
        LastSweepBefore(ts);
      } else {
        SurvivorsAreRecent(p, ts[..n], ip);
      }
    case Sweep(t) =>
  }

  /** While sweeps are at most a minute apart, every entry was seen within the last eleven minutes. */
  lemma EntriesAreRecent(p: Params, ts: seq<Tick>, now: real, ip: string)
    requires Monotone(ts) && StartsAtZero(ts) && ip in After(p, ts) && now - LastSweep(ts) <= SWEEP_EVERY
    ensures now - After(p, ts)[ip].lastSeen <= 660.0
  {
    SurvivorsAreRecent(p, ts, ip);
  }
}
