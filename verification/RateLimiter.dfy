/**
  The per-ip rate limiter: a bounded table of token buckets whose idle entries
  are evicted.  Times are nanoseconds.  A token is `unit` units and a bucket
  refills `rate` units per nanosecond up to `burst` tokens, so that the limits of
  the server are exact integers.
 */
module RateLimiter {
  import opened Arithmetic

  datatype Limits = Limits(unit: nat, rate: nat, burst: nat, evictAfter: nat, maxTracked: nat)

  const EVICT_AFTER: nat := 600_000_000_000
  const MAX_TRACKED: nat := 10_000

  // one token every three seconds, ten at once; five tokens a second, thirty at once
  const AUTH := Limits(3_000_000_000, 1, 10, EVICT_AFTER, MAX_TRACKED)
  const PUBLIC := Limits(1_000_000_000, 5, 30, EVICT_AFTER, MAX_TRACKED)

  // ---- token buckets ----

  datatype Bucket = Bucket(level: int, last: int)

  function Capacity(l: Limits): nat {
    MulNonNegative(l.burst, l.unit);
    l.burst * l.unit
  }

  function Refilled(l: Limits, b: Bucket, now: int): int {
    b.level + (if b.last <= now then now - b.last else 0) * l.rate
  }

  function LevelAt(l: Limits, b: Bucket, now: int): int {
    if Refilled(l, b, now) < Capacity(l) then Refilled(l, b, now) else Capacity(l)
  }

  function NewBucket(l: Limits, now: int): Bucket {
    Bucket(Capacity(l), now)
  }

  /** AllowN(now, 1): take a token if there is one; a refusal changes nothing. */
  function TakeToken(l: Limits, b: Bucket, now: int): (Bucket, bool) {
    var level := LevelAt(l, b, now);
    if 1 <= l.burst && l.unit <= level then (Bucket(level - l.unit, now), true) else (b, false)
  }

  // ---- the limiter ----

  datatype Entry = Entry(bucket: Bucket, last: int)

  datatype Table = Table(seen: map<string, Entry>, lastSweep: int)

  predicate Idle(l: Limits, e: Entry, now: int) {
    l.evictAfter < now - e.last
  }

  function Swept(l: Limits, t: Table, now: int): Table {
    if l.evictAfter < now - t.lastSweep
    then Table(map k | k in t.seen && !Idle(l, t.seen[k], now) :: t.seen[k], now)
    else t
  }

  /** One call of `ip`; beyond maxTracked entries a new ip is let through untracked. */
  function AllowCall(l: Limits, t: Table, ip: string, now: int): (Table, bool) {
    var s := Swept(l, t, now);
    if ip !in s.seen && l.maxTracked <= |s.seen| then (s, true) else
    var (b, ok) := TakeToken(l, if ip in s.seen then s.seen[ip].bucket else NewBucket(l, now), now);
    (s.(seen := s.seen[ip := Entry(b, now)]), ok)
  }

  class IpLimiter {
    const limits: Limits
    var seen: map<string, Entry>
    var lastSweep: int

    function View(): Table
      reads this
    {
      Table(seen, lastSweep)
    }

    constructor (limits: Limits, now: int)
      ensures this.limits == limits && View() == Table(map[], now)
    {
      this.limits, seen, lastSweep := limits, map[], now;
    }

    method Evict(now: int)
      modifies this
      ensures View() == Swept(limits, old(View()), now)
      ensures lastSweep == if limits.evictAfter < now - old(lastSweep) then now else old(lastSweep)
      ensures forall k :: k in seen <==>
                k in old(seen) && (now - old(lastSweep) <= limits.evictAfter
                                   || now - old(seen)[k].last <= limits.evictAfter)
    {
      if limits.evictAfter < now - lastSweep {
        var left := seen.Keys;
        ghost var before := seen;
        while left != {}
          invariant left <= seen.Keys <= before.Keys && lastSweep == old(lastSweep)
          invariant forall k :: k in seen ==> seen[k] == before[k]
          invariant forall k :: k in before ==> (k in seen <==> k in left || !Idle(limits, before[k], now))
          decreases |left|
        {
          var k :| k in left;
          left := left - {k};
          if limits.evictAfter < now - seen[k].last {
            seen := seen - {k};
          }
        }
        lastSweep := now;
        assert seen == Swept(limits, old(View()), now).seen;
      }
    }

    /** Only an ip with an entry is refused, and its entry was then seen at this call. */
    method Allow(ip: string, now: int) returns (ok: bool)
      modifies this
      ensures ok || ip in seen
      ensures ip in seen ==> seen[ip].last == now
      ensures (View(), ok) == AllowCall(limits, old(View()), ip, now)
    {
      Evict(now);
      ghost var swept := seen;
      var entry := Entry(NewBucket(limits, now), now);
      if ip !in seen {
        if limits.maxTracked <= |seen| {
          return true;
        }
        seen := seen[ip := entry];
      }
      entry := seen[ip].(last := now);
      seen := seen[ip := entry];
      var (bucket, allowed) := TakeToken(limits, entry.bucket, now);
      seen := seen[ip := Entry(bucket, now)];
      assert seen == swept[ip := Entry(bucket, now)];
      ok := allowed;
    }
  }

  // ---- runs, with and without eviction ----

  datatype Call = Call(ip: string, now: int)

  function After(l: Limits, t: Table, calls: seq<Call>): Table
    decreases |calls|
  {
    if calls == [] then t else After(l, AllowCall(l, t, calls[0].ip, calls[0].now).0, calls[1..])
  }

  function Answers(l: Limits, t: Table, calls: seq<Call>): (r: seq<bool>)
    ensures |r| == |calls|
    decreases |calls|
  {
    if calls == [] then [] else
    var (next, ok) := AllowCall(l, t, calls[0].ip, calls[0].now);
    [ok] + Answers(l, next, calls[1..])
  }

  /** The unbounded table of buckets that is never swept. */
  type Ideal = map<string, Bucket>

  function IdealBucket(l: Limits, m: Ideal, ip: string, now: int): Bucket {
    if ip in m then m[ip] else NewBucket(l, now)
  }

  function IdealCall(l: Limits, m: Ideal, ip: string, now: int): (Ideal, bool) {
    var (b, ok) := TakeToken(l, IdealBucket(l, m, ip, now), now);
    (m[ip := b], ok)
  }

  function IdealAfter(l: Limits, m: Ideal, calls: seq<Call>): Ideal
    decreases |calls|
  {
    if calls == [] then m else IdealAfter(l, IdealCall(l, m, calls[0].ip, calls[0].now).0, calls[1..])
  }

  function IdealAnswers(l: Limits, m: Ideal, calls: seq<Call>): (r: seq<bool>)
    ensures |r| == |calls|
    decreases |calls|
  {
    if calls == [] then [] else
    var (next, ok) := IdealCall(l, m, calls[0].ip, calls[0].now);
    [ok] + IdealAnswers(l, next, calls[1..])
  }

  /** The clock does not go back, from `now` on. */
  predicate Timely(now: int, calls: seq<Call>)
    decreases |calls|
  {
    calls == [] || (now <= calls[0].now && Timely(calls[0].now, calls[1..]))
  }

  /** No unseen ip arrives at a full table. */
  predicate Roomy(l: Limits, t: Table, calls: seq<Call>)
    decreases |calls|
  {
    calls == [] ||
    var s := Swept(l, t, calls[0].now);
    (calls[0].ip in s.seen || |s.seen| < l.maxTracked)
    && Roomy(l, AllowCall(l, t, calls[0].ip, calls[0].now).0, calls[1..])
  }

  /** An entry idle long enough to be evicted has a full bucket. */
  predicate RefillsBeforeEviction(l: Limits) {
    Capacity(l) <= (l.evictAfter + 1) * l.rate
  }

  // ---- the table is bounded ----

  lemma CallBounded(l: Limits, t: Table, ip: string, now: int)
    requires |t.seen| <= l.maxTracked
    ensures |AllowCall(l, t, ip, now).0.seen| <= l.maxTracked
  {
    var s := Swept(l, t, now).seen;
    assert s.Keys <= t.seen.Keys;
    SubsetSize(s.Keys, t.seen.Keys);
    assert |s| == |s.Keys| && |t.seen| == |t.seen.Keys|;
    var e: Entry :| true;
    if ip in s {
      assert s[ip := e].Keys == s.Keys;
    }
  }

  /** Whatever ips call and whatever the clock does, the table never outgrows its limit. */
  lemma {:induction false} TableBounded(l: Limits, t: Table, calls: seq<Call>)
    requires |t.seen| <= l.maxTracked
    ensures |After(l, t, calls).seen| <= l.maxTracked
    decreases |calls|
  {
    if calls != [] {
      CallBounded(l, t, calls[0].ip, calls[0].now);
      TableBounded(l, AllowCall(l, t, calls[0].ip, calls[0].now).0, calls[1..]);
    }
  }

  // ---- eviction is invisible ----

  predicate Full(l: Limits, b: Bucket, now: int) {
    LevelAt(l, b, now) == Capacity(l)
  }

  predicate Sound(l: Limits, b: Bucket, now: int) {
    0 <= b.level <= Capacity(l) && b.last <= now
  }

  /** Two buckets no call from `now` on can tell apart. */
  predicate Alike(l: Limits, b: Bucket, d: Bucket, now: int) {
    b == d || (Full(l, b, now) && Full(l, d, now))
  }

  ghost predicate Mirrors(l: Limits, t: Table, m: Ideal, now: int) {
    && (forall ip :: ip in t.seen ==>
          && ip in m && Alike(l, t.seen[ip].bucket, m[ip], now)
          && Sound(l, t.seen[ip].bucket, t.seen[ip].last) && t.seen[ip].last <= now)
    && (forall ip :: ip in m ==> Sound(l, m[ip], now))
    && (forall ip :: ip in m && ip !in t.seen ==> Full(l, m[ip], now))
  }

  lemma RefillGrows(l: Limits, b: Bucket, now: int, later: int)
    requires b.last <= now <= later
    ensures Refilled(l, b, later) == Refilled(l, b, now) + (later - now) * l.rate
    ensures Refilled(l, b, now) <= Refilled(l, b, later)
  {
    assert (later - b.last) * l.rate == (now - b.last) * l.rate + (later - now) * l.rate;
    MulNonNegative(later - now, l.rate);
  }

  lemma TakeKeepsSound(l: Limits, b: Bucket, now: int)
    requires Sound(l, b, now)
    ensures Sound(l, TakeToken(l, b, now).0, now)
  {
    MulNonNegative(now - b.last, l.rate);
  }

  /** Buckets that are alike give the same answer and stay alike. */
  lemma TakeFromAlike(l: Limits, b: Bucket, d: Bucket, now: int)
    requires Alike(l, b, d, now)
    ensures TakeToken(l, b, now).1 == TakeToken(l, d, now).1
    ensures Alike(l, TakeToken(l, b, now).0, TakeToken(l, d, now).0, now)
  {
  }

  lemma EvictedIsFull(l: Limits, e: Entry, now: int)
    requires RefillsBeforeEviction(l) && Sound(l, e.bucket, e.last) && Idle(l, e, now)
    ensures Full(l, e.bucket, now)
  {
    MulMonotone(l.evictAfter + 1, now - e.bucket.last, l.rate);
  }

  lemma MirrorsLater(l: Limits, t: Table, m: Ideal, now: int, later: int)
    requires Mirrors(l, t, m, now) && now <= later
    ensures Mirrors(l, t, m, later)
  {
    forall ip | ip in m
      ensures Full(l, m[ip], now) ==> Full(l, m[ip], later)
    {
      RefillGrows(l, m[ip], now, later);
    }
    forall ip | ip in t.seen
      ensures Full(l, t.seen[ip].bucket, now) ==> Full(l, t.seen[ip].bucket, later)
    {
      RefillGrows(l, t.seen[ip].bucket, now, later);
    }
  }

  lemma MirrorsSwept(l: Limits, t: Table, m: Ideal, now: int)
    requires RefillsBeforeEviction(l) && Mirrors(l, t, m, now)
    ensures Mirrors(l, Swept(l, t, now), m, now)
  {
    var s := Swept(l, t, now);
    forall ip | ip in m && ip !in s.seen
      ensures Full(l, m[ip], now)
    {
      if ip in t.seen {
        EvictedIsFull(l, t.seen[ip], now);
      }
    }
  }

  lemma CallMirrors(l: Limits, t: Table, m: Ideal, ip: string, now: int)
    requires RefillsBeforeEviction(l) && Mirrors(l, t, m, now)
    requires ip in Swept(l, t, now).seen || |Swept(l, t, now).seen| < l.maxTracked
    ensures AllowCall(l, t, ip, now).1 == IdealCall(l, m, ip, now).1
    ensures Mirrors(l, AllowCall(l, t, ip, now).0, IdealCall(l, m, ip, now).0, now)
  {
    MirrorsSwept(l, t, m, now);
    var s := Swept(l, t, now);
    var mine := if ip in s.seen then s.seen[ip].bucket else NewBucket(l, now);
    var other := IdealBucket(l, m, ip, now);
    assert Full(l, NewBucket(l, now), now);
    TakeFromAlike(l, mine, other, now);
    TakeKeepsSound(l, mine, now);
    TakeKeepsSound(l, other, now);
  }

  /** Started empty at `start`. */
  function NewTable(start: int): Table {
    Table(map[], start)
  }

  // ---- runs that meet a full table ----

  /** The ip has an entry when the sweep is over, or there is room for one. */
  predicate Tracked(l: Limits, t: Table, c: Call) {
    var left := set ip | ip in t.seen && !(l.evictAfter < c.now - t.lastSweep && Idle(l, t.seen[ip], c.now));
    c.ip in left || |left| < l.maxTracked
  }

  /** Which calls of a run are tracked. */
  function Tracks(l: Limits, t: Table, calls: seq<Call>): (r: seq<bool>)
    ensures |r| == |calls|
    decreases |calls|
  {
    if calls == [] then [] else
    [Tracked(l, t, calls[0])] + Tracks(l, AllowCall(l, t, calls[0].ip, calls[0].now).0, calls[1..])
  }

  function Trues(flags: seq<bool>): nat {
    if flags == [] then 0 else (if flags[0] then 1 else 0) + Trues(flags[1..])
  }

  function Chosen<T>(xs: seq<T>, flags: seq<bool>): (r: seq<T>)
    requires |xs| == |flags|
    ensures |r| == Trues(flags)
  {
    if xs == [] then [] else (if flags[0] then [xs[0]] else []) + Chosen(xs[1..], flags[1..])
  }

  lemma TrackedIsRoom(l: Limits, t: Table, c: Call)
    ensures var s := Swept(l, t, c.now); Tracked(l, t, c) <==> c.ip in s.seen || |s.seen| < l.maxTracked
  {
    var left := set ip | ip in t.seen && !(l.evictAfter < c.now - t.lastSweep && Idle(l, t.seen[ip], c.now));
    var s := Swept(l, t, c.now);
    assert left == s.seen.Keys;
    assert |s.seen| == |s.seen.Keys|;
  }

  /** A new ip that meets a full table is let through and leaves no entry; only the sweep takes place. */
  lemma UntrackedCall(l: Limits, t: Table, c: Call)
    requires !Tracked(l, t, c)
    ensures var (next, ok) := AllowCall(l, t, c.ip, c.now);
            && ok && c.ip !in next.seen
            && (forall ip :: ip in next.seen <==>
                  ip in t.seen && !(l.evictAfter < c.now - t.lastSweep && Idle(l, t.seen[ip], c.now)))
            && (forall ip :: ip in next.seen ==> next.seen[ip] == t.seen[ip])
  {
    TrackedIsRoom(l, t, c);
  }

  lemma {:induction false} TrackedMirrors(l: Limits, t: Table, m: Ideal, calls: seq<Call>, now: int)
    requires RefillsBeforeEviction(l) && Mirrors(l, t, m, now) && Timely(now, calls)
    ensures var flags, answers := Tracks(l, t, calls), Answers(l, t, calls);
            && Chosen(answers, flags) == IdealAnswers(l, m, Chosen(calls, flags))
            && forall i :: 0 <= i < |calls| && !flags[i] ==> answers[i]
    decreases |calls|
  {
    if calls != [] {
      var c, rest := calls[0], calls[1..];
      var (next, ok) := AllowCall(l, t, c.ip, c.now);
      MirrorsLater(l, t, m, now, c.now);
      TrackedIsRoom(l, t, c);
      assert Answers(l, t, calls)[1..] == Answers(l, next, rest) && Tracks(l, t, calls)[1..] == Tracks(l, next, rest);
      if Tracked(l, t, c) {
        var (ideal, _) := IdealCall(l, m, c.ip, c.now);
        CallMirrors(l, t, m, c.ip, c.now);
        TrackedMirrors(l, next, ideal, rest, c.now);
        var more := Chosen(rest, Tracks(l, next, rest));
        assert Chosen(calls, Tracks(l, t, calls)) == [c] + more;
        assert ([c] + more)[1..] == more;
      } else {
        MirrorsSwept(l, t, m, c.now);
        UntrackedCall(l, t, c);
        TrackedMirrors(l, next, m, rest, c.now);
        assert Chosen(calls, Tracks(l, t, calls)) == Chosen(rest, Tracks(l, next, rest));
      }
    }
  }

  /**
    Whatever calls come, a full table included: the calls that are tracked are
    answered as an unbounded limiter that never evicts answers them on their own, and
    all others are let through.
   */
  lemma TrackedAreIdeal(l: Limits, start: int, calls: seq<Call>)
    requires RefillsBeforeEviction(l) && Timely(start, calls)
    ensures var flags, answers := Tracks(l, NewTable(start), calls), Answers(l, NewTable(start), calls);
            && Chosen(answers, flags) == IdealAnswers(l, map[], Chosen(calls, flags))
            && forall i :: 0 <= i < |calls| && !flags[i] ==> answers[i]
  {
    TrackedMirrors(l, NewTable(start), map[], calls, start);
  }

  predicate All(flags: seq<bool>) {
    forall i :: 0 <= i < |flags| ==> flags[i]
  }

  lemma AllOfCons(first: bool, rest: seq<bool>)
    ensures All([first] + rest) <==> first && All(rest)
  {
    var all := [first] + rest;
    if All(all) {
      assert all[0];
      forall i | 0 <= i < |rest|
        ensures rest[i]
      {
        assert all[i + 1];
      }
    }
  }

  /** A run has room when all its calls are tracked. */
  lemma {:induction false} RoomyIffTracked(l: Limits, t: Table, calls: seq<Call>)
    ensures Roomy(l, t, calls) <==> All(Tracks(l, t, calls))
    decreases |calls|
  {
    if calls != [] {
      var c := calls[0];
      var next := AllowCall(l, t, c.ip, c.now).0;
      TrackedIsRoom(l, t, c);
      RoomyIffTracked(l, next, calls[1..]);
      AllOfCons(Tracked(l, t, c), Tracks(l, next, calls[1..]));
      hide AllowCall, All;
    }
  }

  lemma {:induction false} AllChosen<T>(xs: seq<T>, flags: seq<bool>)
    requires |xs| == |flags| && All(flags)
    ensures Chosen(xs, flags) == xs
  {
    if xs != [] {
      AllChosen(xs[1..], flags[1..]);
    }
  }

  /** With room in the table the limiter answers like one that never evicts. */
  lemma Invisible(l: Limits, start: int, calls: seq<Call>)
    requires RefillsBeforeEviction(l) && Timely(start, calls) && Roomy(l, NewTable(start), calls)
    ensures Answers(l, NewTable(start), calls) == IdealAnswers(l, map[], calls)
  {
    TrackedAreIdeal(l, start, calls);
    RoomyIffTracked(l, NewTable(start), calls);
    AllChosen(calls, Tracks(l, NewTable(start), calls));
    AllChosen(Answers(l, NewTable(start), calls), Tracks(l, NewTable(start), calls));
    hide *;
  }

  // ---- runs in two parts ----

  lemma {:induction false} AnswersSplit(l: Limits, t: Table, a: seq<Call>, b: seq<Call>)
    ensures Answers(l, t, a + b) == Answers(l, t, a) + Answers(l, After(l, t, a), b)
    decreases |a|
  {
    if a == [] {
      assert a + b == b;
    } else {
      assert (a + b)[1..] == a[1..] + b;
      AnswersSplit(l, AllowCall(l, t, a[0].ip, a[0].now).0, a[1..], b);
    }
  }

  lemma {:induction false} RoomySplit(l: Limits, t: Table, a: seq<Call>, b: seq<Call>)
    ensures Roomy(l, t, a + b) <==> Roomy(l, t, a) && Roomy(l, After(l, t, a), b)
    decreases |a|
  {
    if a == [] {
      assert a + b == b;
    } else {
      assert (a + b)[1..] == a[1..] + b;
      RoomySplit(l, AllowCall(l, t, a[0].ip, a[0].now).0, a[1..], b);
    }
  }

  lemma {:induction false} TimelySplit(now: int, a: seq<Call>, b: seq<Call>)
    requires Timely(now, a + b)
    ensures Timely(now, a) && Timely(if a == [] then now else a[|a| - 1].now, b)
    decreases |a|
  {
    if a == [] {
      assert a + b == b;
    } else {
      assert (a + b)[1..] == a[1..] + b;
      TimelySplit(a[0].now, a[1..], b);
    }
  }

  function Repeat(c: Call, n: nat): (r: seq<Call>)
    ensures |r| == n
  {
    if n == 0 then [] else [c] + Repeat(c, n - 1)
  }

  lemma {:induction false} RepeatTimely(c: Call, n: nat, now: int, rest: seq<Call>)
    requires now <= c.now && Timely(c.now, rest)
    ensures Timely(now, Repeat(c, n) + rest)
  {
    if n == 0 {
      assert Repeat(c, n) + rest == rest;
      TimelyEarlier(now, c.now, rest);
    } else {
      RepeatTimely(c, n - 1, c.now, rest);
      assert (Repeat(c, n) + rest)[1..] == Repeat(c, n - 1) + rest;
    }
  }

  lemma TimelyEarlier(now: int, later: int, calls: seq<Call>)
    requires now <= later && Timely(later, calls)
    ensures Timely(now, calls)
  {
  }

  /** The table after a burst started: nobody, or only `c.ip`, last seen at this moment. */
  predicate Bursting(l: Limits, t: Table, c: Call) {
    && c.now - t.lastSweep <= l.evictAfter
    && (t.seen == map[] || (t.seen.Keys == {c.ip} && t.seen[c.ip].bucket.last == c.now && t.seen[c.ip].last == c.now))
  }

  function BurstLevel(l: Limits, t: Table, c: Call): int {
    if c.ip in t.seen then t.seen[c.ip].bucket.level else Capacity(l)
  }

  lemma BurstCall(l: Limits, t: Table, c: Call)
    requires 1 <= l.burst && 1 <= l.maxTracked && Bursting(l, t, c) && l.unit <= BurstLevel(l, t, c) <= Capacity(l)
    ensures var (next, ok) := AllowCall(l, t, c.ip, c.now);
            && ok && Bursting(l, next, c) && next.lastSweep == t.lastSweep && next.seen.Keys == {c.ip}
            && BurstLevel(l, next, c) == BurstLevel(l, t, c) - l.unit
    ensures c.ip in Swept(l, t, c.now).seen || |Swept(l, t, c.now).seen| < l.maxTracked
  {
    var b := if c.ip in t.seen then t.seen[c.ip].bucket else NewBucket(l, c.now);
    assert b.last == c.now && (c.now - b.last) * l.rate == 0;
    assert Refilled(l, b, c.now) == b.level;
  }

  /** A bucket with at least `n` tokens lets `n` calls of one moment through. */
  lemma {:induction false} BurstAllowed(l: Limits, t: Table, c: Call, n: nat)
    requires 1 <= l.burst && 1 <= l.maxTracked && Bursting(l, t, c)
    requires Copies(n, l.unit) <= BurstLevel(l, t, c) <= Capacity(l)
    ensures Roomy(l, t, Repeat(c, n)) && (forall i :: 0 <= i < n ==> Answers(l, t, Repeat(c, n))[i])
    ensures var after := After(l, t, Repeat(c, n));
            && after.lastSweep == t.lastSweep
            && (0 < n ==> after.seen.Keys == {c.ip} && after.seen[c.ip].last == c.now)
    decreases n
  {
    hide AllowCall, Capacity, BurstLevel, Swept;
    if 0 < n {
      BurstCall(l, t, c);
      BurstAllowed(l, AllowCall(l, t, c.ip, c.now).0, c, n - 1);
      assert Repeat(c, n)[1..] == Repeat(c, n - 1);
    }
  }

  // ---- the rate is bounded ----

  /** How many of the calls of `ip` were allowed. */
  function AllowedOf(calls: seq<Call>, answers: seq<bool>, ip: string): nat
    requires |calls| == |answers|
  {
    if calls == [] then 0 else
    (if calls[0].ip == ip && answers[0] then 1 else 0) + AllowedOf(calls[1..], answers[1..], ip)
  }

  function EndOf(now: int, calls: seq<Call>): int {
    if calls == [] then now else calls[|calls| - 1].now
  }

  lemma TakeLevel(l: Limits, b: Bucket, now: int)
    requires Sound(l, b, now)
    ensures var (d, ok) := TakeToken(l, b, now);
            && Sound(l, d, now)
            && 0 <= LevelAt(l, d, now) == LevelAt(l, b, now) - if ok then l.unit else 0
  {
    MulNonNegative(now - b.last, l.rate);
  }

  lemma LevelGrows(l: Limits, b: Bucket, now: int, later: int)
    requires b.last <= now <= later
    ensures LevelAt(l, b, later) <= LevelAt(l, b, now) + (later - now) * l.rate
  {
    RefillGrows(l, b, now, later);
  }

  lemma OneCall(l: Limits, m: Ideal, c: Call, ip: string, now: int)
    requires Sound(l, IdealBucket(l, m, ip, now), now) && now <= c.now
    ensures var (next, ok) := IdealCall(l, m, c.ip, c.now);
            && Sound(l, IdealBucket(l, next, ip, c.now), c.now)
            && LevelAt(l, IdealBucket(l, next, ip, c.now), c.now) + (if c.ip == ip && ok then 1 else 0) * l.unit
               <= LevelAt(l, IdealBucket(l, m, ip, now), now) + (c.now - now) * l.rate
  {
    LevelGrows(l, IdealBucket(l, m, ip, now), now, c.now);
    MulNonNegative(c.now - now, l.rate);
    TakeLevel(l, IdealBucket(l, m, ip, c.now), c.now);
  }

  lemma SegmentStep(l: Limits, rest: nat, taken: nat, level: int, left: int, now: int, mid: int, end: int)
    requires left + taken * l.unit <= level + (mid - now) * l.rate
    requires rest * l.unit <= left + (end - mid) * l.rate
    ensures (taken + rest) * l.unit <= level + (end - now) * l.rate
  {
    assert (taken + rest) * l.unit == taken * l.unit + rest * l.unit;
    assert (end - now) * l.rate == (mid - now) * l.rate + (end - mid) * l.rate;
  }

  /** Tokens taken are tokens that were there or were refilled. */
  ghost predicate WithinBudget(l: Limits, m: Ideal, calls: seq<Call>, ip: string, now: int) {
    AllowedOf(calls, IdealAnswers(l, m, calls), ip) * l.unit
    <= LevelAt(l, IdealBucket(l, m, ip, now), now) + (EndOf(now, calls) - now) * l.rate
  }

  lemma BudgetOfNone(l: Limits, m: Ideal, ip: string, now: int)
    requires Sound(l, IdealBucket(l, m, ip, now), now)
    ensures WithinBudget(l, m, [], ip, now)
  {
    MulNonNegative(now - IdealBucket(l, m, ip, now).last, l.rate);
  }

  lemma BudgetOfMore(l: Limits, m: Ideal, calls: seq<Call>, ip: string, now: int)
    requires Sound(l, IdealBucket(l, m, ip, now), now) && calls != [] && now <= calls[0].now
    requires WithinBudget(l, IdealCall(l, m, calls[0].ip, calls[0].now).0, calls[1..], ip, calls[0].now)
    ensures WithinBudget(l, m, calls, ip, now)
  {
    var c := calls[0];
    var (next, ok) := IdealCall(l, m, c.ip, c.now);
    OneCall(l, m, c, ip, now);
    assert IdealAnswers(l, m, calls)[1..] == IdealAnswers(l, next, calls[1..]);
    SegmentStep(l, AllowedOf(calls[1..], IdealAnswers(l, next, calls[1..]), ip), if c.ip == ip && ok then 1 else 0,
                LevelAt(l, IdealBucket(l, m, ip, now), now), LevelAt(l, IdealBucket(l, next, ip, c.now), c.now),
                now, c.now, EndOf(c.now, calls[1..]));
  }

  lemma {:induction false} SegmentBound(l: Limits, m: Ideal, calls: seq<Call>, ip: string, now: int)
    requires Sound(l, IdealBucket(l, m, ip, now), now) && Timely(now, calls)
    ensures WithinBudget(l, m, calls, ip, now)
    decreases |calls|
  {
    if calls == [] {
      BudgetOfNone(l, m, ip, now);
    } else {
      OneCall(l, m, calls[0], ip, now);
      SegmentBound(l, IdealCall(l, m, calls[0].ip, calls[0].now).0, calls[1..], ip, calls[0].now);
      BudgetOfMore(l, m, calls, ip, now);
    }
  }

  lemma TimelyCons(now: int, c: Call, rest: seq<Call>)
    requires now <= c.now && Timely(c.now, rest)
    ensures Timely(now, [c] + rest) && EndOf(now, [c] + rest) == EndOf(c.now, rest)
  {
    assert ([c] + rest)[1..] == rest;
  }

  /** A run that starts later ends no earlier. */
  lemma NoLater(now: int, later: int, calls: seq<Call>)
    requires now <= later <= EndOf(later, calls)
    ensures now <= EndOf(now, calls) <= EndOf(later, calls)
  {
  }

  lemma {:induction false} ChosenTimely(calls: seq<Call>, flags: seq<bool>, now: int)
    requires |calls| == |flags| && Timely(now, calls)
    ensures Timely(now, Chosen(calls, flags)) && now <= EndOf(now, Chosen(calls, flags)) <= EndOf(now, calls)
    decreases |calls|
  {
    if calls != [] {
      var c, rest := calls[0], Chosen(calls[1..], flags[1..]);
      ChosenTimely(calls[1..], flags[1..], c.now);
      TimelyEarlier(now, c.now, rest);
      TimelyCons(now, c, rest);
      TimelyCons(now, c, calls[1..]);
      hide Timely, Chosen, EndOf;
      ChosenCons(c, calls[1..], flags[0], flags[1..]);
      assert [c] + calls[1..] == calls && [flags[0]] + flags[1..] == flags;
      NoLater(now, c.now, rest);
    }
  }

  lemma IdealStretch(l: Limits, m: Ideal, stretch: seq<Call>, flags: seq<bool>, ip: string, now: int)
    requires stretch != [] && |flags| == |stretch| && Timely(now, stretch) && forall x :: x in m ==> Sound(l, m[x], now)
    ensures var chosen := Chosen(stretch, flags);
            AllowedOf(chosen, IdealAnswers(l, m, chosen), ip) * l.unit
            <= Capacity(l) + (stretch[|stretch| - 1].now - stretch[0].now) * l.rate
  {
    var first, chosen := stretch[0].now, Chosen(stretch, flags);
    ChosenTimely(stretch, flags, first);
    SegmentBound(l, m, chosen, ip, first);
    MulMonotone(EndOf(first, chosen) - first, stretch[|stretch| - 1].now - first, l.rate);
  }

  /** The tables mirror each other after a run as they did before it. */
  lemma {:induction false} TrackedEnd(l: Limits, t: Table, m: Ideal, calls: seq<Call>, now: int)
    requires RefillsBeforeEviction(l) && Mirrors(l, t, m, now) && Timely(now, calls)
    ensures Mirrors(l, After(l, t, calls), IdealAfter(l, m, Chosen(calls, Tracks(l, t, calls))), EndOf(now, calls))
    decreases |calls|
  {
    if calls != [] {
      hide Mirrors, Tracked, AllowCall, IdealCall, Chosen, IdealAfter;
      var c, rest := calls[0], calls[1..];
      var next := AllowCall(l, t, c.ip, c.now).0;
      MirrorsLater(l, t, m, now, c.now);
      TrackedIsRoom(l, t, c);
      ChosenCons(c, rest, Tracked(l, t, c), Tracks(l, next, rest));
      assert [c] + rest == calls;
      if Tracked(l, t, c) {
        CallMirrors(l, t, m, c.ip, c.now);
        TrackedEnd(l, next, IdealCall(l, m, c.ip, c.now).0, rest, c.now);
        IdealCons(l, m, c, Chosen(rest, Tracks(l, next, rest)));
      } else {
        MirrorsSwept(l, t, m, c.now);
        UntrackedIsSwept(l, t, c);
        TrackedEnd(l, next, m, rest, c.now);
      }
    }
  }

  lemma UntrackedIsSwept(l: Limits, t: Table, c: Call)
    requires !Tracked(l, t, c)
    ensures AllowCall(l, t, c.ip, c.now).0 == Swept(l, t, c.now)
  {
    TrackedIsRoom(l, t, c);
  }

  lemma ChosenCons<T>(x: T, xs: seq<T>, flag: bool, flags: seq<bool>)
    requires |xs| == |flags|
    ensures Chosen([x] + xs, [flag] + flags) == (if flag then [x] else []) + Chosen(xs, flags)
    ensures !flag ==> Chosen([x] + xs, [flag] + flags) == Chosen(xs, flags)
  {
    assert ([x] + xs)[1..] == xs && ([flag] + flags)[1..] == flags;
  }

  lemma IdealCons(l: Limits, m: Ideal, c: Call, rest: seq<Call>)
    ensures IdealAfter(l, m, [c] + rest) == IdealAfter(l, IdealCall(l, m, c.ip, c.now).0, rest)
  {
    assert ([c] + rest)[1..] == rest;
  }

  /**
    In any stretch of any run, evictions and full tables included, the tracked calls
    of one ip that were let through are at most the burst plus what the rate allows
    for its length.
   */
  lemma TrackedRate(l: Limits, start: int, before: seq<Call>, stretch: seq<Call>, ip: string)
    requires RefillsBeforeEviction(l) && stretch != [] && Timely(start, before + stretch)
    ensures var t := After(l, NewTable(start), before);
            var flags := Tracks(l, t, stretch);
            AllowedOf(Chosen(stretch, flags), Chosen(Answers(l, t, stretch), flags), ip) * l.unit
            <= Capacity(l) + (stretch[|stretch| - 1].now - stretch[0].now) * l.rate
  {
    hide Mirrors, Capacity, AllowedOf, Answers, IdealAnswers, Tracks, Chosen;
    var now, t := EndOf(start, before), After(l, NewTable(start), before);
    var m := IdealAfter(l, map[], Chosen(before, Tracks(l, NewTable(start), before)));
    TimelySplit(start, before, stretch);
    EmptyMirrors(l, start);
    TrackedEnd(l, NewTable(start), map[], before, start);
    TrackedMirrors(l, t, m, stretch, now);
    MirrorsAreSound(l, t, m, now);
    IdealStretch(l, m, stretch, Tracks(l, t, stretch), ip, now);
  }

  lemma EmptyMirrors(l: Limits, start: int)
    ensures Mirrors(l, NewTable(start), map[], start)
  {
  }

  lemma MirrorsAreSound(l: Limits, t: Table, m: Ideal, now: int)
    requires Mirrors(l, t, m, now)
    ensures forall ip :: ip in m ==> Sound(l, m[ip], now)
  {
  }

  /**
    In any stretch of a run, evictions or not, the calls of one ip that were
    let through are at most the burst plus what the rate allows for its length.
   */
  lemma RateBound(l: Limits, start: int, before: seq<Call>, stretch: seq<Call>, ip: string)
    requires RefillsBeforeEviction(l) && stretch != []
    requires Timely(start, before + stretch) && Roomy(l, NewTable(start), before + stretch)
    ensures var answers := Answers(l, After(l, NewTable(start), before), stretch);
            AllowedOf(stretch, answers, ip) * l.unit
            <= Capacity(l) + (stretch[|stretch| - 1].now - stretch[0].now) * l.rate
  {
    var t := After(l, NewTable(start), before);
    TrackedRate(l, start, before, stretch, ip);
    RoomySplit(l, NewTable(start), before, stretch);
    RoomyIffTracked(l, t, stretch);
    AllChosen(stretch, Tracks(l, t, stretch));
    AllChosen(Answers(l, t, stretch), Tracks(l, t, stretch));
    hide *;
  }

  /**
    What that means for the server, in nanoseconds: a stretch of length d lets at most
    10 + d / 3 s tracked logins of one ip through, and 30 + 5 d / 1 s public calls.
   */
  lemma ServerRates(start: int, before: seq<Call>, stretch: seq<Call>, ip: string)
    requires stretch != [] && Timely(start, before + stretch)
    ensures var d := stretch[|stretch| - 1].now - stretch[0].now;
            var t, u := After(AUTH, NewTable(start), before), After(PUBLIC, NewTable(start), before);
            var flags, flags' := Tracks(AUTH, t, stretch), Tracks(PUBLIC, u, stretch);
            var logins := AllowedOf(Chosen(stretch, flags), Chosen(Answers(AUTH, t, stretch), flags), ip);
            var public := AllowedOf(Chosen(stretch, flags'), Chosen(Answers(PUBLIC, u, stretch), flags'), ip);
            (logins - 10) * 3_000_000_000 <= d && (public - 30) * 1_000_000_000 <= 5 * d
  {
    TrackedRate(AUTH, start, before, stretch, ip);
    TrackedRate(PUBLIC, start, before, stretch, ip);
    hide After, Tracks, Chosen, Answers, AllowedOf;
  }

  // ---- a bucket evicted too early shows ----

  /** `burst` calls of one moment, and again when the entry has just become evictable. */
  function TwoBursts(l: Limits): seq<Call> {
    Repeat(Call("ip", 0), l.burst) + Repeat(Call("ip", l.evictAfter + 1), l.burst)
  }

  lemma {:induction false} RepeatAllowed(c: Call, n: nat, answers: seq<bool>)
    requires |answers| == n && forall i :: 0 <= i < n ==> answers[i]
    ensures AllowedOf(Repeat(c, n), answers, c.ip) == n
    decreases n
  {
    if 0 < n {
      RepeatAllowed(c, n - 1, answers[1..]);
      assert Repeat(c, n)[1..] == Repeat(c, n - 1);
    }
  }

  lemma RepeatEnd(c: Call, n: nat)
    ensures EndOf(c.now, Repeat(c, n)) == c.now
    decreases n
  {
    if 1 < n {
      RepeatEnd(c, n - 1);
    }
  }

  /** The evicting limiter lets both bursts through. */
  lemma BothBurstsAllowed(l: Limits)
    requires 1 <= l.burst && 1 <= l.maxTracked
    ensures Timely(0, TwoBursts(l)) && Roomy(l, NewTable(0), TwoBursts(l))
    ensures forall i :: 0 <= i < 2 * l.burst ==> Answers(l, NewTable(0), TwoBursts(l))[i]
  {
    var c, d := Call("ip", 0), Call("ip", l.evictAfter + 1);
    var first, second := Repeat(c, l.burst), Repeat(d, l.burst);
    assert second + [] == second && first + second == TwoBursts(l);
    CopiesIsProduct(l.burst, l.unit);
    RepeatTimely(d, l.burst, 0, []);
    RepeatTimely(c, l.burst, 0, second);
    BurstAllowed(l, NewTable(0), c, l.burst);
    var drained := After(l, NewTable(0), first);
    var empty := NewTable(d.now);
    assert Swept(l, drained, d.now) == empty;
    BurstAllowed(l, empty, d, l.burst);
    SweptFirst(l, drained, second);
    AnswersSplit(l, NewTable(0), first, second);
    RoomySplit(l, NewTable(0), first, second);
  }

  /** A call after an eviction sees only the swept table. */
  lemma SweptFirst(l: Limits, t: Table, calls: seq<Call>)
    requires calls != []
    ensures var s := Swept(l, t, calls[0].now);
            Answers(l, t, calls) == Answers(l, s, calls) && (Roomy(l, t, calls) <==> Roomy(l, s, calls))
  {
    assert Swept(l, Swept(l, t, calls[0].now), calls[0].now) == Swept(l, t, calls[0].now);
  }

  /** Two bursts are more than a never evicting limiter can let through when idle entries are not full. */
  lemma IdealRefusesOne(l: Limits)
    requires 1 <= l.unit && !RefillsBeforeEviction(l)
    requires Timely(0, TwoBursts(l))
    ensures exists i :: 0 <= i < 2 * l.burst && !IdealAnswers(l, map[], TwoBursts(l))[i]
  {
    var calls := TwoBursts(l);
    var answers := IdealAnswers(l, map[], calls);
    SegmentBound(l, map[], calls, "ip", 0);
    if forall i :: 0 <= i < 2 * l.burst ==> answers[i] {
      TwoBurstsCounted(l, answers);
      TwoBurstsOverdraw(l, EndOf(0, calls));
    }
  }

  lemma TwoBurstsOverdraw(l: Limits, end: int)
    requires !RefillsBeforeEviction(l) && end <= l.evictAfter + 1
    ensures Capacity(l) + (end - 0) * l.rate < 2 * l.burst * l.unit
  {
    MulMonotone(end, l.evictAfter + 1, l.rate);
    assert 2 * l.burst * l.unit == Capacity(l) + Capacity(l) by {
      assert 2 * l.burst * l.unit == 2 * (l.burst * l.unit);
    }
  }

  lemma TwoBurstsCounted(l: Limits, answers: seq<bool>)
    requires |answers| == 2 * l.burst && forall i :: 0 <= i < |answers| ==> answers[i]
    ensures AllowedOf(TwoBursts(l), answers, "ip") == 2 * l.burst
    ensures EndOf(0, TwoBursts(l)) <= l.evictAfter + 1
  {
    var c, d := Call("ip", 0), Call("ip", l.evictAfter + 1);
    AllowedSplit(Repeat(c, l.burst), Repeat(d, l.burst), answers[..l.burst], answers[l.burst..], "ip");
    assert answers == answers[..l.burst] + answers[l.burst..];
    RepeatAllowed(c, l.burst, answers[..l.burst]);
    RepeatAllowed(d, l.burst, answers[l.burst..]);
    RepeatEnd(d, l.burst);
  }

  lemma {:induction false} AllowedSplit(a: seq<Call>, b: seq<Call>, x: seq<bool>, y: seq<bool>, ip: string)
    requires |a| == |x| && |b| == |y|
    ensures AllowedOf(a + b, x + y, ip) == AllowedOf(a, x, ip) + AllowedOf(b, y, ip)
    decreases |a|
  {
    if a == [] {
      assert a + b == b && x + y == y;
    } else {
      assert (a + b)[1..] == a[1..] + b && (x + y)[1..] == x[1..] + y;
      AllowedSplit(a[1..], b, x[1..], y, ip);
    }
  }

  ghost predicate EvictionInvisible(l: Limits) {
    forall start: int, calls: seq<Call> ::
      Timely(start, calls) && Roomy(l, NewTable(start), calls) ==>
      Answers(l, NewTable(start), calls) == IdealAnswers(l, map[], calls)
  }

  /**
    On every run with a clock that does not go back and room in the table the
    evicting limiter answers like one that never evicts, if and only if a
    drained bucket refills completely before its entry can be evicted.
   */
  lemma EvictionInvisibleIff(l: Limits)
    requires 1 <= l.unit && 1 <= l.maxTracked
    ensures EvictionInvisible(l) <==> RefillsBeforeEviction(l)
  {
    if RefillsBeforeEviction(l) {
      forall start: int, calls: seq<Call> | Timely(start, calls) && Roomy(l, NewTable(start), calls)
        ensures Answers(l, NewTable(start), calls) == IdealAnswers(l, map[], calls)
      {
        Invisible(l, start, calls);
      }
    } else {
      MulNonNegative(l.evictAfter + 1, l.rate);
      BothBurstsAllowed(l);
      IdealRefusesOne(l);
      var i :| 0 <= i < 2 * l.burst && !IdealAnswers(l, map[], TwoBursts(l))[i];
      assert Answers(l, NewTable(0), TwoBursts(l))[i];
    }
  }

  /** Both limiters of the server are configured so that eviction never shows. */
  lemma ServerLimitersInvisible()
    ensures EvictionInvisible(AUTH) && EvictionInvisible(PUBLIC)
  {
    EvictionInvisibleIff(AUTH);
    EvictionInvisibleIff(PUBLIC);
  }
}
