/**
 The throttler's Redis script: a hit counter and a block flag per key, both
 with expiries. What it promises per window follows for every window: with a
 block at least as long as the window, any `ttl` milliseconds contain at most
 2 * limit - 1 unblocked answers, and the condition is exact.

 Redis keeps a key through the very millisecond of its expiry (it is gone when
 now > expiry), and PTTL answers 0 then; time stands still inside a script.
*/
module RateLimiter {
  import opened Prelude

  datatype Limits = Limits(ttl: nat, limit: nat, blockDuration: nat)

  /** A Redis key with its value; `expires` is `None` for a key without a time to live. */
  datatype Entry = Entry(value: nat, expires: Option<nat>)

  /** The hit counter and the block flag of one throttler key. */
  datatype Keys = Keys(hits: Option<Entry>, block: Option<Entry>)

  datatype Answer = Answer(totalHits: nat, timeToExpire: int, isBlocked: bool, timeToBlockExpire: int)

  const NoKeys := Keys(None, None)

  function Live(entry: Option<Entry>, now: nat): Option<Entry> {
    if entry.Some? && entry.value.expires.Some? && now > entry.value.expires.value then None else entry
  }

  /** PTTL: -2 without the key, -1 without an expiry. */
  function Pttl(entry: Option<Entry>, now: nat): int {
    var live := Live(entry, now);
    if live.None? then -2 else if live.value.expires.None? then -1 else live.value.expires.value - now
  }

  // ---- What one call does, as a function ----

  function Counted(k: Keys, now: nat, p: Limits): Entry {
    var live := Live(k.hits, now);
    var total := if live.Some? then live.value.value + 1 else 1;
    if live.Some? && Pttl(k.hits, now) > 0 then Entry(total, live.value.expires) else Entry(total, Some(now + p.ttl))
  }

  datatype Verdict = Free | Held | Trips | Resets

  function Judge(k: Keys, now: nat, p: Limits): Verdict {
    if Live(k.block, now).Some? then if Pttl(k.block, now) <= 0 then Resets else Held
    else if Counted(k, now, p).value > p.limit then Trips else Free
  }

  predicate Allows(k: Keys, now: nat, p: Limits) {
    Judge(k, now, p).Free? || Judge(k, now, p).Resets?
  }

  function After(k: Keys, now: nat, p: Limits): Keys {
    match Judge(k, now, p)
    case Free => Keys(Some(Counted(k, now, p)), None)
    case Held => Keys(Some(Counted(k, now, p)), k.block)
    case Trips => Keys(Some(Counted(k, now, p)), Some(Entry(1, Some(now + p.blockDuration))))
    case Resets => Keys(Some(Entry(1, Some(now + p.ttl))), None)
  }

  // ---- The script, on the keys themselves ----

  class Redis {
    var store: map<string, Entry>

    ghost function KeysOf(hitKey: string, blockKey: string): Keys
      reads this
    {
      Keys(if hitKey in store then Some(store[hitKey]) else None,
           if blockKey in store then Some(store[blockKey]) else None)
    }

    constructor ()
      ensures store == map[]
    {
      store := map[];
    }

    function Get(key: string, now: nat): Option<Entry>
      reads this
    {
      Live(if key in store then Some(store[key]) else None, now)
    }

    /**
     `increment`'s script. Which keys are named tells apart the callers and
     throttlers; every other key is left alone. An answer is blocked exactly
     when the call is not allowed, and then says how long for.
    */
    method Increment(hitKey: string, blockKey: string, now: nat, p: Limits) returns (answer: Answer)
      requires hitKey != blockKey && p.ttl > 0 && p.blockDuration > 0
      modifies this
      ensures
        var before := old(KeysOf(hitKey, blockKey));
        var after := After(before, now, p);
        && KeysOf(hitKey, blockKey).hits == after.hits
        && Live(KeysOf(hitKey, blockKey).block, now) == Live(after.block, now)
        && answer.isBlocked == !Allows(before, now, p)
        && after.hits.Some? && after.hits.value.expires == Some(now + answer.timeToExpire) && answer.timeToExpire > 0
        && answer.totalHits == after.hits.value.value
        && (answer.isBlocked ==> after.block.Some? && Pttl(after.block, now) == answer.timeToBlockExpire)
      ensures forall key | key != hitKey && key != blockKey ::
                (key in store <==> key in old(store)) && (key in store ==> store[key] == old(store)[key])
    {
      // INCR, then PTTL
      var hit := Get(hitKey, now);
      var totalHits := if hit.Some? then hit.value.value + 1 else 1;
      store := store[hitKey := Entry(totalHits, if hit.Some? then hit.value.expires else None)];
      var timeToExpire := Pttl(Some(store[hitKey]), now);
      if timeToExpire <= 0 {
        store := store[hitKey := Entry(totalHits, Some(now + p.ttl))];
        timeToExpire := p.ttl;
      }
      var block := Get(blockKey, now);
      var isBlocked := block.Some?;
      var timeToBlockExpire := 0;
      if isBlocked {
        timeToBlockExpire := Pttl(block, now);
      } else if totalHits > p.limit {
        store := store[blockKey := Entry(1, Some(now + p.blockDuration))];
        isBlocked := true;
        timeToBlockExpire := p.blockDuration;
      }
      if isBlocked && timeToBlockExpire <= 0 {
        store := store - {blockKey};
        store := store[hitKey := Entry(1, Some(now + p.ttl))];
        totalHits := 1;
        timeToExpire := p.ttl;
        isBlocked := false;
      }
      answer := Answer(totalHits, timeToExpire, isBlocked, timeToBlockExpire);
    }
  }

  // ---- Runs of calls ----

  /** How many calls at these times are answered unblocked, counting those from `a` on and before `b`. */
  function AllowedBetween(k: Keys, times: seq<nat>, p: Limits, a: nat, b: nat): nat
    decreases |times|
  {
    if times == [] then 0
    else
      (if a <= times[0] < b && Allows(k, times[0], p) then 1 else 0)
      + AllowedBetween(After(k, times[0], p), times[1..], p, a, b)
  }

  function AfterAll(k: Keys, times: seq<nat>, p: Limits): Keys
    decreases |times|
  {
    if times == [] then k else AfterAll(After(k, times[0], p), times[1..], p)
  }

  ghost predicate InOrder(times: seq<nat>) {
    forall i, j | 0 <= i < j < |times| :: times[i] <= times[j]
  }

  ghost predicate From(times: seq<nat>, start: nat) {
    InOrder(times) && (times != [] ==> start <= times[0])
  }

  lemma TailFrom(times: seq<nat>)
    requires InOrder(times) && times != []
    ensures From(times[1..], times[0])
  {
    forall i, j | 0 <= i < j < |times[1..]| ensures times[1..][i] <= times[1..][j] {
      assert times[i + 1] <= times[j + 1];
    }
  }

  // ---- The bound over every window ----

  function Room(k: Keys, p: Limits): nat {
    if k.hits.Some? then Max(0, p.limit - k.hits.value.value) else 0
  }

  /** The counter was started inside the window and outlives it. */
  predicate Recent(k: Keys, b: nat) {
    k.hits.Some? && k.hits.value.expires.Some? && k.hits.value.expires.value >= b
  }

  /** How many more unblocked answers a window ending at `b` can hold. */
  function Potential(k: Keys, p: Limits, b: nat): nat {
    if !Recent(k, b) then p.limit + Room(k, p)
    else if k.block.Some? && k.block.value.expires.Some? && k.block.value.expires.value < b then p.limit
    else Room(k, p)
  }

  /** What every call leaves behind. */
  predicate WellFormed(k: Keys, p: Limits, now: nat) {
    && (k.hits.Some? ==> k.hits.value.value >= 1 && k.hits.value.expires.Some?)
    && (k.hits.Some? ==> k.hits.value.expires.value <= now + p.ttl)
    && (k.block.Some? ==> k.block.value.expires.Some?)
  }

  /** Each unblocked answer inside the window uses up potential. */
  lemma PotentialPays(k: Keys, p: Limits, last: nat, t: nat, a: nat)
    requires p.limit >= 1 && p.blockDuration >= p.ttl
    requires WellFormed(k, p, last) && last <= t && a <= t < a + p.ttl
    ensures WellFormed(After(k, t, p), p, t)
    ensures (if Allows(k, t, p) then 1 else 0) + Potential(After(k, t, p), p, a + p.ttl) <= Potential(k, p, a + p.ttl)
  {
  }

  lemma {:induction false} WindowFromInside(k: Keys, p: Limits, last: nat, times: seq<nat>, a: nat)
    requires p.limit >= 1 && p.blockDuration >= p.ttl
    requires WellFormed(k, p, last) && From(times, last) && From(times, a)
    ensures AllowedBetween(k, times, p, a, a + p.ttl) <= Potential(k, p, a + p.ttl)
    decreases |times|
  {
    if times != [] {
      TailFrom(times);
      if times[0] < a + p.ttl {
        PotentialPays(k, p, last, times[0], a);
        WindowFromInside(After(k, times[0], p), p, times[0], times[1..], a);
      } else {
        NothingPast(After(k, times[0], p), p, times[1..], a, a + p.ttl);
      }
    }
  }

  lemma {:induction false} NothingPast(k: Keys, p: Limits, times: seq<nat>, a: nat, b: nat)
    requires From(times, b)
    ensures AllowedBetween(k, times, p, a, b) == 0
    decreases |times|
  {
    if times != [] {
      TailFrom(times);
      NothingPast(After(k, times[0], p), p, times[1..], a, b);
    }
  }

  /** Outside the window calls only have to keep the keys well formed. */
  lemma StaysWellFormed(k: Keys, p: Limits, last: nat, t: nat)
    requires WellFormed(k, p, last) && last <= t
    ensures WellFormed(After(k, t, p), p, t)
  {
  }

  lemma {:induction false} WindowFromBefore(k: Keys, p: Limits, last: nat, times: seq<nat>, a: nat)
    requires p.limit >= 1 && p.blockDuration >= p.ttl
    requires WellFormed(k, p, last) && From(times, last) && last < a
    ensures AllowedBetween(k, times, p, a, a + p.ttl) <= 2 * p.limit - 1
    decreases |times|
  {
    if times != [] {
      TailFrom(times);
      if times[0] < a {
        StaysWellFormed(k, p, last, times[0]);
        WindowFromBefore(After(k, times[0], p), p, times[0], times[1..], a);
      } else {
        WindowFromInside(k, p, last, times, a);
      }
    }
  }

  /**
   With blocks at least as long as the window, no `ttl` milliseconds hold more
   than 2 * limit - 1 unblocked answers.
  */
  lemma WindowBound(p: Limits, times: seq<nat>, a: nat)
    requires p.limit >= 1 && p.ttl >= 1 && p.blockDuration >= p.ttl && InOrder(times)
    ensures AllowedBetween(NoKeys, times, p, a, a + p.ttl) <= 2 * p.limit - 1
  {
    if a == 0 {
      WindowFromInside(NoKeys, p, 0, times, a);
    } else {
      WindowFromBefore(NoKeys, p, 0, times, a);
    }
  }

  // ---- The bound is reached, and the condition on blocks is exact ----

  /** `n` calls in the same millisecond. */
  function Burst(t: nat, n: nat): seq<nat> {
    seq(n, _ => t)
  }

  lemma {:induction false} Concat(k: Keys, xs: seq<nat>, ys: seq<nat>, p: Limits, a: nat, b: nat)
    ensures AllowedBetween(k, xs + ys, p, a, b)
         == AllowedBetween(k, xs, p, a, b) + AllowedBetween(AfterAll(k, xs, p), ys, p, a, b)
    ensures AfterAll(k, xs + ys, p) == AfterAll(AfterAll(k, xs, p), ys, p)
    decreases |xs|
  {
    if xs == [] {
      assert xs + ys == ys;
    } else {
      Concat(After(k, xs[0], p), xs[1..], ys, p, a, b);
      assert (xs + ys)[0] == xs[0] && (xs + ys)[1..] == xs[1..] + ys;
    }
  }

  /** A running counter with room left and no block. */
  predicate Running(k: Keys, t: nat, count: nat, expires: nat) {
    k == Keys(Some(Entry(count, Some(expires))), None) && t < expires
  }

  lemma {:induction false} BurstIsAllowed(k: Keys, p: Limits, t: nat, n: nat, count: nat, expires: nat, a: nat, b: nat)
    requires Running(k, t, count, expires) && count + n <= p.limit
    ensures AllowedBetween(k, Burst(t, n), p, a, b) == if a <= t < b then n else 0
    ensures Running(AfterAll(k, Burst(t, n), p), t, count + n, expires)
    decreases n
  {
    if n > 0 {
      assert Burst(t, n)[1..] == Burst(t, n - 1);
      BurstIsAllowed(After(k, t, p), p, t, n - 1, count + 1, expires, a, b);
    }
  }

  /** A burst that opens a new counter. */
  lemma NewBurst(k: Keys, p: Limits, t: nat, n: nat, a: nat, b: nat)
    requires p.ttl >= 1 && 1 <= n <= p.limit && Live(k.hits, t).None? && Live(k.block, t).None?
    ensures AllowedBetween(k, Burst(t, n), p, a, b) == if a <= t < b then n else 0
    ensures Running(AfterAll(k, Burst(t, n), p), t, n, t + p.ttl)
  {
    assert Burst(t, n)[1..] == Burst(t, n - 1);
    BurstIsAllowed(After(k, t, p), p, t, n - 1, 1, t + p.ttl, a, b);
  }

  lemma BurstsInOrder(t: nat, m: nat, u: nat, n: nat)
    requires t <= u
    ensures InOrder(Burst(t, m) + Burst(u, n))
  {
  }

  /** 2 * limit - 1 is reached: one call, the rest of its window late, and a full new window. */
  lemma BoundIsReached(p: Limits) returns (times: seq<nat>, a: nat)
    requires p.limit >= 1 && p.ttl >= 3
    ensures InOrder(times) && AllowedBetween(NoKeys, times, p, a, a + p.ttl) == 2 * p.limit - 1
  {
    a := p.ttl - 1;
    var b := a + p.ttl;
    var late, next := Burst(a, p.limit - 1), Burst(p.ttl + 1, p.limit);
    times := Burst(0, 1) + (late + next);
    NewBurst(NoKeys, p, 0, 1, a, b);
    var k := AfterAll(NoKeys, Burst(0, 1), p);
    BurstIsAllowed(k, p, a, p.limit - 1, 1, p.ttl, a, b);
    var l := AfterAll(k, late, p);
    NewBurst(l, p, p.ttl + 1, p.limit, a, b);
    Concat(NoKeys, Burst(0, 1), late + next, p, a, b);
    Concat(k, late, next, p, a, b);
    assert InOrder(times) by {
      BurstsInOrder(a, p.limit - 1, p.ttl + 1, p.limit);
    }
  }

  /** The call over the limit is blocked; the one at the block's end starts a new counter. */
  lemma TripsAndResets(k: Keys, p: Limits)
    requires Running(k, 0, p.limit, p.ttl) && 1 <= p.blockDuration < p.ttl
    ensures
      var d := p.blockDuration;
      && AllowedBetween(k, Burst(0, 1) + Burst(d, 1), p, 0, p.ttl) == 1
      && Running(AfterAll(k, Burst(0, 1) + Burst(d, 1), p), d, 1, d + p.ttl)
  {
    var times := Burst(0, 1) + Burst(p.blockDuration, 1);
    var last := times[1..];
    assert last == [p.blockDuration] && last[1..] == [];
    var blocked := After(k, 0, p);
    assert Judge(k, 0, p).Trips? && Judge(blocked, p.blockDuration, p).Resets?;
    assert AllowedBetween(blocked, last, p, 0, p.ttl) == 1;
    assert AfterAll(blocked, last, p) == After(blocked, p.blockDuration, p);
  }

  /** With a shorter block, the block's end restarts the counter inside the same window. */
  lemma ShortBlocksBreakTheBound(p: Limits) returns (times: seq<nat>)
    requires p.limit >= 1 && 1 <= p.blockDuration < p.ttl
    ensures InOrder(times) && AllowedBetween(NoKeys, times, p, 0, p.ttl) == 2 * p.limit
  {
    hide AllowedBetween, AfterAll;
    var d := p.blockDuration;
    var first, turn, rest := Burst(0, p.limit), Burst(0, 1) + Burst(d, 1), Burst(d, p.limit - 1);
    times := first + (turn + rest);
    NewBurst(NoKeys, p, 0, p.limit, 0, p.ttl);
    var k := AfterAll(NoKeys, first, p);
    TripsAndResets(k, p);
    BurstIsAllowed(AfterAll(k, turn, p), p, d, p.limit - 1, 1, d + p.ttl, 0, p.ttl);
    Concat(NoKeys, first, turn + rest, p, 0, p.ttl);
    Concat(k, turn, rest, p, 0, p.ttl);
  }

  /** No more than 2 * limit - 1 unblocked answers in the window that starts at `a`. */
  predicate WindowHolds(p: Limits, times: seq<nat>, a: nat) {
    AllowedBetween(NoKeys, times, p, a, a + p.ttl) <= 2 * p.limit - 1
  }

  ghost predicate EveryWindowHolds(p: Limits) {
    forall times: seq<nat>, a: nat | InOrder(times) :: WindowHolds(p, times, a)
  }

  /** The bound holds over every window of every run if and only if a block lasts at least a window. */
  lemma WindowBoundExactly(p: Limits)
    requires p.limit >= 1 && p.ttl >= 1 && p.blockDuration >= 1
    ensures EveryWindowHolds(p) <==> p.blockDuration >= p.ttl
  {
    if p.blockDuration >= p.ttl {
      forall times: seq<nat>, a: nat | InOrder(times) ensures WindowHolds(p, times, a) {
        WindowBound(p, times, a);
      }
    } else {
      var times := ShortBlocksBreakTheBound(p);
      assert !WindowHolds(p, times, 0);
    }
  }

  // ---- A block holds, and one counter grants at most its limit ----

  /** Once a block is set, every call before its expiry is answered blocked, and the first call at the expiry is not. */
  lemma {:induction false} BlockHolds(k: Keys, p: Limits, times: seq<nat>, until: nat, a: nat, b: nat)
    requires k.block == Some(Entry(1, Some(until)))
    requires forall i | 0 <= i < |times| :: times[i] < until
    ensures AllowedBetween(k, times, p, a, b) == 0
    ensures AfterAll(k, times, p).block == k.block
    ensures Judge(AfterAll(k, times, p), until, p).Resets?
    decreases |times|
  {
    if times != [] {
      assert times[0] < until;
      forall i | 0 <= i < |times[1..]| ensures times[1..][i] < until {
        assert times[i + 1] < until;
      }
      BlockHolds(After(k, times[0], p), p, times[1..], until, a, b);
    }
  }

  /** The call that goes over the limit blocks its key for the whole block duration. */
  lemma GoingOverBlocks(k: Keys, p: Limits, t: nat, times: seq<nat>, a: nat, b: nat)
    requires Judge(k, t, p).Trips?
    requires forall i | 0 <= i < |times| :: times[i] < t + p.blockDuration
    ensures AllowedBetween(After(k, t, p), times, p, a, b) == 0
  {
    BlockHolds(After(k, t, p), p, times, t + p.blockDuration, a, b);
  }

  /** The counter in `k` is still the one counting in every call of the run: never expired, never reset. */
  ghost predicate OneLife(k: Keys, times: seq<nat>, p: Limits)
    decreases |times|
  {
    times == [] ||
    (Live(k.hits, times[0]).Some? && !Judge(k, times[0], p).Resets? && OneLife(After(k, times[0], p), times[1..], p))
  }

  lemma {:induction false} RestOfLife(k: Keys, p: Limits, times: seq<nat>, a: nat, b: nat)
    requires k.hits.Some? && OneLife(k, times, p)
    ensures AllowedBetween(k, times, p, a, b) <= Max(0, p.limit - k.hits.value.value)
    decreases |times|
  {
    if times != [] {
      RestOfLife(After(k, times[0], p), p, times[1..], a, b);
    }
  }

  /** The call at `t` starts a counter: none was live, or the old one is reset. */
  predicate Starts(k: Keys, t: nat, p: Limits) {
    Live(k.hits, t).None? || Judge(k, t, p).Resets?
  }

  /**
   From the call that creates or resets it until it expires or is reset, one
   counter lets at most `limit` calls through.
  */
  lemma OneLifeGrantsItsLimit(k: Keys, p: Limits, t: nat, times: seq<nat>, a: nat, b: nat)
    requires p.limit >= 1 && Starts(k, t, p) && OneLife(After(k, t, p), times, p)
    ensures AllowedBetween(k, [t] + times, p, a, b) <= p.limit
  {
    RestOfLife(After(k, t, p), p, times, a, b);
    assert ([t] + times)[1..] == times;
  }

  /** And exactly `limit` when that many calls follow each other before its expiry, with no block on. */
  lemma OneLifeReachesItsLimit(k: Keys, p: Limits, t: nat)
    requires p.limit >= 1 && p.ttl >= 1 && Live(k.hits, t).None? && Live(k.block, t).None?
    ensures AllowedBetween(k, Burst(t, p.limit), p, t, t + 1) == p.limit
  {
    NewBurst(k, p, t, p.limit, t, t + 1);
  }
}
