/**
 The Lua token bucket of internal/ratelimit/lua.go over exact reals: refill, take, retry-after
 and key expiry.  Script is the script as a function of the stored hash; class RedisBucket runs
 it in place on the stored fields.
 */
module TokenBucket {
  import opened Wrappers

  /** The stored hash; a missing key is None. */
  datatype Hash = Hash(tokens: real, ts: int)

  datatype Config = Config(rate: real, capacity: real)

  datatype Decision = Decision(allowed: bool, retryAfterMs: int, tokensLeft: real)

  const KEY_TTL_MS := 60_000

  predicate Valid(c: Config) {
    c.rate > 0.0 && c.capacity > 0.0
  }

  /** What a hash written by the script looks like. */
  predicate Stored(h: Option<Hash>, c: Config) {
    h.Some? ==> 0.0 <= h.value.tokens <= c.capacity
  }

  function Min(a: real, b: real): real {
    if a <= b then a else b
  }

  function Up(from: int, to: int): int {
    if from <= to then to - from else 0
  }

  /** Tokens that accrue in ms milliseconds. */
  function Accrued(c: Config, ms: int): real {
    (ms as real / 1000.0) * c.rate
  }

  function Ceil(x: real): int {
    if x.Floor as real == x then x.Floor else x.Floor + 1
  }

  /** Tokens in the bucket when the script runs at reading now. */
  function Refilled(h: Option<Hash>, c: Config, now: int): real {
    match h
    case None => c.capacity
    case Some(Hash(tokens, ts)) => Min(c.capacity, tokens + Accrued(c, Up(ts, now)))
  }

  function Script(h: Option<Hash>, c: Config, now: int, take: real): (Hash, Decision)
    requires Valid(c)
  {
    var tokens := Refilled(h, c, now);
    if tokens >= take
    then (Hash(tokens - take, now), Decision(true, 0, tokens - take))
    else (Hash(tokens, now), Decision(false, Ceil(((take - tokens) / c.rate) * 1000.0), tokens))
  }

  // ---- the script in place ------------------------------------------------------------------

  datatype AllowError = NotPositive

  datatype AllowResult = Decided(decision: Decision) | Refused(error: AllowError)

  class RedisBucket {
    var present: bool
    var tokens: real
    var ts: int

    ghost function Contents(): Option<Hash>
      reads this
    {
      if present then Some(Hash(tokens, ts)) else None
    }

    constructor ()
      ensures Contents() == None
    {
      present, tokens, ts := false, 0.0, 0;
    }

    /** AllowN: argument check, then the script. */
    method AllowN(now: int, rate: real, capacity: real, take: real) returns (r: AllowResult)
      modifies this
      ensures rate <= 0.0 || capacity <= 0.0 || take <= 0.0 ==>
                r == Refused(NotPositive) && Contents() == old(Contents())
      ensures rate > 0.0 && capacity > 0.0 && take > 0.0 ==>
                var (h, d) := Script(old(Contents()), Config(rate, capacity), now, take);
                r == Decided(d) && Contents() == Some(h)
    {
      if rate <= 0.0 || capacity <= 0.0 || take <= 0.0 {
        return Refused(NotPositive);
      }
      if !present {
        tokens := capacity;
        ts := now;
      }
      var elapsed := if now - ts > 0 then now - ts else 0;
      var refill := (elapsed as real / 1000.0) * rate;
      assert elapsed == 0 ==> refill == 0.0;
      tokens := Min(capacity, tokens + refill);
      assert tokens == Refilled(old(Contents()), Config(rate, capacity), now);
      var allowed, retryAfter := false, 0;
      if tokens >= take {
        tokens := tokens - take;
        allowed := true;
      } else {
        var needed := take - tokens;
        retryAfter := Ceil((needed / rate) * 1000.0);
      }
      present, ts := true, now;
      return Decided(Decision(allowed, retryAfter, tokens));
    }
  }

  // ---- arithmetic ---------------------------------------------------------------------------

  lemma AccruedAdds(c: Config, a: int, b: int)
    ensures Accrued(c, a) + Accrued(c, b) == Accrued(c, a + b)
  {
    assert (a as real / 1000.0) + (b as real / 1000.0) == ((a + b) as real / 1000.0);
  }

  lemma AccruedGrows(c: Config, a: int, b: int)
    requires Valid(c) && a <= b
    ensures Accrued(c, a) <= Accrued(c, b)
    ensures a < b ==> Accrued(c, a) < Accrued(c, b)
  {
    var x, y := a as real / 1000.0, b as real / 1000.0;
    assert x <= y;
    assert (y - x) * c.rate >= 0.0;
    if a < b {
      assert (y - x) * c.rate > 0.0;
    }
  }

  lemma ScriptStores(h: Option<Hash>, c: Config, now: int, take: real)
    requires Valid(c) && Stored(h, c) && take > 0.0
    ensures Stored(Some(Script(h, c, now, take).0), c)
    ensures 0.0 <= Refilled(h, c, now) <= c.capacity
  {
    if h.Some? {
      AccruedGrows(c, 0, Up(h.value.ts, now));
    }
  }

  // ---- how much a bucket can grant ------------------------------------------------------------

  datatype Call = Call(now: int, take: real)

  /** Total tokens granted by a sequence of calls. */
  function Granted(h: Option<Hash>, c: Config, calls: seq<Call>): real
    requires Valid(c)
    decreases |calls|
  {
    if calls == [] then 0.0
    else
      var (h', d) := Script(h, c, calls[0].now, calls[0].take);
      (if d.allowed then calls[0].take else 0.0) + Granted(Some(h'), c, calls[1..])
  }

  /** Sum of the upward jumps between consecutive readings. */
  function Jumps(calls: seq<Call>): int {
    if |calls| <= 1 then 0 else Up(calls[0].now, calls[1].now) + Jumps(calls[1..])
  }

  lemma {:induction false} GrantedFrom(h: Hash, c: Config, calls: seq<Call>)
    requires Valid(c) && calls != [] && Stored(Some(h), c)
    requires forall i :: 0 <= i < |calls| ==> calls[i].take > 0.0
    ensures Granted(Some(h), c, calls) <= h.tokens + Accrued(c, Up(h.ts, calls[0].now) + Jumps(calls))
    decreases |calls|
  {
    var jump := Up(h.ts, calls[0].now);
    var (h', d) := Script(Some(h), c, calls[0].now, calls[0].take);
    ScriptStores(Some(h), c, calls[0].now, calls[0].take);
    AccruedGrows(c, 0, jump);
    if |calls| == 1 {
      assert Granted(Some(h'), c, calls[1..]) == 0.0;
    } else {
      GrantedFrom(h', c, calls[1..]);
      AccruedAdds(c, jump, Jumps(calls));
    }
  }

  /**
   For any readings the callers bring, forwards or backwards, a bucket grants at most its
   capacity plus what accrues over the upward jumps between consecutive readings.
   */
  lemma GrantedWithinJumps(h: Option<Hash>, c: Config, calls: seq<Call>)
    requires Valid(c) && Stored(h, c) && calls != []
    requires forall i :: 0 <= i < |calls| ==> calls[i].take > 0.0
    ensures Granted(h, c, calls) <= c.capacity + Accrued(c, Jumps(calls))
  {
    var (h', d) := Script(h, c, calls[0].now, calls[0].take);
    ScriptStores(h, c, calls[0].now, calls[0].take);
    if |calls| == 1 {
      assert Granted(Some(h'), c, calls[1..]) == 0.0;
    } else {
      GrantedFrom(h', c, calls[1..]);
    }
  }

  predicate Monotone(calls: seq<Call>) {
    forall i, j :: 0 <= i <= j < |calls| ==> calls[i].now <= calls[j].now
  }

  /** With clocks that never run backwards the jumps are the elapsed time. */
  lemma {:induction false} JumpsOfMonotone(calls: seq<Call>)
    requires Monotone(calls) && calls != []
    ensures Jumps(calls) == calls[|calls| - 1].now - calls[0].now
  {
    if |calls| > 1 {
      JumpsOfMonotone(calls[1..]);
    }
  }

  /** n times back and forth between readings 0 and one second. */
  function Swinging(n: nat): seq<Call> {
    if n == 0 then [Call(0, 100.0)] else [Call(0, 100.0), Call(1000, 100.0)] + Swinging(n - 1)
  }

  predicate WithinOneSecond(calls: seq<Call>) {
    forall i :: 0 <= i < |calls| ==> 0 <= calls[i].now <= 1000
  }

  const SKEWED := Config(100.0, 100.0)

  /** From an emptied bucket, one swing back takes nothing and one forth takes a full bucket and empties it again. */
  lemma OneSwing()
    ensures Script(Some(Hash(0.0, 1000)), SKEWED, 0, 100.0).0 == Hash(0.0, 0)
    ensures !Script(Some(Hash(0.0, 1000)), SKEWED, 0, 100.0).1.allowed
    ensures Script(Some(Hash(0.0, 0)), SKEWED, 1000, 100.0).0 == Hash(0.0, 1000)
    ensures Script(Some(Hash(0.0, 0)), SKEWED, 1000, 100.0).1.allowed
  {
    assert Accrued(SKEWED, 0) == 0.0 && Accrued(SKEWED, 1000) == 100.0;
  }

  lemma GrantedTwice(h: Option<Hash>, c: Config, a: Call, b: Call, rest: seq<Call>)
    requires Valid(c)
    ensures var x := Script(h, c, a.now, a.take);
            var y := Script(Some(x.0), c, b.now, b.take);
            Granted(h, c, [a, b] + rest) ==
              (if x.1.allowed then a.take else 0.0) + (if y.1.allowed then b.take else 0.0)
              + Granted(Some(y.0), c, rest)
  {
    var calls := [a, b] + rest;
    assert calls[1..] == [b] + rest && ([b] + rest)[1..] == rest;
  }

  lemma {:induction false} SwingingGrants(n: nat)
    ensures WithinOneSecond(Swinging(n))
    ensures Granted(Some(Hash(0.0, 1000)), SKEWED, Swinging(n)) == 100.0 * n as real
    decreases n
  {
    OneSwing();
    if n == 0 {
      assert Swinging(0)[1..] == [];
    } else {
      SwingingGrants(n - 1);
      GrantedTwice(Some(Hash(0.0, 1000)), SKEWED, Call(0, 100.0), Call(1000, 100.0), Swinging(n - 1));
    }
  }

  /**
   No additive skew term bounds the grants: two callers one second apart drain any amount out
   of an empty bucket, because a smaller reading sets ts back.
   */
  lemma SkewHasNoAdditiveBound(excess: nat) returns (calls: seq<Call>)
    ensures WithinOneSecond(calls)
    ensures Granted(Some(Hash(0.0, 1000)), SKEWED, calls) > 100.0 + 100.0 + excess as real
  {
    calls := Swinging(excess + 3);
    SwingingGrants(excess + 3);
  }

  // ---- what a refusal means -----------------------------------------------------------------

  lemma CeilBounds(x: real)
    ensures x <= Ceil(x) as real < x + 1.0
  {
  }

  lemma Scaled(a: real, b: real, rate: real)
    requires rate > 0.0
    ensures a <= b ==> a * rate <= b * rate
    ensures a < b ==> a * rate < b * rate
  {
    if a < b {
      assert (b - a) * rate > 0.0;
    }
  }

  lemma Quotient(a: real, b: real)
    requires a > 0.0 && b > 0.0
    ensures a / b > 0.0 && (a / b) * b == a
  {
  }

  /** Whole milliseconds on either side of x seconds accrue less or no less than x seconds do. */
  lemma Brackets(c: Config, x: real, m: int)
    requires Valid(c)
    ensures m as real / 1000.0 < x ==> Accrued(c, m) < x * c.rate
    ensures x <= m as real / 1000.0 ==> x * c.rate <= Accrued(c, m)
  {
    Scaled(m as real / 1000.0, x, c.rate);
    Scaled(x, m as real / 1000.0, c.rate);
  }

  /** The least whole number of milliseconds in which missing tokens accrue. */
  lemma LeastWait(c: Config, missing: real, n: int)
    requires Valid(c) && missing > 0.0 && n == Ceil((missing / c.rate) * 1000.0)
    ensures n >= 1 && Accrued(c, n) >= missing && Accrued(c, n - 1) < missing
  {
    var x := missing / c.rate;
    Quotient(missing, c.rate);
    CeilBounds(x * 1000.0);
    Brackets(c, x, n);
    Brackets(c, x, n - 1);
  }

  /** retry_after_ms is the exact wait: undisturbed, the same take succeeds after it and not one millisecond sooner. */
  lemma RetryAfterIsExact(h: Option<Hash>, c: Config, now: int, take: real)
    requires Valid(c) && Stored(h, c) && 0.0 < take <= c.capacity
    requires !Script(h, c, now, take).1.allowed
    ensures var (h', d) := Script(h, c, now, take);
            && d.retryAfterMs >= 1
            && Script(Some(h'), c, now + d.retryAfterMs, take).1.allowed
            && !Script(Some(h'), c, now + d.retryAfterMs - 1, take).1.allowed
  {
    var (h', d) := Script(h, c, now, take);
    var n := d.retryAfterMs;
    LeastWait(c, take - h'.tokens, n);
    assert Up(now, now + n) == n && Up(now, now + n - 1) == n - 1;
  }

  /** A take larger than the capacity is refused at every time. */
  lemma OversizedRefused(h: Option<Hash>, c: Config, now: int, take: real)
    requires Valid(c) && take > c.capacity
    ensures !Script(h, c, now, take).1.allowed
  {
  }

  /** At 100 tokens a second a refused single token is 1 to 10 milliseconds away. */
  lemma SingleRetryShort(h: Option<Hash>, now: int)
    requires Stored(h, Config(100.0, 100.0))
    requires !Script(h, Config(100.0, 100.0), now, 1.0).1.allowed
    ensures 1 <= Script(h, Config(100.0, 100.0), now, 1.0).1.retryAfterMs <= 10
  {
    var c := Config(100.0, 100.0);
    ScriptStores(h, c, now, 1.0);
    RetryAfterIsExact(h, c, now, 1.0);
    CeilBounds(((1.0 - Refilled(h, c, now)) / 100.0) * 1000.0);
  }

  // ---- refusals and expiry leave no trace -----------------------------------------------------

  /** Two hashes that no caller with a reading of at least now can tell apart. */
  ghost predicate Alike(g: Option<Hash>, h: Option<Hash>, c: Config, now: int) {
    forall n :: n >= now ==> Refilled(g, c, n) == Refilled(h, c, n)
  }

  lemma RefillTwice(h: Option<Hash>, c: Config, now: int, later: int)
    requires Valid(c) && now <= later && (h.Some? ==> h.value.ts <= now)
    ensures Refilled(Some(Hash(Refilled(h, c, now), now)), c, later) == Refilled(h, c, later)
  {
    AccruedGrows(c, 0, later - now);
    if h.Some? {
      AccruedAdds(c, now - h.value.ts, later - now);
    }
  }

  lemma RefusalLeavesNoTrace(h: Option<Hash>, c: Config, now: int, take: real)
    requires Valid(c) && (h.Some? ==> h.value.ts <= now) && !Script(h, c, now, take).1.allowed
    ensures Alike(Some(Script(h, c, now, take).0), h, c, now)
  {
    forall n | n >= now
      ensures Refilled(Some(Script(h, c, now, take).0), c, n) == Refilled(h, c, n)
    {
      RefillTwice(h, c, now, n);
    }
  }

  /**
   An idle minute refills the bucket, so losing the key then changes nothing, provided a minute
   is enough to fill it.
   */
  lemma ExpiryLeavesNoTrace(h: Hash, c: Config, now: int)
    requires Valid(c) && Stored(Some(h), c) && h.ts + KEY_TTL_MS <= now && c.capacity <= 60.0 * c.rate
    ensures Alike(Some(h), None, c, now)
  {
    forall n | n >= now
      ensures Refilled(Some(h), c, n) == Refilled(None, c, n)
    {
      AccruedGrows(c, KEY_TTL_MS, n - h.ts);
    }
  }

  /** The calls of a sequence that are granted. */
  function GrantedCalls(h: Option<Hash>, c: Config, calls: seq<Call>): seq<Call>
    requires Valid(c)
    decreases |calls|
  {
    if calls == [] then []
    else
      var (h', d) := Script(h, c, calls[0].now, calls[0].take);
      (if d.allowed then [calls[0]] else []) + GrantedCalls(Some(h'), c, calls[1..])
  }

  predicate ReadyFor(h: Option<Hash>, calls: seq<Call>) {
    Monotone(calls) && (calls != [] && h.Some? ==> h.value.ts <= calls[0].now)
  }

  lemma {:induction false} AlikeGrantsAlike(g: Option<Hash>, h: Option<Hash>, c: Config, calls: seq<Call>)
    requires Valid(c) && Monotone(calls) && calls != [] && Alike(g, h, c, calls[0].now)
    ensures GrantedCalls(g, c, calls) == GrantedCalls(h, c, calls)
    decreases |calls|
  {
    assert Refilled(g, c, calls[0].now) == Refilled(h, c, calls[0].now);
    assert Script(g, c, calls[0].now, calls[0].take) == Script(h, c, calls[0].now, calls[0].take);
  }

  /** Losing an idle key changes no later decision. */
  lemma ExpiryChangesNoGrant(h: Hash, c: Config, calls: seq<Call>)
    requires Valid(c) && Stored(Some(h), c) && c.capacity <= 60.0 * c.rate
    requires Monotone(calls) && calls != [] && h.ts + KEY_TTL_MS <= calls[0].now
    ensures GrantedCalls(Some(h), c, calls) == GrantedCalls(None, c, calls)
  {
    ExpiryLeavesNoTrace(h, c, calls[0].now);
    AlikeGrantsAlike(Some(h), None, c, calls);
  }

  /** An idle key whose loss somebody notices. */
  ghost predicate ExpiryShows(h: Hash, c: Config, calls: seq<Call>)
    requires Valid(c)
  {
    && Stored(Some(h), c) && Monotone(calls) && calls != [] && h.ts + KEY_TTL_MS <= calls[0].now
    && GrantedCalls(Some(h), c, calls) != GrantedCalls(None, c, calls)
  }

  /** Over 60 seconds' worth of capacity an emptied bucket that expires is full again too early. */
  lemma EarlyExpiryShows(c: Config)
    requires Valid(c) && c.capacity > 60.0 * c.rate
    ensures ExpiryShows(Hash(0.0, 0), c, [Call(KEY_TTL_MS, c.capacity)])
  {
    var h, calls := Hash(0.0, 0), [Call(KEY_TTL_MS, c.capacity)];
    assert Accrued(c, KEY_TTL_MS) == 60.0 * c.rate;
    assert Refilled(Some(h), c, KEY_TTL_MS) == 60.0 * c.rate;
    assert calls[1..] == [];
    assert GrantedCalls(Some(h), c, calls) == [];
    assert GrantedCalls(None, c, calls) == calls;
  }

  /** Expiry of idle keys is unnoticeable if and only if the capacity is at most 60 seconds' worth of tokens. */
  lemma ExpiryHarmlessExactly(c: Config)
    requires Valid(c)
    ensures (forall h, calls :: !ExpiryShows(h, c, calls)) <==> c.capacity <= 60.0 * c.rate
  {
    if c.capacity <= 60.0 * c.rate {
      forall h: Hash, calls: seq<Call> |
        Stored(Some(h), c) && Monotone(calls) && calls != [] && h.ts + KEY_TTL_MS <= calls[0].now
        ensures GrantedCalls(Some(h), c, calls) == GrantedCalls(None, c, calls)
      {
        ExpiryChangesNoGrant(h, c, calls);
      }
    } else {
      EarlyExpiryShows(c);
    }
  }

  predicate From(now: int, calls: seq<Call>) {
    forall i :: 0 <= i < |calls| ==> now <= calls[i].now
  }

  lemma {:induction false} GrantedCallsOrdered(h: Option<Hash>, c: Config, calls: seq<Call>, now: int)
    requires Valid(c) && Monotone(calls) && From(now, calls)
    ensures Monotone(GrantedCalls(h, c, calls)) && From(now, GrantedCalls(h, c, calls))
    decreases |calls|
  {
    if calls != [] {
      var (h', d) := Script(h, c, calls[0].now, calls[0].take);
      assert From(calls[0].now, calls[1..]);
      GrantedCallsOrdered(Some(h'), c, calls[1..], calls[0].now);
    }
  }

  /** Under monotone clocks, leaving out every refused call changes no grant. */
  lemma {:induction false} RefusalsCanBeDropped(h: Option<Hash>, c: Config, calls: seq<Call>)
    requires Valid(c) && ReadyFor(h, calls)
    ensures GrantedCalls(h, c, GrantedCalls(h, c, calls)) == GrantedCalls(h, c, calls)
    decreases |calls|
  {
    if calls != [] {
      var now := calls[0].now;
      var (h', d) := Script(h, c, now, calls[0].take);
      var rest := GrantedCalls(Some(h'), c, calls[1..]);
      RefusalsCanBeDropped(Some(h'), c, calls[1..]);
      if d.allowed {
        assert ([calls[0]] + rest)[1..] == rest;
      } else if rest != [] {
        assert [] + rest == rest;
        assert From(now, calls[1..]);
        GrantedCallsOrdered(Some(h'), c, calls[1..], now);
        RefusalLeavesNoTrace(h, c, now, calls[0].take);
        AlikeGrantsAlike(Some(h'), h, c, rest);
      }
    }
  }
}
