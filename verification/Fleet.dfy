/**
 Any number of reservoirs (internal/ratelimit/reservoir.go) over one shared bucket.  A
 reservoir's mutex is released while a refill is on the wire, so its workers interleave freely;
 a state counts how many of them are where in Take.
 */
module Fleet {
  import opened Wrappers
  import opened TokenBucket

  /** batch is BatchSize, a positive whole number (20 in worker.New). */
  datatype Limits = Limits(bucket: Config, batch: nat)

  predicate ValidLimits(l: Limits) {
    Valid(l.bucket) && l.batch >= 1 && l.bucket.capacity <= 60.0 * l.bucket.rate
  }

  /**
   tokens is the local credit; asking workers found none and wait for a batch refill, crediting
   ones were granted it and have not credited the rest yet, single ones fall back to one token.
   */
  datatype Reservoir = Reservoir(workers: nat, tokens: nat, asking: nat, crediting: nat, single: nat)

  datatype State = State(hash: Option<Hash>, pools: seq<Reservoir>)

  /** answered is false when the script ran but its reply was lost, so the caller sees an error. */
  datatype Event =
    | TakeLocal(pool: nat)
    | Miss(pool: nat)
    | AskBatch(pool: nat, now: int, answered: bool)
    | Credit(pool: nat)
    | AskSingle(pool: nat, now: int, answered: bool)
    | Fail(pool: nat, batch: bool)
    | Restart(pool: nat)
    | KeyExpires(now: int)

  predicate Enabled(s: State, e: Event) {
    match e
    case KeyExpires(now) => s.hash.Some? && s.hash.value.ts + KEY_TTL_MS <= now
    case _ =>
      e.pool < |s.pools| &&
      var p := s.pools[e.pool];
      match e
      case TakeLocal(_) => p.tokens >= 1 && p.asking + p.crediting + p.single < p.workers
      case Miss(_) => p.tokens < 1 && p.asking + p.crediting + p.single < p.workers
      case AskBatch(_, _, _) => p.asking >= 1
      case Credit(_) => p.crediting >= 1
      case AskSingle(_, _, _) => p.single >= 1
      case Fail(_, batch) => if batch then p.asking >= 1 else p.single >= 1
      case Restart(_) => true
  }

  function Put(s: State, i: nat, p: Reservoir): State
    requires i < |s.pools|
  {
    s.(pools := s.pools[i := p])
  }

  function Apply(s: State, e: Event, l: Limits): State
    requires ValidLimits(l) && Enabled(s, e)
  {
    match e
    case KeyExpires(_) => s.(hash := None)
    case TakeLocal(i) => Put(s, i, s.pools[i].(tokens := s.pools[i].tokens - 1))
    case Miss(i) => Put(s, i, s.pools[i].(asking := s.pools[i].asking + 1))
    case AskBatch(i, now, answered) =>
      var (h, d) := Script(s.hash, l.bucket, now, l.batch as real);
      var p := s.pools[i].(asking := s.pools[i].asking - 1);
      Put(s.(hash := Some(h)), i,
          if !answered then p
          else if d.allowed then p.(crediting := p.crediting + 1)
          else p.(single := p.single + 1))
    case Credit(i) =>
      var p := s.pools[i];
      Put(s, i, p.(crediting := p.crediting - 1, tokens := p.tokens + (l.batch - 1)))
    case AskSingle(i, now, _) =>
      var (h, _) := Script(s.hash, l.bucket, now, 1.0);
      Put(s.(hash := Some(h)), i, s.pools[i].(single := s.pools[i].single - 1))
    case Fail(i, batch) =>
      Put(s, i, if batch then s.pools[i].(asking := s.pools[i].asking - 1)
                else s.pools[i].(single := s.pools[i].single - 1))
    case Restart(i) => Put(s, i, Reservoir(s.pools[i].workers, 0, 0, 0, 0))
  }

  /** Tokens the bucket is charged by an event. */
  function Charge(s: State, e: Event, l: Limits): nat
    requires ValidLimits(l)
  {
    match e
    case AskBatch(_, now, _) => if Script(s.hash, l.bucket, now, l.batch as real).1.allowed then l.batch else 0
    case AskSingle(_, now, _) => if Script(s.hash, l.bucket, now, 1.0).1.allowed then 1 else 0
    case _ => 0
  }

  /** Does the event let a Take return Allowed?  A Take counts at its local decrement or at its grant. */
  predicate Allows(s: State, e: Event, l: Limits)
    requires ValidLimits(l)
  {
    match e
    case TakeLocal(_) => true
    case AskBatch(_, _, answered) => answered && Charge(s, e, l) > 0
    case AskSingle(_, _, answered) => answered && Charge(s, e, l) > 0
    case _ => false
  }

  predicate IsRun(s: State, es: seq<Event>, l: Limits)
    requires ValidLimits(l)
    decreases |es|
  {
    es == [] || (Enabled(s, es[0]) && IsRun(Apply(s, es[0], l), es[1..], l))
  }

  function Final(s: State, es: seq<Event>, l: Limits): State
    requires ValidLimits(l) && IsRun(s, es, l)
    decreases |es|
  {
    if es == [] then s else Final(Apply(s, es[0], l), es[1..], l)
  }

  function Takes(s: State, es: seq<Event>, l: Limits): nat
    requires ValidLimits(l) && IsRun(s, es, l)
    decreases |es|
  {
    if es == [] then 0
    else (if Allows(s, es[0], l) then 1 else 0) + Takes(Apply(s, es[0], l), es[1..], l)
  }

  function Charged(s: State, es: seq<Event>, l: Limits): nat
    requires ValidLimits(l) && IsRun(s, es, l)
    decreases |es|
  {
    if es == [] then 0 else Charge(s, es[0], l) + Charged(Apply(s, es[0], l), es[1..], l)
  }

  // ---- local stock -------------------------------------------------------------------------

  /** Tokens a pool may hand out without asking the bucket again. */
  function Stock(p: Reservoir, l: Limits): int {
    p.tokens + (l.batch - 1) * p.crediting
  }

  function Total(ps: seq<Reservoir>, l: Limits): int {
    if ps == [] then 0 else Stock(ps[0], l) + Total(ps[1..], l)
  }

  function Allowance(ps: seq<Reservoir>, l: Limits): int {
    if ps == [] then 0 else ps[0].workers * (l.batch - 1) + Allowance(ps[1..], l)
  }

  lemma {:induction false} TotalPut(ps: seq<Reservoir>, i: nat, p: Reservoir, l: Limits)
    requires i < |ps|
    ensures Total(ps[i := p], l) - Stock(p, l) == Total(ps, l) - Stock(ps[i], l)
    ensures p.workers == ps[i].workers ==> Allowance(ps[i := p], l) == Allowance(ps, l)
  {
    if i > 0 {
      assert ps[i := p][1..] == ps[1..][i - 1 := p];
      TotalPut(ps[1..], i - 1, p, l);
    } else {
      assert ps[0 := p][1..] == ps[1..];
    }
  }

  /** The invariant of one reservoir: credit and refills under way together fit the workers. */
  predicate PoolFits(p: Reservoir, l: Limits) {
    && p.asking + p.crediting + p.single <= p.workers
    && p.tokens + (l.batch - 1) * (p.asking + p.crediting) <= p.workers * (l.batch - 1)
  }

  ghost predicate Fits(s: State, l: Limits) {
    && Stored(s.hash, l.bucket)
    && forall i :: 0 <= i < |s.pools| ==> PoolFits(s.pools[i], l)
  }

  lemma Scale(k: int, a: int, b: int)
    requires k >= 0 && a <= b
    ensures k * a <= k * b && k * (a + 1) == k * a + k && k * (a - 1) == k * a - k
  {
  }

  lemma RoomLeft(k: int, x: nat, w: nat)
    requires k >= 0
    ensures k * (x + 1) == k * x + k && k * (x - 1) == k * x - k && 0 <= w * k
    ensures x < w ==> k * (x + 1) <= w * k
  {
    if x < w {
      Scale(k, x + 1, w);
    }
  }

  lemma PoolFitsKept(s: State, e: Event, l: Limits)
    requires ValidLimits(l) && Enabled(s, e) && !e.KeyExpires? && PoolFits(s.pools[e.pool], l)
    ensures PoolFits(Apply(s, e, l).pools[e.pool], l)
    ensures Apply(s, e, l).pools == s.pools[e.pool := Apply(s, e, l).pools[e.pool]]
    ensures Apply(s, e, l).pools[e.pool].workers == s.pools[e.pool].workers
  {
    var p := s.pools[e.pool];
    RoomLeft(l.batch - 1, p.asking + p.crediting, p.workers);
  }

  lemma FitsStep(s: State, e: Event, l: Limits)
    requires ValidLimits(l) && Fits(s, l) && Enabled(s, e)
    ensures Fits(Apply(s, e, l), l)
    ensures Allowance(Apply(s, e, l).pools, l) == Allowance(s.pools, l)
  {
    if e.AskBatch? {
      ScriptStores(s.hash, l.bucket, e.now, l.batch as real);
    }
    if e.AskSingle? {
      ScriptStores(s.hash, l.bucket, e.now, 1.0);
    }
    if !e.KeyExpires? {
      PoolFitsKept(s, e, l);
      TotalPut(s.pools, e.pool, Apply(s, e, l).pools[e.pool], l);
    }
  }

  lemma {:induction false} FitsAlong(s: State, es: seq<Event>, l: Limits)
    requires ValidLimits(l) && Fits(s, l) && IsRun(s, es, l)
    ensures Fits(Final(s, es, l), l) && Allowance(Final(s, es, l).pools, l) == Allowance(s.pools, l)
    decreases |es|
  {
    if es != [] {
      FitsStep(s, es[0], l);
      FitsAlong(Apply(s, es[0], l), es[1..], l);
    }
  }

  lemma {:induction false} TotalFits(ps: seq<Reservoir>, l: Limits)
    requires ValidLimits(l) && forall i :: 0 <= i < |ps| ==> PoolFits(ps[i], l)
    ensures 0 <= Total(ps, l) <= Allowance(ps, l)
  {
    if ps != [] {
      TotalFits(ps[1..], l);
      assert PoolFits(ps[0], l);
      Scale(l.batch - 1, ps[0].crediting, ps[0].asking + ps[0].crediting);
      assert (l.batch - 1) * ps[0].crediting >= 0;
    }
  }

  // ---- conservation --------------------------------------------------------------------------

  lemma ConservedStep(s: State, e: Event, l: Limits)
    requires ValidLimits(l) && Enabled(s, e)
    ensures (if Allows(s, e, l) then 1 else 0) + Total(Apply(s, e, l).pools, l) <= Charge(s, e, l) + Total(s.pools, l)
  {
    if !e.KeyExpires? {
      var p, q := s.pools[e.pool], Apply(s, e, l).pools[e.pool];
      TotalPut(s.pools, e.pool, q, l);
      Scale(l.batch - 1, p.crediting, p.crediting);
      assert (l.batch - 1) * p.crediting >= 0;
    }
  }

  /**
   No Take is allowed that the bucket was not charged for, now or earlier: what is lost on the
   way is only ever lost.
   */
  lemma {:induction false} TakesAreCharged(s: State, es: seq<Event>, l: Limits)
    requires ValidLimits(l) && IsRun(s, es, l)
    ensures Takes(s, es, l) + Total(Final(s, es, l).pools, l) <= Charged(s, es, l) + Total(s.pools, l)
    decreases |es|
  {
    if es != [] {
      ConservedStep(s, es[0], l);
      TakesAreCharged(Apply(s, es[0], l), es[1..], l);
    }
  }

  // ---- what the bucket can be charged ----------------------------------------------------------

  /** The clock readings the bucket sees. */
  function Readings(es: seq<Event>): seq<int> {
    if es == [] then []
    else (if es[0].AskBatch? || es[0].AskSingle? || es[0].KeyExpires? then [es[0].now] else []) + Readings(es[1..])
  }

  function Climb(rs: seq<int>): int {
    if |rs| <= 1 then 0 else Up(rs[0], rs[1]) + Climb(rs[1..])
  }

  lemma {:induction false} ClimbNonNegative(rs: seq<int>)
    ensures Climb(rs) >= 0
  {
    if |rs| > 1 {
      ClimbNonNegative(rs[1..]);
    }
  }

  /** What a hash can still yield: its tokens and what accrues over the readings to come. */
  ghost predicate Yields(h: Option<Hash>, charged: real, rs: seq<int>, c: Config) {
    if rs == [] then charged == 0.0
    else
      && charged <= c.capacity + Accrued(c, Climb(rs))
      && (h.Some? ==> charged <= h.value.tokens + Accrued(c, Up(h.value.ts, rs[0]) + Climb(rs)))
  }

  lemma YieldsCall(h: Option<Hash>, c: Config, now: int, take: real, rest: real, rs: seq<int>)
    requires Valid(c) && Stored(h, c) && take > 0.0
    requires Yields(Some(Script(h, c, now, take).0), rest, rs, c)
    ensures Yields(h, (if Script(h, c, now, take).1.allowed then take else 0.0) + rest, [now] + rs, c)
  {
    ScriptStores(h, c, now, take);
    assert ([now] + rs)[1..] == rs;
    ClimbNonNegative(rs);
    if h.Some? {
      AccruedAdds(c, Up(h.value.ts, now), Climb([now] + rs));
    }
  }

  lemma YieldsExpiry(h: Hash, c: Config, now: int, rest: real, rs: seq<int>)
    requires Valid(c) && Stored(Some(h), c) && h.ts + KEY_TTL_MS <= now && c.capacity <= 60.0 * c.rate
    requires Yields(None, rest, rs, c)
    ensures Yields(Some(h), rest, [now] + rs, c)
  {
    assert ([now] + rs)[1..] == rs;
    ClimbNonNegative(rs);
    ClimbNonNegative([now] + rs);
    AccruedGrows(c, KEY_TTL_MS, Up(h.ts, now));
    AccruedGrows(c, 0, Climb([now] + rs));
    AccruedGrows(c, Climb(rs), Climb([now] + rs));
    AccruedAdds(c, Up(h.ts, now), Climb([now] + rs));
  }

  lemma {:induction false} ChargedYields(s: State, es: seq<Event>, l: Limits)
    requires ValidLimits(l) && Fits(s, l) && IsRun(s, es, l)
    ensures Yields(s.hash, Charged(s, es, l) as real, Readings(es), l.bucket)
    decreases |es|
  {
    if es != [] {
      var t := Apply(s, es[0], l);
      FitsStep(s, es[0], l);
      ChargedYields(t, es[1..], l);
      var rest := Charged(t, es[1..], l) as real;
      var rs := Readings(es[1..]);
      if es[0].AskBatch? {
        YieldsCall(s.hash, l.bucket, es[0].now, l.batch as real, rest, rs);
      } else if es[0].AskSingle? {
        YieldsCall(s.hash, l.bucket, es[0].now, 1.0, rest, rs);
      } else if es[0].KeyExpires? {
        YieldsExpiry(s.hash.value, l.bucket, es[0].now, rest, rs);
      } else {
        assert Readings(es) == rs && t.hash == s.hash;
      }
    }
  }

  // ---- the fleet-wide bound ---------------------------------------------------------------------

  /** Replicas as they start: no local credit, nobody in Take. */
  predicate Fresh(s: State) {
    s.hash.None? &&
    forall i :: 0 <= i < |s.pools| ==> s.pools[i] == Reservoir(s.pools[i].workers, 0, 0, 0, 0)
  }

  lemma FreshFits(s: State, l: Limits)
    requires ValidLimits(l) && Fresh(s)
    ensures Fits(s, l)
  {
    forall i | 0 <= i < |s.pools|
      ensures PoolFits(s.pools[i], l)
    {
      Scale(l.batch - 1, 0, s.pools[i].workers);
    }
  }

  /**
   Whatever happened before, in any stretch of the fleet's history the Takes allowed exceed the
   capacity and the climb of the clock readings by at most BatchSize-1 for every worker.
   */
  lemma TakesWithinClimb(s: State, past: seq<Event>, window: seq<Event>, l: Limits)
    requires ValidLimits(l) && Fresh(s) && IsRun(s, past, l) && IsRun(Final(s, past, l), window, l)
    ensures Takes(Final(s, past, l), window, l) as real
         <= l.bucket.capacity + Accrued(l.bucket, Climb(Readings(window))) + Allowance(s.pools, l) as real
  {
    FreshFits(s, l);
    FitsAlong(s, past, l);
    var m := Final(s, past, l);
    FitsAlong(m, window, l);
    TakesAreCharged(m, window, l);
    ChargedYields(m, window, l);
    TotalFits(m.pools, l);
    TotalFits(Final(m, window, l).pools, l);
    ClimbNonNegative(Readings(window));
    AccruedGrows(l.bucket, 0, Climb(Readings(window)));
  }

  predicate Ascending(rs: seq<int>) {
    forall i, j :: 0 <= i <= j < |rs| ==> rs[i] <= rs[j]
  }

  lemma {:induction false} ClimbOfAscending(rs: seq<int>)
    requires Ascending(rs) && rs != []
    ensures Climb(rs) == rs[|rs| - 1] - rs[0]
  {
    if |rs| > 1 {
      ClimbOfAscending(rs[1..]);
    }
  }

  /**
   The burst bound of ADR-0022, with its skew term replaced by a clock hypothesis: if the
   readings never go back, a window of ms milliseconds allows at most
   capacity + rate * ms / 1000 + the sum over replicas of workers * (BatchSize-1) Takes.
   */
  lemma FleetRateBound(s: State, past: seq<Event>, window: seq<Event>, ms: nat, l: Limits)
    requires ValidLimits(l) && Fresh(s) && IsRun(s, past, l) && IsRun(Final(s, past, l), window, l)
    requires Ascending(Readings(window))
    requires forall i, j :: 0 <= i < |Readings(window)| && 0 <= j < |Readings(window)| ==>
                              Readings(window)[j] - Readings(window)[i] <= ms
    ensures Takes(Final(s, past, l), window, l) as real
         <= l.bucket.capacity + Accrued(l.bucket, ms) + Allowance(s.pools, l) as real
  {
    TakesWithinClimb(s, past, window, l);
    var rs := Readings(window);
    if rs != [] {
      ClimbOfAscending(rs);
    }
    AccruedGrows(l.bucket, Climb(rs), ms);
  }

  lemma Unfold(s: State, e: Event, es: seq<Event>, l: Limits)
    requires ValidLimits(l) && Enabled(s, e) && IsRun(Apply(s, e, l), es, l)
    ensures IsRun(s, [e] + es, l)
    ensures Final(s, [e] + es, l) == Final(Apply(s, e, l), es, l)
    ensures Takes(s, [e] + es, l) == (if Allows(s, e, l) then 1 else 0) + Takes(Apply(s, e, l), es, l)
    ensures Charged(s, [e] + es, l) == Charge(s, e, l) + Charged(Apply(s, e, l), es, l)
  {
    assert ([e] + es)[1..] == es;
  }

  lemma ThreeEvents(s: State, a: Event, b: Event, c: Event, l: Limits)
    requires ValidLimits(l) && Enabled(s, a) && Enabled(Apply(s, a, l), b) && Enabled(Apply(Apply(s, a, l), b, l), c)
    ensures var t, u := Apply(s, a, l), Apply(Apply(s, a, l), b, l);
            && IsRun(s, [a, b, c], l) && Final(s, [a, b, c], l) == Apply(u, c, l)
            && Takes(s, [a, b, c], l) == (if Allows(s, a, l) then 1 else 0) + (if Allows(t, b, l) then 1 else 0)
                                         + (if Allows(u, c, l) then 1 else 0)
            && Charged(s, [a, b, c], l) == Charge(s, a, l) + Charge(t, b, l) + Charge(u, c, l)
  {
    var t, u := Apply(s, a, l), Apply(Apply(s, a, l), b, l);
    Unfold(u, c, [], l);
    Unfold(t, b, [c], l);
    Unfold(s, a, [b, c], l);
    assert [c] + [] == [c] && [b] + [c] == [b, c] && [a] + [b, c] == [a, b, c];
  }

  lemma ThreeReadings(a: Event, b: Event, c: Event)
    requires a.Miss? && b.AskBatch? && c.AskSingle?
    ensures Readings([a, b, c]) == [b.now, c.now]
  {
    assert [a, b, c][1..] == [b, c] && [b, c][1..] == [c] && [c][1..] == [];
    assert Readings([c]) == [c.now];
    assert Readings([b, c]) == [b.now, c.now];
  }

  /** The decision of the single-token call that follows a batch call. */
  function Fallback(h: Option<Hash>, first: int, second: int, l: Limits): Decision
    requires ValidLimits(l)
  {
    Script(Some(Script(h, l.bucket, first, l.batch as real).0), l.bucket, second, 1.0).1
  }

  // ---- Take in place -----------------------------------------------------------------------------

  class LocalReservoir {
    var tokens: nat
    const limits: Limits
    const workers: nat

    constructor (limits: Limits, workers: nat)
      requires workers >= 1
      ensures this.limits == limits && this.workers == workers && tokens == 0
    {
      this.limits, this.workers, tokens := limits, workers, 0;
    }

    ghost function View(bucket: RedisBucket): State
      reads this, bucket
    {
      State(bucket.Contents(), [Reservoir(workers, tokens, 0, 0, 0)])
    }

    /**
     Take by a worker that is alone with its reservoir; first and second are the clock readings
     of the refill and of the fallback.  It is one of the runs of the machine above, returns
     Allowed exactly when that run allows a Take, and neither makes nor loses tokens.
     */
    method Take(bucket: RedisBucket, first: int, second: int)
      returns (allowed: bool, retryAfterMs: int, ghost run: seq<Event>)
      requires ValidLimits(limits) && workers >= 1
      modifies this, bucket
      ensures IsRun(old(View(bucket)), run, limits) && Final(old(View(bucket)), run, limits) == View(bucket)
      ensures Takes(old(View(bucket)), run, limits) == if allowed then 1 else 0
      ensures (if allowed then 1 else 0) + tokens == old(tokens) + Charged(old(View(bucket)), run, limits)
      ensures !allowed ==>
                var fallback := Fallback(old(bucket.Contents()), first, second, limits);
                Readings(run) == [first, second] && !fallback.allowed && retryAfterMs == fallback.retryAfterMs
    {
      if tokens >= 1 {
        tokens := tokens - 1;
        return true, 0, [TakeLocal(0)];
      }
      var c := limits.bucket;
      var d := bucket.AllowN(first, c.rate, c.capacity, limits.batch as real);
      if d.decision.allowed {
        tokens := tokens + (limits.batch - 1);
        ThreeEvents(old(View(bucket)), Miss(0), AskBatch(0, first, true), Credit(0), limits);
        return true, 0, [Miss(0), AskBatch(0, first, true), Credit(0)];
      }
      d := bucket.AllowN(second, c.rate, c.capacity, 1.0);
      ThreeEvents(old(View(bucket)), Miss(0), AskBatch(0, first, true), AskSingle(0, second, true), limits);
      ThreeReadings(Miss(0), AskBatch(0, first, true), AskSingle(0, second, true));
      run := [Miss(0), AskBatch(0, first, true), AskSingle(0, second, true)];
      return d.decision.allowed, d.decision.retryAfterMs, run;
    }
  }
}
