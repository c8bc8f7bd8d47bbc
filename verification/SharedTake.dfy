/**
 Reservoir.Take by one worker among many.  The mutex is released across the network calls, so
 between any two of its critical sections and script calls the rest of the fleet, the other workers
 of the same replica included, takes any events it likes.
 */
module SharedTake {
  import opened TokenBucket
  import opened Fleet

  /** How one call to Redis goes: it may not be sent, or run and its answer be lost. */
  datatype Wire = Wire(now: int, sent: bool, answered: bool)

  datatype Taken = Allowed | Denied(retryAfterMs: int) | Failed

  /** An event of this worker and the state it found. */
  datatype Own = Own(at: State, event: Event)

  /** Where in Take this worker stands while the others are at work. */
  datatype Place = Outside | Asking | Crediting | Falling

  predicate Free(s: State, i: nat) {
    i < |s.pools| && s.pools[i].asking + s.pools[i].crediting + s.pools[i].single < s.pools[i].workers
  }

  /** The others never act for this worker: they leave its own place in the counts to it, and no more. */
  predicate Spares(t: State, u: State, i: nat, p: Place) {
    && |u.pools| == |t.pools|
    && (i < |t.pools| ==>
          match p
          case Outside => Free(t, i) ==> Free(u, i)
          case Asking => t.pools[i].asking >= 1 ==> u.pools[i].asking >= 1
          case Crediting => t.pools[i].crediting >= 1 ==> u.pools[i].crediting >= 1
          case Falling => t.pools[i].single >= 1 ==> u.pools[i].single >= 1)
  }

  predicate Asked(o: Own, l: Limits, granted: bool)
    requires ValidLimits(l)
  {
    o.event.AskBatch? && o.event.answered && (Charge(o.at, o.event, l) > 0 <==> granted)
  }

  predicate Single(o: Own, l: Limits, granted: bool)
    requires ValidLimits(l)
  {
    o.event.AskSingle? && o.event.answered && (Charge(o.at, o.event, l) > 0 <==> granted)
  }

  /** A call that was not sent or not answered. */
  predicate Breaks(e: Event) {
    e.Fail? || (e.AskBatch? && !e.answered) || (e.AskSingle? && !e.answered)
  }

  /** What follows once the local pool was found empty. */
  predicate AfterMiss(rest: seq<Own>, r: Taken, l: Limits)
    requires ValidLimits(l)
  {
    match r
    case Allowed =>
      && |rest| == 2
      && ((Asked(rest[0], l, true) && rest[1].event.Credit?)
          || (Asked(rest[0], l, false) && Single(rest[1], l, true)))
    case Denied(ms) =>
      && |rest| == 2 && Asked(rest[0], l, false) && Single(rest[1], l, false)
      && ms == Script(rest[1].at.hash, l.bucket, rest[1].event.now, 1.0).1.retryAfterMs
    case Failed =>
      && 1 <= |rest| <= 2 && (|rest| == 2 ==> Asked(rest[0], l, false))
      && Breaks(rest[|rest| - 1].event)
  }

  /** The ways through Take. */
  predicate Took(own: seq<Own>, r: Taken, l: Limits)
    requires ValidLimits(l)
  {
    || (|own| == 1 && own[0].event.TakeLocal? && r.Allowed?)
    || (|own| >= 2 && own[0].event.Miss? && AfterMiss(own[1..], r, l))
  }

  predicate OfPool(own: seq<Own>, i: nat) {
    forall k :: 0 <= k < |own| ==> !own[k].event.KeyExpires? && own[k].event.pool == i
  }

  /** Where an event leaves the worker that took it. */
  function PlaceAfter(o: Own, l: Limits): Place
    requires ValidLimits(l)
  {
    match o.event
    case Miss(_) => Asking
    case AskBatch(_, _, answered) =>
      if !answered then Outside else if Charge(o.at, o.event, l) > 0 then Crediting else Falling
    case _ => Outside
  }

  type Crowd = (nat, Place, State) -> seq<Event>

  /**
   From state t, in round n, this worker's events own and what the others do between them, and
   nothing else, make up run and end in u: each of its events happens in the state it found, and
   between two of them the others take their turn.
   */
  ghost predicate Went(others: Crowd, n: nat, t: State, own: seq<Own>, run: seq<Event>, u: State, l: Limits)
    requires ValidLimits(l)
    decreases |own|
  {
    && own != [] && own[0].at == t && Enabled(t, own[0].event)
    && var t1 := Apply(t, own[0].event, l);
       if |own| == 1 then run == [own[0].event] && u == t1
       else
         var turn := others(n, PlaceAfter(own[0], l), t1);
         && IsRun(t1, turn, l) && |run| >= 1 + |turn| && run[..1 + |turn|] == [own[0].event] + turn
         && Went(others, n + 1, Final(t1, turn, l), own[1..], run[1 + |turn|..], u, l)
  }

  lemma WentFirst(others: Crowd, n: nat, o: Own, rest: seq<Own>, run: seq<Event>, u: State, l: Limits)
    requires ValidLimits(l) && Enabled(o.at, o.event)
    requires var t1 := Apply(o.at, o.event, l);
             var turn := others(n, PlaceAfter(o, l), t1);
             IsRun(t1, turn, l) && Went(others, n + 1, Final(t1, turn, l), rest, run, u, l)
    ensures var turn := others(n, PlaceAfter(o, l), Apply(o.at, o.event, l));
            Went(others, n, o.at, [o] + rest, [o.event] + turn + run, u, l)
  {
    var turn := others(n, PlaceAfter(o, l), Apply(o.at, o.event, l));
    var own, all := [o] + rest, [o.event] + turn + run;
    assert own[1..] == rest;
    assert all[..1 + |turn|] == [o.event] + turn && all[1 + |turn|..] == run;
  }

  function Grants(own: seq<Own>, l: Limits): nat
    requires ValidLimits(l)
  {
    if own == [] then 0
    else Grants(own[..|own| - 1], l) + if Allows(own[|own| - 1].at, own[|own| - 1].event, l) then 1 else 0
  }

  function Charges(own: seq<Own>, l: Limits): nat
    requires ValidLimits(l)
  {
    if own == [] then 0
    else Charges(own[..|own| - 1], l) + Charge(own[|own| - 1].at, own[|own| - 1].event, l)
  }

  lemma SumsOfOne(own: seq<Own>, l: Limits)
    requires ValidLimits(l) && |own| == 1
    ensures Grants(own, l) == if Allows(own[0].at, own[0].event, l) then 1 else 0
    ensures Charges(own, l) == Charge(own[0].at, own[0].event, l)
  {
    assert own[..0] == [];
  }

  lemma SumsOfTwo(own: seq<Own>, l: Limits)
    requires ValidLimits(l) && |own| == 2
    ensures Grants(own, l) == Grants([own[0]], l) + if Allows(own[1].at, own[1].event, l) then 1 else 0
    ensures Charges(own, l) == Charges([own[0]], l) + Charge(own[1].at, own[1].event, l)
  {
    assert own[..1] == [own[0]];
  }

  lemma SumsOfThree(own: seq<Own>, l: Limits)
    requires ValidLimits(l) && |own| == 3
    ensures Grants(own, l) == Grants([own[0], own[1]], l) + if Allows(own[2].at, own[2].event, l) then 1 else 0
    ensures Charges(own, l) == Charges([own[0], own[1]], l) + Charge(own[2].at, own[2].event, l)
  {
    assert own[..2] == [own[0], own[1]];
  }

  /**
   A Take returns Allowed exactly when one of its events lets a Take through, and never two; the
   bucket is charged for nothing on a refusal, for one token on a fallback, and for a batch, of which
   all but one are credited, on a refill.  Only a failed Take can lose what it was charged.
   */
  lemma TakeBalances(own: seq<Own>, r: Taken, l: Limits)
    requires ValidLimits(l) && Took(own, r, l)
    ensures Grants(own, l) == if r.Allowed? then 1 else 0
    ensures r.Denied? ==> Charges(own, l) == 0
    ensures r.Allowed? ==>
              Charges(own, l) == (if own[0].event.TakeLocal? then 0 else if own[2].event.Credit? then l.batch else 1)
  {
    SumsOfOne([own[0]], l);
    if |own| == 1 {
      assert own == [own[0]];
    } else if |own| == 2 {
      SumsOfTwo(own, l);
    } else {
      SumsOfTwo([own[0], own[1]], l);
      SumsOfThree(own, l);
    }
  }

  /** A miss and what follows it are a Take. */
  lemma MissFirst(others: Crowd, n: nat, miss: Own, rest: seq<Own>, run: seq<Event>, u: State,
                  r: Taken, i: nat, l: Limits)
    requires ValidLimits(l) && miss.event == Miss(i) && Enabled(miss.at, miss.event)
    requires AfterMiss(rest, r, l) && OfPool(rest, i)
    requires var t1 := Apply(miss.at, Miss(i), l);
             var turn := others(n, Asking, t1);
             IsRun(t1, turn, l) && Went(others, n + 1, Final(t1, turn, l), rest, run, u, l)
    ensures var own, turn := [miss] + rest, others(n, Asking, Apply(miss.at, Miss(i), l));
            && Took(own, r, l) && OfPool(own, i)
            && Went(others, n, miss.at, own, [Miss(i)] + turn + run, u, l)
  {
    WentFirst(others, n, miss, rest, run, u, l);
    assert ([miss] + rest)[1..] == rest;
  }

  /** Two events with the others' turn between them. */
  lemma WentTwo(others: Crowd, n: nat, first: Own, last: Own, u: State, l: Limits)
    requires ValidLimits(l) && Enabled(first.at, first.event)
    requires var t1 := Apply(first.at, first.event, l);
             var turn := others(n, PlaceAfter(first, l), t1);
             IsRun(t1, turn, l) && last.at == Final(t1, turn, l)
    requires Enabled(last.at, last.event) && u == Apply(last.at, last.event, l)
    ensures var turn := others(n, PlaceAfter(first, l), Apply(first.at, first.event, l));
            Went(others, n, first.at, [first, last], [first.event] + turn + [last.event], u, l)
  {
    assert Went(others, n + 1, last.at, [last], [last.event], u, l);
    WentFirst(others, n, first, [last], [last.event], u, l);
    assert [first] + [last] == [first, last];
  }

  lemma Regroup(a: seq<Event>, b: seq<Event>, c: seq<Event>)
    ensures a + b + c == a + (b + c)
  {
  }

  // ---- the worker among others ------------------------------------------------------------------

  lemma {:induction false} RunExtends(s: State, first: seq<Event>, rest: seq<Event>, l: Limits)
    requires ValidLimits(l) && IsRun(s, first, l)
    ensures IsRun(Final(s, first, l), rest, l) ==>
              IsRun(s, first + rest, l) && Final(s, first + rest, l) == Final(Final(s, first, l), rest, l)
    ensures |rest| == 1 && Enabled(Final(s, first, l), rest[0]) ==> IsRun(Final(s, first, l), rest, l)
    decreases |first|
  {
    if first == [] {
      assert first + rest == rest;
      if |rest| == 1 && Enabled(s, rest[0]) {
        assert rest[1..] == [];
      }
    } else {
      assert (first + rest)[1..] == first[1..] + rest;
      RunExtends(Apply(s, first[0], l), first[1..], rest, l);
    }
  }

  predicate HappenedAt(origin: State, trace: seq<Event>, o: Own, l: Limits, p: nat)
    requires ValidLimits(l) && p < |trace|
  {
    trace[p] == o.event && IsRun(origin, trace[..p], l) && Final(origin, trace[..p], l) == o.at
  }

  class Worker {
    var s: State
    var round: nat
    const pool: nat
    const limits: Limits
    const wire: nat -> Wire
    const others: Crowd
    ghost const origin: State
    ghost var trace: seq<Event>

    constructor (start: State, pool: nat, limits: Limits, wire: nat -> Wire, others: Crowd)
      requires ValidLimits(limits)
      ensures s == start && origin == start && trace == [] && this.pool == pool && this.limits == limits
      ensures this.wire == wire && this.others == others && Valid()
    {
      s, origin, trace, round := start, start, [], 0;
      this.pool, this.limits, this.wire, this.others := pool, limits, wire, others;
    }

    /** Everything that has happened so far is a run of the fleet. */
    ghost predicate Valid()
      reads this
    {
      ValidLimits(limits) && IsRun(origin, trace, limits) && Final(origin, trace, limits) == s
    }

    ghost predicate Environment()
      requires ValidLimits(limits)
    {
      forall n, p, t :: IsRun(t, others(n, p, t), limits) && Spares(t, Final(t, others(n, p, t), limits), pool, p)
    }

    method Do(e: Event)
      requires Valid() && Enabled(s, e)
      modifies this`s, this`trace
      ensures Valid() && s == Apply(old(s), e, limits) && trace == old(trace) + [e]
    {
      RunExtends(origin, trace, [e], limits);
      s, trace := Apply(s, e, limits), trace + [e];
    }

    /** The rest of the fleet takes a turn while this worker stands at p. */
    method Yield(p: Place)
      requires Valid() && Environment()
      modifies this`s, this`trace, this`round
      ensures Valid() && Spares(old(s), s, pool, p) && round == old(round) + 1
      ensures var turn := others(old(round), p, old(s));
              s == Final(old(s), turn, limits) && trace == old(trace) + turn
    {
      var turn := others(round, p, s);
      RunExtends(origin, trace, turn, limits);
      s, trace := Final(s, turn, limits), trace + turn;
      round := round + 1;
    }

    /** One event of this worker that leaves it at p, then everybody else. */
    method Turn(e: Event, p: Place)
      requires Valid() && Environment() && Enabled(s, e)
      modifies this`s, this`trace, this`round
      ensures Valid() && Spares(Apply(old(s), e, limits), s, pool, p) && round == old(round) + 1
      ensures var turn := others(old(round), p, Apply(old(s), e, limits));
              s == Final(Apply(old(s), e, limits), turn, limits) && trace == old(trace) + ([e] + turn)
    {
      ghost var before := trace;
      Do(e);
      ghost var turn := others(round, p, s);
      Yield(p);
      Regroup(before, [e], turn);
    }

    /**
     Take, with everybody else at work in between.  What it adds to the run are its own events of
     this pool, one of the ways through the code, and the others' turns between them, nothing else.
     */
    method Take() returns (r: Taken, ghost own: seq<Own>, ghost run: seq<Event>)
      requires Valid() && Environment() && Free(s, pool)
      modifies this
      ensures Valid() && trace == old(trace) + run && Went(others, old(round), old(s), own, run, s, limits)
      ensures Took(own, r, limits) && OfPool(own, pool)
    {
      if s.pools[pool].tokens >= 1 {
        own, run := [Own(s, TakeLocal(pool))], [TakeLocal(pool)];
        Do(TakeLocal(pool));
        return Allowed, own, run;
      }
      ghost var miss, n, before := Own(s, Miss(pool)), round, trace;
      ghost var turn := others(round, Asking, Apply(s, Miss(pool), limits));
      Turn(Miss(pool), Asking);
      ghost var rest, more;
      r, rest, more := Refill();
      MissFirst(others, n, miss, rest, more, s, r, pool, limits);
      Regroup(before, [Miss(pool)] + turn, more);
      own, run := [miss] + rest, [Miss(pool)] + turn + more;
    }

    /** The batch call, and the credit or the fallback after it. */
    method Refill() returns (r: Taken, ghost rest: seq<Own>, ghost run: seq<Event>)
      requires Valid() && Environment() && pool < |s.pools| && s.pools[pool].asking >= 1
      modifies this
      ensures Valid() && trace == old(trace) + run && Went(others, old(round), old(s), rest, run, s, limits)
      ensures AfterMiss(rest, r, limits) && OfPool(rest, pool)
    {
      var call := wire(round);
      if !call.sent {
        rest, run := [Own(s, Fail(pool, true))], [Fail(pool, true)];
        Do(Fail(pool, true));
        return Failed, rest, run;
      }
      var ask := AskBatch(pool, call.now, call.answered);
      var granted := Script(s.hash, limits.bucket, call.now, limits.batch as real).1.allowed;
      ghost var first, n, before := Own(s, ask), round, trace;
      if !call.answered {
        Do(ask);
        return Failed, [first], [ask];
      }
      var place := if granted then Crediting else Falling;
      ghost var turn := others(round, place, Apply(s, ask, limits));
      Turn(ask, place);
      ghost var last;
      r, last := Finish(granted);
      WentTwo(others, n, first, last, s, limits);
      Regroup(before, [ask] + turn, [last.event]);
      rest, run := [first, last], [ask] + turn + [last.event];
    }

    /** The credit of a granted refill, or the single-token call after a refused one. */
    method Finish(granted: bool) returns (r: Taken, ghost last: Own)
      requires Valid() && pool < |s.pools| && (if granted then s.pools[pool].crediting else s.pools[pool].single) >= 1
      modifies this`s, this`trace
      ensures Valid() && trace == old(trace) + [last.event]
      ensures last.at == old(s) && Enabled(old(s), last.event) && s == Apply(old(s), last.event, limits)
      ensures OfPool([last], pool)
      ensures granted ==> r.Allowed? && last.event.Credit?
      ensures !granted ==>
                match r
                case Allowed => Single(last, limits, true)
                case Denied(ms) =>
                  Single(last, limits, false)
                  && ms == Script(last.at.hash, limits.bucket, last.event.now, 1.0).1.retryAfterMs
                case Failed => Breaks(last.event)
    {
      if granted {
        last := Own(s, Credit(pool));
        Do(Credit(pool));
        return Allowed, last;
      }
      var call := wire(round);
      if !call.sent {
        last := Own(s, Fail(pool, false));
        Do(Fail(pool, false));
        return Failed, last;
      }
      var d := Script(s.hash, limits.bucket, call.now, 1.0).1;
      last := Own(s, AskSingle(pool, call.now, call.answered));
      Do(AskSingle(pool, call.now, call.answered));
      r := if !call.answered then Failed else if d.allowed then Allowed else Denied(d.retryAfterMs);
    }
  }

  // ---- what a Take leaves behind ------------------------------------------------------------------

  /** Every state a Take sees is one the fleet's invariant holds in, and so is the one it leaves. */
  lemma {:induction false} WentFits(
    others: Crowd, n: nat, t: State, own: seq<Own>, run: seq<Event>, u: State, l: Limits)
    requires ValidLimits(l) && Fits(t, l) && Went(others, n, t, own, run, u, l)
    ensures Fits(own[|own| - 1].at, l) && Enabled(own[|own| - 1].at, own[|own| - 1].event)
    ensures u == Apply(own[|own| - 1].at, own[|own| - 1].event, l) && Fits(u, l)
    decreases |own|
  {
    var t1 := Apply(t, own[0].event, l);
    FitsStep(t, own[0].event, l);
    if |own| > 1 {
      var turn := others(n, PlaceAfter(own[0], l), t1);
      FitsAlong(t1, turn, l);
      WentFits(others, n + 1, Final(t1, turn, l), own[1..], run[1 + |turn|..], u, l);
    }
  }

  /** A Take that is over has given its place back. */
  lemma TakeFreesPlace(others: Crowd, n: nat, t: State, own: seq<Own>, run: seq<Event>, u: State,
                       r: Taken, i: nat, l: Limits)
    requires ValidLimits(l) && Fits(t, l) && Went(others, n, t, own, run, u, l)
    requires Took(own, r, l) && OfPool(own, i)
    ensures Fits(u, l) && Free(u, i)
  {
    WentFits(others, n, t, own, run, u, l);
    var last := own[|own| - 1];
    assert |own| > 1 ==> last == own[1..][|own| - 2];
    assert PoolFits(last.at.pools[i], l);
  }
}
