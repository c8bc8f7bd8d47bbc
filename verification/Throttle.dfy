/** The rate-limit gate of Pipeline.handle: one Take, then the bounded inline retry loop. */
module Throttle {
  import opened Wrappers
  import opened TokenBucket
  import opened Fleet
  import opened SharedTake

  const REFILL_CEILING_MS := 1_000
  const INLINE_BUDGET_MS := 5_000
  const MIN_WAIT_MS := 5

  /** worker.New: 100 tokens a second, capacity 100, batches of 20. */
  const CHANNEL := Limits(Config(100.0, 100.0), 20)

  function Nap(wait: int): int {
    if wait < MIN_WAIT_MS then MIN_WAIT_MS else wait
  }

  function Slept(waits: seq<int>): int {
    if waits == [] then 0 else Slept(waits[..|waits| - 1]) + Nap(waits[|waits| - 1])
  }

  predicate Short(waits: seq<int>) {
    forall i :: 0 <= i < |waits| ==> 1 <= waits[i] <= 10
  }

  /**
   A refused Take names a wait of 1 to 10 milliseconds, whatever the others did before, during
   and between its calls.
   */
  lemma RefusedTakeIsShort(others: Crowd, n: nat, t: State, own: seq<Own>, run: seq<Event>, u: State, ms: int)
    requires Fits(t, CHANNEL) && Went(others, n, t, own, run, u, CHANNEL) && Took(own, Denied(ms), CHANNEL)
    ensures 1 <= ms <= 10
  {
    WentFits(others, n, t, own, run, u, CHANNEL);
    var last := own[|own| - 1];
    assert last == own[1..][1];
    SingleRetryShort(last.at.hash, last.event.now);
  }

  /** One Take of the gate: from state t, in round n, by its own events and the others', to state u. */
  datatype Try = Try(n: nat, t: State, own: seq<Own>, run: seq<Event>, u: State, result: Taken)

  ghost predicate IsTry(others: Crowd, x: Try, i: nat) {
    Went(others, x.n, x.t, x.own, x.run, x.u, CHANNEL) && Took(x.own, x.result, CHANNEL) && OfPool(x.own, i)
  }

  /** From u to t the others took a turn while this worker slept. */
  ghost predicate SleptThrough(others: Crowd, u: State, t: State) {
    exists n :: IsRun(u, others(n, Outside, u), CHANNEL) && t == Final(u, others(n, Outside, u), CHANNEL)
  }

  /**
   What a gate of pool i has done so far: its Takes, and the waits it slept between them, from
   state from to state to, the last Take with this result.
   */
  datatype Log = Log(others: Crowd, i: nat, tries: seq<Try>, waits: seq<int>, from: State, to: State, last: Taken)

  /** Takes with a sleep between any two of them, as long as the wait the first of the two was told. */
  ghost predicate IsStory(x: Log) {
    x.tries != [] ==>
      && |x.tries| == |x.waits| + 1
      && (forall k :: 0 <= k < |x.tries| ==> IsTry(x.others, x.tries[k], x.i))
      && (forall k :: 0 <= k < |x.waits| ==>
            x.tries[k].result == Denied(x.waits[k]) && SleptThrough(x.others, x.tries[k].u, x.tries[k + 1].t))
      && x.tries[0].t == x.from && x.tries[|x.waits|].u == x.to && x.tries[|x.waits|].result == x.last
  }

  const IDLE := State(None, [])

  type Story = x: Log | IsStory(x) ghost witness Log((_, _, _) => [], 0, [], [], IDLE, IDLE, Failed)

  ghost function Begun(others: Crowd, i: nat, x: Try): (y: Story)
    requires IsTry(others, x, i)
  {
    Log(others, i, [x], [], x.t, x.u, x.result)
  }

  lemma StoryContinues(y: Log, wait: int, x: Try)
    requires IsStory(y) && y.tries != [] && y.last == Denied(wait)
    requires IsTry(y.others, x, y.i) && SleptThrough(y.others, y.to, x.t)
    ensures IsStory(y.(tries := y.tries + [x], waits := y.waits + [wait], to := x.u, last := x.result))
  {
    var n := |y.waits|;
    var tries, waits := y.tries + [x], y.waits + [wait];
    assert tries[n + 1] == x && tries[n] == y.tries[n] && waits[n] == wait;
    forall k | 0 <= k < |tries|
      ensures IsTry(y.others, tries[k], y.i)
    {
      assert k <= n ==> tries[k] == y.tries[k];
    }
    forall k | 0 <= k < |waits|
      ensures tries[k].result == Denied(waits[k]) && SleptThrough(y.others, tries[k].u, tries[k + 1].t)
    {
      if k < n {
        assert tries[k] == y.tries[k] && tries[k + 1] == y.tries[k + 1] && waits[k] == y.waits[k];
      }
    }
  }

  ghost function Continued(y: Story, wait: int, x: Try): (z: Story)
    requires y.tries != [] && y.last == Denied(wait) && IsTry(y.others, x, y.i) && SleptThrough(y.others, y.to, x.t)
  {
    StoryContinues(y, wait, x);
    y.(tries := y.tries + [x], waits := y.waits + [wait], to := x.u, last := x.result)
  }

  /** The story of this worker's gate up to now. */
  ghost predicate Tells(x: Story, me: Worker)
    reads me
  {
    x.tries != [] && x.others == me.others && x.i == me.pool && x.to == me.s
  }

  lemma SleptMore(waits: seq<int>, wait: int)
    ensures Slept(waits + [wait]) == Slept(waits) + Nap(wait)
    ensures Short(waits) && 1 <= wait <= 10 ==> Short(waits + [wait])
  {
    assert (waits + [wait])[..|waits|] == waits;
  }

  /** The worker is outside Take, among a fleet in a state the invariant holds in. */
  ghost predicate Ready(me: Worker)
    reads me
  {
    me.limits == CHANNEL && me.Valid() && me.Environment() && Free(me.s, me.pool) && Fits(me.s, CHANNEL)
  }

  datatype Outcome = Passed | Routed | Cancelled | Errored

  /** While this worker sleeps the others are at work. */
  method Sleep(me: Worker)
    requires Ready(me)
    modifies me
    ensures Ready(me) && old(me.trace) <= me.trace
    ensures SleptThrough(me.others, old(me.s), me.s)
  {
    FitsAlong(me.s, me.others(me.round, Outside, me.s), CHANNEL);
    me.Yield(Outside);
  }

  method TakeOnce(me: Worker) returns (r: Taken, ghost x: Try)
    requires Ready(me)
    modifies me
    ensures Ready(me) && old(me.trace) <= me.trace
    ensures r.Denied? ==> 1 <= r.retryAfterMs <= 10
    ensures x.t == old(me.s) && x.u == me.s && x.result == r && IsTry(me.others, x, me.pool)
  {
    ghost var n, t := me.round, me.s;
    ghost var own, run;
    r, own, run := me.Take();
    x := Try(n, t, own, run, me.s, r);
    TakeFreesPlace(me.others, n, t, own, run, me.s, r, me.pool, CHANNEL);
    if r.Denied? {
      RefusedTakeIsShort(me.others, n, t, own, run, me.s, r.retryAfterMs);
    }
  }

  method TryFirst(me: Worker) returns (r: Taken, ghost story: Story)
    requires Ready(me)
    modifies me
    ensures Ready(me) && old(me.trace) <= me.trace
    ensures Tells(story, me) && story.from == old(me.s) && story.last == r && story.waits == []
    ensures r.Denied? ==> 1 <= r.retryAfterMs <= 10
  {
    ghost var x;
    r, x := TakeOnce(me);
    story := Begun(me.others, me.pool, x);
  }

  /** The next Take after a sleep. */
  method TryAgain(me: Worker, ghost story: Story, ghost wait: int)
    returns (r: Taken, ghost story': Story)
    requires Ready(me) && Tells(story, me) && story.last == Denied(wait)
    modifies me
    ensures Ready(me) && old(me.trace) <= me.trace
    ensures Tells(story', me) && story'.from == story.from && story'.last == r && story'.waits == story.waits + [wait]
    ensures r.Denied? ==> 1 <= r.retryAfterMs <= 10
  {
    Sleep(me);
    ghost var x;
    r, x := TakeOnce(me);
    story' := Continued(story, wait, x);
  }

  /**
   The gate in ideal time (only sleeping takes time), among a fleet that acts as it likes before,
   during and after every Take, and with a context that may be cancelled in any wait.  It sleeps
   less than 5005 ms in all, exactly the suggested waits with a 5 ms floor; it never takes the
   branch for waits over a second; it routes to the retry tier exactly when the next wait would
   exceed the budget; and it passes or fails exactly when its last Take does.  story are its
   Takes and sleeps, from the state it found to the one it leaves.
   */
  method PassGate(me: Worker, cancelled: nat -> bool)
    returns (outcome: Outcome, slept: int, sustained: bool, last: Taken, ghost story: Story)
    requires Ready(me)
    modifies me
    ensures Ready(me) && old(me.trace) <= me.trace
    ensures 0 <= slept < 5_005 && slept == Slept(story.waits) && Short(story.waits)
    ensures Tells(story, me) && story.from == old(me.s) && story.last == last
    ensures !sustained
    ensures outcome.Passed? <==> last.Allowed?
    ensures outcome.Errored? <==> last.Failed?
    ensures outcome.Routed? ==> last.Denied? && slept + last.retryAfterMs > INLINE_BUDGET_MS && last.retryAfterMs <= 10
    ensures outcome.Cancelled? ==> last.Denied? && slept + last.retryAfterMs <= INLINE_BUDGET_MS
    ensures outcome.Cancelled? ==> exists i :: cancelled(i)
  {
    outcome, slept, sustained := Errored, 0, false;
    var round := 0;
    last, story := TryFirst(me);
    while last.Denied?
      invariant Ready(me) && old(me.trace) <= me.trace
      invariant 0 <= slept < INLINE_BUDGET_MS + MIN_WAIT_MS
      invariant slept == Slept(story.waits) && Short(story.waits) && (last.Denied? ==> 1 <= last.retryAfterMs <= 10)
      invariant Tells(story, me) && story.from == old(me.s) && story.last == last
      decreases INLINE_BUDGET_MS + MIN_WAIT_MS - slept
    {
      var wait := last.retryAfterMs;
      if wait > REFILL_CEILING_MS || slept + wait > INLINE_BUDGET_MS {
        sustained := wait > REFILL_CEILING_MS;
        outcome := Routed;
        break;
      }
      if cancelled(round) {
        outcome := Cancelled;
        break;
      }
      SleptMore(story.waits, wait);
      last, story := TryAgain(me, story, wait);
      slept := slept + Nap(wait);
      round := round + 1;
    }
    if !last.Denied? {
      outcome := if last.Allowed? then Passed else Errored;
    }
  }
}
