/**
 The verified-key cache and the revocation marker.  One bearer, its api key row, its cache entry
 and marker in Redis, and any number of requests and revocations in progress.
 */
module AuthCache {
  import opened Wrappers

  /** authCacheTTL and authRevokedTTL. */
  const ENTRY_TTL_MS := 60_000
  const MARKER_TTL_MS := 300_000

  type RequestId = nat

  /** A cache entry lives until until; readAt is history: when the slow path that stored it read Postgres. */
  datatype Entry = Entry(until: int, readAt: int)

  datatype Phase =
    | Hit(hitAt: int, readAt: int)   // found an entry, marker not checked yet
    | Slow                           // candidate lookup ahead
    | Verified(readAt: int)          // active row read and verified, entry not stored yet

  /** late: the request started after the marker was first set. */
  datatype Request = Request(phase: Phase, late: bool)

  datatype Accept = Accept(late: bool, cached: bool)

  datatype State = State(
    now: int, revokedAt: Option<int>, markedAt: Option<int>, markerUntil: Option<int>,
    entry: Option<Entry>, requests: map<RequestId, Request>, accepts: seq<Accept>)

  function Init(now: int): State {
    State(now, None, None, None, None, map[], [])
  }

  datatype Step =
    | Tick(ms: int)
    | Begin(id: RequestId)               // GET auth:v1:...
    | Check(id: RequestId)               // EXISTS auth:revoked:..., then serve or DEL the entry
    | Read(id: RequestId)                // SELECT active keys, argon2
    | Save(id: RequestId, landed: bool)  // SET auth:v1:..., then serve
    | Die(id: RequestId)
    | Revoke                             // UPDATE api_keys SET revoked_at
    | Mark                               // SET auth:revoked:...

  predicate EntryLive(s: State) {
    s.entry.Some? && s.now < s.entry.value.until
  }

  predicate MarkerLive(s: State) {
    s.markerUntil.Some? && s.now < s.markerUntil.value
  }

  predicate Enabled(s: State, step: Step) {
    match step
    case Tick(ms) => ms > 0
    case Begin(id) => id !in s.requests
    case Check(id) => id in s.requests && s.requests[id].phase.Hit?
    case Read(id) => id in s.requests && s.requests[id].phase.Slow?
    case Save(id, _) => id in s.requests && s.requests[id].phase.Verified?
    case Die(id) => id in s.requests
    case Revoke => true
    case Mark => s.revokedAt.Some?
  }

  function Move(s: State, id: RequestId, p: Phase): State
    requires id in s.requests
  {
    s.(requests := s.requests[id := s.requests[id].(phase := p)])
  }

  function Serve(s: State, id: RequestId, cached: bool): State
    requires id in s.requests
  {
    s.(requests := s.requests - {id}, accepts := s.accepts + [Accept(s.requests[id].late, cached)])
  }

  function Apply(s: State, step: Step): State
    requires Enabled(s, step)
  {
    match step
    case Tick(ms) => s.(now := s.now + ms)
    case Begin(id) =>
      var p := if EntryLive(s) then Hit(s.now, s.entry.value.readAt) else Slow;
      s.(requests := s.requests[id := Request(p, s.markedAt.Some?)])
    case Check(id) =>
      if MarkerLive(s) then Move(s.(entry := None), id, Slow) else Serve(s, id, true)
    case Read(id) =>
      if s.revokedAt.Some? then s.(requests := s.requests - {id}) else Move(s, id, Verified(s.now))
    case Save(id, landed) =>
      var stored := Entry(s.now + ENTRY_TTL_MS, s.requests[id].phase.readAt);
      Serve(if landed then s.(entry := Some(stored)) else s, id, false)
    case Die(id) => s.(requests := s.requests - {id})
    case Revoke => s.(revokedAt := if s.revokedAt.Some? then s.revokedAt else Some(s.now))
    case Mark =>
      s.(markedAt := if s.markedAt.Some? then s.markedAt else Some(s.now), markerUntil := Some(s.now + MARKER_TTL_MS))
  }

  predicate IsRun(s: State, steps: seq<Step>)
    decreases |steps|
  {
    steps == [] || (Enabled(s, steps[0]) && IsRun(Apply(s, steps[0]), steps[1..]))
  }

  function Final(s: State, steps: seq<Step>): State
    requires IsRun(s, steps)
    decreases |steps|
  {
    if steps == [] then s else Final(Apply(s, steps[0]), steps[1..])
  }

  // ---- how prompt requests have to be -----------------------------------------------------------------

  /** Entries are stored at most store ms after their Postgres read, markers checked at most check ms after the hit. */
  datatype Pace = Pace(store: nat, check: nat)

  predicate Prompt(s: State, step: Step, p: Pace)
    requires Enabled(s, step)
  {
    match step
    case Save(id, _) => s.now - s.requests[id].phase.readAt <= p.store
    case Check(id) => s.now - s.requests[id].phase.hitAt <= p.check
    case _ => true
  }

  ghost predicate PromptRun(s: State, steps: seq<Step>, p: Pace)
    requires IsRun(s, steps)
    decreases |steps|
  {
    steps == [] || (Prompt(s, steps[0], p) && PromptRun(Apply(s, steps[0]), steps[1..], p))
  }

  /** A Postgres read that found the key active came before the revocation. */
  predicate BeforeRevoke(s: State, readAt: int) {
    readAt <= s.now && (s.revokedAt.Some? ==> readAt <= s.revokedAt.value)
  }

  predicate Sound(s: State, p: Pace) {
    && (s.entry.Some? ==> BeforeRevoke(s, s.entry.value.readAt)
                          && s.entry.value.until <= s.entry.value.readAt + p.store + ENTRY_TTL_MS)
    && (forall id :: id in s.requests ==>
          match s.requests[id].phase
          case Hit(hitAt, readAt) =>
            BeforeRevoke(s, readAt) && hitAt < readAt + p.store + ENTRY_TTL_MS
          case Slow => true
          case Verified(readAt) => BeforeRevoke(s, readAt))
    && (s.revokedAt.Some? ==> s.revokedAt.value <= s.now)
    && (s.markedAt.Some? ==>
          && s.revokedAt.Some? && s.revokedAt.value <= s.markedAt.value <= s.now
          && s.markerUntil.Some? && s.markedAt.value + MARKER_TTL_MS <= s.markerUntil.value)
    && (forall id :: id in s.requests && s.requests[id].late ==> s.markedAt.Some?)
    && (forall i :: 0 <= i < |s.accepts| ==> !(s.accepts[i].late && s.accepts[i].cached))
  }

  lemma SoundBegin(s: State, id: RequestId, p: Pace)
    requires Sound(s, p) && Enabled(s, Begin(id))
    ensures Sound(Apply(s, Begin(id)), p)
  {
  }

  /** A late request that hits finds the marker still there. */
  lemma SoundCheck(s: State, id: RequestId, p: Pace)
    requires p.store + p.check <= MARKER_TTL_MS - ENTRY_TTL_MS
    requires Sound(s, p) && Enabled(s, Check(id)) && Prompt(s, Check(id), p)
    ensures Sound(Apply(s, Check(id)), p)
  {
    if s.requests[id].late {
      assert MarkerLive(s);
    }
  }

  lemma SoundRead(s: State, id: RequestId, p: Pace)
    requires Sound(s, p) && Enabled(s, Read(id))
    ensures Sound(Apply(s, Read(id)), p)
  {
  }

  lemma SoundSave(s: State, id: RequestId, landed: bool, p: Pace)
    requires Sound(s, p) && Enabled(s, Save(id, landed)) && Prompt(s, Save(id, landed), p)
    ensures Sound(Apply(s, Save(id, landed)), p)
  {
  }

  lemma SoundRevoke(s: State, p: Pace)
    requires Sound(s, p)
    ensures Sound(Apply(s, Revoke), p)
  {
  }

  lemma SoundMark(s: State, p: Pace)
    requires Sound(s, p) && Enabled(s, Mark)
    ensures Sound(Apply(s, Mark), p)
  {
  }

  lemma SoundStep(s: State, step: Step, p: Pace)
    requires p.store + p.check <= MARKER_TTL_MS - ENTRY_TTL_MS
    requires Sound(s, p) && Enabled(s, step) && Prompt(s, step, p)
    ensures Sound(Apply(s, step), p)
  {
    match step
    case Tick(_) =>
    case Begin(id) => SoundBegin(s, id, p);
    case Check(id) => SoundCheck(s, id, p);
    case Read(id) => SoundRead(s, id, p);
    case Save(id, landed) => SoundSave(s, id, landed, p);
    case Die(_) =>
    case Revoke => SoundRevoke(s, p);
    case Mark => SoundMark(s, p);
  }

  lemma {:induction false} SoundAlong(s: State, steps: seq<Step>, p: Pace)
    requires p.store + p.check <= MARKER_TTL_MS - ENTRY_TTL_MS
    requires Sound(s, p) && IsRun(s, steps) && PromptRun(s, steps, p)
    ensures Sound(Final(s, steps), p)
    decreases |steps|
  {
    if steps != [] {
      SoundStep(s, steps[0], p);
      SoundAlong(Apply(s, steps[0]), steps[1..], p);
    }
  }

  /** A request that started after the marker was set got in through the cache. */
  ghost predicate Leaks(s: State) {
    exists i :: 0 <= i < |s.accepts| && s.accepts[i].late && s.accepts[i].cached
  }

  // ---- the bound is exact ---------------------------------------------------------------------------------

  lemma {:induction false} Snoc(s: State, run: seq<Step>, step: Step, p: Pace)
    requires IsRun(s, run) && PromptRun(s, run, p) && Enabled(Final(s, run), step) && Prompt(Final(s, run), step, p)
    ensures IsRun(s, run + [step]) && Final(s, run + [step]) == Apply(Final(s, run), step)
    ensures PromptRun(s, run + [step], p)
    decreases |run|
  {
    if run == [] {
      assert run + [step] == [step] && [step][1..] == [];
      assert IsRun(Apply(s, step), []) && PromptRun(Apply(s, step), [], p);
    } else {
      assert (run + [step])[1..] == run[1..] + [step];
      Snoc(Apply(s, run[0]), run[1..], step, p);
    }
  }

  lemma Then(s: State, run: seq<Step>, t: State, step: Step, p: Pace) returns (run': seq<Step>, t': State)
    requires IsRun(s, run) && Final(s, run) == t && PromptRun(s, run, p) && Enabled(t, step) && Prompt(t, step, p)
    ensures run' == run + [step] && t' == Apply(t, step)
    ensures IsRun(s, run') && Final(s, run') == t' && PromptRun(s, run', p)
  {
    run', t' := run + [step], Apply(t, step);
    Snoc(s, run, step, p);
  }

  /** Time passes, or not. */
  lemma Pass(s: State, run: seq<Step>, t: State, ms: nat, p: Pace) returns (run': seq<Step>, t': State)
    requires IsRun(s, run) && Final(s, run) == t && PromptRun(s, run, p)
    ensures IsRun(s, run') && Final(s, run') == t' && PromptRun(s, run', p) && t' == t.(now := t.now + ms)
  {
    if ms == 0 {
      run', t' := run, t;
    } else {
      run', t' := Then(s, run, t, Tick(ms), p);
    }
  }

  /** A slow path that read Postgres just before the revocation stores its entry as late as the pace allows. */
  lemma LateStore(p: Pace) returns (run: seq<Step>, t: State)
    ensures IsRun(Init(0), run) && Final(Init(0), run) == t && PromptRun(Init(0), run, p)
    ensures t == State(p.store, Some(0), Some(0), Some(MARKER_TTL_MS), Some(Entry(p.store + ENTRY_TTL_MS, 0)),
                       map[], [Accept(false, false)])
  {
    var s := Init(0);
    run, t := Then(s, [], s, Begin(1), p);
    run, t := Then(s, run, t, Read(1), p);
    run, t := Then(s, run, t, Revoke, p);
    run, t := Then(s, run, t, Mark, p);
    run, t := Pass(s, run, t, p.store, p);
    run, t := Then(s, run, t, Save(1, true), p);
    assert t.requests == map[];
  }

  lemma LatePaceLeaks(p: Pace) returns (run: seq<Step>)
    requires p.store + p.check > MARKER_TTL_MS - ENTRY_TTL_MS
    ensures IsRun(Init(0), run) && PromptRun(Init(0), run, p) && Leaks(Final(Init(0), run))
  {
    var s, t := Init(0), Init(0);
    run, t := LateStore(p);
    run, t := Pass(s, run, t, ENTRY_TTL_MS - 1, p);
    run, t := Then(s, run, t, Begin(2), p);
    run, t := Pass(s, run, t, p.check, p);
    run, t := Then(s, run, t, Check(2), p);
    assert t.accepts[1] == Accept(true, true);
  }

  ghost predicate LeakingRun(p: Pace, now: int, run: seq<Step>) {
    IsRun(Init(now), run) && PromptRun(Init(now), run, p) && Leaks(Final(Init(now), run))
  }

  /**
   Revocation through the cache: no request that starts after the marker is set is ever let in by
   a cache hit, in any run at pace p, if and only if storing after the Postgres read and checking
   the marker after a hit together take at most 240 s.
   */
  lemma RevocationHoldsExactly(p: Pace)
    ensures (forall now, run :: !LeakingRun(p, now, run)) <==> p.store + p.check <= 240_000
  {
    if p.store + p.check <= 240_000 {
      forall now, run | IsRun(Init(now), run) && PromptRun(Init(now), run, p)
        ensures !Leaks(Final(Init(now), run))
      {
        SoundAlong(Init(now), run, p);
      }
    } else {
      var run := LatePaceLeaks(p);
      assert LeakingRun(p, 0, run);
    }
  }
}
