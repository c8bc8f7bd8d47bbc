/**
 Timed mutual exclusion: a provider call ends 30s after its handler started, the in-flight lock
 lasts 60s, so two provider calls for one notification never overlap and the sweeper never
 reclaims a row with a call in progress.  The one thing the code leaves unbounded is the
 deferred DEL, which runs outside the handler's deadline and removes whatever lock is there.  The
 lock protects its handlers throughout a run exactly when no DEL removes it under a handler that
 still relies on it; DELs that come within the lock's lifetime never do.
 */
module Exclusion {
  import opened Wrappers
  import opened Delivery

  /** From the SETNX that answered yes up to the deferred DEL. */
  predicate Locked(p: Phase) {
    p.Gate? || p.Throttled? || p.BreakerOpen? || p.Calling? || p.Faulted? || p.Succeeded?
    || p.SentFailed? || p.Routing? || p.Unlocking?
  }

  /** From the pickup CAS that answered yes up to the end of handle. */
  predicate PickedUp(p: Phase) {
    p.Holding? || p.Refused? || Locked(p)
  }

  predicate Young(s: State, me: Worker) {
    s.now < me.start + LOCK_TTL_MS
  }

  predicate InTime(s: State, me: Worker) {
    && me.start <= s.now
    && (me.phase.Calling? ==> s.now <= me.start + HANDLE_TIMEOUT_MS)
    && (PickedUp(me.phase) ==> me.start <= s.row.updatedAt)
  }

  predicate Owns(s: State, w: WorkerId)
    requires w in s.workers
  {
    s.lock.Some? && s.lock.value.holder == w && s.workers[w].start + LOCK_TTL_MS <= s.lock.value.until
  }

  ghost predicate Timed(s: State) {
    && s.row.updatedAt <= s.now
    && (forall w :: w in s.workers ==> InTime(s, s.workers[w]))
  }

  ghost predicate Guarded(s: State) {
    forall w :: w in s.workers && Locked(s.workers[w].phase) && Young(s, s.workers[w]) ==> Owns(s, w)
  }

  /** Nobody but w is inside the lock's lifetime and relies on it. */
  ghost predicate Unchallenged(s: State, w: WorkerId) {
    forall v :: v in s.workers && v != w && Locked(s.workers[v].phase) ==> !Young(s, s.workers[v])
  }

  /** A DEL that takes effect under another handler which still relies on the lock. */
  ghost predicate Robs(s: State, step: Step) {
    && step.Work? && step.deed.Local? && step.deed.act.Unlock? && step.deed.act.landed
    && !Unchallenged(s, step.worker)
  }

  /** What a local step may do to the clock-related parts of the state. */
  predicate Keeps(s: State, w: WorkerId, e: Effect)
    requires w in s.workers
  {
    var p := s.workers[w].phase;
    && s.row.updatedAt <= e.row.updatedAt <= s.now
    && (e.phase.Calling? ==> s.now < s.workers[w].start + HANDLE_TIMEOUT_MS)
    && (PickedUp(e.phase) ==> PickedUp(p) || e.row.updatedAt == s.now)
    && (e.lock == s.lock || LockFree(s) || p.Unlocking?)
    && (Locked(e.phase) ==> if Locked(p) then e.lock == s.lock else e.lock == Some(Lock(w, s.now + LOCK_TTL_MS)))
  }

  lemma LocalKeeps(s: State, w: WorkerId, act: LocalStep)
    requires s.row.updatedAt <= s.now && WorkerEnabled(s, w, Local(act))
    ensures Keeps(s, w, LocalEffect(s, w, act))
  {
  }

  /** A handler leaves the row, the lock and the clock alone when it moves messages. */
  lemma MessageTouches(s: State, w: WorkerId, deed: WorkerStep, v: WorkerId)
    requires WorkerEnabled(s, w, deed) && !deed.Local? && v in WorkerApply(s, w, deed).workers
    ensures var t := WorkerApply(s, w, deed);
            && t.row == s.row && t.lock == s.lock && t.now == s.now && v in s.workers
            && t.workers[v].start == s.workers[v].start
            && (Locked(t.workers[v].phase) ==> Locked(s.workers[v].phase))
            && (PickedUp(t.workers[v].phase) ==> PickedUp(s.workers[v].phase))
            && (t.workers[v].phase.Calling? ==> s.workers[v].phase.Calling?)
  {
  }

  lemma MessageSpares(s: State, w: WorkerId, deed: WorkerStep)
    requires WorkerEnabled(s, w, deed) && !deed.Local?
    ensures var t := WorkerApply(s, w, deed); t.row == s.row && t.now == s.now && t.lock == s.lock
  {
  }

  /** Schedulers, sweeper, cancel, replay and claims leave handlers and lock alone and stamp what they write. */
  lemma AdminTouches(s: State, step: Step)
    requires Enabled(s, step) && Bystander(step)
    ensures var t := Apply(s, step);
            && t.workers == s.workers && t.lock == s.lock && t.now == s.now
            && (t.row == s.row || t.row.updatedAt == s.now)
  {
    BystandersLeave(s, step);
  }

  /** So does a dispatcher. */
  lemma DispatchTouches(s: State, d: DispatcherId, doing: DispatchStep)
    requires DispatchEnabled(s, d, doing)
    ensures var t := DispatchApply(s, d, doing);
            && t.workers == s.workers && t.lock == s.lock && t.now == s.now
            && (t.row == s.row || t.row.updatedAt == s.now)
  {
  }

  // ---- clock readings, in every run ---------------------------------------------------------

  lemma TimedEffect(s: State, w: WorkerId, e: Effect)
    requires Timed(s) && w in s.workers && Keeps(s, w, e)
    ensures Timed(LocalApply(s, w, e))
  {
  }

  lemma TimedMessage(s: State, w: WorkerId, deed: WorkerStep)
    requires Timed(s) && WorkerEnabled(s, w, deed) && !deed.Local?
    ensures Timed(WorkerApply(s, w, deed))
  {
    var t := WorkerApply(s, w, deed);
    MessageSpares(s, w, deed);
    forall v | v in t.workers
      ensures InTime(t, t.workers[v])
    {
      MessageTouches(s, w, deed, v);
    }
  }

  lemma TimedClock(s: State, step: Step)
    requires Timed(s) && Enabled(s, step) && (step.Tick? || step.Deliver? || step.Expire?)
    ensures Timed(Apply(s, step))
  {
  }

  lemma TimedStep(s: State, step: Step)
    requires Timed(s) && Enabled(s, step)
    ensures Timed(Apply(s, step))
  {
    if step.Work? && step.deed.Local? {
      LocalKeeps(s, step.worker, step.deed.act);
      TimedEffect(s, step.worker, LocalEffect(s, step.worker, step.deed.act));
    } else if step.Work? {
      TimedMessage(s, step.worker, step.deed);
    } else if step.Dispatch? {
      DispatchTouches(s, step.dispatcher, step.doing);
    } else if step.Tick? || step.Deliver? || step.Expire? {
      TimedClock(s, step);
    } else {
      AdminTouches(s, step);
    }
  }

  lemma {:induction false} TimedAlong(s: State, steps: seq<Step>)
    requires Timed(s) && IsRun(s, steps)
    ensures Timed(Final(s, steps))
    decreases |steps|
  {
    if steps != [] {
      TimedStep(s, steps[0]);
      TimedAlong(Apply(s, steps[0]), steps[1..]);
    }
  }

  // ---- the lock ---------------------------------------------------------------------------------

  lemma GuardedEffect(s: State, w: WorkerId, e: Effect)
    requires Timed(s) && Guarded(s) && w in s.workers && Keeps(s, w, e)
    requires s.workers[w].phase.Unlocking? && e.lock != s.lock ==> Unchallenged(s, w)
    ensures Guarded(LocalApply(s, w, e))
  {
    var t := LocalApply(s, w, e);
    assert InTime(s, s.workers[w]);
    forall v | v in t.workers && Locked(t.workers[v].phase) && Young(t, t.workers[v])
      ensures Owns(t, v)
    {
      if v != w {
        assert Owns(s, v);
      }
    }
  }

  lemma GuardedMessage(s: State, w: WorkerId, deed: WorkerStep)
    requires Guarded(s) && WorkerEnabled(s, w, deed) && !deed.Local?
    ensures Guarded(WorkerApply(s, w, deed))
  {
    var t := WorkerApply(s, w, deed);
    forall v | v in t.workers && Locked(t.workers[v].phase) && Young(t, t.workers[v])
      ensures Owns(t, v)
    {
      MessageTouches(s, w, deed, v);
      assert Owns(s, v);
    }
  }

  lemma GuardedClock(s: State, step: Step)
    requires Guarded(s) && Enabled(s, step) && (step.Tick? || step.Deliver? || step.Expire?)
    ensures Guarded(Apply(s, step))
  {
    var t := Apply(s, step);
    forall v | v in t.workers && Locked(t.workers[v].phase) && Young(t, t.workers[v])
      ensures Owns(t, v)
    {
      assert v in s.workers && s.workers[v] == t.workers[v] && Owns(s, v);
    }
  }

  /** Only DEL leaves the last locked phase, and it leaves the lock alone unless it takes effect. */
  lemma OnlyUnlockUnlocks(s: State, w: WorkerId, act: LocalStep)
    requires WorkerEnabled(s, w, Local(act))
    ensures s.workers[w].phase.Unlocking? <==> act.Unlock?
    ensures act.Unlock? && !act.landed ==> LocalEffect(s, w, act).lock == s.lock
  {
  }

  lemma GuardedStep(s: State, step: Step)
    requires Timed(s) && Guarded(s) && Enabled(s, step) && !Robs(s, step)
    ensures Guarded(Apply(s, step))
  {
    if step.Work? && step.deed.Local? {
      LocalKeeps(s, step.worker, step.deed.act);
      OnlyUnlockUnlocks(s, step.worker, step.deed.act);
      GuardedEffect(s, step.worker, LocalEffect(s, step.worker, step.deed.act));
    } else if step.Work? {
      GuardedMessage(s, step.worker, step.deed);
    } else if step.Dispatch? {
      DispatchTouches(s, step.dispatcher, step.doing);
    } else if step.Tick? || step.Deliver? || step.Expire? {
      GuardedClock(s, step);
    } else {
      AdminTouches(s, step);
    }
  }

  lemma RobbedStep(s: State, w: WorkerId)
    requires WorkerEnabled(s, w, Local(Unlock(true))) && !Unchallenged(s, w)
    ensures !Guarded(WorkerApply(s, w, Local(Unlock(true))))
  {
    var t := WorkerApply(s, w, Local(Unlock(true)));
    var v :| v in s.workers && v != w && Locked(s.workers[v].phase) && Young(s, s.workers[v]);
    assert t.workers[v] == s.workers[v] && !Owns(t, v);
  }

  /**
   A step leaves every handler between its SETNX and its DEL, and inside the lock's lifetime, the
   owner of the lock if and only if it is not a DEL that takes effect under such a handler.
   */
  lemma LockLostExactly(s: State, step: Step)
    requires Timed(s) && Guarded(s) && Enabled(s, step)
    ensures Guarded(Apply(s, step)) <==> !Robs(s, step)
  {
    if Robs(s, step) {
      RobbedStep(s, step.worker);
    } else {
      GuardedStep(s, step);
    }
  }

  // ---- whole runs -------------------------------------------------------------------------------

  ghost predicate NeverRobs(s: State, steps: seq<Step>)
    requires IsRun(s, steps)
    decreases |steps|
  {
    steps == [] || (!Robs(s, steps[0]) && NeverRobs(Apply(s, steps[0]), steps[1..]))
  }

  ghost predicate AlwaysGuarded(s: State, steps: seq<Step>)
    requires IsRun(s, steps)
    decreases |steps|
  {
    Guarded(s) && (steps == [] || AlwaysGuarded(Apply(s, steps[0]), steps[1..]))
  }

  /**
   With no condition on the run: the lock protects its handlers throughout exactly when no step
   of the run robs one.
   */
  lemma {:induction false} GuardedThroughoutExactly(s: State, steps: seq<Step>)
    requires Timed(s) && Guarded(s) && IsRun(s, steps)
    ensures AlwaysGuarded(s, steps) <==> NeverRobs(s, steps)
    decreases |steps|
  {
    if steps != [] {
      TimedStep(s, steps[0]);
      LockLostExactly(s, steps[0]);
      if Guarded(Apply(s, steps[0])) {
        GuardedThroughoutExactly(Apply(s, steps[0]), steps[1..]);
      }
    }
  }

  lemma {:induction false} GuardedAtEnd(s: State, steps: seq<Step>)
    requires IsRun(s, steps) && AlwaysGuarded(s, steps)
    ensures Guarded(Final(s, steps))
    decreases |steps|
  {
    if steps != [] {
      GuardedAtEnd(Apply(s, steps[0]), steps[1..]);
    }
  }

  lemma GuardedAlong(s: State, steps: seq<Step>)
    requires Timed(s) && Guarded(s) && IsRun(s, steps) && NeverRobs(s, steps)
    ensures Timed(Final(s, steps)) && Guarded(Final(s, steps))
  {
    TimedAlong(s, steps);
    GuardedThroughoutExactly(s, steps);
    GuardedAtEnd(s, steps);
  }

  // ---- what follows -----------------------------------------------------------------------------

  /**
   No two provider calls are in progress together, at any point of any run in which no DEL robs
   a handler, replays, sweeps and duplicate publishes included.
   */
  lemma ProviderCallsExclude(s: State, steps: seq<Step>, v: WorkerId, w: WorkerId)
    requires Init(s) && IsRun(s, steps) && NeverRobs(s, steps)
    requires v in Final(s, steps).workers && Final(s, steps).workers[v].phase.Calling?
    requires w in Final(s, steps).workers && Final(s, steps).workers[w].phase.Calling?
    ensures v == w
  {
    var t := Final(s, steps);
    GuardedAlong(s, steps);
    assert InTime(t, t.workers[v]) && InTime(t, t.workers[w]);
    assert Owns(t, v) && Owns(t, w);
  }

  /**
   A handler inside the lock's lifetime that comes to its unconditional DEL finds the lock there,
   live and its own.
   */
  lemma DelRemovesOwnLock(s: State, steps: seq<Step>, w: WorkerId, landed: bool)
    requires Init(s) && IsRun(s, steps) && NeverRobs(s, steps)
    requires WorkerEnabled(Final(s, steps), w, Local(Unlock(landed)))
    requires Young(Final(s, steps), Final(s, steps).workers[w])
    ensures Final(s, steps).lock.Some? && Final(s, steps).lock.value.holder == w
    ensures Final(s, steps).now < Final(s, steps).lock.value.until
  {
    GuardedAlong(s, steps);
    assert Owns(Final(s, steps), w);
  }

  // ---- DELs in time -------------------------------------------------------------------------------

  /** A handler that runs its deferred DEL does so within the lock's lifetime of its start. */
  predicate Timely(s: State, step: Step) {
    step.Work? && step.worker in s.workers && step.deed.Local? && step.deed.act.Unlock? ==>
      Young(s, s.workers[step.worker])
  }

  ghost predicate TimelyRun(s: State, steps: seq<Step>)
    requires IsRun(s, steps)
    decreases |steps|
  {
    steps == [] || (Timely(s, steps[0]) && TimelyRun(Apply(s, steps[0]), steps[1..]))
  }

  lemma TimelyDoesNotRob(s: State, step: Step)
    requires Guarded(s) && Enabled(s, step) && Timely(s, step)
    ensures !Robs(s, step)
  {
    if step.Work? && step.deed.Local? && step.deed.act.Unlock? {
      assert Owns(s, step.worker);
    }
  }

  lemma {:induction false} TimelyNeverRobs(s: State, steps: seq<Step>)
    requires Timed(s) && Guarded(s) && IsRun(s, steps) && TimelyRun(s, steps)
    ensures NeverRobs(s, steps)
    decreases |steps|
  {
    if steps != [] {
      TimelyDoesNotRob(s, steps[0]);
      TimedStep(s, steps[0]);
      GuardedStep(s, steps[0]);
      TimelyNeverRobs(Apply(s, steps[0]), steps[1..]);
    }
  }

  /** In particular provider calls exclude each other if no DEL comes later than 60s after its handler's start. */
  lemma TimelyCallsExclude(s: State, steps: seq<Step>, v: WorkerId, w: WorkerId)
    requires Init(s) && IsRun(s, steps) && TimelyRun(s, steps)
    requires v in Final(s, steps).workers && Final(s, steps).workers[v].phase.Calling?
    requires w in Final(s, steps).workers && Final(s, steps).workers[w].phase.Calling?
    ensures v == w
  {
    TimelyNeverRobs(s, steps);
    ProviderCallsExclude(s, steps, v, w);
  }

  // ---- the sweeper ----------------------------------------------------------------------------------

  /**
   In every run: a handler whose row a sweep reclaims has been at it for more than five
   minutes, ten times its deadline; one in a provider call is never touched.
   */
  lemma SweepSparesOwners(s: State, steps: seq<Step>, o: RowId, w: WorkerId)
    requires Init(s) && IsRun(s, steps)
    requires SweepEnabled(Final(s, steps), o) && w in Final(s, steps).workers
    ensures var t := Final(s, steps);
            && (PickedUp(t.workers[w].phase) ==> t.now - t.workers[w].start > 10 * HANDLE_TIMEOUT_MS)
            && !t.workers[w].phase.Calling?
  {
    TimedAlong(s, steps);
    assert InTime(Final(s, steps), Final(s, steps).workers[w]);
  }
}
