/**
 The processes of the delivery protocol as the source writes them: straight-line code with
 branches and early returns over shared state.  Between any two of its own steps the rest of the
 system may take any steps it likes.  Each method is proved to be a run of the protocol, so every
 theorem about runs holds of it, and to finish what it started.
 */
module Processes {
  import opened Wrappers
  import opened Notifications
  import opened Topology
  import opened Delivery
  import opened OutboxTruth
  import opened Stranding

  datatype Gate = GatePass | GateOpenBreaker | GateGiveUp | GateTimeout | GateFails

  datatype Provider = Accepts | Faults(retryable: bool) | Unreachable(retryable: bool)

  /** How the outside world answers in one round. */
  datatype Dice = Dice(
    reply: Reply, landed: bool, publish: PublishReply, throttled: bool, gate: Gate, provider: Provider)

  /** A step handler w takes itself; that its connection breaks is the broker's doing. */
  predicate OwnStep(step: Step, w: WorkerId) {
    step.Work? && step.worker == w && !step.deed.ConnectionLost?
  }

  predicate LeavesWorker(steps: seq<Step>, w: WorkerId) {
    forall i :: 0 <= i < |steps| ==> !OwnStep(steps[i], w)
  }

  predicate LeavesDispatcher(steps: seq<Step>, d: DispatcherId) {
    forall i :: 0 <= i < |steps| ==> !(steps[i].Dispatch? && steps[i].dispatcher == d)
  }

  lemma OtherWorkers(s: State, v: WorkerId, deed: WorkerStep, w: WorkerId)
    requires w in s.workers && WorkerEnabled(s, v, deed) && !OwnStep(Work(v, deed), w)
    ensures w in WorkerApply(s, v, deed).workers && WorkerApply(s, v, deed).workers[w] == s.workers[w]
  {
  }

  lemma DispatchersLeaveWorkers(s: State, d: DispatcherId, doing: DispatchStep)
    requires DispatchEnabled(s, d, doing)
    ensures DispatchApply(s, d, doing).workers == s.workers
  {
  }

  lemma WorkerUntouched(s: State, step: Step, w: WorkerId)
    requires w in s.workers && Enabled(s, step) && !OwnStep(step, w)
    ensures w in Apply(s, step).workers && Apply(s, step).workers[w] == s.workers[w]
  {
    match step
    case Work(v, deed) => OtherWorkers(s, v, deed, w);
    case Dispatch(d, doing) => DispatchersLeaveWorkers(s, d, doing);
    case _ =>
  }

  lemma {:induction false} WorkerWaits(s: State, steps: seq<Step>, w: WorkerId)
    requires w in s.workers && IsRun(s, steps) && LeavesWorker(steps, w)
    ensures w in Final(s, steps).workers && Final(s, steps).workers[w] == s.workers[w]
    decreases |steps|
  {
    if steps != [] {
      WorkerUntouched(s, steps[0], w);
      WorkerWaits(Apply(s, steps[0]), steps[1..], w);
    }
  }

  predicate Placed(s: State, d: DispatcherId) {
    d in s.dispatchers && s.dispatchers[d].row in s.outbox
  }

  lemma OtherDispatchers(s: State, e: DispatcherId, doing: DispatchStep, d: DispatcherId)
    requires Placed(s, d) && DispatchEnabled(s, e, doing) && e != d
    ensures var t := DispatchApply(s, e, doing); Placed(t, d) && t.dispatchers[d] == s.dispatchers[d]
  {
  }

  lemma DispatcherUntouched(s: State, step: Step, d: DispatcherId)
    requires Placed(s, d) && Enabled(s, step) && !(step.Dispatch? && step.dispatcher == d)
    ensures var t := Apply(s, step); Placed(t, d) && t.dispatchers[d] == s.dispatchers[d]
  {
    match step
    case Work(w, deed) => WorkersLeaveOutbox(s, w, deed);
    case Dispatch(e, doing) => OtherDispatchers(s, e, doing, d);
    case _ =>
  }

  lemma {:induction false} DispatcherWaits(s: State, steps: seq<Step>, d: DispatcherId)
    requires Placed(s, d) && IsRun(s, steps) && LeavesDispatcher(steps, d)
    ensures var t := Final(s, steps); Placed(t, d) && t.dispatchers[d] == s.dispatchers[d]
    decreases |steps|
  {
    if steps != [] {
      DispatcherUntouched(s, steps[0], d);
      DispatcherWaits(Apply(s, steps[0]), steps[1..], d);
    }
  }

  // ---- what one handler did -------------------------------------------------------------------------

  /** The steps of handler w in a run. */
  function Deeds(trace: seq<Step>, w: WorkerId): seq<WorkerStep> {
    if trace == [] then []
    else
      var last := trace[|trace| - 1];
      Deeds(trace[..|trace| - 1], w) + if OwnStep(last, w) then [last.deed] else []
  }

  lemma DeedsOne(trace: seq<Step>, w: WorkerId, deed: WorkerStep)
    requires !deed.ConnectionLost?
    ensures Deeds(trace + [Work(w, deed)], w) == Deeds(trace, w) + [deed]
  {
    assert (trace + [Work(w, deed)])[..|trace|] == trace;
  }

  lemma {:induction false} DeedsOthers(trace: seq<Step>, steps: seq<Step>, w: WorkerId)
    requires LeavesWorker(steps, w)
    ensures Deeds(trace + steps, w) == Deeds(trace, w)
    decreases |steps|
  {
    if steps == [] {
      assert trace + steps == trace;
    } else {
      var n := |steps| - 1;
      DeedsOthers(trace, steps[..n], w);
      assert (trace + steps)[..|trace| + n] == trace + steps[..n] && (trace + steps)[|trace| + n] == steps[n];
    }
  }

  /**
   After a fault: a retry is reverted and routed, and acked only if the broker confirmed the
   copy; otherwise the row is given up.
   */
  predicate AfterFault(ds: seq<WorkerStep>, me: Worker, exit: Exit) {
    if MayRetry(me)
    then |ds| == 2 && ds[0].Local? && ds[0].act.RetryRevert? && ds[1].Route?
         && exit == if ds[1].answer.Confirm? then ExitAck else ExitError
    else |ds| == 1 && ds[0].Local? && ds[0].act.GiveUp? && exit == ExitTerminal
  }

  /** After a success: MarkSent, and a revert exactly if it failed. */
  predicate AfterSuccess(ds: seq<WorkerStep>, sent: bool, exit: Exit) {
    && |ds| == (if sent then 1 else 2) && ds[0].Local? && ds[0].act.SetSent?
    && (sent ==> ds[0].act.reply.Ok? && exit == ExitAck)
    && (!sent ==> ds[1].Local? && ds[1].act.SentRevert? && exit == ExitError)
  }

  predicate IsCall(deed: WorkerStep) {
    deed == Local(CallProvider)
  }

  /**
   At most one provider call; its answer comes next; a success is followed by MarkSent.
   */
  predicate Disciplined(ds: seq<WorkerStep>) {
    && (forall i, j :: 0 <= i < j < |ds| && IsCall(ds[i]) ==> !IsCall(ds[j]))
    && (forall i :: 0 <= i < |ds| && IsCall(ds[i]) ==>
          i + 1 < |ds| && ds[i + 1].Local? && (ds[i + 1].act.ProviderOk? || ds[i + 1].act.ProviderFault?))
    && (forall i :: 0 <= i < |ds| && ds[i] == Local(ProviderOk) ==>
          i + 1 < |ds| && ds[i + 1].Local? && ds[i + 1].act.SetSent?)
  }

  /** What a call with answer p leads to. */
  ghost predicate CallScript(ds: seq<WorkerStep>, me: Worker, p: Provider, exit: Exit) {
    |ds| >= 3 && IsCall(ds[0]) &&
    if p.Accepts? then ds[1] == Local(ProviderOk) && exists sent :: AfterSuccess(ds[2..], sent, exit)
    else ds[1] == Local(ProviderFault(p.retryable)) && AfterFault(ds[2..], me.(phase := Faulted(p.retryable)), exit)
  }

  /** What a request that never leaves leads to. */
  predicate RefusedScript(ds: seq<WorkerStep>, me: Worker, exit: Exit) {
    && |ds| >= 2 && ds[0].Local? && ds[0].act.CallRefused?
    && AfterFault(ds[1..], me.(phase := Faulted(ds[0].act.retryable)), exit)
  }

  lemma ScriptOfSuccess(heard: seq<WorkerStep>, ds: seq<WorkerStep>, me: Worker, p: Provider, sent: bool, exit: Exit)
    requires heard == [Local(CallProvider), Local(ProviderOk)] && heard <= ds && p.Accepts?
    requires AfterSuccess(ds[2..], sent, exit)
    ensures CallScript(ds, me, p, exit)
  {
    assert ds[0] == heard[0] && ds[1] == heard[1];
  }

  lemma ScriptOfFault(heard: seq<WorkerStep>, ds: seq<WorkerStep>, me: Worker, p: Provider, exit: Exit)
    requires !p.Accepts? && heard == [Local(CallProvider), Local(ProviderFault(p.retryable))] && heard <= ds
    requires AfterFault(ds[2..], me.(phase := Faulted(p.retryable)), exit)
    ensures CallScript(ds, me, p, exit)
  {
    assert ds[0] == heard[0] && ds[1] == heard[1];
  }

  lemma CallDisciplined(ds: seq<WorkerStep>, me: Worker, p: Provider, exit: Exit)
    requires CallScript(ds, me, p, exit)
    ensures Disciplined(ds)
  {
    if p.Accepts? {
      var sent :| AfterSuccess(ds[2..], sent, exit);
      assert forall i :: 2 <= i < |ds| ==> ds[i] == ds[2..][i - 2];
    } else {
      assert forall i :: 2 <= i < |ds| ==> ds[i] == ds[2..][i - 2];
    }
  }

  lemma RefusedDisciplined(ds: seq<WorkerStep>, me: Worker, exit: Exit)
    requires RefusedScript(ds, me, exit)
    ensures Disciplined(ds)
  {
    assert forall i :: 1 <= i < |ds| ==> ds[i] == ds[1..][i - 1];
  }

  lemma Regroup(a: seq<WorkerStep>, b: seq<WorkerStep>, c: seq<WorkerStep>)
    ensures a + b + c == a + (b + c)
  {
  }

  /** Neither calls the provider nor hears from it. */
  predicate Plain(ds: seq<WorkerStep>) {
    forall i :: 0 <= i < |ds| ==> !IsCall(ds[i]) && ds[i] != Local(ProviderOk)
  }

  /** One step of handler w, then steps of others: its deeds have grown by that one. */
  lemma DeedsTurn(trace: seq<Step>, w: WorkerId, deed: WorkerStep, steps: seq<Step>,
                  base: seq<WorkerStep>, ds: seq<WorkerStep>)
    requires LeavesWorker(steps, w) && !deed.ConnectionLost? && Deeds(trace, w) == base + ds
    ensures Deeds(trace + [Work(w, deed)] + steps, w) == base + (ds + [deed])
    ensures Plain(ds) && Plain([deed]) ==> Plain(ds + [deed])
  {
    DeedsOne(trace, w, deed);
    DeedsOthers(trace + [Work(w, deed)], steps, w);
    Regroup(base, ds, [deed]);
  }

  /** And its progress is what that one made it. */
  lemma TurnWaits(s: State, w: WorkerId, deed: WorkerStep, steps: seq<Step>)
    requires WorkerEnabled(s, w, deed) && w in WorkerApply(s, w, deed).workers
    requires IsRun(WorkerApply(s, w, deed), steps) && LeavesWorker(steps, w)
    ensures var t := Final(WorkerApply(s, w, deed), steps);
            w in t.workers && t.workers[w] == WorkerApply(s, w, deed).workers[w]
  {
    WorkerWaits(WorkerApply(s, w, deed), steps, w);
  }

  lemma DisciplinedWithin(before: seq<WorkerStep>, ds: seq<WorkerStep>, after: seq<WorkerStep>)
    requires Plain(before) && Disciplined(ds) && Plain(after)
    ensures Disciplined(before + ds + after)
  {
    var all := before + ds + after;
    var n := |before|;
    forall i | 0 <= i < |all| && (IsCall(all[i]) || all[i] == Local(ProviderOk))
      ensures n <= i < n + |ds| && all[i] == ds[i - n] && (i + 1 < n + |ds| ==> all[i + 1] == ds[i + 1 - n])
    {
    }
  }

  lemma DisciplinedBefore(ds: seq<WorkerStep>, last: WorkerStep)
    requires Disciplined(ds) && !IsCall(last) && last != Local(ProviderOk)
    ensures Disciplined(ds + [last])
  {
    DisciplinedWithin([], ds, [last]);
    assert [] + ds + [last] == ds + [last];
  }

  // ---- what one dispatcher did --------------------------------------------------------------------------

  /** The steps of dispatcher d in a run. */
  function Doings(trace: seq<Step>, d: DispatcherId): seq<DispatchStep> {
    if trace == [] then []
    else
      var last := trace[|trace| - 1];
      Doings(trace[..|trace| - 1], d) + if last.Dispatch? && last.dispatcher == d then [last.doing] else []
  }

  lemma DoingsOne(trace: seq<Step>, d: DispatcherId, doing: DispatchStep,
                  base: seq<DispatchStep>, ds: seq<DispatchStep>)
    requires Doings(trace, d) == base + ds
    ensures Doings(trace + [Dispatch(d, doing)], d) == base + (ds + [doing])
  {
    assert (trace + [Dispatch(d, doing)])[..|trace|] == trace;
    assert base + ds + [doing] == base + (ds + [doing]);
  }

  lemma {:induction false} DoingsOthers(trace: seq<Step>, steps: seq<Step>, d: DispatcherId)
    requires LeavesDispatcher(steps, d)
    ensures Doings(trace + steps, d) == Doings(trace, d)
    decreases |steps|
  {
    if steps == [] {
      assert trace + steps == trace;
    } else {
      var n := |steps| - 1;
      DoingsOthers(trace, steps[..n], d);
      assert (trace + steps)[..|trace| + n] == trace + steps[..n] && (trace + steps)[|trace| + n] == steps[n];
    }
  }

  /** One step of dispatcher d, then steps of others: its doings have grown by that one. */
  lemma DoingsTurn(trace: seq<Step>, d: DispatcherId, doing: DispatchStep, steps: seq<Step>,
                   base: seq<DispatchStep>, ds: seq<DispatchStep>)
    requires LeavesDispatcher(steps, d) && Doings(trace, d) == base + ds
    ensures Doings(trace + [Dispatch(d, doing)] + steps, d) == base + (ds + [doing])
  {
    DoingsOne(trace, d, doing, base, ds);
    DoingsOthers(trace + [Dispatch(d, doing)], steps, d);
  }

  /** A publish puts its dispatcher where the broker's answer leads, still at its row. */
  lemma PublishLeads(s: State, d: DispatcherId, answer: PublishReply, m: MsgId)
    requires Placed(s, d) && s.dispatchers[d].phase.Claimed? && m !in s.msgs
    ensures DispatchEnabled(s, d, Publish(answer, m))
    ensures var t := DispatchApply(s, d, Publish(answer, m));
            && Placed(t, d)
            && t.dispatchers[d] == s.dispatchers[d].(phase := if answer.Confirm? then Confirmed else PublishFailed)
  {
  }

  lemma DispatchTurnWaits(s: State, d: DispatcherId, doing: DispatchStep, steps: seq<Step>)
    requires DispatchEnabled(s, d, doing) && Placed(DispatchApply(s, d, doing), d)
    requires IsRun(DispatchApply(s, d, doing), steps) && LeavesDispatcher(steps, d)
    ensures var t := Final(DispatchApply(s, d, doing), steps);
            Placed(t, d) && t.dispatchers[d] == DispatchApply(s, d, doing).dispatchers[d]
  {
    DispatcherWaits(DispatchApply(s, d, doing), steps, d);
  }

  /** markFailure of a row claimed with this attempts column. */
  predicate AfterPublishFailure(ds: seq<DispatchStep>, attempts: nat) {
    if attempts + 1 < MAX_ATTEMPTS then |ds| == 1 && ds[0].RecordFailure?
    else |ds| == 2 && ds[0].DeadLetterRow? && ds[1].CloseRow?
  }

  /** The row is marked, and its notification queued exactly if that was answered. */
  predicate AfterConfirm(ds: seq<DispatchStep>, reply: Reply) {
    && |ds| == (if reply.Ok? then 2 else 1)
    && ds[0] == MarkPublished(reply) && (reply.Ok? ==> ds[1].QueueRow?)
  }

  /** An id that is not in use. */
  method FreshId(used: set<nat>) returns (m: nat)
    ensures m !in used
  {
    m := 0;
    var rest := used;
    while rest != {}
      invariant rest <= used
      invariant forall k :: k in used && k !in rest ==> k < m
      decreases rest
    {
      var k :| k in rest;
      rest := rest - {k};
      m := if k < m then m else k + 1;
    }
  }

  class System {
    var s: State
    var round: nat
    const dice: nat -> Dice
    const others: (nat, State) -> seq<Step>
    ghost const origin: State
    ghost var trace: seq<Step>

    constructor (start: State, dice: nat -> Dice, others: (nat, State) -> seq<Step>)
      ensures s == start && origin == start && trace == [] && this.dice == dice && this.others == others && Valid()
    {
      s, origin, trace, round := start, start, [], 0;
      this.dice, this.others := dice, others;
    }

    /** Everything that has happened so far is a run of the protocol. */
    ghost predicate Valid()
      reads this
    {
      Leads(origin, trace, s)
    }

    ghost predicate WorkerEnvironment(w: WorkerId)
    {
      forall n, t :: IsRun(t, others(n, t)) && LeavesWorker(others(n, t), w)
    }

    ghost predicate DispatcherEnvironment(d: DispatcherId)
    {
      forall n, t :: IsRun(t, others(n, t)) && LeavesDispatcher(others(n, t), d)
    }

    method Do(step: Step)
      requires Valid() && Enabled(s, step)
      modifies this`s, this`trace
      ensures Valid() && s == Apply(old(s), step) && trace == old(trace) + [step]
    {
      ghost var run, t := Take(origin, trace, s, step);
      s, trace := Apply(s, step), run;
    }

    /** Everybody else takes a turn. */
    method Yield()
      requires Valid() && IsRun(s, others(round, s))
      modifies this
      ensures Valid() && s == Final(old(s), others(old(round), old(s))) && round == old(round) + 1
      ensures trace == old(trace) + others(old(round), old(s))
    {
      var steps := others(round, s);
      RunSplits(origin, trace, steps);
      s, trace := Final(s, steps), trace + steps;
      round := round + 1;
    }

    // ---- Pipeline.Handle ---------------------------------------------------------------------

    /** One step of handler w that does not end it, then everybody else; ds grows by it. */
    method Turn(w: WorkerId, deed: WorkerStep, ghost base: seq<WorkerStep>, ghost ds: seq<WorkerStep>)
      returns (ghost ds': seq<WorkerStep>)
      requires Valid() && WorkerEnvironment(w) && WorkerEnabled(s, w, deed) && w in WorkerApply(s, w, deed).workers
      requires !deed.ConnectionLost? && Deeds(trace, w) == base + ds
      modifies this
      ensures Valid() && w in s.workers && s.workers[w] == WorkerApply(old(s), w, deed).workers[w]
      ensures old(trace) <= trace && round == old(round) + 1
      ensures ds' == ds + [deed] && Deeds(trace, w) == base + ds' && (Plain(ds) && Plain([deed]) ==> Plain(ds'))
    {
      ghost var steps := others(round, WorkerApply(s, w, deed));
      DeedsTurn(trace, w, deed, steps, base, ds);
      TurnWaits(s, w, deed, steps);
      Do(Work(w, deed));
      Yield();
      ds' := ds + [deed];
    }

    method LocalTurn(w: WorkerId, act: LocalStep, ghost base: seq<WorkerStep>, ghost ds: seq<WorkerStep>)
      returns (ghost ds': seq<WorkerStep>)
      requires Valid() && WorkerEnvironment(w) && WorkerEnabled(s, w, Local(act))
      requires Deeds(trace, w) == base + ds
      modifies this
      ensures Valid() && w in s.workers
      ensures var e := LocalEffect(old(s), w, act);
              s.workers[w] == old(s).workers[w].(phase := e.phase, attempts := e.attempts)
      ensures old(trace) <= trace && round == old(round) + 1
      ensures ds' == ds + [Local(act)] && Deeds(trace, w) == base + ds'
      ensures Plain(ds) && !act.CallProvider? && !act.ProviderOk? ==> Plain(ds')
    {
      ds' := Turn(w, Local(act), base, ds);
    }

    /** The rate-limit gate, the provider call and what follows, up to the deferred DEL. */
    method Attempt(w: WorkerId, ghost base: seq<WorkerStep>) returns (ghost ds: seq<WorkerStep>)
      requires Valid() && WorkerEnvironment(w) && w in s.workers && s.workers[w].phase.Gate?
      requires Deeds(trace, w) == base
      modifies this
      ensures Valid() && w in s.workers && s.workers[w].phase.Unlocking? && old(trace) <= trace
      ensures Deeds(trace, w) == base + ds && Disciplined(ds)
    {
      ghost var first := [];
      Regroup(base, [], []);
      if dice(round).throttled {
        first := LocalTurn(w, GateThrottle, base, []);
      }
      ghost var more := PassOrNot(w, base + first);
      Regroup(base, first, more);
      DisciplinedWithin(first, more, []);
      ds := first + more;
      assert first + more + [] == ds;
    }

    /** How the gate ends. */
    method PassOrNot(w: WorkerId, ghost base: seq<WorkerStep>) returns (ghost ds: seq<WorkerStep>)
      requires Valid() && WorkerEnvironment(w) && w in s.workers
      requires s.workers[w].phase.Gate? || s.workers[w].phase.Throttled?
      requires Deeds(trace, w) == base
      modifies this
      ensures Valid() && w in s.workers && s.workers[w].phase.Unlocking? && old(trace) <= trace
      ensures Deeds(trace, w) == base + ds && Disciplined(ds)
    {
      var gate := dice(round).gate;
      Regroup(base, [], []);
      if gate.GateFails? {
        ds := LocalTurn(w, GateError, base, []);
      } else if gate.GateTimeout? && s.workers[w].phase.Throttled? {
        ds := LocalTurn(w, ThrottleTimeout(dice(round).landed), base, []);
      } else if gate.GateOpenBreaker? {
        ds := HoldBack(w, base);
      } else if gate.GateGiveUp? && s.workers[w].phase.Throttled? {
        ds := BackOff(w, base);
      } else {
        ds := CallProviderOnce(w, base);
      }
    }

    /** The breaker is open: revert without an attempt, and route to the tier of the attempt that was due. */
    method HoldBack(w: WorkerId, ghost base: seq<WorkerStep>) returns (ghost ds: seq<WorkerStep>)
      requires Valid() && WorkerEnvironment(w) && w in s.workers
      requires s.workers[w].phase.Gate? || s.workers[w].phase.Throttled?
      requires Deeds(trace, w) == base + []
      modifies this
      ensures Valid() && w in s.workers && s.workers[w].phase.Unlocking? && old(trace) <= trace
      ensures Deeds(trace, w) == base + ds && Plain(ds)
    {
      ds := LocalTurn(w, GateBreaker, base, []);
      ds := LocalTurn(w, BreakerRevert(dice(round).landed), base, ds);
      var answer, copy;
      answer, copy, ds := RouteToRetryTier(w, base, ds);
    }

    /** The throttle is sustained or the inline budget spent: revert without an attempt, and route to the 5s tier. */
    method BackOff(w: WorkerId, ghost base: seq<WorkerStep>) returns (ghost ds: seq<WorkerStep>)
      requires Valid() && WorkerEnvironment(w) && w in s.workers && s.workers[w].phase.Throttled?
      requires Deeds(trace, w) == base + []
      modifies this
      ensures Valid() && w in s.workers && s.workers[w].phase.Unlocking? && old(trace) <= trace
      ensures Deeds(trace, w) == base + ds && Plain(ds)
    {
      ds := LocalTurn(w, ThrottleRevert(dice(round).landed), base, []);
      var answer, copy;
      answer, copy, ds := RouteToRetryTier(w, base, ds);
    }

    /** The request is refused before it leaves if the deadline has passed, or by a failure on the way. */
    predicate Refuses(w: WorkerId)
      requires w in s.workers
      reads this
    {
      s.now >= s.workers[w].start + HANDLE_TIMEOUT_MS || dice(round).provider.Unreachable?
    }

    /**
     The provider call and its record: refused requests and faults are retried or given up,
     successes recorded, as the provider answered.
     */
    method CallProviderOnce(w: WorkerId, ghost base: seq<WorkerStep>) returns (ghost ds: seq<WorkerStep>)
      requires Valid() && WorkerEnvironment(w) && w in s.workers
      requires s.workers[w].phase.Gate? || s.workers[w].phase.Throttled?
      requires Deeds(trace, w) == base + []
      modifies this
      ensures Valid() && w in s.workers && s.workers[w].phase.Unlocking? && old(trace) <= trace
      ensures Deeds(trace, w) == base + ds && Disciplined(ds)
      ensures if old(Refuses(w)) then RefusedScript(ds, old(s.workers[w]), s.workers[w].phase.exit)
              else CallScript(ds, old(s.workers[w]), dice(old(round) + 1).provider, s.workers[w].phase.exit)
    {
      ghost var me := s.workers[w];
      if Refuses(w) {
        var retryable := dice(round).provider.Unreachable? ==> dice(round).provider.retryable;
        ds := LocalTurn(w, CallRefused(retryable), base, []);
        var tier;
        ds, tier := RetryOrGiveUp(w, base, ds);
        RefusedDisciplined(ds, me, s.workers[w].phase.exit);
      } else {
        ds := LocalTurn(w, CallProvider, base, []);
        ghost var p := dice(round).provider;
        ds := HearProvider(w, base, ds);
        CallDisciplined(ds, me, p, s.workers[w].phase.exit);
      }
    }

    method HearProvider(w: WorkerId, ghost base: seq<WorkerStep>, ghost ds: seq<WorkerStep>)
      returns (ghost ds': seq<WorkerStep>)
      requires Valid() && WorkerEnvironment(w) && w in s.workers && s.workers[w].phase.Calling?
      requires Deeds(trace, w) == base + ds && ds == [Local(CallProvider)]
      modifies this
      ensures Valid() && w in s.workers && s.workers[w].phase.Unlocking? && old(trace) <= trace
      ensures Deeds(trace, w) == base + ds'
      ensures CallScript(ds', old(s.workers[w]), dice(old(round)).provider, s.workers[w].phase.exit)
    {
      var p := dice(round).provider;
      ghost var me := s.workers[w];
      if p.Accepts? {
        ghost var sent, heard;
        heard := LocalTurn(w, ProviderOk, base, ds);
        ds', sent := RecordSuccess(w, base, heard);
        ScriptOfSuccess(heard, ds', me, p, sent, s.workers[w].phase.exit);
      } else {
        var tier;
        ghost var heard := LocalTurn(w, ProviderFault(p.retryable), base, ds);
        ds', tier := RetryOrGiveUp(w, base, heard);
        ScriptOfFault(heard, ds', me, p, s.workers[w].phase.exit);
      }
    }

    /** MarkSent: acked exactly if it answered and found the row sending, reverted and requeued otherwise. */
    method RecordSuccess(w: WorkerId, ghost base: seq<WorkerStep>, ghost ds: seq<WorkerStep>)
      returns (ghost ds': seq<WorkerStep>, ghost sent: bool)
      requires Valid() && WorkerEnvironment(w) && w in s.workers && s.workers[w].phase.Succeeded?
      requires Deeds(trace, w) == base + ds
      modifies this
      ensures Valid() && w in s.workers && s.workers[w].phase.Unlocking? && old(trace) <= trace
      ensures Deeds(trace, w) == base + ds' && ds <= ds'
      ensures sent <==> dice(old(round)).reply.Ok? && old(s.row.status) == Sending
      ensures AfterSuccess(ds'[|ds|..], sent, s.workers[w].phase.exit)
      ensures sent ==> Apply(old(s), Work(w, ds'[|ds|])).row.status == Sent
    {
      sent := dice(round).reply.Ok? && s.row.status == Sending;
      ds' := LocalTurn(w, SetSent(dice(round).reply), base, ds);
      if s.workers[w].phase.SentFailed? {
        ds' := LocalTurn(w, SentRevert(dice(round).landed), base, ds');
      }
    }

    /**
     A fault is retried exactly if it is retryable and the attempt budget allows, in the tier of
     the attempt that failed.
     */
    method RetryOrGiveUp(w: WorkerId, ghost base: seq<WorkerStep>, ghost ds: seq<WorkerStep>)
      returns (ghost ds': seq<WorkerStep>, tier: Option<Tier>)
      requires Valid() && WorkerEnvironment(w) && w in s.workers && s.workers[w].phase.Faulted?
      requires Deeds(trace, w) == base + ds
      modifies this
      ensures Valid() && w in s.workers && s.workers[w].phase.Unlocking? && old(trace) <= trace
      ensures Deeds(trace, w) == base + ds' && ds <= ds'
      ensures AfterFault(ds'[|ds|..], old(s.workers[w]), s.workers[w].phase.exit)
      ensures tier == if old(MayRetry(s.workers[w])) then Some(TierForAttempt(old(s.workers[w].attempts) + 1)) else None
    {
      if s.workers[w].phase.retryable && s.workers[w].attempts + 1 < MAX_ATTEMPTS {
        ds' := LocalTurn(w, RetryRevert(dice(round).landed), base, ds);
        tier := Some(s.workers[w].phase.tier);
        var answer, copy;
        answer, copy, ds' := RouteToRetryTier(w, base, ds');
      } else {
        ds' := LocalTurn(w, GiveUp(dice(round).landed), base, ds);
        tier := None;
      }
    }

    /**
     A fresh copy without x-redeliveries into the chosen tier, unless the publish failed for
     good; acked only if confirmed.
     */
    method RouteToRetryTier(w: WorkerId, ghost base: seq<WorkerStep>, ghost ds: seq<WorkerStep>)
      returns (answer: PublishReply, copy: MsgId, ghost ds': seq<WorkerStep>)
      requires Valid() && WorkerEnvironment(w) && w in s.workers && s.workers[w].phase.Routing?
      requires Deeds(trace, w) == base + ds
      modifies this
      ensures Valid() && w in s.workers && old(trace) <= trace
      ensures answer == dice(old(round)).publish && copy !in old(s.msgs)
      ensures ds' == ds + [Route(answer, copy)] && Deeds(trace, w) == base + ds' && (Plain(ds) ==> Plain(ds'))
      ensures s.workers[w].phase == Unlocking(if answer.Confirm? then ExitAck else ExitError)
      ensures var t := Apply(old(s), Work(w, Route(answer, copy)));
              var tier := old(s.workers[w].phase.tier);
              if answer.FailDropped? then t.msgs == old(s.msgs)
              else && copy in t.msgs && t.msgs[copy].redeliveries == 0
                   && t.msgs[copy].place == Waiting(tier, old(s.now) + TierTtlMs(tier))
    {
      copy := FreshId(s.msgs.Keys);
      answer := dice(round).publish;
      ds' := Turn(w, Route(answer, copy), base, ds);
    }

    /** handle: pickup, lock, attempt, deferred DEL. */
    method Inner(w: WorkerId, ghost base: seq<WorkerStep>) returns (ghost ds: seq<WorkerStep>)
      requires Valid() && WorkerEnvironment(w) && w in s.workers && s.workers[w].phase.Start?
      requires s.workers[w].redeliveries < MAX_REDELIVERIES && Deeds(trace, w) == base + []
      modifies this
      ensures Valid() && old(trace) <= trace
      ensures w in s.workers && !Busy(s.workers[w].phase) && !s.workers[w].phase.Nacking?
      ensures Deeds(trace, w) == base + ds && Disciplined(ds)
    {
      ds := LocalTurn(w, Cas(dice(round).reply), base, []);
      if s.workers[w].phase.Holding? {
        ds := EnterLock(w, base, ds);
      }
      if s.workers[w].phase.Gate? {
        ghost var more := UnderLock(w, base + ds);
        Regroup(base, ds, more);
        DisciplinedWithin(ds, more, []);
        assert ds + more + [] == ds + more;
        ds := ds + more;
      }
    }

    /** SETNX, and the revert of a worker that is refused the lock. */
    method EnterLock(w: WorkerId, ghost base: seq<WorkerStep>, ghost ds: seq<WorkerStep>)
      returns (ghost ds': seq<WorkerStep>)
      requires Valid() && WorkerEnvironment(w) && w in s.workers && s.workers[w].phase.Holding?
      requires Deeds(trace, w) == base + ds && Plain(ds)
      modifies this
      ensures Valid() && w in s.workers && old(trace) <= trace
      ensures s.workers[w].phase.Gate? || s.workers[w].phase.Requeueing? || s.workers[w].phase.Acking?
      ensures Deeds(trace, w) == base + ds' && Plain(ds')
    {
      ds' := LocalTurn(w, TryLock(dice(round).reply), base, ds);
      if s.workers[w].phase.Refused? {
        ds' := LocalTurn(w, LockRevert(dice(round).landed), base, ds');
      }
    }

    /** From the SETNX that took the lock to the deferred DEL. */
    method UnderLock(w: WorkerId, ghost base: seq<WorkerStep>) returns (ghost ds: seq<WorkerStep>)
      requires Valid() && WorkerEnvironment(w) && w in s.workers && s.workers[w].phase.Gate?
      requires Deeds(trace, w) == base
      modifies this
      ensures Valid() && old(trace) <= trace
      ensures w in s.workers && !Busy(s.workers[w].phase) && !s.workers[w].phase.Nacking?
      ensures Deeds(trace, w) == base + ds && Disciplined(ds)
    {
      ghost var tried := Attempt(w, base);
      var landed := dice(round).landed;
      ds := LocalTurn(w, Unlock(landed), base, tried);
      DisciplinedBefore(tried, Local(Unlock(landed)));
    }

    /**
     Handle and the consumer's ack policy: whatever the world answers and the others do, the
     handler comes to an end and has settled its delivery, with at most one provider call, whose
     success it has gone on to record.
     */
    method Handle(w: WorkerId) returns (ghost ds: seq<WorkerStep>)
      requires Valid() && WorkerEnvironment(w) && w in s.workers && s.workers[w].phase.Start?
      modifies this
      ensures Valid() && w !in s.workers && old(trace) < trace
      ensures Deeds(trace, w) == Deeds(old(trace), w) + ds + [Settle] && Disciplined(ds)
    {
      ghost var base := Deeds(trace, w);
      assert base == base + [];
      if s.workers[w].redeliveries >= MAX_REDELIVERIES {
        ds := LocalTurn(w, CapExceeded, base, []);
      } else {
        ds := Inner(w, base);
        if s.workers[w].phase.Requeueing? {
          var copy;
          copy, ds := RequeueViaWaitTier(w, base, ds);
        }
      }
      ghost var before := trace;
      Do(Work(w, Settle));
      DeedsOne(before, w, Settle);
    }

    /** requeueViaWaitTier: a fresh copy one redelivery higher; acked if confirmed, nacked otherwise. */
    method RequeueViaWaitTier(w: WorkerId, ghost base: seq<WorkerStep>, ghost ds: seq<WorkerStep>)
      returns (copy: MsgId, ghost ds': seq<WorkerStep>)
      requires Valid() && WorkerEnvironment(w) && w in s.workers && s.workers[w].phase.Requeueing?
      requires Deeds(trace, w) == base + ds && Disciplined(ds)
      modifies this
      ensures Valid() && w in s.workers && old(trace) <= trace
      ensures s.workers[w].phase == if dice(old(round)).publish.Confirm? then Acking else Nacking
      ensures ds' == ds + [Requeue(dice(old(round)).publish, copy)] && copy !in old(s.msgs)
      ensures Deeds(trace, w) == base + ds' && Disciplined(ds')
      ensures var t := Apply(old(s), Work(w, Requeue(dice(old(round)).publish, copy)));
              if dice(old(round)).publish.FailDropped? then t.msgs == old(s.msgs)
              else && copy in t.msgs && t.msgs[copy].redeliveries == old(s.workers[w].redeliveries) + 1
                   && t.msgs[copy].place == Waiting(FiveSeconds, old(s.now) + 5_000)
    {
      copy := FreshId(s.msgs.Keys);
      ds' := Turn(w, Requeue(dice(round).publish, copy), base, ds);
      DisciplinedBefore(ds, ds'[|ds|]);
    }

    // ---- outbox Dispatcher.publishRow -----------------------------------------------------------

    /** One step of dispatcher d that does not end it, then everybody else; ds grows by it. */
    method DispatchTurn(d: DispatcherId, doing: DispatchStep,
                        ghost base: seq<DispatchStep>, ghost ds: seq<DispatchStep>)
      returns (ghost ds': seq<DispatchStep>)
      requires Valid() && DispatcherEnvironment(d) && DispatchEnabled(s, d, doing)
      requires Placed(DispatchApply(s, d, doing), d) && Doings(trace, d) == base + ds
      modifies this
      ensures Valid() && old(trace) <= trace && round == old(round) + 1
      ensures Placed(s, d) && s.dispatchers[d] == DispatchApply(old(s), d, doing).dispatchers[d]
      ensures ds' == ds + [doing] && Doings(trace, d) == base + ds'
    {
      ghost var steps := others(round, DispatchApply(s, d, doing));
      DoingsTurn(trace, d, doing, steps, base, ds);
      DispatchTurnWaits(s, d, doing, steps);
      Do(Dispatch(d, doing));
      Yield();
      ds' := ds + [doing];
    }

    /** The last step of dispatcher d on its row. */
    method DispatchEnd(d: DispatcherId, doing: DispatchStep, ghost base: seq<DispatchStep>, ghost ds: seq<DispatchStep>)
      returns (ghost ds': seq<DispatchStep>)
      requires Valid() && DispatchEnabled(s, d, doing) && d !in DispatchApply(s, d, doing).dispatchers
      requires Doings(trace, d) == base + ds
      modifies this
      ensures Valid() && old(trace) < trace && d !in s.dispatchers
      ensures ds' == ds + [doing] && Doings(trace, d) == base + ds'
    {
      DoingsOne(trace, d, doing, base, ds);
      Do(Dispatch(d, doing));
      ds' := ds + [doing];
    }

    /**
     publishRow: one publish of a fresh message, with what belongs to its outcome.  A confirmed row
     is marked, and its notification queued exactly if the mark was answered; a failure is recorded
     below the attempt limit, and at the limit the notification is dead-lettered and the row closed.
     */
    method PublishRow(d: DispatcherId) returns (m: MsgId, ghost ds: seq<DispatchStep>)
      requires Valid() && DispatcherEnvironment(d)
      requires Placed(s, d) && s.dispatchers[d].phase.Claimed?
      modifies this
      ensures Valid() && d !in s.dispatchers && old(trace) < trace
      ensures Doings(trace, d) == Doings(old(trace), d) + ds && m !in old(s.msgs)
      ensures |ds| >= 2 && ds[0] == Publish(dice(old(round)).publish, m)
      ensures if dice(old(round)).publish.Confirm? then AfterConfirm(ds[1..], dice(old(round) + 1).reply)
              else AfterPublishFailure(ds[1..], old(s.dispatchers[d].attempts))
    {
      ghost var base := Doings(trace, d);
      assert base == base + [];
      m := FreshId(s.msgs.Keys);
      PublishLeads(s, d, dice(round).publish, m);
      ds := DispatchTurn(d, Publish(dice(round).publish, m), base, []);
      if s.dispatchers[d].phase.PublishFailed? {
        ds := MarkFailure(d, base, ds);
      } else {
        ds := MarkSuccess(d, base, ds);
      }
    }

    method MarkSuccess(d: DispatcherId, ghost base: seq<DispatchStep>, ghost ds: seq<DispatchStep>)
      returns (ghost ds': seq<DispatchStep>)
      requires Valid() && DispatcherEnvironment(d)
      requires Placed(s, d) && s.dispatchers[d].phase.Confirmed? && Doings(trace, d) == base + ds
      modifies this
      ensures Valid() && d !in s.dispatchers && old(trace) < trace
      ensures Doings(trace, d) == base + ds' && ds <= ds' && AfterConfirm(ds'[|ds|..], dice(old(round)).reply)
    {
      var reply := dice(round).reply;
      if reply.Ok? {
        ds' := DispatchTurn(d, MarkPublished(Ok), base, ds);
        ds' := DispatchEnd(d, QueueRow(dice(round).landed), base, ds');
      } else {
        ds' := DispatchEnd(d, MarkPublished(reply), base, ds);
      }
    }

    method MarkFailure(d: DispatcherId, ghost base: seq<DispatchStep>, ghost ds: seq<DispatchStep>)
      returns (ghost ds': seq<DispatchStep>)
      requires Valid() && DispatcherEnvironment(d)
      requires Placed(s, d) && s.dispatchers[d].phase.PublishFailed? && Doings(trace, d) == base + ds
      modifies this
      ensures Valid() && d !in s.dispatchers && old(trace) < trace
      ensures Doings(trace, d) == base + ds' && ds <= ds'
      ensures AfterPublishFailure(ds'[|ds|..], old(s.dispatchers[d].attempts))
    {
      if s.dispatchers[d].attempts + 1 >= MAX_ATTEMPTS {
        ds' := DispatchTurn(d, DeadLetterRow(dice(round).landed), base, ds);
        ds' := DispatchEnd(d, CloseRow(dice(round).landed), base, ds');
      } else {
        ds' := DispatchEnd(d, RecordFailure(dice(round).landed), base, ds);
      }
    }
  }

  // ---- SendingSweeper.tick ------------------------------------------------------------------------

  predicate Stuck(s: State) {
    SweepStuckSending(s.row, s.now).Updated?
  }

  /**
   One sweep over all notifications, in one transaction: either every stuck row is requeued
   together with its fresh outbox row, or nothing changes; other rows are left alone, and a second
   sweep at the same time would find nothing.
   */
  method SweepTick(rows: seq<State>, commits: bool) returns (out: seq<State>)
    ensures |out| == |rows|
    ensures !commits ==> out == rows
    ensures commits ==> forall i :: 0 <= i < |rows| ==>
              && (!Stuck(rows[i]) ==> out[i] == rows[i])
              && (Stuck(rows[i]) ==> exists o :: SweepEnabled(rows[i], o) && out[i] == Apply(rows[i], Sweep(o)))
              && !Stuck(out[i])
  {
    out := rows;
    if !commits {
      return;
    }
    var i := 0;
    while i < |rows|
      invariant 0 <= i <= |rows| == |out|
      invariant forall j :: i <= j < |rows| ==> out[j] == rows[j]
      invariant forall j :: 0 <= j < i ==>
                  && (!Stuck(rows[j]) ==> out[j] == rows[j])
                  && (Stuck(rows[j]) ==> exists o :: SweepEnabled(rows[j], o) && out[j] == Apply(rows[j], Sweep(o)))
                  && !Stuck(out[j])
    {
      if Stuck(rows[i]) {
        var o := FreshId(rows[i].outbox.Keys);
        assert SweepEnabled(rows[i], o);
        out := out[i := Apply(rows[i], Sweep(o))];
      }
      i := i + 1;
    }
  }
}
