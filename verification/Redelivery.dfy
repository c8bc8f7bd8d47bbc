/**
 Redelivery terminates.  Every way a message comes back to a worker either raises its
 x-redeliveries header, or drops the header and pays with attempt_count, or is counted as a
 bounce; the header is capped at 20 and the payments at 9 per life of the notification.
 */
module Redelivery {
  import opened Notifications
  import opened Delivery
  import opened Accounting

  /**
   How often a line of messages with r redeliveries may have been handled when it is due again;
   21 is MAX_REDELIVERIES + 1.
   */
  function Budget(taken: nat, bounces: nat, r: nat): nat {
    21 * (taken + bounces) + r
  }

  predicate MsgWithin(taken: nat, m: Msg) {
    && m.redeliveries <= MAX_REDELIVERIES
    && m.handled <= Budget(taken, m.bounces, m.redeliveries) + if m.place.Unacked? || m.place.Dead? then 1 else 0
  }

  predicate WorkerWithin(taken: nat, me: Worker) {
    && me.redeliveries <= MAX_REDELIVERIES
    && (me.phase.Start? || me.phase.DeadLettering? || me.redeliveries < MAX_REDELIVERIES)
    && me.handled + (if me.phase.Routing? && me.phase.paid then MAX_REDELIVERIES + 1 else 0)
         <= Budget(taken, me.bounces, me.redeliveries) + 1
  }

  ghost predicate AllWithin(msgs: map<MsgId, Msg>, workers: map<WorkerId, Worker>, taken: nat) {
    && (forall m :: m in msgs ==> MsgWithin(taken, msgs[m]))
    && (forall w :: w in workers ==> WorkerWithin(taken, workers[w]))
  }

  ghost predicate Within(s: State) {
    AllWithin(s.msgs, s.workers, s.ledger.taken)
  }

  lemma WithinPut(msgs: map<MsgId, Msg>, workers: map<WorkerId, Worker>, taken: nat,
                  m: MsgId, copy: Msg, w: WorkerId, me: Worker)
    requires AllWithin(msgs, workers, taken) && MsgWithin(taken, copy) && WorkerWithin(taken, me)
    ensures AllWithin(msgs, workers[w := me], taken) && AllWithin(msgs[m := copy], workers[w := me], taken)
  {
  }

  lemma WithinMore(msgs: map<MsgId, Msg>, workers: map<WorkerId, Worker>, taken: nat, more: nat)
    requires AllWithin(msgs, workers, taken) && taken <= more
    ensures AllWithin(msgs, workers, more)
  {
  }

  lemma WithinHandler(msgs: map<MsgId, Msg>, workers: map<WorkerId, Worker>, taken: nat, w: WorkerId, me: Worker)
    requires AllWithin(msgs, workers, taken) && WorkerWithin(taken, me)
    ensures AllWithin(msgs, workers[w := me], taken)
  {
  }

  /** A retry that takes pays for the copy it is about to leave. */
  lemma HandlerWithin(s: State, w: WorkerId, act: LocalStep)
    requires w in s.workers && WorkerWithin(s.ledger.taken, s.workers[w]) && LocalEnabled(s.workers[w], act)
    ensures var e := LocalEffect(s, w, act);
            s.ledger.taken <= e.ledger.taken
            && WorkerWithin(e.ledger.taken, s.workers[w].(phase := e.phase, attempts := e.attempts))
  {
  }

  lemma WithinLocal(s: State, w: WorkerId, act: LocalStep)
    requires Within(s) && w in s.workers && LocalEnabled(s.workers[w], act)
    ensures Within(LocalApply(s, w, LocalEffect(s, w, act)))
  {
    var e := LocalEffect(s, w, act);
    var me := s.workers[w].(phase := e.phase, attempts := e.attempts);
    HandlerWithin(s, w, act);
    WithinMore(s.msgs, s.workers, s.ledger.taken, e.ledger.taken);
    WithinHandler(s.msgs, s.workers, e.ledger.taken, w, me);
  }

  lemma WithinRoute(s: State, w: WorkerId, answer: PublishReply, copy: MsgId)
    requires Within(s) && WorkerEnabled(s, w, Route(answer, copy))
    ensures Within(WorkerApply(s, w, Route(answer, copy)))
  {
    assert WorkerWithin(s.ledger.taken, s.workers[w]);
    assert MsgWithin(s.ledger.taken, RetryCopy(s, w));
    var me := s.workers[w].(phase := Unlocking(if answer.Confirm? then ExitAck else ExitError));
    WithinPut(s.msgs, s.workers, s.ledger.taken, copy, RetryCopy(s, w), w, me);
  }

  lemma WithinRequeue(s: State, w: WorkerId, answer: PublishReply, copy: MsgId)
    requires Within(s) && WorkerEnabled(s, w, Requeue(answer, copy))
    ensures Within(WorkerApply(s, w, Requeue(answer, copy)))
  {
    assert WorkerWithin(s.ledger.taken, s.workers[w]);
    assert MsgWithin(s.ledger.taken, RequeueCopy(s, w));
    var me := s.workers[w].(phase := if answer.Confirm? then Acking else Nacking);
    WithinPut(s.msgs, s.workers, s.ledger.taken, copy, RequeueCopy(s, w), w, me);
  }

  lemma WithinEnd(s: State, w: WorkerId, deed: WorkerStep)
    requires Within(s) && WorkerEnabled(s, w, deed) && (deed.Settle? || deed.Crash? || deed.ConnectionLost?)
    ensures Within(WorkerApply(s, w, deed))
  {
  }

  lemma WithinDispatch(s: State, d: DispatcherId, doing: DispatchStep)
    requires Within(s) && DispatchEnabled(s, d, doing)
    ensures Within(DispatchApply(s, d, doing))
  {
    var t := DispatchApply(s, d, doing);
    assert t.ledger.taken == s.ledger.taken && t.workers == s.workers;
    assert forall m :: m in t.msgs ==> t.msgs[m] == Msg(Ready, 0, 0, 0) || (m in s.msgs && t.msgs[m] == s.msgs[m]);
  }

  lemma WithinExpiry(s: State, m: MsgId)
    requires Within(s) && Enabled(s, Expire(m))
    ensures Within(Apply(s, Expire(m)))
  {
    assert MsgWithin(s.ledger.taken, s.msgs[m]);
  }

  lemma WithinDelivery(s: State, m: MsgId, w: WorkerId)
    requires Within(s) && Enabled(s, Deliver(m, w))
    ensures Within(Apply(s, Deliver(m, w)))
  {
    assert MsgWithin(s.ledger.taken, s.msgs[m]);
  }

  lemma WithinElsewhere(s: State, step: Step)
    requires Within(s) && Enabled(s, step) && !step.Work? && !step.Dispatch?
    ensures Within(Apply(s, step))
  {
    if step.Deliver? {
      WithinDelivery(s, step.msg, step.worker);
    } else if step.Expire? {
      WithinExpiry(s, step.msg);
    } else if !step.Tick? {
      BystandersLeave(s, step);
    }
  }

  lemma {:induction false} WithinAlong(s: State, steps: seq<Step>)
    requires Within(s) && IsRun(s, steps)
    ensures Within(Final(s, steps))
    decreases |steps|
  {
    if steps != [] {
      var step := steps[0];
      if step.Work? && step.deed.Local? {
        WithinLocal(s, step.worker, step.deed.act);
      } else if step.Work? && step.deed.Route? {
        WithinRoute(s, step.worker, step.deed.answer, step.deed.copy);
      } else if step.Work? && step.deed.Requeue? {
        WithinRequeue(s, step.worker, step.deed.answer, step.deed.copy);
      } else if step.Work? {
        WithinEnd(s, step.worker, step.deed);
      } else if step.Dispatch? {
        WithinDispatch(s, step.dispatcher, step.doing);
      } else {
        WithinElsewhere(s, step);
      }
      WithinAlong(Apply(s, steps[0]), steps[1..]);
    }
  }

  /**
   A message, with all the messages it was copied from, is handed to workers at most 210
   times, plus 21 for every bounce in its line and 189 for every replay of its notification.
   */
  lemma RedeliveryTerminates(s: State, steps: seq<Step>, m: MsgId)
    requires Init(s) && IsRun(s, steps) && m in Final(s, steps).msgs
    ensures var t := Final(s, steps);
            t.msgs[m].handled <= 210 + 21 * t.msgs[m].bounces + 189 * t.ledger.replays
  {
    WithinAlong(s, steps);
    BooksAlong(s, steps);
    assert MsgWithin(Final(s, steps).ledger.taken, Final(s, steps).msgs[m]);
  }

  // ---- the measure of one re-handling --------------------------------------------------

  /** Without replays attempt_count only grows, and a paid retry has raised it above what its worker read. */
  ghost predicate Ranked(s: State) {
    SentAtCheck(s.row) && forall w :: w in s.workers ==>
      && s.workers[w].attempts <= s.row.attempts
      && (s.workers[w].phase.Routing? && s.workers[w].phase.paid ==>
            s.workers[w].attempts < s.row.attempts && s.workers[w].attempts + 1 < MAX_ATTEMPTS)
  }

  /** What a local step does to attempt_count and to its handler's reading of it. */
  predicate Raises(s: State, w: WorkerId, e: Effect)
    requires w in s.workers
  {
    && SentAtCheck(e.row) && s.row.attempts <= e.row.attempts
    && (e.attempts == s.workers[w].attempts || e.attempts == e.row.attempts)
    && (e.phase.Routing? && e.phase.paid ==> e.attempts < e.row.attempts && e.attempts + 1 < MAX_ATTEMPTS)
  }

  lemma RankedRow(s: State, w: WorkerId, act: LocalStep)
    requires SentAtCheck(s.row) && w in s.workers && LocalEnabled(s.workers[w], act)
    ensures Raises(s, w, LocalEffect(s, w, act))
  {
  }

  lemma RankedEffect(s: State, w: WorkerId, e: Effect)
    requires Ranked(s) && w in s.workers && Raises(s, w, e)
    ensures Ranked(LocalApply(s, w, e))
  {
  }

  lemma RankedLocal(s: State, w: WorkerId, act: LocalStep)
    requires Ranked(s) && w in s.workers && LocalEnabled(s.workers[w], act)
    ensures Ranked(LocalApply(s, w, LocalEffect(s, w, act)))
  {
    RankedRow(s, w, act);
    RankedEffect(s, w, LocalEffect(s, w, act));
  }

  lemma RankedDispatch(s: State, d: DispatcherId, doing: DispatchStep)
    requires Ranked(s) && DispatchEnabled(s, d, doing)
    ensures Ranked(DispatchApply(s, d, doing))
  {
    assert DispatchApply(s, d, doing).workers == s.workers;
  }

  lemma RankedMessage(s: State, w: WorkerId, deed: WorkerStep)
    requires Ranked(s) && WorkerEnabled(s, w, deed) && !deed.Local?
    ensures Ranked(WorkerApply(s, w, deed))
  {
  }

  lemma RankedElsewhere(s: State, step: Step)
    requires Ranked(s) && Enabled(s, step) && !step.Work? && !step.Dispatch? && !step.ReplayWrite?
    ensures Ranked(Apply(s, step))
  {
    var t := Apply(s, step);
    assert s.row.attempts <= t.row.attempts && SentAtCheck(t.row);
    if !step.Deliver? {
      assert t.workers == s.workers;
    }
  }

  lemma RankedStep(s: State, step: Step)
    requires Ranked(s) && Enabled(s, step) && !step.ReplayWrite?
    ensures Ranked(Apply(s, step))
  {
    if step.Work? && step.deed.Local? {
      RankedLocal(s, step.worker, step.deed.act);
    } else if step.Work? {
      RankedMessage(s, step.worker, step.deed);
    } else if step.Dispatch? {
      RankedDispatch(s, step.dispatcher, step.doing);
    } else {
      RankedElsewhere(s, step);
    }
  }

  lemma {:induction false} RankedAlong(s: State, steps: seq<Step>)
    requires Ranked(s) && IsRun(s, steps) && NoReplay(steps)
    ensures Ranked(Final(s, steps))
    decreases |steps|
  {
    if steps != [] {
      RankedStep(s, steps[0]);
      RankedAlong(Apply(s, steps[0]), steps[1..]);
    }
  }

  function Left(attempts: nat): nat {
    if attempts < MAX_ATTEMPTS then MAX_ATTEMPTS - attempts else 0
  }

  /** (a, r) precedes (b, q): fewer attempts left, or as many and fewer redeliveries left. */
  predicate Lower(a: nat, r: int, b: nat, q: int) {
    a < b || (a == b && r < q)
  }

  /** attempt_count has risen, below its cap, above what handler w read. */
  predicate Raised(s: State, w: WorkerId)
    requires w in s.workers
  {
    s.workers[w].attempts < s.row.attempts && s.workers[w].attempts < MAX_ATTEMPTS
  }

  /**
   In a run without replays, the copy a handler leaves behind ranks lower in
   (attempts left, redeliveries left) than the delivery it handled if and only if it is a requeue
   or attempt_count has risen, although the retry tier clears x-redeliveries; a retry that paid has
   raised it itself, a throttled or breaker-bounced one has not.
   */
  lemma CopyRanksLower(s: State, steps: seq<Step>, w: WorkerId, deed: WorkerStep)
    requires Init(s) && IsRun(s, steps) && NoReplay(steps)
    requires WorkerEnabled(Final(s, steps), w, deed) && (deed.Route? || deed.Requeue?)
    ensures var t := Final(s, steps);
            var copy := if deed.Route? then RetryCopy(t, w) else RequeueCopy(t, w);
            && (Lower(Left(t.row.attempts), MAX_REDELIVERIES - copy.redeliveries,
                      Left(t.workers[w].attempts), MAX_REDELIVERIES - t.workers[w].redeliveries)
                <==> deed.Requeue? || Raised(t, w))
            && (deed.Route? && t.workers[w].phase.paid ==> Raised(t, w))
  {
    RankedAlong(s, steps);
  }

  // ---- from one delivery to the next -----------------------------------------------------

  lemma AttemptsClimb(s: State, step: Step)
    requires SentAtCheck(s.row) && Enabled(s, step) && !step.ReplayWrite?
    ensures SentAtCheck(Apply(s, step).row) && s.row.attempts <= Apply(s, step).row.attempts
  {
    if step.Work? && step.deed.Local? {
      RankedRow(s, step.worker, step.deed.act);
    }
  }

  /** The header of a message never changes; only copies carry another one. */
  lemma HeaderKept(s: State, step: Step, m: MsgId)
    requires Enabled(s, step) && m in s.msgs && m in Apply(s, step).msgs
    ensures Apply(s, step).msgs[m].redeliveries == s.msgs[m].redeliveries
  {
    if Bystander(step) {
      BystandersLeave(s, step);
    }
  }

  ghost predicate MessageStays(s: State, steps: seq<Step>, m: MsgId)
    requires IsRun(s, steps)
    decreases |steps|
  {
    m in s.msgs && (steps == [] || MessageStays(Apply(s, steps[0]), steps[1..], m))
  }

  lemma {:induction false} MessageRankFalls(s: State, steps: seq<Step>, m: MsgId)
    requires SentAtCheck(s.row) && IsRun(s, steps) && NoReplay(steps) && MessageStays(s, steps, m)
    ensures var t := Final(s, steps);
            m in t.msgs && t.msgs[m].redeliveries == s.msgs[m].redeliveries && s.row.attempts <= t.row.attempts
    decreases |steps|
  {
    if steps != [] {
      AttemptsClimb(s, steps[0]);
      HeaderKept(s, steps[0], m);
      MessageRankFalls(Apply(s, steps[0]), steps[1..], m);
    }
  }

  lemma HandlerKept(s: State, v: WorkerId, deed: WorkerStep, w: WorkerId)
    requires WorkerEnabled(s, v, deed) && !deed.Local? && w in s.workers && w in WorkerApply(s, v, deed).workers
    ensures var me := WorkerApply(s, v, deed).workers[w];
            me.attempts == s.workers[w].attempts && me.redeliveries == s.workers[w].redeliveries
  {
  }

  lemma HandlersKept(s: State, d: DispatcherId, doing: DispatchStep)
    requires DispatchEnabled(s, d, doing)
    ensures DispatchApply(s, d, doing).workers == s.workers
  {
  }

  /** What a handler has read of attempt_count only grows, and its delivery's header stays. */
  lemma HandlerRankFallsStep(s: State, step: Step, w: WorkerId)
    requires Ranked(s) && Enabled(s, step) && w in s.workers && w in Apply(s, step).workers
    ensures var me := Apply(s, step).workers[w];
            s.workers[w].attempts <= me.attempts && me.redeliveries == s.workers[w].redeliveries
  {
    if step.Work? && step.deed.Local? {
      RankedRow(s, step.worker, step.deed.act);
    } else if step.Work? {
      HandlerKept(s, step.worker, step.deed, w);
    } else if step.Dispatch? {
      HandlersKept(s, step.dispatcher, step.doing);
    } else if Bystander(step) {
      BystandersLeave(s, step);
    }
  }

  ghost predicate HandlerStays(s: State, steps: seq<Step>, w: WorkerId)
    requires IsRun(s, steps)
    decreases |steps|
  {
    w in s.workers && (steps == [] || HandlerStays(Apply(s, steps[0]), steps[1..], w))
  }

  lemma {:induction false} HandlerRankFalls(s: State, steps: seq<Step>, w: WorkerId)
    requires Ranked(s) && IsRun(s, steps) && NoReplay(steps) && HandlerStays(s, steps, w)
    ensures var t := Final(s, steps);
            && Ranked(t) && w in t.workers
            && s.workers[w].attempts <= t.workers[w].attempts && t.workers[w].redeliveries == s.workers[w].redeliveries
    decreases |steps|
  {
    if steps != [] {
      RankedStep(s, steps[0]);
      HandlerRankFallsStep(s, steps[0], w);
      HandlerRankFalls(Apply(s, steps[0]), steps[1..], w);
    }
  }

  /** The copy a handler leaves behind by a requeue or through a retry tier. */
  ghost predicate LeavesCopy(s: State, w: WorkerId, deed: WorkerStep, copy: MsgId) {
    && WorkerEnabled(s, w, deed) && (deed.Requeue? || deed.Route?)
    && deed.copy == copy && !deed.answer.FailDropped?
  }

  /** (attempts left, redeliveries left) as a handler sees them. */
  predicate RanksBelow(a: Worker, b: Worker) {
    Lower(Left(a.attempts), MAX_REDELIVERIES - a.redeliveries, Left(b.attempts), MAX_REDELIVERIES - b.redeliveries)
  }

  lemma CopyLeft(t: State, w: WorkerId, deed: WorkerStep, copy: MsgId)
    requires Ranked(t) && LeavesCopy(t, w, deed, copy)
    ensures var b := WorkerApply(t, w, deed);
            && b.row == t.row && copy in b.msgs && t.workers[w].attempts <= t.row.attempts
            && b.msgs[copy].redeliveries == (if deed.Requeue? then t.workers[w].redeliveries + 1 else 0)
            && (deed.Route? && t.workers[w].phase.paid ==> Raised(t, w))
  {
  }

  /** Handler w takes message m in state z, without a replay until it leaves a copy behind in state t. */
  ghost predicate HandledUntil(z: State, m: MsgId, w: WorkerId, during: seq<Step>, t: State) {
    && Enabled(z, Deliver(m, w)) && NoReplay(during)
    && Leads(Apply(z, Deliver(m, w)), during, t) && HandlerStays(Apply(z, Deliver(m, w)), during, w)
  }

  /** That copy, left by w in state t, stays without a replay until state y. */
  ghost predicate WaitsUntil(t: State, w: WorkerId, deed: WorkerStep, copy: MsgId, after: seq<Step>, y: State) {
    && LeavesCopy(t, w, deed, copy) && NoReplay(after)
    && Leads(WorkerApply(t, w, deed), after, y) && MessageStays(WorkerApply(t, w, deed), after, copy)
  }

  lemma HandlingFalls(z: State, m: MsgId, w: WorkerId, during: seq<Step>, t: State)
    requires Ranked(z) && HandledUntil(z, m, w, during, t)
    ensures Ranked(t) && w in t.workers && z.row.attempts <= t.workers[w].attempts
    ensures t.workers[w].redeliveries == z.msgs[m].redeliveries
  {
    RankedStep(z, Deliver(m, w));
    HandlerRankFalls(Apply(z, Deliver(m, w)), during, w);
  }

  lemma WaitingFalls(t: State, w: WorkerId, deed: WorkerStep, copy: MsgId, after: seq<Step>, y: State)
    requires Ranked(t) && WaitsUntil(t, w, deed, copy, after, y)
    ensures t.workers[w].attempts <= t.row.attempts <= y.row.attempts && copy in y.msgs
    ensures y.msgs[copy].redeliveries == if deed.Requeue? then t.workers[w].redeliveries + 1 else 0
    ensures deed.Route? && t.workers[w].phase.paid ==> Raised(t, w)
  {
    CopyLeft(t, w, deed, copy);
    MessageRankFalls(WorkerApply(t, w, deed), after, copy);
  }

  /**
   When re-handling descends.  In a run without replays: message m is delivered to handler w, w
   leaves a copy behind, and that copy is delivered to handler v.  Then v starts strictly lower in
   (attempts left, redeliveries left) than w started if and only if the copy is a requeue or fewer
   attempts are left at the second delivery than at the first; so after every requeue, every retry
   that paid, and every other one whose row was raised meanwhile.
   */
  lemma ReHandlingDescends(s: State, before: seq<Step>, z: State, m: MsgId, w: WorkerId, during: seq<Step>, t: State,
                           deed: WorkerStep, copy: MsgId, after: seq<Step>, y: State, v: WorkerId)
    requires Init(s) && NoReplay(before) && Leads(s, before, z)
    requires HandledUntil(z, m, w, during, t) && WaitsUntil(t, w, deed, copy, after, y)
    requires Enabled(y, Deliver(copy, v))
    ensures var a, b := Apply(z, Deliver(m, w)).workers[w], Apply(y, Deliver(copy, v)).workers[v];
            && (RanksBelow(b, a) <==> deed.Requeue? || Left(y.row.attempts) < Left(z.row.attempts))
            && (deed.Route? && (t.workers[w].phase.paid || Raised(t, w)) ==> RanksBelow(b, a))
  {
    RankedAlong(s, before);
    HandlingFalls(z, m, w, during, t);
    WaitingFalls(t, w, deed, copy, after, y);
  }
}
