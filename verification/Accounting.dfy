/**
 What the counters of a notification mean: which writes make up attempt_count, how many
 provider faults are retried and through which wait tiers, where every provider success went,
 and how often one message can be handled.
 */
module Accounting {
  import opened Notifications
  import opened Topology
  import opened Delivery

  // ---- attempts and the retry ladder ---------------------------------------------------

  predicate Laddered(tiers: seq<Tier>) {
    forall i :: 0 <= i < |tiers| ==> tiers[i] == TierForAttempt(i + 1)
  }

  predicate Attempts(row: Row, life: Life) {
    && row.attempts == life.retryReverts + life.sentReverts + life.sweeps
    && life.taken <= life.retryReverts <= life.taken + life.displaced
    && life.taken < MAX_ATTEMPTS
    && |life.retryTiers| == life.taken + life.displaced
    && (life.displaced == 0 && life.sentReverts == 0 && life.sweeps == 0 ==> Laddered(life.retryTiers))
  }

  predicate Books(s: State) {
    && SentAtCheck(s.row)
    && Attempts(s.row, s.life)
    && s.ledger.taken <= 9 * s.ledger.replays + s.life.taken
  }

  lemma BooksLocal(s: State, w: WorkerId, act: LocalStep)
    requires Books(s) && w in s.workers && LocalEnabled(s.workers[w], act)
    ensures Books(LocalApply(s, w, LocalEffect(s, w, act)))
  {
  }

  lemma BooksDispatch(s: State, d: DispatcherId, doing: DispatchStep)
    requires Books(s) && DispatchEnabled(s, d, doing)
    ensures Books(DispatchApply(s, d, doing))
  {
  }

  lemma BooksElsewhere(s: State, step: Step)
    requires Books(s) && Enabled(s, step) && !step.Work? && !step.Dispatch?
    ensures Books(Apply(s, step))
  {
    var t := Apply(s, step);
    if !step.Sweep? && !step.ReplayWrite? {
      assert t.life == s.life && t.row.attempts == s.row.attempts && SentAtCheck(t.row);
      assert t.ledger.taken == s.ledger.taken && t.ledger.replays == s.ledger.replays;
    }
  }

  lemma BooksMessage(s: State, w: WorkerId, deed: WorkerStep)
    requires Books(s) && WorkerEnabled(s, w, deed) && !deed.Local?
    ensures Books(WorkerApply(s, w, deed))
  {
    var t := WorkerApply(s, w, deed);
    assert t.life == s.life && t.row == s.row;
    assert t.ledger.taken == s.ledger.taken && t.ledger.replays == s.ledger.replays;
  }

  lemma BooksStep(s: State, step: Step)
    requires Books(s) && Enabled(s, step)
    ensures Books(Apply(s, step))
  {
    if step.Work? && step.deed.Local? {
      BooksLocal(s, step.worker, step.deed.act);
    } else if step.Work? {
      BooksMessage(s, step.worker, step.deed);
    } else if step.Dispatch? {
      BooksDispatch(s, step.dispatcher, step.doing);
    } else {
      BooksElsewhere(s, step);
    }
  }

  lemma {:induction false} BooksAlong(s: State, steps: seq<Step>)
    requires Books(s) && IsRun(s, steps)
    ensures Books(Final(s, steps))
    decreases |steps|
  {
    if steps != [] {
      BooksStep(s, steps[0]);
      BooksAlong(Apply(s, steps[0]), steps[1..]);
    }
  }

  /**
   Since creation or the last replay, attempt_count is the number of effective retry reverts,
   MarkSent-failure reverts and sweeps, and of nothing else.
   */
  lemma AttemptCount(s: State, steps: seq<Step>)
    requires Init(s) && IsRun(s, steps)
    ensures var t := Final(s, steps);
            t.row.attempts == t.life.retryReverts + t.life.sentReverts + t.life.sweeps
  {
    BooksAlong(s, steps);
  }

  /**
   At most 9 retried provider faults find their row as they picked it up; if all do, at most 9
   are retried.  While only retry reverts raised the counter, the n-th retry waits in the n-th
   tier of 5s, 30s, 5m, 5m, ...
   */
  lemma RetryLadder(s: State, steps: seq<Step>)
    requires Init(s) && IsRun(s, steps)
    ensures var l := Final(s, steps).life;
            && l.taken <= 9
            && (l.displaced == 0 ==> |l.retryTiers| <= 9)
            && (l.displaced == 0 && l.sentReverts == 0 && l.sweeps == 0 ==>
                  forall i :: 0 <= i < |l.retryTiers| ==>
                    l.retryTiers[i] == if i == 0 then FiveSeconds else if i == 1 then ThirtySeconds else FiveMinutes)
  {
    BooksAlong(s, steps);
  }

  /** Fewer than 9 reverts and sweeps have raised the counter, and the fault allows another attempt. */
  predicate Retries(s: State, w: WorkerId)
    requires w in s.workers && s.workers[w].phase.Faulted?
  {
    s.workers[w].phase.retryable && s.life.retryReverts + s.life.sentReverts + s.life.sweeps < 9
  }

  lemma FaultDecisionAt(s: State, w: WorkerId, landed: bool)
    requires Books(s) && w in s.workers && s.workers[w].phase.Faulted? && s.workers[w].attempts == s.row.attempts
    ensures LocalEnabled(s.workers[w], RetryRevert(landed)) <==> Retries(s, w)
    ensures LocalEnabled(s.workers[w], GiveUp(landed)) <==> !Retries(s, w)
    ensures s.life.taken == 9 ==> !Retries(s, w)
    ensures !Retries(s, w) ==> LocalEffect(s, w, GiveUp(landed)).phase == Unlocking(ExitTerminal)
    ensures !Retries(s, w) && s.row.status != Sent ==> LocalEffect(s, w, GiveUp(true)).row.status == DeadLetter
  {
  }

  /**
   The fault after the last retry dead-letters.  In every run, a handler whose provider call failed
   and whose row still has the attempt_count it picked up may retry exactly when the fault is
   retryable and fewer than 9 reverts and sweeps have raised the counter; otherwise it gives up, and
   its write takes every row but a sent one to dead_letter.  After 9 retries that took it can only
   give up.
   */
  lemma FaultDecision(s: State, steps: seq<Step>, w: WorkerId, landed: bool)
    requires Init(s) && IsRun(s, steps) && w in Final(s, steps).workers
    requires Final(s, steps).workers[w].phase.Faulted?
    requires Final(s, steps).workers[w].attempts == Final(s, steps).row.attempts
    ensures var t := Final(s, steps);
            && (LocalEnabled(t.workers[w], RetryRevert(landed)) <==> Retries(t, w))
            && (LocalEnabled(t.workers[w], GiveUp(landed)) <==> !Retries(t, w))
            && (t.life.taken == 9 ==> !Retries(t, w))
            && (!Retries(t, w) && t.row.status != Sent ==> LocalEffect(t, w, GiveUp(true)).row.status == DeadLetter)
  {
    BooksAlong(s, steps);
    FaultDecisionAt(Final(s, steps), w, landed);
  }

  // ---- provider successes --------------------------------------------------------------

  ghost function InGap(workers: map<WorkerId, Worker>): set<WorkerId> {
    set w | w in workers && workers[w].phase.Succeeded?
  }

  ghost predicate Tallied(s: State) {
    && SentAtCheck(s.row)
    && s.ledger.successes ==
         s.ledger.sentWrites + |InGap(s.workers)| + s.ledger.sentMisses + s.ledger.crashedAfterSuccess
    && s.ledger.sentWrites <= s.ledger.replays + (if s.row.status == Sent then 1 else 0)
    && (s.row.status == Sent ==> s.ledger.sentWrites >= 1)
  }

  lemma GapAfter(ws: map<WorkerId, Worker>, w: WorkerId, me: Worker)
    requires w in ws
    ensures |InGap(ws[w := me])| + (if ws[w].phase.Succeeded? then 1 else 0)
         == |InGap(ws)| + (if me.phase.Succeeded? then 1 else 0)
  {
    var rest := InGap(ws) - {w};
    assert InGap(ws[w := me]) == if me.phase.Succeeded? then rest + {w} else rest;
    assert InGap(ws) == if ws[w].phase.Succeeded? then rest + {w} else rest;
  }

  lemma GapWithout(ws: map<WorkerId, Worker>, w: WorkerId)
    requires w in ws
    ensures |InGap(ws - {w})| + (if ws[w].phase.Succeeded? then 1 else 0) == |InGap(ws)|
  {
    assert InGap(ws - {w}) == InGap(ws) - {w};
  }

  lemma TalliedLocal(s: State, w: WorkerId, act: LocalStep)
    requires Tallied(s) && w in s.workers && LocalEnabled(s.workers[w], act)
    ensures Tallied(LocalApply(s, w, LocalEffect(s, w, act)))
  {
    var e := LocalEffect(s, w, act);
    GapAfter(s.workers, w, s.workers[w].(phase := e.phase, attempts := e.attempts));
  }

  lemma TalliedMessage(s: State, w: WorkerId, deed: WorkerStep)
    requires Tallied(s) && WorkerEnabled(s, w, deed) && !deed.Local?
    ensures Tallied(WorkerApply(s, w, deed))
  {
    GapWithout(s.workers, w);
    var t := WorkerApply(s, w, deed);
    if w in t.workers {
      GapAfter(s.workers, w, t.workers[w]);
    }
  }

  lemma TalliedDispatch(s: State, d: DispatcherId, doing: DispatchStep)
    requires Tallied(s) && DispatchEnabled(s, d, doing)
    ensures Tallied(DispatchApply(s, d, doing))
  {
    assert DispatchApply(s, d, doing).workers == s.workers;
  }

  lemma TalliedElsewhere(s: State, step: Step)
    requires Tallied(s) && Enabled(s, step) && !step.Work? && !step.Dispatch?
    ensures Tallied(Apply(s, step))
  {
    if step.Deliver? {
      assert InGap(Apply(s, step).workers) == InGap(s.workers);
    } else {
      assert Apply(s, step).workers == s.workers;
    }
  }

  lemma {:induction false} TalliedAlong(s: State, steps: seq<Step>)
    requires Tallied(s) && IsRun(s, steps)
    ensures Tallied(Final(s, steps))
    decreases |steps|
  {
    if steps != [] {
      var step := steps[0];
      if step.Work? && step.deed.Local? {
        TalliedLocal(s, step.worker, step.deed.act);
      } else if step.Work? {
        TalliedMessage(s, step.worker, step.deed);
      } else if step.Dispatch? {
        TalliedDispatch(s, step.dispatcher, step.doing);
      } else {
        TalliedElsewhere(s, step);
      }
      TalliedAlong(Apply(s, steps[0]), steps[1..]);
    }
  }

  /**
   Every provider success is in exactly one place: an effective MarkSent, a handler that has
   not run MarkSent yet, a MarkSent that changed nothing, or a crash in between.  There is at
   most one effective MarkSent per replay and one more, and a sent row had a success.
   */
  lemma SuccessesBalance(s: State, steps: seq<Step>)
    requires Init(s) && IsRun(s, steps)
    ensures var t := Final(s, steps);
            && t.ledger.successes ==
                 t.ledger.sentWrites + |InGap(t.workers)| + t.ledger.sentMisses + t.ledger.crashedAfterSuccess
            && t.ledger.sentWrites <= 1 + t.ledger.replays
            && (t.row.status == Sent ==> t.ledger.successes >= 1)
  {
    assert InGap(s.workers) == {};
    TalliedAlong(s, steps);
  }
}
