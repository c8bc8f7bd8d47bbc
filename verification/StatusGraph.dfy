/** The status graph over single steps and whole runs. */
module StatusGraph {
  import opened Notifications
  import opened Delivery

  /** Which step may move a row from status a to a different status b. */
  predicate Edge(step: Step, a: Status, b: Status) {
    match b
    case Pending => (step.DispatchDue? && a == Scheduled) || step.ReplayWrite?
    case Queued =>
      || (a == Pending && step.Dispatch? && step.doing.QueueRow?)
      || (a == Sending && (step.Sweep? || (step.Work? && step.deed.Local? && (
            var act := step.deed.act;
            act.LockRevert? || act.ThrottleRevert? || act.ThrottleTimeout? || act.BreakerRevert?
            || act.RetryRevert? || act.SentRevert?))))
    case Sending => Waits(a) && step.Work? && step.deed.Local? && step.deed.act.Cas?
    case Sent => a == Sending && step.Work? && step.deed.Local? && step.deed.act.SetSent?
    case Cancelled => (Waits(a) || a == Scheduled) && step.CancelRequest?
    case DeadLetter =>
      a != Sent && ((step.Dispatch? && step.doing.DeadLetterRow?)
                    || (step.Work? && step.deed.Local? && step.deed.act.GiveUp?))
    case Failed => false
    case Scheduled => false
  }

  /** The writes without a status guard that take effect. */
  predicate Overwrites(step: Step) {
    || step.ReplayWrite?
    || (step.Dispatch? && step.doing.DeadLetterRow? && step.doing.landed)
    || (step.Work? && step.deed.Local? && step.deed.act.GiveUp? && step.deed.act.landed)
  }

  lemma EdgesLocal(s: State, w: WorkerId, act: LocalStep)
    requires SentAtCheck(s.row) && w in s.workers && LocalEnabled(s.workers[w], act)
    ensures var r := LocalEffect(s, w, act).row;
            && SentAtCheck(r)
            && (r == s.row || (s.row.status != Sent
                               && (r.status == s.row.status || Edge(Work(w, Local(act)), s.row.status, r.status))))
            && (s.row.status == Cancelled ==> (r == s.row <==> !Overwrites(Work(w, Local(act)))))
  {
  }

  lemma EdgesDispatch(s: State, d: DispatcherId, doing: DispatchStep)
    requires SentAtCheck(s.row) && DispatchEnabled(s, d, doing)
    ensures var r := DispatchApply(s, d, doing).row;
            && SentAtCheck(r)
            && (r == s.row || (s.row.status != Sent
                               && (r.status == s.row.status || Edge(Dispatch(d, doing), s.row.status, r.status))))
            && (s.row.status == Cancelled ==> (r == s.row <==> !Overwrites(Dispatch(d, doing))))
  {
  }

  /**
   The only way into sent is MarkSent.  A sent row changes in no way at all, except under a
   replay's UPDATE; a cancelled one changes exactly under that and under a MarkDeadLetter.
   */
  lemma StatusEdges(s: State, step: Step)
    requires SentAtCheck(s.row) && Enabled(s, step)
    ensures var r := Apply(s, step).row;
            && SentAtCheck(r)
            && (r.status == s.row.status || Edge(step, s.row.status, r.status))
            && (s.row.status == Sent ==> (r == s.row <==> !step.ReplayWrite?))
            && (s.row.status == Cancelled ==> (r == s.row <==> !Overwrites(step)))
  {
    if step.Work? && step.deed.Local? {
      EdgesLocal(s, step.worker, step.deed.act);
    } else if step.Dispatch? {
      EdgesDispatch(s, step.dispatcher, step.doing);
    }
  }

  /** What ADR-0014 promises of replay: its UPDATE finds the row still dead-lettered. */
  predicate Guarded(s: State, step: Step) {
    step.ReplayWrite? ==> s.row.status == DeadLetter
  }

  ghost predicate GuardedRun(s: State, steps: seq<Step>)
    requires IsRun(s, steps)
    decreases |steps|
  {
    steps == [] || (Guarded(s, steps[0]) && GuardedRun(Apply(s, steps[0]), steps[1..]))
  }

  /** Once sent, a row is never written again, in any run whose replays are guarded. */
  lemma {:induction false} SentIsFinal(s: State, steps: seq<Step>)
    requires SentAtCheck(s.row) && s.row.status == Sent && IsRun(s, steps) && GuardedRun(s, steps)
    ensures Final(s, steps).row == s.row
    decreases |steps|
  {
    if steps != [] {
      StatusEdges(s, steps[0]);
      SentIsFinal(Apply(s, steps[0]), steps[1..]);
    }
  }

  ghost predicate AlwaysRow(s: State, steps: seq<Step>, r: Row)
    requires IsRun(s, steps)
    decreases |steps|
  {
    s.row == r && (steps == [] || AlwaysRow(Apply(s, steps[0]), steps[1..], r))
  }

  /** Without the guard: a sent row stays as it is throughout a run exactly when no replay's UPDATE occurs in it. */
  lemma {:induction false} SentThroughoutExactly(s: State, steps: seq<Step>)
    requires SentAtCheck(s.row) && s.row.status == Sent && IsRun(s, steps)
    ensures AlwaysRow(s, steps, s.row) <==> NoReplay(steps)
    decreases |steps|
  {
    if steps != [] {
      var t := Apply(s, steps[0]);
      StatusEdges(s, steps[0]);
      assert NoReplay(steps) <==> !steps[0].ReplayWrite? && NoReplay(steps[1..]);
      if t.row == s.row {
        SentThroughoutExactly(t, steps[1..]);
      }
    }
  }

  ghost predicate NeverOverwritten(steps: seq<Step>) {
    forall i :: 0 <= i < |steps| ==> !Overwrites(steps[i])
  }

  /** A cancelled row stays as it is throughout a run exactly when none of those writes occurs in it. */
  lemma {:induction false} CancelledThroughoutExactly(s: State, steps: seq<Step>)
    requires SentAtCheck(s.row) && s.row.status == Cancelled && IsRun(s, steps)
    ensures AlwaysRow(s, steps, s.row) <==> NeverOverwritten(steps)
    decreases |steps|
  {
    if steps != [] {
      var t := Apply(s, steps[0]);
      StatusEdges(s, steps[0]);
      assert NeverOverwritten(steps) <==> !Overwrites(steps[0]) && NeverOverwritten(steps[1..]);
      if t.row == s.row {
        CancelledThroughoutExactly(t, steps[1..]);
      }
    }
  }

  /** After a cancel, until a replay, the row stays cancelled or dead-lettered and every pickup CAS finds nothing. */
  lemma {:induction false} CancelHolds(s: State, steps: seq<Step>)
    requires SentAtCheck(s.row) && (s.row.status == Cancelled || s.row.status == DeadLetter)
    requires IsRun(s, steps) && NoReplay(steps)
    ensures var r := Final(s, steps).row;
            && (r.status == Cancelled || r.status == DeadLetter)
            && forall now :: MarkSendingCAS(r, now) == NoRows
    decreases |steps|
  {
    if steps != [] {
      StatusEdges(s, steps[0]);
      CancelHolds(Apply(s, steps[0]), steps[1..]);
    }
  }
}
