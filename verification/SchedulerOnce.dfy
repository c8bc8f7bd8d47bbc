/** The scheduler hands a scheduled notification over at most once, never early, never after a cancel. */
module SchedulerOnce {
  import opened Notifications
  import opened Delivery

  /** Nothing but the row and its scheduler row exists yet. */
  predicate Untouched(s: State) {
    && s.outbox == map[] && s.dispatchers == map[] && s.msgs == map[] && s.workers == map[]
    && s.openReplays == 0 && SentAtCheck(s.row)
    && (s.row.status == Scheduled || s.row.status == Cancelled)
  }

  predicate Due(s: State, due: int) {
    && (s.ledger.fired == [] ==> Untouched(s))
    && (s.sched.Some? ==> s.sched.value.dueAt == due && s.ledger.fired == [])
    && (s.row.status == Scheduled ==> s.sched.Some?)
    && (s.schedulers != {} ==> due <= s.now)
    && |s.ledger.fired| <= 1
    && (forall i :: 0 <= i < |s.ledger.fired| ==> due <= s.ledger.fired[i])
  }

  lemma DueLocal(s: State, w: WorkerId, act: LocalStep)
    requires w in s.workers && LocalEnabled(s.workers[w], act)
    ensures var e := LocalEffect(s, w, act);
            e.ledger.fired == s.ledger.fired && (e.row.status == Scheduled ==> s.row.status == Scheduled)
  {
  }

  lemma DueDispatch(s: State, d: DispatcherId, doing: DispatchStep)
    requires DispatchEnabled(s, d, doing)
    ensures var t := DispatchApply(s, d, doing);
            && t.ledger.fired == s.ledger.fired && t.sched == s.sched && t.schedulers == s.schedulers
            && t.now == s.now && (t.row.status == Scheduled ==> s.row.status == Scheduled)
  {
  }

  lemma DueStep(s: State, step: Step, due: int)
    requires Due(s, due) && Enabled(s, step)
    ensures Due(Apply(s, step), due)
    ensures s.row.status == Cancelled && s.ledger.fired == [] ==>
              Apply(s, step).row.status == Cancelled && Apply(s, step).ledger.fired == []
  {
    match step
    case Work(w, Local(act)) => DueLocal(s, w, act);
    case Work(_, _) =>
    case Dispatch(d, doing) => DueDispatch(s, d, doing);
    case _ =>
  }

  lemma {:induction false} DueAlong(s: State, steps: seq<Step>, due: int)
    requires Due(s, due) && IsRun(s, steps)
    ensures Due(Final(s, steps), due)
    ensures s.row.status == Cancelled && s.ledger.fired == [] ==> Final(s, steps).ledger.fired == []
    decreases |steps|
  {
    if steps != [] {
      DueStep(s, steps[0], due);
      DueAlong(Apply(s, steps[0]), steps[1..], due);
    }
  }

  /**
   With any number of schedulers, expired claims and lost transactions, the scheduler writes at
   most one outbox row for a scheduled notification, at or after due_at, and the scheduler row
   exists only while the status is scheduled or cancelled.
   */
  lemma ScheduledOnce(now: int, due: int, steps: seq<Step>)
    requires IsRun(CreatedScheduled(now, due), steps)
    ensures var t := Final(CreatedScheduled(now, due), steps);
            && |t.ledger.fired| <= 1
            && (|t.ledger.fired| == 1 ==> due <= t.ledger.fired[0])
            && (t.sched.Some? ==> t.row.status == Scheduled || t.row.status == Cancelled)
  {
    DueAlong(CreatedScheduled(now, due), steps, due);
  }

  /** A notification cancelled before the scheduler got to it is never handed over, whatever happens afterwards. */
  lemma CancelledNeverFires(now: int, due: int, first: seq<Step>, rest: seq<Step>)
    requires IsRun(CreatedScheduled(now, due), first)
    requires IsRun(Final(CreatedScheduled(now, due), first), rest)
    requires Final(CreatedScheduled(now, due), first).row.status == Cancelled
    requires Final(CreatedScheduled(now, due), first).ledger.fired == []
    ensures IsRun(CreatedScheduled(now, due), first + rest)
    ensures Final(CreatedScheduled(now, due), first + rest).ledger.fired == []
  {
    var s := CreatedScheduled(now, due);
    DueAlong(s, first, due);
    DueAlong(Final(s, first), rest, due);
    RunSplits(s, first, rest);
  }
}
