/** Outbox truthfulness: what published_at on an outbox row says about the broker and the notification. */
module OutboxTruth {
  import opened Wrappers
  import opened Delivery

  predicate SeenFailure(p: DispatcherPhase) {
    p.PublishFailed? || p.GaveUp?
  }

  /** Dispatchers that have seen a publish of row o fail and have not recorded it yet. */
  ghost function Failing(ds: map<DispatcherId, Dispatcher>, o: RowId): set<DispatcherId> {
    set d | d in ds && ds[d].row == o && SeenFailure(ds[d].phase)
  }

  predicate Truthful(r: OutboxRow) {
    r.confirmed >= 1 || (r.failed >= MAX_ATTEMPTS && !r.verdict.Open?)
  }

  predicate Backed(me: Dispatcher, r: OutboxRow) {
    && me.attempts <= r.attempts
    && (me.phase.Confirmed? || me.phase.Marked? ==> r.confirmed >= 1)
    && (me.phase.GaveUp? ==> r.failed >= MAX_ATTEMPTS && !r.verdict.Open?)
  }

  ghost predicate HonestRow(r: OutboxRow, failing: nat, lost: nat) {
    && r.attempts + failing <= r.failed
    && (r.published ==> Truthful(r))
    && (r.verdict.WriteLost? ==> lost >= 1)
  }

  ghost predicate Honest(ob: map<RowId, OutboxRow>, ds: map<DispatcherId, Dispatcher>, lost: nat) {
    && (forall o :: o in ob ==> HonestRow(ob[o], |Failing(ds, o)|, lost))
    && (forall d :: d in ds ==> ds[d].row in ob && Backed(ds[d], ob[ds[d].row]))
  }

  function One(b: bool): nat {
    if b then 1 else 0
  }

  lemma FailingMoves(ds: map<DispatcherId, Dispatcher>, d: DispatcherId, p: DispatcherPhase)
    requires d in ds
    ensures var o := ds[d].row;
            && |Failing(ds - {d}, o)| + One(SeenFailure(ds[d].phase)) == |Failing(ds, o)|
            && |Failing(ds[d := ds[d].(phase := p)], o)| + One(SeenFailure(ds[d].phase))
                 == |Failing(ds, o)| + One(SeenFailure(p))
            && forall q :: q != o ==> Failing(ds - {d}, q) == Failing(ds, q)
                                      && Failing(ds[d := ds[d].(phase := p)], q) == Failing(ds, q)
  {
    var o := ds[d].row;
    var rest := Failing(ds, o) - {d};
    assert Failing(ds - {d}, o) == rest;
    assert Failing(ds[d := ds[d].(phase := p)], o) == if SeenFailure(p) then rest + {d} else rest;
    assert Failing(ds, o) == if SeenFailure(ds[d].phase) then rest + {d} else rest;
  }

  /** What a dispatcher may do to its row in one step while it goes from phase p to phase q, or away. */
  predicate Fair(r: OutboxRow, r': OutboxRow, p: DispatcherPhase, after: Option<DispatcherPhase>) {
    && r.attempts <= r'.attempts && r.confirmed <= r'.confirmed && r.failed <= r'.failed
    && (r.verdict.Open? || !r'.verdict.Open?)
    && r'.attempts + One(after.Some? && SeenFailure(after.value)) + r.failed
         <= r.attempts + One(SeenFailure(p)) + r'.failed
    && (r'.published ==> r.published || Truthful(r'))
  }

  lemma HonestMove(ob: map<RowId, OutboxRow>, ds: map<DispatcherId, Dispatcher>, lost: nat,
                   d: DispatcherId, r': OutboxRow, after: Option<DispatcherPhase>, lost': nat)
    requires Honest(ob, ds, lost) && d in ds && lost <= lost'
    requires Fair(ob[ds[d].row], r', ds[d].phase, after)
    requires r'.verdict.WriteLost? ==> lost' >= 1
    requires after.Some? ==> Backed(ds[d].(phase := after.value), r')
    ensures Honest(ob[ds[d].row := r'], if after.Some? then ds[d := ds[d].(phase := after.value)] else ds - {d}, lost')
  {
    var o := ds[d].row;
    var ob' := ob[o := r'];
    var ds' := if after.Some? then ds[d := ds[d].(phase := after.value)] else ds - {d};
    FailingMoves(ds, d, if after.Some? then after.value else ds[d].phase);
    forall q | q in ob'
      ensures HonestRow(ob'[q], |Failing(ds', q)|, lost')
    {
      assert HonestRow(ob[q], |Failing(ds, q)|, lost);
    }
    forall e | e in ds'
      ensures ds'[e].row in ob' && Backed(ds'[e], ob'[ds'[e].row])
    {
      assert e in ds && Backed(ds[e], ob[ds[e].row]);
    }
  }

  lemma FailedBefore(ob: map<RowId, OutboxRow>, ds: map<DispatcherId, Dispatcher>, lost: nat, d: DispatcherId)
    requires Honest(ob, ds, lost) && d in ds && ds[d].phase.PublishFailed?
    ensures ds[d].attempts + 1 <= ob[ds[d].row].failed
  {
    FailingMoves(ds, d, PublishFailed);
    assert HonestRow(ob[ds[d].row], |Failing(ds, ds[d].row)|, lost);
  }

  lemma DispatchIsFair(s: State, d: DispatcherId, doing: DispatchStep)
    returns (r': OutboxRow, after: Option<DispatcherPhase>)
    requires DispatchEnabled(s, d, doing) && Backed(s.dispatchers[d], s.outbox[s.dispatchers[d].row])
    requires s.dispatchers[d].phase.PublishFailed? ==>
               s.dispatchers[d].attempts + 1 <= s.outbox[s.dispatchers[d].row].failed
    ensures var t := DispatchApply(s, d, doing);
            var me := s.dispatchers[d];
            var r := s.outbox[me.row];
            && t.outbox == s.outbox[me.row := r']
            && t.dispatchers ==
                 (if after.Some? then s.dispatchers[d := me.(phase := after.value)] else s.dispatchers - {d})
            && Fair(r, r', me.phase, after)
            && s.ledger.lostVerdicts <= t.ledger.lostVerdicts
            && (r'.verdict.WriteLost? ==> r.verdict.WriteLost? || t.ledger.lostVerdicts >= 1)
            && (after.Some? ==> Backed(me.(phase := after.value), r'))
  {
    var t := DispatchApply(s, d, doing);
    r' := t.outbox[s.dispatchers[d].row];
    after := if d in t.dispatchers then Some(t.dispatchers[d].phase) else None;
    assert s.outbox == s.outbox[s.dispatchers[d].row := s.outbox[s.dispatchers[d].row]];
  }

  lemma HonestDispatch(s: State, d: DispatcherId, doing: DispatchStep)
    requires Honest(s.outbox, s.dispatchers, s.ledger.lostVerdicts) && DispatchEnabled(s, d, doing)
    ensures var t := DispatchApply(s, d, doing); Honest(t.outbox, t.dispatchers, t.ledger.lostVerdicts)
  {
    var me := s.dispatchers[d];
    assert Backed(me, s.outbox[me.row]);
    assert HonestRow(s.outbox[me.row], |Failing(s.dispatchers, me.row)|, s.ledger.lostVerdicts);
    if me.phase.PublishFailed? {
      FailedBefore(s.outbox, s.dispatchers, s.ledger.lostVerdicts, d);
    }
    var r', after := DispatchIsFair(s, d, doing);
    HonestMove(s.outbox, s.dispatchers, s.ledger.lostVerdicts, d, r', after,
               DispatchApply(s, d, doing).ledger.lostVerdicts);
  }

  lemma HonestClaim(s: State, d: DispatcherId, o: RowId)
    requires Honest(s.outbox, s.dispatchers, s.ledger.lostVerdicts) && ClaimEnabled(s, d, o)
    ensures var t := DoClaim(s, d, o); Honest(t.outbox, t.dispatchers, t.ledger.lostVerdicts)
  {
    var t := DoClaim(s, d, o);
    assert forall p :: Failing(t.dispatchers, p) == Failing(s.dispatchers, p);
    assert HonestRow(s.outbox[o], |Failing(s.dispatchers, o)|, s.ledger.lostVerdicts);
  }

  lemma HonestFresh(ob: map<RowId, OutboxRow>, ds: map<DispatcherId, Dispatcher>, lost: nat, o: RowId)
    requires Honest(ob, ds, lost) && o !in ob
    ensures Honest(ob[o := NEW_OUTBOX_ROW], ds, lost)
  {
    assert Failing(ds, o) == {};
  }

  lemma WorkersLeaveOutbox(s: State, w: WorkerId, deed: WorkerStep)
    requires WorkerEnabled(s, w, deed)
    ensures var t := WorkerApply(s, w, deed);
            t.outbox == s.outbox && t.dispatchers == s.dispatchers && t.ledger.lostVerdicts == s.ledger.lostVerdicts
  {
  }

  lemma OthersAddRows(s: State, step: Step)
    requires Enabled(s, step) && !step.Dispatch? && !step.ClaimRow? && !step.Work?
    ensures var t := Apply(s, step);
            && t.dispatchers == s.dispatchers && t.ledger.lostVerdicts == s.ledger.lostVerdicts
            && (t.outbox == s.outbox
                || ((step.DispatchDue? || step.Sweep? || step.ReplayWrite?) && step.row !in s.outbox
                    && t.outbox == s.outbox[step.row := NEW_OUTBOX_ROW]))
  {
    if step.DispatchDue? {
      SchedulersLeave(s, step.scheduler, step.landed, step.row);
    } else if step.Sweep? || step.ReplayWrite? {
      FreshRowsLeave(s, step);
    }
  }

  lemma HonestOthers(s: State, step: Step)
    requires Honest(s.outbox, s.dispatchers, s.ledger.lostVerdicts)
    requires Enabled(s, step) && !step.Dispatch? && !step.ClaimRow? && !step.Work?
    ensures var t := Apply(s, step); Honest(t.outbox, t.dispatchers, t.ledger.lostVerdicts)
  {
    OthersAddRows(s, step);
    if Apply(s, step).outbox != s.outbox {
      HonestFresh(s.outbox, s.dispatchers, s.ledger.lostVerdicts, step.row);
    }
  }

  lemma {:induction false} HonestAlong(s: State, steps: seq<Step>)
    requires Honest(s.outbox, s.dispatchers, s.ledger.lostVerdicts) && IsRun(s, steps)
    ensures var t := Final(s, steps); Honest(t.outbox, t.dispatchers, t.ledger.lostVerdicts)
    decreases |steps|
  {
    if steps != [] {
      match steps[0] {
        case Dispatch(d, doing) => HonestDispatch(s, d, doing);
        case ClaimRow(d, o) => HonestClaim(s, d, o);
        case Work(w, deed) => WorkersLeaveOutbox(s, w, deed);
        case _ => HonestOthers(s, steps[0]);
      }
      HonestAlong(Apply(s, steps[0]), steps[1..]);
    }
  }

  /**
   With any number of dispatchers, expired claims, ambiguous confirms and crashes: a published
   row was confirmed by the broker, or failed at least 10 times and its notification was then
   dead-lettered or already sent; the one exception is a dead-letter write that was lost.
   */
  lemma PublishedIsTruthful(s: State, steps: seq<Step>, o: RowId)
    requires Init(s) && IsRun(s, steps)
    requires o in Final(s, steps).outbox && Final(s, steps).outbox[o].published
    ensures var r := Final(s, steps).outbox[o];
            || r.confirmed >= 1
            || (r.failed >= 10 && (r.verdict.DeadLettered? || r.verdict.AlreadySent?))
            || (r.failed >= 10 && r.verdict.WriteLost? && Final(s, steps).ledger.lostVerdicts >= 1)
  {
    assert forall p :: Failing(s.dispatchers, p) == {};
    HonestAlong(s, steps);
    var t := Final(s, steps);
    assert HonestRow(t.outbox[o], |Failing(t.dispatchers, o)|, t.ledger.lostVerdicts);
  }
}
