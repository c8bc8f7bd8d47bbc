/**
 No stranded work: a notification that waits to be picked up always has a carrier, that is
 an outbox row the dispatcher still owes a publish, a message in a channel or wait queue, or a
 delivery whose worker has neither decided to ack it nor to dead-letter it; a scheduled one has its
 scheduler row.  A message in the dead-letter queue is no carrier: nothing reads that queue.
 */
module Carriers {
  import opened Notifications
  import opened Delivery

  /** The handler has already settled on acking or dead-lettering its delivery. */
  predicate Decided(p: Phase) {
    p.Acking? || p.DeadLettering? || p == Unlocking(ExitAck) || p == Unlocking(ExitTerminal)
  }

  /** The dispatcher will not publish its row again unless it dies first. */
  predicate Committed(p: DispatcherPhase) {
    p.Confirmed? || p.GaveUp?
  }

  ghost predicate Owed(s: State, o: RowId) {
    && o in s.outbox && !s.outbox[o].published
    && (forall d :: d in s.dispatchers && s.dispatchers[d].row == o ==> !Committed(s.dispatchers[d].phase))
  }

  predicate Live(s: State, m: MsgId) {
    && m in s.msgs
    && match s.msgs[m].place
       case Unacked(w) => w in s.workers && !Decided(s.workers[w].phase)
       case Dead => false
       case _ => true
  }

  ghost predicate HasCarrier(s: State) {
    (exists o :: Owed(s, o)) || (exists m :: Live(s, m))
  }

  ghost predicate Carried(s: State) {
    && (Waits(s.row.status) ==> HasCarrier(s))
    && (s.row.status == Scheduled ==> s.sched.Some?)
  }

  /** Every unacked message is held by a running handler that knows it; dispatchers work on existing rows. */
  ghost predicate Sound(s: State) {
    && SentAtCheck(s.row)
    && (forall m :: m in s.msgs && s.msgs[m].place.Unacked? ==>
          var w := s.msgs[m].place.worker; w in s.workers && s.workers[w].msg == m)
    && (forall d :: d in s.dispatchers ==> s.dispatchers[d].row in s.outbox)
  }

  lemma InitSound(s: State)
    requires Init(s)
    ensures Sound(s) && Carried(s)
  {
    if o :| s == CreatedPending(s.now, o) {
      assert Owed(s, o);
    }
  }

  lemma SoundWork(s: State, w: WorkerId, deed: WorkerStep)
    requires Sound(s) && WorkerEnabled(s, w, deed)
    ensures Sound(WorkerApply(s, w, deed))
  {
  }

  lemma SoundDispatch(s: State, d: DispatcherId, doing: DispatchStep)
    requires Sound(s) && DispatchEnabled(s, d, doing)
    ensures Sound(DispatchApply(s, d, doing))
  {
  }

  lemma RowsStay(s: State, step: Step)
    requires Sound(s) && Enabled(s, step) && Bystander(step)
    ensures var t := Apply(s, step);
            && SentAtCheck(t.row)
            && (forall d :: d in t.dispatchers ==> t.dispatchers[d].row in t.outbox)
  {
    if step.DispatchDue? {
      SchedulersLeave(s, step.scheduler, step.landed, step.row);
    } else if step.Sweep? || step.ReplayWrite? {
      FreshRowsLeave(s, step);
    }
  }

  lemma SoundElsewhere(s: State, step: Step)
    requires Sound(s) && Enabled(s, step) && !step.Work? && !step.Dispatch?
    ensures Sound(Apply(s, step))
  {
    if Bystander(step) {
      BystandersLeave(s, step);
      RowsStay(s, step);
    }
  }

  lemma SoundStep(s: State, step: Step)
    requires Sound(s) && Enabled(s, step)
    ensures Sound(Apply(s, step))
  {
    if step.Work? {
      SoundWork(s, step.worker, step.deed);
    } else if step.Dispatch? {
      SoundDispatch(s, step.dispatcher, step.doing);
    } else {
      SoundElsewhere(s, step);
    }
  }

  // ---- one step ------------------------------------------------------------------------

  /** A carrier other than the delivery worker w holds. */
  ghost predicate CarriedByOthers(s: State, w: WorkerId) {
    (exists o :: Owed(s, o)) || (exists m :: Live(s, m) && s.msgs[m].place != Unacked(w))
  }

  /** A carrier other than outbox row o. */
  ghost predicate CarriedBeyond(s: State, o: RowId) {
    (exists p :: Owed(s, p) && p != o) || (exists m :: Live(s, m))
  }

  predicate IsRevert(act: LocalStep) {
    act.ThrottleRevert? || act.ThrottleTimeout? || act.BreakerRevert? || act.RetryRevert? || act.SentRevert?
  }

  /**
   The steps after which a waiting notification has nobody to carry it:
   the lock-held branch of the pickup, the redelivery cap, and a terminal fault whose dead-letter
   write is lost, each of which gives its delivery up although nobody else carries; any other
   revert by a handler that has lost its delivery; and a dispatcher that gives up on its row
   without dead-lettering the notification.
   */
  ghost predicate Strands(s: State, step: Step) {
    match step
    case Work(w, Local(LockRevert(landed))) =>
      (Waits(s.row.status) || (landed && s.row.status == Sending)) && !CarriedByOthers(s, w)
    case Work(w, Local(CapExceeded)) => Waits(s.row.status) && !CarriedByOthers(s, w)
    case Work(w, Local(GiveUp(landed))) => !landed && Waits(s.row.status) && !CarriedByOthers(s, w)
    case Work(w, Local(act)) =>
      IsRevert(act) && act.landed && s.row.status == Sending && !HasCarrier(s)
    case Dispatch(d, DeadLetterRow(landed)) =>
      !landed && Waits(s.row.status) && d in s.dispatchers && !CarriedBeyond(s, s.dispatchers[d].row)
    case _ => false
  }

  /** A handler that settles on giving its delivery up leaves the other carriers as they are. */
  lemma GivesUpItsOwn(s: State, t: State, w: WorkerId)
    requires w in s.workers && t.outbox == s.outbox && t.dispatchers == s.dispatchers && t.msgs == s.msgs
    requires w in t.workers && t.workers == s.workers[w := t.workers[w]] && Decided(t.workers[w].phase)
    ensures HasCarrier(t) <==> CarriedByOthers(s, w)
  {
    assert forall o :: Owed(t, o) <==> Owed(s, o);
    assert forall m :: Live(t, m) <==> Live(s, m) && s.msgs[m].place != Unacked(w);
  }

  lemma LockRevertCarries(s: State, w: WorkerId, landed: bool)
    requires Sound(s) && Carried(s) && WorkerEnabled(s, w, Local(LockRevert(landed)))
    ensures Carried(WorkerApply(s, w, Local(LockRevert(landed)))) <==> !Strands(s, Work(w, Local(LockRevert(landed))))
  {
    GivesUpItsOwn(s, WorkerApply(s, w, Local(LockRevert(landed))), w);
  }

  /** The redelivery cap keeps the notification carried exactly when it does not wait or somebody else carries it. */
  lemma CapCarries(s: State, w: WorkerId)
    requires Sound(s) && Carried(s) && WorkerEnabled(s, w, Local(CapExceeded))
    ensures Carried(WorkerApply(s, w, Local(CapExceeded))) <==> !Strands(s, Work(w, Local(CapExceeded)))
  {
    GivesUpItsOwn(s, WorkerApply(s, w, Local(CapExceeded)), w);
  }

  /** So does giving up on a terminal fault, which moreover is safe whenever its dead-letter write lands. */
  lemma GiveUpCarries(s: State, w: WorkerId, landed: bool)
    requires Sound(s) && Carried(s) && WorkerEnabled(s, w, Local(GiveUp(landed)))
    ensures Carried(WorkerApply(s, w, Local(GiveUp(landed)))) <==> !Strands(s, Work(w, Local(GiveUp(landed))))
  {
    GivesUpItsOwn(s, WorkerApply(s, w, Local(GiveUp(landed))), w);
  }

  predicate GivesUp(act: LocalStep) {
    act.LockRevert? || act.CapExceeded? || act.GiveUp?
  }

  lemma KeepsItsOwn(s: State, t: State, w: WorkerId)
    requires w in s.workers && t.outbox == s.outbox && t.dispatchers == s.dispatchers && t.msgs == s.msgs
    requires w in t.workers && t.workers == s.workers[w := t.workers[w]]
    requires Decided(t.workers[w].phase) <==> Decided(s.workers[w].phase)
    ensures HasCarrier(t) <==> HasCarrier(s)
  {
    assert forall o :: Owed(t, o) <==> Owed(s, o);
    assert forall m :: Live(t, m) <==> Live(s, m);
  }

  /**
   While the row waits a local step neither makes nor unmakes its handler's decision, and only
   reverts make a row wait.
   */
  lemma LocalLeaves(s: State, w: WorkerId, act: LocalStep)
    requires SentAtCheck(s.row) && WorkerEnabled(s, w, Local(act)) && !GivesUp(act)
    ensures var e := LocalEffect(s, w, act);
            && (Waits(e.row.status) ==> (Decided(e.phase) <==> Decided(s.workers[w].phase)))
            && (Waits(e.row.status) <==>
                  || (Waits(s.row.status) && !(act.Cas? && Ran(act.reply)))
                  || (IsRevert(act) && act.landed && s.row.status == Sending))
            && (e.row.status == Scheduled ==> s.row.status == Scheduled)
  {
  }

  lemma LocalCarries(s: State, w: WorkerId, act: LocalStep)
    requires Sound(s) && Carried(s) && WorkerEnabled(s, w, Local(act)) && !GivesUp(act)
    ensures Carried(WorkerApply(s, w, Local(act))) <==> !Strands(s, Work(w, Local(act)))
  {
    var t := WorkerApply(s, w, Local(act));
    LocalLeaves(s, w, act);
    if Waits(t.row.status) {
      KeepsItsOwn(s, t, w);
    }
  }

  lemma MessageCarries(s: State, w: WorkerId, deed: WorkerStep)
    requires Sound(s) && Carried(s) && WorkerEnabled(s, w, deed) && !deed.Local?
    ensures Carried(WorkerApply(s, w, deed))
  {
    var t := WorkerApply(s, w, deed);
    if Waits(s.row.status) {
      if m :| Live(s, m) {
        if s.msgs[m].place == Unacked(w) && (deed.Route? || deed.Requeue?) && !deed.answer.FailDropped? {
          assert Live(t, deed.copy);
        } else {
          assert Live(t, m);
        }
      } else {
        var o :| Owed(s, o);
        assert Owed(t, o);
      }
    }
  }

  lemma DeadLetterCarries(s: State, d: DispatcherId, landed: bool)
    requires Sound(s) && Carried(s) && DispatchEnabled(s, d, DeadLetterRow(landed))
    ensures Carried(DispatchApply(s, d, DeadLetterRow(landed))) <==> !Strands(s, Dispatch(d, DeadLetterRow(landed)))
  {
    var t := DispatchApply(s, d, DeadLetterRow(landed));
    var o := s.dispatchers[d].row;
    assert d in t.dispatchers && t.dispatchers[d].row == o && Committed(t.dispatchers[d].phase);
    assert !Owed(t, o);
    assert forall e :: e in s.dispatchers && e != d ==> e in t.dispatchers && t.dispatchers[e] == s.dispatchers[e];
    assert forall p :: p != o && Owed(s, p) ==> Owed(t, p);
    assert forall p :: p != o && Owed(t, p) ==> Owed(s, p);
    assert forall m :: Live(t, m) <==> Live(s, m);
    assert HasCarrier(t) <==> CarriedBeyond(s, o);
  }

  lemma DispatchCarries(s: State, d: DispatcherId, doing: DispatchStep)
    requires Sound(s) && Carried(s) && DispatchEnabled(s, d, doing) && !doing.DeadLetterRow?
    ensures Carried(DispatchApply(s, d, doing))
  {
    var t := DispatchApply(s, d, doing);
    if doing.Publish? && !doing.answer.FailDropped? {
      assert Live(t, doing.msg);
    } else {
      assert forall m :: Live(s, m) ==> Live(t, m);
      assert forall p :: Owed(s, p) ==> Owed(t, p);
    }
  }

  /** A row no dispatcher knows yet is owed. */
  lemma FreshRowOwed(s: State, t: State, o: RowId)
    requires Sound(s) && o !in s.outbox && t.dispatchers == s.dispatchers && t.outbox == s.outbox[o := NEW_OUTBOX_ROW]
    ensures Owed(t, o)
  {
  }

  lemma DueCarries(s: State, k: SchedulerId, landed: bool, o: RowId)
    requires Sound(s) && Carried(s) && Enabled(s, DispatchDue(k, landed, o))
    ensures Carried(Apply(s, DispatchDue(k, landed, o)))
  {
    var t := Apply(s, DispatchDue(k, landed, o));
    if t.outbox == s.outbox {
      assert forall p :: Owed(s, p) ==> Owed(t, p);
      assert forall m :: Live(s, m) ==> Live(t, m);
    } else {
      FreshRowOwed(s, t, o);
    }
  }

  lemma FreshRowCarries(s: State, step: Step)
    requires Sound(s) && Carried(s) && Enabled(s, step) && (step.Sweep? || step.ReplayWrite?)
    ensures Carried(Apply(s, step))
  {
    FreshRowOwed(s, Apply(s, step), step.row);
  }

  lemma OtherCarries(s: State, step: Step)
    requires Sound(s) && Carried(s) && Enabled(s, step)
    requires !step.Work? && !step.Dispatch? && !step.DispatchDue? && !step.Sweep? && !step.ReplayWrite?
    ensures Carried(Apply(s, step))
  {
    var t := Apply(s, step);
    assert forall o :: Owed(s, o) ==> Owed(t, o);
    assert forall m :: Live(s, m) ==> Live(t, m);
  }

  /**
   Every step keeps every waiting notification carried, except exactly those named by
   Strands, each of which leaves one without a carrier.
   */
  lemma CarrierLostExactly(s: State, step: Step)
    requires Sound(s) && Carried(s) && Enabled(s, step)
    ensures Carried(Apply(s, step)) <==> !Strands(s, step)
  {
    match step
    case Work(w, Local(act)) =>
      if act.LockRevert? {
        LockRevertCarries(s, w, act.landed);
      } else if act.CapExceeded? {
        CapCarries(s, w);
      } else if act.GiveUp? {
        GiveUpCarries(s, w, act.landed);
      } else {
        LocalCarries(s, w, act);
      }
    case Work(w, deed) => MessageCarries(s, w, deed);
    case Dispatch(d, doing) =>
      if doing.DeadLetterRow? {
        DeadLetterCarries(s, d, doing.landed);
      } else {
        DispatchCarries(s, d, doing);
      }
    case DispatchDue(k, landed, o) => DueCarries(s, k, landed, o);
    case Sweep(_) => FreshRowCarries(s, step);
    case ReplayWrite(_) => FreshRowCarries(s, step);
    case _ => OtherCarries(s, step);
  }

  // ---- whole runs ----------------------------------------------------------------------

  /** Every handler still holds the delivery it was started for. */
  ghost predicate AllHold(s: State) {
    forall w :: w in s.workers ==> HasDelivery(s, w)
  }

  /** The in-flight lock is held by a running handler, not w, that has not settled what becomes of its delivery. */
  predicate HolderCarries(s: State, w: WorkerId) {
    s.lock.Some? && s.lock.value.holder != w && s.lock.value.holder in s.workers
    && !Decided(s.workers[s.lock.value.holder].phase)
  }

  /**
   No broker connection breaks, no terminal write is lost, no message of a waiting notification
   reaches the redelivery cap, and a worker that defers to the lock defers to a live holder.
   */
  predicate Careful(s: State, step: Step) {
    match step
    case Work(w, Local(LockRevert(_))) => HolderCarries(s, w)
    case Work(_, Local(CapExceeded)) => !Waits(s.row.status)
    case Work(_, Local(GiveUp(landed))) => landed || !Waits(s.row.status)
    case Work(_, deed) => !deed.ConnectionLost?
    case Dispatch(_, DeadLetterRow(landed)) => landed
    case _ => true
  }

  lemma HoldsThroughWork(s: State, w: WorkerId, deed: WorkerStep, v: WorkerId)
    requires Sound(s) && AllHold(s) && WorkerEnabled(s, w, deed) && !deed.ConnectionLost?
    requires v in WorkerApply(s, w, deed).workers
    ensures HasDelivery(WorkerApply(s, w, deed), v)
  {
    assert HasDelivery(s, v);
  }

  /** A dispatcher leaves handlers alone and at most adds a message. */
  lemma DispatchLeaves(s: State, d: DispatcherId, doing: DispatchStep)
    requires DispatchEnabled(s, d, doing)
    ensures var t := DispatchApply(s, d, doing);
            t.workers == s.workers && forall m :: m in s.msgs ==> m in t.msgs && t.msgs[m] == s.msgs[m]
  {
  }

  lemma HoldsThroughOthers(s: State, step: Step, v: WorkerId)
    requires Sound(s) && AllHold(s) && Enabled(s, step) && !step.Work? && v in Apply(s, step).workers
    ensures HasDelivery(Apply(s, step), v)
  {
    if step.Deliver? {
      assert v in s.workers ==> HasDelivery(s, v);
    } else if step.Dispatch? {
      DispatchLeaves(s, step.dispatcher, step.doing);
      assert HasDelivery(s, v);
    } else if Bystander(step) {
      BystandersLeave(s, step);
    } else {
      assert HasDelivery(s, v);
    }
  }

  lemma AllHoldStep(s: State, step: Step)
    requires Sound(s) && AllHold(s) && Enabled(s, step) && !(step.Work? && step.deed.ConnectionLost?)
    ensures AllHold(Apply(s, step))
  {
    forall v | v in Apply(s, step).workers
      ensures HasDelivery(Apply(s, step), v)
    {
      if step.Work? {
        HoldsThroughWork(s, step.worker, step.deed, v);
      } else {
        HoldsThroughOthers(s, step, v);
      }
    }
  }

  lemma CarefulDoesNotStrand(s: State, step: Step)
    requires Sound(s) && AllHold(s) && Enabled(s, step) && Careful(s, step)
    ensures !Strands(s, step)
  {
    match step
    case Work(w, Local(act)) =>
      var h := if act.LockRevert? then s.lock.value.holder else w;
      assert HasDelivery(s, h);
      if !Decided(s.workers[h].phase) {
        assert Live(s, s.workers[h].msg);
      }
    case _ =>
  }

  ghost predicate CarefulRun(s: State, steps: seq<Step>)
    requires IsRun(s, steps)
    decreases |steps|
  {
    steps == [] || (Careful(s, steps[0]) && CarefulRun(Apply(s, steps[0]), steps[1..]))
  }

  lemma {:induction false} CarriedAlong(s: State, steps: seq<Step>)
    requires Sound(s) && Carried(s) && AllHold(s) && IsRun(s, steps) && CarefulRun(s, steps)
    ensures Carried(Final(s, steps))
    decreases |steps|
  {
    if steps != [] {
      SoundStep(s, steps[0]);
      CarefulDoesNotStrand(s, steps[0]);
      CarrierLostExactly(s, steps[0]);
      AllHoldStep(s, steps[0]);
      CarriedAlong(Apply(s, steps[0]), steps[1..]);
    }
  }

  /**
   No stranded work: over every run with any crashes, duplicate and lost publishes, lost
   statements, cancels and replays, a notification that waits has a carrier and a scheduled
   one has its scheduler row.
   */
  lemma NoStrandedWork(s: State, steps: seq<Step>)
    requires Init(s) && IsRun(s, steps) && CarefulRun(s, steps)
    ensures Carried(Final(s, steps))
  {
    InitSound(s);
    CarriedAlong(s, steps);
  }

  ghost predicate NeverStrands(s: State, steps: seq<Step>)
    requires IsRun(s, steps)
    decreases |steps|
  {
    steps == [] || (!Strands(s, steps[0]) && NeverStrands(Apply(s, steps[0]), steps[1..]))
  }

  ghost predicate AlwaysCarried(s: State, steps: seq<Step>)
    requires IsRun(s, steps)
    decreases |steps|
  {
    Carried(s) && (steps == [] || AlwaysCarried(Apply(s, steps[0]), steps[1..]))
  }

  /** With no condition on the run at all: work is carried throughout exactly when no step of the run strands. */
  lemma {:induction false} CarriedThroughoutExactly(s: State, steps: seq<Step>)
    requires Sound(s) && Carried(s) && IsRun(s, steps)
    ensures AlwaysCarried(s, steps) <==> NeverStrands(s, steps)
    decreases |steps|
  {
    if steps != [] {
      var t := Apply(s, steps[0]);
      SoundStep(s, steps[0]);
      CarrierLostExactly(s, steps[0]);
      if Carried(t) {
        CarriedThroughoutExactly(t, steps[1..]);
      }
    }
  }
}
