/**
 Concrete runs that show each side condition of the delivery theorems is needed, and what a
 stranded notification has to look forward to.
 */
module Stranding {
  import opened Wrappers
  import opened Notifications
  import opened Topology
  import opened Delivery
  import opened Carriers

  lemma Take(s: State, run: seq<Step>, t: State, step: Step) returns (run': seq<Step>, t': State)
    requires Leads(s, run, t) && Enabled(t, step)
    ensures run' == run + [step] && t' == Apply(t, step) && Leads(s, run', t')
  {
    run', t' := run + [step], Apply(t, step);
    assert IsRun(t', []) && [step][1..] == [];
    RunSplits(s, run, [step]);
  }

  /** An unclaimed outbox row is claimed and its publish confirmed. */
  lemma SendOut(s: State, run: seq<Step>, t: State, d: DispatcherId, o: RowId, m: MsgId)
    returns (run': seq<Step>, t': State)
    requires Leads(s, run, t) && d !in t.dispatchers && m !in t.msgs
    requires o in t.outbox && !t.outbox[o].published && t.outbox[o].claimedAt.None?
    ensures Leads(s, run', t')
    ensures t' == t.(
              outbox := t.outbox[o := t.outbox[o].(claimedAt := Some(t.now), confirmed := t.outbox[o].confirmed + 1)],
              dispatchers := t.dispatchers[d := Dispatcher(o, t.outbox[o].attempts, Confirmed)],
              msgs := t.msgs[m := Msg(Ready, 0, 0, 0)])
  {
    run', t' := Take(s, run, t, ClaimRow(d, o));
    run', t' := Take(s, run', t', Dispatch(d, Publish(Confirm, m)));
  }

  /** A message is delivered while the lock is free: its worker gets as far as the rate-limit gate. */
  lemma PickUp(s: State, run: seq<Step>, t: State, m: MsgId, w: WorkerId) returns (run': seq<Step>, t': State)
    requires Leads(s, run, t) && Waits(t.row.status) && t.row.sentAt.None? && LockFree(t)
    requires w !in t.workers && (t.lock.Some? ==> t.lock.value.holder != w)
    requires m in t.msgs && t.msgs[m].place.Ready? && t.msgs[m].redeliveries < MAX_REDELIVERIES
    ensures Leads(s, run', t')
    ensures t' == t.(
              row := t.row.(status := Sending, updatedAt := t.now),
              msgs := t.msgs[m := t.msgs[m].(place := Unacked(w), handled := t.msgs[m].handled + 1)],
              workers := t.workers[w := Worker(Gate, m, t.now, t.row.attempts, t.msgs[m].redeliveries,
                                               t.msgs[m].handled + 1, t.msgs[m].bounces)],
              lock := Some(Lock(w, t.now + LOCK_TTL_MS)))
  {
    run', t' := Take(s, run, t, Deliver(m, w));
    run', t' := Take(s, run', t', Work(w, Local(Cas(Ok))));
    run', t' := Take(s, run', t', Work(w, Local(TryLock(Ok))));
  }

  /**
   A message is delivered while somebody else's lock is live: its worker has picked the row up
   and is refused the lock.
   */
  lemma PickUpRefused(s: State, run: seq<Step>, t: State, m: MsgId, w: WorkerId) returns (run': seq<Step>, t': State)
    requires Leads(s, run, t) && Waits(t.row.status) && t.row.sentAt.None? && !LockFree(t)
    requires w !in t.workers && t.lock.value.holder != w
    requires m in t.msgs && t.msgs[m].place.Ready? && t.msgs[m].redeliveries < MAX_REDELIVERIES
    ensures Leads(s, run', t')
    ensures t' == t.(
              row := t.row.(status := Sending, updatedAt := t.now),
              msgs := t.msgs[m := t.msgs[m].(place := Unacked(w), handled := t.msgs[m].handled + 1)],
              workers := t.workers[w := Worker(Refused, m, t.now, t.row.attempts, t.msgs[m].redeliveries,
                                               t.msgs[m].handled + 1, t.msgs[m].bounces)])
  {
    run', t' := Take(s, run, t, Deliver(m, w));
    run', t' := Take(s, run', t', Work(w, Local(Cas(Ok))));
    run', t' := Take(s, run', t', Work(w, Local(TryLock(Ok))));
  }

  /** The one outbox row after a confirmed publish at time 0. */
  const SENT_OUT := OutboxRow(true, 0, Some(0), 1, 0, Open)

  /** A notification created at time 0, published once and marked queued. */
  const QUEUED := CreatedPending(0, 0).(
    row := Row(Queued, 0, None, 0), outbox := map[0 := SENT_OUT], msgs := map[0 := Msg(Ready, 0, 0, 0)])

  lemma ReachQueued() returns (run: seq<Step>)
    ensures Leads(CreatedPending(0, 0), run, QUEUED)
  {
    var s := CreatedPending(0, 0);
    var t := s;
    run := [];
    run, t := SendOut(s, run, t, 0, 0, 0);
    run, t := Take(s, run, t, Dispatch(0, MarkPublished(Ok)));
    run, t := Take(s, run, t, Dispatch(0, QueueRow(true)));
    assert t.msgs == QUEUED.msgs && t.outbox == QUEUED.outbox && t.dispatchers == map[];
  }

  // ---- the end of the road ---------------------------------------------------------------

  /** No message outside the dead-letter queue, no owed outbox row, no scheduler row and nobody at work. */
  predicate Deserted(s: State) {
    && s.row.sentAt.None?
    && s.workers == map[] && s.dispatchers == map[]
    && (forall m :: m in s.msgs ==> s.msgs[m].place.Dead?)
    && (forall o :: o in s.outbox ==> s.outbox[o].published)
    && s.sched.None? && s.schedulers == {} && s.openReplays == 0
  }

  predicate Abandoned(s: State) {
    s.row.status == Queued && Deserted(s)
  }

  predicate Over(st: Status) {
    st == Queued || st == Cancelled
  }

  /**
   An abandoned notification is never attempted again: whatever happens, it stays queued until
   somebody cancels it.
   */
  lemma {:induction false} AbandonedForever(s: State, steps: seq<Step>)
    requires Over(s.row.status) && Deserted(s) && IsRun(s, steps)
    ensures var t := Final(s, steps);
            Over(t.row.status) && Deserted(t) && t.ledger.successes == s.ledger.successes
    decreases |steps|
  {
    if steps != [] {
      AbandonedForever(Apply(s, steps[0]), steps[1..]);
    }
  }

  // ---- the lock outlives its holder ----------------------------------------------------------

  /** The only message of a queued notification, and a live lock nobody is left to release. */
  predicate LockOutlives(s: State, m: MsgId, w: WorkerId) {
    && s.row.status == Queued && s.row.sentAt.None?
    && s.workers == map[] && s.dispatchers == map[]
    && m in s.msgs && s.msgs == map[m := s.msgs[m]]
    && s.msgs[m].place.Ready? && s.msgs[m].redeliveries < MAX_REDELIVERIES
    && s.lock.Some? && s.now < s.lock.value.until && s.lock.value.holder != w
    && (forall o :: o in s.outbox ==> s.outbox[o].published)
    && s.sched.None? && s.schedulers == {} && s.openReplays == 0
  }

  /** Whoever picks that message up defers to the lock, acks, and abandons the notification. */
  lemma DeferringAbandons(s: State, run: seq<Step>, t: State, m: MsgId, w: WorkerId)
    returns (run': seq<Step>, t': State)
    requires Leads(s, run, t) && LockOutlives(t, m, w)
    ensures Leads(s, run', t') && Abandoned(t')
  {
    run', t' := PickUpRefused(s, run, t, m, w);
    run', t' := Take(s, run', t', Work(w, Local(LockRevert(true))));
    run', t' := Take(s, run', t', Work(w, Settle));
    assert t'.workers == map[] && t'.msgs == map[];
  }

  /** A handler at the rate-limit gate: row picked up, lock taken. */
  const GATED := QUEUED.(
    row := Row(Sending, 0, None, 0),
    msgs := map[0 := Msg(Unacked(1), 0, 1, 0)],
    workers := map[1 := Worker(Gate, 0, 0, 0, 0, 1, 0)],
    lock := Some(Lock(1, 60_000)))

  lemma ReachGate() returns (run: seq<Step>)
    ensures Leads(CreatedPending(0, 0), run, GATED)
  {
    var s := CreatedPending(0, 0);
    run := ReachQueued();
    var t := QUEUED;
    run, t := PickUp(s, run, t, 0, 1);
    assert t.workers == GATED.workers && t.msgs == GATED.msgs;
  }

  /** The same handler throttled for good: row reverted, lock still held, about to publish the retry copy. */
  const ROUTING := GATED.(
    row := Row(Queued, 0, None, 0),
    workers := map[1 := Worker(Routing(FiveSeconds, false), 0, 0, 0, 0, 1, 0)])

  lemma ReachRouting() returns (run: seq<Step>)
    ensures Leads(CreatedPending(0, 0), run, ROUTING)
  {
    var s := CreatedPending(0, 0);
    run := ReachGate();
    var t := GATED;
    run, t := Take(s, run, t, Work(1, Local(GateThrottle)));
    run, t := Take(s, run, t, Work(1, Local(ThrottleRevert(true))));
    assert t.workers == ROUTING.workers;
  }

  /** Crash of the holder: the next delivery strands the notification. */
  lemma CrashedHolderStrands() returns (run: seq<Step>, t: State)
    ensures Leads(CreatedPending(0, 0), run, t) && Abandoned(t) && !Carried(t)
  {
    var s := CreatedPending(0, 0);
    run := ReachRouting();
    run, t := Take(s, run, ROUTING, Work(1, Crash));
    assert t.workers == map[] && t.msgs == map[0 := Msg(Ready, 0, 1, 1)];
    run, t := DeferringAbandons(s, run, t, 0, 2);
  }

  /** The retry copy is in its wait queue and its publisher about to release the lock. */
  const ROUTED := ROUTING.(
    msgs := map[0 := Msg(Unacked(1), 0, 1, 0), 1 := Msg(Waiting(FiveSeconds, 5_000), 0, 1, 1)],
    workers := map[1 := Worker(Unlocking(ExitAck), 0, 0, 0, 0, 1, 0)])

  lemma ReachRouted() returns (run: seq<Step>)
    ensures Leads(CreatedPending(0, 0), run, ROUTED)
  {
    var s := CreatedPending(0, 0);
    run := ReachRouting();
    var t := ROUTING;
    run, t := Take(s, run, t, Work(1, Route(Confirm, 1)));
    assert t.msgs == ROUTED.msgs && t.workers == ROUTED.workers;
  }

  /** The retry copy is back in the channel queue while its publisher has still not released the lock. */
  const COPY_BACK := ROUTED.(
    now := 5_000, msgs := map[0 := Msg(Unacked(1), 0, 1, 0), 1 := Msg(Ready, 0, 1, 1)])

  lemma ReachCopyBack() returns (run: seq<Step>)
    ensures Leads(CreatedPending(0, 0), run, COPY_BACK)
  {
    var s := CreatedPending(0, 0);
    run := ReachRouted();
    var t := ROUTED;
    run, t := Take(s, run, t, Tick(5_000));
    run, t := Take(s, run, t, Expire(1));
    assert t.msgs == COPY_BACK.msgs;
  }

  /**
   The error of the deferred DEL is swallowed: if it fails, the retry copy strands the
   notification five seconds later.
   */
  lemma SwallowedDelStrands() returns (run: seq<Step>, t: State)
    ensures Leads(CreatedPending(0, 0), run, t) && Abandoned(t) && !Carried(t)
  {
    var s := CreatedPending(0, 0);
    run := ReachCopyBack();
    run, t := Take(s, run, COPY_BACK, Work(1, Local(Unlock(false))));
    run, t := Take(s, run, t, Work(1, Settle));
    assert t.workers == map[] && t.msgs == map[1 := Msg(Ready, 0, 1, 1)];
    run, t := DeferringAbandons(s, run, t, 1, 2);
  }

  /** The copy's own handler has picked the row up and found the lock taken. */
  const REFUSED := COPY_BACK.(
    row := Row(Sending, 0, None, 5_000),
    msgs := map[0 := Msg(Unacked(1), 0, 1, 0), 1 := Msg(Unacked(2), 0, 2, 1)],
    workers := map[1 := Worker(Unlocking(ExitAck), 0, 0, 0, 0, 1, 0), 2 := Worker(Refused, 1, 5_000, 0, 0, 2, 1)])

  lemma ReachRefused() returns (run: seq<Step>)
    ensures Leads(CreatedPending(0, 0), run, REFUSED)
  {
    var s := CreatedPending(0, 0);
    run := ReachCopyBack();
    var t := COPY_BACK;
    run, t := PickUpRefused(s, run, t, 1, 2);
    assert t.msgs == REFUSED.msgs && t.workers == REFUSED.workers;
  }

  /**
   A live holder that has already published its retry copy is no carrier: the copy's own
   delivery defers to it.
   */
  lemma RoutedHolderStrands() returns (run: seq<Step>, t: State)
    ensures Leads(CreatedPending(0, 0), run, t) && !Carried(t)
    ensures t.lock.Some? && t.lock.value.holder in t.workers && t.now < t.lock.value.until
  {
    var s := CreatedPending(0, 0);
    run := ReachRefused();
    run, t := Take(s, run, REFUSED, Work(2, Local(LockRevert(true))));
    assert forall m :: !Live(t, m);
    assert forall o :: !Owed(t, o);
  }

  /** A throttled handler whose connection broke: its message is back in the queue. */
  const CUT_OFF := GATED.(
    msgs := map[0 := Msg(Ready, 0, 1, 1)], workers := map[1 := Worker(Throttled, 0, 0, 0, 0, 1, 0)])

  lemma ReachCutOff() returns (run: seq<Step>)
    ensures Leads(CreatedPending(0, 0), run, CUT_OFF)
  {
    var s := CreatedPending(0, 0);
    run := ReachGate();
    var t := GATED;
    run, t := Take(s, run, t, Work(1, Local(GateThrottle)));
    run, t := Take(s, run, t, Work(1, ConnectionLost));
    assert t.msgs == CUT_OFF.msgs && t.workers == CUT_OFF.workers;
  }

  lemma ReachDropped() returns (run: seq<Step>)
    ensures Leads(CreatedPending(0, 0), run, CUT_OFF.(msgs := map[]))
  {
    var s := CreatedPending(0, 0);
    run := ReachCutOff();
    var t := CUT_OFF;
    run, t := Take(s, run, t, Deliver(0, 2));
    run, t := Take(s, run, t, Work(2, Local(Cas(Ok))));
    run, t := Take(s, run, t, Work(2, Settle));
    assert t.workers == CUT_OFF.workers && t.msgs == map[];
  }

  /** That handler reverts a row whose message somebody else has meanwhile dropped. */
  lemma LostConnectionStrands() returns (run: seq<Step>, t: State)
    ensures Leads(CreatedPending(0, 0), run, t) && Abandoned(t) && !Carried(t)
  {
    var s := CreatedPending(0, 0);
    run := ReachDropped();
    run, t := Take(s, run, CUT_OFF.(msgs := map[]), Work(1, Local(ThrottleRevert(true))));
    run, t := Take(s, run, t, Work(1, Crash));
    assert t.workers == map[] && t.msgs == map[];
  }

  // ---- the redelivery cap -----------------------------------------------------------------------

  /** n pickups of the only message have failed, each requeued through the 5s tier; copies take ids 0 and 1 in turn. */
  function Requeued(n: nat): State {
    QUEUED.(now := 5_000 * n, msgs := map[n % 2 := Msg(Ready, n, n, 0)])
  }

  lemma MissPickup(s: State, run: seq<Step>, t: State, m: MsgId) returns (run': seq<Step>, t': State)
    requires Leads(s, run, t) && m in t.msgs && t.msgs[m].place.Ready? && t.msgs[m].redeliveries < MAX_REDELIVERIES
    requires t.workers == map[] && t.lock.None?
    ensures Leads(s, run', t')
    ensures t' == t.(
              msgs := t.msgs[m := t.msgs[m].(place := Unacked(1), handled := t.msgs[m].handled + 1)],
              workers := map[1 := Worker(Requeueing, m, t.now, t.row.attempts, t.msgs[m].redeliveries,
                                         t.msgs[m].handled + 1, t.msgs[m].bounces)])
  {
    run', t' := Take(s, run, t, Deliver(m, 1));
    run', t' := Take(s, run', t', Work(1, Local(Cas(NotDone))));
  }

  /** A delivery whose pickup fails puts its copy into the 5s tier and acks. */
  lemma FailPickup(s: State, run: seq<Step>, t: State, m: MsgId, copy: MsgId) returns (run': seq<Step>, t': State)
    requires Leads(s, run, t) && m in t.msgs && t.msgs == map[m := t.msgs[m]] && copy != m
    requires t.msgs[m].place.Ready? && t.msgs[m].redeliveries < MAX_REDELIVERIES && t.workers == map[] && t.lock.None?
    ensures Leads(s, run', t')
    ensures t' == t.(msgs := map[copy := Msg(Waiting(FiveSeconds, t.now + 5_000), t.msgs[m].redeliveries + 1,
                                             t.msgs[m].handled + 1, t.msgs[m].bounces)])
  {
    run', t' := MissPickup(s, run, t, m);
    run', t' := Take(s, run', t', Work(1, Requeue(Confirm, copy)));
    run', t' := Take(s, run', t', Work(1, Settle));
    assert t'.workers == map[];
    assert t'.msgs == map[copy := t'.msgs[copy]];
  }

  lemma {:induction false} ReachRequeued(n: nat) returns (run: seq<Step>)
    requires n <= MAX_REDELIVERIES
    ensures Leads(CreatedPending(0, 0), run, Requeued(n))
  {
    var s := CreatedPending(0, 0);
    if n == 0 {
      run := ReachQueued();
    } else {
      run := ReachRequeued(n - 1);
      var t := Requeued(n - 1);
      run, t := FailPickup(s, run, t, (n - 1) % 2, n % 2);
      run, t := Take(s, run, t, Tick(5_000));
      run, t := Take(s, run, t, Expire(n % 2));
      assert t.msgs == Requeued(n).msgs;
    }
  }

  /**
   A message whose pickup failed twenty times is dead-lettered by the redelivery cap, but its row
   stays queued: not dead_letter, so no replay takes it, and not sending, so no sweep does.
   */
  lemma CapStrands() returns (run: seq<Step>, t: State)
    ensures Leads(CreatedPending(0, 0), run, t) && Abandoned(t) && !Carried(t)
    ensures t.msgs == map[0 := Msg(Dead, 20, 21, 0)]
  {
    var s := CreatedPending(0, 0);
    run := ReachRequeued(20);
    run, t := Take(s, run, Requeued(20), Deliver(0, 1));
    run, t := Take(s, run, t, Work(1, Local(CapExceeded)));
    run, t := Take(s, run, t, Work(1, Settle));
    assert t.workers == map[] && t.msgs == map[0 := Msg(Dead, 20, 21, 0)];
  }
}
