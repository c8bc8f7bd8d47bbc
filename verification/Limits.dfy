/** Runs that leave the other delivery guarantees: what happens without their side conditions. */
module Limits {
  import opened Wrappers
  import opened Notifications
  import opened Delivery
  import opened Carriers
  import opened Stranding

  // ---- a replay whose UPDATE comes late -----------------------------------------------------

  /** Dead-lettered after a terminal provider fault, with two replay requests that have read the status. */
  const TWO_REPLAYS := QUEUED.(
    row := Row(DeadLetter, 0, None, 0), msgs := map[0 := Msg(Dead, 0, 1, 0)], openReplays := 2)

  /** A handler with a terminal fault dead-letters its notification and releases the lock. */
  lemma GiveUpForGood(s: State, run: seq<Step>, t: State, w: WorkerId) returns (run': seq<Step>, t': State)
    requires Leads(s, run, t) && w in t.workers && t.workers[w].phase == Faulted(false) && t.row.sentAt.None?
    ensures Leads(s, run', t')
    ensures t' == t.(
              row := t.row.(status := DeadLetter, updatedAt := t.now), lock := None,
              workers := t.workers[w := t.workers[w].(phase := DeadLettering)])
  {
    run', t' := Take(s, run, t, Work(w, Local(GiveUp(true))));
    run', t' := Take(s, run', t', Work(w, Local(Unlock(true))));
  }

  const FAULTED := GATED.(workers := map[1 := Worker(Faulted(false), 0, 0, 0, 0, 1, 0)])

  lemma ReachFault() returns (run: seq<Step>)
    ensures Leads(CreatedPending(0, 0), run, FAULTED)
  {
    var s := CreatedPending(0, 0);
    run := ReachGate();
    var t := GATED;
    run, t := Take(s, run, t, Work(1, Local(CallProvider)));
    run, t := Take(s, run, t, Work(1, Local(ProviderFault(false))));
    assert t.workers == FAULTED.workers;
  }

  lemma ReachDeadLetter() returns (run: seq<Step>)
    ensures Leads(CreatedPending(0, 0), run, TWO_REPLAYS.(openReplays := 0))
  {
    var s := CreatedPending(0, 0);
    run := ReachFault();
    var t := FAULTED;
    run, t := GiveUpForGood(s, run, t, 1);
    run, t := Take(s, run, t, Work(1, Settle));
    assert t.msgs == TWO_REPLAYS.msgs && t.workers == map[];
  }

  /** The first replay went through and its message waits for a worker. */
  const REPLAYED := TWO_REPLAYS.(
    row := Row(Pending, 0, None, 0), openReplays := 1,
    outbox := map[0 := SENT_OUT, 1 := OutboxRow(false, 0, Some(0), 1, 0, Open)],
    dispatchers := map[1 := Dispatcher(1, 0, Confirmed)],
    msgs := map[0 := Msg(Dead, 0, 1, 0), 1 := Msg(Ready, 0, 0, 0)],
    ledger := NEW_LEDGER.(replays := 1))

  lemma ReachTwoReplays() returns (run: seq<Step>)
    ensures Leads(CreatedPending(0, 0), run, TWO_REPLAYS)
  {
    var s := CreatedPending(0, 0);
    run := ReachDeadLetter();
    var t := TWO_REPLAYS.(openReplays := 0);
    run, t := Take(s, run, t, ReplayRead);
    run, t := Take(s, run, t, ReplayRead);
  }

  lemma ReachReplayed() returns (run: seq<Step>)
    ensures Leads(CreatedPending(0, 0), run, REPLAYED)
  {
    var s := CreatedPending(0, 0);
    run := ReachTwoReplays();
    var t := TWO_REPLAYS;
    run, t := Take(s, run, t, ReplayWrite(1));
    run, t := SendOut(s, run, t, 1, 1, 1);
    assert t.msgs == REPLAYED.msgs && t.outbox == REPLAYED.outbox && t.dispatchers == REPLAYED.dispatchers;
  }

  lemma Succeed(s: State, run: seq<Step>, t: State, w: WorkerId) returns (run': seq<Step>, t': State)
    requires Leads(s, run, t) && w in t.workers && t.workers[w].phase.Gate?
    requires t.row.status == Sending && t.row.sentAt.None? && t.now < t.workers[w].start + HANDLE_TIMEOUT_MS
    ensures Leads(s, run', t') && t'.row.status == Sent && t'.outbox == t.outbox && t'.openReplays == t.openReplays
  {
    run', t' := Take(s, run, t, Work(w, Local(CallProvider)));
    run', t' := Take(s, run', t', Work(w, Local(ProviderOk)));
    run', t' := Take(s, run', t', Work(w, Local(SetSent(Ok))));
  }

  /** The second replay's unguarded UPDATE reopens a row that has been sent in the meantime. */
  lemma LateReplayReopensSent() returns (run: seq<Step>, sent: State, step: Step)
    ensures Leads(CreatedPending(0, 0), run, sent) && Enabled(sent, step)
    ensures sent.row.status == Sent && Apply(sent, step).row.status == Pending
  {
    var s := CreatedPending(0, 0);
    var t := REPLAYED;
    run := ReachReplayed();
    run, t := PickUp(s, run, t, 1, 2);
    run, sent := Succeed(s, run, t, 2);
    step := ReplayWrite(2);
  }

  // ---- a handler that outlives its lock ---------------------------------------------------

  /** Handler 2 has outlived its lock, which handler 3 now holds, in a row of which one replay is still open. */
  ghost predicate Overtaken(t: State) {
    && t.row.status == Sending && t.row.sentAt.None? && t.openReplays > 0
    && 2 in t.workers && t.workers[2].phase.Gate?
    && 3 in t.workers && t.workers[3].phase.Gate? && t.workers[3].start == t.now && 4 !in t.workers
    && t.lock.Some? && t.lock.value.holder == 3
    && 3 !in t.outbox && 3 !in t.msgs && 3 !in t.dispatchers
  }

  /** Handler 2 at the gate with the lock, one replay of its notification still open. */
  const SLOW := REPLAYED.(
    row := Row(Sending, 0, None, 0),
    msgs := map[0 := Msg(Dead, 0, 1, 0), 1 := Msg(Unacked(2), 0, 1, 0)],
    workers := map[2 := Worker(Gate, 1, 0, 0, 0, 1, 0)],
    lock := Some(Lock(2, 60_000)))

  lemma ReachSlow() returns (run: seq<Step>)
    ensures Leads(CreatedPending(0, 0), run, SLOW)
  {
    var s := CreatedPending(0, 0);
    run := ReachReplayed();
    var t := REPLAYED;
    run, t := PickUp(s, run, t, 1, 2);
    assert t.workers == SLOW.workers && t.msgs == SLOW.msgs;
  }

  const SWEPT := SLOW.(
    now := 300_001, row := Row(Queued, 1, None, 300_001), outbox := SLOW.outbox[2 := NEW_OUTBOX_ROW],
    life := NEW_LIFE.(sweeps := 1))

  lemma ReachSwept() returns (run: seq<Step>)
    ensures Leads(CreatedPending(0, 0), run, SWEPT)
  {
    var s := CreatedPending(0, 0);
    run := ReachSlow();
    var t := SLOW;
    run, t := Take(s, run, t, Tick(300_001));
    run, t := Take(s, run, t, Sweep(2));
  }

  lemma ReachOvertaken() returns (run: seq<Step>, t: State)
    ensures Leads(CreatedPending(0, 0), run, t) && Overtaken(t)
  {
    var s := CreatedPending(0, 0);
    run := ReachSwept();
    t := SWEPT;
    run, t := SendOut(s, run, t, 2, 2, 2);
    run, t := PickUp(s, run, t, 2, 3);
  }

  /** Handler 2's late DEL removes handler 3's lock. */
  lemma LateDel(s: State, run: seq<Step>, t: State) returns (run': seq<Step>, t': State)
    requires Leads(s, run, t) && Overtaken(t)
    ensures Leads(s, run', t') && t'.lock.None?
    ensures 3 in t'.workers && t'.workers[3].phase.Calling? && 4 !in t'.workers
    ensures t'.openReplays > 0 && 3 !in t'.outbox && 3 !in t'.msgs && 3 !in t'.dispatchers
  {
    run', t' := Take(s, run, t, Work(3, Local(CallProvider)));
    run', t' := Take(s, run', t', Work(2, Local(GateError)));
    run', t' := Take(s, run', t', Work(2, Local(Unlock(true))));
  }

  /** A DEL that comes after the lock's lifetime lets two provider calls overlap. */
  lemma LateDelOverlaps() returns (run: seq<Step>, t: State)
    ensures Leads(CreatedPending(0, 0), run, t)
    ensures 3 in t.workers && t.workers[3].phase.Calling? && 4 in t.workers && t.workers[4].phase.Calling?
  {
    var s := CreatedPending(0, 0);
    run, t := ReachOvertaken();
    run, t := LateDel(s, run, t);
    run, t := Take(s, run, t, ReplayWrite(3));
    run, t := SendOut(s, run, t, 3, 3, 3);
    run, t := PickUp(s, run, t, 3, 4);
    run, t := Take(s, run, t, Work(4, Local(CallProvider)));
  }

  // ---- publishes that keep failing ---------------------------------------------------------

  /** n publishes of the only outbox row have failed and been recorded. */
  function Tried(n: nat): State {
    CreatedPending(0, 0).(outbox := map[0 := OutboxRow(false, n, None, 0, n, Open)])
  }

  lemma {:induction false} ReachTried(n: nat) returns (run: seq<Step>)
    requires n < MAX_ATTEMPTS
    ensures Leads(CreatedPending(0, 0), run, Tried(n))
  {
    var s := CreatedPending(0, 0);
    if n == 0 {
      run := [];
    } else {
      run := ReachTried(n - 1);
      var t := Tried(n - 1);
      run, t := Take(s, run, t, ClaimRow(0, 0));
      run, t := Take(s, run, t, Dispatch(0, Publish(FailDropped, 0)));
      run, t := Take(s, run, t, Dispatch(0, RecordFailure(true)));
      assert t.outbox == Tried(n).outbox && t.dispatchers == map[];
    }
  }

  /** The dispatcher's tenth failed publish, not yet acted upon. */
  const TENTH := Tried(9).(
    outbox := map[0 := OutboxRow(false, 9, Some(0), 0, 10, Open)],
    dispatchers := map[0 := Dispatcher(0, 9, PublishFailed)])

  lemma ReachTenth() returns (run: seq<Step>)
    ensures Leads(CreatedPending(0, 0), run, TENTH)
  {
    var s := CreatedPending(0, 0);
    run := ReachTried(9);
    var t := Tried(9);
    run, t := Take(s, run, t, ClaimRow(0, 0));
    run, t := Take(s, run, t, Dispatch(0, Publish(FailDropped, 0)));
    assert t.outbox == TENTH.outbox && t.dispatchers == TENTH.dispatchers;
  }

  /** MarkDeadLetter has no status guard: a cancelled notification ends up dead-lettered, and so replayable. */
  lemma CancelledBecomesDeadLetter() returns (run: seq<Step>, cancelled: State, step: Step)
    ensures Leads(CreatedPending(0, 0), run, cancelled) && Enabled(cancelled, step)
    ensures cancelled.row.status == Cancelled && Apply(cancelled, step).row.status == DeadLetter
  {
    run := ReachTenth();
    run, cancelled := Take(CreatedPending(0, 0), run, TENTH, CancelRequest);
    step := Dispatch(0, DeadLetterRow(true));
  }

  /**
   If that write is lost but the outbox row is closed all the same, the row is marked published,
   unpublished, and strands.
   */
  lemma LostDeadLetterStrands() returns (run: seq<Step>, t: State)
    ensures Leads(CreatedPending(0, 0), run, t) && !Carried(t)
    ensures t.row.status == Pending && t.outbox == map[0 := OutboxRow(true, 9, Some(0), 0, 10, WriteLost)]
    ensures t.msgs == map[] && t.workers == map[] && t.dispatchers == map[]
  {
    var s := CreatedPending(0, 0);
    run := ReachTenth();
    run, t := Take(s, run, TENTH, Dispatch(0, DeadLetterRow(false)));
    run, t := Take(s, run, t, Dispatch(0, CloseRow(true)));
    assert t.outbox == map[0 := OutboxRow(true, 9, Some(0), 0, 10, WriteLost)] && t.dispatchers == map[];
    assert forall o :: !Owed(t, o);
  }
}
