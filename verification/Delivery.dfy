/**
 The at-least-once delivery protocol of one notification as a transition system.

 A state holds the Postgres row, its scheduler row and outbox rows, the broker's copies of
 its message, the Redis in-flight lock, and every process that is working on it: outbox
 dispatchers, schedulers, worker handlers and open replay requests.  One step is one SQL
 statement or transaction, one Redis command, one publish, one broker event, or the passing
 of time.  A process may crash between any two of its steps; a statement's reply may be lost;
 a publish may be confirmed, fail, or fail although the broker kept the message.
 */
module Delivery {
  import opened Wrappers
  import opened Notifications
  import opened Topology

  /** worker handleTimeout, in-flight lock TTL, outbox and scheduler claim TTL. */
  const HANDLE_TIMEOUT_MS := 30_000
  const LOCK_TTL_MS := 60_000
  const CLAIM_TTL_MS := 60_000

  /** Pipeline.maxAttempts and outbox Config.MaxAttempts; maxRedeliveries. */
  const MAX_ATTEMPTS := 10
  const MAX_REDELIVERIES := 20

  type WorkerId = nat
  type MsgId = nat
  type RowId = nat
  type DispatcherId = nat
  type SchedulerId = nat

  // ---- broker -----------------------------------------------------------------------

  /** Where the broker keeps a message of this notification. */
  datatype Place =
    | Ready                               // channel queue
    | Waiting(tier: Tier, until: int)     // per-channel wait queue
    | Dead                                // dead-letter queue
    | Unacked(worker: WorkerId)           // delivered, neither acked nor nacked

  /**
   redeliveries is the x-redeliveries header.  handled counts how often this message or the
   ones it was copied from were handed to a worker; bounces counts the re-handlings in that
   line that made no progress (throttle, open breaker, nack-requeue, crash, lost connection,
   or a retry whose row update did not take).
   */
  datatype Msg = Msg(place: Place, redeliveries: nat, handled: nat, bounces: nat)

  // ---- outbox -----------------------------------------------------------------------

  /** What the terminal failure path did to the notification. */
  datatype Verdict = Open | DeadLettered | AlreadySent | WriteLost

  /** confirmed and failed count the broker's answers to publishes of this row. */
  datatype OutboxRow = OutboxRow(
    published: bool, attempts: nat, claimedAt: Option<int>,
    confirmed: nat, failed: nat, verdict: Verdict)

  const NEW_OUTBOX_ROW := OutboxRow(false, 0, None, 0, 0, Open)

  datatype DispatcherPhase = Claimed | Confirmed | PublishFailed | GaveUp | Marked

  /** One dispatcher working on one claimed row; attempts is the column as it was claimed. */
  datatype Dispatcher = Dispatcher(row: RowId, attempts: nat, phase: DispatcherPhase)

  // ---- worker -----------------------------------------------------------------------

  /** How handle returns: nil, an ordinary error, queue.ErrTerminal. */
  datatype Exit = ExitAck | ExitError | ExitTerminal

  datatype Phase =
    | Start                                // Handle entered
    | Holding                              // pickup CAS succeeded
    | Refused                              // in-flight lock held by another worker
    | Gate                                 // lock taken, at the rate-limit gate
    | Throttled                            // gate denied for good
    | BreakerOpen
    | Calling                              // provider call in progress
    | Faulted(retryable: bool)
    | Succeeded                            // provider accepted, MarkSent not yet run
    | SentFailed                           // MarkSent returned an error
    | Routing(tier: Tier, paid: bool)      // about to publish a copy to a wait tier
    | Unlocking(exit: Exit)                // deferred Del of the lock
    | Requeueing                           // requeueViaWaitTier
    | Acking | Nacking | DeadLettering     // what Handle told the consumer to do

  /**
   One delivery being handled.  attempts is row.AttemptCount as the CAS returned it, before that
   attempt_count at delivery.
   */
  datatype Worker = Worker(
    phase: Phase, msg: MsgId, start: int, attempts: nat,
    redeliveries: nat, handled: nat, bounces: nat)

  datatype Lock = Lock(holder: WorkerId, until: int)

  // ---- scheduler --------------------------------------------------------------------

  datatype SchedulerRow = SchedulerRow(dueAt: int, claimedAt: Option<int>)

  // ---- history ----------------------------------------------------------------------

  /**
   Counted since the notification was created or last replayed.  A retried provider fault is
   taken when its revert moves the very row its worker picked up, displaced otherwise;
   retryTiers lists the wait tier chosen by each retry.
   */
  datatype Life = Life(
    retryReverts: nat, sentReverts: nat, sweeps: nat,
    taken: nat, displaced: nat, retryTiers: seq<Tier>)

  const NEW_LIFE := Life(0, 0, 0, 0, 0, [])

  /** Counted over the whole run. */
  datatype Ledger = Ledger(
    successes: nat, sentWrites: nat, sentMisses: nat, crashedAfterSuccess: nat,
    replays: nat, taken: nat, lostVerdicts: nat, fired: seq<int>)

  const NEW_LEDGER := Ledger(0, 0, 0, 0, 0, 0, 0, [])

  datatype State = State(
    now: int,
    row: Row,
    sched: Option<SchedulerRow>,
    schedulers: set<SchedulerId>,
    outbox: map<RowId, OutboxRow>,
    dispatchers: map<DispatcherId, Dispatcher>,
    msgs: map<MsgId, Msg>,
    workers: map<WorkerId, Worker>,
    lock: Option<Lock>,
    openReplays: nat,
    life: Life,
    ledger: Ledger)

  /** persist() without a future scheduled_at, and every batch item: row and outbox row in one transaction. */
  function CreatedPending(now: int, o: RowId): State {
    State(now, Row(Pending, 0, None, now), None, {}, map[o := NEW_OUTBOX_ROW],
          map[], map[], map[], None, 0, NEW_LIFE, NEW_LEDGER)
  }

  /** persist() with scheduled_at in the future: row and scheduler row in one transaction. */
  function CreatedScheduled(now: int, dueAt: int): State {
    State(now, Row(Scheduled, 0, None, now), Some(SchedulerRow(dueAt, None)), {}, map[],
          map[], map[], map[], None, 0, NEW_LIFE, NEW_LEDGER)
  }

  ghost predicate Init(s: State) {
    || (exists o :: s == CreatedPending(s.now, o))
    || (exists due :: s.now < due && s == CreatedScheduled(s.now, due))
  }

  // ---- steps ------------------------------------------------------------------------

  /** A statement ran and answered, ran but the answer was lost, or did not run. */
  datatype Reply = Ok | LostReply | NotDone

  /** The three outcomes of a publish with confirms. */
  datatype PublishReply = Confirm | FailKept | FailDropped

  /** The steps of a handler that touch only the row, the lock and its own progress. */
  datatype LocalStep =
    | CapExceeded
    | Cas(reply: Reply)
    | TryLock(reply: Reply)
    | LockRevert(landed: bool)
    | GateError | GateThrottle | GateBreaker
    | CallProvider | CallRefused(retryable: bool)
    | ThrottleRevert(landed: bool) | ThrottleTimeout(landed: bool) | BreakerRevert(landed: bool)
    | ProviderOk | ProviderFault(retryable: bool)
    | RetryRevert(landed: bool)
    | GiveUp(landed: bool)
    | SetSent(reply: Reply)
    | SentRevert(landed: bool)
    | Unlock(landed: bool)

  datatype WorkerStep =
    | Local(act: LocalStep)
    | Route(answer: PublishReply, copy: MsgId)
    | Requeue(answer: PublishReply, copy: MsgId)
    | Settle
    | Crash
    | ConnectionLost

  datatype DispatchStep =
    | Publish(answer: PublishReply, msg: MsgId)
    | MarkPublished(reply: Reply)
    | QueueRow(landed: bool)
    | RecordFailure(landed: bool)
    | DeadLetterRow(landed: bool)
    | CloseRow(landed: bool)
    | DispatcherCrash

  datatype Step =
    | Tick(ms: int)
    | Deliver(msg: MsgId, worker: WorkerId)
    | Expire(msg: MsgId)
    | Work(worker: WorkerId, deed: WorkerStep)
    | ClaimRow(dispatcher: DispatcherId, row: RowId)
    | Dispatch(dispatcher: DispatcherId, doing: DispatchStep)
    | ClaimDue(scheduler: SchedulerId)
    | DispatchDue(scheduler: SchedulerId, landed: bool, row: RowId)
    | Sweep(row: RowId)
    | CancelRequest
    | ReplayRead | ReplayAbort | ReplayWrite(row: RowId)

  // ---- the worker -------------------------------------------------------------------

  predicate HasDelivery(s: State, w: WorkerId)
    requires w in s.workers
  {
    var m := s.workers[w].msg;
    m in s.msgs && s.msgs[m].place == Unacked(w)
  }

  /** The handler has not returned from handle, so its deferred DEL is still to come. */
  predicate Busy(p: Phase) {
    !(p.Requeueing? || p.Acking? || p.Nacking? || p.DeadLettering?)
  }

  predicate LockFree(s: State) {
    s.lock.None? || s.lock.value.until <= s.now
  }

  function SetRow(s: State, r: Row): State {
    s.(row := r)
  }

  function AfterIf(landed: bool, done: Written, r: Row): Row {
    if landed then After(done, r) else r
  }

  predicate Ran(reply: Reply) {
    reply.Ok? || reply.LostReply?
  }

  /** What a local step leaves behind. */
  datatype Effect = Effect(
    phase: Phase, attempts: nat, row: Row, lock: Option<Lock>, life: Life, ledger: Ledger)

  /** Nothing but the handler's phase changes. */
  function Go(s: State, w: WorkerId, p: Phase): Effect
    requires w in s.workers
  {
    Effect(p, s.workers[w].attempts, s.row, s.lock, s.life, s.ledger)
  }

  function DoCas(s: State, w: WorkerId, reply: Reply): Effect
    requires w in s.workers
  {
    var done := MarkSendingCAS(s.row, s.now);
    var row := AfterIf(Ran(reply), done, s.row);
    if !reply.Ok? then Go(s, w, Requeueing).(row := row)
    else if done.Updated? then Go(s, w, Holding).(row := row, attempts := row.attempts)
    else Go(s, w, Acking)
  }

  function DoTryLock(s: State, w: WorkerId, reply: Reply): Effect
    requires w in s.workers
  {
    var lock := if Ran(reply) && LockFree(s) then Some(Lock(w, s.now + LOCK_TTL_MS)) else s.lock;
    Go(s, w, if !reply.Ok? then Requeueing else if LockFree(s) then Gate else Refused).(lock := lock)
  }

  /** RevertToQueuedNoAttempt, its error ignored. */
  function DoRevertNoAttempt(s: State, w: WorkerId, landed: bool, next: Phase): Effect
    requires w in s.workers
  {
    Go(s, w, next).(row := AfterIf(landed, RevertToQueuedNoAttempt(s.row, s.now), s.row))
  }

  /** The retry revert takes effect on the row as this worker picked it up. */
  predicate RetryTakes(s: State, w: WorkerId, landed: bool)
    requires w in s.workers
  {
    landed && s.row.status == Sending && s.row.attempts == s.workers[w].attempts
  }

  function DoRetryRevert(s: State, w: WorkerId, landed: bool): Effect
    requires w in s.workers
  {
    var done := RevertToQueued(s.row, s.now);
    var tier := TierForAttempt(s.workers[w].attempts + 1);
    var takes := RetryTakes(s, w, landed);
    var one := if takes then 1 else 0;
    Go(s, w, Routing(tier, takes)).(
      row := AfterIf(landed, done, s.row),
      life := s.life.(
        retryReverts := s.life.retryReverts + (if landed && done.Updated? then 1 else 0),
        taken := s.life.taken + one,
        displaced := s.life.displaced + (1 - one),
        retryTiers := s.life.retryTiers + [tier]),
      ledger := s.ledger.(taken := s.ledger.taken + one))
  }

  function DoSetSent(s: State, w: WorkerId, reply: Reply): Effect
    requires w in s.workers
  {
    var done := MarkSent(s.row, s.now);
    var wrote := Ran(reply) && done.Updated?;
    Go(s, w, if reply.Ok? && done.Updated? then Unlocking(ExitAck) else SentFailed).(
      row := AfterIf(Ran(reply), done, s.row),
      ledger := s.ledger.(
        sentWrites := s.ledger.sentWrites + (if wrote then 1 else 0),
        sentMisses := s.ledger.sentMisses + (if wrote then 0 else 1)))
  }

  function DoSentRevert(s: State, w: WorkerId, landed: bool): Effect
    requires w in s.workers
  {
    var done := RevertToQueued(s.row, s.now);
    Go(s, w, Unlocking(ExitError)).(
      row := AfterIf(landed, done, s.row),
      life := s.life.(sentReverts := s.life.sentReverts + (if landed && done.Updated? then 1 else 0)))
  }

  /** The deferred DEL is unconditional: it removes whatever lock is there. */
  function DoUnlock(s: State, w: WorkerId, landed: bool): Effect
    requires w in s.workers && s.workers[w].phase.Unlocking?
  {
    Go(s, w, match s.workers[w].phase.exit
             case ExitAck => Acking
             case ExitError => Requeueing
             case ExitTerminal => DeadLettering)
    .(lock := if landed then None else s.lock)
  }

  /** May the worker retry this fault, or is the attempt budget spent? */
  predicate MayRetry(me: Worker) {
    me.phase == Faulted(true) && me.attempts + 1 < MAX_ATTEMPTS
  }

  predicate LocalEnabled(me: Worker, act: LocalStep) {
    match act
    case CapExceeded => me.phase.Start? && me.redeliveries >= MAX_REDELIVERIES
    case Cas(_) => me.phase.Start? && me.redeliveries < MAX_REDELIVERIES
    case TryLock(_) => me.phase.Holding?
    case LockRevert(_) => me.phase.Refused?
    case GateError => me.phase.Gate? || me.phase.Throttled?
    case GateThrottle => me.phase.Gate?
    case GateBreaker => me.phase.Gate? || me.phase.Throttled?
    case CallProvider => me.phase.Gate? || me.phase.Throttled?
    case CallRefused(_) => me.phase.Gate? || me.phase.Throttled?
    case ThrottleRevert(_) => me.phase.Throttled?
    case ThrottleTimeout(_) => me.phase.Throttled?
    case BreakerRevert(_) => me.phase.BreakerOpen?
    case ProviderOk => me.phase.Calling?
    case ProviderFault(_) => me.phase.Calling?
    case RetryRevert(_) => MayRetry(me)
    case GiveUp(_) => me.phase.Faulted? && !MayRetry(me)
    case SetSent(_) => me.phase.Succeeded?
    case SentRevert(_) => me.phase.SentFailed?
    case Unlock(_) => me.phase.Unlocking?
  }

  function LocalEffect(s: State, w: WorkerId, act: LocalStep): Effect
    requires w in s.workers && LocalEnabled(s.workers[w], act)
  {
    match act
    case CapExceeded => Go(s, w, DeadLettering)
    case Cas(reply) => DoCas(s, w, reply)
    case TryLock(reply) => DoTryLock(s, w, reply)
    case LockRevert(landed) => DoRevertNoAttempt(s, w, landed, Acking)
    case GateError => Go(s, w, Unlocking(ExitError))
    case GateThrottle => Go(s, w, Throttled)
    case GateBreaker => Go(s, w, BreakerOpen)
    case CallProvider => Go(s, w, Calling)
    case CallRefused(retryable) => Go(s, w, Faulted(retryable))
    case ThrottleRevert(landed) => DoRevertNoAttempt(s, w, landed, Routing(TierForAttempt(1), false))
    case ThrottleTimeout(landed) => DoRevertNoAttempt(s, w, landed, Unlocking(ExitError))
    case BreakerRevert(landed) =>
      DoRevertNoAttempt(s, w, landed, Routing(TierForAttempt(s.workers[w].attempts + 1), false))
    case ProviderOk => Go(s, w, Succeeded).(ledger := s.ledger.(successes := s.ledger.successes + 1))
    case ProviderFault(retryable) => Go(s, w, Faulted(retryable))
    case RetryRevert(landed) => DoRetryRevert(s, w, landed)
    case GiveUp(landed) =>
      Go(s, w, Unlocking(ExitTerminal)).(row := AfterIf(landed, MarkDeadLetter(s.row, s.now), s.row))
    case SetSent(reply) => DoSetSent(s, w, reply)
    case SentRevert(landed) => DoSentRevert(s, w, landed)
    case Unlock(landed) => DoUnlock(s, w, landed)
  }

  function LocalApply(s: State, w: WorkerId, e: Effect): State
    requires w in s.workers
  {
    s.(workers := s.workers[w := s.workers[w].(phase := e.phase, attempts := e.attempts)],
       row := e.row, lock := e.lock, life := e.life, ledger := e.ledger)
  }

  function AddMsg(s: State, m: MsgId, msg: Msg): State {
    s.(msgs := s.msgs[m := msg])
  }

  /** routeToRetryTier: the copy carries no x-redeliveries header. */
  function RetryCopy(s: State, w: WorkerId): Msg
    requires w in s.workers && s.workers[w].phase.Routing?
  {
    var me := s.workers[w];
    Msg(Waiting(me.phase.tier, s.now + TierTtlMs(me.phase.tier)), 0, me.handled,
        me.bounces + if me.phase.paid then 0 else 1)
  }

  /** requeueViaWaitTier: always the 5s tier, x-redeliveries one higher. */
  function RequeueCopy(s: State, w: WorkerId): Msg
    requires w in s.workers
  {
    var me := s.workers[w];
    Msg(Waiting(FiveSeconds, s.now + TierTtlMs(FiveSeconds)), me.redeliveries + 1, me.handled, me.bounces)
  }

  /** A publish leaves its message with the broker unless it failed for good. */
  function Published(s: State, answer: PublishReply, m: MsgId, msg: Msg): State {
    if answer.FailDropped? then s else AddMsg(s, m, msg)
  }

  function SetPhase(s: State, w: WorkerId, p: Phase): State
    requires w in s.workers
  {
    s.(workers := s.workers[w := s.workers[w].(phase := p)])
  }

  function DoRoute(s: State, w: WorkerId, answer: PublishReply, copy: MsgId): State
    requires w in s.workers && s.workers[w].phase.Routing?
  {
    SetPhase(Published(s, answer, copy, RetryCopy(s, w)), w,
             Unlocking(if answer.Confirm? then ExitAck else ExitError))
  }

  function DoRequeue(s: State, w: WorkerId, answer: PublishReply, copy: MsgId): State
    requires w in s.workers
  {
    SetPhase(Published(s, answer, copy, RequeueCopy(s, w)), w,
             if answer.Confirm? then Acking else Nacking)
  }

  function Bounced(m: Msg): Msg {
    m.(place := Ready, bounces := m.bounces + 1)
  }

  function Settled(s: State, w: WorkerId): map<MsgId, Msg>
    requires w in s.workers
  {
    var m := s.workers[w].msg;
    if !HasDelivery(s, w) then s.msgs
    else if s.workers[w].phase.Nacking? then s.msgs[m := Bounced(s.msgs[m])]
    else if s.workers[w].phase.DeadLettering? then s.msgs[m := s.msgs[m].(place := Dead)]
    else s.msgs - {m}
  }

  function DoCrash(s: State, w: WorkerId): State
    requires w in s.workers
  {
    var m := s.workers[w].msg;
    s.(workers := s.workers - {w},
       msgs := if HasDelivery(s, w) then s.msgs[m := Bounced(s.msgs[m])] else s.msgs,
       ledger := s.ledger.(crashedAfterSuccess :=
         s.ledger.crashedAfterSuccess + if s.workers[w].phase.Succeeded? then 1 else 0))
  }

  /** Past its context deadline a handler's request is refused before it leaves. */
  predicate CallInTime(s: State, me: Worker, act: LocalStep) {
    act.CallProvider? ==> s.now < me.start + HANDLE_TIMEOUT_MS
  }

  predicate WorkerEnabled(s: State, w: WorkerId, deed: WorkerStep) {
    w in s.workers &&
    var me := s.workers[w];
    match deed
    case Local(act) => LocalEnabled(me, act) && CallInTime(s, me, act)
    case Route(_, copy) => me.phase.Routing? && copy !in s.msgs
    case Requeue(_, copy) => me.phase.Requeueing? && copy !in s.msgs
    case Settle => me.phase.Acking? || me.phase.Nacking? || me.phase.DeadLettering?
    case Crash => true
    case ConnectionLost => HasDelivery(s, w)
  }

  function WorkerApply(s: State, w: WorkerId, deed: WorkerStep): State
    requires WorkerEnabled(s, w, deed)
  {
    match deed
    case Local(act) => LocalApply(s, w, LocalEffect(s, w, act))
    case Route(answer, copy) => DoRoute(s, w, answer, copy)
    case Requeue(answer, copy) => DoRequeue(s, w, answer, copy)
    case Settle => s.(workers := s.workers - {w}, msgs := Settled(s, w))
    case Crash => DoCrash(s, w)
    case ConnectionLost => AddMsg(s, s.workers[w].msg, Bounced(s.msgs[s.workers[w].msg]))
  }

  // ---- the outbox dispatcher --------------------------------------------------------

  function SetDispatcher(s: State, d: DispatcherId, p: DispatcherPhase): State
    requires d in s.dispatchers
  {
    s.(dispatchers := s.dispatchers[d := s.dispatchers[d].(phase := p)])
  }

  function DropDispatcher(s: State, d: DispatcherId): State {
    s.(dispatchers := s.dispatchers - {d})
  }

  function SetOutbox(s: State, o: RowId, r: OutboxRow): State {
    s.(outbox := s.outbox[o := r])
  }

  predicate ClaimEnabled(s: State, d: DispatcherId, o: RowId) {
    && d !in s.dispatchers && o in s.outbox && !s.outbox[o].published
    && (s.outbox[o].claimedAt.None? || s.outbox[o].claimedAt.value < s.now - CLAIM_TTL_MS)
  }

  function DoClaim(s: State, d: DispatcherId, o: RowId): State
    requires o in s.outbox
  {
    SetOutbox(s, o, s.outbox[o].(claimedAt := Some(s.now)))
    .(dispatchers := s.dispatchers[d := Dispatcher(o, s.outbox[o].attempts, Claimed)])
  }

  predicate DispatchEnabled(s: State, d: DispatcherId, doing: DispatchStep) {
    d in s.dispatchers && s.dispatchers[d].row in s.outbox &&
    var me := s.dispatchers[d];
    match doing
    case Publish(_, m) => me.phase.Claimed? && m !in s.msgs
    case MarkPublished(_) => me.phase.Confirmed?
    case QueueRow(_) => me.phase.Marked?
    case RecordFailure(_) => me.phase.PublishFailed? && me.attempts + 1 < MAX_ATTEMPTS
    case DeadLetterRow(_) => me.phase.PublishFailed? && me.attempts + 1 >= MAX_ATTEMPTS
    case CloseRow(_) => me.phase.GaveUp?
    case DispatcherCrash => true
  }

  function DoPublish(s: State, d: DispatcherId, answer: PublishReply, m: MsgId): State
    requires d in s.dispatchers && s.dispatchers[d].row in s.outbox
  {
    var o := s.dispatchers[d].row;
    var r := s.outbox[o];
    var s1 := Published(s, answer, m, Msg(Ready, 0, 0, 0));
    if answer.Confirm?
    then SetDispatcher(SetOutbox(s1, o, r.(confirmed := r.confirmed + 1)), d, Confirmed)
    else SetDispatcher(SetOutbox(s1, o, r.(failed := r.failed + 1)), d, PublishFailed)
  }

  function DoDeadLetterRow(s: State, d: DispatcherId, landed: bool): State
    requires d in s.dispatchers && s.dispatchers[d].row in s.outbox
  {
    var o := s.dispatchers[d].row;
    var done := MarkDeadLetter(s.row, s.now);
    var verdict := if !landed then WriteLost else if done.Updated? then DeadLettered else AlreadySent;
    SetDispatcher(SetOutbox(SetRow(s, AfterIf(landed, done, s.row)), o, s.outbox[o].(verdict := verdict)), d, GaveUp)
    .(ledger := s.ledger.(lostVerdicts := s.ledger.lostVerdicts + if landed then 0 else 1))
  }

  function DispatchApply(s: State, d: DispatcherId, doing: DispatchStep): State
    requires DispatchEnabled(s, d, doing)
  {
    var o := s.dispatchers[d].row;
    var r := s.outbox[o];
    match doing
    case Publish(answer, m) => DoPublish(s, d, answer, m)
    case MarkPublished(reply) =>
      var s1 := if Ran(reply) then SetOutbox(s, o, r.(published := true)) else s;
      if reply.Ok? then SetDispatcher(s1, d, Marked) else DropDispatcher(s1, d)
    case QueueRow(landed) =>
      DropDispatcher(SetRow(s, AfterIf(landed, MarkQueued(s.row, s.now), s.row)), d)
    case RecordFailure(landed) =>
      DropDispatcher(if landed then SetOutbox(s, o, r.(attempts := r.attempts + 1, claimedAt := None)) else s, d)
    case DeadLetterRow(landed) => DoDeadLetterRow(s, d, landed)
    case CloseRow(landed) =>
      DropDispatcher(if landed then SetOutbox(s, o, r.(published := true)) else s, d)
    case DispatcherCrash => DropDispatcher(s, d)
  }

  // ---- scheduler, sweeper, admin, clock ----------------------------------------------

  predicate DueEnabled(s: State, k: SchedulerId) {
    && k !in s.schedulers && s.sched.Some? && s.sched.value.dueAt <= s.now
    && (s.sched.value.claimedAt.None? || s.sched.value.claimedAt.value < s.now - CLAIM_TTL_MS)
  }

  /** dispatchOne's transaction: flip the row, write the outbox row and delete the scheduler row, or just delete it. */
  function DoDispatchDue(s: State, k: SchedulerId, landed: bool, o: RowId): State {
    var s1 := s.(schedulers := s.schedulers - {k});
    var done := MarkScheduledPending(s.row, s.now);
    if !landed then s1
    else if done.Updated? then
      SetOutbox(SetRow(s1, done.row), o, NEW_OUTBOX_ROW)
      .(sched := None, ledger := s.ledger.(fired := s.ledger.fired + [s.now]))
    else s1.(sched := None)
  }

  predicate SweepEnabled(s: State, o: RowId) {
    o !in s.outbox && SweepStuckSending(s.row, s.now).Updated?
  }

  function DoSweep(s: State, o: RowId): State
    requires SweepEnabled(s, o)
  {
    SetOutbox(SetRow(s, SweepStuckSending(s.row, s.now).row), o, NEW_OUTBOX_ROW)
    .(life := s.life.(sweeps := s.life.sweeps + 1))
  }

  /** The handler's UPDATE has no status guard: it writes whatever the earlier read saw. */
  function DoReplayWrite(s: State, o: RowId): State
    requires s.openReplays > 0
  {
    SetOutbox(SetRow(s, After(ResetForReplay(s.row, s.now), s.row)), o, NEW_OUTBOX_ROW)
    .(openReplays := s.openReplays - 1, life := NEW_LIFE,
      ledger := s.ledger.(replays := s.ledger.replays + 1))
  }

  /** The context deadline ends a provider call 30s after its handler started. */
  predicate TickEnabled(s: State, ms: int) {
    ms > 0 && forall w :: w in s.workers && s.workers[w].phase.Calling? ==>
                            s.now + ms <= s.workers[w].start + HANDLE_TIMEOUT_MS
  }

  function DoDeliver(s: State, m: MsgId, w: WorkerId): State
    requires m in s.msgs
  {
    var msg := s.msgs[m];
    var me := Worker(Start, m, s.now, s.row.attempts, msg.redeliveries, msg.handled + 1, msg.bounces);
    AddMsg(s, m, msg.(place := Unacked(w), handled := msg.handled + 1)).(workers := s.workers[w := me])
  }

  predicate Enabled(s: State, step: Step) {
    match step
    case Tick(ms) => TickEnabled(s, ms)
    case Deliver(m, w) => m in s.msgs && s.msgs[m].place.Ready? && w !in s.workers
                          && (s.lock.Some? ==> s.lock.value.holder != w)
    case Expire(m) => m in s.msgs && s.msgs[m].place.Waiting? && s.msgs[m].place.until <= s.now
    case Work(w, deed) => WorkerEnabled(s, w, deed)
    case ClaimRow(d, o) => ClaimEnabled(s, d, o)
    case Dispatch(d, doing) => DispatchEnabled(s, d, doing)
    case ClaimDue(k) => DueEnabled(s, k)
    case DispatchDue(k, _, o) => k in s.schedulers && o !in s.outbox
    case Sweep(o) => SweepEnabled(s, o)
    case CancelRequest => true
    case ReplayRead => s.row.status == DeadLetter
    case ReplayAbort => s.openReplays > 0
    case ReplayWrite(o) => s.openReplays > 0 && o !in s.outbox
  }

  function Apply(s: State, step: Step): State
    requires Enabled(s, step)
  {
    match step
    case Tick(ms) => s.(now := s.now + ms)
    case Deliver(m, w) => DoDeliver(s, m, w)
    case Expire(m) => AddMsg(s, m, s.msgs[m].(place := Ready))
    case Work(w, deed) => WorkerApply(s, w, deed)
    case ClaimRow(d, o) => DoClaim(s, d, o)
    case Dispatch(d, doing) => DispatchApply(s, d, doing)
    case ClaimDue(k) => s.(schedulers := s.schedulers + {k},
                           sched := Some(s.sched.value.(claimedAt := Some(s.now))))
    case DispatchDue(k, landed, o) => DoDispatchDue(s, k, landed, o)
    case Sweep(o) => DoSweep(s, o)
    case CancelRequest => SetRow(s, After(Cancel(s.row, s.now), s.row))
    case ReplayRead => s.(openReplays := s.openReplays + 1)
    case ReplayAbort => s.(openReplays := s.openReplays - 1)
    case ReplayWrite(o) => DoReplayWrite(s, o)
  }

  /** The steps of claimers, schedulers, sweeper, cancel and replay requests. */
  predicate Bystander(step: Step) {
    !step.Work? && !step.Dispatch? && !step.Deliver? && !step.Expire? && !step.Tick?
  }

  lemma SchedulersLeave(s: State, k: SchedulerId, landed: bool, o: RowId)
    ensures var t := DoDispatchDue(s, k, landed, o);
            && t.msgs == s.msgs && t.workers == s.workers && t.lock == s.lock && t.now == s.now
            && t.ledger.taken == s.ledger.taken && t.dispatchers == s.dispatchers
  {
  }

  lemma FreshRowsLeave(s: State, step: Step)
    requires Enabled(s, step) && (step.Sweep? || step.ReplayWrite?)
    ensures var t := Apply(s, step);
            && t.msgs == s.msgs && t.workers == s.workers && t.lock == s.lock && t.now == s.now
            && t.ledger.taken == s.ledger.taken && t.dispatchers == s.dispatchers
  {
  }

  /** Bystanders leave messages, handlers and lock alone. */
  lemma BystandersLeave(s: State, step: Step)
    requires Enabled(s, step) && Bystander(step)
    ensures var t := Apply(s, step);
            && t.msgs == s.msgs && t.workers == s.workers && t.lock == s.lock && t.now == s.now
            && t.ledger.taken == s.ledger.taken
  {
    if step.DispatchDue? {
      SchedulersLeave(s, step.scheduler, step.landed, step.row);
    } else if step.Sweep? || step.ReplayWrite? {
      FreshRowsLeave(s, step);
    }
  }

  // ---- runs ------------------------------------------------------------------------

  predicate IsRun(s: State, steps: seq<Step>)
    decreases |steps|
  {
    steps == [] || (Enabled(s, steps[0]) && IsRun(Apply(s, steps[0]), steps[1..]))
  }

  function Final(s: State, steps: seq<Step>): State
    requires IsRun(s, steps)
    decreases |steps|
  {
    if steps == [] then s else Final(Apply(s, steps[0]), steps[1..])
  }

  predicate NoReplay(steps: seq<Step>) {
    forall i :: 0 <= i < |steps| ==> !steps[i].ReplayWrite?
  }

  ghost predicate Leads(s: State, steps: seq<Step>, t: State) {
    IsRun(s, steps) && Final(s, steps) == t
  }

  lemma {:induction false} RunSplits(s: State, first: seq<Step>, rest: seq<Step>)
    requires IsRun(s, first) && IsRun(Final(s, first), rest)
    ensures IsRun(s, first + rest) && Final(s, first + rest) == Final(Final(s, first), rest)
    decreases |first|
  {
    if first == [] {
      assert first + rest == rest;
    } else {
      assert (first + rest)[1..] == first[1..] + rest;
      RunSplits(Apply(s, first[0]), first[1..], rest);
    }
  }
}
