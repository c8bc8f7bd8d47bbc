/**
 The notifications row and the guarded UPDATE statements of
 internal/store/queries/notifications.sql, scheduled.sql and the replay UPDATE of
 internal/api/admin.go, each as a function from the row the statement finds to what
 the statement does.  The CHECK constraint on sent_at is part of every write.
 */
module Notifications {
  import opened Wrappers

  datatype Status =
    Pending | Queued | Sending | Sent | Failed | Cancelled | DeadLetter | Scheduled

  // Times are milliseconds on one clock.
  datatype Row = Row(status: Status, attempts: nat, sentAt: Option<int>, updatedAt: int)

  /** What one UPDATE ... WHERE id = $1 does: a new row, no row matched, or a CHECK violation. */
  datatype Written = Updated(row: Row) | NoRows | Violation

  /** sweeper.Default().StuckAfter. */
  const STUCK_AFTER_MS := 300_000

  /** Constraint notifications_sent_at_only_when_sent. */
  predicate SentAtCheck(r: Row) {
    (r.status == Sent) == r.sentAt.Some?
  }

  function Store(r: Row): Written {
    if SentAtCheck(r) then Updated(r) else Violation
  }

  /** The row as the next statement finds it. */
  function After(w: Written, r: Row): Row {
    if w.Updated? then w.row else r
  }

  /** A status from which the worker's pickup CAS succeeds. */
  predicate Waits(st: Status) {
    st == Pending || st == Queued
  }

  function Cancel(r: Row, now: int): Written {
    if Waits(r.status) || r.status == Scheduled
    then Store(r.(status := Cancelled, updatedAt := now)) else NoRows
  }

  function MarkQueued(r: Row, now: int): Written {
    if r.status == Pending then Store(r.(status := Queued, updatedAt := now)) else NoRows
  }

  function MarkSendingCAS(r: Row, now: int): Written {
    if Waits(r.status) then Store(r.(status := Sending, updatedAt := now)) else NoRows
  }

  function MarkSent(r: Row, now: int): Written {
    if r.status == Sending
    then Store(r.(status := Sent, sentAt := Some(now), updatedAt := now)) else NoRows
  }

  /** No status guard in the statement; only the CHECK constraint can refuse it. */
  function MarkDeadLetter(r: Row, now: int): Written {
    Store(r.(status := DeadLetter, updatedAt := now))
  }

  function RevertToQueued(r: Row, now: int): Written {
    if r.status == Sending
    then Store(r.(status := Queued, attempts := r.attempts + 1, updatedAt := now)) else NoRows
  }

  function RevertToQueuedNoAttempt(r: Row, now: int): Written {
    if r.status == Sending then Store(r.(status := Queued, updatedAt := now)) else NoRows
  }

  function SweepStuckSending(r: Row, now: int): Written {
    if r.status == Sending && r.updatedAt < now - STUCK_AFTER_MS
    then Store(r.(status := Queued, attempts := r.attempts + 1, updatedAt := now)) else NoRows
  }

  function MarkScheduledPending(r: Row, now: int): Written {
    if r.status == Scheduled then Store(r.(status := Pending, updatedAt := now)) else NoRows
  }

  /** The replay handler's UPDATE: unconditional, and it clears sent_at. */
  function ResetForReplay(r: Row, now: int): Written {
    Store(r.(status := Pending, attempts := 0, sentAt := None, updatedAt := now))
  }
}
