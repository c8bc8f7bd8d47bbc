/** The retry tiers of internal/queue/topology.go: which wait an attempt earns and how long it lasts. */
module Topology {
  datatype Tier = FiveSeconds | ThirtySeconds | FiveMinutes

  function TierForAttempt(attempt: int): Tier {
    if attempt <= 1 then FiveSeconds
    else if attempt == 2 then ThirtySeconds
    else FiveMinutes
  }

  function TierTtlMs(t: Tier): (ms: int)
    ensures ms >= 5_000
  {
    match t
    case FiveSeconds => 5_000
    case ThirtySeconds => 30_000
    case FiveMinutes => 5 * 60 * 1000
  }
}
