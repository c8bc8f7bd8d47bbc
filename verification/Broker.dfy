/**
 The AMQP topology of internal/queue/topology.go.  No binding key has a wildcard word, so the
 topic exchange routes by equality of keys (section 3.1.3.3 of AMQP 0-9-1).
 */
module Broker {
  import opened Text
  import opened Topology
  import opened Wrappers

  function TierName(t: Tier): string {
    match t
    case FiveSeconds => "5s"
    case ThirtySeconds => "30s"
    case FiveMinutes => "5m"
  }

  function RoutingKey(channel: string): string {
    "notification." + channel
  }

  function WaitRoutingKey(channel: string, tier: Tier): string {
    RoutingKey(channel) + ".wait." + TierName(tier)
  }

  function DeadKey(channel: string): string {
    channel + ".dead"
  }

  function MainQueue(channel: string): string {
    "notifications." + channel
  }

  function DeadQueue(channel: string): string {
    "notifications." + channel + ".dlq"
  }

  function WaitQueue(channel: string, tier: Tier): string {
    "notifications." + channel + ".wait." + TierName(tier)
  }

  datatype Exchange = ExchangeMain | ExchangeDLX

  datatype Binding = Binding(exchange: Exchange, key: string, queue: string)

  /** x-max-priority, x-message-ttl, and x-dead-letter-exchange with its routing key. */
  datatype Args = Args(maxPriority: Option<nat>, ttlMs: Option<int>, deadLetter: Option<(Exchange, string)>)

  function MainArgs(c: string): Args {
    Args(Some(10), None, Some((ExchangeDLX, DeadKey(c))))
  }

  function WaitArgs(c: string, t: Tier): Args {
    Args(None, Some(TierTtlMs(t)), Some((ExchangeMain, RoutingKey(c))))
  }

  const PLAIN_ARGS := Args(None, None, None)

  const TIERS := [FiveSeconds, ThirtySeconds, FiveMinutes]

  // ---- what a declaration leaves behind -------------------------------------------------------------

  function MainsDeclared(qs: map<string, Args>, cs: seq<string>): map<string, Args> {
    if cs == [] then qs
    else
      var c := cs[|cs| - 1];
      MainsDeclared(qs, cs[..|cs| - 1])[MainQueue(c) := MainArgs(c)][DeadQueue(c) := PLAIN_ARGS]
  }

  function TiersDeclared(qs: map<string, Args>, c: string, ts: seq<Tier>): map<string, Args> {
    if ts == [] then qs
    else
      var t := ts[|ts| - 1];
      TiersDeclared(qs, c, ts[..|ts| - 1])[WaitQueue(c, t) := WaitArgs(c, t)]
  }

  function WaitsDeclared(qs: map<string, Args>, cs: seq<string>): map<string, Args> {
    if cs == [] then qs else TiersDeclared(WaitsDeclared(qs, cs[..|cs| - 1]), cs[|cs| - 1], TIERS)
  }

  ghost predicate MainBinding(b: Binding, cs: seq<string>) {
    exists c :: c in cs && (b == Binding(ExchangeMain, RoutingKey(c), MainQueue(c))
                            || b == Binding(ExchangeDLX, DeadKey(c), DeadQueue(c)))
  }

  ghost predicate WaitBinding(b: Binding, cs: seq<string>) {
    exists c, t: Tier :: c in cs && b == Binding(ExchangeMain, WaitRoutingKey(c, t), WaitQueue(c, t))
  }

  ghost predicate TierBinding(b: Binding, c: string, ts: seq<Tier>) {
    exists t :: t in ts && b == Binding(ExchangeMain, WaitRoutingKey(c, t), WaitQueue(c, t))
  }

  lemma TierListed(t: Tier)
    ensures t in TIERS
  {
    assert TIERS[0] == FiveSeconds && TIERS[1] == ThirtySeconds && TIERS[2] == FiveMinutes;
  }

  lemma AllTiersBound(b: Binding, c: string)
    ensures TierBinding(b, c, TIERS) <==> WaitBinding(b, [c])
  {
    if WaitBinding(b, [c]) {
      var d, t :| d in [c] && b == Binding(ExchangeMain, WaitRoutingKey(d, t), WaitQueue(d, t));
      TierListed(t);
    }
    if TierBinding(b, c, TIERS) {
      assert c in [c];
    }
  }

  class AmqpBroker {
    var queues: map<string, Args>
    var bindings: set<Binding>

    constructor ()
      ensures queues == map[] && bindings == {}
    {
      queues, bindings := map[], {};
    }

    /** DeclareTopology: idempotent, so safe on every boot and reconnect. */
    method DeclareTopology(channels: seq<string>)
      modifies this
      ensures queues == WaitsDeclared(MainsDeclared(old(queues), channels), channels)
      ensures forall b :: b in bindings <==> b in old(bindings) || MainBinding(b, channels) || WaitBinding(b, channels)
    {
      for i := 0 to |channels|
        invariant queues == MainsDeclared(old(queues), channels[..i])
        invariant forall b :: b in bindings <==> b in old(bindings) || MainBinding(b, channels[..i])
      {
        var c := channels[i];
        assert channels[..i + 1] == channels[..i] + [c];
        queues := queues[MainQueue(c) := MainArgs(c)];
        bindings := bindings + {Binding(ExchangeMain, RoutingKey(c), MainQueue(c))};
        queues := queues[DeadQueue(c) := PLAIN_ARGS];
        bindings := bindings + {Binding(ExchangeDLX, DeadKey(c), DeadQueue(c))};
      }
      assert channels[..|channels|] == channels;
      ghost var before := queues;
      for i := 0 to |channels|
        invariant queues == WaitsDeclared(before, channels[..i])
        invariant forall b :: b in bindings <==>
                    b in old(bindings) || MainBinding(b, channels) || WaitBinding(b, channels[..i])
      {
        DeclareTiers(channels[i]);
        assert channels[..i + 1] == channels[..i] + [channels[i]];
      }
    }

    /** The three retry queues of one channel. */
    method DeclareTiers(c: string)
      modifies this
      ensures queues == TiersDeclared(old(queues), c, TIERS)
      ensures forall b :: b in bindings <==> b in old(bindings) || WaitBinding(b, [c])
    {
      for i := 0 to |TIERS|
        invariant queues == TiersDeclared(old(queues), c, TIERS[..i])
        invariant forall b :: b in bindings <==>
                    b in old(bindings) || TierBinding(b, c, TIERS[..i])
      {
        var t := TIERS[i];
        assert TIERS[..i + 1] == TIERS[..i] + [t];
        queues := queues[WaitQueue(c, t) := WaitArgs(c, t)];
        bindings := bindings + {Binding(ExchangeMain, WaitRoutingKey(c, t), WaitQueue(c, t))};
      }
      assert TIERS[..|TIERS|] == TIERS;
      forall b ensures TierBinding(b, c, TIERS) <==> WaitBinding(b, [c]) {
        AllTiersBound(b, c);
      }
    }
  }

  // ---- names do not clash -----------------------------------------------------------------------------

  /** Channel names are single words. */
  predicate Plain(c: string) {
    '.' !in c
  }

  lemma TierNamesDiffer(t: Tier, u: Tier)
    requires TierName(t) == TierName(u)
    ensures t == u
  {
    assert |"30s"| == 3 && "5s"[1] == 's' && "5m"[1] == 'm';
  }

  /**
   prefix + c and prefix + d + "." + rest differ; prefix + c + "." + x and prefix + d + "." + y
   agree only part by part.
   */
  lemma Joined(prefix: string, c: string, x: string, d: string, y: string)
    requires Plain(c) && Plain(d)
    ensures prefix + c == prefix + d ==> c == d
    ensures prefix + c != prefix + (d + (['.'] + y))
    ensures prefix + (c + (['.'] + x)) == prefix + (d + (['.'] + y)) ==> c == d && x == y
  {
    var n := |prefix|;
    assert (prefix + c)[n..] == c && (prefix + d)[n..] == d;
    var cx, dy := c + (['.'] + x), d + (['.'] + y);
    assert (prefix + cx)[n..] == cx && (prefix + dy)[n..] == dy;
    assert dy[|d|] == '.';
    if prefix + cx == prefix + dy {
      FirstPart(c, x, d, y, '.');
    }
  }

  lemma WaitKeyForm(c: string, t: Tier)
    ensures WaitRoutingKey(c, t) == "notification." + (c + (['.'] + ("wait." + TierName(t))))
    ensures WaitQueue(c, t) == "notifications." + (c + (['.'] + ("wait." + TierName(t))))
    ensures DeadQueue(c) == "notifications." + (c + (['.'] + "dlq"))
    ensures DeadKey(c) == c + (['.'] + "dead")
  {
    assert ".wait." == ['.'] + "wait." && ".dlq" == ['.'] + "dlq" && ".dead" == ['.'] + "dead";
  }

  lemma WaitTailsDiffer(t: Tier, u: Tier)
    requires "wait." + TierName(t) == "wait." + TierName(u)
    ensures t == u
  {
    assert ("wait." + TierName(t))[5..] == TierName(t) && ("wait." + TierName(u))[5..] == TierName(u);
    TierNamesDiffer(t, u);
  }

  /** The queues a publish reaches. */
  ghost predicate Reaches(bindings: set<Binding>, exchange: Exchange, key: string, queue: string) {
    Binding(exchange, key, queue) in bindings
  }

  ghost predicate IsTopology(bindings: set<Binding>, channels: seq<string>) {
    && (forall c :: c in channels ==> Plain(c))
    && (forall b :: b in bindings <==> MainBinding(b, channels) || WaitBinding(b, channels))
  }

  /** A publish to a channel's key lands in that channel's queue and nowhere else. */
  lemma MainKeyReaches(bindings: set<Binding>, channels: seq<string>, c: string, q: string)
    requires IsTopology(bindings, channels) && c in channels
    ensures Reaches(bindings, ExchangeMain, RoutingKey(c), q) <==> q == MainQueue(c)
  {
    var b := Binding(ExchangeMain, RoutingKey(c), q);
    if b in bindings {
      if MainBinding(b, channels) {
        var d :| d in channels && b == Binding(ExchangeMain, RoutingKey(d), MainQueue(d));
        Joined("notification.", c, "", d, "");
      } else {
        var d, t :| d in channels && b == Binding(ExchangeMain, WaitRoutingKey(d, t), WaitQueue(d, t));
        WaitKeyForm(d, t);
        Joined("notification.", c, "", d, "wait." + TierName(t));
      }
    }
    if q == MainQueue(c) {
      assert MainBinding(b, channels);
    }
  }

  /** A publish to a wait tier lands in that channel's queue of that tier and nowhere else. */
  lemma WaitKeyReaches(bindings: set<Binding>, channels: seq<string>, c: string, t: Tier, q: string)
    requires IsTopology(bindings, channels) && c in channels
    ensures Reaches(bindings, ExchangeMain, WaitRoutingKey(c, t), q) <==> q == WaitQueue(c, t)
  {
    var b := Binding(ExchangeMain, WaitRoutingKey(c, t), q);
    WaitKeyForm(c, t);
    if b in bindings {
      if MainBinding(b, channels) {
        var d :| d in channels && b == Binding(ExchangeMain, RoutingKey(d), MainQueue(d));
        Joined("notification.", d, "", c, "wait." + TierName(t));
      } else {
        var d, u :| d in channels && b == Binding(ExchangeMain, WaitRoutingKey(d, u), WaitQueue(d, u));
        WaitKeyForm(d, u);
        Joined("notification.", c, "wait." + TierName(t), d, "wait." + TierName(u));
        WaitTailsDiffer(t, u);
      }
    }
    if q == WaitQueue(c, t) {
      assert WaitBinding(b, channels);
    }
  }

  /** A publish to a channel's dead key lands in that channel's dead-letter queue and nowhere else. */
  lemma DeadKeyReaches(bindings: set<Binding>, channels: seq<string>, c: string, q: string)
    requires IsTopology(bindings, channels) && c in channels
    ensures Reaches(bindings, ExchangeDLX, DeadKey(c), q) <==> q == DeadQueue(c)
  {
    var b := Binding(ExchangeDLX, DeadKey(c), q);
    if b in bindings {
      var d :| d in channels && b == Binding(ExchangeDLX, DeadKey(d), DeadQueue(d));
      WaitKeyForm(c, FiveSeconds);
      WaitKeyForm(d, FiveSeconds);
      FirstPart(c, "dead", d, "dead", '.');
    }
    if q == DeadQueue(c) {
      assert MainBinding(b, channels);
    }
  }

  // ---- the retry bounce ----------------------------------------------------------------------------------

  /** Declaring tiers of channel d sets the arguments of those queues and leaves every other wait queue alone. */
  lemma {:induction false} TiersKeep(qs: map<string, Args>, d: string, ts: seq<Tier>, c: string, t: Tier)
    requires Plain(c) && Plain(d)
    ensures var after := TiersDeclared(qs, d, ts);
            && (c == d && t in ts ==> WaitQueue(c, t) in after && after[WaitQueue(c, t)] == WaitArgs(c, t))
            && (c != d || t !in ts ==> (WaitQueue(c, t) in after <==> WaitQueue(c, t) in qs)
                                       && (WaitQueue(c, t) in qs ==> after[WaitQueue(c, t)] == qs[WaitQueue(c, t)]))
    decreases |ts|
  {
    if ts != [] {
      var u := ts[|ts| - 1];
      assert ts == ts[..|ts| - 1] + [u];
      TiersKeep(qs, d, ts[..|ts| - 1], c, t);
      if WaitQueue(c, t) == WaitQueue(d, u) {
        WaitKeyForm(c, t);
        WaitKeyForm(d, u);
        Joined("notifications.", c, "wait." + TierName(t), d, "wait." + TierName(u));
        WaitTailsDiffer(t, u);
      }
    }
  }

  lemma {:induction false} WaitArgsKept(qs: map<string, Args>, cs: seq<string>, c: string, t: Tier)
    requires (forall d :: d in cs ==> Plain(d)) && Plain(c)
    ensures var declared, q := WaitsDeclared(qs, cs), WaitQueue(c, t);
            c in cs ==> q in declared && declared[q] == WaitArgs(c, t)
    decreases |cs|
  {
    if cs != [] {
      var rest, d := cs[..|cs| - 1], cs[|cs| - 1];
      assert cs == rest + [d];
      WaitArgsKept(qs, rest, c, t);
      TiersKeep(WaitsDeclared(qs, rest), d, TIERS, c, t);
      TierListed(t);
    }
  }

  /** A main queue's name is no other queue's name. */
  lemma MainNameUnique(c: string, d: string, t: Tier)
    requires Plain(c) && Plain(d)
    ensures MainQueue(c) != WaitQueue(d, t) && MainQueue(c) != DeadQueue(d)
    ensures MainQueue(c) == MainQueue(d) ==> c == d
  {
    WaitKeyForm(d, t);
    Joined("notifications.", c, "", d, "wait." + TierName(t));
    Joined("notifications.", c, "", d, "dlq");
  }

  lemma {:induction false} MainArgsSet(qs: map<string, Args>, cs: seq<string>, c: string)
    requires (forall d :: d in cs ==> Plain(d)) && c in cs
    ensures MainQueue(c) in MainsDeclared(qs, cs) && MainsDeclared(qs, cs)[MainQueue(c)] == MainArgs(c)
    decreases |cs|
  {
    var rest, d := cs[..|cs| - 1], cs[|cs| - 1];
    assert cs == rest + [d];
    MainNameUnique(c, d, FiveSeconds);
    if c != d {
      MainArgsSet(qs, rest, c);
    }
  }

  lemma {:induction false} TiersSpareMain(qs: map<string, Args>, d: string, ts: seq<Tier>, c: string)
    requires Plain(c) && Plain(d) && MainQueue(c) in qs
    ensures MainQueue(c) in TiersDeclared(qs, d, ts) && TiersDeclared(qs, d, ts)[MainQueue(c)] == qs[MainQueue(c)]
    decreases |ts|
  {
    if ts != [] {
      TiersSpareMain(qs, d, ts[..|ts| - 1], c);
      MainNameUnique(c, d, ts[|ts| - 1]);
    }
  }

  lemma {:induction false} MainArgsKept(qs: map<string, Args>, cs: seq<string>, c: string)
    requires (forall d :: d in cs ==> Plain(d)) && Plain(c) && MainQueue(c) in qs
    ensures MainQueue(c) in WaitsDeclared(qs, cs) && WaitsDeclared(qs, cs)[MainQueue(c)] == qs[MainQueue(c)]
    decreases |cs|
  {
    if cs != [] {
      var rest, d := cs[..|cs| - 1], cs[|cs| - 1];
      assert cs == rest + [d];
      MainArgsKept(qs, rest, c);
      TiersSpareMain(WaitsDeclared(qs, rest), d, TIERS, c);
    }
  }

  /**
   The retry bounce: a copy published for a channel and tier waits in exactly one queue, for that
   tier's time, and is then routed to exactly the queue of the channel it came from.
   */
  lemma BounceReturnsHome(qs: map<string, Args>, bindings: set<Binding>, channels: seq<string>,
                          c: string, attempt: int, q: string)
    requires IsTopology(bindings, channels) && c in channels
    ensures var t := TierForAttempt(attempt);
            var declared := WaitsDeclared(MainsDeclared(qs, channels), channels);
            && (Reaches(bindings, ExchangeMain, WaitRoutingKey(c, t), q) <==> q == WaitQueue(c, t))
            && WaitQueue(c, t) in declared
            && declared[WaitQueue(c, t)].ttlMs ==
                 Some(if attempt <= 1 then 5_000 else if attempt == 2 then 30_000 else 300_000)
            && declared[WaitQueue(c, t)].deadLetter.Some?
            && (var (x, k) := declared[WaitQueue(c, t)].deadLetter.value;
                Reaches(bindings, x, k, q) <==> q == MainQueue(c))
  {
    WaitKeyReaches(bindings, channels, c, TierForAttempt(attempt), q);
    MainKeyReaches(bindings, channels, c, q);
    WaitArgsKept(MainsDeclared(qs, channels), channels, c, TierForAttempt(attempt));
  }

  /** What a channel's main queue rejects lands in that channel's dead-letter queue and nowhere else. */
  lemma RejectionIsKept(qs: map<string, Args>, bindings: set<Binding>, channels: seq<string>, c: string, q: string)
    requires IsTopology(bindings, channels) && c in channels
    ensures var declared := WaitsDeclared(MainsDeclared(qs, channels), channels);
            && MainQueue(c) in declared
            && declared[MainQueue(c)].deadLetter.Some?
            && (var (x, k) := declared[MainQueue(c)].deadLetter.value;
                Reaches(bindings, x, k, q) <==> q == DeadQueue(c))
  {
    DeadKeyReaches(bindings, channels, c, q);
    MainArgsSet(qs, channels, c);
    MainArgsKept(MainsDeclared(qs, channels), channels, c);
  }
}
