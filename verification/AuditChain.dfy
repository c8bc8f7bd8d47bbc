/**
 The admin_audit hash chain: the insert trigger, the canonical text it hashes and the query that
 verifies the chain, with an exact account of what the query counts.

 The digest is ideal: an injective function of (prev_hash, canonical), never equal to genesis.
 */
module AuditChain {
  import opened Text
  import opened Wrappers

  datatype Hash = Genesis | Digest(prev: Hash, canonical: string)

  /** The hashed columns; NULLs are None.  uuid, jsonb and timestamptz are their texts. */
  datatype Content = Content(
    id: nat, actor: string, actorId: Option<string>, action: string,
    target: Option<string>, details: Option<string>, at: string)

  /** A stored row.  arrival is history: its place in the order in which inserts got the trigger's lock. */
  datatype Entry = Entry(content: Content, prev: Option<Hash>, hash: Option<Hash>, arrival: nat)

  // ---- canonical text ---------------------------------------------------------------------------

  function Digit(d: nat): char
    requires d < 10
  {
    ('0' as int + d) as char
  }

  function Decimal(n: nat): string {
    if n < 10 then [Digit(n)] else Decimal(n / 10) + [Digit(n % 10)]
  }

  function OrElse(o: Option<string>, default: string): string {
    if o.Some? then o.value else default
  }

  function Columns(c: Content): string {
    c.actor + "|" + OrElse(c.actorId, "") + "|" + c.action + "|"
    + OrElse(c.target, "") + "|" + OrElse(c.details, "{}") + "|" + c.at
  }

  /** admin_audit_canonical after migration 0014. */
  function Canonical(c: Content): string {
    Decimal(c.id) + ("|" + Columns(c))
  }

  lemma {:induction false} DecimalPlain(n: nat)
    ensures |Decimal(n)| >= 1 && '|' !in Decimal(n)
  {
    if n >= 10 {
      DecimalPlain(n / 10);
    }
  }

  lemma DecimalLast(n: nat)
    ensures |Decimal(n)| >= 1 && Decimal(n)[|Decimal(n)| - 1] == Digit(n % 10)
    ensures if n < 10 then |Decimal(n)| == 1 else |Decimal(n)| > 1 && Decimal(n)[..|Decimal(n)| - 1] == Decimal(n / 10)
  {
    DecimalPlain(n / 10);
  }

  lemma {:induction false} DecimalInjective(m: nat, n: nat)
    requires Decimal(m) == Decimal(n)
    ensures m == n
    decreases m
  {
    DecimalLast(m);
    DecimalLast(n);
    assert m % 10 == n % 10;
    if m >= 10 {
      DecimalInjective(m / 10, n / 10);
    }
  }

  /** Canonical texts of different rows differ, because the id comes first and has no separator in it. */
  lemma CanonicalTellsIds(a: Content, b: Content)
    requires Canonical(a) == Canonical(b)
    ensures a.id == b.id
  {
    DecimalPlain(a.id);
    DecimalPlain(b.id);
    FirstPart(Decimal(a.id), Columns(a), Decimal(b.id), Columns(b), '|');
    DecimalInjective(a.id, b.id);
  }

  /** No separator in the texts that come before details, nor in the timestamp. */
  predicate Plain(c: Content) {
    && '|' !in c.actor && '|' !in OrElse(c.actorId, "") && '|' !in c.action
    && '|' !in OrElse(c.target, "") && '|' !in c.at
  }

  /** Equal up to NULL against the empty text and, for details, NULL against the empty object. */
  predicate LookAlike(a: Content, b: Content) {
    && a.id == b.id && a.actor == b.actor && OrElse(a.actorId, "") == OrElse(b.actorId, "") && a.action == b.action
    && OrElse(a.target, "") == OrElse(b.target, "") && OrElse(a.details, "{}") == OrElse(b.details, "{}")
    && a.at == b.at
  }

  function Tail(c: Content): string {
    OrElse(c.details, "{}") + (['|'] + c.at)
  }

  function Nested(c: Content): string {
    var fromTarget := OrElse(c.target, "") + (['|'] + Tail(c));
    c.actor + (['|'] + (OrElse(c.actorId, "") + (['|'] + (c.action + (['|'] + fromTarget)))))
  }

  lemma Regrouped(c: Content)
    ensures Columns(c) == Nested(c)
  {
    assert "|" == ['|'];
  }

  lemma ColumnsTell(a: Content, b: Content)
    requires Plain(a) && Plain(b) && Nested(a) == Nested(b)
    ensures a.id == b.id ==> LookAlike(a, b)
  {
    var a3, b3 := OrElse(a.target, "") + (['|'] + Tail(a)), OrElse(b.target, "") + (['|'] + Tail(b));
    var a2, b2 := a.action + (['|'] + a3), b.action + (['|'] + b3);
    FirstPart(a.actor, OrElse(a.actorId, "") + (['|'] + a2), b.actor, OrElse(b.actorId, "") + (['|'] + b2), '|');
    FirstPart(OrElse(a.actorId, ""), a2, OrElse(b.actorId, ""), b2, '|');
    FirstPart(a.action, a3, b.action, b3, '|');
    FirstPart(OrElse(a.target, ""), Tail(a), OrElse(b.target, ""), Tail(b), '|');
    LastPart(OrElse(a.details, "{}"), a.at, OrElse(b.details, "{}"), b.at, '|');
  }

  /** The edits the chain cannot see are exactly those between look-alikes, whatever details contain. */
  lemma EditUnseenExactly(a: Content, b: Content)
    requires Plain(a) && Plain(b)
    ensures Canonical(a) == Canonical(b) <==> LookAlike(a, b)
  {
    Regrouped(a);
    Regrouped(b);
    if Canonical(a) == Canonical(b) {
      DecimalPlain(a.id);
      DecimalPlain(b.id);
      FirstPart(Decimal(a.id), Columns(a), Decimal(b.id), Columns(b), '|');
      CanonicalTellsIds(a, b);
      ColumnsTell(a, b);
    }
  }

  // ---- the verifying query ------------------------------------------------------------------------

  /** The table in id order. */
  predicate Ordered(t: seq<Entry>) {
    forall i, j :: 0 <= i < j < |t| ==> t[i].content.id < t[j].content.id
  }

  function Expected(prev: Option<Hash>, c: Content): Hash {
    Digest(if prev.Some? then prev.value else Genesis, Canonical(c))
  }

  predicate ContentBad(e: Entry) {
    e.hash != Some(Expected(e.prev, e.content))
  }

  /** lag is the previous row's row_hash; the row with the smallest id has none to compare with. */
  predicate LinkBad(lag: Option<Option<Hash>>, e: Entry) {
    lag.Some? && e.prev != lag.value
  }

  function Count(b: bool): nat {
    if b then 1 else 0
  }

  function BrokenAfter(lag: Option<Option<Hash>>, t: seq<Entry>): nat
    decreases |t|
  {
    if t == [] then 0
    else Count(LinkBad(lag, t[0]) || ContentBad(t[0])) + BrokenAfter(Some(t[0].hash), t[1..])
  }

  /** VerifyAuditChain. */
  function BrokenLinks(t: seq<Entry>): nat {
    BrokenAfter(None, t)
  }

  // ---- tampering with content ------------------------------------------------------------------------

  /** Same rows with other content; ids and hash columns are as they were. */
  predicate Edited(t: seq<Entry>, u: seq<Entry>) {
    |t| == |u| && forall i :: 0 <= i < |t| ==>
      t[i].content.id == u[i].content.id && t[i].prev == u[i].prev && t[i].hash == u[i].hash
  }

  function Changed(t: seq<Entry>, u: seq<Entry>): nat
    requires |t| == |u|
  {
    if t == [] then 0
    else Count(Canonical(t[0].content) != Canonical(u[0].content)) + Changed(t[1..], u[1..])
  }

  lemma {:induction false} EditsCountedAfter(lag: Option<Option<Hash>>, t: seq<Entry>, u: seq<Entry>)
    requires BrokenAfter(lag, t) == 0 && Edited(t, u)
    ensures BrokenAfter(lag, u) == Changed(t, u)
    decreases |t|
  {
    if t != [] {
      EditsCountedAfter(Some(t[0].hash), t[1..], u[1..]);
    }
  }

  /** Editing content columns of an intact chain breaks exactly the rows whose canonical text changed. */
  lemma EditsCounted(t: seq<Entry>, u: seq<Entry>)
    requires BrokenLinks(t) == 0 && Edited(t, u)
    ensures BrokenLinks(u) == Changed(t, u)
  {
    EditsCountedAfter(None, t, u);
  }

  // ---- deleting rows ------------------------------------------------------------------------------------

  function Surviving(t: seq<Entry>, kept: set<nat>): seq<Entry> {
    if t == [] then []
    else (if t[0].content.id in kept then [t[0]] else []) + Surviving(t[1..], kept)
  }

  /**
   Survivors that are not the first one and whose original predecessor is gone; seen and last
   speak of the rows before t.
   */
  function Gaps(t: seq<Entry>, kept: set<nat>, seen: bool, last: bool): nat {
    if t == [] then 0
    else
      var here := t[0].content.id in kept;
      Count(here && seen && !last) + Gaps(t[1..], kept, seen || here, here)
  }

  function Lag(e: Option<Entry>): Option<Option<Hash>> {
    if e.Some? then Some(e.value.hash) else None
  }

  /** Where a scan stands: the row just passed and the last survivor, the same row or an earlier one. */
  predicate Scanned(before: Option<Entry>, survivor: Option<Entry>) {
    && (before.Some? ==> !ContentBad(before.value))
    && (survivor.Some? ==> before.Some? && !ContentBad(survivor.value)
                           && (survivor == before || survivor.value.content.id < before.value.content.id))
  }

  lemma HashesTellIds(a: Entry, b: Entry)
    requires !ContentBad(a) && !ContentBad(b) && a.hash == b.hash
    ensures a.content.id == b.content.id
  {
    CanonicalTellsIds(a.content, b.content);
  }

  lemma BrokenHead(lag: Option<Option<Hash>>, e: Entry, rest: seq<Entry>)
    ensures BrokenAfter(lag, [e] + rest) == Count(LinkBad(lag, e) || ContentBad(e)) + BrokenAfter(Some(e.hash), rest)
  {
    assert ([e] + rest)[1..] == rest;
  }

  /** A surviving row's link is broken exactly when the last survivor is not the row just passed. */
  lemma GapIsBadLink(before: Option<Entry>, survivor: Option<Entry>, e: Entry)
    requires Scanned(before, survivor) && !LinkBad(Lag(before), e)
    ensures LinkBad(Lag(survivor), e) <==> survivor.Some? && survivor != before
  {
    if survivor.Some? && survivor != before && e.prev == survivor.value.hash {
      HashesTellIds(before.value, survivor.value);
    }
  }

  lemma {:induction false} DeletionsCountedAfter(
    before: Option<Entry>, survivor: Option<Entry>, t: seq<Entry>, kept: set<nat>)
    requires Scanned(before, survivor) && BrokenAfter(Lag(before), t) == 0 && Ordered(t)
    requires before.Some? && t != [] ==> before.value.content.id < t[0].content.id
    ensures var last := survivor.Some? && survivor == before;
            BrokenAfter(Lag(survivor), Surviving(t, kept)) == Gaps(t, kept, survivor.Some?, last)
    decreases |t|
  {
    if t != [] {
      var here := t[0].content.id in kept;
      DeletionsCountedAfter(Some(t[0]), if here then Some(t[0]) else survivor, t[1..], kept);
      if here {
        GapIsBadLink(before, survivor, t[0]);
        BrokenHead(Lag(survivor), t[0], Surviving(t[1..], kept));
      } else {
        assert Surviving(t, kept) == Surviving(t[1..], kept);
      }
    }
  }

  /**
   Deleting rows of an intact chain breaks exactly the survivors, the first one apart, whose
   predecessor was deleted.
   */
  lemma DeletionsCounted(t: seq<Entry>, kept: set<nat>)
    requires BrokenLinks(t) == 0 && Ordered(t)
    ensures BrokenLinks(Surviving(t, kept)) == Gaps(t, kept, false, false)
  {
    DeletionsCountedAfter(None, None, t, kept);
  }

  predicate Keeps(t: seq<Entry>, kept: set<nat>, i: int)
    requires 0 <= i < |t|
  {
    t[i].content.id in kept
  }

  /** The survivors are one unbroken stretch of the table. */
  predicate Contiguous(t: seq<Entry>, kept: set<nat>) {
    forall i, j, k :: 0 <= i < j < k < |t| && Keeps(t, kept, i) && Keeps(t, kept, k) ==> Keeps(t, kept, j)
  }

  /** Nothing survives from here on, given that an earlier stretch has already ended. */
  predicate NoneKept(t: seq<Entry>, kept: set<nat>) {
    forall i :: 0 <= i < |t| ==> !Keeps(t, kept, i)
  }

  lemma Shift(t: seq<Entry>, kept: set<nat>)
    requires t != []
    ensures forall i {:trigger Keeps(t, kept, i)} :: 1 <= i < |t| ==> Keeps(t, kept, i) == Keeps(t[1..], kept, i - 1)
    ensures forall i {:trigger Keeps(t[1..], kept, i)} ::
              0 <= i < |t| - 1 ==> Keeps(t[1..], kept, i) == Keeps(t, kept, i + 1)
  {
  }

  lemma {:induction false} NoGapsAfter(t: seq<Entry>, kept: set<nat>)
    ensures Gaps(t, kept, true, false) == 0 <==> NoneKept(t, kept)
  {
    if t != [] {
      NoGapsAfter(t[1..], kept);
      Shift(t, kept);
      assert NoneKept(t, kept) <==> !Keeps(t, kept, 0) && NoneKept(t[1..], kept);
    }
  }

  /** The survivors, if any, are a prefix of t. */
  predicate PrefixKept(t: seq<Entry>, kept: set<nat>) {
    forall i, j :: 0 <= i < j < |t| && Keeps(t, kept, j) ==> Keeps(t, kept, i)
  }

  lemma {:induction false} NoGapsWithin(t: seq<Entry>, kept: set<nat>)
    ensures Gaps(t, kept, true, true) == 0 <==> PrefixKept(t, kept)
  {
    if t != [] {
      NoGapsWithin(t[1..], kept);
      NoGapsAfter(t[1..], kept);
      Shift(t, kept);
      if Keeps(t, kept, 0) {
        assert PrefixKept(t, kept) <==> PrefixKept(t[1..], kept);
      } else {
        assert PrefixKept(t, kept) <==> NoneKept(t[1..], kept);
      }
    }
  }

  lemma {:induction false} NoGaps(t: seq<Entry>, kept: set<nat>)
    ensures Gaps(t, kept, false, false) == 0 <==> Contiguous(t, kept)
  {
    if t != [] {
      NoGaps(t[1..], kept);
      NoGapsWithin(t[1..], kept);
      Shift(t, kept);
      if Keeps(t, kept, 0) {
        assert Contiguous(t, kept) <==> PrefixKept(t[1..], kept);
      } else {
        assert Contiguous(t, kept) <==> Contiguous(t[1..], kept);
      }
    }
  }

  /**
   So the verifier misses a deletion exactly when what is left is one unbroken stretch, as after
   cutting off either end.
   */
  lemma DeletionUnseenExactly(t: seq<Entry>, kept: set<nat>)
    requires BrokenLinks(t) == 0 && Ordered(t)
    ensures BrokenLinks(Surviving(t, kept)) == 0 <==> Contiguous(t, kept)
  {
    DeletionsCounted(t, kept);
    NoGaps(t, kept);
  }

  // ---- honest concurrent inserts --------------------------------------------------------------------------

  /** How many rows have a smaller id: where the new row goes. */
  function Position(t: seq<Entry>, id: nat): (k: nat)
    ensures k <= |t|
  {
    if t == [] || id < t[0].content.id then 0 else 1 + Position(t[1..], id)
  }

  /**
   admin_audit_chain_hash: the row with the largest smaller id supplies prev_hash, genesis if
   there is none or it has no hash.
   */
  function Trigger(t: seq<Entry>, c: Content, arrival: nat): Entry {
    var k := Position(t, c.id);
    var last := if k > 0 && t[k - 1].hash.Some? then t[k - 1].hash.value else Genesis;
    Entry(c, Some(last), Some(Digest(last, Canonical(c))), arrival)
  }

  function Insert(t: seq<Entry>, c: Content, arrival: nat): seq<Entry> {
    var k := Position(t, c.id);
    t[..k] + [Trigger(t, c, arrival)] + t[k..]
  }

  /**
   The table after the inserts cs, in the order in which they got the advisory lock.  The ids were
   drawn from the sequence before that, so they need not come in order.
   */
  function InsertAll(cs: seq<Content>): seq<Entry> {
    if cs == [] then [] else Insert(InsertAll(cs[..|cs| - 1]), cs[|cs| - 1], |cs| - 1)
  }

  predicate Distinct(cs: seq<Content>) {
    forall i, j :: 0 <= i < j < |cs| ==> cs[i].id != cs[j].id
  }

  predicate Unused(t: seq<Entry>, id: nat) {
    forall i :: 0 <= i < |t| ==> t[i].content.id != id
  }

  lemma {:induction false} PositionSplits(t: seq<Entry>, id: nat)
    requires Ordered(t) && Unused(t, id)
    ensures forall i :: 0 <= i < |t| ==> (t[i].content.id < id <==> i < Position(t, id))
  {
    if t != [] && !(id < t[0].content.id) {
      PositionSplits(t[1..], id);
      assert forall i :: 1 <= i < |t| ==> t[i] == t[1..][i - 1];
    }
  }

  /** prev_hash is genesis or the hash of some row of the table. */
  ghost predicate Known(t: seq<Entry>, h: Option<Hash>) {
    h == Some(Genesis) || exists j :: 0 <= j < |t| && h == t[j].hash
  }

  /** A link holds exactly when the predecessor arrived first. */
  predicate LinkByArrival(t: seq<Entry>, i: int)
    requires 1 <= i < |t|
  {
    t[i].prev == t[i - 1].hash <==> t[i - 1].arrival < t[i].arrival
  }

  predicate RowFits(e: Entry, cs: seq<Content>) {
    e.arrival < |cs| && e.content == cs[e.arrival] && !ContentBad(e)
  }

  ghost predicate Honest(t: seq<Entry>, cs: seq<Content>) {
    && |t| == |cs| && Ordered(t)
    && (forall i :: 0 <= i < |t| ==> RowFits(t[i], cs) && Known(t, t[i].prev))
    && (forall i :: 1 <= i < |t| ==> LinkByArrival(t, i))
  }

  lemma StillUnused(t: seq<Entry>, c: Content, cs: seq<Content>)
    requires Honest(t, cs) && Distinct(cs + [c])
    ensures Unused(t, c.id)
  {
    forall i | 0 <= i < |t|
      ensures t[i].content.id != c.id
    {
      assert (cs + [c])[t[i].arrival] == cs[t[i].arrival] && (cs + [c])[|cs|] == c;
    }
  }

  /** The new row sits at its position; the others keep theirs or move up by one. */
  lemma InsertedAt(t: seq<Entry>, c: Content, arrival: nat, i: nat)
    requires i <= |t|
    ensures var k := Position(t, c.id);
            var u := Insert(t, c, arrival);
            |u| == |t| + 1 && u[i] == if i < k then t[i] else if i == k then Trigger(t, c, arrival) else t[i - 1]
  {
  }

  lemma InsertedOrdered(t: seq<Entry>, c: Content, arrival: nat)
    requires Ordered(t) && Unused(t, c.id)
    ensures Ordered(Insert(t, c, arrival))
  {
    PositionSplits(t, c.id);
    var u := Insert(t, c, arrival);
    forall i, j | 0 <= i < j < |u|
      ensures u[i].content.id < u[j].content.id
    {
      InsertedAt(t, c, arrival, i);
      InsertedAt(t, c, arrival, j);
    }
  }

  lemma KnownKept(t: seq<Entry>, c: Content, arrival: nat, h: Option<Hash>, i: nat)
    requires i < |t| && h == t[i].prev && Known(t, h)
    ensures Known(Insert(t, c, arrival), h)
  {
    var k := Position(t, c.id);
    var u := Insert(t, c, arrival);
    if h != Some(Genesis) {
      var j :| 0 <= j < |t| && h == t[j].hash;
      assert u[if j < k then j else j + 1] == t[j];
    }
  }

  lemma InsertedRow(t: seq<Entry>, c: Content, cs: seq<Content>, i: nat)
    requires Honest(t, cs) && i <= |t|
    ensures var u := Insert(t, c, |cs|); RowFits(u[i], cs + [c]) && Known(u, u[i].prev)
  {
    var k := Position(t, c.id);
    var u := Insert(t, c, |cs|);
    InsertedAt(t, c, |cs|, i);
    if i == k {
      if k > 0 {
        InsertedAt(t, c, |cs|, k - 1);
        assert RowFits(t[k - 1], cs);
        assert u[k].prev == u[k - 1].hash;
      }
    } else {
      var j := if i < k then i else i - 1;
      assert RowFits(t[j], cs) && Known(t, t[j].prev);
      KnownKept(t, c, |cs|, u[i].prev, j);
    }
  }

  /** The row after a new one does not know it: its prev_hash is older. */
  lemma NewcomerUnknown(t: seq<Entry>, c: Content, cs: seq<Content>, k: nat)
    requires Honest(t, cs) && Unused(t, c.id) && k < |t|
    ensures t[k].prev != Trigger(t, c, |cs|).hash
  {
    assert Known(t, t[k].prev);
    if t[k].prev != Some(Genesis) {
      var j :| 0 <= j < |t| && t[k].prev == t[j].hash;
      assert RowFits(t[j], cs);
      if t[j].hash == Trigger(t, c, |cs|).hash {
        HashesTellIds(t[j], Trigger(t, c, |cs|));
      }
    }
  }

  lemma InsertedLinks(t: seq<Entry>, c: Content, cs: seq<Content>, i: nat)
    requires Honest(t, cs) && Unused(t, c.id) && 1 <= i <= |t|
    ensures |Insert(t, c, |cs|)| == |t| + 1 && LinkByArrival(Insert(t, c, |cs|), i)
  {
    var k := Position(t, c.id);
    InsertedAt(t, c, |cs|, i);
    InsertedAt(t, c, |cs|, i - 1);
    if i == k {
      assert RowFits(t[k - 1], cs);
    } else if i == k + 1 {
      assert RowFits(t[k], cs);
      NewcomerUnknown(t, c, cs, k);
    } else {
      assert LinkByArrival(t, if i < k then i else i - 1);
    }
  }

  lemma InsertHonest(t: seq<Entry>, c: Content, cs: seq<Content>)
    requires Honest(t, cs) && Distinct(cs + [c])
    ensures Honest(Insert(t, c, |cs|), cs + [c])
  {
    var u := Insert(t, c, |cs|);
    StillUnused(t, c, cs);
    InsertedOrdered(t, c, |cs|);
    InsertedAt(t, c, |cs|, 0);
    forall i | 0 <= i < |u|
      ensures RowFits(u[i], cs + [c]) && Known(u, u[i].prev)
    {
      InsertedRow(t, c, cs, i);
    }
    forall i | 1 <= i < |u|
      ensures LinkByArrival(u, i)
    {
      InsertedLinks(t, c, cs, i);
    }
  }

  lemma LastInserted(cs: seq<Content>, rest: seq<Content>, c: Content)
    requires cs == rest + [c]
    ensures InsertAll(cs) == Insert(InsertAll(rest), c, |rest|)
  {
    assert cs[..|cs| - 1] == rest;
  }

  lemma {:induction false} InsertsHonest(cs: seq<Content>)
    requires Distinct(cs)
    ensures Honest(InsertAll(cs), cs)
    decreases |cs|
  {
    if cs != [] {
      var rest, c := cs[..|cs| - 1], cs[|cs| - 1];
      var u := Insert(InsertAll(rest), c, |rest|);
      assert cs == rest + [c];
      assert Honest(u, cs) by {
        InsertsHonest(rest);
        InsertHonest(InsertAll(rest), c, rest);
      }
      LastInserted(cs, rest, c);
    }
  }

  /** Rows whose immediate predecessor arrived after them. */
  function LateAfter(lag: Option<Entry>, t: seq<Entry>): nat
    decreases |t|
  {
    if t == [] then 0
    else Count(lag.Some? && lag.value.arrival >= t[0].arrival) + LateAfter(Some(t[0]), t[1..])
  }

  lemma {:induction false} BrokenAreLate(t: seq<Entry>, i: nat)
    requires i <= |t|
    requires forall j :: 0 <= j < |t| ==> !ContentBad(t[j])
    requires forall j :: 1 <= j < |t| ==> LinkByArrival(t, j)
    ensures var lag := if i == 0 then None else Some(t[i - 1]);
            BrokenAfter(Lag(lag), t[i..]) == LateAfter(lag, t[i..])
    decreases |t| - i
  {
    if i < |t| {
      BrokenAreLate(t, i + 1);
      assert t[i..][1..] == t[i + 1..];
      if i > 0 {
        assert LinkByArrival(t, i);
      }
    }
  }

  /**
   After any honest concurrent inserts the verifier reports exactly the rows whose immediate
   predecessor by id was inserted after them: false alarms that no tampering caused.
   */
  lemma HonestBreaksCounted(cs: seq<Content>)
    requires Distinct(cs)
    ensures BrokenLinks(InsertAll(cs)) == LateAfter(None, InsertAll(cs))
  {
    InsertsHonest(cs);
    var t := InsertAll(cs);
    assert forall i :: 0 <= i < |t| ==> RowFits(t[i], cs);
    BrokenAreLate(t, 0);
    assert t[0..] == t;
  }

  predicate Ascending(cs: seq<Content>) {
    forall i, j :: 0 <= i < j < |cs| ==> cs[i].id < cs[j].id
  }

  lemma {:induction false} NoneLate(t: seq<Entry>, i: nat)
    requires i <= |t|
    ensures var lag := if i == 0 then None else Some(t[i - 1]);
            LateAfter(lag, t[i..]) == 0 <==> forall j :: i <= j < |t| && 1 <= j ==> t[j - 1].arrival < t[j].arrival
    decreases |t| - i
  {
    if i < |t| {
      NoneLate(t, i + 1);
      assert t[i..][1..] == t[i + 1..];
    }
  }

  predicate InOrder(t: seq<Entry>) {
    forall j :: 1 <= j < |t| ==> t[j - 1].arrival < t[j].arrival
  }

  lemma {:induction false} ClimbsAtLeast(t: seq<Entry>, i: nat, j: nat)
    requires i <= j < |t| && InOrder(t)
    ensures t[i].arrival + (j - i) <= t[j].arrival
    decreases j
  {
    if i < j {
      ClimbsAtLeast(t, i, j - 1);
    }
  }

  lemma AscendingArrivesInOrder(t: seq<Entry>, cs: seq<Content>)
    requires Honest(t, cs) && Ascending(cs)
    ensures InOrder(t)
  {
    forall j | 1 <= j < |t|
      ensures t[j - 1].arrival < t[j].arrival
    {
      assert RowFits(t[j - 1], cs) && RowFits(t[j], cs);
      assert t[j - 1].content.id < t[j].content.id;
    }
  }

  lemma InOrderIsAscending(t: seq<Entry>, cs: seq<Content>)
    requires Honest(t, cs) && InOrder(t)
    ensures Ascending(cs)
  {
    forall i | 0 <= i < |t|
      ensures t[i].content == cs[i]
    {
      ClimbsAtLeast(t, 0, i);
      ClimbsAtLeast(t, i, |t| - 1);
      assert RowFits(t[i], cs) && RowFits(t[|t| - 1], cs);
    }
  }

  /** The verifier is silent about honest inserts if and only if they got the lock in the order of their ids. */
  lemma HonestIntactExactly(cs: seq<Content>)
    requires Distinct(cs)
    ensures BrokenLinks(InsertAll(cs)) == 0 <==> Ascending(cs)
  {
    HonestBreaksCounted(cs);
    InsertsHonest(cs);
    var t := InsertAll(cs);
    NoneLate(t, 0);
    assert t[0..] == t;
    if Ascending(cs) {
      AscendingArrivesInOrder(t, cs);
    }
    if InOrder(t) {
      InOrderIsAscending(t, cs);
    }
  }
}
