/**
 Idempotency keys: the Redis slot per (owner, key), the unique index on notifications, and create
 requests that interleave freely between their Redis commands and their transaction.
 */
module Idempotency {
  import opened Text

  type RequestId = nat

  /** idempotency.Record; body is the stored response, empty while in flight. */
  datatype Record = Record(bodyHash: string, body: string, inFlight: bool)

  /** key(): per-owner namespace, legacy format without an owner. */
  function SlotKey(owner: string, idemKey: string): string {
    if owner == "" then "idem:" + idemKey else "idem:" + owner + ":" + idemKey
  }

  /** An authenticated owner is the text of a uuid. */
  predicate IsOwner(owner: string) {
    owner != "" && ':' !in owner
  }

  lemma SlotsSeparate(owner: string, idemKey: string, owner': string, idemKey': string)
    requires IsOwner(owner) && IsOwner(owner') && SlotKey(owner, idemKey) == SlotKey(owner', idemKey')
    ensures owner == owner' && idemKey == idemKey'
  {
    var s, s' := SlotKey(owner, idemKey), SlotKey(owner', idemKey');
    assert s[5..] == owner + ([':'] + idemKey) && s'[5..] == owner' + ([':'] + idemKey');
    FirstPart(owner, idemKey, owner', idemKey', ':');
  }

  /** The legacy format without an owner can run into an owner's slot. */
  lemma LegacySlotCollides(owner: string, idemKey: string)
    requires IsOwner(owner)
    ensures SlotKey("", owner + ":" + idemKey) == SlotKey(owner, idemKey)
  {
    assert "idem:" + (owner + ":" + idemKey) == "idem:" + owner + ":" + idemKey;
  }

  // ---- concurrent requests ----------------------------------------------------------------------------

  /** A committed notification under its idempotency key. */
  datatype Row = Row(owner: string, bodyHash: string, body: string)

  datatype Phase =
    | Arrived
    | Looking              // SETNX found the slot taken
    | Owning               // SETNX took the slot
    | Persisted            // the transaction committed
    | Finalized            // the SET of the response was sent
    | Failed               // persist returned an error
    | Closing              // answered; the deferred release looks at the request context

  /** body is the response this request would produce: it names a fresh notification id. */
  datatype Request = Request(owner: string, idemKey: string, bodyHash: string, body: string, phase: Phase)

  /** A 201 answer to a request; wire is what was written to the client. */
  datatype Answer = Answer(
    request: RequestId, owner: string, idemKey: string, bodyHash: string, body: string, wire: string)

  /** rows is keyed by notifications_idempotency_key_uniq: one notification per key, whoever owns it. */
  datatype State = State(
    slots: map<string, Record>, rows: map<string, Row>, requests: map<RequestId, Request>, answers: seq<Answer>)

  const INIT := State(map[], map[], map[], [])

  datatype Reply = Ok | LostReply | NotDone

  datatype Step =
    | Arrive(id: RequestId, owner: string, idemKey: string, bodyHash: string, body: string)
    | Claim(id: RequestId, reply: Reply)
    | Look(id: RequestId)
    | Persist(id: RequestId, reply: Reply)
    | Finish(id: RequestId, landed: bool)
    | Respond(id: RequestId)
    | Unclaim(id: RequestId, landed: bool)
    | Close(id: RequestId, cancelled: bool)
    | Die(id: RequestId)
    | Expire(slot: string)

  predicate At(s: State, id: RequestId, p: Phase) {
    id in s.requests && s.requests[id].phase == p
  }

  predicate Enabled(s: State, step: Step) {
    match step
    case Arrive(id, owner, idemKey, _, _) => id !in s.requests && IsOwner(owner) && idemKey != ""
    case Claim(id, _) => At(s, id, Arrived)
    case Look(id) => At(s, id, Looking)
    case Persist(id, _) => At(s, id, Owning)
    case Finish(id, _) => At(s, id, Persisted)
    case Respond(id) => At(s, id, Finalized)
    case Unclaim(id, _) => At(s, id, Failed)
    case Close(id, _) => At(s, id, Closing)
    case Die(id) => id in s.requests
    case Expire(_) => true
  }

  function Slot(q: Request): string {
    SlotKey(q.owner, q.idemKey)
  }

  function Move(s: State, id: RequestId, p: Phase): State
    requires id in s.requests
  {
    s.(requests := s.requests[id := s.requests[id].(phase := p)])
  }

  function Gone(s: State, id: RequestId): State {
    s.(requests := s.requests - {id})
  }

  /** SETNX with the in-flight marker. */
  function DoClaim(s: State, id: RequestId, reply: Reply): State
    requires id in s.requests
  {
    var q := s.requests[id];
    var free := Slot(q) !in s.slots;
    var s1 := if free && !reply.NotDone? then s.(slots := s.slots[Slot(q) := Record(q.bodyHash, "", true)]) else s;
    if !reply.Ok? then Gone(s1, id) else Move(s1, id, if free then Owning else Looking)
  }

  /** GET and decide: a finished record with the same body hash is replayed verbatim. */
  function DoLook(s: State, id: RequestId): State
    requires id in s.requests
  {
    var q := s.requests[id];
    if Slot(q) in s.slots && s.slots[Slot(q)].bodyHash == q.bodyHash && !s.slots[Slot(q)].inFlight
    then
      var body := s.slots[Slot(q)].body;
      Gone(s, id).(answers := s.answers + [Answer(id, q.owner, q.idemKey, q.bodyHash, body, body)])
    else Gone(s, id)
  }

  /** The insert fails on the unique index if any notification already has the key. */
  function DoPersist(s: State, id: RequestId, reply: Reply): State
    requires id in s.requests
  {
    var q := s.requests[id];
    var inserts := q.idemKey !in s.rows && !reply.NotDone?;
    var s1 := if inserts then s.(rows := s.rows[q.idemKey := Row(q.owner, q.bodyHash, q.body)]) else s;
    Move(s1, id, if inserts && reply.Ok? then Persisted else Failed)
  }

  function DoFinish(s: State, id: RequestId, landed: bool): State
    requires id in s.requests
  {
    var q := s.requests[id];
    Move(if landed then s.(slots := s.slots[Slot(q) := Record(q.bodyHash, q.body, false)]) else s, id, Finalized)
  }

  function DoRespond(s: State, id: RequestId): State
    requires id in s.requests
  {
    var q := s.requests[id];
    Move(s.(answers := s.answers + [Answer(id, q.owner, q.idemKey, q.bodyHash, q.body, q.body + "\n")]), id, Closing)
  }

  function Freed(s: State, id: RequestId, landed: bool): State
    requires id in s.requests
  {
    if landed then s.(slots := s.slots - {Slot(s.requests[id])}) else s
  }

  function Apply(s: State, step: Step): State
    requires Enabled(s, step)
  {
    match step
    case Arrive(id, owner, idemKey, bodyHash, body) =>
      s.(requests := s.requests[id := Request(owner, idemKey, bodyHash, body, Arrived)])
    case Claim(id, reply) => DoClaim(s, id, reply)
    case Look(id) => DoLook(s, id)
    case Persist(id, reply) => DoPersist(s, id, reply)
    case Finish(id, landed) => DoFinish(s, id, landed)
    case Respond(id) => DoRespond(s, id)
    case Unclaim(id, landed) => Move(Freed(s, id, landed), id, Closing)
    case Close(id, cancelled) => Gone(Freed(s, id, cancelled), id)
    case Die(id) => Gone(s, id)
    case Expire(slot) => s.(slots := s.slots - {slot})
  }

  predicate IsRun(s: State, steps: seq<Step>)
    decreases |steps|
  {
    steps == [] || (Enabled(s, steps[0]) && IsRun(Apply(s, steps[0]), steps[1..]))
  }

  function Final(s: State, steps: seq<Step>): State
    requires IsRun(s, steps)
    decreases |steps|
  {
    if steps == [] then s else Final(Apply(s, steps[0]), steps[1..])
  }

  // ---- the store by itself -------------------------------------------------------------------------

  datatype Begun = Own | Replay(body: string) | Conflict | InFlight | EmptyKey

  /** What BeginOrReplay answers when nobody interferes. */
  function Verdict(slots: map<string, Record>, owner: string, idemKey: string, bodyHash: string): Begun {
    var k := SlotKey(owner, idemKey);
    if idemKey == "" then EmptyKey
    else if k !in slots then Own
    else if slots[k].bodyHash != bodyHash then Conflict
    else if slots[k].inFlight then InFlight
    else Replay(slots[k].body)
  }

  /** Request id of machine m is in phase p, about this owner, key and body, and m has these slots. */
  predicate Mirrors(m: State, id: RequestId, p: Phase, slots: map<string, Record>,
                    owner: string, idemKey: string, bodyHash: string)
  {
    && m.slots == slots && At(m, id, p)
    && m.requests[id].owner == owner && m.requests[id].idemKey == idemKey && m.requests[id].bodyHash == bodyHash
  }

  /**
   The commands BeginOrReplay sends for request id, with nobody in between, lead from m to this
   answer and these slots.
   */
  ghost predicate IsUndisturbedRun(m: State, id: RequestId, r: Begun, after: map<string, Record>)
    requires At(m, id, Arrived)
  {
    var q := m.requests[id];
    var run := if r.Own? then [Claim(id, Ok)] else [Claim(id, Ok), Look(id)];
    && IsRun(m, run) && Final(m, run).slots == after
    && (r.Own? <==> At(Final(m, run), id, Owning))
    && (!r.Own? ==> id !in Final(m, run).requests)
    && Final(m, run).answers ==
         m.answers + if r.Replay? then [Answer(id, q.owner, q.idemKey, q.bodyHash, r.body, r.body)] else []
  }

  lemma VerdictIsUndisturbed(m: State, id: RequestId)
    requires At(m, id, Arrived) && m.requests[id].idemKey != ""
    ensures var q := m.requests[id];
            IsUndisturbedRun(m, id, Verdict(m.slots, q.owner, q.idemKey, q.bodyHash), DoClaim(m, id, Ok).slots)
  {
    var a := Apply(m, Claim(id, Ok));
    assert [Claim(id, Ok)][1..] == [] && [Claim(id, Ok), Look(id)][1..] == [Look(id)] && [Look(id)][1..] == [];
    if Slot(m.requests[id]) in m.slots {
      assert At(a, id, Looking);
      var b := Apply(a, Look(id));
      assert IsRun(b, []) && Final(b, []) == b;
      assert IsRun(a, [Look(id)]) && Final(a, [Look(id)]) == b;
    } else {
      assert IsRun(a, []) && Final(a, []) == a;
    }
  }

  class Store {
    var slots: map<string, Record>

    constructor ()
      ensures slots == map[]
    {
      slots := map[];
    }

    /**
     Undisturbed, BeginOrReplay is the SETNX of the machine above, followed by its GET if the slot
     was taken: it owns the slot exactly when that run does, and replays exactly the answer that
     run gives.
     */
    method BeginOrReplay(owner: string, idemKey: string, bodyHash: string) returns (r: Begun)
      modifies this
      ensures idemKey == "" ==> r == EmptyKey && slots == old(slots)
      ensures idemKey != "" ==> r == Verdict(old(slots), owner, idemKey, bodyHash)
      ensures slots == if r.Own? then old(slots)[SlotKey(owner, idemKey) := Record(bodyHash, "", true)] else old(slots)
      ensures idemKey != "" ==> forall m, id :: Mirrors(m, id, Arrived, old(slots), owner, idemKey, bodyHash) ==>
                IsUndisturbedRun(m, id, r, slots)
    {
      forall m, id | idemKey != "" && Mirrors(m, id, Arrived, slots, owner, idemKey, bodyHash)
        ensures IsUndisturbedRun(m, id, Verdict(slots, owner, idemKey, bodyHash), DoClaim(m, id, Ok).slots)
      {
        VerdictIsUndisturbed(m, id);
      }
      if idemKey == "" {
        return EmptyKey;
      }
      var k := SlotKey(owner, idemKey);
      if k !in slots {
        slots := slots[k := Record(bodyHash, "", true)];
        return Own;
      }
      var rec := slots[k];
      if rec.bodyHash != bodyHash {
        return Conflict;
      }
      if rec.inFlight {
        return InFlight;
      }
      return Replay(rec.body);
    }

    /** Finalize is the machine's SET; it lets every retry with the same body replay, and refuses every other body. */
    method Finalize(owner: string, idemKey: string, bodyHash: string, body: string)
      modifies this
      ensures forall m, id ::
                Mirrors(m, id, Persisted, old(slots), owner, idemKey, bodyHash) && m.requests[id].body == body ==>
                Apply(m, Finish(id, true)).slots == slots
      ensures slots == old(slots)[SlotKey(owner, idemKey) := Record(bodyHash, body, false)]
      ensures idemKey != "" ==> forall h ::
                Verdict(slots, owner, idemKey, h) == if h == bodyHash then Replay(body) else Conflict
    {
      slots := slots[SlotKey(owner, idemKey) := Record(bodyHash, body, false)];
    }

    /** Release is the machine's DEL; it frees the slot for whoever comes next, whoever it belonged to. */
    method Release(owner: string, idemKey: string)
      modifies this
      ensures forall m, id, h :: Mirrors(m, id, Failed, old(slots), owner, idemKey, h) ==>
                Apply(m, Unclaim(id, true)).slots == slots
      ensures slots == old(slots) - {SlotKey(owner, idemKey)}
      ensures idemKey != "" ==> forall h :: Verdict(slots, owner, idemKey, h) == Own
    {
      slots := slots - {SlotKey(owner, idemKey)};
    }
  }

  // ---- all answers agree ----------------------------------------------------------------------------------

  predicate Backed(rows: map<string, Row>, idemKey: string, row: Row) {
    idemKey in rows && rows[idemKey] == row
  }

  predicate AnswerBacked(rows: map<string, Row>, a: Answer) {
    Backed(rows, a.idemKey, Row(a.owner, a.bodyHash, a.body)) && (a.wire == a.body || a.wire == a.body + "\n")
  }

  predicate RequestBacked(rows: map<string, Row>, q: Request) {
    && IsOwner(q.owner) && q.idemKey != ""
    && (q.phase.Persisted? || q.phase.Finalized? ==> Backed(rows, q.idemKey, Row(q.owner, q.bodyHash, q.body)))
  }

  /** A finished slot of a real owner repeats a committed row. */
  ghost predicate SlotsBacked(slots: map<string, Record>, rows: map<string, Row>) {
    forall owner, idemKey {:trigger SlotKey(owner, idemKey)} ::
      IsOwner(owner) && SlotKey(owner, idemKey) in slots && !slots[SlotKey(owner, idemKey)].inFlight ==>
        var rec := slots[SlotKey(owner, idemKey)];
        Backed(rows, idemKey, Row(owner, rec.bodyHash, rec.body))
  }

  ghost predicate Agreed(s: State) {
    && SlotsBacked(s.slots, s.rows)
    && (forall id :: id in s.requests ==> RequestBacked(s.rows, s.requests[id]))
    && (forall i :: 0 <= i < |s.answers| ==> AnswerBacked(s.rows, s.answers[i]))
  }

  lemma FinishBacks(s: State, q: Request)
    requires SlotsBacked(s.slots, s.rows) && RequestBacked(s.rows, q) && q.phase.Persisted?
    ensures SlotsBacked(s.slots[Slot(q) := Record(q.bodyHash, q.body, false)], s.rows)
  {
    forall owner, idemKey | IsOwner(owner) && SlotKey(owner, idemKey) == Slot(q)
      ensures owner == q.owner && idemKey == q.idemKey
    {
      SlotsSeparate(owner, idemKey, q.owner, q.idemKey);
    }
  }

  lemma AgreedFinish(s: State, id: RequestId, landed: bool)
    requires Agreed(s) && Enabled(s, Finish(id, landed))
    ensures Agreed(Apply(s, Finish(id, landed)))
  {
    FinishBacks(s, s.requests[id]);
  }

  lemma AgreedLook(s: State, id: RequestId)
    requires Agreed(s) && Enabled(s, Look(id))
    ensures Agreed(Apply(s, Look(id)))
  {
    var q := s.requests[id];
    assert RequestBacked(s.rows, q);
    assert Slot(q) == SlotKey(q.owner, q.idemKey);
  }

  lemma AgreedClaim(s: State, id: RequestId, reply: Reply)
    requires Agreed(s) && Enabled(s, Claim(id, reply))
    ensures Agreed(Apply(s, Claim(id, reply)))
  {
  }

  lemma AgreedPersist(s: State, id: RequestId, reply: Reply)
    requires Agreed(s) && Enabled(s, Persist(id, reply))
    ensures Agreed(Apply(s, Persist(id, reply)))
  {
  }

  lemma RowsStay(s: State, step: Step)
    requires Enabled(s, step)
    ensures forall k :: k in s.rows ==> Backed(Apply(s, step).rows, k, s.rows[k])
  {
  }

  lemma AgreedStep(s: State, step: Step)
    requires Agreed(s) && Enabled(s, step)
    ensures Agreed(Apply(s, step))
    ensures forall k :: k in s.rows ==> Backed(Apply(s, step).rows, k, s.rows[k])
  {
    RowsStay(s, step);
    if step.Finish? {
      AgreedFinish(s, step.id, step.landed);
    } else if step.Look? {
      AgreedLook(s, step.id);
    } else if step.Claim? {
      AgreedClaim(s, step.id, step.reply);
    } else if step.Persist? {
      AgreedPersist(s, step.id, step.reply);
    }
  }

  lemma {:induction false} AgreedAlong(s: State, steps: seq<Step>)
    requires Agreed(s) && IsRun(s, steps)
    ensures Agreed(Final(s, steps))
    ensures forall k :: k in s.rows ==> Backed(Final(s, steps).rows, k, s.rows[k])
    decreases |steps|
  {
    if steps != [] {
      AgreedStep(s, steps[0]);
      AgreedAlong(Apply(s, steps[0]), steps[1..]);
    }
  }

  /**
   In every interleaving, with in-flight slots expiring, unconditional SET and DEL, lost replies,
   crashes and disconnects: all 201 answers for one idempotency key come from the same committed
   notification, for the same owner and request body, and carry the same stored response up to the
   newline the first answer ends in.
   */
  lemma AnswersAgree(steps: seq<Step>, i: nat, j: nat)
    requires IsRun(INIT, steps) && i < |Final(INIT, steps).answers| && j < |Final(INIT, steps).answers|
    requires Final(INIT, steps).answers[i].idemKey == Final(INIT, steps).answers[j].idemKey
    ensures var a, b := Final(INIT, steps).answers[i], Final(INIT, steps).answers[j];
            && a.owner == b.owner && a.bodyHash == b.bodyHash && a.body == b.body
            && Backed(Final(INIT, steps).rows, a.idemKey, Row(a.owner, a.bodyHash, a.body))
            && (a.wire == b.wire || a.wire == b.wire + "\n" || a.wire + "\n" == b.wire)
  {
    AgreedAlong(INIT, steps);
    var t := Final(INIT, steps);
    assert AnswerBacked(t.rows, t.answers[i]) && AnswerBacked(t.rows, t.answers[j]);
  }

  // ---- how long a response stays replayable ----------------------------------------------------------------

  predicate Finished(s: State, slot: string) {
    slot in s.slots && !s.slots[slot].inFlight
  }

  predicate Stores(s: State, slot: string, rec: Record) {
    slot in s.slots && s.slots[slot] == rec
  }

  /** Expiry, the deferred release of a disconnected request, and the release of a failed one. */
  predicate Forfeits(s: State, step: Step, slot: string) {
    match step
    case Expire(x) => x == slot
    case Close(id, cancelled) => cancelled && id in s.requests && Slot(s.requests[id]) == slot
    case Unclaim(id, landed) => landed && id in s.requests && Slot(s.requests[id]) == slot
    case _ => false
  }

  lemma FinishRepeats(s: State, id: RequestId, owner: string, k: string)
    requires Agreed(s) && At(s, id, Persisted) && IsOwner(owner) && Finished(s, SlotKey(owner, k))
    requires Slot(s.requests[id]) == SlotKey(owner, k)
    ensures s.slots[SlotKey(owner, k)] == Record(s.requests[id].bodyHash, s.requests[id].body, false)
  {
    var q := s.requests[id];
    assert RequestBacked(s.rows, q);
    SlotsSeparate(owner, k, q.owner, q.idemKey);
  }

  /** A stored response survives a step, to the letter, if and only if the step is not one of those three. */
  lemma ResponseKeptExactly(s: State, step: Step, owner: string, k: string)
    requires Agreed(s) && Enabled(s, step) && IsOwner(owner) && Finished(s, SlotKey(owner, k))
    ensures var slot := SlotKey(owner, k);
            Stores(Apply(s, step), slot, s.slots[slot]) <==> !Forfeits(s, step, slot)
  {
    if step.Finish? && Slot(s.requests[step.id]) == SlotKey(owner, k) {
      FinishRepeats(s, step.id, owner, k);
    }
  }

  ghost predicate NeverForfeits(s: State, steps: seq<Step>, slot: string)
    requires IsRun(s, steps)
    decreases |steps|
  {
    steps == [] || (!Forfeits(s, steps[0], slot) && NeverForfeits(Apply(s, steps[0]), steps[1..], slot))
  }

  ghost predicate AlwaysStores(s: State, steps: seq<Step>, slot: string, rec: Record)
    requires IsRun(s, steps)
    decreases |steps|
  {
    Stores(s, slot, rec) && (steps == [] || AlwaysStores(Apply(s, steps[0]), steps[1..], slot, rec))
  }

  /** Over whole runs: a stored response is there throughout exactly when no step of the run forfeits it. */
  lemma {:induction false} ResponseKeptThroughoutExactly(s: State, steps: seq<Step>, owner: string, k: string)
    requires Agreed(s) && IsRun(s, steps) && IsOwner(owner) && Finished(s, SlotKey(owner, k))
    ensures var slot := SlotKey(owner, k);
            AlwaysStores(s, steps, slot, s.slots[slot]) <==> NeverForfeits(s, steps, slot)
    decreases |steps|
  {
    if steps != [] {
      var t := Apply(s, steps[0]);
      AgreedStep(s, steps[0]);
      ResponseKeptExactly(s, steps[0], owner, k);
      if Stores(t, SlotKey(owner, k), s.slots[SlotKey(owner, k)]) {
        ResponseKeptThroughoutExactly(t, steps[1..], owner, k);
      }
    }
  }

  // ---- what a retry gets ---------------------------------------------------------------------------------------

  ghost predicate Answered(s: State, id: RequestId) {
    exists i :: 0 <= i < |s.answers| && s.answers[i].request == id
  }

  /** The slot of q holds a finished response to the same body. */
  predicate Finds(s: State, q: Request) {
    Finished(s, Slot(q)) && s.slots[Slot(q)].bodyHash == q.bodyHash
  }

  /** Request id, if it is still there, comes too late to commit: its key has a notification already. */
  predicate Retrying(s: State, id: RequestId) {
    id in s.requests ==>
      var q := s.requests[id];
      q.idemKey in s.rows && !q.phase.Persisted? && !q.phase.Finalized?
  }

  /** At some point of the run the GET of request id finds such a response. */
  ghost predicate LookFinds(s: State, steps: seq<Step>, id: RequestId)
    requires IsRun(s, steps)
    decreases |steps|
  {
    steps != [] && ((steps[0] == Look(id) && Finds(s, s.requests[id])) || LookFinds(Apply(s, steps[0]), steps[1..], id))
  }

  predicate NotAgain(steps: seq<Step>, id: RequestId) {
    forall i :: 0 <= i < |steps| ==> !(steps[i].Arrive? && steps[i].id == id)
  }

  lemma {:induction false} AnswersStay(s: State, steps: seq<Step>, id: RequestId)
    requires IsRun(s, steps) && Answered(s, id)
    ensures Answered(Final(s, steps), id)
    decreases |steps|
  {
    if steps != [] {
      var i :| 0 <= i < |s.answers| && s.answers[i].request == id;
      assert Apply(s, steps[0]).answers[i].request == id;
      AnswersStay(Apply(s, steps[0]), steps[1..], id);
    }
  }

  lemma RetryStep(s: State, step: Step, id: RequestId)
    requires Enabled(s, step) && Retrying(s, id) && !Answered(s, id) && !(step.Arrive? && step.id == id)
    ensures Retrying(Apply(s, step), id)
    ensures Answered(Apply(s, step), id) <==> step == Look(id) && Finds(s, s.requests[id])
  {
    var t := Apply(s, step);
    if step == Look(id) && Finds(s, s.requests[id]) {
      assert t.answers[|s.answers|].request == id;
    }
  }

  /**
   A request whose key already has a notification is answered 201 if and only if its GET, which it
   sends when its SETNX found the slot taken, finds a finished response to the same body there; by
   AnswersAgree it is the response everybody got.
   */
  lemma {:induction false} RetryAnsweredExactly(s: State, steps: seq<Step>, id: RequestId)
    requires IsRun(s, steps) && NotAgain(steps, id) && Retrying(s, id) && !Answered(s, id)
    ensures Answered(Final(s, steps), id) <==> LookFinds(s, steps, id)
    decreases |steps|
  {
    if steps != [] {
      var t := Apply(s, steps[0]);
      RetryStep(s, steps[0], id);
      if Answered(t, id) {
        AnswersStay(t, steps[1..], id);
      } else {
        RetryAnsweredExactly(t, steps[1..], id);
      }
    }
  }

  predicate Of(step: Step, id: RequestId) {
    !step.Expire? && step.id == id
  }

  ghost predicate LeavesRequest(steps: seq<Step>, id: RequestId) {
    forall i :: 0 <= i < |steps| ==> !Of(steps[i], id)
  }

  lemma {:induction false} RequestWaits(s: State, steps: seq<Step>, id: RequestId)
    requires IsRun(s, steps) && LeavesRequest(steps, id) && id in s.requests
    ensures id in Final(s, steps).requests && Final(s, steps).requests[id] == s.requests[id]
    decreases |steps|
  {
    if steps != [] {
      assert !Of(steps[0], id);
      RequestWaits(Apply(s, steps[0]), steps[1..], id);
    }
  }

  lemma {:induction false} StoredAtEnd(s: State, steps: seq<Step>, slot: string, rec: Record)
    requires IsRun(s, steps) && AlwaysStores(s, steps, slot, rec)
    ensures Stores(Final(s, steps), slot, rec)
    decreases |steps|
  {
    if steps != [] {
      StoredAtEnd(Apply(s, steps[0]), steps[1..], slot, rec);
    }
  }

  /**
   The promise of ADR-0006: an identical retry that arrives while the response is stored is
   answered with it verbatim, whatever others do between its SETNX and its GET short of
   forfeiting the slot.
   */
  lemma RetryReplays(s: State, between: seq<Step>, id: RequestId)
    requires Agreed(s) && At(s, id, Arrived) && Finds(s, s.requests[id])
    requires IsRun(Apply(s, Claim(id, Ok)), between) && LeavesRequest(between, id)
    requires NeverForfeits(Apply(s, Claim(id, Ok)), between, Slot(s.requests[id]))
    ensures var q, t := s.requests[id], Final(Apply(s, Claim(id, Ok)), between);
            && Enabled(t, Look(id))
            && Apply(t, Look(id)).answers ==
                 t.answers + [Answer(id, q.owner, q.idemKey, q.bodyHash, s.slots[Slot(q)].body, s.slots[Slot(q)].body)]
  {
    var q, a := s.requests[id], Apply(s, Claim(id, Ok));
    assert RequestBacked(s.rows, q);
    AgreedStep(s, Claim(id, Ok));
    RequestWaits(a, between, id);
    ResponseKeptThroughoutExactly(a, between, q.owner, q.idemKey);
    StoredAtEnd(a, between, Slot(q), s.slots[Slot(q)]);
  }

  // ---- what a disconnect costs ------------------------------------------------------------------------------

  lemma {:induction false} Snoc(s: State, run: seq<Step>, step: Step)
    requires IsRun(s, run) && Enabled(Final(s, run), step)
    ensures IsRun(s, run + [step]) && Final(s, run + [step]) == Apply(Final(s, run), step)
    decreases |run|
  {
    if run == [] {
      assert run + [step] == [step] && [step][1..] == [];
      assert IsRun(Apply(s, step), []);
    } else {
      assert (run + [step])[1..] == run[1..] + [step];
      Snoc(Apply(s, run[0]), run[1..], step);
    }
  }

  lemma Then(s: State, run: seq<Step>, t: State, step: Step) returns (run': seq<Step>, t': State)
    requires IsRun(s, run) && Final(s, run) == t && Enabled(t, step)
    ensures run' == run + [step] && t' == Apply(t, step) && IsRun(s, run') && Final(s, run') == t'
  {
    run', t' := run + [step], Apply(t, step);
    Snoc(s, run, step);
  }

  /** A request that goes through while nobody else is about. */
  lemma ReachAnswered(owner: string, k: string, hash: string, body: string) returns (run: seq<Step>, t: State)
    requires IsOwner(owner) && k != ""
    ensures IsRun(INIT, run) && Final(INIT, run) == t
    ensures t == State(map[SlotKey(owner, k) := Record(hash, body, false)], map[k := Row(owner, hash, body)],
                       map[1 := Request(owner, k, hash, body, Closing)], [Answer(1, owner, k, hash, body, body + "\n")])
  {
    run, t := Then(INIT, [], INIT, Arrive(1, owner, k, hash, body));
    run, t := Then(INIT, run, t, Claim(1, Ok));
    run, t := Then(INIT, run, t, Persist(1, Ok));
    run, t := Then(INIT, run, t, Finish(1, true));
    run, t := Then(INIT, run, t, Respond(1));
  }

  /**
   ADR-0006 promises the same response for 24 hours.  A client that disconnects at the very end
   loses it: the deferred release deletes the finished slot, and an identical retry runs into the
   unique index instead of a replay.
   */
  lemma DisconnectForfeitsReplay(owner: string, k: string, hash: string, body: string, body': string)
    returns (run: seq<Step>, t: State)
    requires IsOwner(owner) && k != ""
    ensures IsRun(INIT, run) && Final(INIT, run) == t
    ensures t.rows == map[k := Row(owner, hash, body)] && |t.answers| == 1
    ensures t.requests == map[2 := Request(owner, k, hash, body', Failed)]
  {
    run, t := ReachAnswered(owner, k, hash, body);
    run, t := Then(INIT, run, t, Close(1, true));
    assert t.slots == map[] && t.requests == map[];
    run, t := Then(INIT, run, t, Arrive(2, owner, k, hash, body'));
    run, t := Then(INIT, run, t, Claim(2, Ok));
    run, t := Then(INIT, run, t, Persist(2, Ok));
  }
}
