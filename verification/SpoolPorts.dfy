/** A durable stream as its publishers see it: shared with tasks that keep enqueuing, its calls able to fail before or
    after they take effect, and a log of who did what. What is proved of the log holds for every sequence of events. */
module SpoolPorts {
  import opened Wrappers
  import opened CloudLink
  import opened Spool
  import opened Sessions

  datatype PortError = Conflict | Unavailable | Rejected | InvalidMessage | Permanent

  datatype Status = Status(streamId: string, streamEpoch: nat, next: nat, earliest: nat, pending: nat)

  datatype Candidate = DurableAck(ack: AckMessage) | ReplayRequest(request: ReplayMessage) | OtherMessage | Undecodable

  datatype Inbound = AckDown(message: Candidate) | ReplayDown(message: Candidate) | OtherRoute

  datatype TransportEvent = Connected | Disconnected | Published(identity: Identity) | Received(inbound: Inbound)

  // ---------------------------------------------------------------- who did what, and why

  /** One operation applied to a spool: another task's, or a publisher's own with its session and the event behind
      it. */
  datatype Did = Others(op: Op) | Ours(op: Op, session: Session, cause: TransportEvent)

  /** The receipt an event carries for a session, if the session admits it. */
  function ReceiptOf(session: Session, event: TransportEvent): Option<Ack> {
    match event
    case Received(AckDown(DurableAck(m))) =>
      var ack := ToSpoolAck(m, session);
      if ack.Ok? then Some(ack.value) else None
    case _ => None
  }

  predicate Offering(event: TransportEvent) {
    event.Connected? || (event.Received? && event.inbound.ReplayDown? && event.inbound.message.ReplayRequest?)
  }

  /** Others only enqueue. A publisher offers on its own session when connected or asked to replay, marks what a PUBACK
      names, and acknowledges only the receipt that came and that its session admits. */
  predicate Permitted(d: Did) {
    match d
    case Others(op) => op.OpEnqueue?
    case Ours(op, session, cause) =>
      match op
      case OpOffer(_, binding) => Offering(cause) && binding == SpoolBinding(session)
      case OpPublished(identity, binding) => cause == Published(identity) && binding == SpoolBinding(session)
      case OpAcknowledge(ack) => ReceiptOf(session, cause) == Some(ack)
      case _ => false
  }

  predicate Legal(log: seq<Did>) { forall i :: 0 <= i < |log| ==> Permitted(log[i]) }

  function Ops(log: seq<Did>): (ops: seq<Op>)
    ensures |ops| == |log| && forall i :: 0 <= i < |ops| ==> ops[i] == log[i].op
  {
    seq(|log|, i requires 0 <= i < |log| => log[i].op)
  }

  function OurOps(log: seq<Did>): seq<Op> {
    if log == [] then [] else OurOps(log[..|log| - 1]) + if log[|log| - 1].Ours? then [log[|log| - 1].op] else []
  }

  lemma OpsGrow(log: seq<Did>, did: Did)
    ensures Ops(log + [did])[..|log|] == Ops(log) && Ops(log + [did])[|log|] == did.op
  {
    var more := log + [did];
    assert forall i :: 0 <= i < |log| ==> Ops(more)[i] == log[i].op;
  }

  lemma OurOpsGrow(log: seq<Did>, did: Did)
    ensures OurOps(log + [did]) == OurOps(log) + if did.Ours? then [did.op] else []
  {
    var more := log + [did];
    assert more[..|more| - 1] == log && more[|more| - 1] == did;
  }

  /** Everything since was done by others, or for this event on this session. */
  predicate Since(before: seq<Did>, after: seq<Did>, session: Session, event: TransportEvent) {
    before <= after && forall i :: |before| <= i < |after| ==> For(after[i], session, event)
  }

  predicate For(d: Did, session: Session, event: TransportEvent) {
    d.Ours? ==> d.session == session && d.cause == event
  }

  // ---------------------------------------------------------------- what stays

  /** The stream is the same one and only moved forward; nothing was acknowledged. */
  predicate OnlyGrew(s: State, t: State) {
    && t.streamId == s.streamId && t.epoch == s.epoch && t.lastAcked == s.lastAcked
    && s.next <= t.next && Earliest(s) <= Earliest(t)
  }

  predicate SameAt(s: State, t: State, p: nat)
    requires Valid(s) && Valid(t)
  {
    Retained(s, s.epoch, p) && Retained(t, t.epoch, p) ==> ContentAt(t, p) == ContentAt(s, p)
  }

  /** Nothing acknowledged, and whatever is still there is as it was. */
  ghost predicate Keeps(s: State, t: State) {
    Valid(s) && Valid(t) && OnlyGrew(s, t) && forall p: nat :: SameAt(s, t, p)
  }

  /** So each record that was there is still there with its content, or the evidence names its position as lost. */
  lemma KeptOrNamed(s: State, t: State, p: nat)
    requires Keeps(s, t) && Retained(s, s.epoch, p)
    ensures if Retained(t, t.epoch, p) then ContentAt(t, p) == ContentAt(s, p) else Named(t, p)
  {
    hide Contiguous, Placed, BoundedId, AckConsistent, EvidenceConsistent;
    assert SameAt(s, t, p);
  }

  lemma KeepsItself(s: State)
    requires Valid(s)
    ensures Keeps(s, s)
  {}

  lemma KeepsOnward(s: State, m: State, t: State)
    requires Keeps(s, m) && Keeps(m, t)
    ensures Keeps(s, t)
  {
    hide Valid;
    forall p: nat ensures SameAt(s, t, p) {
      assert SameAt(s, m, p) && SameAt(m, t, p);
    }
  }

  lemma StepKeeps(s: State, op: Op)
    requires Valid(s) && (op.OpEnqueue? || op.OpOffer? || op.OpPublished?)
    ensures Keeps(s, Step(s, op))
  {
    hide ValidContent, Placed, ValidBinding, FindBatch;
    StepKeepsValid(s, op);
    forall p: nat ensures SameAt(s, Step(s, op), p) {
      if Retained(s, s.epoch, p) { OnlyAckOrRecordedLossRemoves(s, op, p); }
    }
  }

  predicate Names(s: State, ack: Ack) { s.streamId == ack.streamId && s.epoch == ack.streamEpoch }

  predicate AckedAt(s: State, t: State, ack: Ack, p: nat)
    requires Valid(s) && Valid(t)
  {
    Retained(s, s.epoch, p) ==>
      if p <= ack.position then !Retained(t, t.epoch, p)
      else if Retained(t, t.epoch, p) then ContentAt(t, p) == ContentAt(s, p) else Named(t, p)
  }

  /** A receipt took effect: every record up to its position is gone, every other one is as it was or named as lost, and
      the record it names is the one that was there. */
  ghost predicate Acked(s: State, t: State, ack: Ack) {
    && Valid(s) && Valid(t) && Names(s, ack) && Names(t, ack) && t.lastAcked == ack.position
    && s.next <= t.next && Earliest(s) <= Earliest(t) && (s.lastAcked == ack.position || Earliest(s) <= ack.position)
    && (forall p: nat :: AckedAt(s, t, ack, p))
    && (Retained(s, s.epoch, ack.position) ==>
          ContentAt(s, ack.position).batchId == ack.batchId && ContentAt(s, ack.position).digest == ack.digest)
  }

  lemma AcknowledgeAfter(s: State, m: State, ack: Ack)
    requires Keeps(s, m) && Acknowledge(m, ack).Ok?
    ensures Acked(s, Acknowledge(m, ack).value.0, ack)
    ensures Acknowledge(m, ack).value.1.Applied? ==> Covers(m, ack)
  {
    hide Placed, Contiguous, BoundedId;
    AcknowledgeKeepsValid(m, ack);
    var t := Acknowledge(m, ack).value.0;
    forall p: nat ensures AckedAt(s, t, ack, p) {
      assert SameAt(s, m, p);
      if Retained(s, s.epoch, p) { KeptOrNamed(s, m, p); }
      if Retained(m, m.epoch, p) { OnlyAckOrRecordedLossRemoves(m, OpAcknowledge(ack), p); }
    }
    assert SameAt(s, m, ack.position);
  }

  lemma AckedOnward(s: State, m: State, t: State, ack: Ack)
    requires Keeps(s, m) && Acked(m, t, ack)
    ensures Acked(s, t, ack)
  {
    hide Contiguous, Placed, BoundedId, EvidenceConsistent;
    forall p: nat ensures AckedAt(s, t, ack, p) {
      assert SameAt(s, m, p) && AckedAt(m, t, ack, p);
      if ack.position < p < t.next { LostIsNamed(t, p); }
    }
    assert SameAt(s, m, ack.position) && AckedAt(m, t, ack, ack.position);
    if Retained(s, s.epoch, ack.position) { RetainedIsPending(s, ack.position); }
  }

  lemma AcknowledgeStep(s: State, ack: Ack)
    requires Valid(s)
    ensures var r := Acknowledge(s, ack); Step(s, OpAcknowledge(ack)) == if r.Ok? then r.value.0 else s
  {
    hide Valid, Acknowledge;
  }

  // ---------------------------------------------------------------- over whole logs

  /** Entry `i` is a receipt for this position or a later one: it came on the session that logged it, which admits it,
      and names a record that was offered on that very session. */
  predicate ReceiptFor(start: State, log: seq<Did>, i: nat, p: nat)
    requires Valid(start) && i < |log|
  {
    && log[i].Ours? && log[i].op.OpAcknowledge?
    && ReceiptOf(log[i].session, log[i].cause) == Some(log[i].op.ack)
    && p <= log[i].op.ack.position && log[i].op.ack.session == SpoolBinding(log[i].session)
    && Covers(RunState(start, Ops(log[..i])), log[i].op.ack)
  }

  /** Up to entry `i` the record is retained with the content it had. */
  predicate Held(start: State, log: seq<Did>, i: nat, p: nat)
    requires Valid(start) && Retained(start, start.epoch, p) && i <= |log|
  {
    var before := RunState(start, Ops(log[..i]));
    before.epoch == start.epoch && Retained(before, before.epoch, p) && ContentAt(before, p) == ContentAt(start, p)
  }

  /** Entry `i` is a receipt, and takes the record away. */
  predicate RemovedAt(start: State, log: seq<Did>, i: nat, p: nat)
    requires Valid(start) && Retained(start, start.epoch, p) && i < |log|
  {
    Held(start, log, i, p) && ReceiptFor(start, log, i, p) && !Held(start, log, i + 1, p)
  }

  /** Entry `i` is an enqueue into a full spool, which loses the record and says so. */
  predicate LostAt(start: State, log: seq<Did>, i: nat, p: nat)
    requires Valid(start) && Retained(start, start.epoch, p) && i < |log|
  {
    var before := RunState(start, Ops(log[..i]));
    && Held(start, log, i, p) && log[i].op.OpEnqueue? && p == Earliest(before) && |before.records| == before.capacity
    && Named(Step(before, log[i].op), p)
  }

  /** A receipt logged after entry `i` acknowledges this position or a later one. */
  ghost predicate OvertakenAfter(start: State, log: seq<Did>, i: nat, p: nat)
    requires Valid(start)
  {
    exists j: nat :: i < j < |log| && ReceiptFor(start, log, j, p)
  }

  lemma AdmittedBinding(session: Session, event: TransportEvent)
    requires ReceiptOf(session, event).Some?
    ensures ReceiptOf(session, event).value.session == SpoolBinding(session)
  {
    hide ValidAckMessage;
  }

  /** One step moves the acknowledged position past `p` only with a receipt for it. */
  lemma PassedByReceipt(s: State, d: Did, p: nat)
    requires Valid(s) && Permitted(d) && s.lastAcked < p <= Step(s, d.op).lastAcked
    ensures d.Ours? && d.op.OpAcknowledge? && p <= d.op.ack.position && Covers(s, d.op.ack)
    ensures ReceiptOf(d.session, d.cause) == Some(d.op.ack) && d.op.ack.session == SpoolBinding(d.session)
  {
    hide Placed, Contiguous, BoundedId, ValidContent, FindBatch, ValidAckMessage, LossCovered;
    if d.Ours? && d.op.OpAcknowledge? { AdmittedBinding(d.session, d.cause); }
  }

  lemma LegalStep(s: State, d: Did, p: nat)
    requires Valid(s) && Permitted(d)
    ensures var t := Step(s, d.op);
      && Valid(t) && t.streamId == s.streamId && t.epoch == s.epoch && s.next <= t.next && s.lastAcked <= t.lastAcked
      && SameAt(s, t, p) && (Retained(t, t.epoch, p) && p < s.next ==> Retained(s, s.epoch, p))
  {
    hide Placed, Contiguous, BoundedId, ValidContent, FindBatch, ReceiptOf, EvidenceConsistent, AckConsistent;
    StepKeepsValid(s, d.op);
    if Retained(s, s.epoch, p) { OnlyAckOrRecordedLossRemoves(s, d.op, p); }
  }

  lemma LostIsNamed(t: State, p: nat)
    requires Valid(t) && t.lastAcked < p < t.next
    ensures Retained(t, t.epoch, p) || Named(t, p)
  {
    hide Contiguous, BoundedId, AckConsistent;
  }

  lemma {:induction false} LogInvariant(start: State, log: seq<Did>, p: nat)
    requires Valid(start) && Legal(log) && Retained(start, start.epoch, p)
    ensures var t := RunState(start, Ops(log));
      t.streamId == start.streamId && t.epoch == start.epoch && start.next <= t.next && SameAt(start, t, p)
  {
    hide Valid, Permitted, SameAt, Step;
    var ops := Ops(log);
    if log == [] {
      assert SameAt(start, start, p) by { KeepsItself(start); }
    } else {
      var n := |log| - 1;
      LogInvariant(start, log[..n], p);
      assert Ops(log[..n]) == ops[..n];
      var before, t := RunState(start, ops[..n]), RunState(start, ops);
      LegalStep(before, log[n], p);
      assert SameAt(start, t, p) by { SameOnward(start, before, t, p); }
    }
  }

  /** If a run moves the acknowledged position past `p`, one of its steps is a receipt for it. */
  lemma {:induction false} Overtaken(start: State, log: seq<Did>, n: nat, p: nat) returns (j: nat)
    requires Valid(start) && Legal(log) && n <= |log|
    requires RunState(start, Ops(log[..n])).lastAcked < p <= RunState(start, Ops(log)).lastAcked
    ensures n <= j < |log| && ReceiptFor(start, log, j, p)
  {
    hide Valid, Permitted, Covers, Step, ReceiptOf;
    assert log[..|log|] == log;
    var m := |log| - 1;
    var before := RunState(start, Ops(log[..m]));
    assert Ops(log)[..m] == Ops(log[..m]);
    if p <= before.lastAcked {
      assert log[..m][..n] == log[..n];
      j := Overtaken(start, log[..m], n, p);
      assert log[..m][..j] == log[..j];
    } else {
      j := m;
      PassedByReceipt(before, log[m], p);
    }
  }

  lemma RetainedIsPending(s: State, p: nat)
    requires Valid(s) && Retained(s, s.epoch, p)
    ensures s.lastAcked < p < s.next
  {
    hide Contiguous, BoundedId, AckConsistent, EvidenceConsistent;
  }

  lemma SameOnward(s: State, m: State, t: State, p: nat)
    requires Valid(s) && Valid(m) && Valid(t) && SameAt(s, m, p) && SameAt(m, t, p)
    requires m.epoch == s.epoch && t.epoch == s.epoch
      && (Retained(t, t.epoch, p) && p < m.next ==> Retained(m, m.epoch, p))
    requires s.next <= m.next
    ensures SameAt(s, t, p)
  {
    hide Valid;
  }

  /** The loss at entry `i` is still named at the end, or a later receipt acknowledged a position past it. */
  ghost predicate Told(start: State, log: seq<Did>, i: nat, p: nat)
    requires Valid(start)
  {
    Named(RunState(start, Ops(log)), p) || OvertakenAfter(start, log, i, p)
  }

  /** What became of a record: it is still there as it was, or a receipt took it away, or it was lost from a full spool;
      then the evidence still names it, unless a later receipt acknowledged a position past it. */
  ghost predicate Accounted(start: State, log: seq<Did>, p: nat)
    requires Valid(start) && Retained(start, start.epoch, p)
  {
    || Held(start, log, |log|, p)
    || (exists i: nat :: i < |log| && RemovedAt(start, log, i, p))
    || (exists i: nat :: i < |log| && LostAt(start, log, i, p) && Told(start, log, i, p))
  }

  /** The step at which a record left, and how. */
  lemma LeftAt(start: State, log: seq<Did>, p: nat) returns (i: nat)
    requires Valid(start) && Legal(log) && Retained(start, start.epoch, p) && !Held(start, log, |log|, p)
    ensures i < |log| && (RemovedAt(start, log, i, p) || LostAt(start, log, i, p))
  {
    hide Valid, Permitted, Covers, Step, ReceiptOf, SameAt;
    assert log[..|log|] == log;
    LogInvariant(start, log, p);
    NotRetained(start, log, p);
    i := Departure(start, Ops(log), p);
    assert Ops(log)[..i] == Ops(log[..i]);
    var before := RunState(start, Ops(log[..i]));
    if log[i].op.OpAcknowledge? {
      LegalReceipt(log, i);
      var more := log[..i + 1];
      assert Ops(more)[..i] == Ops(log[..i]) && Ops(more)[i] == log[i].op;
      assert RunState(start, Ops(more)) == Step(before, log[i].op);
    }
  }

  lemma NotRetained(start: State, log: seq<Did>, p: nat)
    requires Valid(start) && Retained(start, start.epoch, p) && !Held(start, log, |log|, p)
    requires var t := RunState(start, Ops(log)); t.epoch == start.epoch && SameAt(start, t, p)
    ensures !Retained(RunState(start, Ops(log)), start.epoch, p)
  {
    hide Valid, RunState;
    assert log[..|log|] == log;
  }

  lemma LegalReceipt(log: seq<Did>, i: nat)
    requires Legal(log) && i < |log| && log[i].op.OpAcknowledge?
    ensures log[i].Ours? && ReceiptOf(log[i].session, log[i].cause) == Some(log[i].op.ack)
    ensures log[i].op.ack.session == SpoolBinding(log[i].session)
  {
    hide ReceiptOf;
    assert Permitted(log[i]);
    AdmittedBinding(log[i].session, log[i].cause);
  }

  /** Whatever any publishers and tasks did, in any order and over any sessions: a record that was retained is retained
      with its content; or it was taken away by a receipt that the session current at that moment admitted; or it was
      lost from a full spool and is named until a receipt past it. */
  lemma NothingLeavesUnnoticed(start: State, log: seq<Did>, p: nat)
    requires Valid(start) && Legal(log) && Retained(start, start.epoch, p)
    ensures Accounted(start, log, p)
  {
    hide Valid, Permitted, RunState, ReceiptFor, Step;
    if !Held(start, log, |log|, p) {
      var i := LeftAt(start, log, p);
      if LostAt(start, log, i, p) { LostIsTold(start, log, i, p); }
    }
  }

  lemma LostIsTold(start: State, log: seq<Did>, i: nat, p: nat)
    requires Valid(start) && Legal(log) && Retained(start, start.epoch, p) && i < |log| && LostAt(start, log, i, p)
    requires !Held(start, log, |log|, p)
    ensures Told(start, log, i, p)
  {
    hide Valid, Permitted, RunState, Step, ReceiptOf, SameAt, Named, Covers;
    var t := RunState(start, Ops(log));
    LogInvariant(start, log, p);
    NotRetained(start, log, p);
    RetainedIsPending(start, p);
    if p > t.lastAcked {
      LostIsNamed(t, p);
    } else {
      RetainedIsPending(RunState(start, Ops(log[..i])), p);
      var j := Overtaken(start, log, i, p);
      assert j != i;
    }
  }

  /** All publishers ran on sessions of one chain. */
  predicate OnChain(log: seq<Did>, sessions: seq<Session>) {
    forall i :: 0 <= i < |log| ==> ByOneOf(log[i], sessions)
  }

  predicate ByOneOf(d: Did, sessions: seq<Session>) { d.Ours? ==> d.session in sessions }

  lemma ReceiptThat(start: State, log: seq<Did>, p: nat) returns (i: nat)
    requires Valid(start) && Legal(log) && Retained(start, start.epoch, p)
    requires var t := RunState(start, Ops(log)); !Retained(t, start.epoch, p) && !Named(t, p)
    ensures i < |log| && ReceiptFor(start, log, i, p)
    ensures RemovedAt(start, log, i, p) || exists e: nat :: e < i && LostAt(start, log, e, p)
  {
    hide Valid, Permitted, RunState, Step, ReceiptFor, LostAt;
    assert log[..|log|] == log;
    var e := LeftAt(start, log, p);
    i := e;
    if !RemovedAt(start, log, e, p) {
      LostIsTold(start, log, e, p);
      i :| e < i < |log| && ReceiptFor(start, log, i, p);
    }
  }

  /** Over a chain of sessions, a record that is neither retained nor named was taken away, or after its loss overtaken,
      by a receipt that belongs to exactly one of them: the one that logged it, that last offered the record it names,
      and the only one that admits the message at all. */
  lemma RemovedByItsOwnSession(start: State, log: seq<Did>, p: nat, sessions: seq<Session>, binds: seq<Attempted>,
                               gatewayId: string, first: nat)
    returns (i: nat, k: nat)
    requires Valid(start) && Legal(log) && Retained(start, start.epoch, p)
    requires Chain(sessions, binds, gatewayId, first) && OnChain(log, sessions)
    requires var t := RunState(start, Ops(log)); !Retained(t, start.epoch, p) && !Named(t, p)
    ensures i < |log| && k < |sessions| && ReceiptFor(start, log, i, p) && log[i].session == sessions[k]
    ensures RemovedAt(start, log, i, p) || exists e: nat :: e < i && LostAt(start, log, e, p)
    ensures forall j: nat :: j < |sessions| ==> (ReceiptOf(sessions[j], log[i].cause).Some? <==> j == k)
  {
    hide Valid, Permitted, Covers, Chain, RunState, Step, Held, RemovedAt, LostAt;
    i := ReceiptThat(start, log, p);
    assert log[i].Ours?;
    assert ByOneOf(log[i], sessions);
    k :| 0 <= k < |sessions| && sessions[k] == log[i].session;
    var m := log[i].cause.inbound.message.ack;
    forall j: nat | j < |sessions| ensures ReceiptOf(sessions[j], log[i].cause).Some? <==> j == k {
      ReceiptsBelongToOneSession(sessions, binds, gatewayId, first, m, k, j);
    }
  }

  // ---------------------------------------------------------------- the port

  class SpoolPort {
    var state: State
    ghost const start: State
    ghost var log: seq<Did>

    ghost predicate Sound()
      reads this
    {
      Valid(start) && Valid(state) && Legal(log) && state == RunState(start, Ops(log))
    }

    constructor (state: State)
      requires Valid(state)
      ensures Sound() && this.state == state && start == state && log == []
    {
      this.state, start, log := state, state, [];
    }

    method Apply(op: Op, ghost did: Did) returns (r: Result<State, SpoolError>)
      requires Sound() && did.op == op && Permitted(did)
      modifies this
      ensures Sound() && r == Attempt(old(state), op) && state == Step(old(state), op)
      ensures log == old(log) + [did] && OurOps(log) == OurOps(old(log)) + if did.Ours? then [op] else []
    {
      hide Valid, Permitted, OurOps, Attempt;
      r := Attempt(state, op);
      OpsGrow(log, did);
      OurOpsGrow(log, did);
      StepKeepsValid(state, op);
      log := log + [did];
      state := if r.Ok? then r.value else state;
    }

    /** Other tasks enqueue, any number of times. */
    method Interleave(ghost session: Session, ghost cause: TransportEvent)
      requires Sound()
      modifies this
      ensures Sound() && Keeps(old(state), state) && OurOps(log) == OurOps(old(log))
        && Since(old(log), log, session, cause)
    {
      hide Valid, Keeps, Attempt, Step, RunState, OurOps, Legal;
      KeepsItself(state);
      var more: int := *;
      while more > 0
        invariant Sound() && Keeps(old(state), state) && OurOps(log) == OurOps(old(log))
          && Since(old(log), log, session, cause)
      {
        var input: Enqueue := *;
        StepKeeps(state, OpEnqueue(input));
        KeepsOnward(old(state), state, Step(state, OpEnqueue(input)));
        var _ := Apply(OpEnqueue(input), Others(OpEnqueue(input)));
        more := more - 1;
      }
    }

    /** A marking call: it may fail without effect, take effect and still fail, or be refused by the spool. */
    method Mark(op: Op, ghost session: Session, ghost cause: TransportEvent) returns (r: Result<(), PortError>)
      requires Sound() && (op.OpOffer? || op.OpPublished?) && Permitted(Ours(op, session, cause))
      modifies this
      ensures Sound() && Keeps(old(state), state) && Since(old(log), log, session, cause)
      ensures OurOps(log) == OurOps(old(log)) || OurOps(log) == OurOps(old(log)) + [op]
      ensures r.Ok? ==> OurOps(log) == OurOps(old(log)) + [op]
    {
      hide Valid, Keeps, Permitted;
      Interleave(session, cause);
      if * { return Err(Unavailable); }
      StepKeeps(state, op);
      KeepsOnward(old(state), state, Step(state, op));
      var outcome := Apply(op, Ours(op, session, cause));
      if outcome.Err? { return Err(Unavailable); }
      if * { return Err(Unavailable); }
      return Ok(());
    }

    /** A receipt, with the same failures. When the call succeeds the receipt took effect. */
    method Acknowledge(ack: Ack, ghost session: Session, ghost cause: TransportEvent)
        returns (r: Result<AckOutcome, PortError>)
      requires Sound() && ReceiptOf(session, cause) == Some(ack)
      modifies this
      ensures Sound() && Since(old(log), log, session, cause)
      ensures OurOps(log) == OurOps(old(log)) || OurOps(log) == OurOps(old(log)) + [OpAcknowledge(ack)]
      ensures OurOps(log) == OurOps(old(log)) ==> Keeps(old(state), state)
      ensures Keeps(old(state), state) || Acked(old(state), state, ack)
      ensures r.Ok? ==> Acked(old(state), state, ack) && OurOps(log) == OurOps(old(log)) + [OpAcknowledge(ack)]
    {
      hide Valid, Keeps, Acked, ReceiptOf, Spool.Acknowledge, Attempt, Step, RunState, Legal, OurOps;
      Interleave(session, cause);
      if * { return Err(Unavailable); }
      var outcome := Spool.Acknowledge(state, ack);
      AcknowledgeStep(state, ack);
      if outcome.Ok? { AcknowledgeAfter(old(state), state, ack); }
      var _ := Apply(OpAcknowledge(ack), Ours(OpAcknowledge(ack), session, cause));
      if outcome.Err? { return Err(Unavailable); }
      if * { return Err(Unavailable); }
      return Ok(outcome.value.1);
    }

    method CurrentStatus(ghost session: Session, ghost cause: TransportEvent) returns (r: Result<Status, PortError>)
      requires Sound()
      modifies this
      ensures Sound() && Keeps(old(state), state) && OurOps(log) == OurOps(old(log))
        && Since(old(log), log, session, cause)
      ensures r.Ok? ==> r.value == Status(state.streamId, state.epoch, state.next, Earliest(state), |state.records|)
    {
      Interleave(session, cause);
      if * { return Err(Unavailable); }
      return Ok(Status(state.streamId, state.epoch, state.next, Earliest(state), |state.records|));
    }

    method Replay(position: nat, limit: nat, ghost session: Session, ghost cause: TransportEvent)
        returns (r: Result<Window, PortError>)
      requires Sound()
      modifies this
      ensures Sound() && Keeps(old(state), state) && OurOps(log) == OurOps(old(log))
        && Since(old(log), log, session, cause)
      ensures r.Ok? ==> ReplayFrom(state, position, limit) == Ok(r.value)
    {
      Interleave(session, cause);
      if * { return Err(Unavailable); }
      var window := ReplayFrom(state, position, limit);
      if window.Err? { return Err(Unavailable); }
      return Ok(window.value);
    }
  }
}
