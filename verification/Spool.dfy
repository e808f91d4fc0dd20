/** The durable CloudLink stream: positions, retention, acknowledgement, overflow evidence and replay. `State` keeps the
    retained records in position order; `SpoolObject` is the mutable object over a map from positions. */
module Spool {
  import opened Wrappers
  import opened CanonicalJson
  import opened CloudLink

  const MAX_PAYLOAD_BYTES: nat := 256 * 1024
  const MAX_RECORDS: nat := 65_536

  datatype Ack = Ack(session: Binding, streamId: string, streamEpoch: nat, position: nat, batchId: string,
                     digest: string, receiptId: string)

  datatype Evidence = Evidence(streamId: string, streamEpoch: nat, first: nat, last: nat, earliestRetained: nat,
                               recordedAt: nat)

  datatype SpoolError = InvalidData | ConflictingIdentity | Storage | PositionGap | StaleSession
                      | WrongStream | PendingRecords

  datatype AckOutcome = Applied(removed: nat) | Duplicate

  datatype Window = Window(records: seq<Record>, dataLoss: Option<Evidence>)

  datatype State = State(streamId: string, epoch: nat, next: nat, capacity: nat, records: seq<Record>,
                         lastAck: Option<Ack>, lastAcked: nat, dataLoss: Option<Evidence>)

  // ---------------------------------------------------------------- validators

  predicate BoundedId(s: string) { 0 < |s| <= 128 && forall i :: 0 <= i < |s| ==> IdentifierChar(s[i]) }

  predicate ValidBinding(b: Binding) { b.sessionEpoch > 0 && BoundedId(b.sessionId) }

  predicate ValidContent(c: Enqueue) {
    && BoundedId(c.batchId) && DigestText(c.digest)
    && 0 < Size(c.payload) <= MAX_PAYLOAD_BYTES
    && (c.expiresAt.Some? ==> c.expiresAt.value > c.createdAt)
  }

  // ---------------------------------------------------------------- the invariant

  /** The first retained position, or the next one when nothing is retained. */
  function Earliest(s: State): nat { if s.next >= |s.records| then s.next - |s.records| else 0 }

  predicate Placed(s: State, i: nat)
    requires i < |s.records|
  {
    s.records[i].identity == Identity(s.streamId, s.epoch, Earliest(s) + i)
  }

  /** Retained positions are consecutive and end just before the next one. */
  predicate Contiguous(s: State) {
    forall i :: 0 <= i < |s.records| ==> Placed(s, i)
  }

  predicate AckConsistent(s: State) {
    match s.lastAck
    case None => s.lastAcked == 0
    case Some(a) =>
      a.streamId == s.streamId && a.streamEpoch == s.epoch && a.position == s.lastAcked && ValidBinding(a.session)
  }

  predicate EvidenceConsistent(s: State) {
    s.dataLoss.Some? ==>
      var e := s.dataLoss.value;
      && e.streamId == s.streamId && e.streamEpoch == s.epoch
      && 1 <= e.first <= e.last < e.earliestRetained <= Earliest(s)
  }

  /** The positions neither acknowledged nor retained are exactly those the current evidence names. */
  predicate LossCovered(s: State) {
    && s.lastAcked < Earliest(s)
    && (s.lastAcked + 1 < Earliest(s) ==>
          s.dataLoss.Some? && s.dataLoss.value.first == s.lastAcked + 1
          && s.dataLoss.value.last + 1 == s.dataLoss.value.earliestRetained == Earliest(s))
    && (s.lastAcked + 1 == Earliest(s) && s.dataLoss.Some? ==> s.dataLoss.value.last < s.lastAcked)
  }

  predicate Valid(s: State) {
    && BoundedId(s.streamId) && 1 <= s.epoch <= U64_MAX && 1 <= s.next <= U64_MAX
    && 1 <= s.capacity <= MAX_RECORDS && |s.records| <= s.capacity && 1 <= Earliest(s)
    && Contiguous(s) && AckConsistent(s) && EvidenceConsistent(s) && LossCovered(s)
  }

  // ---------------------------------------------------------------- operations

  function NewState(streamId: string, capacity: nat): Result<State, SpoolError> {
    if !BoundedId(streamId) then Err(InvalidData)
    else if capacity == 0 || capacity > MAX_RECORDS then Err(InvalidData)
    else Ok(State(streamId, 1, 1, capacity, [], None, 0, None))
  }

  function FindBatch(records: seq<Record>, batchId: string): Option<Record> {
    if records == [] then None
    else if records[0].content.batchId == batchId then Some(records[0])
    else FindBatch(records[1..], batchId)
  }

  /** Payloads are compared as bytes, that is, as canonical text. */
  predicate SameContent(a: Enqueue, b: Enqueue) {
    a.digest == b.digest && a.kind == b.kind && Text(a.payload) == Text(b.payload)
  }

  /** The evidence after losing one more position. */
  function Lose(s: State, lost: nat, earliestRetained: nat, recordedAt: nat): Evidence {
    if s.dataLoss.Some? && s.dataLoss.value.streamEpoch == s.epoch && s.dataLoss.value.last + 1 == lost then
      s.dataLoss.value.(last := lost, earliestRetained := earliestRetained)
    else Evidence(s.streamId, s.epoch, lost, lost, earliestRetained, recordedAt)
  }

  function EnqueueRecord(s: State, input: Enqueue): Result<(State, Record), SpoolError>
    requires Valid(s)
  {
    if !ValidContent(input) then Err(InvalidData)
    else
      var existing := FindBatch(s.records, input.batchId);
      if existing.Some? then
        if SameContent(existing.value.content, input) then Ok((s, existing.value)) else Err(ConflictingIdentity)
      else if s.next == U64_MAX then Err(Storage)
      else
        var record := FromEnqueue(Identity(s.streamId, s.epoch, s.next), input);
        var grown := s.(next := s.next + 1, records := s.records + [record]);
        if |s.records| < s.capacity then Ok((grown, record))
        else
          var lost := Earliest(s);
          var loss := Some(Lose(s, lost, lost + 1, input.createdAt));
          Ok((grown.(records := grown.records[1..], dataLoss := loss), record))
  }

  function ReplayFrom(s: State, position: nat, limit: nat): Result<Window, SpoolError>
    requires Valid(s)
  {
    if position == 0 || limit == 0 then Err(InvalidData)
    else if position > s.next then Err(PositionGap)
    else if position < Earliest(s) then
      if s.dataLoss.Some? && s.dataLoss.value.first <= position <= s.dataLoss.value.last then Ok(Window([], s.dataLoss))
      else Err(PositionGap)
    else
      var rest := s.records[position - Earliest(s)..];
      Ok(Window(if |rest| <= limit then rest else rest[..limit], None))
  }

  /** The index of a retained identity. */
  function Locate(s: State, identity: Identity): Result<nat, SpoolError>
    requires Valid(s)
  {
    if identity.streamId != s.streamId || identity.streamEpoch != s.epoch then Err(WrongStream)
    else if !(Earliest(s) <= identity.position < s.next) then Err(PositionGap)
    else Ok(identity.position - Earliest(s))
  }

  function MarkOffered(s: State, identity: Identity, session: Binding): Result<State, SpoolError>
    requires Valid(s)
  {
    if !ValidBinding(session) then Err(InvalidData)
    else
      var i :- Locate(s, identity);
      Ok(s.(records := s.records[i := s.records[i].(state := Offered, offeredSession := Some(session))]))
  }

  function MarkTransportPublished(s: State, identity: Identity, session: Binding): Result<State, SpoolError>
    requires Valid(s)
  {
    if !ValidBinding(session) then Err(InvalidData)
    else
      var i :- Locate(s, identity);
      if s.records[i].offeredSession != Some(session) then Err(StaleSession)
      else
        var record := s.records[i].(state := TransportPublished, offeredSession := Some(session));
        Ok(s.(records := s.records[i := record]))
  }

  function Acknowledge(s: State, ack: Ack): Result<(State, AckOutcome), SpoolError>
    requires Valid(s)
  {
    if !ValidBinding(ack.session) then Err(InvalidData)
    else if s.lastAck == Some(ack) then Ok((s, Duplicate))
    else if ack.streamId != s.streamId || ack.streamEpoch != s.epoch then Err(WrongStream)
    else if ack.position <= s.lastAcked then Err(ConflictingIdentity)
    else if !BoundedId(ack.receiptId) then Err(InvalidData)
    else if !(Earliest(s) <= ack.position < s.next) then Err(PositionGap)
    else
      var i := ack.position - Earliest(s);
      var record := s.records[i];
      if record.offeredSession != Some(ack.session) then Err(StaleSession)
      else if record.content.batchId != ack.batchId || record.content.digest != ack.digest then Err(ConflictingIdentity)
      else Ok((s.(records := s.records[i + 1..], lastAcked := ack.position, lastAck := Some(ack)), Applied(i + 1)))
  }

  function RotateEpoch(s: State): Result<State, SpoolError> {
    if s.records != [] then Err(PendingRecords)
    else if s.epoch >= U64_MAX then Err(Storage)
    else Ok(s.(epoch := s.epoch + 1, next := 1, lastAck := None, lastAcked := 0, dataLoss := None))
  }

  function Reopen(s: State, streamId: string, capacity: nat): Result<State, SpoolError> {
    if !BoundedId(streamId) then Err(InvalidData)
    else if s.streamId != streamId then Err(WrongStream)
    else if capacity == 0 || capacity > MAX_RECORDS || capacity < |s.records| then Err(InvalidData)
    else Ok(s.(capacity := capacity))
  }

  datatype Op = OpEnqueue(input: Enqueue) | OpOffer(identity: Identity, session: Binding)
              | OpPublished(identity: Identity, session: Binding) | OpAcknowledge(ack: Ack)
              | OpRotate | OpReopen(capacity: nat)

  /** The outcome of an operation as a new state. */
  function Attempt(s: State, op: Op): Result<State, SpoolError>
    requires Valid(s)
  {
    match op
    case OpEnqueue(input) => var r :- EnqueueRecord(s, input); Ok(r.0)
    case OpOffer(identity, session) => MarkOffered(s, identity, session)
    case OpPublished(identity, session) => MarkTransportPublished(s, identity, session)
    case OpAcknowledge(ack) => var r :- Acknowledge(s, ack); Ok(r.0)
    case OpRotate => RotateEpoch(s)
    case OpReopen(capacity) => Reopen(s, s.streamId, capacity)
  }

  /** A failed operation changes nothing. */
  function Step(s: State, op: Op): State
    requires Valid(s)
  {
    if Attempt(s, op).Ok? then Attempt(s, op).value else s
  }

  // ---------------------------------------------------------------- every step keeps the invariant

  lemma EnqueueKeepsValid(s: State, input: Enqueue)
    requires Valid(s) && EnqueueRecord(s, input).Ok?
    ensures Valid(EnqueueRecord(s, input).value.0)
  {
    hide ValidContent, BoundedId, FindBatch, LossCovered, EvidenceConsistent, AckConsistent;
    if FindBatch(s.records, input.batchId).None? {
      EnqueuePlaces(s, input);
      EnqueueNames(s, input);
    }
  }

  lemma EnqueuePlaces(s: State, input: Enqueue)
    requires Valid(s) && EnqueueRecord(s, input).Ok? && FindBatch(s.records, input.batchId).None?
    ensures Contiguous(EnqueueRecord(s, input).value.0)
  {
    hide ValidContent, BoundedId, FindBatch, LossCovered, EvidenceConsistent, AckConsistent;
    var t := EnqueueRecord(s, input).value.0;
    var shift := if |s.records| < s.capacity then 0 else 1;
    assert Earliest(t) == Earliest(s) + shift;
    forall i | 0 <= i < |t.records| ensures Placed(t, i) {
      if i + shift < |s.records| { assert Placed(s, i + shift); }
    }
  }

  lemma EnqueueNames(s: State, input: Enqueue)
    requires Valid(s) && EnqueueRecord(s, input).Ok? && FindBatch(s.records, input.batchId).None?
    ensures var t := EnqueueRecord(s, input).value.0;
      AckConsistent(t) && EvidenceConsistent(t) && LossCovered(t)
  {
    hide ValidContent, BoundedId, FindBatch, Contiguous;
  }

  lemma MarkingKeepsValid(s: State, identity: Identity, session: Binding)
    requires Valid(s)
    ensures MarkOffered(s, identity, session).Ok? ==> Valid(MarkOffered(s, identity, session).value)
    ensures MarkTransportPublished(s, identity, session).Ok? ==>
      Valid(MarkTransportPublished(s, identity, session).value)
  {
    if MarkOffered(s, identity, session).Ok? {
      var t := MarkOffered(s, identity, session).value;
      forall i | 0 <= i < |t.records| ensures Placed(t, i) { assert Placed(s, i); }
    }
    if MarkTransportPublished(s, identity, session).Ok? {
      var t := MarkTransportPublished(s, identity, session).value;
      forall i | 0 <= i < |t.records| ensures Placed(t, i) { assert Placed(s, i); }
    }
  }

  lemma AcknowledgeKeepsValid(s: State, ack: Ack)
    requires Valid(s) && Acknowledge(s, ack).Ok?
    ensures Valid(Acknowledge(s, ack).value.0)
  {
    var t := Acknowledge(s, ack).value.0;
    var removed := |s.records| - |t.records|;
    forall i | 0 <= i < |t.records| ensures Placed(t, i) { assert Placed(s, i + removed); }
  }

  lemma StepKeepsValid(s: State, op: Op)
    requires Valid(s)
    ensures Valid(Step(s, op))
  {
    match op
    case OpEnqueue(input) => if EnqueueRecord(s, input).Ok? { EnqueueKeepsValid(s, input); }
    case OpOffer(identity, session) => MarkingKeepsValid(s, identity, session);
    case OpPublished(identity, session) => MarkingKeepsValid(s, identity, session);
    case OpAcknowledge(ack) => if Acknowledge(s, ack).Ok? { AcknowledgeKeepsValid(s, ack); }
    case OpRotate =>
    case OpReopen(capacity) =>
      var t := Step(s, op);
      forall i | 0 <= i < |t.records| ensures Placed(t, i) { assert Placed(s, i); }
  }

  // ---------------------------------------------------------------- replay never skips silently

  predicate Named(s: State, position: nat) {
    s.dataLoss.Some? && s.dataLoss.value.first <= position <= s.dataLoss.value.last
  }

  /** A replay from a known position fails exactly when the position is already acknowledged and not named as lost. From
      any unacknowledged position it either returns the records from there on, consecutive and as many as asked for, or
      evidence that starts right after the last acknowledgement and ends where retention starts. */
  lemma ReplayNeverSkips(s: State, position: nat, limit: nat)
    requires Valid(s) && 0 < position <= s.next && limit > 0
    ensures ReplayFrom(s, position, limit).Err? <==> position <= s.lastAcked && !Named(s, position)
    ensures position > s.lastAcked ==>
      var w := ReplayFrom(s, position, limit).value;
      if position >= Earliest(s) then
        && w.dataLoss.None?
        && |w.records| == (if s.next - position <= limit then s.next - position else limit)
        && forall i :: 0 <= i < |w.records| ==> w.records[i].identity == Identity(s.streamId, s.epoch, position + i)
      else
        && w.records == [] && w.dataLoss.Some?
        && w.dataLoss.value.first == s.lastAcked + 1 && w.dataLoss.value.last + 1 == Earliest(s)
  {
    if position >= Earliest(s) {
      var w := ReplayFrom(s, position, limit).value;
      forall i | 0 <= i < |w.records| ensures w.records[i].identity == Identity(s.streamId, s.epoch, position + i) {
        assert Placed(s, position - Earliest(s) + i);
      }
    }
  }

  // ---------------------------------------------------------------- repeating a batch id

  /** The first record that carries a batch id. */
  predicate FirstWith(records: seq<Record>, batchId: string, i: nat) {
    && i < |records| && records[i].content.batchId == batchId
    && forall j :: 0 <= j < i ==> records[j].content.batchId != batchId
  }

  lemma {:induction false} FirstIsFound(records: seq<Record>, batchId: string, i: nat)
    requires FirstWith(records, batchId, i)
    ensures FindBatch(records, batchId) == Some(records[i])
  {
    if i > 0 { FirstIsFound(records[1..], batchId, i - 1); }
  }

  lemma {:induction false} NothingToFind(records: seq<Record>, batchId: string)
    requires forall i :: 0 <= i < |records| ==> records[i].content.batchId != batchId
    ensures FindBatch(records, batchId) == None
  {
    if records != [] { NothingToFind(records[1..], batchId); }
  }

  lemma FirstExists(records: seq<Record>, batchId: string, n: nat) returns (i: nat)
    requires n < |records| && records[n].content.batchId == batchId
    ensures i <= n && FirstWith(records, batchId, i)
  {
    i := 0;
    while records[i].content.batchId != batchId
      invariant i <= n && forall j :: 0 <= j < i ==> records[j].content.batchId != batchId
      decreases n - i
    {
      i := i + 1;
    }
  }

  /** The look-up finds a record exactly if one carries the batch id, and then the first one. */
  lemma FindBatchFinds(records: seq<Record>, batchId: string)
    ensures FindBatch(records, batchId).Some? <==>
      exists i :: 0 <= i < |records| && records[i].content.batchId == batchId
    ensures FindBatch(records, batchId).Some? ==>
      exists i: nat :: FirstWith(records, batchId, i) && FindBatch(records, batchId) == Some(records[i])
  {
    hide FindBatch;
    if n :| 0 <= n < |records| && records[n].content.batchId == batchId {
      var i := FirstExists(records, batchId, n);
      FirstIsFound(records, batchId, i);
    } else {
      NothingToFind(records, batchId);
    }
  }

  /** No two records carry the same batch id. */
  predicate DistinctBatches(records: seq<Record>) {
    forall i, j :: 0 <= i < j < |records| ==> records[i].content.batchId != records[j].content.batchId
  }

  lemma OnlyIsFound(records: seq<Record>, batchId: string, i: nat)
    requires DistinctBatches(records) && i < |records| && records[i].content.batchId == batchId
    ensures FindBatch(records, batchId) == Some(records[i])
  {
    hide FindBatch;
    FirstIsFound(records, batchId, i);
  }

  /** Repeating a retained batch id with the same digest returns the stored record and changes nothing exactly when kind
      and payload are the same as well; otherwise it is refused, as it is with another digest. The digest alone does not
      decide. */
  lemma RepeatIff(s: State, input: Enqueue, i: nat)
    requires Valid(s) && ValidContent(input) && DistinctBatches(s.records)
    requires i < |s.records| && s.records[i].content.batchId == input.batchId
    ensures var c := s.records[i].content;
            var same := c.digest == input.digest && c.kind == input.kind && Text(c.payload) == Text(input.payload);
      EnqueueRecord(s, input) == if same then Ok((s, s.records[i])) else Err(ConflictingIdentity)
  {
    hide ValidContent, FindBatch;
    OnlyIsFound(s.records, input.batchId, i);
  }

  lemma EnqueueKeepsDistinct(s: State, input: Enqueue)
    requires Valid(s) && DistinctBatches(s.records) && EnqueueRecord(s, input).Ok?
    ensures DistinctBatches(EnqueueRecord(s, input).value.0.records)
  {
    hide ValidContent, FindBatch, Contiguous, EvidenceConsistent, LossCovered, AckConsistent;
    FindBatchFinds(s.records, input.batchId);
  }

  lemma StepKeepsDistinct(s: State, op: Op)
    requires Valid(s) && DistinctBatches(s.records)
    ensures DistinctBatches(Step(s, op).records)
  {
    hide ValidContent, EnqueueRecord, Contiguous, EvidenceConsistent, LossCovered, AckConsistent;
    if op.OpEnqueue? && EnqueueRecord(s, op.input).Ok? { EnqueueKeepsDistinct(s, op.input); }
  }

  /** The same content under another kind, right after it was enqueued in a new spool, is refused. */
  lemma SameDigestCanConflict(streamId: string, capacity: nat, c: Enqueue, kind: Kind)
    requires NewState(streamId, capacity).Ok? && ValidContent(c) && kind != c.kind
    ensures var s := NewState(streamId, capacity).value;
      && Valid(s) && EnqueueRecord(s, c).Ok? && Valid(EnqueueRecord(s, c).value.0)
      && EnqueueRecord(EnqueueRecord(s, c).value.0, c.(kind := kind)) == Err(ConflictingIdentity)
  {
    var s := NewState(streamId, capacity).value;
    EnqueueKeepsValid(s, c);
    var t := EnqueueRecord(s, c).value.0;
    assert t.records == [EnqueueRecord(s, c).value.1];
    RepeatIff(t, c.(kind := kind), 0);
  }

  // ---------------------------------------------------------------- what leaves, and why

  predicate Retained(s: State, epoch: nat, position: nat) {
    s.epoch == epoch && Earliest(s) <= position < s.next
  }

  function ContentAt(s: State, position: nat): Enqueue
    requires Valid(s) && Retained(s, s.epoch, position)
  {
    s.records[position - Earliest(s)].content
  }

  /** The ack names a retained record, as it was offered on the ack's own session. */
  predicate Covers(s: State, ack: Ack)
    requires Valid(s)
  {
    && ack.streamId == s.streamId && Retained(s, ack.streamEpoch, ack.position)
    && (var record := s.records[ack.position - Earliest(s)];
        record.offeredSession == Some(ack.session) && record.content.batchId == ack.batchId
          && record.content.digest == ack.digest)
  }

  /** A retained position leaves in one of two ways: a durable acknowledgement that names a retained record with its
      batch id, digest and offering session, at or after this position; or eviction of the oldest record by an enqueue
      at capacity, which the evidence then names. Otherwise the content stays where it is. */
  lemma OnlyAckOrRecordedLossRemoves(s: State, op: Op, position: nat)
    requires Valid(s) && Retained(s, s.epoch, position)
    ensures var t := Step(s, op);
      && Valid(t)
      && (if Retained(t, s.epoch, position) then ContentAt(t, position) == ContentAt(s, position)
          else if op.OpAcknowledge? then position <= op.ack.position && Covers(s, op.ack)
          else
            && op.OpEnqueue? && position == Earliest(s) && |s.records| == s.capacity
            && t.epoch == s.epoch && Named(t, position))
  {
    hide ValidContent, BoundedId, Contiguous, AckConsistent, FindBatch;
    StepKeepsValid(s, op);
  }

  // ---------------------------------------------------------------- conservation over whole runs

  /** What happened to every position of the current epoch. */
  datatype Ledger = Ledger(log: seq<Enqueue>, acked: set<nat>, lost: set<nat>)

  predicate AtLeast(p: nat, from: nat) { from <= p }

  function Positions(from: nat, to: nat): set<nat> { set p: nat | p < to && AtLeast(p, from) }

  function Post(l: Ledger, s: State, op: Op): Ledger
    requires Valid(s)
  {
    var t := Step(s, op);
    if t.epoch != s.epoch then Ledger([], {}, {})
    else if op.OpEnqueue? && t.next > s.next then
      Ledger(l.log + [op.input], l.acked, l.lost + Positions(Earliest(s), Earliest(t)))
    else if op.OpAcknowledge? then l.(acked := l.acked + Positions(Earliest(s), Earliest(t)))
    else l
  }

  /** Every position ever assigned is retained with the content it was given, acknowledged, or lost; never two of
      these. */
  predicate Balanced(l: Ledger, s: State) {
    && Valid(s)
    && |l.log| + 1 == s.next
    && (forall i :: 0 <= i < |s.records| ==> Kept(l, s, i))
    && l.acked !! l.lost
    && l.acked + l.lost == Positions(1, Earliest(s))
    && (forall p :: p in l.acked ==> p <= s.lastAcked)
    && (forall p :: p in l.lost && p > s.lastAcked ==> Named(s, p))
  }

  predicate Kept(l: Ledger, s: State, i: nat)
    requires i < |s.records|
  {
    1 <= Earliest(s) && Earliest(s) + i <= |l.log| && s.records[i].content == l.log[Earliest(s) + i - 1]
  }

  lemma MovePositions(from: nat, to: nat)
    requires 1 <= from <= to
    ensures Positions(1, to) == Positions(1, from) + Positions(from, to) && Positions(1, from) !! Positions(from, to)
    ensures forall p :: p in Positions(from, to) <==> from <= p < to
  {
    assert forall p: nat :: AtLeast(p, from) <==> from <= p;
    assert forall p: nat :: AtLeast(p, 1) <==> 1 <= p;
  }

  lemma EnqueueBalances(l: Ledger, s: State, op: Op)
    requires Balanced(l, s) && op.OpEnqueue?
    ensures Balanced(Post(l, s, op), Step(s, op))
  {
    hide ValidContent, BoundedId, Positions, Contiguous, AckConsistent;
    StepKeepsValid(s, op);
    var t, m := Step(s, op), Post(l, s, op);
    if t.next > s.next {
      var shift := if |s.records| < s.capacity then 0 else 1;
      forall i | 0 <= i < |t.records| ensures Kept(m, t, i) {
        if i + shift < |s.records| { assert Kept(l, s, i + shift); }
      }
      MovePositions(Earliest(s), Earliest(t));
    }
  }

  /** What a receipt leaves: a suffix of the records, and an acknowledged position past everything removed. */
  lemma AcknowledgeLeaves(s: State, op: Op)
    requires Valid(s) && op.OpAcknowledge?
    ensures var t := Step(s, op);
      && Valid(t) && t.next == s.next && t.epoch == s.epoch && t.dataLoss == s.dataLoss && s.lastAcked <= t.lastAcked
      && Earliest(s) <= Earliest(t) && t.records == s.records[Earliest(t) - Earliest(s)..]
      && (Earliest(t) > Earliest(s) ==> Earliest(t) == t.lastAcked + 1)
  {
    hide ValidContent, BoundedId, Contiguous, EvidenceConsistent;
    StepKeepsValid(s, op);
  }

  lemma AcknowledgeBalances(l: Ledger, s: State, op: Op)
    requires Balanced(l, s) && op.OpAcknowledge?
    ensures Balanced(Post(l, s, op), Step(s, op))
  {
    hide Valid, Positions, Step;
    AcknowledgeLeaves(s, op);
    var t, m := Step(s, op), Post(l, s, op);
    EarliestPositive(s);
    var removed := Earliest(t) - Earliest(s);
    forall i | 0 <= i < |t.records| ensures Kept(m, t, i) { assert Kept(l, s, i + removed); }
    MovePositions(Earliest(s), Earliest(t));
  }

  lemma EarliestPositive(s: State)
    requires Valid(s)
    ensures 1 <= Earliest(s)
  {}

  lemma OtherOpsBalance(l: Ledger, s: State, op: Op)
    requires Balanced(l, s) && !op.OpEnqueue? && !op.OpAcknowledge?
    ensures Balanced(Post(l, s, op), Step(s, op))
  {
    hide ValidContent, BoundedId;
    StepKeepsValid(s, op);
    var t, m := Step(s, op), Post(l, s, op);
    if t.epoch == s.epoch {
      forall i | 0 <= i < |t.records| ensures Kept(m, t, i) { assert Kept(l, s, i); }
    }
  }

  function RunState(s: State, ops: seq<Op>): (t: State)
    requires Valid(s)
    ensures Valid(t)
  {
    if ops == [] then s
    else
      var t := RunState(s, ops[..|ops| - 1]);
      StepKeepsValid(t, ops[|ops| - 1]);
      Step(t, ops[|ops| - 1])
  }

  function RunLedger(s: State, ops: seq<Op>): Ledger
    requires Valid(s)
  {
    if ops == [] then Ledger([], {}, {})
    else Post(RunLedger(s, ops[..|ops| - 1]), RunState(s, ops[..|ops| - 1]), ops[|ops| - 1])
  }

  /** From a new spool, after any run of operations, successful or not: every assigned position is accounted for exactly
      once, and each loss not overtaken by an acknowledgement is named by the current evidence. */
  lemma {:induction false} EveryRunBalances(streamId: string, capacity: nat, ops: seq<Op>)
    requires NewState(streamId, capacity).Ok?
    ensures var s := NewState(streamId, capacity).value;
      Valid(s) && Balanced(RunLedger(s, ops), RunState(s, ops))
  {
    var s := NewState(streamId, capacity).value;
    if ops != [] {
      var n := |ops| - 1;
      EveryRunBalances(streamId, capacity, ops[..n]);
      var l, t := RunLedger(s, ops[..n]), RunState(s, ops[..n]);
      if ops[n].OpEnqueue? { EnqueueBalances(l, t, ops[n]); }
      else if ops[n].OpAcknowledge? { AcknowledgeBalances(l, t, ops[n]); }
      else { OtherOpsBalance(l, t, ops[n]); }
    }
  }

  /** Over every run from a new spool, no two retained records carry the same batch id. */
  lemma {:induction false} BatchesStayDistinct(streamId: string, capacity: nat, ops: seq<Op>)
    requires NewState(streamId, capacity).Ok?
    ensures var s := NewState(streamId, capacity).value; Valid(s) && DistinctBatches(RunState(s, ops).records)
  {
    hide Step;
    if ops != [] {
      var n := |ops| - 1;
      BatchesStayDistinct(streamId, capacity, ops[..n]);
      StepKeepsDistinct(RunState(NewState(streamId, capacity).value, ops[..n]), ops[n]);
    }
  }

  /** Over any run at all: a record that was retained and no longer is left at one step of the run, by a receipt that
      covers it and names a record offered on the receipt's own session, or as the oldest record of a full spool, which
      the evidence of that step names. Until then its content was untouched. */
  lemma {:induction false} Departure(s: State, ops: seq<Op>, position: nat) returns (i: nat)
    requires Valid(s) && Retained(s, s.epoch, position) && !Retained(RunState(s, ops), s.epoch, position)
    ensures i < |ops|
    ensures var before := RunState(s, ops[..i]);
      && before.epoch == s.epoch && Retained(before, before.epoch, position)
      && ContentAt(before, position) == ContentAt(s, position) && !Retained(Step(before, ops[i]), s.epoch, position)
      && (if ops[i].OpAcknowledge? then position <= ops[i].ack.position && Covers(before, ops[i].ack)
          else ops[i].OpEnqueue? && position == Earliest(before) && |before.records| == before.capacity
               && Named(Step(before, ops[i]), position))
  {
    hide Valid, Placed, ValidContent, FindBatch;
    var n := |ops| - 1;
    if Retained(RunState(s, ops[..n]), s.epoch, position) {
      i := n;
      StillThere(s, ops[..n], position);
      OnlyAckOrRecordedLossRemoves(RunState(s, ops[..n]), ops[n], position);
    } else {
      i := Departure(s, ops[..n], position);
      assert ops[..n][..i] == ops[..i];
    }
  }

  lemma {:induction false} StillThere(s: State, ops: seq<Op>, position: nat)
    requires Valid(s) && Retained(s, s.epoch, position) && Retained(RunState(s, ops), s.epoch, position)
    ensures ContentAt(RunState(s, ops), position) == ContentAt(s, position)
  {
    hide Valid, Placed, ValidContent, FindBatch;
    if ops != [] {
      var n := |ops| - 1;
      var before := RunState(s, ops[..n]);
      if Retained(before, s.epoch, position) {
        StillThere(s, ops[..n], position);
        OnlyAckOrRecordedLossRemoves(before, ops[n], position);
      } else {
        NeverBack(s, ops[..n], position);
        GoneStaysGone(before, ops[n], s.epoch, position);
      }
    }
  }

  /** Past the position in this epoch, or in a later epoch. */
  predicate Gone(s: State, epoch: nat, position: nat) {
    s.epoch > epoch || (s.epoch == epoch && position < Earliest(s))
  }

  lemma GoneStaysGone(s: State, op: Op, epoch: nat, position: nat)
    requires Valid(s) && Gone(s, epoch, position)
    ensures Gone(Step(s, op), epoch, position)
  {
    hide Placed, Contiguous, ValidContent, FindBatch, ValidBinding, BoundedId;
  }

  lemma {:induction false} NeverBack(s: State, ops: seq<Op>, position: nat)
    requires Valid(s) && Retained(s, s.epoch, position)
    ensures Retained(RunState(s, ops), s.epoch, position) || Gone(RunState(s, ops), s.epoch, position)
  {
    hide Valid, Placed, ValidContent, FindBatch;
    if ops != [] {
      var n := |ops| - 1;
      var before := RunState(s, ops[..n]);
      NeverBack(s, ops[..n], position);
      if Gone(before, s.epoch, position) { GoneStaysGone(before, ops[n], s.epoch, position); }
      else { RetainedOrGone(before, ops[n], position); }
    }
  }

  lemma RetainedOrGone(s: State, op: Op, position: nat)
    requires Valid(s) && Retained(s, s.epoch, position)
    ensures Retained(Step(s, op), s.epoch, position) || Gone(Step(s, op), s.epoch, position)
  {
    hide Placed, Contiguous, ValidContent, FindBatch, ValidBinding, BoundedId;
  }
}
