/** The file-backed spool: one journal entry per mutation, checkpoints, and recovery after a crash. */
module Journal {
  import opened Wrappers
  import opened CanonicalJson
  import opened CloudLink
  import opened Spool

  datatype Entry =
    | Checkpoint(streamId: string, epoch: nat, next: nat, capacity: nat, lastAck: Option<Ack>, lastAcked: nat,
                 dataLoss: Option<Evidence>)
    | CheckpointRecord(record: Record)
    | Enqueued(record: Record, next: nat, dataLoss: Option<Evidence>)
    | OfferedAt(identity: Identity, session: Binding)
    | PublishedAt(identity: Identity, session: Binding)
    | Acknowledged(ack: Ack)
    | Rotated(epoch: nat)
    | Capacity(capacity: nat)

  /** What recovery holds while it reads: nothing before the checkpoint, then a state and whether mutations began. */
  datatype Reading = Nothing | Active(state: State, started: bool)

  datatype Corrupt = Corrupt

  // ---------------------------------------------------------------- writing

  function CheckpointOf(s: State): Entry {
    Checkpoint(s.streamId, s.epoch, s.next, s.capacity, s.lastAck, s.lastAcked, s.dataLoss)
  }

  function RecordEntries(records: seq<Record>): (entries: seq<Entry>)
    ensures |entries| == |records| && forall i :: 0 <= i < |records| ==> entries[i] == CheckpointRecord(records[i])
  {
    seq(|records|, i requires 0 <= i < |records| => CheckpointRecord(records[i]))
  }

  function Compacted(s: State): seq<Entry> { [CheckpointOf(s)] + RecordEntries(s.records) }

  /** The entry appended for an operation that succeeded. */
  function EntryFor(s: State, op: Op): Entry
    requires Valid(s) && Attempt(s, op).Ok?
  {
    var t := Step(s, op);
    match op
    case OpEnqueue(input) => Enqueued(EnqueueRecord(s, input).value.1, t.next, t.dataLoss)
    case OpOffer(identity, session) => OfferedAt(identity, session)
    case OpPublished(identity, session) => PublishedAt(identity, session)
    case OpAcknowledge(ack) => Acknowledged(ack)
    case OpRotate => Rotated(t.epoch)
    case OpReopen(capacity) => Capacity(capacity)
  }

  // ---------------------------------------------------------------- reading

  predicate PersistedRecord(s: State, record: Record) {
    var c := record.content;
    && record.identity.streamId == s.streamId && record.identity.streamEpoch == s.epoch && record.identity.position > 0
    && 0 < |c.batchId| <= 128 && DigestText(c.digest) && 0 < Size(c.payload) <= MAX_PAYLOAD_BYTES
    && (c.expiresAt.Some? ==> c.expiresAt.value > c.createdAt)
  }

  /** Insertion into the ordered map, by position. */
  function Filed(records: seq<Record>, record: Record): seq<Record> {
    if records == [] || records[|records| - 1].identity.position < record.identity.position then records + [record]
    else Filed(records[..|records| - 1], record) + [records[|records| - 1]]
  }

  predicate Present(records: seq<Record>, position: nat) {
    exists i :: 0 <= i < |records| && records[i].identity.position == position
  }

  function Restore(s: State, record: Record): Result<State, Corrupt> {
    if !PersistedRecord(s, record) then Err(Corrupt)
    else if record.identity.position >= s.next || Present(s.records, record.identity.position) then Err(Corrupt)
    else if |s.records| + 1 > s.capacity then Err(Corrupt)
    else Ok(s.(records := Filed(s.records, record)))
  }

  function RedoEnqueue(s: State, record: Record, next: nat, dataLoss: Option<Evidence>): Result<State, Corrupt> {
    if !PersistedRecord(s, record) then Err(Corrupt)
    else if record.state != Queued || record.offeredSession.Some? || record.identity.position != s.next
         || next != (if s.next < U64_MAX then s.next + 1 else 0) then Err(Corrupt)
    else if |s.records| == s.capacity && s.records == [] then Err(Corrupt)
    else
      var kept := if |s.records| == s.capacity then s.records[1..] else s.records;
      Ok(s.(records := kept + [record], next := next, dataLoss := dataLoss))
  }

  /** Where a position is kept: the look-up in the ordered map. */
  function IndexOf(records: seq<Record>, position: nat): (i: Option<nat>)
    ensures i.Some? ==> i.value < |records| && records[i.value].identity.position == position
  {
    if records == [] then None
    else
      var n := |records| - 1;
      if records[n].identity.position == position then Some(n) else IndexOf(records[..n], position)
  }

  /** What removing every position up to one leaves. */
  function Above(records: seq<Record>, position: nat): seq<Record> {
    if records == [] then []
    else
      var n := |records| - 1;
      Above(records[..n], position) + if records[n].identity.position > position then [records[n]] else []
  }

  /** The record that a mark names, under the checks that marks have in common. */
  function MarkIndex(s: State, identity: Identity, session: Binding): (i: Option<nat>)
    ensures i.Some? ==> i.value < |s.records|
  {
    if !ValidBinding(session) || identity.streamId != s.streamId || identity.streamEpoch != s.epoch then None
    else IndexOf(s.records, identity.position)
  }

  function RedoOffer(s: State, identity: Identity, session: Binding): Result<State, Corrupt> {
    var i := MarkIndex(s, identity, session);
    if i.None? then Err(Corrupt)
    else
      var record := s.records[i.value].(state := Offered, offeredSession := Some(session));
      Ok(s.(records := s.records[i.value := record]))
  }

  function RedoPublished(s: State, identity: Identity, session: Binding): Result<State, Corrupt> {
    var i := MarkIndex(s, identity, session);
    if i.None? || s.records[i.value].offeredSession != Some(session) then Err(Corrupt)
    else
      var record := s.records[i.value].(state := TransportPublished, offeredSession := Some(session));
      Ok(s.(records := s.records[i.value := record]))
  }

  function RedoAcknowledged(s: State, ack: Ack): Result<State, Corrupt> {
    var i := IndexOf(s.records, ack.position);
    if !ValidBinding(ack.session) then Err(Corrupt)
    else if s.lastAck == Some(ack) then Ok(s)
    else if ack.streamId != s.streamId || ack.streamEpoch != s.epoch || ack.position <= s.lastAcked then Err(Corrupt)
    else if !BoundedId(ack.receiptId) || i.None? then Err(Corrupt)
    else
      var record := s.records[i.value];
      if record.offeredSession != Some(ack.session) then Err(Corrupt)
      else if record.content.batchId != ack.batchId || record.content.digest != ack.digest then Err(Corrupt)
      else Ok(s.(records := Above(s.records, ack.position), lastAcked := ack.position, lastAck := Some(ack)))
  }

  function RedoRotated(s: State, epoch: nat): Result<State, Corrupt> {
    var r := RotateEpoch(s);
    if r.Ok? && r.value.epoch == epoch then Ok(r.value) else Err(Corrupt)
  }

  function RedoCapacity(s: State, capacity: nat): Result<State, Corrupt> {
    var r := Reopen(s, s.streamId, capacity);
    if r.Ok? then Ok(r.value) else Err(Corrupt)
  }

  predicate IsMutation(entry: Entry) { !entry.Checkpoint? && !entry.CheckpointRecord? }

  /** A mutation entry applied to whatever state recovery has built so far. */
  function Redo(s: State, entry: Entry): Result<State, Corrupt>
    requires IsMutation(entry)
  {
    match entry
    case Enqueued(record, next, dataLoss) => RedoEnqueue(s, record, next, dataLoss)
    case OfferedAt(identity, session) => RedoOffer(s, identity, session)
    case PublishedAt(identity, session) => RedoPublished(s, identity, session)
    case Acknowledged(ack) => RedoAcknowledged(s, ack)
    case Rotated(epoch) => RedoRotated(s, epoch)
    case Capacity(capacity) => RedoCapacity(s, capacity)
  }

  function ReadEntry(reading: Reading, entry: Entry): Result<Reading, Corrupt> {
    if entry.Checkpoint? then
      if reading.Active? || NewState(entry.streamId, entry.capacity).Err? then Err(Corrupt)
      else Ok(Active(State(entry.streamId, entry.epoch, entry.next, entry.capacity, [], entry.lastAck, entry.lastAcked,
                           entry.dataLoss), false))
    else if reading.Nothing? then Err(Corrupt)
    else if entry.CheckpointRecord? then
      if reading.started then Err(Corrupt)
      else
        var s :- Restore(reading.state, entry.record);
        Ok(Active(s, false))
    else
      var s :- Redo(reading.state, entry);
      Ok(Active(s, true))
  }

  function ReadAll(entries: seq<Entry>): Result<Reading, Corrupt> {
    if entries == [] then Ok(Nothing)
    else
      var reading :- ReadAll(entries[..|entries| - 1]);
      ReadEntry(reading, entries[|entries| - 1])
  }

  predicate RecoveredOk(s: State) {
    && s.epoch != 0 && s.next != 0 && s.capacity != 0 && |s.records| <= s.capacity && s.lastAcked < s.next
    && (match s.lastAck
        case Some(a) => a.streamId == s.streamId && a.streamEpoch == s.epoch && a.position == s.lastAcked
        case None => s.lastAcked == 0)
    && (forall i :: 0 <= i < |s.records| ==> s.lastAcked < s.records[i].identity.position < s.next)
    && (s.dataLoss.Some? ==>
          var e := s.dataLoss.value;
          e.streamId == s.streamId && e.streamEpoch == s.epoch && 0 < e.first <= e.last < e.earliestRetained)
  }

  function Recover(journal: seq<Entry>): Result<State, Corrupt> {
    var reading :- ReadAll(journal);
    if reading.Nothing? || !RecoveredOk(reading.state) then Err(Corrupt) else Ok(reading.state)
  }

  // ---------------------------------------------------------------- redo follows the operation

  /** Every retained record was accepted by the enqueue check. */
  predicate Accepted(s: State) {
    forall i :: 0 <= i < |s.records| ==> ValidContent(s.records[i].content)
  }

  lemma StepKeepsAccepted(s: State, op: Op)
    requires Valid(s) && Accepted(s)
    ensures Accepted(Step(s, op))
  {
    hide ValidContent, Placed;
  }

  /** Positions count up from the first. */
  predicate CountsUp(records: seq<Record>, first: nat) {
    forall i :: 0 <= i < |records| ==> records[i].identity.position == first + i
  }

  lemma {:induction false} FoundWhereCounted(records: seq<Record>, first: nat, position: nat)
    requires CountsUp(records, first)
    ensures IndexOf(records, position) == if first <= position < first + |records| then Some(position - first) else None
  {
    if records != [] { FoundWhereCounted(records[..|records| - 1], first, position); }
  }

  lemma SuffixGrows(records: seq<Record>, k: nat)
    requires records != [] && k < |records|
    ensures records[k..] == records[..|records| - 1][k..] + [records[|records| - 1]]
  {}

  lemma AboveStep(records: seq<Record>, position: nat)
    requires records != []
    ensures var n := |records| - 1;
      Above(records, position) ==
        Above(records[..n], position) + if records[n].identity.position > position then [records[n]] else []
  {}

  lemma {:induction false} AboveIsSuffix(records: seq<Record>, first: nat, position: nat)
    requires CountsUp(records, first) && first <= position + 1 <= first + |records|
    ensures Above(records, position) == records[position + 1 - first..]
  {
    if position + 1 == first + |records| {
      AllGone(records, first, position);
    } else {
      hide Above;
      var n := |records| - 1;
      AboveIsSuffix(records[..n], first, position);
      AboveStep(records, position);
      SuffixGrows(records, position + 1 - first);
    }
  }

  lemma {:induction false} AllGone(records: seq<Record>, first: nat, position: nat)
    requires CountsUp(records, first) && first + |records| <= position + 1
    ensures Above(records, position) == []
  {
    if records != [] { AllGone(records[..|records| - 1], first, position); }
  }

  lemma ContiguousCountsUp(s: State)
    requires Contiguous(s)
    ensures CountsUp(s.records, Earliest(s))
  {
    forall i | 0 <= i < |s.records| ensures s.records[i].identity.position == Earliest(s) + i { assert Placed(s, i); }
  }

  lemma FoundInValid(s: State, position: nat)
    requires Valid(s)
    ensures IndexOf(s.records, position) ==
      if Earliest(s) <= position < s.next then Some(position - Earliest(s)) else None
  {
    hide AckConsistent, EvidenceConsistent, LossCovered, BoundedId, Contiguous, IndexOf;
    ContiguousCountsUp(s);
    FoundWhereCounted(s.records, Earliest(s), position);
  }

  /** In a valid state the look-ups find what the operations find. */
  lemma RedoneMarks(s: State, identity: Identity, session: Binding)
    requires Valid(s)
    ensures RedoOffer(s, identity, session).Ok? <==> MarkOffered(s, identity, session).Ok?
    ensures MarkOffered(s, identity, session).Ok? ==>
      RedoOffer(s, identity, session) == Ok(MarkOffered(s, identity, session).value)
    ensures RedoPublished(s, identity, session).Ok? <==> MarkTransportPublished(s, identity, session).Ok?
    ensures MarkTransportPublished(s, identity, session).Ok? ==>
      RedoPublished(s, identity, session) == Ok(MarkTransportPublished(s, identity, session).value)
  {
    hide AckConsistent, EvidenceConsistent, LossCovered, BoundedId, Contiguous, IndexOf, ValidBinding;
    FoundInValid(s, identity.position);
  }

  lemma RedoneReceipt(s: State, ack: Ack)
    requires Valid(s)
    ensures RedoAcknowledged(s, ack).Ok? <==> Acknowledge(s, ack).Ok?
    ensures Acknowledge(s, ack).Ok? ==> RedoAcknowledged(s, ack) == Ok(Acknowledge(s, ack).value.0)
  {
    hide AckConsistent, EvidenceConsistent, LossCovered, BoundedId, Contiguous, IndexOf, ValidBinding, Above;
    FoundInValid(s, ack.position);
    ContiguousCountsUp(s);
    if Earliest(s) <= ack.position < s.next { AboveIsSuffix(s.records, Earliest(s), ack.position); }
  }

  lemma RedoneEnqueue(s: State, op: Op)
    requires Valid(s) && Accepted(s) && op.OpEnqueue? && Attempt(s, op).Ok? && Step(s, op) != s
    ensures Redo(s, EntryFor(s, op)) == Ok(Step(s, op))
  {
    hide Placed, Contiguous, AckConsistent, LossCovered, EvidenceConsistent;
    var record := EnqueueRecord(s, op.input).value.1;
    assert FindBatch(s.records, op.input.batchId).None?;
    assert PersistedRecord(s, record);
    if |s.records| == s.capacity { assert (s.records + [record])[1..] == s.records[1..] + [record]; }
  }

  lemma RedoMatches(s: State, op: Op, started: bool)
    requires Valid(s) && Accepted(s) && Attempt(s, op).Ok? && Step(s, op) != s
    ensures ReadEntry(Active(s, started), EntryFor(s, op)) == Ok(Active(Step(s, op), true))
  {
    hide Valid, RedoEnqueue, EnqueueRecord, RedoOffer, RedoPublished, RedoAcknowledged, MarkOffered,
         MarkTransportPublished, Acknowledge;
    match op
    case OpEnqueue(_) => RedoneEnqueue(s, op);
    case OpOffer(identity, session) => RedoneMarks(s, identity, session);
    case OpPublished(identity, session) => RedoneMarks(s, identity, session);
    case OpAcknowledge(ack) => RedoneReceipt(s, ack);
    case OpRotate =>
    case OpReopen(_) =>
  }

  // ---------------------------------------------------------------- checkpoints

  function Prefix(s: State, n: nat): State
    requires n <= |s.records|
  {
    s.(records := s.records[..n])
  }

  lemma RestoreNext(s: State, n: nat)
    requires Valid(s) && Accepted(s) && n < |s.records|
    ensures Restore(Prefix(s, n), s.records[n]) == Ok(Prefix(s, n + 1))
  {
    assert Placed(s, n);
    assert ValidContent(s.records[n].content);
    var before := s.records[..n];
    forall i | 0 <= i < n ensures before[i].identity.position < s.records[n].identity.position { assert Placed(s, i); }
    assert s.records[..n + 1] == before + [s.records[n]];
  }

  lemma {:induction false} CheckpointReads(s: State, n: nat)
    requires Valid(s) && Accepted(s) && n <= |s.records|
    ensures ReadAll(Compacted(s)[..n + 1]) == Ok(Active(Prefix(s, n), false))
  {
    hide Valid, Accepted, Restore;
    var entries := Compacted(s)[..n + 1];
    assert entries[..n] == Compacted(s)[..n];
    if n == 0 {
      ValidHeader(s);
      assert s.records[..0] == [];
    } else {
      CheckpointReads(s, n - 1);
      RestoreNext(s, n - 1);
    }
  }

  lemma ValidHeader(s: State)
    requires Valid(s)
    ensures NewState(s.streamId, s.capacity).Ok?
  {}

  /** A compacted journal reads back as the state it was written from. */
  lemma CompactedReads(s: State)
    requires Valid(s) && Accepted(s)
    ensures ReadAll(Compacted(s)) == Ok(Active(s, false))
  {
    hide Valid, Accepted;
    CheckpointReads(s, |s.records|);
    assert Compacted(s)[..|s.records| + 1] == Compacted(s);
    assert s.records[..|s.records|] == s.records;
  }

  lemma ValidIsRecoverable(s: State)
    requires Valid(s)
    ensures RecoveredOk(s)
  {
    forall i | 0 <= i < |s.records| ensures s.lastAcked < s.records[i].identity.position < s.next {
      assert Placed(s, i);
    }
  }
}
