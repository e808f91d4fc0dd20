/** Appends that report an error although their entry reached the file: the memory falls behind the file, and entries
    made from the memory are read behind entries it does not know. When can the file still be opened? */
module LandedAppends {
  import opened Wrappers
  import opened CloudLink
  import opened Spool
  import opened Journal
  import opened FileSpool

  predicate OfferedOn(t: State, epoch: nat, position: nat, session: Binding) {
    && |t.records| <= t.next && Retained(t, epoch, position)
    && t.records[position - Earliest(t)].offeredSession == Some(session)
  }

  /** Whether recovery, having read the file up to state `t`, accepts the entry that a memory `m` appends for `op`. An
      enqueue needs the position and the epoch, a rotation the epoch and nothing retained; a mark or a receipt needs its
      record, and its offer, to be there; a capacity must hold what is retained. */
  predicate Outlives(t: State, m: State, op: Op) {
    match op
    case OpEnqueue(_) => t.next == m.next && t.epoch == m.epoch
    case OpOffer(identity, _) => Retained(t, identity.streamEpoch, identity.position)
    case OpPublished(identity, session) => OfferedOn(t, identity.streamEpoch, identity.position, session)
    case OpAcknowledge(ack) => t.lastAck == Some(ack) || OfferedOn(t, ack.streamEpoch, ack.position, ack.session)
    case OpRotate => t.records == [] && t.epoch == m.epoch
    case OpReopen(capacity) => |t.records| <= capacity
  }

  // ---------------------------------------------------------------- what every readable file has

  predicate EvidenceOrdered(t: State) {
    t.dataLoss.Some? ==>
      var e := t.dataLoss.value;
      e.streamId == t.streamId && e.streamEpoch == t.epoch && 0 < e.first <= e.last < e.earliestRetained
  }

  /** The rules of a spool without those that tie the evidence to what is retained. */
  predicate Shaped(t: State) {
    && BoundedId(t.streamId) && 1 <= t.epoch && 1 <= t.capacity && |t.records| <= t.capacity && |t.records| < t.next
    && t.lastAcked < Earliest(t) && Contiguous(t) && AckConsistent(t) && EvidenceOrdered(t)
  }

  /** One stream, and in one epoch the same content at every position that both retain. */
  predicate Alike(t: State, m: State) {
    && t.streamId == m.streamId
    && (t.epoch == m.epoch ==>
          forall p :: Earliest(t) <= p < t.next && Earliest(m) <= p < m.next ==> SameContentAt(t, m, p))
  }

  predicate SameContentAt(t: State, m: State, p: nat) {
    && 0 <= p - Earliest(t) < |t.records| && 0 <= p - Earliest(m) < |m.records|
    && t.records[p - Earliest(t)].content == m.records[p - Earliest(m)].content
  }

  lemma ValidIsShaped(s: State)
    requires Valid(s)
    ensures Shaped(s) && Alike(s, s)
  {}

  lemma ShapedIsRecoverable(t: State)
    requires Shaped(t)
    ensures RecoveredOk(t)
  {
    hide BoundedId, ValidBinding;
    forall i | 0 <= i < |t.records| ensures t.lastAcked < t.records[i].identity.position < t.next {
      assert Placed(t, i);
    }
  }

  lemma Found(t: State, position: nat)
    requires Shaped(t)
    ensures IndexOf(t.records, position) ==
      if Earliest(t) <= position < t.next then Some(position - Earliest(t)) else None
  {
    hide AckConsistent, EvidenceOrdered, BoundedId, Contiguous, IndexOf;
    ContiguousCountsUp(t);
    FoundWhereCounted(t.records, Earliest(t), position);
  }

  // ---------------------------------------------------------------- one entry

  /** Later states of one epoch keep, at what they still retain, the content that was there. */
  predicate Keeping(u: State, s: State) {
    && u.streamId == s.streamId && u.epoch == s.epoch && s.next <= u.next
    && forall p :: Earliest(u) <= p < s.next ==> SameContentAt(u, s, p)
  }

  lemma FileMoves(t: State, u: State, m: State)
    requires Shaped(u) && Alike(t, m) && Keeping(u, t) && (t.next < u.next ==> m.next <= t.next || t.epoch != m.epoch)
    ensures Alike(u, m)
  {
    hide Shaped;
    if u.epoch == m.epoch {
      forall p | Earliest(u) <= p < u.next && Earliest(m) <= p < m.next ensures SameContentAt(u, m, p) {
        assert SameContentAt(u, t, p);
        assert SameContentAt(t, m, p);
      }
    }
  }

  lemma MemoryMoves(u: State, m: State, n: State)
    requires Alike(u, m) && Keeping(n, m) && (u.epoch == m.epoch && u.next > m.next ==> n.next == m.next)
    ensures Alike(u, n)
  {
    if u.epoch == n.epoch {
      forall p | Earliest(u) <= p < u.next && Earliest(n) <= p < n.next ensures SameContentAt(u, n, p) {
        assert SameContentAt(n, m, p);
        assert SameContentAt(u, m, p);
      }
    }
  }

  // -------- enqueues

  lemma EnqueueAccepted(t: State, m: State, op: Op)
    requires Shaped(t) && t.streamId == m.streamId && Stands(m) && op.OpEnqueue? && Changes(m, op)
    ensures Redo(t, EntryFor(m, op)).Ok? <==> Outlives(t, m, op)
  {
    hide FindBatch, LossCovered, Contiguous, EvidenceConsistent, AckConsistent, EvidenceOrdered, Placed;
    assert PersistedRecord(m, EnqueueRecord(m, op.input).value.1);
  }

  /** What an enqueue makes of a state: at most the earliest record gone, and one more at the end. */
  predicate Grown(u: State, s: State, record: Record) {
    && |s.records| < s.next && u.streamId == s.streamId && u.epoch == s.epoch && u.next == s.next + 1
    && u.lastAck == s.lastAck && u.lastAcked == s.lastAcked && u.capacity == s.capacity
    && (u.records == s.records + [record] || (s.records != [] && u.records == s.records[1..] + [record]))
  }

  lemma GrownKeeping(u: State, s: State, record: Record)
    requires Grown(u, s, record)
    ensures Keeping(u, s) && Earliest(u) <= s.next && u.records[s.next - Earliest(u)] == record
  {
    var shift := |s.records| + 1 - |u.records|;
    forall p | Earliest(u) <= p < s.next ensures SameContentAt(u, s, p) {
      assert u.records[p - Earliest(u)] == s.records[p - Earliest(u) + shift];
    }
  }

  lemma GrownShaped(u: State, s: State, record: Record)
    requires Grown(u, s, record) && Shaped(s) && |u.records| <= u.capacity && EvidenceOrdered(u)
    requires record.identity == Identity(s.streamId, s.epoch, s.next)
    ensures Shaped(u)
  {
    hide EvidenceOrdered, BoundedId;
    var shift := |s.records| + 1 - |u.records|;
    forall i | 0 <= i < |u.records| ensures Placed(u, i) {
      if i + shift < |s.records| { assert Placed(s, i + shift) && u.records[i] == s.records[i + shift]; }
    }
  }

  lemma EnqueueInMemory(m: State, op: Op)
    requires Valid(m) && op.OpEnqueue? && Changes(m, op)
    ensures var e := EntryFor(m, op);
      && e.Enqueued? && e.record.identity == Identity(m.streamId, m.epoch, m.next) && e.dataLoss == Step(m, op).dataLoss
      && Grown(Step(m, op), m, e.record) && Valid(Step(m, op))
  {
    hide ValidContent, AckConsistent, EvidenceConsistent, LossCovered, Contiguous, Placed, BoundedId;
    StepKeepsValid(m, op);
    assert FindBatch(m.records, op.input.batchId).None?;
    var record := EnqueueRecord(m, op.input).value.1;
    assert m.records != [] ==> (m.records + [record])[1..] == m.records[1..] + [record];
  }

  lemma EnqueueInFile(t: State, record: Record, next: nat, dataLoss: Option<Evidence>)
    requires Shaped(t) && RedoEnqueue(t, record, next, dataLoss).Ok? && next == t.next + 1
    ensures var u := RedoEnqueue(t, record, next, dataLoss).value;
      Grown(u, t, record) && |u.records| <= u.capacity && u.dataLoss == dataLoss
  {
    hide PersistedRecord, Contiguous, AckConsistent, EvidenceOrdered, BoundedId;
  }

  /** The file state and the memory after one entry, whether the memory learns of it or not. */
  predicate Together(u: State, m: State, n: State) { Shaped(u) && Alike(u, m) && Alike(u, n) }

  lemma EnqueueGoesOn(t: State, m: State, op: Op)
    requires Shaped(t) && Alike(t, m) && Stands(m) && op.OpEnqueue? && Changes(m, op) && Outlives(t, m, op)
    ensures Redo(t, EntryFor(m, op)).Ok? && Together(Redo(t, EntryFor(m, op)).value, m, Step(m, op))
  {
    hide Valid, Accepted, EntryFor, Step, Attempt, RedoEnqueue, EnqueueRecord, Shaped;
    EnqueueAccepted(t, m, op);
    EnqueueInMemory(m, op);
    var e, n := EntryFor(m, op), Step(m, op);
    ValidIsShaped(n);
    NextAgrees(t, m, op);
    EnqueueInFile(t, e.record, e.next, e.dataLoss);
    var u := Redo(t, e).value;
    EvidenceCarries(u, n);
    GrownShaped(u, t, e.record);
    GrownKeeping(u, t, e.record);
    GrownKeeping(n, m, e.record);
    FileMoves(t, u, m);
    forall p | Earliest(u) <= p < u.next && Earliest(n) <= p < n.next ensures SameContentAt(u, n, p) {
      LastOrBefore(t, u, m, n, e.record, p);
    }
  }

  lemma EvidenceCarries(u: State, n: State)
    requires Shaped(n) && u.streamId == n.streamId && u.epoch == n.epoch && u.dataLoss == n.dataLoss
    ensures EvidenceOrdered(u)
  {}

  lemma NextAgrees(t: State, m: State, op: Op)
    requires Shaped(t) && Stands(m) && op.OpEnqueue? && Changes(m, op) && Outlives(t, m, op)
    ensures EntryFor(m, op).Enqueued? && EntryFor(m, op).next == t.next + 1
  {
    hide Shaped, Accepted, ValidContent, AckConsistent, EvidenceConsistent, LossCovered, Contiguous, Placed, BoundedId;
    assert FindBatch(m.records, op.input.batchId).None?;
  }

  lemma LastOrBefore(t: State, u: State, m: State, n: State, record: Record, p: nat)
    requires Grown(u, t, record) && Grown(n, m, record) && Alike(u, m) && t.next == m.next && u.epoch == m.epoch
    requires Earliest(u) <= p < u.next && Earliest(n) <= p < n.next
    ensures SameContentAt(u, n, p)
  {
    GrownKeeping(u, t, record);
    GrownKeeping(n, m, record);
    if p < m.next {
      assert SameContentAt(n, m, p);
      assert SameContentAt(u, m, p);
    }
  }

  // -------- marks, receipts and capacities

  /** Some of the earliest records gone, and the rest with identity and content unchanged. */
  predicate Trimmed(u: State, s: State) {
    && |u.records| <= |s.records| < s.next && u.streamId == s.streamId && u.epoch == s.epoch && u.next == s.next
    && forall i :: 0 <= i < |u.records| ==> SameRecord(u.records[i], s.records[i + (|s.records| - |u.records|)])
  }

  predicate SameRecord(a: Record, b: Record) { a.identity == b.identity && a.content == b.content }

  lemma TrimmedKeeping(u: State, s: State)
    requires Trimmed(u, s)
    ensures Keeping(u, s) && (Contiguous(s) ==> Contiguous(u))
  {
    var gone := |s.records| - |u.records|;
    forall p | Earliest(u) <= p < s.next ensures SameContentAt(u, s, p) {
      assert SameRecord(u.records[p - Earliest(u)], s.records[p - Earliest(u) + gone]);
    }
    if Contiguous(s) {
      forall i | 0 <= i < |u.records| ensures Placed(u, i) {
        assert SameRecord(u.records[i], s.records[i + gone]);
        assert Placed(s, i + gone);
      }
    }
  }

  predicate Trims(op: Op) { op.OpOffer? || op.OpPublished? || op.OpAcknowledge? || op.OpReopen? }

  lemma MarksTrim(m: State, identity: Identity, session: Binding)
    requires Valid(m)
    ensures MarkOffered(m, identity, session).Ok? ==> Trimmed(MarkOffered(m, identity, session).value, m)
    ensures MarkTransportPublished(m, identity, session).Ok? ==>
      Trimmed(MarkTransportPublished(m, identity, session).value, m)
  {
    hide AckConsistent, EvidenceConsistent, LossCovered, Contiguous, BoundedId, ValidBinding;
  }

  lemma SuffixTrims(u: State, s: State, k: nat)
    requires k <= |s.records| < s.next && u.records == s.records[k..]
    requires u.streamId == s.streamId && u.epoch == s.epoch && u.next == s.next
    ensures Trimmed(u, s)
  {}

  lemma ReceiptsTrim(m: State, ack: Ack)
    requires Valid(m) && Acknowledge(m, ack).Ok?
    ensures Trimmed(Acknowledge(m, ack).value.0, m)
  {
    hide AckConsistent, EvidenceConsistent, LossCovered, Contiguous, BoundedId, ValidBinding, Trimmed;
    var t := Acknowledge(m, ack).value.0;
    SuffixTrims(t, m, |m.records| - |t.records|);
  }

  lemma MemoryTrims(m: State, op: Op)
    requires Valid(m) && Trims(op)
    ensures Trimmed(Step(m, op), m)
  {
    hide Valid, MarkOffered, MarkTransportPublished, Acknowledge, Trimmed;
    SameRecordsTrim(m, m);
    match op
    case OpOffer(identity, session) => MarksTrim(m, identity, session);
    case OpPublished(identity, session) => MarksTrim(m, identity, session);
    case OpAcknowledge(ack) => if Acknowledge(m, ack).Ok? { ReceiptsTrim(m, ack); }
    case OpReopen(_) => SameRecordsTrim(Step(m, op), m);
  }

  lemma SameRecordsTrim(u: State, m: State)
    requires Valid(m) && u == m.(capacity := u.capacity)
    ensures Trimmed(u, m)
  {
    hide AckConsistent, EvidenceConsistent, LossCovered, Contiguous, BoundedId, Trimmed;
    SuffixTrims(u, m, 0);
  }

  lemma MarkGoesOn(t: State, m: State, op: Op)
    requires Shaped(t) && t.streamId == m.streamId && Stands(m) && Changes(m, op) && (op.OpOffer? || op.OpPublished?)
    ensures var r := Redo(t, EntryFor(m, op));
      (r.Ok? <==> Outlives(t, m, op)) && (r.Ok? ==> Shaped(r.value) && Trimmed(r.value, t))
  {
    hide AckConsistent, EvidenceConsistent, EvidenceOrdered, LossCovered, Contiguous, BoundedId, IndexOf;
    Found(t, op.identity.position);
    var r := Redo(t, EntryFor(m, op));
    if r.Ok? { RestShaped(t, r.value); }
  }

  /** Only the records changed. */
  lemma RestShaped(t: State, u: State)
    requires Shaped(t) && Trimmed(u, t) && u == t.(records := u.records, capacity := u.capacity)
    requires 1 <= u.capacity && |u.records| <= u.capacity
    ensures Shaped(u)
  {
    hide BoundedId, ValidBinding;
    TrimmedKeeping(u, t);
  }

  lemma CapacityGoesOn(t: State, m: State, op: Op)
    requires Shaped(t) && t.streamId == m.streamId && Stands(m) && Changes(m, op) && op.OpReopen?
    ensures var r := Redo(t, EntryFor(m, op));
      (r.Ok? <==> Outlives(t, m, op)) && (r.Ok? ==> Shaped(r.value) && Trimmed(r.value, t))
  {
    hide AckConsistent, EvidenceConsistent, EvidenceOrdered, LossCovered, Contiguous, BoundedId;
    var r := Redo(t, EntryFor(m, op));
    if r.Ok? { RestShaped(t, r.value); }
  }

  /** An applied receipt names the content that the memory retains at its position. */
  lemma ReceiptInMemory(m: State, ack: Ack)
    requires Valid(m) && Changes(m, OpAcknowledge(ack))
    ensures m.lastAck != Some(ack) && ValidBinding(ack.session) && BoundedId(ack.receiptId)
    ensures ack.streamId == m.streamId && Retained(m, ack.streamEpoch, ack.position)
    ensures var c := ContentAt(m, ack.position); c.batchId == ack.batchId && c.digest == ack.digest
  {
    hide AckConsistent, EvidenceConsistent, LossCovered, Contiguous, BoundedId, ValidBinding;
  }

  lemma ReceiptAccepted(t: State, m: State, ack: Ack)
    requires Shaped(t) && Alike(t, m) && Stands(m) && Changes(m, OpAcknowledge(ack))
    ensures RedoAcknowledged(t, ack).Ok? <==> Outlives(t, m, OpAcknowledge(ack))
  {
    hide Accepted, AckConsistent, EvidenceOrdered, Contiguous, BoundedId, IndexOf, Above, ValidBinding,
         EvidenceConsistent, LossCovered, Attempt, Step;
    Found(t, ack.position);
    ReceiptInMemory(m, ack);
    if OfferedOn(t, ack.streamEpoch, ack.position, ack.session) { assert SameContentAt(t, m, ack.position); }
  }

  lemma ReceiptTrims(t: State, ack: Ack)
    requires Shaped(t) && RedoAcknowledged(t, ack).Ok?
    ensures var u := RedoAcknowledged(t, ack).value; Shaped(u) && Trimmed(u, t)
  {
    hide BoundedId, IndexOf, Above, EvidenceOrdered, ValidBinding;
    Found(t, ack.position);
    var u := RedoAcknowledged(t, ack).value;
    if u != t {
      ContiguousCountsUp(t);
      AboveIsSuffix(t.records, Earliest(t), ack.position);
      EvidenceStays(t, u);
      TrimmedKeeping(u, t);
    }
  }

  lemma EvidenceStays(t: State, u: State)
    requires Shaped(t) && u.streamId == t.streamId && u.epoch == t.epoch && u.dataLoss == t.dataLoss
    ensures EvidenceOrdered(u)
  {}

  lemma TrimGoesOn(t: State, m: State, op: Op)
    requires Shaped(t) && Alike(t, m) && Stands(m) && Changes(m, op) && Trims(op)
    ensures var r := Redo(t, EntryFor(m, op));
      (r.Ok? <==> Outlives(t, m, op)) && (r.Ok? ==> Together(r.value, m, Step(m, op)))
  {
    hide Valid, Accepted, Step, Attempt, Shaped, RedoOffer, RedoPublished, RedoAcknowledged, RedoCapacity, Outlives,
         Alike, Trimmed, Keeping;
    if op.OpAcknowledge? {
      ReceiptAccepted(t, m, op.ack);
      if RedoAcknowledged(t, op.ack).Ok? { ReceiptTrims(t, op.ack); }
    } else if op.OpReopen? {
      SameStream(t, m);
      CapacityGoesOn(t, m, op);
    } else {
      SameStream(t, m);
      MarkGoesOn(t, m, op);
    }
    var r := Redo(t, EntryFor(m, op));
    if r.Ok? { TrimmedTogether(t, r.value, m, Step(m, op), op); }
  }

  lemma SameStream(t: State, m: State)
    requires Alike(t, m)
    ensures t.streamId == m.streamId
  {}

  lemma TrimmedTogether(t: State, u: State, m: State, n: State, op: Op)
    requires Shaped(u) && Trimmed(u, t) && Alike(t, m) && Valid(m) && Trims(op) && n == Step(m, op)
    ensures Together(u, m, n)
  {
    hide Valid, Shaped, Step, Attempt, Alike;
    MemoryTrims(m, op);
    TrimmedKeeping(u, t);
    TrimmedKeeping(n, m);
    FileMoves(t, u, m);
    MemoryMoves(u, m, n);
  }

  // -------- rotations

  lemma RotationGoesOn(t: State, m: State, op: Op)
    requires Shaped(t) && Alike(t, m) && Stands(m) && Changes(m, op) && op.OpRotate?
    ensures var r := Redo(t, EntryFor(m, op));
      (r.Ok? <==> Outlives(t, m, op)) && (r.Ok? ==> Together(r.value, m, Step(m, op)))
  {
    hide BoundedId, LossCovered, EvidenceConsistent;
  }

  /** The entry that a memory appends is accepted exactly if it outlives what the file holds, and file and memory stay
      alike, whether or not the memory learns of it. */
  lemma OneEntry(t: State, m: State, op: Op)
    requires Shaped(t) && Alike(t, m) && Stands(m) && Changes(m, op)
    ensures var r := Redo(t, EntryFor(m, op));
      (r.Ok? <==> Outlives(t, m, op)) && (r.Ok? ==> Together(r.value, m, Step(m, op)))
  {
    hide Valid, Accepted, Step, Attempt, Shaped, Redo, EntryFor, Outlives, Alike, Together;
    if op.OpEnqueue? {
      SameStream(t, m);
      EnqueueAccepted(t, m, op);
      if Outlives(t, m, op) { EnqueueGoesOn(t, m, op); }
    } else if op.OpRotate? {
      RotationGoesOn(t, m, op);
    } else {
      TrimGoesOn(t, m, op);
    }
  }

  // ---------------------------------------------------------------- whole runs

  /** What a caller can keep track of: the state that recovery would find in the file, if it would open; the memory; and
      the counter. */
  datatype Trace = Trace(file: Option<State>, memory: State, count: nat)

  /** Everything but an append that stops part-way and a call of `compact` that fails late. */
  predicate WholeEntries(e: Event) {
    match e
    case Mutate(_, _, append) => !append.WrittenInPart?
    case CompactCall(compaction) => !compaction.Replaced?
    case Restart(_) => false
  }

  predicate Traceable(x: Trace) {
    Stands(x.memory) && (x.file.Some? ==> Shaped(x.file.value) && Alike(x.file.value, x.memory))
  }

  function TraceCompact(x: Trace, outcome: Compaction): (y: Trace)
    requires Traceable(x)
    ensures Traceable(y)
  {
    ValidIsShaped(x.memory);
    match outcome
    case Untouched => x
    case Replaced => x.(file := Some(x.memory))
    case _ => Trace(Some(x.memory), x.memory, 0)
  }

  /** The entry goes to the file, where it must outlive what is there; the memory follows if the append succeeded. */
  function TraceAppend(x: Trace, op: Op, written: bool): (y: Trace)
    requires Traceable(x) && Changes(x.memory, op)
    ensures Traceable(y)
  {
    StepKeepsValid(x.memory, op);
    StepKeepsAccepted(x.memory, op);
    var file := if x.file.Some? then FileAppend(x.file.value, x.memory, op) else None;
    if written then Trace(file, Step(x.memory, op), x.count + 1) else x.(file := file)
  }

  function FileAppend(t: State, m: State, op: Op): (u: Option<State>)
    requires Shaped(t) && Alike(t, m) && Stands(m) && Changes(m, op)
    ensures u.Some? ==> Together(u.value, m, Step(m, op))
  {
    OneEntry(t, m, op);
    if Outlives(t, m, op) then Some(Redo(t, EntryFor(m, op)).value) else None
  }

  function TraceStep(x: Trace, e: Event): (y: Trace)
    requires Traceable(x)
    ensures Traceable(y)
  {
    match e
    case Mutate(op, compaction, append) =>
      var due := x.count >= COMPACT_AFTER_MUTATIONS;
      var c := if due then TraceCompact(x, compaction) else x;
      if (due && !compaction.Completed?) || !Changes(c.memory, op) || append.Refused? then c
      else TraceAppend(c, op, append.Written?)
    case CompactCall(compaction) => TraceCompact(x, compaction)
    case Restart(_) => x
  }

  function TraceOf(x: Trace, events: seq<Event>): (y: Trace)
    requires Traceable(x)
    ensures Traceable(y)
  {
    if events == [] then x else TraceStep(TraceOf(x, events[..|events| - 1]), events[|events| - 1])
  }

  /** The disk is as traced. */
  predicate Follows(d: Disk, x: Trace) {
    && d.state == x.memory && d.count == x.count && Traceable(x)
    && (d.tail.Unattached? ==> Forced(d) && x.file.Some?)
    && (if x.file.Some? then Reads(d.journal, x.file.value) else ReadAll(d.journal).Err?)
  }

  lemma CompactFollows(d: Disk, x: Trace, outcome: Compaction)
    requires Follows(d, x) && (outcome.Replaced? ==> Forced(d))
    ensures Follows(Compact(d, outcome), TraceCompact(x, outcome))
  {
    hide Valid, Accepted, ReadAll, Compacted, Recover, Logged, Shaped, Alike;
    CompactedStands(d.state);
  }

  lemma AppendFollows(d: Disk, x: Trace, op: Op, outcome: Append)
    requires Follows(d, x) && !d.tail.Unattached? && Changes(d.state, op) && (outcome.Written? || outcome.LandedAnyway?)
    ensures Follows(AppendEntry(d, op, outcome), TraceAppend(x, op, outcome.Written?))
  {
    hide Valid, Accepted, Step, Attempt, Shaped, Alike, Redo, EntryFor, Outlives;
    var more := d.journal + [EntryFor(d.state, op)];
    assert more[..|more| - 1] == d.journal;
    EntryIsMutation(d.state, op);
    if x.file.Some? { OneEntry(x.file.value, x.memory, op); }
  }

  lemma EntryIsMutation(m: State, op: Op)
    requires Valid(m) && Attempt(m, op).Ok?
    ensures IsMutation(EntryFor(m, op))
  {
    hide Valid;
  }

  lemma EventFollows(d: Disk, x: Trace, e: Event)
    requires Follows(d, x) && WholeEntries(e)
    ensures Next(d, e).Some? && Follows(Next(d, e).value, TraceStep(x, e))
  {
    hide Valid, Accepted, ReadAll, Compacted, Step, Attempt, Shaped, Alike, TraceCompact, TraceAppend;
    if e.CompactCall? {
      CompactFollows(d, x, e.compaction);
    } else {
      if Forced(d) { CompactFollows(d, x, e.compaction); }
      var (c, y) := if Forced(d) then (Compact(d, e.compaction), TraceCompact(x, e.compaction)) else (d, x);
      if !RefusedByCompaction(d, e.compaction) && Changes(c.state, e.op) && !e.append.Refused? {
        AppendFollows(c, y, e.op, e.append);
      }
    }
  }

  lemma {:induction false} RunFollows(d: Disk, x: Trace, events: seq<Event>)
    requires Follows(d, x) && forall i :: 0 <= i < |events| ==> WholeEntries(events[i])
    ensures RunDisk(d, events).Some? && Follows(RunDisk(d, events).value, TraceOf(x, events))
  {
    hide Follows, Next, TraceStep, WholeEntries, Valid, Accepted;
    FollowsValid(d, x);
    if events != [] {
      var n := |events| - 1;
      RunFollows(d, x, events[..n]);
      var c := RunDisk(d, events[..n]).value;
      FollowsValid(c, TraceOf(x, events[..n]));
      EventFollows(c, TraceOf(x, events[..n]), events[n]);
    }
  }

  lemma FollowsValid(d: Disk, x: Trace)
    requires Follows(d, x)
    ensures Valid(d.state) && Traceable(x)
  {}

  /** Over every run from a file in step, with appends that complete, are refused, or report an error after their entry
      landed, and with any compactions: the file opens exactly if every entry appended since the file was last replaced
      outlives what was in the file before it, and what it opens to is what those entries make of it. */
  lemma RecoverableIff(d: Disk, p: Promise, events: seq<Event>)
    requires Honours(d, p) && d.tail.InStep? && forall i :: 0 <= i < |events| ==> WholeEntries(events[i])
    ensures RunDisk(d, events).Some?
    ensures var n, x := RunDisk(d, events).value, TraceOf(Trace(Some(d.state), d.state, d.count), events);
      && n.state == x.memory && n.count == x.count
      && (Recover(n.journal).Ok? <==> x.file.Some?)
      && (x.file.Some? ==> Recover(n.journal) == Ok(x.file.value))
  {
    hide Valid, Accepted, ReadAll, Shaped, Alike, RunDisk, TraceOf, RecoveredOk, Logged;
    var x := Trace(Some(d.state), d.state, d.count);
    ValidIsShaped(d.state);
    RunFollows(d, x, events);
    var y := TraceOf(x, events);
    if y.file.Some? { ShapedIsRecoverable(y.file.value); }
  }

  lemma TraceLanded(s: State, op: Op, count: nat)
    requires Stands(s) && Changes(s, op)
    ensures Traceable(Trace(Some(s), s, count))
    ensures TraceAppend(Trace(Some(s), s, count), op, false) == Trace(Some(Step(s, op)), s, count)
    ensures TraceAppend(Trace(Some(s), s, count), op, true) == Trace(Some(Step(s, op)), Step(s, op), count + 1)
  {
    hide Valid, Accepted, Step, Attempt, Shaped, Alike, Redo, EntryFor, Outlives;
    ValidIsShaped(s);
    OneEntry(s, s, op);
    RedoMatches(s, op, true);
    EntryIsMutation(s, op);
  }

  function Landed(input: Enqueue): Event { Mutate(OpEnqueue(input), Completed, LandedAnyway) }

  function Complete(input: Enqueue): Event { Mutate(OpEnqueue(input), Completed, Written) }

  lemma TwoEnqueues(s: State, a: Enqueue, b: Enqueue)
    requires Stands(s) && s.records == [] && s.next < U64_MAX && ValidContent(a) && ValidContent(b)
    ensures var x := Trace(Some(s), s, 0);
            var lost := TraceOf(x, [Landed(a), Complete(b)]);
            var saved := TraceOf(x, [Landed(a), CompactCall(Completed), Complete(b)]);
      && lost.file.None? && lost.memory.next == s.next + 1
      && saved.file == Some(saved.memory) && saved.memory.next == s.next + 1
  {
    hide ValidContent, Attempt, Step, Valid, Accepted, Redo, EntryFor, Shaped, Alike;
    var x := Trace(Some(s), s, 0);
    FirstEnqueue(s, a);
    FirstEnqueue(s, b);
    TraceLanded(s, OpEnqueue(a), 0);
    TraceLanded(s, OpEnqueue(b), 0);
    var lost, saved := [Landed(a), Complete(b)], [Landed(a), CompactCall(Completed), Complete(b)];
    assert lost[..1] == saved[..1] == [Landed(a)] && saved[..2] == [Landed(a), CompactCall(Completed)];
    assert lost[..1][..0] == [] && saved[..2][..1] == [Landed(a)];
    assert TraceOf(x, [Landed(a)]) == Trace(Some(Step(s, OpEnqueue(a))), s, 0);
    assert TraceOf(x, saved[..2]) == x;
  }

  /** A new spool, an enqueue whose append fails after landing, and any other enqueue: the file cannot be opened again,
      although the second enqueue was reported as done. A completed compaction in between saves it. */
  lemma LandedErrorCanCorrupt(streamId: string, capacity: nat, a: Enqueue, b: Enqueue)
    requires NewState(streamId, capacity).Ok? && ValidContent(a) && ValidContent(b)
    ensures var s := NewState(streamId, capacity).value;
            var d := Disk(Compacted(s), s, InStep, 0);
            var lost := RunDisk(d, [Landed(a), Complete(b)]);
            var saved := RunDisk(d, [Landed(a), CompactCall(Completed), Complete(b)]);
      && lost.Some? && lost.value.state.next == 2 && Recover(lost.value.journal).Err?
      && saved.Some? && saved.value.state.next == 2 && Recover(saved.value.journal) == Ok(saved.value.state)
  {
    hide ValidContent, Recover, Compacted, RunDisk, TraceOf, Honours;
    FreshJournal(streamId, capacity);
    var s := NewState(streamId, capacity).value;
    var d := Disk(Compacted(s), s, InStep, 0);
    TwoEnqueues(s, a, b);
    RecoverableIff(d, Whole(s), [Landed(a), Complete(b)]);
    RecoverableIff(d, Whole(s), [Landed(a), CompactCall(Completed), Complete(b)]);
  }
}
