/** The spool as the mutable object the program keeps: an ordered map from positions to records and the cursor fields,
    changed in place. Every method is tied to the operation on `State` with the same name. */
module SpoolObject {
  import opened Wrappers
  import opened CloudLink
  import opened Spool

  function RecordsInOrder(records: map<nat, Record>, from: nat, to: nat): (r: seq<Record>)
    requires from <= to && records.Keys == Positions(from, to)
    ensures |r| == to - from
  {
    seq(to - from, i requires 0 <= i < to - from => assert AtLeast(from + i, from); records[from + i])
  }

  lemma {:induction false} PositionsSize(from: nat, to: nat)
    requires from <= to
    ensures |Positions(from, to)| == to - from
  {
    if from < to {
      PositionsSize(from, to - 1);
      assert Positions(from, to) == Positions(from, to - 1) + {to - 1} by { assert AtLeast(to - 1, from); }
    } else {
      assert Positions(from, to) == {};
    }
  }

  lemma MapSize(records: map<nat, Record>, from: nat, to: nat)
    requires from <= to && records.Keys == Positions(from, to)
    ensures |records| == to - from
  {
    PositionsSize(from, to);
    assert |records.Keys| == |records|;
  }

  /** The smallest key: what an ordered map lists first. */
  method FirstKey(records: map<nat, Record>) returns (first: nat)
    requires |records| > 0
    ensures first in records && forall k :: k in records ==> first <= k
  {
    var pending := records.Keys;
    first :| first in pending;
    pending := pending - {first};
    while pending != {}
      invariant pending <= records.Keys && first in records
      invariant forall k :: k in records && k !in pending ==> first <= k
      decreases |pending|
    {
      var k :| k in pending;
      pending := pending - {k};
      if k < first { first := k; }
    }
  }

  /** The records from a position on, in order, as many as asked for. */
  method Page(records: map<nat, Record>, ghost first: nat, next: nat, position: nat, limit: nat)
      returns (page: seq<Record>)
    requires first <= position <= next && records.Keys == Positions(first, next)
    ensures var rest := RecordsInOrder(records, first, next)[position - first..];
      page == if |rest| <= limit then rest else rest[..limit]
  {
    page := [];
    var key := position;
    ghost var rest := RecordsInOrder(records, first, next)[position - first..];
    while key < next && |page| < limit
      invariant position <= key <= next && |page| == key - position <= limit && page == rest[..|page|]
    {
      assert AtLeast(key, first);
      assert records[key] == rest[|page|];
      page := page + [records[key]];
      key := key + 1;
    }
    assert rest[..|rest|] == rest;
  }

  class SpoolObject {
    const streamId: string
    var epoch: nat
    var next: nat
    var capacity: nat
    var records: map<nat, Record>
    var lastAck: Option<Ack>
    var lastAcked: nat
    var dataLoss: Option<Evidence>
    /** Where the retained positions start. */
    ghost var first: nat

    ghost predicate Ordered()
      reads this
    {
      first <= next && records.Keys == Positions(first, next)
    }

    ghost function View(): State
      requires Ordered()
      reads this
    {
      State(streamId, epoch, next, capacity, RecordsInOrder(records, first, next), lastAck, lastAcked, dataLoss)
    }

    ghost predicate Sound()
      reads this
    {
      Ordered() && Valid(View())
    }

    constructor (streamId: string, capacity: nat)
      requires NewState(streamId, capacity).Ok?
      ensures Sound() && View() == NewState(streamId, capacity).value
    {
      this.streamId := streamId;
      this.capacity := capacity;
      epoch, next, records, lastAck, lastAcked, dataLoss, first := 1, 1, map[], None, 0, None, 1;
    }

    /** The first record, in position order, that carries the batch id. */
    method FindExisting(batchId: string) returns (found: Option<Record>)
      requires Sound()
      ensures found == FindBatch(View().records, batchId)
    {
      ghost var all := View().records;
      found := None;
      var key := 0;
      while key < next && found.None?
        invariant key <= next
        invariant FindBatch(all, batchId) == if found.Some? then found else FindBatch(Tail(all, key, first), batchId)
      {
        if key in records {
          assert AtLeast(key, first);
          assert Tail(all, key, first)[1..] == Tail(all, key + 1, first);
          if records[key].content.batchId == batchId { found := Some(records[key]); }
        } else {
          assert !AtLeast(key, first);
        }
        key := key + 1;
      }
    }

    /** At capacity, drops the oldest record. */
    method EvictIfFull() returns (evicted: Option<nat>)
      requires Ordered() && capacity >= 1
      modifies `records, `first
      ensures Ordered()
      ensures evicted == if old(next - first) == capacity then Some(old(first)) else None
      ensures first == old(first) + (if evicted.Some? then 1 else 0)
      ensures RecordsInOrder(records, first, next)
           == RecordsInOrder(old(records), old(first), next)[(if evicted.Some? then 1 else 0)..]
    {
      MapSize(records, first, next);
      evicted := None;
      if |records| == capacity {
        var position := FirstKey(records);
        FirstOfPositions(first, next, position);
        DropFirst(records, first, next);
        records := records - {position};
        evicted := Some(position);
        first := first + 1;
      }
    }

    /** Extends the current evidence by one position, or starts new evidence. */
    method RecordLoss(lost: nat, recordedAt: nat)
      requires Ordered() && first < next
      modifies `dataLoss
      ensures dataLoss == Some(Lose(old(View()), lost, first, recordedAt))
    {
      MapSize(records, first, next);
      var earliestRetained := FirstKey(records);
      FirstOfPositions(first, next, earliestRetained);
      if dataLoss.Some? && dataLoss.value.streamEpoch == epoch && dataLoss.value.last + 1 == lost {
        dataLoss := Some(dataLoss.value.(last := lost, earliestRetained := earliestRetained));
      } else {
        dataLoss := Some(Evidence(streamId, epoch, lost, lost, earliestRetained, recordedAt));
      }
    }

    method Enqueue(input: Enqueue) returns (r: Result<Record, SpoolError>)
      requires Sound()
      modifies this
      ensures Ordered()
      ensures var spec := EnqueueRecord(old(View()), input);
        if spec.Ok? then r == Ok(spec.value.1) && Sound() && View() == spec.value.0
        else r == Err(spec.error) && View() == AfterFailedEnqueue(old(View()), input)
    {
      hide ValidContent, Valid, Placed, FindBatch;
      ValidBasics(View());
      if !ValidContent(input) { return Err(InvalidData); }
      var existing := FindExisting(input.batchId);
      if existing.Some? {
        if SameContent(existing.value.content, input) { return Ok(existing.value); }
        return Err(ConflictingIdentity);
      }
      EnqueueKeepsValidIfOk(View(), input);
      var evicted := EvictIfFull();
      var position := next;
      if next == U64_MAX { return Err(Storage); }
      var record := FromEnqueue(Identity(streamId, epoch, position), input);
      AddLast(records, first, next, record);
      next := next + 1;
      records := records[position := record];
      if evicted.Some? { RecordLoss(evicted.value, input.createdAt); }
      ghost var was := old(View()).records;
      assert was[0..] == was && (evicted.Some? ==> was[1..] + [record] == (was + [record])[1..]);
      return Ok(record);
    }

    /** Removes every record up to a retained position, oldest first. */
    method RemoveThrough(position: nat) returns (removed: nat)
      requires Ordered() && first <= position < next
      modifies `records, `first
      ensures Ordered() && removed == position + 1 - old(first) && first == position + 1
      ensures RecordsInOrder(records, first, next) == RecordsInOrder(old(records), old(first), next)[removed..]
    {
      hide RecordsInOrder, Positions;
      MapSize(records, first, next);
      var key := FirstKey(records);
      FirstOfPositions(first, next, key);
      removed := 0;
      assert RecordsInOrder(records, first, next)[0..] == RecordsInOrder(records, first, next);
      while key <= position
        invariant Ordered() && first == key <= position + 1
        invariant removed == key - old(first)
        invariant RecordsInOrder(records, first, next) == RecordsInOrder(old(records), old(first), next)[removed..]
      {
        DropFirst(records, first, next);
        ghost var all, rest := RecordsInOrder(old(records), old(first), next), RecordsInOrder(records, first, next);
        assert all[removed..][1..] == all[removed + 1..];
        records := records - {key};
        key := key + 1;
        removed := removed + 1;
        first := key;
      }
    }

    method Acknowledge(ack: Ack) returns (r: Result<AckOutcome, SpoolError>)
      requires Sound()
      modifies this
      ensures Sound()
      ensures var spec := Spool.Acknowledge(old(View()), ack);
        if spec.Ok? then r == Ok(spec.value.1) && View() == spec.value.0
        else r == Err(spec.error) && View() == old(View())
    {
      hide Valid, Placed, ValidBinding, BoundedId;
      ValidBasics(View());
      if !ValidBinding(ack.session) { return Err(InvalidData); }
      if lastAck == Some(ack) { return Ok(Duplicate); }
      if ack.streamId != streamId || ack.streamEpoch != epoch { return Err(WrongStream); }
      if ack.position <= lastAcked { return Err(ConflictingIdentity); }
      if !BoundedId(ack.receiptId) { return Err(InvalidData); }
      assert ack.position in records <==> ack.position < next && AtLeast(ack.position, first);
      if ack.position !in records { return Err(PositionGap); }
      var record := records[ack.position];
      if record.offeredSession != Some(ack.session) { return Err(StaleSession); }
      if record.content.batchId != ack.batchId || record.content.digest != ack.digest {
        return Err(ConflictingIdentity);
      }
      AcknowledgeKeepsValidIfOk(View(), ack);
      var removed := RemoveThrough(ack.position);
      lastAcked := ack.position;
      lastAck := Some(ack);
      return Ok(Applied(removed));
    }

    method MarkOffered(identity: Identity, session: Binding) returns (r: Result<(), SpoolError>)
      requires Sound()
      modifies `records
      ensures Sound()
      ensures var spec := Spool.MarkOffered(old(View()), identity, session);
        if spec.Ok? then r == Ok(()) && View() == spec.value else r == Err(spec.error) && View() == old(View())
    {
      hide Valid, Placed, ValidBinding;
      ValidBasics(View());
      if !ValidBinding(session) { return Err(InvalidData); }
      if identity.streamId != streamId || identity.streamEpoch != epoch { return Err(WrongStream); }
      assert identity.position in records <==> identity.position < next && AtLeast(identity.position, first);
      if identity.position !in records { return Err(PositionGap); }
      MarkingKeepsValid(View(), identity, session);
      var record := records[identity.position].(state := Offered, offeredSession := Some(session));
      ReplaceOne(records, first, next, identity.position, record);
      records := records[identity.position := record];
      return Ok(());
    }

    method MarkTransportPublished(identity: Identity, session: Binding) returns (r: Result<(), SpoolError>)
      requires Sound()
      modifies `records
      ensures Sound()
      ensures var spec := Spool.MarkTransportPublished(old(View()), identity, session);
        if spec.Ok? then r == Ok(()) && View() == spec.value else r == Err(spec.error) && View() == old(View())
    {
      hide Valid, Placed, ValidBinding;
      ValidBasics(View());
      if !ValidBinding(session) { return Err(InvalidData); }
      if identity.streamId != streamId || identity.streamEpoch != epoch { return Err(WrongStream); }
      assert identity.position in records <==> identity.position < next && AtLeast(identity.position, first);
      if identity.position !in records { return Err(PositionGap); }
      if records[identity.position].offeredSession != Some(session) { return Err(StaleSession); }
      MarkingKeepsValid(View(), identity, session);
      var record := records[identity.position].(state := TransportPublished, offeredSession := Some(session));
      ReplaceOne(records, first, next, identity.position, record);
      records := records[identity.position := record];
      return Ok(());
    }

    method RotateStreamEpoch() returns (r: Result<nat, SpoolError>)
      requires Sound()
      modifies this
      ensures Sound()
      ensures var spec := RotateEpoch(old(View()));
        if spec.Ok? then r == Ok(spec.value.epoch) && View() == spec.value
        else r == Err(spec.error) && View() == old(View())
    {
      hide Placed;
      MapSize(records, first, next);
      if |records| != 0 { return Err(PendingRecords); }
      if epoch == U64_MAX { return Err(Storage); }
      epoch, next, lastAck, lastAcked, dataLoss, first := epoch + 1, 1, None, 0, None, 1;
      assert records == map[];
      return Ok(epoch);
    }

    method ReplayFrom(position: nat, limit: nat) returns (r: Result<Window, SpoolError>)
      requires Sound()
      ensures r == Spool.ReplayFrom(View(), position, limit)
    {
      hide Valid, Placed, RecordsInOrder;
      ValidBasics(View());
      if position == 0 || limit == 0 { return Err(InvalidData); }
      if position > next { return Err(PositionGap); }
      MapSize(records, first, next);
      var earliest := next;
      if |records| > 0 {
        earliest := FirstKey(records);
        FirstOfPositions(first, next, earliest);
      }
      if position < earliest {
        if dataLoss.Some? && dataLoss.value.first <= position <= dataLoss.value.last {
          return Ok(Window([], dataLoss));
        }
        return Err(PositionGap);
      }
      var page := Page(records, first, next, position, limit);
      ghost var rest := View().records[position - first..];
      assert rest[..|rest|] == rest;
      return Ok(Window(page, None));
    }
  }

  /** A failed enqueue changes nothing, with one exception: at the last position a full spool has already evicted. */
  function AfterFailedEnqueue(s: State, input: Enqueue): State {
    if ValidContent(input) && FindBatch(s.records, input.batchId).None? && s.next == U64_MAX
      && 0 < s.capacity == |s.records|
    then s.(records := s.records[1..])
    else s
  }

  /** A failed enqueue changes the state exactly in the case above; then a record is gone that was neither acknowledged
      nor named as lost, and the invariant is broken. */
  lemma FailedEnqueueLosesIff(s: State, input: Enqueue)
    requires Valid(s) && EnqueueRecord(s, input).Err?
    ensures var t := AfterFailedEnqueue(s, input);
      && (t != s <==>
            && ValidContent(input) && FindBatch(s.records, input.batchId).None?
            && s.next == U64_MAX && |s.records| == s.capacity)
      && (t != s ==>
            !Valid(t) && Retained(s, s.epoch, Earliest(s)) && !Retained(t, s.epoch, Earliest(s))
              && !Named(t, Earliest(s))
            && Earliest(s) > t.lastAcked)
  {
    hide ValidContent, FindBatch, Contiguous, BoundedId;
    var t := AfterFailedEnqueue(s, input);
    if t != s { assert |t.records| == |s.records| - 1 && Earliest(t) == Earliest(s) + 1; }
  }

  /** A spool of capacity one at the last position, with everything before acknowledged. */
  function LastPosition(streamId: string, c: Enqueue, session: Binding): State {
    State(streamId, 1, U64_MAX, 1, [FromEnqueue(Identity(streamId, 1, U64_MAX - 1), c)],
          Some(Ack(session, streamId, 1, U64_MAX - 2, c.batchId, c.digest, c.batchId)), U64_MAX - 2, None)
  }

  lemma FailedEnqueueCanLose(streamId: string, c: Enqueue, session: Binding, input: Enqueue)
    requires BoundedId(streamId) && ValidBinding(session) && ValidContent(input) && input.batchId != c.batchId
    ensures var s := LastPosition(streamId, c, session);
      Valid(s) && EnqueueRecord(s, input) == Err(Storage) && AfterFailedEnqueue(s, input) != s
  {
    hide ValidContent, BoundedId;
    var s := LastPosition(streamId, c, session);
    assert Placed(s, 0);
    assert FindBatch(s.records, input.batchId).None? by { assert s.records[1..] == []; }
    FailedEnqueueLosesIff(s, input);
  }

  lemma ValidBasics(s: State)
    requires Valid(s)
    ensures 1 <= s.capacity && 1 <= Earliest(s) == s.next - |s.records| && s.next <= U64_MAX
      && |s.records| <= s.capacity
  {}

  lemma EnqueueKeepsValidIfOk(s: State, input: Enqueue)
    requires Valid(s)
    ensures EnqueueRecord(s, input).Ok? ==> Valid(EnqueueRecord(s, input).value.0)
  {
    hide Valid;
    if EnqueueRecord(s, input).Ok? { EnqueueKeepsValid(s, input); }
  }

  lemma AcknowledgeKeepsValidIfOk(s: State, ack: Ack)
    requires Valid(s)
    ensures Spool.Acknowledge(s, ack).Ok? ==> Valid(Spool.Acknowledge(s, ack).value.0)
  {
    hide Valid;
    if Spool.Acknowledge(s, ack).Ok? { AcknowledgeKeepsValid(s, ack); }
  }

  lemma ReplaceOne(records: map<nat, Record>, from: nat, to: nat, p: nat, record: Record)
    requires from <= p < to && records.Keys == Positions(from, to)
    ensures records[p := record].Keys == Positions(from, to)
    ensures RecordsInOrder(records[p := record], from, to) == RecordsInOrder(records, from, to)[p - from := record]
  {
    assert AtLeast(p, from);
    assert records[p := record].Keys == Positions(from, to);
  }

  function Tail(all: seq<Record>, key: nat, first: nat): seq<Record> {
    if key <= first then all else if key - first <= |all| then all[key - first..] else []
  }

  lemma FirstOfPositions(from: nat, to: nat, k: nat)
    requires from < to && k in Positions(from, to) && forall p :: p in Positions(from, to) ==> k <= p
    ensures k == from
  {
    assert AtLeast(from, from) && AtLeast(k, from);
    assert from in Positions(from, to);
  }

  lemma DropFirst(records: map<nat, Record>, from: nat, to: nat)
    requires from < to && records.Keys == Positions(from, to)
    ensures (records - {from}).Keys == Positions(from + 1, to)
    ensures RecordsInOrder(records - {from}, from + 1, to) == RecordsInOrder(records, from, to)[1..]
  {
    assert AtLeast(from, from);
    assert (records - {from}).Keys == Positions(from + 1, to) by {
      forall p: nat | p < to ensures AtLeast(p, from + 1) <==> AtLeast(p, from) && p != from {}
    }
    var a, b := RecordsInOrder(records - {from}, from + 1, to), RecordsInOrder(records, from, to);
    forall i | 0 <= i < |a| ensures a[i] == b[1..][i] { assert AtLeast(from + 1 + i, from + 1); }
  }

  lemma AddLast(records: map<nat, Record>, from: nat, to: nat, record: Record)
    requires from <= to && records.Keys == Positions(from, to)
    ensures records[to := record].Keys == Positions(from, to + 1)
    ensures RecordsInOrder(records[to := record], from, to + 1) == RecordsInOrder(records, from, to) + [record]
  {
    assert AtLeast(to, from);
    assert records[to := record].Keys == Positions(from, to + 1);
    var a, b := RecordsInOrder(records[to := record], from, to + 1), RecordsInOrder(records, from, to) + [record];
    forall i | 0 <= i < |a| ensures a[i] == b[i] { assert AtLeast(from + i, from); }
  }
}
