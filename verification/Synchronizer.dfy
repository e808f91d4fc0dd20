/** Copying delegated integration state into a local projection: complete snapshots, then one ordered observation at a
    time, through a sink other tasks also write to and whose calls may fail before or after taking effect. */
module Synchronizer {
  import opened Wrappers

  datatype ValueType = Boolean | Int64 | UInt64 | Float64 | Decimal | String | Enum | Bytes

  datatype Quality = Good | Unknown | Unavailable

  datatype Value = Value(valueType: ValueType, text: string)

  datatype Point = Point(key: string, valueType: ValueType)

  datatype Entity = Entity(id: string, points: seq<Point>)

  datatype Topology = Topology(gateway: string, integration: string, generation: nat, entities: seq<Entity>)

  datatype Observation = Observation(gateway: string, integration: string, entity: string, point: string,
                                     value: Option<Value>, quality: Quality, sequence: nat)

  datatype Snapshot = Snapshot(topology: Topology, observations: seq<Observation>)

  // ---------------------------------------------------------------- the snapshot's own rules

  function DeclaredPoint(t: Topology, o: Observation): Option<Point> {
    var entity := First(t.entities, (e: Entity) => e.id == o.entity);
    if entity.None? then None else First(entity.value.points, (p: Point) => p.key == o.point)
  }

  predicate InScope(t: Topology, o: Observation) { o.gateway == t.gateway && o.integration == t.integration }

  /** Declared, with a value of the declared type if and only if the quality is good. */
  predicate Fitting(t: Topology, o: Observation) {
    var point := DeclaredPoint(t, o);
    && point.Some?
    && (if o.quality.Good? then o.value.Some? && o.value.value.valueType == point.value.valueType else o.value.None?)
  }

  predicate PointIs(t: Topology, o: Observation, i: nat, j: nat) {
    && i < |t.entities| && j < |t.entities[i].points| && t.entities[i].id == o.entity
    && t.entities[i].points[j].key == o.point
    && (forall k :: 0 <= k < i ==> t.entities[k].id != o.entity)
    && forall k :: 0 <= k < j ==> t.entities[i].points[k].key != o.point
  }

  /** An observation fits exactly if the first entity with its id has a point with its key, and its value has the type
      of the first such point if its quality is good, and is absent otherwise. */
  lemma FittingIff(t: Topology, o: Observation)
    ensures Fitting(t, o) <==>
      exists i: nat, j: nat ::
        && PointIs(t, o, i, j)
        && (if o.quality.Good? then o.value.Some? && o.value.value.valueType == t.entities[i].points[j].valueType
            else o.value.None?)
  {
    var entity := First(t.entities, (e: Entity) => e.id == o.entity);
    if entity.Some? {
      var i :| 0 <= i < |t.entities| && t.entities[i] == entity.value
            && t.entities[i].id == o.entity && forall k :: 0 <= k < i ==> t.entities[k].id != o.entity;
      var point := First(entity.value.points, (p: Point) => p.key == o.point);
      if point.Some? {
        var j :| 0 <= j < |entity.value.points| && entity.value.points[j] == point.value
              && point.value.key == o.point && forall k :: 0 <= k < j ==> entity.value.points[k].key != o.point;
        assert PointIs(t, o, i, j);
      }
    }
  }

  function KeyOf(o: Observation): (string, string) { (o.entity, o.point) }

  predicate OtherPoint(a: Observation, b: Observation) { a.entity != b.entity || a.point != b.point }

  predicate UniqueKeys(observations: seq<Observation>) {
    forall i, j :: 0 <= i < j < |observations| ==> OtherPoint(observations[i], observations[j])
  }

  predicate Belongs(t: Topology, o: Observation) { InScope(t, o) && Fitting(t, o) }

  predicate ValidSnapshot(s: Snapshot) {
    && UniqueKeys(s.observations)
    && forall i :: 0 <= i < |s.observations| ==> Belongs(s.topology, s.observations[i])
  }

  /** The scan with a set of seen keys accepts exactly the valid snapshots. */
  method NewSnapshot(topology: Topology, observations: seq<Observation>) returns (r: Option<Snapshot>)
    ensures r == if ValidSnapshot(Snapshot(topology, observations)) then Some(Snapshot(topology, observations))
      else None
  {
    hide Fitting;
    var seen: set<(string, string)> := {};
    for n := 0 to |observations|
      invariant seen == set i | 0 <= i < n :: KeyOf(observations[i])
      invariant UniqueKeys(observations[..n]) && forall i :: 0 <= i < n ==> Belongs(topology, observations[i])
    {
      var o := observations[n];
      if !InScope(topology, o) || KeyOf(o) in seen { return None; }
      seen := seen + {KeyOf(o)};
      if !Fitting(topology, o) { return None; }
    }
    assert observations[..|observations|] == observations;
    return Some(Snapshot(topology, observations));
  }

  // ---------------------------------------------------------------- sequences and upserts

  function MaxSequence(observations: seq<Observation>): nat {
    if observations == [] then 0
    else
      var rest := MaxSequence(observations[..|observations| - 1]);
      var last := observations[|observations| - 1].sequence;
      if last > rest then last else rest
  }

  function LastSequence(s: Snapshot): nat { MaxSequence(s.observations) }

  function Upsert(observations: seq<Observation>, o: Observation): seq<Observation> {
    if observations == [] then [o]
    else if KeyOf(observations[0]) == KeyOf(o) then [o] + observations[1..]
    else [observations[0]] + Upsert(observations[1..], o)
  }

  lemma {:induction false} UpsertMembers(observations: seq<Observation>, o: Observation, i: nat)
    requires i < |Upsert(observations, o)|
    ensures Upsert(observations, o)[i] == o || Upsert(observations, o)[i] in observations
  {
    if observations != [] && KeyOf(observations[0]) != KeyOf(o) && i > 0 {
      UpsertMembers(observations[1..], o, i - 1);
    }
  }

  lemma {:induction false} UpsertKeepsUnique(observations: seq<Observation>, o: Observation)
    requires UniqueKeys(observations)
    ensures UniqueKeys(Upsert(observations, o))
  {
    var r := Upsert(observations, o);
    if observations != [] && KeyOf(observations[0]) != KeyOf(o) {
      UpsertKeepsUnique(observations[1..], o);
      forall j | 0 < j < |r| ensures KeyOf(r[0]) != KeyOf(r[j]) {
        UpsertMembers(observations[1..], o, j - 1);
      }
      forall i, j | 0 <= i < j < |r| ensures KeyOf(r[i]) != KeyOf(r[j]) {
        if i > 0 { assert r[i] == Upsert(observations[1..], o)[i - 1] && r[j] == Upsert(observations[1..], o)[j - 1]; }
      }
    }
  }

  lemma {:induction false} MaxBounds(observations: seq<Observation>, bound: nat)
    requires forall i :: 0 <= i < |observations| ==> observations[i].sequence <= bound
    ensures MaxSequence(observations) <= bound
  {
    if observations != [] { MaxBounds(observations[..|observations| - 1], bound); }
  }

  lemma {:induction false} MaxIsReached(observations: seq<Observation>, i: nat)
    requires i < |observations|
    ensures observations[i].sequence <= MaxSequence(observations)
  {
    if i < |observations| - 1 { MaxIsReached(observations[..|observations| - 1], i); }
  }

  lemma {:induction false} UpsertHolds(observations: seq<Observation>, o: Observation) returns (i: nat)
    ensures i < |Upsert(observations, o)| && Upsert(observations, o)[i] == o
  {
    if observations != [] && KeyOf(observations[0]) != KeyOf(o) {
      var j := UpsertHolds(observations[1..], o);
      i := j + 1;
    } else {
      i := 0;
    }
  }

  /** Entries for other points stay. */
  lemma {:induction false} UpsertKeepsOthers(observations: seq<Observation>, o: Observation, i: nat)
    requires i < |observations| && OtherPoint(observations[i], o)
    ensures observations[i] in Upsert(observations, o)
  {
    if KeyOf(observations[0]) == KeyOf(o) {
      assert Upsert(observations, o)[i] == observations[i];
    } else if i > 0 {
      UpsertKeepsOthers(observations[1..], o, i - 1);
      assert observations[1..][i - 1] in Upsert(observations, o);
    } else {
      assert Upsert(observations, o)[0] == observations[0];
    }
  }

  /** After an upsert there is exactly one entry for the point, the new one. */
  lemma UpsertReplaces(observations: seq<Observation>, o: Observation, p: Observation)
    requires UniqueKeys(observations)
    ensures o in Upsert(observations, o)
    ensures p in Upsert(observations, o) ==> p == o || (p in observations && OtherPoint(p, o))
  {
    var r := Upsert(observations, o);
    UpsertKeepsUnique(observations, o);
    var at := UpsertHolds(observations, o);
    if p in r {
      var i :| 0 <= i < |r| && r[i] == p;
      UpsertMembers(observations, o, i);
    }
  }

  /** Applying a newer observation makes its sequence the last one, whichever entry it replaces. */
  lemma UpsertAdvances(observations: seq<Observation>, o: Observation)
    requires o.sequence > MaxSequence(observations)
    ensures MaxSequence(Upsert(observations, o)) == o.sequence
  {
    var r := Upsert(observations, o);
    forall i | 0 <= i < |r| ensures r[i].sequence <= o.sequence {
      UpsertMembers(observations, o, i);
      if r[i] in observations {
        var j :| 0 <= j < |observations| && observations[j] == r[i];
        MaxIsReached(observations, j);
      }
    }
    MaxBounds(r, o.sequence);
    var at := UpsertHolds(observations, o);
    MaxIsReached(r, at);
  }

  /** An upsert the synchronizer's checks allow keeps every rule of a snapshot. */
  lemma UpsertKeepsValid(s: Snapshot, o: Observation)
    requires ValidSnapshot(s) && Belongs(s.topology, o)
    ensures ValidSnapshot(s.(observations := Upsert(s.observations, o)))
  {
    hide Belongs;
    UpsertKeepsUnique(s.observations, o);
    var r := Upsert(s.observations, o);
    forall i | 0 <= i < |r| ensures Belongs(s.topology, r[i]) { UpsertMembers(s.observations, o, i); }
  }

  // ---------------------------------------------------------------- the projection and its history

  /** An applied observation is recorded with the topology it was applied under. */
  datatype Commit = Replaced(snapshot: Snapshot) | Applied(topology: Topology, observation: Observation)

  function LastOf(c: Commit): nat {
    match c
    case Replaced(s) => LastSequence(s)
    case Applied(_, o) => o.sequence
  }

  function TopologyOf(c: Commit): Topology {
    match c
    case Replaced(s) => s.topology
    case Applied(t, _) => t
  }

  /** Each applied observation carries the number after that of the commit before it, and fits the topology in force. */
  predicate NoGap(commits: seq<Commit>, i: nat)
    requires i < |commits|
  {
    commits[i].Applied? ==>
      && i > 0 && commits[i].observation.sequence == LastOf(commits[i - 1]) + 1
      && commits[i].topology == TopologyOf(commits[i - 1]) && Belongs(commits[i].topology, commits[i].observation)
  }

  predicate Ordered(commits: seq<Commit>) {
    forall i :: 0 <= i < |commits| ==> NoGap(commits, i)
  }

  /** The state a list of commits leaves: the last snapshot with every later observation upserted. */
  function Projected(commits: seq<Commit>): Option<Snapshot> {
    if commits == [] then None
    else
      var last := commits[|commits| - 1];
      match last
      case Replaced(s) => Some(s)
      case Applied(t, o) =>
        var before := Projected(commits[..|commits| - 1]);
        if before.None? then None else Some(Snapshot(t, Upsert(before.value.observations, o)))
  }

  /** The sink's contract. A newer generation replaces; an equal one only refreshes the same topology, which is what an
      equal digest stands for. */
  predicate ReplaceAccepted(current: Option<Snapshot>, s: Snapshot) {
    current.None? || current.value.topology.generation < s.topology.generation || current.value.topology == s.topology
  }

  /** The sink compares the generation in the same transaction as the write; it is asked to compare the next sequence
      there as well, and `compares` says whether it does. */
  predicate ApplyAccepted(compares: bool, current: Option<Snapshot>, generation: nat, o: Observation) {
    && current.Some? && current.value.topology.generation == generation
    && (compares ==> o.sequence == LastSequence(current.value) + 1)
  }

  datatype Change = SnapshotReplaced(count: nat, last: Option<nat>) | ObservationApplied(sequence: nat)

  datatype Receipt = Receipt(gateway: string, integration: string, generation: nat, change: Change)

  /** What the sink must answer for a replaced snapshot. */
  function ReplacedReceipt(s: Snapshot): Receipt {
    Receipt(s.topology.gateway, s.topology.integration, s.topology.generation,
            SnapshotReplaced(|s.observations|, if s.observations == [] then None else Some(LastSequence(s))))
  }

  /** What the synchronizer requires of the projection before it applies an observation. */
  predicate Applicable(current: Option<Snapshot>, gateway: string, integration: string, o: Observation) {
    && current.Some? && current.value.topology.gateway == gateway && current.value.topology.integration == integration
    && o.gateway == gateway && o.integration == integration && Fitting(current.value.topology, o)
    && LastSequence(current.value) < U64_MAX && o.sequence == LastSequence(current.value) + 1
  }

  datatype Sync = Ok(receipt: Receipt) | ResyncRequired | ProviderScopeMismatch | InvalidReceipt | PortFailure

  /** Generations never go back, and within one generation the topology stays the same. */
  predicate Advanced(a: Option<Snapshot>, b: Option<Snapshot>) {
    a.Some? ==>
      && b.Some? && a.value.topology.generation <= b.value.topology.generation
      && (a.value.topology.generation == b.value.topology.generation ==> a.value.topology == b.value.topology)
  }

  /** The last number a list of commits leaves. */
  function LastIn(commits: seq<Commit>): nat {
    var p := Projected(commits);
    if p.None? then 0 else LastSequence(p.value)
  }

  /** Commits and the state they leave, as every operation of the sink keeps them. */
  ghost predicate Sane(commits: seq<Commit>) {
    && (commits == [] <==> Projected(commits).None?)
    && (commits != [] ==>
          ValidSnapshot(Projected(commits).value)
            && Projected(commits).value.topology == TopologyOf(commits[|commits| - 1]))
  }

  class Projection {
    const gateway: string
    const integration: string
    const comparesSequence: bool
    var current: Option<Snapshot>
    ghost var commits: seq<Commit>

    ghost predicate Sound()
      reads this
    {
      current == Projected(commits) && Sane(commits) && (comparesSequence ==> Ordered(commits))
    }

    constructor (gateway: string, integration: string, comparesSequence: bool)
      ensures Sound() && current.None? && commits == []
    {
      this.gateway, this.integration, this.comparesSequence, current, commits := gateway, integration, comparesSequence,
        None, [];
    }

    method Replace(s: Snapshot) returns (accepted: bool)
      requires Sound() && ValidSnapshot(s)
      modifies this
      ensures Sound() && accepted == ReplaceAccepted(old(current), s)
      ensures commits == if accepted then old(commits) + [Replaced(s)] else old(commits)
      ensures current == if accepted then Some(s) else old(current)
    {
      hide ValidSnapshot;
      accepted := ReplaceAccepted(current, s);
      if accepted {
        if comparesSequence { OrderedGrows(commits, Replaced(s)); }
        current := Some(s);
        commits := commits + [Replaced(s)];
      }
    }

    method Apply(generation: nat, o: Observation) returns (accepted: bool)
      requires Sound()
      requires current.Some? && current.value.topology.generation == generation ==> Belongs(current.value.topology, o)
      modifies this
      ensures Sound() && accepted == ApplyAccepted(comparesSequence, old(current), generation, o)
      ensures !accepted ==> commits == old(commits) && current == old(current)
      ensures accepted ==>
        && commits == old(commits) + [Applied(old(current).value.topology, o)]
        && current == Some(old(current).value.(observations := Upsert(old(current).value.observations, o)))
    {
      hide ValidSnapshot, Belongs;
      accepted := ApplyAccepted(comparesSequence, current, generation, o);
      if accepted {
        UpsertKeepsValid(current.value, o);
        ghost var more := commits + [Applied(current.value.topology, o)];
        if comparesSequence {
          OrderedLast(commits);
          OrderedGrows(commits, Applied(current.value.topology, o));
        }
        assert more[..|more| - 1] == commits;
        current := Some(current.value.(observations := Upsert(current.value.observations, o)));
        commits := more;
      }
    }

    /** Other synchronizers of the same integration. */
    method Others()
      requires Sound()
      modifies this
      ensures Sound() && old(commits) <= commits && Advanced(old(current), current)
    {
      hide ValidSnapshot, Belongs;
      var more: int := *;
      while more > 0
        invariant Sound() && old(commits) <= commits && Advanced(old(current), current)
      {
        more := more - 1;
        var s: Snapshot, o: Observation := *, *;
        if ValidSnapshot(s) { var _ := Replace(s); }
        if current.Some? && Belongs(current.value.topology, o) { var _ := Apply(current.value.topology.generation, o); }
      }
    }

    predicate InThisScope(s: Snapshot) { s.topology.gateway == gateway && s.topology.integration == integration }

    /** Replaces topology and observations in one commit. `provided` is what the provider returned. */
    method SynchronizeSnapshot(provided: Option<Snapshot>) returns (r: Sync)
      requires Sound()
      requires provided.Some? ==> ValidSnapshot(provided.value)
      modifies this
      ensures Sound() && old(commits) <= commits
      ensures r.Ok? ==>
        provided.Some? && Replaced(provided.value) in commits[|old(commits)|..]
        && r == Sync.Ok(ReplacedReceipt(provided.value)) && InThisScope(provided.value)
        && r.receipt.gateway == gateway && r.receipt.integration == integration
        && r.receipt.generation == provided.value.topology.generation
        && r.receipt.change.SnapshotReplaced? && r.receipt.change.count == |provided.value.observations|
        && r.receipt.change.last == (if provided.value.observations == [] then None
                                     else Some(LastSequence(provided.value)))
      ensures provided.Some? && InThisScope(provided.value) && ReplaceAccepted(old(current), provided.value) ==>
        commits == old(commits) ==> r == PortFailure
      ensures provided.Some? && !InThisScope(provided.value) ==> r == ProviderScopeMismatch && commits == old(commits)
    {
      hide ValidSnapshot;
      if provided.None? { return PortFailure; }
      var s := provided.value;
      if !InThisScope(s) { return ProviderScopeMismatch; }
      Others();
      var fault: Fault := *;
      if fault.NoEffect? { return PortFailure; }
      ghost var before := commits;
      var accepted := Replace(s);
      if !accepted { return ResyncRequired; }
      assert commits[|before|] == Replaced(s);
      if fault.LostReply? { return PortFailure; }
      var receipt: Receipt := *;
      if receipt != ReplacedReceipt(s) { return InvalidReceipt; }
      return Sync.Ok(receipt);
    }

    /** Projects one observation. `queried` is what was committed when the projection was read, `found` what was there
        when the write came, and `answered` whether the read succeeded. The observation is committed only with the
        number after the last one read, and only while the topology it was checked against is the current one. Read
        undisturbed, anything else asks for a resynchronization and commits nothing. If what was found is in order, the
        commit keeps it so exactly when the last number is still the one that was read; a sink that compares the number
        makes sure of that. */
    method SynchronizeNext(provided: Option<Observation>)
        returns (r: Sync, ghost queried: seq<Commit>, ghost found: seq<Commit>, ghost answered: bool)
      requires Sound()
      modifies this
      ensures Sound() && old(commits) <= queried <= found <= commits
      ensures r.Ok? ==>
        && provided.Some? && r.receipt.change == ObservationApplied(provided.value.sequence)
        && r.receipt.gateway == gateway && r.receipt.integration == integration && commits != found
        && TopologyOf(commits[|found|]).generation == r.receipt.generation
      ensures commits != found ==>
        && answered && provided.Some? && found != []
          && Applicable(Projected(queried), gateway, integration, provided.value)
        && commits == found + [Applied(TopologyOf(found[|found| - 1]), provided.value)]
        && (Ordered(found) ==> (Ordered(commits) <==> LastIn(found) == LastIn(queried)))
        && (comparesSequence ==> LastIn(found) == LastIn(queried))
      ensures answered && provided.Some? && !Applicable(Projected(queried), gateway, integration, provided.value) ==>
        r == ResyncRequired && commits == queried
      ensures provided.Some? && Applicable(old(current), gateway, integration, provided.value) ==>
        commits == old(commits) ==> r == PortFailure
      ensures provided.Some? && (provided.value.gateway != gateway || provided.value.integration != integration) ==>
        r == ResyncRequired && commits == old(commits)
    {
      hide ValidSnapshot, Fitting, Projected;
      queried, found, answered := commits, commits, false;
      if provided.None? { return PortFailure, queried, found, answered; }
      var o := provided.value;
      if o.gateway != gateway || o.integration != integration { return ResyncRequired, queried, found, answered; }
      Others();
      queried, found := commits, commits;
      var queryFails: bool := *;
      if queryFails { return PortFailure, queried, found, answered; }
      answered := true;
      var projected := current;
      if projected.None? { return ResyncRequired, queried, found, answered; }
      var topology := projected.value.topology;
      if topology.gateway != gateway || topology.integration != integration {
        return ResyncRequired, queried, found, answered;
      }
      if !Fitting(topology, o) { return ResyncRequired, queried, found, answered; }
      var last := LastSequence(projected.value);
      if last >= U64_MAX || o.sequence != last + 1 { return ResyncRequired, queried, found, answered; }
      Others();
      found := commits;
      var fault: Fault := *;
      if fault.NoEffect? { return PortFailure, queried, found, answered; }
      var accepted := Apply(topology.generation, o);
      if !accepted { return ResyncRequired, queried, found, answered; }
      if Ordered(found) { OrderedExactly(found, Applied(topology, o)); }
      if fault.LostReply? { return PortFailure, queried, found, answered; }
      var receipt: Receipt := *;
      if receipt != Receipt(gateway, integration, topology.generation, ObservationApplied(o.sequence)) {
        return InvalidReceipt, queried, found, answered;
      }
      return Sync.Ok(receipt), queried, found, answered;
    }
  }

  /** In order, the largest number is that of the last commit. */
  lemma {:induction false} OrderedLast(commits: seq<Commit>)
    requires Ordered(commits) && commits != []
    ensures Projected(commits).Some? && LastSequence(Projected(commits).value) == LastOf(commits[|commits| - 1])
  {
    hide Belongs;
    var n := |commits| - 1;
    assert NoGap(commits, n);
    if commits[n].Applied? {
      forall i | 0 <= i < n ensures NoGap(commits[..n], i) { assert NoGap(commits, i); }
      OrderedLast(commits[..n]);
      UpsertAdvances(Projected(commits[..n]).value.observations, commits[n].observation);
    }
  }

  /** A commit keeps the order exactly when its number is the next one. */
  lemma OrderedExactly(commits: seq<Commit>, c: Commit)
    requires Ordered(commits) && commits != [] && c.Applied?
    requires c.topology == TopologyOf(commits[|commits| - 1]) && Belongs(c.topology, c.observation)
    ensures Projected(commits).Some? && (Ordered(commits + [c]) <==> c.observation.sequence == LastIn(commits) + 1)
  {
    hide Belongs;
    OrderedLast(commits);
    if c.observation.sequence == LastIn(commits) + 1 { OrderedGrows(commits, c); }
    assert Ordered(commits + [c]) ==> NoGap(commits + [c], |commits|);
  }

  /** Without the comparison, an observation another task committed meanwhile is committed once more. */
  lemma UncomparedCanRepeat(s: Snapshot, o: Observation)
    requires ValidSnapshot(s) && Belongs(s.topology, o) && o.sequence == LastSequence(s) + 1 <= U64_MAX
    ensures var found := [Replaced(s), Applied(s.topology, o)];
      && Ordered(found) && Applicable(Projected([Replaced(s)]), s.topology.gateway, s.topology.integration, o)
      && ApplyAccepted(false, Projected(found), s.topology.generation, o)
      && !Ordered(found + [Applied(s.topology, o)])
  {
    hide ValidSnapshot, Fitting;
    var found := [Replaced(s), Applied(s.topology, o)];
    assert found[..1] == [Replaced(s)];
    assert NoGap(found, 0) && NoGap(found, 1);
    UpsertAdvances(s.observations, o);
    OrderedExactly(found, Applied(s.topology, o));
    OrderedLast(found);
  }

  lemma OrderedGrows(commits: seq<Commit>, c: Commit)
    requires Ordered(commits)
    requires c.Applied? ==>
      && commits != [] && c.observation.sequence == LastOf(commits[|commits| - 1]) + 1
      && c.topology == TopologyOf(commits[|commits| - 1]) && Belongs(c.topology, c.observation)
    ensures Ordered(commits + [c])
  {
    var more := commits + [c];
    forall i | 0 <= i < |more| ensures NoGap(more, i) {
      if i < |commits| { assert NoGap(commits, i); }
    }
  }

  /** From a snapshot on, until the next snapshot, the applied sequence numbers count up from its maximum plus one, with
      no gap, repeat or reorder, and every observation fits that snapshot's topology. */
  lemma {:induction false} ConsecutiveSinceSnapshot(commits: seq<Commit>, from: nat, to: nat)
    requires Ordered(commits) && from < to < |commits| && commits[from].Replaced?
    requires forall i :: from < i <= to ==> commits[i].Applied?
    ensures commits[to].observation.sequence == LastSequence(commits[from].snapshot) + (to - from)
    ensures commits[to].topology == commits[from].snapshot.topology
      && Belongs(commits[to].topology, commits[to].observation)
  {
    assert NoGap(commits, to);
    if to > from + 1 { ConsecutiveSinceSnapshot(commits, from, to - 1); }
  }
}
