/** The Integration producer: Cloud-first activation, record routing, and the observation splitter that cuts an
    oversized batch greedily under the worst-case envelope bound. */
module Producer {
  import opened Wrappers
  import opened CanonicalJson
  import opened JsonRecords
  import opened Decimals
  import opened CloudLink
  import opened Envelope
  import opened Observations
  import opened Partition

  const EXTENSION: string := "aether.cloudlink.integration.v1alpha1"
  const MAX_PARTITIONS: nat := 65_536

  datatype Route = TopologyUp | ObservationsUp

  datatype Extension = Extension(integrationId: string, topologyStream: string, topologyEpoch: nat,
                                 observationStream: string, observationEpoch: nat)

  function EnableCloudFirst(runtimeProtocols: seq<string>, cloudExtensions: seq<string>, integrationId: string,
                            topologyStream: string, topologyEpoch: nat, observationStream: string,
                            observationEpoch: nat): Result<Extension, Error>
  {
    if EXTENSION !in runtimeProtocols || EXTENSION !in cloudExtensions then Err(ExtensionNotEnabled)
    else if !Identifier(integrationId, 128) then Err(StreamBindingConflict)
    else if topologyStream == observationStream || topologyEpoch == 0 || observationEpoch == 0 then
      Err(StreamBindingConflict)
    else Ok(Extension(integrationId, topologyStream, topologyEpoch, observationStream, observationEpoch))
  }

  function RouteForRecord(x: Extension, record: Record): Result<Route, Error> {
    var stream := Identity(record.identity.streamId, record.identity.streamEpoch, 0);
    var route :-
      match record.content.kind
      case IntegrationTopologySnapshot =>
        if stream == Identity(x.topologyStream, x.topologyEpoch, 0) then Ok(TopologyUp) else Err(StreamBindingConflict)
      case IntegrationObservationBatch =>
        if stream == Identity(x.observationStream, x.observationEpoch, 0) then Ok(ObservationsUp)
        else Err(StreamBindingConflict)
      case _ => Err(StreamBindingConflict);
    if Lookup(record.content.payload, "integration_id") == Some(Str(x.integrationId)) then Ok(route)
    else Err(StreamBindingConflict)
  }

  /** An extension is activated exactly if both sides name it and the two streams are well formed and not the same. */
  lemma ActivatedIff(runtimeProtocols: seq<string>, cloudExtensions: seq<string>, integrationId: string,
                     topologyStream: string, topologyEpoch: nat, observationStream: string, observationEpoch: nat)
    ensures EnableCloudFirst(runtimeProtocols, cloudExtensions, integrationId, topologyStream, topologyEpoch,
                             observationStream, observationEpoch).Ok?
      <==> && "aether.cloudlink.integration.v1alpha1" in runtimeProtocols
           && "aether.cloudlink.integration.v1alpha1" in cloudExtensions
           && Identifier(integrationId, 128) && topologyStream != observationStream
           && topologyEpoch > 0 && observationEpoch > 0
  {
    hide Identifier;
  }

  predicate Names(record: Record, kind: Kind, stream: string, epoch: nat, integrationId: string) {
    && record.content.kind == kind && record.identity.streamId == stream && record.identity.streamEpoch == epoch
    && Lookup(record.content.payload, "integration_id") == Some(Str(integrationId))
  }

  /** Which records an activated extension sends where: snapshots of its integration on the topology stream,
      observations on the other, and nothing else. */
  lemma RoutesExactly(runtimeProtocols: seq<string>, cloudExtensions: seq<string>, integrationId: string,
                      topologyStream: string, topologyEpoch: nat, observationStream: string, observationEpoch: nat,
                      a: Record)
    requires EnableCloudFirst(runtimeProtocols, cloudExtensions, integrationId, topologyStream, topologyEpoch,
                              observationStream, observationEpoch).Ok?
    ensures var x := EnableCloudFirst(runtimeProtocols, cloudExtensions, integrationId, topologyStream, topologyEpoch,
                                      observationStream, observationEpoch).value;
      && (RouteForRecord(x, a) == Ok(TopologyUp) <==>
            Names(a, IntegrationTopologySnapshot, topologyStream, topologyEpoch, integrationId))
      && (RouteForRecord(x, a) == Ok(ObservationsUp) <==>
            Names(a, IntegrationObservationBatch, observationStream, observationEpoch, integrationId))
  {
    hide Identifier, Lookup;
  }

  /** An activated extension sends each record on the route of its own stream, and never shares a stream. */
  lemma RoutesFollowStreams(runtimeProtocols: seq<string>, cloudExtensions: seq<string>, integrationId: string,
                            topologyStream: string, topologyEpoch: nat, observationStream: string,
                            observationEpoch: nat, a: Record, b: Record)
    requires EnableCloudFirst(runtimeProtocols, cloudExtensions, integrationId, topologyStream, topologyEpoch,
                              observationStream, observationEpoch).Ok?
    ensures var x := EnableCloudFirst(runtimeProtocols, cloudExtensions, integrationId, topologyStream, topologyEpoch,
                                      observationStream, observationEpoch).value;
      RouteForRecord(x, a).Ok? && RouteForRecord(x, b).Ok? ==>
        && (RouteForRecord(x, a) == RouteForRecord(x, b) <==> a.identity.streamId == b.identity.streamId)
        && (a.identity.streamId == b.identity.streamId ==>
          a.identity.streamEpoch == b.identity.streamEpoch && a.content.kind == b.content.kind)
        && EXTENSION in runtimeProtocols && EXTENSION in cloudExtensions
  {}

  // ---------------------------------------------------------------- partition identities

  function IdentityText(b: Batch): string { b.integrationId + "\0" + b.generation + "\0" + b.batchId }

  function PartitionIdentityHash(rules: Rules, b: Batch): (hash: string)
    ensures |hash| == 16 && forall i :: 0 <= i < 16 ==> LowerHex(hash[i])
  {
    var eight := rules.sha256(IdentityText(b))[..8];
    HexTextIsLowerHex(eight);
    HexText(eight)
  }

  function Suffix(index: nat, hash: string): string { "-part-" + Print(index) + "-" + hash }

  function SaturatingSub(a: nat, b: nat): nat { if a >= b then a - b else 0 }

  function Min(a: nat, b: nat): nat { if a <= b then a else b }

  function PartitionBatchId(original: string, index: nat, hash: string): string {
    var suffix := Suffix(index, hash);
    original[..Min(|original|, SaturatingSub(128, |suffix|))] + suffix
  }

  predicate HashText(hash: string) { |hash| == 16 && forall i :: 0 <= i < 16 ==> LowerHex(hash[i]) }

  lemma {:induction false} PrintLengthMonotone(i: nat, j: nat)
    requires i <= j
    ensures |Print(i)| <= |Print(j)|
  {
    if i >= 10 {
      PrintLengthMonotone(i / 10, j / 10);
    }
  }

  lemma DigitsOfIndex(index: nat)
    requires index <= MAX_PARTITIONS
    ensures |Print(index)| <= 5
  {
    PrintLengthMonotone(index, 65_536);
    assert Print(65_536) == "65536" by {
      assert Print(6) == "6" && Print(65) == "65";
      assert Print(655) == "655";
      assert Print(6553) == "6553";
    }
  }

  lemma SuffixChars(index: nat, hash: string)
    requires HashText(hash)
    ensures |Suffix(index, hash)| == 23 + |Print(index)|
    ensures forall i :: 0 <= i < |Suffix(index, hash)| ==> IdentifierChar(Suffix(index, hash)[i])
  {
    var p := Print(index);
    forall i | 0 <= i < |p| ensures IdentifierChar(p[i]) { assert IsDigit(p[i]); }
    assert forall i :: 0 <= i < 6 ==> IdentifierChar("-part-"[i]);
  }

  /** Every partition id within the partition limit is a valid identifier of at most 128 bytes. */
  lemma PartitionIdValid(original: string, index: nat, hash: string)
    requires HashText(hash) && Identifier(original, 128) && index <= MAX_PARTITIONS
    ensures Identifier(PartitionBatchId(original, index, hash), 128)
  {
    SuffixChars(index, hash);
    DigitsOfIndex(index);
    var id := PartitionBatchId(original, index, hash);
    var suffix := Suffix(index, hash);
    var n := |id| - |suffix|;
    forall i | 0 < i < |id| ensures IdentifierChar(id[i]) {
      if i < n {
        assert id[i] == original[i];
      } else {
        assert id[i] == suffix[i - n];
      }
    }
    assert id[0] == original[0];
  }

  lemma SuffixFromTheEnd(index: nat, hash: string, k: nat)
    requires HashText(hash) && k <= |Print(index)|
    ensures var s := Suffix(index, hash);
      && |s| == 23 + |Print(index)|
      && s[|s| - 18 - k] == if k < |Print(index)| then Print(index)[|Print(index)| - 1 - k] else '-'
  {
    var s := Suffix(index, hash);
    var digits := Print(index);
    assert s == "-part-" + (digits + ("-" + hash));
    assert |s| - 18 - k == 5 + |digits| - k;
  }

  lemma FromTheEnd(original: string, index: nat, hash: string, k: nat)
    requires HashText(hash) && k <= |Print(index)|
    ensures var id := PartitionBatchId(original, index, hash);
      && |id| >= 18 + |Print(index)|
      && id[|id| - 18 - k] == if k < |Print(index)| then Print(index)[|Print(index)| - 1 - k] else '-'
  {
    hide Suffix, Print;
    SuffixFromTheEnd(index, hash, k);
    var id := PartitionBatchId(original, index, hash);
    var suffix := Suffix(index, hash);
    assert id[|id| - |suffix|..] == suffix;
    assert id[|id| - 18 - k] == suffix[|suffix| - 18 - k];
  }

  /** Distinct indices give distinct ids, however much of the original each one keeps. */
  lemma PartitionIdsDistinct(original: string, i: nat, j: nat, hash: string)
    requires HashText(hash) && PartitionBatchId(original, i, hash) == PartitionBatchId(original, j, hash)
    ensures i == j
  {
    var p, q := Print(i), Print(j);
    if |p| < |q| {
      NoDash(q, |q| - 1 - |p|);
      FromTheEnd(original, i, hash, |p|);
      FromTheEnd(original, j, hash, |p|);
    } else if |q| < |p| {
      NoDash(p, |p| - 1 - |q|);
      FromTheEnd(original, i, hash, |q|);
      FromTheEnd(original, j, hash, |q|);
    } else {
      forall k | 0 <= k < |p| ensures p[k] == q[k] {
        FromTheEnd(original, i, hash, |p| - 1 - k);
        FromTheEnd(original, j, hash, |p| - 1 - k);
      }
      assert p == q;
      PrintIsNumeral(i);
      PrintIsNumeral(j);
    }
  }

  lemma NoDash(digits: string, k: nat)
    requires AllDigits(digits) && k < |digits|
    ensures digits[k] != '-'
  {
    assert IsDigit(digits[k]);
  }

  /** A part's id is as much of the original as fits in 128 bytes, then the index and the hash. */
  lemma PartitionIdShape(original: string, index: nat, hash: string)
    requires HashText(hash) && index <= MAX_PARTITIONS
    ensures var id, suffix := PartitionBatchId(original, index, hash), "-part-" + Print(index) + "-" + hash;
            var kept := |id| - |suffix|;
      && 0 <= kept <= |original| && id == original[..kept] + suffix && |id| <= 128
      && (kept < |original| ==> |id| == 128)
  {
    hide Print;
    SuffixChars(index, hash);
    DigitsOfIndex(index);
  }

  lemma SplitAtNul(a: string, x: string, b: string, y: string)
    requires a + "\0" + x == b + "\0" + y && '\0' !in a && '\0' !in b
    ensures a == b && x == y
  {
    var s, t := a + "\0" + x, b + "\0" + y;
    assert s[|a|] == '\0' && t[|b|] == '\0';
    assert (forall i :: 0 <= i < |a| ==> s[i] == a[i]) && (forall i :: 0 <= i < |b| ==> t[i] == b[i]);
    assert a == s[..|a|] && b == t[..|b|];
    assert x == s[|a| + 1..] && y == t[|b| + 1..];
  }

  lemma NoNul(b: Batch)
    requires ValidBatch(b)
    ensures '\0' !in b.integrationId && '\0' !in b.generation
  {
    hide ValidObservation;
    U64SpellingsUnique(b.generation, ContractU64(b.generation).value);
    forall i | 0 <= i < |b.generation| ensures b.generation[i] != '\0' { assert IsDigit(b.generation[i]); }
  }

  lemma IdentityTextUnique(a: Batch, b: Batch)
    requires ValidBatch(a) && ValidBatch(b) && IdentityText(a) == IdentityText(b)
    ensures a.integrationId == b.integrationId && a.generation == b.generation && a.batchId == b.batchId
  {
    hide ValidBatch;
    NoNul(a);
    NoNul(b);
    var x, y := a.generation + "\0" + a.batchId, b.generation + "\0" + b.batchId;
    assert IdentityText(a) == a.integrationId + "\0" + x && IdentityText(b) == b.integrationId + "\0" + y;
    SplitAtNul(a.integrationId, x, b.integrationId, y);
    SplitAtNul(a.generation, a.batchId, b.generation, b.batchId);
  }

  lemma IdEndsWithHash(original: string, index: nat, hash: string)
    requires HashText(hash)
    ensures var id := PartitionBatchId(original, index, hash); |id| >= 16 && id[|id| - 16..] == hash
  {
    hide Print;
    var suffix := Suffix(index, hash);
    assert suffix[|suffix| - 16..] == hash;
    var id := PartitionBatchId(original, index, hash);
    assert id[|id| - |suffix|..] == suffix;
    assert id[|id| - 16..] == suffix[|suffix| - 16..];
  }

  /** Parts of different batches have different ids, if the first eight bytes of the hash tell the batches apart. */
  lemma PartIdsOfOtherBatches(rules: Rules, a: Batch, b: Batch, i: nat, j: nat)
    requires ValidBatch(a) && ValidBatch(b)
    requires a.integrationId != b.integrationId || a.generation != b.generation || a.batchId != b.batchId
    requires var x, y := IdentityText(a), IdentityText(b); x != y ==> rules.sha256(x)[..8] != rules.sha256(y)[..8]
    ensures PartId(rules, a, i) != PartId(rules, b, j)
  {
    hide ValidBatch, IdentityText, PartitionBatchId, HexText;
    var x, y := PartitionIdentityHash(rules, a), PartitionIdentityHash(rules, b);
    IdEndsWithHash(a.batchId, i, x);
    IdEndsWithHash(b.batchId, j, y);
    if x == y { HexTextUnique(rules.sha256(IdentityText(a))[..8], rules.sha256(IdentityText(b))[..8]); }
    if IdentityText(a) == IdentityText(b) { IdentityTextUnique(a, b); }
  }

  // ---------------------------------------------------------------- the exact size of a part

  const KIND: Kind := IntegrationObservationBatch

  function SubBatch(b: Batch, id: string, observations: seq<Observation>): Batch {
    Batch(SCHEMA, b.integrationId, b.generation, id, b.observedAt, observations)
  }

  function PartId(rules: Rules, b: Batch, k: nat): string {
    PartitionBatchId(b.batchId, k, PartitionIdentityHash(rules, b))
  }

  function BaseSize(rules: Rules, b: Batch, includeExpiry: bool, k: nat): nat {
    var id := PartId(rules, b, k);
    MaximumEnvelopeSize(KIND, id, PayloadJson(SubBatch(b, id, []), []), includeExpiry)
  }

  function Sizes(observations: seq<Observation>): (sizes: seq<nat>)
    ensures |sizes| == |observations|
    ensures forall i :: 0 <= i < |sizes| ==> sizes[i] == Size(ObservationJson(observations[i]))
  {
    seq(|observations|, i requires 0 <= i < |observations| => Size(ObservationJson(observations[i])))
  }

  /** Splitting the batch as a packing problem: what each observation costs and what each part costs empty. */
  function SplitProblem(rules: Rules, b: Batch, includeExpiry: bool): (p: Problem)
    ensures |p.sizes| == |b.observations| && p.limit == MAX_MESSAGE_BYTES
  {
    Problem(Sizes(b.observations), k => BaseSize(rules, b, includeExpiry, k), MAX_MESSAGE_BYTES)
  }

  /** The worst-case size follows the payload's size byte for byte, and covers the payload. */
  lemma WorstSizeFollowsPayload(id: string, p: Json, q: Json, includeExpiry: bool)
    ensures MaximumEnvelopeSize(KIND, id, p, includeExpiry) + Size(q) == MaximumEnvelopeSize(KIND, id, q, includeExpiry)
      + Size(p)
    ensures Size(p) <= MaximumEnvelopeSize(KIND, id, p, includeExpiry)
  {
    hide QuotedSize, RecordMembers, MembersWeight, WorstDescriptor, WorstAuthentication;
    var w := WorstEnvelope(KIND, id, p, includeExpiry);
    RecordReplace(ENVELOPE_FIELDS, EnvelopeValues(w), 13, q);
    assert EnvelopeValues(w)[13 := Some(q)] == EnvelopeValues(WorstEnvelope(KIND, id, q, includeExpiry));
  }

  lemma SmallWeights(v: Json)
    ensures ItemsWeight([]) == 0 && ItemsWeight([v]) == Size(v) + 1
  {
    assert [v][1..] == [];
  }

  lemma {:induction false} SpanIsWeight(observations: seq<Observation>, from: nat, to: nat)
    requires from <= to <= |observations|
    ensures Span(Sizes(observations), from, to) == ItemsWeight(ObservationJsons(observations[from..to]))
  {
    hide Size, ObservationJson, ItemsWeight;
    var items := ObservationJsons(observations[from..to]);
    if from < to {
      SpanIsWeight(observations, from, to - 1);
      var last := ObservationJson(observations[to - 1]);
      assert items == ObservationJsons(observations[from..to - 1]) + [last];
      ItemsWeightConcat(ObservationJsons(observations[from..to - 1]), [last]);
      SmallWeights(last);
    } else {
      SmallWeights(Null);
      assert items == [];
    }
  }

  function Part(rules: Rules, b: Batch, k: nat, from: nat, to: nat): Batch
    requires from <= to <= |b.observations|
  {
    SubBatch(b, PartId(rules, b, k), b.observations[from..to])
  }

  /** The running size of the splitter is the exact worst-case envelope size of the part so far. */
  lemma PartSizeIsExact(rules: Rules, b: Batch, includeExpiry: bool, k: nat, from: nat, to: nat)
    requires from <= to <= |b.observations|
    ensures PartSize(SplitProblem(rules, b, includeExpiry), k, from, to)
         == MaximumEnvelopeSize(KIND, PartId(rules, b, k), BatchJson(Part(rules, b, k, from, to)), includeExpiry)
  {
    hide QuotedSize, RecordMembers, MembersWeight, WorstEnvelope, RecordJson, ItemsWeight, Span, PartitionBatchId;
    var id := PartId(rules, b, k);
    var empty := SubBatch(b, id, []);
    var items := ObservationJsons(b.observations[from..to]);
    SpanIsWeight(b.observations, from, to);
    PayloadSize(empty, items);
    assert BatchValues(empty, items) == BatchValues(Part(rules, b, k, from, to), items);
    WorstSizeFollowsPayload(id, PayloadJson(empty, []), BatchJson(Part(rules, b, k, from, to)), includeExpiry);
    if from < to { SpanPositive(Sizes(b.observations), from, to); }
  }

  lemma SpanPositive(sizes: seq<nat>, from: nat, to: nat)
    requires from < to <= |sizes|
    ensures Span(sizes, from, to) > 0
  {}

  // ---------------------------------------------------------------- one observation always fits

  const BASE_CAP: nat := 2 + (5_798 + 6 * MAX_NAME + 4) * 14

  lemma DescriptorBounded(batchId: string)
    requires |batchId| <= 128
    ensures Size(DescriptorJson(WorstDescriptor(batchId))) <= 4_832
  {
    hide QuotedSize, RecordMembers, MembersWeight;
    var d := WorstDescriptor(batchId);
    NameBounded(d.streamId, 128);
    NameBounded(d.streamEpoch, 128);
    NameBounded(d.batchId, 128);
    NameBounded(d.digest, 128);
    RecordBounded(DESCRIPTOR_FIELDS,
                  [Field(d.streamId), Field(d.streamEpoch), Field(d.position), Field(d.batchId), Field(d.digest)], 770,
                  0, 5);
  }

  lemma AuthenticationBounded()
    ensures Size(AuthenticationJson(WorstAuthentication())) <= 4_832
  {
    hide QuotedSize, RecordMembers, MembersWeight;
    var a := WorstAuthentication();
    NameBounded(a.keyId, 128);
    NameBounded(a.algorithm, 128);
    NameBounded(a.signature, 128);
    RecordBounded(AUTHENTICATION_FIELDS, [Field(a.keyId), Field(a.algorithm), Field(a.signature)], 770, 0, 3);
  }

  predicate ShortStrings(e: Envelope) {
    && |e.schema| <= 128 && |e.protocol| <= 128 && |e.protocolVersion| <= 128 && |e.gatewayId| <= 128
    && |e.sessionId| <= 128 && |e.sessionEpoch| <= 128 && |e.credentialGeneration| <= 128 && |e.sentAt| <= 128
    && (e.expiresAt.Some? ==> |e.expiresAt.value| <= 128) && (e.traceparent.Some? ==> |e.traceparent.value| <= 128)
  }

  lemma EnvelopeBounded(e: Envelope)
    requires ShortStrings(e) && Size(DescriptorJson(e.delivery)) <= 5_798 && Size(e.payload) <= 5_798
    requires e.authentication.Some? ==> Size(AuthenticationJson(e.authentication.value)) <= 5_798
    ensures Size(EnvelopeJson(e)) <= BASE_CAP
  {
    hide QuotedSize, RecordMembers, MembersWeight, DescriptorJson, AuthenticationJson;
    NameBounded(e.schema, 128);
    NameBounded(e.protocol, 128);
    NameBounded(e.protocolVersion, 128);
    NameBounded(KindName(e.kind), 128);
    NameBounded(e.gatewayId, 128);
    NameBounded(e.sessionId, 128);
    NameBounded(e.sessionEpoch, 128);
    NameBounded(e.credentialGeneration, 128);
    NameBounded(e.sentAt, 128);
    if e.expiresAt.Some? { NameBounded(e.expiresAt.value, 128); }
    if e.traceparent.Some? { NameBounded(e.traceparent.value, 128); }
    RecordBounded(ENVELOPE_FIELDS, EnvelopeValues(e), 5_798, 0, 14);
  }

  lemma BaseBounded(rules: Rules, b: Batch, includeExpiry: bool, k: nat)
    requires ValidBatch(b) && k <= MAX_PARTITIONS
    ensures BaseSize(rules, b, includeExpiry, k) <= BASE_CAP
  {
    hide QuotedSize, RecordMembers, MembersWeight, DescriptorJson, AuthenticationJson, PartitionBatchId, RecordJson;
    var id := PartId(rules, b, k);
    PartitionIdValid(b.batchId, k, PartitionIdentityHash(rules, b));
    EmptyPayloadBounded(SubBatch(b, id, []));
    DescriptorBounded(id);
    AuthenticationBounded();
    EnvelopeBounded(WorstEnvelope(KIND, id, PayloadJson(SubBatch(b, id, []), []), includeExpiry));
  }

  /** In a validated batch every observation fits alone in any part, so the splitter is never stuck. */
  lemma AnyObservationFits(rules: Rules, b: Batch, includeExpiry: bool, k: nat, at: nat)
    requires ValidBatch(b) && k <= MAX_PARTITIONS && at < |b.observations|
    ensures Fits(SplitProblem(rules, b, includeExpiry), k, at, at + 1)
    ensures BaseSize(rules, b, includeExpiry, k) <= MAX_MESSAGE_BYTES
    ensures Size(ObservationJson(b.observations[at])) <= OBSERVATION_CAP
  {
    hide BaseSize, ObservationJson, ValidObservation;
    BaseBounded(rules, b, includeExpiry, k);
    ObservationBounded(b.observations[at]);
    OneItemSpan(Sizes(b.observations), at);
  }

  lemma OneItemSpan(sizes: seq<nat>, at: nat)
    requires at < |sizes|
    ensures Span(sizes, at, at + 1) == sizes[at] + 1
  {
    assert Span(sizes, at, at) == 0;
  }

  // ---------------------------------------------------------------- the splitter

  /** The strict decoder accepts the canonical text of a batch exactly when the batch is valid and within the 16 MiB
      bound of the Integration contract. */
  ghost predicate DecodesBatches(rules: Rules) {
    forall b: Batch :: rules.acceptsPayload(KIND, BatchJson(b)) <==>
      ValidBatch(b) && Size(BatchJson(b)) <= MAX_INTEGRATION_BYTES
  }

  predicate ExpiresInTime(createdAt: nat, expiresAt: Option<nat>) { expiresAt.Some? ==> expiresAt.value >= createdAt }

  function Sealed(rules: Rules, b: Batch, createdAt: nat, expiresAt: Option<nat>): Enqueue {
    Enqueue(KIND, b.batchId, BusinessDigest(rules, KIND, BatchJson(b)), BatchJson(b), createdAt, expiresAt)
  }

  lemma BatchIdIsBound(b: Batch)
    ensures BatchBound(KIND, b.batchId, BatchJson(b))
  {
    hide BatchJson;
    BatchReads(b);
  }

  /** When sealing one batch succeeds. */
  lemma SealingOne(rules: Rules, b: Batch, createdAt: nat, expiresAt: Option<nat>)
    requires DecodesBatches(rules) && ValidBatch(b) && Size(BatchJson(b)) <= MAX_INTEGRATION_BYTES
    ensures var worst := MaximumEnvelopeSize(KIND, b.batchId, BatchJson(b), expiresAt.Some?);
      PrepareIntegrationValue(rules, KIND, b.batchId, BatchJson(b), createdAt, expiresAt) ==
        if worst > MAX_MESSAGE_BYTES then Err(MessageTooLarge(worst))
        else if !ExpiresInTime(createdAt, expiresAt) then Err(InvalidField("expires_at_ms"))
        else Ok(Sealed(rules, b, createdAt, expiresAt))
  {
    hide BatchBound, BusinessDigest, WorstEnvelope, RecordJson, EnvelopeJson;
    assert rules.acceptsPayload(KIND, BatchJson(b));
    BatchIdIsBound(b);
    WorstSizeFollowsPayload(b.batchId, BatchJson(b), BatchJson(b), expiresAt.Some?);
  }

  lemma PartIsValid(rules: Rules, b: Batch, t: Topology, k: nat, from: nat, to: nat)
    requires ValidAgainst(b, t) && k <= MAX_PARTITIONS && from < to <= |b.observations|
    ensures ValidAgainst(Part(rules, b, k, from, to), t)
  {
    hide ValidObservation, Declared, PartitionBatchId;
    PartitionIdValid(b.batchId, k, PartitionIdentityHash(rules, b));
  }

  predicate PartSealed(rules: Rules, b: Batch, createdAt: nat, expiresAt: Option<nat>, ends: seq<nat>,
                       out: seq<Enqueue>, i: nat)
    requires i < |ends| && i < |out|
  {
    && Start(ends, i) <= ends[i] <= |b.observations|
    && out[i] == Sealed(rules, Part(rules, b, i + 1, Start(ends, i), ends[i]), createdAt, expiresAt)
  }

  predicate PartsSealed(rules: Rules, b: Batch, createdAt: nat, expiresAt: Option<nat>, ends: seq<nat>,
                        out: seq<Enqueue>) {
    |out| == |ends| && forall i :: 0 <= i < |ends| ==> PartSealed(rules, b, createdAt, expiresAt, ends, out, i)
  }

  /** The inner loop: takes observations while the part stays within the limit. */
  method FillPart(ghost p: Problem, ghost k: nat, base: nat, items: seq<Json>, from: nat, usizeMax: nat)
    returns (to: nat, current: seq<Json>, tooLarge: bool, found: nat)
    requires |items| == |p.sizes| && from < |items| && base == p.base(k) <= p.limit == MAX_MESSAGE_BYTES
    requires forall i :: 0 <= i < |items| ==> Size(items[i]) == p.sizes[i] <= OBSERVATION_CAP
    requires usizeMax >= 0xFFFF_FFFF
    ensures tooLarge <==> !Fits(p, k, from, from + 1)
    ensures !tooLarge ==>
      from < to <= |items| && current == items[from..to] && Fits(p, k, from, to)
      && (to < |items| ==> !Fits(p, k, from, to + 1))
  {
    hide Size;
    to, current, tooLarge, found := from, [], false, 0;
    var size := base;
    while to < |items|
      invariant from <= to <= |items| && current == items[from..to]
      invariant size == PartSize(p, k, from, to) <= p.limit
      invariant to > from ==> Fits(p, k, from, from + 1)
    {
      var separator := if current == [] then 0 else 1;
      var next := size + separator + Size(items[to]);
      NextSize(p, k, from, to);
      if next > usizeMax {
        return to, current, true, usizeMax;
      }
      if next > MAX_MESSAGE_BYTES {
        if current == [] {
          return to, current, true, next;
        }
        return;
      }
      current := current + [items[to]];
      size := next;
      to := to + 1;
    }
  }

  lemma NextSize(p: Problem, k: nat, from: nat, to: nat)
    requires from <= to < |p.sizes|
    ensures PartSize(p, k, from, to + 1) == PartSize(p, k, from, to) + (if from < to then 1 else 0) + p.sizes[to]
  {
    if from < to { SpanPositive(p.sizes, from, to); } else { OneItemSpan(p.sizes, to); }
  }

  /** `prepare_topology`: `payload` is the encoded topology. */
  function PrepareTopology(x: Extension, rules: Rules, t: Topology, payload: Json, createdAt: nat,
                           expiresAt: Option<nat>): Result<Enqueue, Error>
  {
    if t.integrationId != x.integrationId then Err(StreamBindingConflict)
    else
      PrepareIntegrationValue(rules, IntegrationTopologySnapshot, "topology-" + t.generation, payload, createdAt,
                              expiresAt)
  }

  lemma TopologyIdValid(t: Topology)
    requires ContractU64(t.generation).Ok?
    ensures Identifier("topology-" + t.generation, 128)
  {
    U64SpellingsUnique(t.generation, ContractU64(t.generation).value);
    var id := "topology-" + t.generation;
    forall i | 0 < i < |id| ensures IdentifierChar(id[i]) {
      if i >= 9 { assert id[i] == t.generation[i - 9] && IsDigit(t.generation[i - 9]); }
    }
  }

  /** A snapshot is sealed whole or not at all: exactly if it is of this integration, its payload is accepted, its
      worst-case envelope fits and it expires in time. The binding of its id to its generation never refuses it. */
  lemma TopologySealedIff(x: Extension, rules: Rules, t: Topology, payload: Json, createdAt: nat,
                          expiresAt: Option<nat>)
    requires ContractU64(t.generation).Ok? && Lookup(payload, "snapshot_generation") == Some(Str(t.generation))
    ensures var r, id := PrepareTopology(x, rules, t, payload, createdAt, expiresAt), "topology-" + t.generation;
      && (r.Ok? <==>
            && t.integrationId == x.integrationId && ExpiresInTime(createdAt, expiresAt)
            && rules.acceptsPayload(IntegrationTopologySnapshot, payload)
            && MaximumEnvelopeSize(IntegrationTopologySnapshot, id, payload, expiresAt.Some?) <= MAX_MESSAGE_BYTES)
      && (r.Ok? ==>
            var digest := BusinessDigest(rules, IntegrationTopologySnapshot, payload);
            r.value == Enqueue(IntegrationTopologySnapshot, id, digest, payload, createdAt, expiresAt))
  {
    hide Identifier, BusinessDigest, WorstEnvelope, EnvelopeJson, Lookup;
    TopologyIdValid(t);
    TopologyCovered("topology-" + t.generation, payload, expiresAt.Some?);
  }

  lemma TopologyCovered(id: string, payload: Json, includeExpiry: bool)
    ensures Size(payload) <= MaximumEnvelopeSize(IntegrationTopologySnapshot, id, payload, includeExpiry)
  {
    hide QuotedSize, RecordMembers, MembersWeight, WorstDescriptor, WorstAuthentication;
    var w := WorstEnvelope(IntegrationTopologySnapshot, id, payload, includeExpiry);
    RecordReplace(ENVELOPE_FIELDS, EnvelopeValues(w), 13, payload);
  }

  predicate Admissible(x: Extension, t: Topology, b: Batch, createdAt: nat, expiresAt: Option<nat>) {
    && t.integrationId == x.integrationId == b.integrationId
    && ValidAgainst(b, t) && Size(BatchJson(b)) <= MAX_INTEGRATION_BYTES
    && ExpiresInTime(createdAt, expiresAt)
  }

  /** Sealing succeeds for exactly the admissible batches. A batch whose worst-case envelope fits is sealed whole; any
      other is cut into full parts that cover it. Neither the size error nor the partition limit is ever met. `ends`
      tells where the parts end. */
  method PrepareObservationBatches(x: Extension, rules: Rules, t: Topology, b: Batch, createdAt: nat,
                                   expiresAt: Option<nat>, usizeMax: nat)
    returns (r: Result<seq<Enqueue>, Error>, ghost ends: seq<nat>)
    requires DecodesBatches(rules) && usizeMax >= 0xFFFF_FFFF
    ensures r.Ok? <==> Admissible(x, t, b, createdAt, expiresAt)
    ensures r.Ok? && MaximumEnvelopeSize(KIND, b.batchId, BatchJson(b), expiresAt.Some?) <= MAX_MESSAGE_BYTES ==>
      r.value == [Sealed(rules, b, createdAt, expiresAt)]
    ensures r.Ok? && MaximumEnvelopeSize(KIND, b.batchId, BatchJson(b), expiresAt.Some?) > MAX_MESSAGE_BYTES ==>
      var p := SplitProblem(rules, b, expiresAt.Some?);
      Complete(p, ends) && Full(p, ends) && PartsSealed(rules, b, createdAt, expiresAt, ends, r.value)
    ensures r.Err? ==> !r.error.MessageTooLarge?
  {
    hide ValidAgainst, BatchJson, MaximumEnvelopeSize, BusinessDigest, Size, PartitionIdentityHash, Fits,
         PrepareIntegrationValue, DecodesBatches;
    ends := [];
    if t.integrationId != x.integrationId { return Err(StreamBindingConflict), ends; }
    if b.integrationId != x.integrationId { return Err(StreamBindingConflict), ends; }
    if !ValidAgainst(b, t) { return Err(ContractRejected), ends; }
    if Size(BatchJson(b)) > MAX_INTEGRATION_BYTES { return Err(ContractRejected), ends; }
    ValidAgainstIsValid(b, t);
    SealingOne(rules, b, createdAt, expiresAt);
    var whole := PrepareIntegrationValue(rules, KIND, b.batchId, BatchJson(b), createdAt, expiresAt);
    if whole.Ok? { return Ok([whole.value]), ends; }
    if !whole.error.MessageTooLarge? { return Err(whole.error), ends; }
    r, ends := SplitBatch(rules, t, b, createdAt, expiresAt, usizeMax);
  }

  lemma ValidAgainstIsValid(b: Batch, t: Topology)
    requires ValidAgainst(b, t)
    ensures ValidBatch(b)
  {}

  predicate SplitSoFar(rules: Rules, b: Batch, createdAt: nat, expiresAt: Option<nat>, ends: seq<nat>,
                       out: seq<Enqueue>, cursor: nat) {
    var p := SplitProblem(rules, b, expiresAt.Some?);
    ValidParts(p, ends) && Full(p, ends) && cursor == Start(ends, |ends|)
      && PartsSealed(rules, b, createdAt, expiresAt, ends, out)
  }

  lemma FirstFits(rules: Rules, b: Batch, includeExpiry: bool, k: nat, at: nat)
    requires ValidBatch(b) && k <= MAX_PARTITIONS && at < |b.observations|
    ensures BaseSize(rules, b, includeExpiry, k) <= MAX_MESSAGE_BYTES
    ensures Fits(SplitProblem(rules, b, includeExpiry), k, at, at + 1)
    ensures forall i :: 0 <= i < |b.observations| ==> Sizes(b.observations)[i] <= OBSERVATION_CAP
  {
    hide BaseSize, ObservationJson, ValidObservation, Fits;
    forall i | 0 <= i < |b.observations| ensures Sizes(b.observations)[i] <= OBSERVATION_CAP {
      AnyObservationFits(rules, b, includeExpiry, k, i);
    }
    AnyObservationFits(rules, b, includeExpiry, k, at);
  }

  lemma PartSeals(rules: Rules, b: Batch, t: Topology, createdAt: nat, expiresAt: Option<nat>, k: nat, from: nat,
                  to: nat)
    requires DecodesBatches(rules) && ValidAgainst(b, t) && k <= MAX_PARTITIONS && from < to <= |b.observations|
    requires Fits(SplitProblem(rules, b, expiresAt.Some?), k, from, to)
    ensures var part := Part(rules, b, k, from, to);
      && ValidAgainst(part, t) && Size(BatchJson(part)) <= MAX_INTEGRATION_BYTES
      && PrepareIntegrationValue(rules, KIND, part.batchId, BatchJson(part), createdAt, expiresAt) ==
           if ExpiresInTime(createdAt, expiresAt) then Ok(Sealed(rules, part, createdAt, expiresAt))
           else Err(InvalidField("expires_at_ms"))
  {
    hide ValidAgainst, BatchJson, MaximumEnvelopeSize, Size, PrepareIntegrationValue, DecodesBatches, Sealed, PartId,
         BaseSize;
    var part := Part(rules, b, k, from, to);
    PartIsValid(rules, b, t, k, from, to);
    PartSizeIsExact(rules, b, expiresAt.Some?, k, from, to);
    WorstSizeFollowsPayload(part.batchId, BatchJson(part), BatchJson(part), expiresAt.Some?);
    ValidAgainstIsValid(part, t);
    SealingOne(rules, part, createdAt, expiresAt);
  }

  lemma NextPart(rules: Rules, b: Batch, createdAt: nat, expiresAt: Option<nat>, ends: seq<nat>, out: seq<Enqueue>,
                 to: nat)
    requires var p := SplitProblem(rules, b, expiresAt.Some?);
      && SplitSoFar(rules, b, createdAt, expiresAt, ends, out, Start(ends, |ends|))
      && Start(ends, |ends|) < to <= |b.observations| && Fits(p, |ends| + 1, Start(ends, |ends|), to)
      && (to < |b.observations| ==> !Fits(p, |ends| + 1, Start(ends, |ends|), to + 1))
    ensures var sealed := Sealed(rules, Part(rules, b, |ends| + 1, Start(ends, |ends|), to), createdAt, expiresAt);
      SplitSoFar(rules, b, createdAt, expiresAt, ends + [to], out + [sealed], to)
  {
    hide Fits, Sealed, BaseSize;
    var p := SplitProblem(rules, b, expiresAt.Some?);
    OneMorePart(p, ends, to);
    var at := Start(ends, |ends|);
    var ends', out' := ends + [to], out + [Sealed(rules, Part(rules, b, |ends| + 1, at, to), createdAt, expiresAt)];
    assert ends'[..|ends|] == ends;
    forall i | 0 <= i < |ends'| ensures PartSealed(rules, b, createdAt, expiresAt, ends', out', i) {
      StartOfPrefix(ends', |ends|, if i < |ends| then i else |ends|);
      if i < |ends| { assert PartSealed(rules, b, createdAt, expiresAt, ends, out, i); }
    }
  }

  lemma NothingYet(rules: Rules, b: Batch, createdAt: nat, expiresAt: Option<nat>)
    ensures SplitSoFar(rules, b, createdAt, expiresAt, [], [], 0)
  {}

  lemma PayloadOfPart(b: Batch, id: string, from: nat, to: nat)
    requires from <= to <= |b.observations|
    ensures var part := SubBatch(b, id, b.observations[from..to]);
      PayloadJson(part, ObservationJsons(b.observations)[from..to]) == BatchJson(part)
  {
    hide ObservationJson;
    assert ObservationJsons(b.observations)[from..to] == ObservationJsons(b.observations[from..to]);
  }

  /** The outer loop of the splitter. */
  method SplitBatch(rules: Rules, t: Topology, b: Batch, createdAt: nat, expiresAt: Option<nat>, usizeMax: nat)
    returns (r: Result<seq<Enqueue>, Error>, ghost ends: seq<nat>)
    requires DecodesBatches(rules) && usizeMax >= 0xFFFF_FFFF
    requires ValidAgainst(b, t) && Size(BatchJson(b)) <= MAX_INTEGRATION_BYTES
    ensures r.Ok? <==> ExpiresInTime(createdAt, expiresAt)
    ensures r.Err? ==> !r.error.MessageTooLarge?
    ensures r.Ok? ==>
      var p := SplitProblem(rules, b, expiresAt.Some?);
      Complete(p, ends) && Full(p, ends) && PartsSealed(rules, b, createdAt, expiresAt, ends, r.value)
  {
    hide ValidAgainst, BatchJson, Size, PartitionIdentityHash, Fits, PrepareIntegrationValue, DecodesBatches, BaseSize,
         Sealed, ObservationJson, ExpiresInTime, Full, ValidParts, PartsSealed, PartId, MaximumEnvelopeSize;
    ValidAgainstIsValid(b, t);
    ghost var p := SplitProblem(rules, b, expiresAt.Some?);
    var items := ObservationJsons(b.observations);
    var prepared: seq<Enqueue> := [];
    var cursor := 0;
    ends := [];
    NothingYet(rules, b, createdAt, expiresAt);
    while cursor < |items|
      invariant cursor <= |items| && |prepared| == |ends| <= cursor
      invariant SplitSoFar(rules, b, createdAt, expiresAt, ends, prepared, cursor)
      invariant prepared != [] ==> ExpiresInTime(createdAt, expiresAt)
    {
      var total: nat := |items|;
      if |prepared| >= MAX_PARTITIONS { return Err(MessageTooLarge(total)), ends; }
      var k: nat := |prepared| + 1;
      var base: nat := BaseSize(rules, b, expiresAt.Some?, k);
      FirstFits(rules, b, expiresAt.Some?, k, cursor);
      if base > MAX_MESSAGE_BYTES { return Err(MessageTooLarge(base)), ends; }
      var to, current, tooLarge, found := FillPart(p, k, base, items, cursor, usizeMax);
      if tooLarge { return Err(MessageTooLarge(found)), ends; }
      var part := SubBatch(b, PartId(rules, b, k), b.observations[cursor..to]);
      var payload := PayloadJson(part, current);
      PayloadOfPart(b, part.batchId, cursor, to);
      PartSeals(rules, b, t, createdAt, expiresAt, k, cursor, to);
      if Size(payload) > MAX_INTEGRATION_BYTES || !ValidAgainst(part, t) { return Err(ContractRejected), ends; }
      var sealed := PrepareIntegrationValue(rules, KIND, part.batchId, BatchJson(part), createdAt, expiresAt);
      if sealed.Err? { return Err(sealed.error), ends; }
      NextPart(rules, b, createdAt, expiresAt, ends, prepared, to);
      prepared := prepared + [sealed.value];
      ends := ends + [to];
      cursor := to;
    }
    r := Ok(prepared);
  }

  // ---------------------------------------------------------------- what a split is

  function PartObservations(b: Batch, ends: seq<nat>, i: nat): seq<Observation>
    requires i < |ends| && Start(ends, i) <= ends[i] <= |b.observations|
  {
    Cut(b.observations, ends, i)
  }

  /** A split stated without the splitter: consecutive non-empty parts that cover the batch, each of which fits the
      message bound in its worst-case envelope under the id of its own index. */
  predicate EnvelopeSplit(rules: Rules, b: Batch, includeExpiry: bool, ends: seq<nat>) {
    && Start(ends, |ends|) == |b.observations|
    && forall i :: 0 <= i < |ends| ==> EnvelopeFits(rules, b, includeExpiry, ends, i)
  }

  predicate EnvelopeFits(rules: Rules, b: Batch, includeExpiry: bool, ends: seq<nat>, i: nat)
    requires i < |ends|
  {
    && Start(ends, i) < ends[i] <= |b.observations|
    && MaximumEnvelopeSize(KIND, PartId(rules, b, i + 1), BatchJson(Part(rules, b, i + 1, Start(ends, i), ends[i])),
                           includeExpiry)
       <= MAX_MESSAGE_BYTES
  }

  lemma SplitMeansEnvelopesFit(rules: Rules, b: Batch, includeExpiry: bool, ends: seq<nat>)
    ensures Complete(SplitProblem(rules, b, includeExpiry), ends) <==> EnvelopeSplit(rules, b, includeExpiry, ends)
  {
    hide MaximumEnvelopeSize, BatchJson, PartId, BaseSize, PartSize;
    var p := SplitProblem(rules, b, includeExpiry);
    forall i | 0 <= i < |ends| && Start(ends, i) < ends[i] <= |b.observations|
      ensures PartOk(p, ends, i) <==> EnvelopeFits(rules, b, includeExpiry, ends, i)
    {
      PartSizeIsExact(rules, b, includeExpiry, i + 1, Start(ends, i), ends[i]);
    }
    forall i | 0 <= i < |ends| ensures PartOk(p, ends, i) <==> EnvelopeFits(rules, b, includeExpiry, ends, i) {}
  }

  /** The sealed parts carry the batch's observations: non-empty, in order, none lost, repeated or moved. Each says what
      the batch says in everything but its id and its observations. */
  lemma SplitIsLossless(rules: Rules, b: Batch, createdAt: nat, expiresAt: Option<nat>, ends: seq<nat>,
                        out: seq<Enqueue>)
    returns (parts: seq<seq<Observation>>)
    requires ValidBatch(b) && Complete(SplitProblem(rules, b, expiresAt.Some?), ends)
      && PartsSealed(rules, b, createdAt, expiresAt, ends, out)
    ensures |parts| == |out| && Concat(parts) == b.observations
    ensures forall i :: 0 <= i < |parts| ==> PartSays(rules, b, createdAt, expiresAt, parts, out, i)
  {
    hide BatchJson, PartId, Fits, BaseSize, BusinessDigest;
    var p := SplitProblem(rules, b, expiresAt.Some?);
    forall i | 0 <= i < |ends| ensures Start(ends, i) < ends[i] <= |b.observations| { assert PartOk(p, ends, i); }
    parts := seq(|ends|, i requires 0 <= i < |ends| => PartObservations(b, ends, i));
    forall i | 0 <= i < |ends| ensures CutOk(p, b.observations, ends, parts, i) { assert PartOk(p, ends, i); }
    CutsRejoin(p, b.observations, ends, parts);
    assert b.observations[..|b.observations|] == b.observations;
    forall i | 0 <= i < |parts| ensures PartSays(rules, b, createdAt, expiresAt, parts, out, i) {
      assert PartSealed(rules, b, createdAt, expiresAt, ends, out, i);
    }
  }

  predicate PartSays(rules: Rules, b: Batch, createdAt: nat, expiresAt: Option<nat>, parts: seq<seq<Observation>>,
                     out: seq<Enqueue>, i: nat)
    requires i < |parts| == |out|
  {
    && parts[i] != [] && out[i].kind == IntegrationObservationBatch && out[i].batchId == PartId(rules, b, i + 1)
    && out[i].digest == BusinessDigest(rules, out[i].kind, out[i].payload)
    && out[i].createdAt == createdAt && out[i].expiresAt == expiresAt
    && out[i].payload == BatchJson(b.(batchId := out[i].batchId, observations := parts[i]))
  }

  /** No other cut of the batch under the same ids, each part within the bound, has fewer parts. */
  lemma SplitIsShortest(rules: Rules, b: Batch, includeExpiry: bool, ends: seq<nat>, other: seq<nat>)
    requires var p := SplitProblem(rules, b, includeExpiry); Complete(p, ends) && Full(p, ends)
    requires EnvelopeSplit(rules, b, includeExpiry, other)
    ensures |ends| <= |other|
  {
    SplitMeansEnvelopesFit(rules, b, includeExpiry, other);
    FullIsShortest(SplitProblem(rules, b, includeExpiry), ends, other);
  }

  /** Distinct parts have distinct batch ids. */
  lemma SplitIdsDistinct(rules: Rules, b: Batch, createdAt: nat, expiresAt: Option<nat>, ends: seq<nat>,
                         out: seq<Enqueue>, i: nat, j: nat)
    requires PartsSealed(rules, b, createdAt, expiresAt, ends, out) && i < j < |out|
    ensures out[i].batchId != out[j].batchId
  {
    hide BatchJson, BusinessDigest, PartitionBatchId, PartitionIdentityHash;
    assert PartSealed(rules, b, createdAt, expiresAt, ends, out, i)
      && PartSealed(rules, b, createdAt, expiresAt, ends, out, j);
    if out[i].batchId == out[j].batchId {
      PartitionIdsDistinct(b.batchId, i + 1, j + 1, PartitionIdentityHash(rules, b));
    }
  }
}
