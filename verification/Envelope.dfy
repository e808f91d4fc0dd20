/** Sealing business content, wrapping a retained record for a session, and the size bound that joins them. */
module Envelope {
  import opened Wrappers
  import opened CanonicalJson
  import opened JsonRecords
  import JsonStrings
  import opened Decimals
  import opened CloudLink

  type Hash = s: seq<Byte> | |s| == 32 witness ZeroHash()

  function ZeroHash(): seq<Byte> { seq(32, i => 0) }

  /** The code this model does not open: SHA-256, and the per-kind payload decoders. */
  datatype Rules = Rules(sha256: string -> Hash, acceptsPayload: (Kind, Json) -> bool)

  // ---------------------------------------------------------------- sealing

  function HexText(bytes: seq<Byte>): string {
    if bytes == [] then "" else [HEX[bytes[0] / 16], HEX[bytes[0] % 16]] + HexText(bytes[1..])
  }

  /** Two hexadecimal digits for each byte, the high one first. */
  lemma {:induction false} HexTextSays(bytes: seq<Byte>, i: nat)
    requires i < |bytes|
    ensures |HexText(bytes)| == 2 * |bytes|
    ensures var high := JsonStrings.HexValue(HexText(bytes)[2 * i]);
            var low := JsonStrings.HexValue(HexText(bytes)[2 * i + 1]);
      high.Some? && low.Some? && high.value * 16 + low.value == bytes[i]
  {
    HexTextIsLowerHex(bytes);
    if i == 0 {
      JsonStrings.HexReads(bytes[0] / 16);
      JsonStrings.HexReads(bytes[0] % 16);
    } else {
      HexTextSays(bytes[1..], i - 1);
    }
  }

  lemma {:induction false} HexTextUnique(a: seq<Byte>, b: seq<Byte>)
    requires |a| == |b| && HexText(a) == HexText(b)
    ensures a == b
  {
    if a != [] {
      var x, y := HexText(a), HexText(b);
      assert x[0] == y[0] && x[1] == y[1];
      HexDigits(a[0], b[0]);
      assert x[2..] == HexText(a[1..]) && y[2..] == HexText(b[1..]);
      HexTextUnique(a[1..], b[1..]);
    }
  }

  lemma HexDigits(a: Byte, b: Byte)
    requires HEX[a / 16] == HEX[b / 16] && HEX[a % 16] == HEX[b % 16]
    ensures a == b
  {
    HexDigit(a / 16, b / 16);
    HexDigit(a % 16, b % 16);
  }

  lemma HexDigit(i: nat, j: nat)
    requires i < 16 && j < 16 && HEX[i] == HEX[j]
    ensures i == j
  {}

  function DigestInput(kind: Kind, payload: Json): Json {
    Object([Member("protocol_version", Str(PROTOCOL_VERSION)),
            Member("message_kind", Str(KindName(kind))),
            Member("payload", payload)])
  }

  function BusinessDigest(rules: Rules, kind: Kind, payload: Json): string {
    "sha256:" + HexText(rules.sha256(Text(DigestInput(kind, payload))))
  }

  /** The delivery batch id is derived from the payload for the two Integration kinds. */
  predicate BatchBound(kind: Kind, batchId: string, payload: Json) {
    match kind
    case IntegrationTopologySnapshot =>
      var generation := Lookup(payload, "snapshot_generation");
      generation.Some? && generation.value.Str? && "topology-" + generation.value.chars == batchId
    case IntegrationObservationBatch =>
      Lookup(payload, "batch_id") == Some(Str(batchId))
    case _ => true
  }

  function Bound(found: nat): Result<(), Error> {
    if found <= MAX_MESSAGE_BYTES then Ok(()) else Err(MessageTooLarge(found))
  }

  function PrepareValue(rules: Rules, kind: Kind, batchId: string, payload: Json, createdAt: nat,
                        expiresAt: Option<nat>): Result<Enqueue, Error>
  {
    if !rules.acceptsPayload(kind, payload) then Err(InvalidPayload)
    else if !Identifier(batchId, 128) then Err(InvalidField("batch_id"))
    else if !BatchBound(kind, batchId, payload) then Err(BatchIdMismatch)
    else if expiresAt.Some? && expiresAt.value < createdAt then Err(InvalidField("expires_at_ms"))
    else
      var _ :- Bound(Size(payload));
      Ok(Enqueue(kind, batchId, BusinessDigest(rules, kind, payload), payload, createdAt, expiresAt))
  }

  /** Sealing for the Integration producer: the worst-case envelope must fit before anything else is looked at. */
  function PrepareIntegrationValue(rules: Rules, kind: Kind, batchId: string, payload: Json, createdAt: nat,
                                   expiresAt: Option<nat>): Result<Enqueue, Error>
  {
    var _ :- Bound(MaximumEnvelopeSize(kind, batchId, payload, expiresAt.Some?));
    PrepareValue(rules, kind, batchId, payload, createdAt, expiresAt)
  }

  // ---------------------------------------------------------------- envelopes

  datatype Authentication = Authentication(keyId: string, algorithm: string, signature: string)

  predicate SignatureChar(c: char) { Alphanumeric(c) || c in "_-" }

  predicate ValidAuthentication(a: Authentication) {
    && Identifier(a.keyId, 128) && a.algorithm == "Ed25519"
    && |a.signature| == 86 && forall i :: 0 <= i < 86 ==> SignatureChar(a.signature[i])
  }

  datatype Descriptor = Descriptor(streamId: string, streamEpoch: string, position: string, batchId: string,
                                   digest: string)

  datatype Envelope = Envelope(schema: string, protocol: string, protocolVersion: string, kind: Kind, gatewayId: string,
                               sessionId: string, sessionEpoch: string, credentialGeneration: string, sentAt: string,
                               expiresAt: Option<string>, delivery: Descriptor, authentication: Option<Authentication>,
                               traceparent: Option<string>, payload: Json)

  const DESCRIPTOR_FIELDS: seq<string> := ["stream_id", "stream_epoch", "position", "batch_id", "digest"]

  function DescriptorJson(d: Descriptor): Json {
    RecordJson(DESCRIPTOR_FIELDS,
               [Field(d.streamId), Field(d.streamEpoch), Field(d.position), Field(d.batchId), Field(d.digest)])
  }

  const AUTHENTICATION_FIELDS: seq<string> := ["key_id", "algorithm", "signature"]

  function AuthenticationJson(a: Authentication): Json {
    RecordJson(AUTHENTICATION_FIELDS, [Field(a.keyId), Field(a.algorithm), Field(a.signature)])
  }

  const ENVELOPE_FIELDS: seq<string> :=
    [ "schema", "protocol", "protocol_version", "message_kind", "gateway_id", "session_id", "session_epoch",
      "credential_generation", "sent_at_ms", "expires_at_ms", "delivery", "message_authentication",
      "traceparent", "payload" ]

  function EnvelopeValues(e: Envelope): (values: seq<Option<Json>>)
    ensures |values| == 14
  {
    [ Field(e.schema), Field(e.protocol), Field(e.protocolVersion), Field(KindName(e.kind)),
      Field(e.gatewayId), Field(e.sessionId), Field(e.sessionEpoch), Field(e.credentialGeneration),
      Field(e.sentAt), OptionField(e.expiresAt), Some(DescriptorJson(e.delivery)),
      if e.authentication.Some? then Some(AuthenticationJson(e.authentication.value)) else None,
      OptionField(e.traceparent), Some(e.payload) ]
  }

  function EnvelopeJson(e: Envelope): Json { RecordJson(ENVELOPE_FIELDS, EnvelopeValues(e)) }

  function Encode(e: Envelope): Result<string, Error> {
    var _ :- Bound(Bytes(Text(EnvelopeJson(e))));
    Ok(Text(EnvelopeJson(e)))
  }

  function Repeat(c: char, n: nat): string { seq(n, i => c) }

  const ENVELOPE_SCHEMA: string := "aether.cloudlink.envelope.v1"
  const MAX_U64_TEXT: string := "18446744073709551615"
  const MAX_TRACEPARENT: string := "00-" + Repeat('1', 32) + "-" + Repeat('2', 16) + "-01"
  const ANY_GATEWAY: string := "33333333-3333-4333-8333-333333333333"
  const ANY_SESSION: string := "44444444-4444-4444-8444-444444444444"

  function WorstDescriptor(batchId: string): Descriptor {
    Descriptor(Repeat('s', 128), MAX_U64_TEXT, MAX_U64_TEXT, batchId, "sha256:" + Repeat('0', 64))
  }

  function WorstAuthentication(): Authentication {
    Authentication(Repeat('k', 128), "Ed25519", Repeat('A', 86))
  }

  function WorstEnvelope(kind: Kind, batchId: string, payload: Json, includeExpiry: bool): Envelope {
    Envelope(ENVELOPE_SCHEMA, PROTOCOL, PROTOCOL_VERSION, kind, ANY_GATEWAY, ANY_SESSION,
             MAX_U64_TEXT, MAX_U64_TEXT, MAX_U64_TEXT, if includeExpiry then Some(MAX_U64_TEXT) else None,
             WorstDescriptor(batchId), Some(WorstAuthentication()), Some(MAX_TRACEPARENT), payload)
  }

  function MaximumEnvelopeSize(kind: Kind, batchId: string, payload: Json, includeExpiry: bool): nat {
    Size(EnvelopeJson(WorstEnvelope(kind, batchId, payload, includeExpiry)))
  }

  predicate ValidDescriptor(d: Descriptor) {
    && Identifier(d.streamId, 128) && PositiveText(d.streamEpoch) && PositiveText(d.position)
    && Identifier(d.batchId, 128) && DigestText(d.digest)
  }

  predicate ValidEnvelope(rules: Rules, e: Envelope) {
    && e.schema == ENVELOPE_SCHEMA && e.protocol == PROTOCOL
    && e.protocolVersion == PROTOCOL_VERSION && Uuid(e.gatewayId) && Uuid(e.sessionId)
    && PositiveText(e.sessionEpoch) && PositiveText(e.credentialGeneration)
    && CloudLinkU64(e.sentAt).Ok?
    && (e.expiresAt.Some? ==>
          CloudLinkU64(e.expiresAt.value).Ok? && CloudLinkU64(e.expiresAt.value).value >= CloudLinkU64(e.sentAt).value)
    && ValidDescriptor(e.delivery)
    && (e.authentication.Some? ==> ValidAuthentication(e.authentication.value))
    && (e.traceparent.Some? ==> Traceparent(e.traceparent.value))
    && rules.acceptsPayload(e.kind, e.payload)
    && BatchBound(e.kind, e.delivery.batchId, e.payload)
    && BusinessDigest(rules, e.kind, e.payload) == e.delivery.digest
  }

  function PrintOption(n: Option<nat>): Option<string> { if n.Some? then Some(Print(n.value)) else None }

  function Wrapped(session: Session, record: Record, trace: Option<string>,
                   authentication: Option<Authentication>): Envelope {
    var c := record.content;
    Envelope(ENVELOPE_SCHEMA, PROTOCOL, session.protocolVersion, c.kind, session.gatewayId, session.sessionId,
             Print(session.sessionEpoch), Print(session.credentialGeneration), Print(c.createdAt),
             PrintOption(c.expiresAt),
             Descriptor(record.identity.streamId, Print(record.identity.streamEpoch), Print(record.identity.position),
                        c.batchId, c.digest),
             authentication, trace, c.payload)
  }

  /** `authenticated` is what the signer returned for this envelope. */
  function DeliveryEnvelope(rules: Rules, session: Session, record: Record, trace: Option<string>,
                            authenticated: Result<Option<Authentication>, Error>): Result<Envelope, Error> {
    var c := record.content;
    if trace.Some? && !Traceparent(trace.value) then Err(InvalidField("traceparent"))
    else if c.expiresAt.Some? && c.expiresAt.value < c.createdAt then Err(InvalidField("expires_at_ms"))
    else if !rules.acceptsPayload(c.kind, c.payload) then Err(InvalidPayload)
    else if !BatchBound(c.kind, c.batchId, c.payload) then Err(BatchIdMismatch)
    else if BusinessDigest(rules, c.kind, c.payload) != c.digest then Err(DigestMismatch)
    else
      var authentication :- authenticated;
      var e := Wrapped(session, record, trace, authentication);
      if ValidEnvelope(rules, e) then Ok(e) else Err(InvalidField("envelope"))
  }

  // ---------------------------------------------------------------- the size bound

  lemma DescriptorsDominate(a: Descriptor, b: Descriptor)
    requires QuotedSize(a.streamId) <= QuotedSize(b.streamId) && QuotedSize(a.streamEpoch) <= QuotedSize(b.streamEpoch)
    requires QuotedSize(a.position) <= QuotedSize(b.position) && QuotedSize(a.batchId) <= QuotedSize(b.batchId)
    requires QuotedSize(a.digest) <= QuotedSize(b.digest)
    ensures Size(DescriptorJson(a)) <= Size(DescriptorJson(b))
  {
    hide QuotedSize, MembersWeight, RecordMembers;
    RecordsDominate(DESCRIPTOR_FIELDS,
                    [Field(a.streamId), Field(a.streamEpoch), Field(a.position), Field(a.batchId), Field(a.digest)],
                    [Field(b.streamId), Field(b.streamEpoch), Field(b.position), Field(b.batchId), Field(b.digest)]);
  }

  lemma AuthenticationsDominate(a: Authentication, b: Authentication)
    requires QuotedSize(a.keyId) <= QuotedSize(b.keyId) && QuotedSize(a.algorithm) <= QuotedSize(b.algorithm)
    requires QuotedSize(a.signature) <= QuotedSize(b.signature)
    ensures Size(AuthenticationJson(a)) <= Size(AuthenticationJson(b))
  {
    hide QuotedSize, MembersWeight, RecordMembers;
    RecordsDominate(AUTHENTICATION_FIELDS, [Field(a.keyId), Field(a.algorithm), Field(a.signature)],
                    [Field(b.keyId), Field(b.algorithm), Field(b.signature)]);
  }

  lemma EnvelopesDominate(a: Envelope, b: Envelope)
    requires ValueLeq(Field(a.schema), Field(b.schema)) && ValueLeq(Field(a.protocol), Field(b.protocol))
    requires ValueLeq(Field(a.protocolVersion), Field(b.protocolVersion)) && a.kind == b.kind
    requires ValueLeq(Field(a.gatewayId), Field(b.gatewayId)) && ValueLeq(Field(a.sessionId), Field(b.sessionId))
    requires ValueLeq(Field(a.sessionEpoch), Field(b.sessionEpoch))
    requires ValueLeq(Field(a.credentialGeneration), Field(b.credentialGeneration))
    requires ValueLeq(Field(a.sentAt), Field(b.sentAt)) && ValueLeq(OptionField(a.expiresAt), OptionField(b.expiresAt))
    requires Size(DescriptorJson(a.delivery)) <= Size(DescriptorJson(b.delivery))
    requires a.authentication.Some? ==>
      b.authentication.Some?
      && Size(AuthenticationJson(a.authentication.value)) <= Size(AuthenticationJson(b.authentication.value))
    requires ValueLeq(OptionField(a.traceparent), OptionField(b.traceparent)) && Size(a.payload) <= Size(b.payload)
    ensures Size(EnvelopeJson(a)) <= Size(EnvelopeJson(b))
  {
    hide QuotedSize, MembersWeight, RecordMembers;
    RecordsDominate(ENVELOPE_FIELDS, EnvelopeValues(a), EnvelopeValues(b));
  }

  lemma FillerSizes()
    ensures QuotedSize(MAX_U64_TEXT) == 22 && QuotedSize(Repeat('s', 128)) == 130 && QuotedSize(Repeat('k', 128)) == 130
    ensures QuotedSize(Repeat('A', 86)) == 88 && QuotedSize("sha256:" + Repeat('0', 64)) == 73
  {
    hide QuotedSize;
    PlainSize(MAX_U64_TEXT);
    PlainSize(Repeat('s', 128));
    PlainSize(Repeat('k', 128));
    PlainSize(Repeat('A', 86));
    PlainSize("sha256:" + Repeat('0', 64));
  }

  lemma GatewaySize()
    ensures QuotedSize(ANY_GATEWAY) == 38
  {
    PlainSize(ANY_GATEWAY);
  }

  lemma SessionSize()
    ensures QuotedSize(ANY_SESSION) == 38
  {
    PlainSize(ANY_SESSION);
  }

  lemma FillerIds()
    ensures QuotedSize(ANY_GATEWAY) == 38 && QuotedSize(ANY_SESSION) == 38 && QuotedSize(MAX_TRACEPARENT) == 57
  {
    hide QuotedSize;
    GatewaySize();
    SessionSize();
    PlainSize(MAX_TRACEPARENT);
  }

  lemma U64FieldSize(s: string)
    requires CloudLinkU64(s).Ok?
    ensures QuotedSize(s) <= 22
  {
    U64SpellingsUnique(s, CloudLinkU64(s).value);
    U64Size(CloudLinkU64(s).value);
  }

  lemma DescriptorDominated(d: Descriptor)
    requires ValidDescriptor(d)
    ensures Size(DescriptorJson(d)) <= Size(DescriptorJson(WorstDescriptor(d.batchId)))
  {
    hide QuotedSize, MembersWeight, RecordMembers;
    IdentifierSize(d.streamId, 128);
    U64FieldSize(d.streamEpoch);
    U64FieldSize(d.position);
    DigestSize(d.digest);
    FillerSizes();
    DescriptorsDominate(d, WorstDescriptor(d.batchId));
  }

  lemma AuthenticationDominated(a: Authentication)
    requires ValidAuthentication(a)
    ensures Size(AuthenticationJson(a)) <= Size(AuthenticationJson(WorstAuthentication()))
  {
    hide QuotedSize, MembersWeight, RecordMembers;
    IdentifierSize(a.keyId, 128);
    PlainSize(a.signature);
    FillerSizes();
    AuthenticationsDominate(a, WorstAuthentication());
  }

  lemma SessionFieldSizes(rules: Rules, e: Envelope)
    requires ValidEnvelope(rules, e)
    ensures QuotedSize(e.gatewayId) == QuotedSize(e.sessionId) == 38
    ensures QuotedSize(e.sessionEpoch) <= 22 && QuotedSize(e.credentialGeneration) <= 22 && QuotedSize(e.sentAt) <= 22
    ensures e.expiresAt.Some? ==> QuotedSize(e.expiresAt.value) <= 22
    ensures e.traceparent.Some? ==> QuotedSize(e.traceparent.value) == 57
  {
    hide QuotedSize;
    UuidSize(e.gatewayId);
    UuidSize(e.sessionId);
    U64FieldSize(e.sessionEpoch);
    U64FieldSize(e.credentialGeneration);
    U64FieldSize(e.sentAt);
    if e.expiresAt.Some? { U64FieldSize(e.expiresAt.value); }
    if e.traceparent.Some? { TraceparentSize(e.traceparent.value); }
  }

  /** Every valid envelope is at most as long as the worst case computed from its kind, batch id and payload. */
  lemma WorstCaseDominates(rules: Rules, e: Envelope)
    requires ValidEnvelope(rules, e)
    ensures Size(EnvelopeJson(e)) <= MaximumEnvelopeSize(e.kind, e.delivery.batchId, e.payload, e.expiresAt.Some?)
  {
    hide QuotedSize, MembersWeight, RecordMembers, EnvelopeValues, BusinessDigest, BatchBound;
    var w := WorstEnvelope(e.kind, e.delivery.batchId, e.payload, e.expiresAt.Some?);
    SessionFieldSizes(rules, e);
    FillerSizes();
    FillerIds();
    DescriptorDominated(e.delivery);
    if e.authentication.Some? { AuthenticationDominated(e.authentication.value); }
    EnvelopesDominate(e, w);
  }

  // ---------------------------------------------------------------- sealed content stays sendable

  lemma {:induction false} HexTextIsLowerHex(bytes: seq<Byte>)
    ensures |HexText(bytes)| == 2 * |bytes|
    ensures forall i :: 0 <= i < |HexText(bytes)| ==> LowerHex(HexText(bytes)[i])
  {
    if bytes != [] {
      HexTextIsLowerHex(bytes[1..]);
      assert forall k :: 0 <= k < 16 ==> LowerHex(HEX[k]);
      assert bytes[0] / 16 < 16;
    }
  }

  lemma BusinessDigestIsDigest(rules: Rules, kind: Kind, payload: Json)
    ensures DigestText(BusinessDigest(rules, kind, payload))
  {
    var d := BusinessDigest(rules, kind, payload);
    var hex := d[7..];
    assert exists h: Hash :: hex == HexText(h);
    var h: Hash :| hex == HexText(h);
    HexTextIsLowerHex(h);
    assert forall i :: 7 <= i < |d| ==> d[i] == hex[i - 7];
  }

  predicate Sendable(session: Session, identity: Identity, trace: Option<string>,
                     authentication: Option<Authentication>) {
    && ValidSession(session)
    && Identifier(identity.streamId, 128) && PositiveU64(identity.streamEpoch) && PositiveU64(identity.position)
    && (trace.Some? ==> Traceparent(trace.value))
    && (authentication.Some? ==> ValidAuthentication(authentication.value))
  }

  predicate Timestamps(createdAt: nat, expiresAt: Option<nat>) {
    createdAt <= U64_MAX && (expiresAt.Some? ==> expiresAt.value <= U64_MAX)
  }

  lemma WrappedIsValid(rules: Rules, session: Session, record: Record, trace: Option<string>,
                       authentication: Option<Authentication>)
    requires Sendable(session, record.identity, trace, authentication)
    requires var c := record.content;
      && Timestamps(c.createdAt, c.expiresAt)
      && PrepareValue(rules, c.kind, c.batchId, c.payload, c.createdAt, c.expiresAt) == Ok(c)
    ensures ValidEnvelope(rules, Wrapped(session, record, trace, authentication))
  {
    var c := record.content;
    var id := record.identity;
    U64SpellingsUnique(Print(session.sessionEpoch), session.sessionEpoch);
    U64SpellingsUnique(Print(session.credentialGeneration), session.credentialGeneration);
    U64SpellingsUnique(Print(c.createdAt), c.createdAt);
    if c.expiresAt.Some? { U64SpellingsUnique(Print(c.expiresAt.value), c.expiresAt.value); }
    U64SpellingsUnique(Print(id.streamEpoch), id.streamEpoch);
    U64SpellingsUnique(Print(id.position), id.position);
    BusinessDigestIsDigest(rules, c.kind, c.payload);
  }

  /** Content the producer sealed is wrapped and encoded without error for every valid session, key, trace and stream
      position it may later be offered on: neither its size nor any other check stops it. */
  lemma SealedIsAlwaysSendable(rules: Rules, kind: Kind, batchId: string, payload: Json, createdAt: nat,
                               expiresAt: Option<nat>, session: Session, record: Record, trace: Option<string>,
                               authentication: Option<Authentication>)
    requires Timestamps(createdAt, expiresAt)
    requires PrepareIntegrationValue(rules, kind, batchId, payload, createdAt, expiresAt) == Ok(record.content)
    requires Sendable(session, record.identity, trace, authentication)
    ensures var e := Wrapped(session, record, trace, authentication);
      && DeliveryEnvelope(rules, session, record, trace, Ok(authentication)) == Ok(e)
      && Encode(e) == Ok(Text(EnvelopeJson(e)))
      && Bytes(Text(EnvelopeJson(e))) <= MAX_MESSAGE_BYTES
  {
    hide QuotedSize, MembersWeight, RecordMembers, Text, ValidEnvelope, BatchBound, EnvelopeJson, WorstEnvelope;
    WrappedIsValid(rules, session, record, trace, authentication);
    var e := Wrapped(session, record, trace, authentication);
    WorstCaseDominates(rules, e);
    SizeIsTextLength(EnvelopeJson(e));
  }

  /** For any record whatever, wrapping can only succeed into an envelope the seal-time bound covers. */
  lemma EnvelopeWithinSealBound(rules: Rules, session: Session, record: Record, trace: Option<string>,
                                authenticated: Result<Option<Authentication>, Error>)
    requires DeliveryEnvelope(rules, session, record, trace, authenticated).Ok?
    ensures var e := DeliveryEnvelope(rules, session, record, trace, authenticated).value;
            var c := record.content;
      && Bytes(Text(EnvelopeJson(e))) <= MaximumEnvelopeSize(c.kind, c.batchId, c.payload, c.expiresAt.Some?)
      && (MaximumEnvelopeSize(c.kind, c.batchId, c.payload, c.expiresAt.Some?) <= MAX_MESSAGE_BYTES ==> Encode(e).Ok?)
  {
    hide QuotedSize, MembersWeight, RecordMembers, Text, EnvelopeJson, WorstEnvelope;
    var e := DeliveryEnvelope(rules, session, record, trace, authenticated).value;
    WorstCaseDominates(rules, e);
    SizeIsTextLength(EnvelopeJson(e));
  }
}
