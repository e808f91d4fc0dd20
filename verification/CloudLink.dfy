/** CloudLink values shared by the producer, the spool and the publisher, with the closed-field validators. */
module CloudLink {
  import opened Wrappers
  import opened CanonicalJson
  import opened Decimals

  const MAX_MESSAGE_BYTES: nat := 256 * 1024
  const PROTOCOL: string := "aether.cloudlink"
  const PROTOCOL_VERSION: string := "1.0"

  datatype Kind = RuntimeManifestReport | TelemetryBatch | IntegrationTopologySnapshot
                | IntegrationObservationBatch | DataLoss

  function KindName(kind: Kind): string {
    match kind
    case RuntimeManifestReport => "runtime-manifest-report"
    case TelemetryBatch => "telemetry-batch"
    case IntegrationTopologySnapshot => "integration-topology-snapshot"
    case IntegrationObservationBatch => "integration-observation-batch"
    case DataLoss => "data-loss"
  }

  datatype Error =
    | MessageTooLarge(found: nat)
    | InvalidField(field: string)
    | InvalidPayload
    | ContractRejected
    | UnsupportedMessage
    | UnsupportedProtocolVersion
    | VersionNegotiationFailed
    | SessionMismatch
    | DigestMismatch
    | BatchIdMismatch
    | StreamBindingConflict
    | ExtensionNotEnabled

  /** The verified identity of one accepted session. */
  datatype Session = Session(gatewayId: string, protocolVersion: string, sessionId: string, sessionEpoch: nat,
                             credentialGeneration: nat)

  /** What the spool remembers of a session. */
  datatype Binding = Binding(sessionId: string, sessionEpoch: nat)

  function SpoolBinding(session: Session): Binding { Binding(session.sessionId, session.sessionEpoch) }

  datatype Identity = Identity(streamId: string, streamEpoch: nat, position: nat)

  datatype DeliveryState = Queued | Offered | TransportPublished

  /** Sealed business content. The payload bytes are the canonical text of `payload`. */
  datatype Enqueue = Enqueue(kind: Kind, batchId: string, digest: string, payload: Json, createdAt: nat,
                             expiresAt: Option<nat>)

  datatype Record = Record(identity: Identity, content: Enqueue, state: DeliveryState, offeredSession: Option<Binding>)

  function FromEnqueue(identity: Identity, content: Enqueue): Record {
    Record(identity, content, Queued, None)
  }

  // ---------------------------------------------------------------- closed fields

  predicate IdentifierChar(c: char) { Alphanumeric(c) || c in "._:-" }

  predicate Identifier(s: string, maximum: nat) {
    |s| <= maximum && s != "" && Alphanumeric(s[0]) && forall i :: 0 < i < |s| ==> IdentifierChar(s[i])
  }

  predicate LowerHex(c: char) { '0' <= c <= '9' || 'a' <= c <= 'f' }

  predicate Uuid(s: string) {
    && |s| == 36
    && '1' <= s[14] <= '8'
    && s[19] in "89ab"
    && forall i :: 0 <= i < 36 ==> if i in {8, 13, 18, 23} then s[i] == '-' else LowerHex(s[i])
  }

  predicate DigestText(s: string) {
    |s| == 71 && s[..7] == "sha256:" && forall i :: 7 <= i < 71 ==> LowerHex(s[i])
  }

  predicate Traceparent(s: string) {
    && |s| == 55
    && (forall i :: 0 <= i < 55 ==> if i in {2, 35, 52} then s[i] == '-' else LowerHex(s[i]))
    && s[..2] != "ff"
    && (exists i :: 3 <= i < 35 && s[i] != '0')
    && (exists i :: 36 <= i < 52 && s[i] != '0')
  }

  predicate PositiveText(s: string) { CloudLinkU64(s).Ok? && CloudLinkU64(s).value > 0 }

  predicate PositiveU64(n: nat) { 0 < n <= U64_MAX }

  predicate ValidSession(session: Session) {
    && session.protocolVersion == PROTOCOL_VERSION
    && Uuid(session.gatewayId) && Uuid(session.sessionId)
    && PositiveU64(session.sessionEpoch) && PositiveU64(session.credentialGeneration)
  }

  lemma IdentifierSize(s: string, maximum: nat)
    requires Identifier(s, maximum)
    ensures QuotedSize(s) == |s| + 2 <= maximum + 2
  {
    PlainSize(s);
  }

  lemma UuidSize(s: string)
    requires Uuid(s)
    ensures QuotedSize(s) == 38
  {
    PlainSize(s);
  }

  lemma DigestSize(s: string)
    requires DigestText(s)
    ensures QuotedSize(s) == 73
  {
    assert forall i :: 0 <= i < 7 ==> s[i] == s[..7][i];
    PlainSize(s);
  }

  lemma TraceparentSize(s: string)
    requires Traceparent(s)
    ensures QuotedSize(s) == 57
  {
    PlainSize(s);
  }

  lemma U64Size(n: nat)
    requires n <= U64_MAX
    ensures QuotedSize(Print(n)) <= 22
  {
    U64SpellingsUnique(Print(n), n);
    assert AllPlain(Print(n)) by {
      forall i | 0 <= i < |Print(n)| ensures Plain(Print(n)[i]) { assert IsDigit(Print(n)[i]); }
    }
    PlainSize(Print(n));
  }
}
