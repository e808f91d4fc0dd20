/** What a delivered envelope says, to its session and by the names on the wire, and the receipt that answers it. */
module Delivery {
  import opened Wrappers
  import opened CanonicalJson
  import opened JsonRecords
  import opened JsonReader
  import opened Decimals
  import opened CloudLink
  import opened Envelope
  import opened Spool
  import opened Sessions

  // ---------------------------------------------------------------- the names on the wire

  lemma EnvelopeFieldsDistinct()
    ensures DistinctFields(ENVELOPE_FIELDS)
  {}

  lemma SmallFieldsDistinct()
    ensures DistinctFields(DESCRIPTOR_FIELDS) && DistinctFields(AUTHENTICATION_FIELDS)
  {}

  /** Whatever a reader finds under each name of the envelope. */
  lemma EnvelopeReads(e: Envelope)
    ensures var j := EnvelopeJson(e);
      && Lookup(j, "schema") == Some(Str(e.schema)) && Lookup(j, "protocol") == Some(Str(e.protocol))
      && Lookup(j, "protocol_version") == Some(Str(e.protocolVersion))
      && Lookup(j, "message_kind") == Some(Str(KindName(e.kind)))
      && Lookup(j, "gateway_id") == Some(Str(e.gatewayId)) && Lookup(j, "session_id") == Some(Str(e.sessionId))
      && Lookup(j, "session_epoch") == Some(Str(e.sessionEpoch))
      && Lookup(j, "credential_generation") == Some(Str(e.credentialGeneration))
      && Lookup(j, "sent_at_ms") == Some(Str(e.sentAt))
      && Lookup(j, "expires_at_ms") == (if e.expiresAt.Some? then Some(Str(e.expiresAt.value)) else None)
      && Lookup(j, "delivery") == Some(DescriptorJson(e.delivery))
      && Lookup(j, "message_authentication") ==
           (if e.authentication.Some? then Some(AuthenticationJson(e.authentication.value)) else None)
      && Lookup(j, "traceparent") == (if e.traceparent.Some? then Some(Str(e.traceparent.value)) else None)
      && Lookup(j, "payload") == Some(e.payload)
  {
    hide RecordMembers, LookupMember, RecordJson, Lookup, DistinctFields, DescriptorJson, AuthenticationJson, KindName;
    EnvelopeFieldsDistinct();
    var values := EnvelopeValues(e);
    FieldReads(ENVELOPE_FIELDS, values, 0);
    FieldReads(ENVELOPE_FIELDS, values, 1);
    FieldReads(ENVELOPE_FIELDS, values, 2);
    FieldReads(ENVELOPE_FIELDS, values, 3);
    FieldReads(ENVELOPE_FIELDS, values, 4);
    FieldReads(ENVELOPE_FIELDS, values, 5);
    FieldReads(ENVELOPE_FIELDS, values, 6);
    FieldReads(ENVELOPE_FIELDS, values, 7);
    FieldReads(ENVELOPE_FIELDS, values, 8);
    FieldReads(ENVELOPE_FIELDS, values, 9);
    FieldReads(ENVELOPE_FIELDS, values, 10);
    FieldReads(ENVELOPE_FIELDS, values, 11);
    FieldReads(ENVELOPE_FIELDS, values, 12);
    FieldReads(ENVELOPE_FIELDS, values, 13);
  }

  lemma DescriptorReads(d: Descriptor)
    ensures var j := DescriptorJson(d);
      && Lookup(j, "stream_id") == Some(Str(d.streamId)) && Lookup(j, "stream_epoch") == Some(Str(d.streamEpoch))
      && Lookup(j, "position") == Some(Str(d.position)) && Lookup(j, "batch_id") == Some(Str(d.batchId))
      && Lookup(j, "digest") == Some(Str(d.digest))
  {
    hide RecordMembers, LookupMember, RecordJson, Lookup, DistinctFields;
    SmallFieldsDistinct();
    var values := [Field(d.streamId), Field(d.streamEpoch), Field(d.position), Field(d.batchId), Field(d.digest)];
    FieldReads(DESCRIPTOR_FIELDS, values, 0);
    FieldReads(DESCRIPTOR_FIELDS, values, 1);
    FieldReads(DESCRIPTOR_FIELDS, values, 2);
    FieldReads(DESCRIPTOR_FIELDS, values, 3);
    FieldReads(DESCRIPTOR_FIELDS, values, 4);
  }

  lemma AuthenticationReads(a: Authentication)
    ensures var j := AuthenticationJson(a);
      && Lookup(j, "key_id") == Some(Str(a.keyId)) && Lookup(j, "algorithm") == Some(Str(a.algorithm))
      && Lookup(j, "signature") == Some(Str(a.signature))
  {
    hide RecordMembers, LookupMember, RecordJson, Lookup, DistinctFields;
    SmallFieldsDistinct();
    var values := [Field(a.keyId), Field(a.algorithm), Field(a.signature)];
    FieldReads(AUTHENTICATION_FIELDS, values, 0);
    FieldReads(AUTHENTICATION_FIELDS, values, 1);
    FieldReads(AUTHENTICATION_FIELDS, values, 2);
  }

  // ---------------------------------------------------------------- what is delivered

  function HeaderOf(e: Envelope): Header {
    Header(e.protocolVersion, e.gatewayId, e.sessionId, e.sessionEpoch, e.credentialGeneration)
  }

  /** The envelope names the session, and says of the record what the record says of itself. */
  predicate Says(e: Envelope, session: Session, record: Record) {
    var c := record.content;
    && e.schema == "aether.cloudlink.envelope.v1" && e.protocol == "aether.cloudlink"
    && SessionMatch(session, HeaderOf(e))
    && e.kind == c.kind && e.payload == c.payload && CloudLinkU64(e.sentAt) == Ok(c.createdAt)
    && (if c.expiresAt.Some? then e.expiresAt.Some? && CloudLinkU64(e.expiresAt.value) == Ok(c.expiresAt.value)
        else e.expiresAt.None?)
    && e.delivery.streamId == record.identity.streamId
    && CloudLinkU64(e.delivery.streamEpoch) == Ok(record.identity.streamEpoch)
    && CloudLinkU64(e.delivery.position) == Ok(record.identity.position)
    && e.delivery.batchId == c.batchId && e.delivery.digest == c.digest
  }

  lemma PrintedReads(s: string, n: nat)
    requires s == Print(n) && CloudLinkU64(s).Ok?
    ensures CloudLinkU64(s) == Ok(n)
  {
    U64SpellingsUnique(s, CloudLinkU64(s).value);
    PrintIsNumeral(n);
    PrintIsNumeral(CloudLinkU64(s).value);
  }

  /** Wrapping a record for a session gives an envelope that says just that. */
  lemma DeliveredSays(rules: Rules, session: Session, record: Record, trace: Option<string>,
                      authenticated: Result<Option<Authentication>, Error>)
    requires DeliveryEnvelope(rules, session, record, trace, authenticated).Ok?
    ensures var e := DeliveryEnvelope(rules, session, record, trace, authenticated).value;
      && Says(e, session, record) && e.traceparent == trace && authenticated == Ok(e.authentication)
  {
    hide CloudLinkU64, Print, BusinessDigest, BatchBound, Traceparent, Identifier, Uuid, DigestText,
         ValidAuthentication;
    var e := DeliveryEnvelope(rules, session, record, trace, authenticated).value;
    var c := record.content;
    PrintedReads(e.sessionEpoch, session.sessionEpoch);
    PrintedReads(e.credentialGeneration, session.credentialGeneration);
    PrintedReads(e.sentAt, c.createdAt);
    PrintedReads(e.delivery.streamEpoch, record.identity.streamEpoch);
    PrintedReads(e.delivery.position, record.identity.position);
    if c.expiresAt.Some? { PrintedReads(e.expiresAt.value, c.expiresAt.value); }
  }

  /** Over a chain of sessions an envelope names the one it was wrapped for and no other. */
  lemma DeliveredToOneSession(rules: Rules, sessions: seq<Session>, binds: seq<Attempted>, gatewayId: string,
                              first: nat, record: Record, trace: Option<string>,
                              authenticated: Result<Option<Authentication>, Error>, i: nat, j: nat)
    requires Chain(sessions, binds, gatewayId, first) && i < |sessions| && j < |sessions|
    requires DeliveryEnvelope(rules, sessions[i], record, trace, authenticated).Ok?
    ensures var e := DeliveryEnvelope(rules, sessions[i], record, trace, authenticated).value;
      SessionMatch(sessions[j], HeaderOf(e)) <==> i == j
  {
    hide DeliveryEnvelope, Link;
    DeliveredSays(rules, sessions[i], record, trace, authenticated);
    if i < j { EpochsRise(sessions, binds, gatewayId, first, i, j); }
    if j < i { EpochsRise(sessions, binds, gatewayId, first, j, i); }
  }

  // ---------------------------------------------------------------- the text that is sent

  function PrintedOption(n: Option<nat>): Option<Json> { if n.Some? then Some(Str(Print(n.value))) else None }

  /** By the names on the wire: the session, the record and its place in the stream. */
  predicate JsonSays(j: Json, session: Session, record: Record) {
    var c, delivery := record.content, Lookup(j, "delivery");
    && Lookup(j, "schema") == Some(Str("aether.cloudlink.envelope.v1"))
    && Lookup(j, "protocol") == Some(Str("aether.cloudlink"))
    && Lookup(j, "protocol_version") == Some(Str(session.protocolVersion))
    && Lookup(j, "gateway_id") == Some(Str(session.gatewayId))
    && Lookup(j, "session_id") == Some(Str(session.sessionId))
    && Lookup(j, "session_epoch") == Some(Str(Print(session.sessionEpoch)))
    && Lookup(j, "credential_generation") == Some(Str(Print(session.credentialGeneration)))
    && Lookup(j, "message_kind") == Some(Str(KindName(c.kind)))
    && Lookup(j, "sent_at_ms") == Some(Str(Print(c.createdAt)))
    && Lookup(j, "expires_at_ms") == PrintedOption(c.expiresAt)
    && Lookup(j, "payload") == Some(Canonical(c.payload))
    && delivery.Some? && Lookup(delivery.value, "stream_id") == Some(Str(record.identity.streamId))
    && Lookup(delivery.value, "stream_epoch") == Some(Str(Print(record.identity.streamEpoch)))
    && Lookup(delivery.value, "position") == Some(Str(Print(record.identity.position)))
    && Lookup(delivery.value, "batch_id") == Some(Str(c.batchId))
    && Lookup(delivery.value, "digest") == Some(Str(c.digest))
  }

  /** The text reads as one JSON value, to its end, and that value says it. */
  predicate TextSays(text: string, session: Session, record: Record) {
    var r := ReadValue(text);
    r.Some? && r.value.1 == "" && JsonSays(r.value.0, session, record)
  }

  lemma DescriptorNumeric(d: Descriptor)
    ensures Numeric(DescriptorJson(d))
  {
    hide RecordMembers;
    RecordNumeric(DESCRIPTOR_FIELDS,
                  [Field(d.streamId), Field(d.streamEpoch), Field(d.position), Field(d.batchId), Field(d.digest)]);
  }

  lemma AuthenticationNumeric(a: Authentication)
    ensures Numeric(AuthenticationJson(a))
  {
    hide RecordMembers;
    RecordNumeric(AUTHENTICATION_FIELDS, [Field(a.keyId), Field(a.algorithm), Field(a.signature)]);
  }

  lemma EnvelopeNumeric(e: Envelope)
    requires Numeric(e.payload)
    ensures Numeric(EnvelopeJson(e))
  {
    hide RecordMembers, DescriptorJson, AuthenticationJson;
    DescriptorNumeric(e.delivery);
    if e.authentication.Some? { AuthenticationNumeric(e.authentication.value); }
    RecordNumeric(ENVELOPE_FIELDS, EnvelopeValues(e));
  }

  lemma StringIsCanonical(s: string)
    ensures Canonical(Str(s)) == Str(s)
  {}

  /** A field of the envelope, found in its text. */
  lemma EnvelopeField(e: Envelope, i: nat)
    requires Numeric(e.payload) && i < |ENVELOPE_FIELDS|
    ensures var r := ReadValue(Text(EnvelopeJson(e)));
      && r == Some((Canonical(EnvelopeJson(e)), ""))
      && Lookup(r.value.0, ENVELOPE_FIELDS[i]) ==
           if EnvelopeValues(e)[i].Some? then Some(Canonical(EnvelopeValues(e)[i].value)) else None
  {
    hide RecordMembers, ReadValue, Canonical, Text, EnvelopeValues, Lookup, DistinctFields, Numeric;
    EnvelopeFieldsDistinct();
    EnvelopeNumeric(e);
    RecordTextReads(ENVELOPE_FIELDS, EnvelopeValues(e), i);
  }

  lemma DescriptorField(d: Descriptor, i: nat)
    requires i < 5
    ensures var texts := [d.streamId, d.streamEpoch, d.position, d.batchId, d.digest];
      Lookup(Canonical(DescriptorJson(d)), DESCRIPTOR_FIELDS[i]) == Some(Str(texts[i]))
  {
    hide RecordMembers, ReadValue, Canonical, Text, Lookup, DistinctFields, Numeric;
    SmallFieldsDistinct();
    DescriptorNumeric(d);
    var texts := [d.streamId, d.streamEpoch, d.position, d.batchId, d.digest];
    RecordTextReads(DESCRIPTOR_FIELDS,
                    [Field(d.streamId), Field(d.streamEpoch), Field(d.position), Field(d.batchId), Field(d.digest)], i);
    StringIsCanonical(texts[i]);
  }

  /** The first eight fields, and the last two, of an envelope's text. */
  lemma TextSaysSession(e: Envelope)
    requires Numeric(e.payload)
    ensures var r := ReadValue(Text(EnvelopeJson(e)));
      && r.Some? && r.value.1 == "" && Lookup(r.value.0, "schema") == Some(Str(e.schema))
      && Lookup(r.value.0, "protocol") == Some(Str(e.protocol))
      && Lookup(r.value.0, "protocol_version") == Some(Str(e.protocolVersion))
      && Lookup(r.value.0, "message_kind") == Some(Str(KindName(e.kind)))
      && Lookup(r.value.0, "gateway_id") == Some(Str(e.gatewayId))
      && Lookup(r.value.0, "session_id") == Some(Str(e.sessionId))
      && Lookup(r.value.0, "session_epoch") == Some(Str(e.sessionEpoch))
      && Lookup(r.value.0, "credential_generation") == Some(Str(e.credentialGeneration))
  {
    hide ReadValue, Canonical, Text, EnvelopeJson, Lookup, Numeric, KindName;
    EnvelopeField(e, 0);
    EnvelopeField(e, 1);
    EnvelopeField(e, 2);
    EnvelopeField(e, 3);
    EnvelopeField(e, 4);
    EnvelopeField(e, 5);
    EnvelopeField(e, 6);
    EnvelopeField(e, 7);
    StringIsCanonical(e.schema);
    StringIsCanonical(e.protocol);
    StringIsCanonical(e.protocolVersion);
    StringIsCanonical(KindName(e.kind));
    StringIsCanonical(e.gatewayId);
    StringIsCanonical(e.sessionId);
    StringIsCanonical(e.sessionEpoch);
    StringIsCanonical(e.credentialGeneration);
  }

  lemma TextSaysRecord(e: Envelope)
    requires Numeric(e.payload)
    ensures var r := ReadValue(Text(EnvelopeJson(e)));
      && r.Some? && Lookup(r.value.0, "sent_at_ms") == Some(Str(e.sentAt))
      && Lookup(r.value.0, "expires_at_ms") == OptionField(e.expiresAt)
      && Lookup(r.value.0, "delivery") == Some(Canonical(DescriptorJson(e.delivery)))
      && Lookup(r.value.0, "payload") == Some(Canonical(e.payload))
  {
    hide ReadValue, Canonical, Text, EnvelopeJson, Lookup, Numeric, DescriptorJson;
    EnvelopeField(e, 8);
    EnvelopeField(e, 9);
    EnvelopeField(e, 10);
    EnvelopeField(e, 13);
    StringIsCanonical(e.sentAt);
    if e.expiresAt.Some? { StringIsCanonical(e.expiresAt.value); }
  }

  lemma Respelled(s: string, n: nat)
    requires CloudLinkU64(s) == Ok(n)
    ensures s == Print(n)
  {
    U64SpellingsUnique(s, n);
  }

  /** The text of an envelope that says a record says it too, by the names on the wire. */
  lemma DeliveredTextSays(e: Envelope, session: Session, record: Record)
    requires Says(e, session, record) && Numeric(record.content.payload)
    ensures TextSays(Text(EnvelopeJson(e)), session, record)
  {
    hide ReadValue, Canonical, Text, EnvelopeJson, Lookup, Numeric, DescriptorJson, CloudLinkU64, Print, KindName;
    TextSaysSession(e);
    TextSaysRecord(e);
    DescriptorField(e.delivery, 0);
    DescriptorField(e.delivery, 1);
    DescriptorField(e.delivery, 2);
    DescriptorField(e.delivery, 3);
    DescriptorField(e.delivery, 4);
    Respelled(e.sessionEpoch, session.sessionEpoch);
    Respelled(e.credentialGeneration, session.credentialGeneration);
    Respelled(e.sentAt, record.content.createdAt);
    Respelled(e.delivery.streamEpoch, record.identity.streamEpoch);
    Respelled(e.delivery.position, record.identity.position);
    if e.expiresAt.Some? { Respelled(e.expiresAt.value, record.content.expiresAt.value); }
  }

  // ---------------------------------------------------------------- the receipt that answers an envelope

  /** A receipt made from nothing but the envelope that arrived. */
  function ReceiptMessage(e: Envelope, receiptId: string, at: string): AckMessage {
    AckMessage("aether.cloudlink.durable-ack.v1", "aether.cloudlink", "durable-ack", HeaderOf(e), e.delivery.streamId,
               e.delivery.streamEpoch, e.delivery.position, e.delivery.batchId, e.delivery.digest, receiptId, at)
  }

  lemma AnswerIsAdmitted(rules: Rules, session: Session, record: Record, trace: Option<string>,
                         authenticated: Result<Option<Authentication>, Error>, receiptId: string, at: string)
    requires DeliveryEnvelope(rules, session, record, trace, authenticated).Ok?
    requires Identifier(receiptId, 128) && CloudLinkU64(at).Ok?
    ensures var e := DeliveryEnvelope(rules, session, record, trace, authenticated).value;
            var m := ReceiptMessage(e, receiptId, at);
      && ToSpoolAck(m, session) == Ok(Ack(SpoolBinding(session), record.identity.streamId, record.identity.streamEpoch,
                                          record.identity.position, record.content.batchId, record.content.digest,
                                          receiptId))
      && ValidBinding(SpoolBinding(session))
  {
    hide CloudLinkU64, BusinessDigest, BatchBound, Traceparent, DigestText, ValidAuthentication;
    DeliveredSays(rules, session, record, trace, authenticated);
  }

  /** The way round: a retained record last offered on this session is wrapped, the envelope arrives, and the receipt
      that names it comes back. It is admitted, covers that record, and removes it and everything before it, nothing
      else. */
  lemma ReceiptClosesTheLoop(rules: Rules, session: Session, s: State, p: nat, trace: Option<string>,
                             authenticated: Result<Option<Authentication>, Error>, receiptId: string, at: string)
    requires Valid(s) && Retained(s, s.epoch, p) && Identifier(receiptId, 128) && CloudLinkU64(at).Ok?
    requires s.records[p - Earliest(s)].offeredSession == Some(SpoolBinding(session))
    requires DeliveryEnvelope(rules, session, s.records[p - Earliest(s)], trace, authenticated).Ok?
    ensures var e := DeliveryEnvelope(rules, session, s.records[p - Earliest(s)], trace, authenticated).value;
            var ack := ToSpoolAck(ReceiptMessage(e, receiptId, at), session);
      && ack.Ok? && Covers(s, ack.value) && Acknowledge(s, ack.value).Ok?
      && Acknowledge(s, ack.value).value.1 == Applied(p - Earliest(s) + 1)
      && forall q: nat :: Retained(Acknowledge(s, ack.value).value.0, s.epoch, q) <==> Retained(s, s.epoch, q) && q > p
  {
    hide DeliveryEnvelope, ToSpoolAck, CloudLinkU64, ValidContent, EvidenceConsistent;
    var record := s.records[p - Earliest(s)];
    AnswerIsAdmitted(rules, session, record, trace, authenticated, receiptId, at);
    var e := DeliveryEnvelope(rules, session, record, trace, authenticated).value;
    var ack := ToSpoolAck(ReceiptMessage(e, receiptId, at), session).value;
    assert Placed(s, p - Earliest(s));
    IdentifierIsBounded(receiptId);
    OnlyTheOfferingSessionAcknowledges(s, ack);
  }

  lemma IdentifierIsBounded(id: string)
    requires Identifier(id, 128)
    ensures BoundedId(id)
  {}
}
