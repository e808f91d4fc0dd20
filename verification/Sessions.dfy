/** Session acceptance, the durable acknowledgement message, and why only the current session's receipts are
    admitted. */
module Sessions {
  import opened Wrappers
  import opened Decimals
  import opened CloudLink
  import opened Spool

  const ACCEPTED_SCHEMA: string := "aether.cloudlink.session-accepted.v1"
  const DURABLE_ACK_SCHEMA: string := "aether.cloudlink.durable-ack.v1"
  const REPLAY_REQUEST_SCHEMA: string := "aether.cloudlink.replay-request.v1"
  const MAX_CURSORS: nat := 32

  // ---------------------------------------------------------------- negotiation

  datatype Cursor = Cursor(streamId: string, streamEpoch: string, acknowledged: string)

  datatype Accepted = Accepted(schema: string, protocol: string, kind: string, gatewayId: string,
                               selectedVersion: string, sessionId: string, sessionEpoch: string,
                               credentialGeneration: string, serverTime: string, heartbeatInterval: string,
                               resume: seq<Cursor>)

  predicate ValidCursor(c: Cursor) {
    Identifier(c.streamId, 128) && PositiveText(c.streamEpoch) && CloudLinkU64(c.acknowledged).Ok?
  }

  predicate UniqueCursors(cursors: seq<Cursor>) {
    forall i, j :: 0 <= i < j < |cursors| ==>
      (cursors[i].streamId, cursors[i].streamEpoch) != (cursors[j].streamId, cursors[j].streamEpoch)
  }

  predicate ValidCursors(cursors: seq<Cursor>) {
    && |cursors| <= MAX_CURSORS
    && (forall i :: 0 <= i < |cursors| ==> ValidCursor(cursors[i]))
    && UniqueCursors(cursors)
  }

  /** The hash-set scan accepts exactly a bounded list of valid cursors with pairwise distinct identities. */
  method ValidateCursors(cursors: seq<Cursor>) returns (r: Result<(), Error>)
    ensures r.Ok? <==> ValidCursors(cursors)
  {
    hide ValidCursor;
    if |cursors| > MAX_CURSORS { return Err(InvalidField("resume")); }
    var identities: set<(string, string)> := {};
    for n := 0 to |cursors|
      invariant identities == set i | 0 <= i < n :: (cursors[i].streamId, cursors[i].streamEpoch)
      invariant UniqueCursors(cursors[..n]) && forall i :: 0 <= i < n ==> ValidCursor(cursors[i])
    {
      if !ValidCursor(cursors[n]) { return Err(InvalidField("resume")); }
      var identity := (cursors[n].streamId, cursors[n].streamEpoch);
      if identity in identities { return Err(InvalidField("resume")); }
      identities := identities + {identity};
    }
    assert cursors[..|cursors|] == cursors;
    return Ok(());
  }

  predicate ValidAccepted(a: Accepted) {
    && a.schema == ACCEPTED_SCHEMA && a.protocol == PROTOCOL && a.kind == "session-accepted"
    && Uuid(a.gatewayId) && a.selectedVersion == PROTOCOL_VERSION && Uuid(a.sessionId)
    && PositiveText(a.sessionEpoch) && PositiveText(a.credentialGeneration) && CloudLinkU64(a.serverTime).Ok?
    && PositiveText(a.heartbeatInterval) && ValidCursors(a.resume)
  }

  function Bind(a: Accepted, gatewayId: string, generation: nat, offered: seq<string>,
                previousEpoch: nat): Result<Session, Error> {
    if !ValidAccepted(a) then Err(InvalidField("session-accepted"))
    else if a.gatewayId != gatewayId then Err(SessionMismatch)
    else if a.selectedVersion !in offered then Err(VersionNegotiationFailed)
    else
      var epoch := CloudLinkU64(a.sessionEpoch).value;
      var bound := CloudLinkU64(a.credentialGeneration).value;
      if epoch <= previousEpoch || bound != generation then Err(SessionMismatch)
      else Ok(Session(a.gatewayId, a.selectedVersion, a.sessionId, epoch, bound))
  }

  // ---------------------------------------------------------------- messages for one session

  datatype Header = Header(protocolVersion: string, gatewayId: string, sessionId: string, sessionEpoch: string,
                           credentialGeneration: string)

  predicate ValidHeader(h: Header) {
    && h.protocolVersion == PROTOCOL_VERSION && Uuid(h.gatewayId) && Uuid(h.sessionId)
    && PositiveText(h.sessionEpoch) && PositiveText(h.credentialGeneration)
  }

  predicate SessionMatch(session: Session, h: Header) {
    && h.protocolVersion == session.protocolVersion && h.gatewayId == session.gatewayId
      && h.sessionId == session.sessionId
    && CloudLinkU64(h.sessionEpoch) == Ok(session.sessionEpoch)
    && CloudLinkU64(h.credentialGeneration) == Ok(session.credentialGeneration)
  }

  datatype AckMessage = AckMessage(schema: string, protocol: string, kind: string, header: Header, streamId: string,
                                   streamEpoch: string, position: string, batchId: string, digest: string,
                                   receiptId: string, acknowledgedAt: string)

  predicate ValidAckMessage(m: AckMessage) {
    && m.schema == DURABLE_ACK_SCHEMA && m.protocol == PROTOCOL && m.kind == "durable-ack" && ValidHeader(m.header)
    && Identifier(m.streamId, 128) && PositiveText(m.streamEpoch) && PositiveText(m.position)
    && Identifier(m.batchId, 128) && DigestText(m.digest) && Identifier(m.receiptId, 128)
    && CloudLinkU64(m.acknowledgedAt).Ok?
  }

  function ToSpoolAck(m: AckMessage, session: Session): Result<Ack, Error> {
    if !ValidAckMessage(m) then Err(InvalidField("durable-ack"))
    else if !SessionMatch(session, m.header) then Err(SessionMismatch)
    else Ok(Ack(Binding(m.header.sessionId, session.sessionEpoch), m.streamId, CloudLinkU64(m.streamEpoch).value,
                CloudLinkU64(m.position).value, m.batchId, m.digest, m.receiptId))
  }

  /** The one header that names a session. */
  lemma SessionMatchExactly(session: Session, h: Header)
    ensures SessionMatch(session, h) <==>
      && h == Header(session.protocolVersion, session.gatewayId, session.sessionId, Print(session.sessionEpoch),
                     Print(session.credentialGeneration))
      && session.sessionEpoch <= U64_MAX && session.credentialGeneration <= U64_MAX
  {
    hide CloudLinkU64, Print;
    U64SpellingsUnique(h.sessionEpoch, session.sessionEpoch);
    U64SpellingsUnique(h.credentialGeneration, session.credentialGeneration);
  }

  /** The session of a bind is the one the server's answer names, for this gateway and this credential, in a version it
      was offered, and newer than the one before. */
  lemma BoundSession(a: Accepted, gatewayId: string, generation: nat, offered: seq<string>, previousEpoch: nat)
    requires Bind(a, gatewayId, generation, offered, previousEpoch).Ok?
    ensures var s := Bind(a, gatewayId, generation, offered, previousEpoch).value;
      && ValidSession(s) && s.gatewayId == gatewayId && s.credentialGeneration == generation
      && s.protocolVersion in offered && s.sessionEpoch > previousEpoch
      && SessionMatch(s, Header(a.selectedVersion, a.gatewayId, a.sessionId, a.sessionEpoch, a.credentialGeneration))
  {
    hide CloudLinkU64, Uuid, ValidCursors;
    U64SpellingsUnique(a.sessionEpoch, CloudLinkU64(a.sessionEpoch).value);
    U64SpellingsUnique(a.credentialGeneration, CloudLinkU64(a.credentialGeneration).value);
  }

  /** A receipt is admitted exactly if its message is valid and names the session. It then acknowledges, on that
      session, what the message says. */
  lemma ReceiptSays(m: AckMessage, session: Session)
    ensures ToSpoolAck(m, session).Ok? <==> ValidAckMessage(m) && SessionMatch(session, m.header)
    ensures ToSpoolAck(m, session).Ok? ==>
      var ack := ToSpoolAck(m, session).value;
      && ack.session == SpoolBinding(session) && ack.streamId == m.streamId && Print(ack.streamEpoch) == m.streamEpoch
      && Print(ack.position) == m.position && ack.batchId == m.batchId && ack.digest == m.digest
      && ack.receiptId == m.receiptId && 0 < ack.streamEpoch <= U64_MAX && 0 < ack.position <= U64_MAX
  {
    hide CloudLinkU64, Print, Identifier, DigestText, Uuid;
    if ToSpoolAck(m, session).Ok? {
      U64SpellingsUnique(m.streamEpoch, CloudLinkU64(m.streamEpoch).value);
      U64SpellingsUnique(m.position, CloudLinkU64(m.position).value);
    }
  }

  datatype ReplayMessage = ReplayMessage(schema: string, protocol: string, kind: string, header: Header,
                                         streamId: string, streamEpoch: string, fromPosition: string,
                                         requestedAt: string)

  predicate ValidReplayMessage(m: ReplayMessage) {
    && m.schema == REPLAY_REQUEST_SCHEMA && m.protocol == PROTOCOL && m.kind == "replay-request"
      && ValidHeader(m.header)
    && Identifier(m.streamId, 128) && PositiveText(m.streamEpoch) && PositiveText(m.fromPosition)
    && CloudLinkU64(m.requestedAt).Ok?
  }

  // ---------------------------------------------------------------- rising epochs

  /** What the gateway brings to one bind: the server's answer, its current credential, and the versions it offered. */
  datatype Attempted = Attempted(accepted: Accepted, generation: nat, offered: seq<string>)

  /** Sessions bound one after another, each against the epoch of the one before. */
  ghost predicate Chain(sessions: seq<Session>, binds: seq<Attempted>, gatewayId: string, first: nat) {
    |sessions| == |binds| && forall i :: 0 <= i < |sessions| ==> Link(sessions, binds, gatewayId, first, i)
  }

  predicate Link(sessions: seq<Session>, binds: seq<Attempted>, gatewayId: string, first: nat, i: nat)
    requires i < |sessions| == |binds|
  {
    Bind(binds[i].accepted, gatewayId, binds[i].generation, binds[i].offered,
         if i == 0 then first else sessions[i - 1].sessionEpoch) == Ok(sessions[i])
  }

  lemma {:induction false} EpochsRise(sessions: seq<Session>, binds: seq<Attempted>, gatewayId: string, first: nat,
                                      i: nat, j: nat)
    requires Chain(sessions, binds, gatewayId, first) && i < j < |sessions|
    ensures sessions[i].sessionEpoch < sessions[j].sessionEpoch
  {
    hide ValidAccepted;
    assert Link(sessions, binds, gatewayId, first, j);
    if i + 1 < j { EpochsRise(sessions, binds, gatewayId, first, i, j - 1); }
  }

  /** A receipt admitted under one session of a chain is admitted under no other, and names that session's binding. */
  lemma ReceiptsBelongToOneSession(sessions: seq<Session>, binds: seq<Attempted>, gatewayId: string, first: nat,
                                   m: AckMessage, i: nat, j: nat)
    requires Chain(sessions, binds, gatewayId, first)
    requires i < |sessions| && j < |sessions| && ToSpoolAck(m, sessions[i]).Ok?
    ensures ToSpoolAck(m, sessions[i]).value.session == SpoolBinding(sessions[i])
    ensures ToSpoolAck(m, sessions[j]).Ok? <==> i == j
  {
    hide ValidAckMessage, Link;
    if i < j { EpochsRise(sessions, binds, gatewayId, first, i, j); }
    if j < i { EpochsRise(sessions, binds, gatewayId, first, j, i); }
  }

  /** The spool, too, refuses a receipt for a session other than the one that last offered the record. */
  lemma OnlyTheOfferingSessionAcknowledges(s: State, ack: Ack)
    requires Spool.Valid(s) && Acknowledge(s, ack).Ok? && Acknowledge(s, ack).value.1.Applied?
    ensures Covers(s, ack)
    ensures Acknowledge(s, ack).value.1.removed + Earliest(s) == ack.position + 1
    ensures forall p: nat :: Retained(Acknowledge(s, ack).value.0, s.epoch, p) <==>
      Retained(s, s.epoch, p) && p > ack.position
  {
    hide Placed, BoundedId;
  }
}
