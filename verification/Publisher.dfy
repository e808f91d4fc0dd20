/** The publisher of the two durable Integration streams: connect, PUBACK, receipt and replay events against spools that
    other tasks keep filling and a transport whose sends, like the spools' calls, may fail before or after taking
    effect. */
module Publisher {
  import opened Wrappers
  import opened Decimals
  import opened CanonicalJson
  import opened CloudLink
  import opened Envelope
  import opened Delivery
  import JsonReader
  import Producer
  import opened Spool
  import opened Sessions
  import opened SpoolPorts

  const REPLAY_PAGE_SIZE: nat := 256

  // ---------------------------------------------------------------- what is sent

  /** What an observer of the spool and the wire sees, in order. */
  datatype Seen = Marked(identity: Identity) | Sent(identity: Identity)

  datatype Outgoing = Outgoing(route: Producer.Route, text: string, identity: Identity)

  /** What a publisher sends with: the activated extension, the payload rules, and its session. */
  datatype Sender = Sender(extension: Producer.Extension, rules: Rules, session: Session)

  predicate CarriesWith(sender: Sender, message: Outgoing, record: Record,
                        signed: Result<Option<Authentication>, Error>) {
    var envelope := DeliveryEnvelope(sender.rules, sender.session, record, None, signed);
    && message.identity == record.identity && Producer.RouteForRecord(sender.extension, record) == Ok(message.route)
    && envelope.Ok? && Encode(envelope.value) == Ok(message.text)
    && Says(envelope.value, sender.session, record) && message.text == Text(EnvelopeJson(envelope.value))
  }

  /** The message is the text of an envelope that names the session and says what this record says, on the route of the
      record's stream. */
  ghost predicate Carries(sender: Sender, message: Outgoing, record: Record) {
    exists signed :: CarriesWith(sender, message, record, signed)
  }

  lemma SignedCarries(sender: Sender, message: Outgoing, record: Record, signed: Result<Option<Authentication>, Error>)
    requires CarriesWith(sender, message, record, signed)
    ensures Carries(sender, message, record)
  {
    hide CarriesWith;
  }

  /** Read as JSON, by the names on the wire, what is sent names the session and says what the record says. */
  lemma CarriedTextSays(sender: Sender, message: Outgoing, record: Record)
    requires Carries(sender, message, record) && JsonReader.Numeric(record.content.payload)
    ensures TextSays(message.text, sender.session, record)
  {
    hide DeliveryEnvelope, Encode, Text, EnvelopeJson, TextSays, Says, JsonReader.Numeric, Producer.RouteForRecord;
    var signed :| CarriesWith(sender, message, record, signed);
    var e := DeliveryEnvelope(sender.rules, sender.session, record, None, signed).value;
    DeliveredTextSays(e, sender.session, record);
  }

  /** The record has the content its position has in this state, if the state retains it. */
  predicate ContentOf(s: State, record: Record)
    requires Valid(s)
  {
    Retained(s, s.epoch, record.identity.position) ==> record.content == ContentAt(s, record.identity.position)
  }

  ghost predicate ServesWith(sender: Sender, s: State, message: Outgoing, identity: Identity, record: Record) {
    record.identity == identity && Valid(s) && ContentOf(s, record) && Carries(sender, message, record)
  }

  /** The message carries the record of this identity, as it was in the given state. */
  ghost predicate Serves(sender: Sender, s: State, message: Outgoing, identity: Identity) {
    exists record :: ServesWith(sender, s, message, identity, record)
  }

  /** From index `base` on, the messages carry the positions from `from` on, one each and in order. */
  ghost predicate SentInOrder(sender: Sender, s: State, sent: seq<Outgoing>, base: nat, from: nat) {
    base <= |sent| && forall k :: base <= k < |sent| ==> ServedAt(sender, s, sent, base, from, k)
  }

  ghost predicate ServedAt(sender: Sender, s: State, sent: seq<Outgoing>, base: nat, from: nat, k: nat)
    requires base <= k < |sent|
  {
    Serves(sender, s, sent[k], Identity(s.streamId, s.epoch, from + (k - base)))
  }

  lemma OneMoreSent(sender: Sender, s: State, sent: seq<Outgoing>, more: seq<Outgoing>, base: nat, from: nat,
                    record: Record)
    requires SentInOrder(sender, s, sent, base, from) && Valid(s) && ContentOf(s, record)
    requires record.identity == Identity(s.streamId, s.epoch, from + (|sent| - base))
    requires |more| == |sent| + 1 && more[..|sent|] == sent && Carries(sender, more[|sent|], record)
    ensures SentInOrder(sender, s, more, base, from)
  {
    hide Valid, Carries, ContentOf, Serves;
    forall k | base <= k < |more| ensures ServedAt(sender, s, more, base, from, k) {
      if k < |sent| {
        assert ServedAt(sender, s, sent, base, from, k);
        assert more[k] == sent[k];
      } else {
        ServesBy(sender, s, more[k], record);
      }
    }
  }

  lemma ServesBy(sender: Sender, s: State, message: Outgoing, record: Record)
    requires Valid(s) && ContentOf(s, record) && Carries(sender, message, record)
    ensures Serves(sender, s, message, record.identity)
  {
    hide Valid, Carries, ContentOf;
    assert ServesWith(sender, s, message, record.identity, record);
  }

  /** Positions `from`, `from + 1`, ... each marked offered and then sent, once. */
  function Offers(streamId: string, epoch: nat, from: nat, n: nat): seq<Seen> {
    if n == 0 then []
    else
      var identity := Identity(streamId, epoch, from + n - 1);
      Offers(streamId, epoch, from, n - 1) + [Marked(identity), Sent(identity)]
  }

  /** The same, broken off somewhere inside the next offer. */
  predicate OffersUpTo(seen: seq<Seen>, streamId: string, epoch: nat, from: nat, n: nat) {
    var identity := Identity(streamId, epoch, from + n);
    var done := Offers(streamId, epoch, from, n);
    seen == done || seen == done + [Marked(identity)] || seen == done + [Marked(identity), Sent(identity)]
  }

  // ---------------------------------------------------------------- what one event may do

  datatype Outcome = WasConnected(offered: nat) | WasDisconnected | WasPublished | WasAcknowledged(outcome: AckOutcome)
                   | WasReplayed(offered: nat)

  predicate AllOffers(ops: seq<Op>, from: nat, session: Binding) {
    forall i :: from <= i < |ops| ==> ops[i].OpOffer? && ops[i].session == session
  }

  predicate OnlyOffers(before: seq<Op>, after: seq<Op>, session: Binding) {
    before <= after && AllOffers(after, |before|, session)
  }

  predicate OneCall(t: seq<Op>, t': seq<Op>, o: seq<Op>, o': seq<Op>, op: Op) {
    (o' == o && (t' == t || t' == t + [op])) || (t' == t && o' == o + [op])
  }

  /** The operations one event lets this publisher do, given its own before and after. */
  predicate Allowed(session: Session, event: TransportEvent, t: seq<Op>, t': seq<Op>, o: seq<Op>, o': seq<Op>) {
    var binding := SpoolBinding(session);
    if Offering(event) then OnlyOffers(t, t', binding) && OnlyOffers(o, o', binding)
    else if event.Published? then OneCall(t, t', o, o', OpPublished(event.identity, binding))
    else if ReceiptOf(session, event).Some? then OneCall(t, t', o, o', OpAcknowledge(ReceiptOf(session, event).value))
    else t' == t && o' == o
  }

  /** What an event does to the two streams: a receipt may take effect on one of them, the one it names, and does if the
      event succeeded; everything else keeps every record, or names it as lost. */
  ghost predicate Effect(receipt: Option<Ack>, ok: bool, t: State, t': State, o: State, o': State) {
    || ((receipt.None? || !ok) && Keeps(t, t') && Keeps(o, o'))
    || (receipt.Some? && Acked(t, t', receipt.value) && Keeps(o, o'))
    || (receipt.Some? && Keeps(t, t') && Acked(o, o', receipt.value))
  }

  /** The first `n` positions from a retained or already lost one on reach everything assigned before the call, and
      nothing that was not assigned when it ended. */
  predicate ServedAll(before: State, after: State, from: nat, n: nat) {
    Earliest(before) <= from <= Earliest(after) && from + n >= before.next && (n > 0 ==> from + n <= after.next)
  }

  /** One stream was offered from a position on: marked, sent and in order. */
  ghost predicate OfferedFrom(sender: Sender, before: State, seen: seq<Seen>, seen': seq<Seen>, sent: seq<Outgoing>,
                              sent': seq<Outgoing>, from: nat, n: nat) {
    && seen' == seen + Offers(before.streamId, before.epoch, from, n)
    && sent <= sent' && |sent'| == |sent| + n && SentInOrder(sender, before, sent', |sent|, from)
  }

  ghost predicate OfferedAll(sender: Sender, before: State, after: State, seen: seq<Seen>, seen': seq<Seen>,
                             sent: seq<Outgoing>, sent': seq<Outgoing>, from: nat, n: nat) {
    ServedAll(before, after, from, n) && OfferedFrom(sender, before, seen, seen', sent, sent', from, n)
  }

  /** After connecting, everything retained in both streams was marked and sent, topology first. */
  ghost predicate ServedBoth(sender: Sender, t: State, t': State, o: State, o': State, seen: seq<Seen>,
                             seen': seq<Seen>, sent: seq<Outgoing>, sent': seq<Outgoing>, offered: nat) {
    exists a: nat, m: nat, b: nat, n: nat, seenThen, sentThen ::
      m + n == offered && ServedTwo(sender, t, t', o, o', seen, seenThen, seen', sent, sentThen, sent', a, m, b, n)
  }

  ghost predicate ServedTwo(sender: Sender, t: State, t': State, o: State, o': State, seen: seq<Seen>,
                            seenThen: seq<Seen>, seen': seq<Seen>, sent: seq<Outgoing>, sentThen: seq<Outgoing>,
                            sent': seq<Outgoing>, a: nat, m: nat, b: nat, n: nat) {
    && OfferedAll(sender, t, t', seen, seenThen, sent, sentThen, a, m)
    && OfferedAll(sender, o, o', seenThen, seen', sentThen, sent', b, n)
  }

  ghost predicate Replayed(sender: Sender, m: ReplayMessage, before: State, after: State, seen: seq<Seen>,
                           seen': seq<Seen>, sent: seq<Outgoing>, sent': seq<Outgoing>, n: nat) {
    && CloudLinkU64(m.streamEpoch) == Ok(before.epoch) && before.streamId == m.streamId
      && CloudLinkU64(m.fromPosition).Ok?
    && var from := CloudLinkU64(m.fromPosition).value;
    && from + n >= before.next && (n > 0 ==> from + n <= after.next)
    && OfferedFrom(sender, before, seen, seen', sent, sent', from, n)
  }

  predicate GoneThrough(s: State, t: State, p: nat)
    requires Valid(s) && Valid(t)
  {
    Retained(s, s.epoch, p) ==>
      if p <= t.lastAcked then !Retained(t, t.epoch, p)
      else if Retained(t, t.epoch, p) then ContentAt(t, p) == ContentAt(s, p) else Named(t, p)
  }

  /** In the words of the receipt's message: of the stream it names, everything up to the position it names is gone, and
      everything else is as it was or named as lost. */
  ghost predicate AcknowledgedBy(m: AckMessage, s: State, t: State) {
    && Valid(s) && Valid(t) && s.streamId == t.streamId == m.streamId
    && Print(s.epoch) == Print(t.epoch) == m.streamEpoch && Print(t.lastAcked) == m.position
    && forall p: nat :: GoneThrough(s, t, p)
  }

  /** What a successful answer stands for: the receipt was given to a spool, or a replay served the stream it names, one
      of the two, from the position it names up to everything assigned before the call. */
  ghost predicate Answered(sender: Sender, event: TransportEvent, outcome: Outcome, t: State, t': State, o: State,
                           o': State, seen: seq<Seen>, seen': seq<Seen>, sent: seq<Outgoing>, sent': seq<Outgoing>) {
    match event
    case Connected =>
      outcome.WasConnected? && ServedBoth(sender, t, t', o, o', seen, seen', sent, sent', outcome.offered)
    case Disconnected => outcome == WasDisconnected && seen' == seen && sent' == sent
    case Published(_) => outcome == WasPublished && seen' == seen && sent' == sent
    case Received(AckDown(DurableAck(m))) =>
      && outcome.WasAcknowledged? && ReceiptOf(sender.session, event).Some? && seen' == seen && sent' == sent
      && (AcknowledgedBy(m, t, t') || AcknowledgedBy(m, o, o'))
    case Received(ReplayDown(ReplayRequest(m))) =>
      && outcome.WasReplayed? && ValidReplayMessage(m) && SessionMatch(sender.session, m.header)
      && (Replayed(sender, m, t, t', seen, seen', sent, sent', outcome.offered)
          || Replayed(sender, m, o, o', seen, seen', sent, sent', outcome.offered))
    case Received(_) => false
  }

  // ---------------------------------------------------------------- the publisher

  class Publisher {
    const sender: Sender
    const topology: SpoolPort
    const observations: SpoolPort
    var sent: seq<Outgoing>
    ghost var seen: seq<Seen>

    ghost predicate Sound()
      reads this, topology, observations
    {
      topology != observations && topology.Sound() && observations.Sound()
    }

    constructor (sender: Sender, topology: SpoolPort, observations: SpoolPort)
      requires topology != observations && topology.Sound() && observations.Sound()
      ensures Sound() && this.sender == sender && this.topology == topology && this.observations == observations
      ensures sent == [] && seen == []
    {
      this.sender, this.topology, this.observations := sender, topology, observations;
      sent, seen := [], [];
    }

    method Send(message: Outgoing) returns (r: Result<(), PortError>)
      modifies `sent, `seen
      ensures (seen, sent) == (old(seen), old(sent))
        || (seen, sent) == (old(seen) + [Sent(message.identity)], old(sent) + [message])
      ensures r.Ok? ==> seen != old(seen)
    {
      if * { return Err(Unavailable); }
      sent := sent + [message];
      seen := seen + [Sent(message.identity)];
      if * { return Err(Unavailable); }
      return Ok(());
    }

    method OfferRecord(spool: SpoolPort, record: Record, ghost cause: TransportEvent) returns (r: Result<(), PortError>)
      requires spool.Sound() && Offering(cause)
      modifies spool, `sent, `seen
      ensures spool.Sound() && Keeps(old(spool.state), spool.state)
        && Since(old(spool.log), spool.log, sender.session, cause)
      ensures var id, op := record.identity, OpOffer(record.identity, SpoolBinding(sender.session));
        && (OurOps(spool.log) == OurOps(old(spool.log)) || OurOps(spool.log) == OurOps(old(spool.log)) + [op])
        && (seen != old(seen) ==> OurOps(spool.log) == OurOps(old(spool.log)) + [op])
        && (r.Ok? ==> seen == old(seen) + [Marked(id), Sent(id)] && sent != old(sent))
        && (r.Err? ==>
              seen == old(seen) || seen == old(seen) + [Marked(id)] || seen == old(seen) + [Marked(id), Sent(id)])
      ensures
        || sent == old(sent)
        || (|sent| == |old(sent)| + 1 && sent[..|old(sent)|] == old(sent) && Carries(sender, sent[|old(sent)|], record))
    {
      hide Valid, Keeps, Since, DeliveryEnvelope, Encode, Producer.RouteForRecord, Says, Text, EnvelopeJson;
      var route := Producer.RouteForRecord(sender.extension, record);
      if route.Err? {
        NothingDone(spool.state, spool.log, sender.session, cause);
        return Err(InvalidMessage);
      }
      var marked := spool.Mark(OpOffer(record.identity, SpoolBinding(sender.session)), sender.session, cause);
      if marked.Err? { return Err(marked.error); }
      seen := seen + [Marked(record.identity)];
      var signed: Result<Option<Authentication>, Error> := *;
      var envelope := DeliveryEnvelope(sender.rules, sender.session, record, None, signed);
      if envelope.Err? { return Err(InvalidMessage); }
      var encoded := Encode(envelope.value);
      if encoded.Err? { return Err(InvalidMessage); }
      ghost var message := Outgoing(route.value, encoded.value, record.identity);
      DeliveredSays(sender.rules, sender.session, record, None, signed);
      EncodedIsText(envelope.value);
      SignedCarries(sender, message, record, signed);
      r := Send(Outgoing(route.value, encoded.value, record.identity));
      assert sent != old(sent) ==> sent[..|old(sent)|] == old(sent) && sent[|old(sent)|] == message;
      assert old(seen) + [Marked(record.identity)] + [Sent(record.identity)] == old(seen)
        + [Marked(record.identity), Sent(record.identity)];
    }

    /** One page of the replay loop, against the state `s` the whole call began with. */
    method OfferPage(spool: SpoolPort, page: seq<Record>, start: nat, ghost cause: TransportEvent, ghost s: State,
                     ghost from: nat, ghost offered: nat, ghost seenBefore: seq<Seen>, ghost base: nat)
      returns (r: Result<nat, PortError>)
      requires spool.Sound() && Offering(cause) && start == from + offered && page != []
      requires Keeps(s, spool.state) && PageOf(s, page, start)
      requires seen == seenBefore + Offers(s.streamId, s.epoch, from, offered)
      requires SentInOrder(sender, s, sent, base, from) && |sent| == base + offered
      modifies spool, `sent, `seen
      ensures spool.Sound() && Keeps(s, spool.state) && Since(old(spool.log), spool.log, sender.session, cause)
      ensures OnlyGrew(old(spool.state), spool.state)
      ensures SentInOrder(sender, s, sent, base, from) && old(sent) <= sent
      ensures r.Ok? ==> r.value == start + |page| && |sent| == base + offered + |page|
                        && seen == seenBefore + Offers(s.streamId, s.epoch, from, offered + |page|)
      ensures r.Err? ==>
        exists n :: seenBefore <= seen && OffersUpTo(seen[|seenBefore|..], s.streamId, s.epoch, from, n)
    {
      hide Valid, Keeps, Offers, OffersUpTo, Carries, SentInOrder, ContentOf, Since, Legal, OurOps, RunState;
      NothingDone(spool.state, spool.log, sender.session, cause);
      var cursor := start;
      for i := 0 to |page|
        invariant spool.Sound() && Keeps(s, spool.state) && cursor == start + i
          && OnlyGrew(old(spool.state), spool.state)
        invariant Since(old(spool.log), spool.log, sender.session, cause)
        invariant SentInOrder(sender, s, sent, base, from) && |sent| == base + offered + i && old(sent) <= sent
        invariant seen == seenBefore + Offers(s.streamId, s.epoch, from, offered + i)
      {
        assert PageAt(s, page, start, i);
        NextOffer(s.streamId, s.epoch, from, offered + i, seenBefore, seen);
        ghost var mid, sentThen, logBefore := spool.state, sent, spool.log;
        var one := OfferRecord(spool, page[i], cause);
        SinceOnward(old(spool.log), logBefore, spool.log, sender.session, cause);
        KeepsOnward(s, mid, spool.state);
        KeepsGrew(mid, spool.state);
        if sent != sentThen { OneMoreSent(sender, s, sentThen, sent, base, from, page[i]); }
        if one.Err? {
          BrokenOff(s.streamId, s.epoch, from, offered + i, seenBefore, seen);
          return Err(one.error);
        }
        cursor := page[i].identity.position + 1;
      }
      return Ok(cursor);
    }

    /** One page of retained records from a position on. */
    method NextPage(spool: SpoolPort, cursor: nat, ghost cause: TransportEvent, ghost s: State)
        returns (r: Result<seq<Record>, PortError>)
      requires spool.Sound() && Keeps(s, spool.state) && cursor < spool.state.next
      modifies spool
      ensures spool.Sound() && Keeps(s, spool.state) && OnlyGrew(old(spool.state), spool.state)
      ensures Since(old(spool.log), spool.log, sender.session, cause)
      ensures r.Ok? ==> r.value != [] && PageOf(s, r.value, cursor) && cursor + |r.value| <= spool.state.next
    {
      hide Valid, Keeps, PageOf, Legal, ReplayFrom, RunState;
      var window := spool.Replay(cursor, REPLAY_PAGE_SIZE, sender.session, cause);
      KeepsOnward(s, old(spool.state), spool.state);
      KeepsGrew(old(spool.state), spool.state);
      if window.Err? { return Err(window.error); }
      if window.value.dataLoss.Some? { return Err(Conflict); }
      PageIsConsecutive(s, spool.state, cursor, REPLAY_PAGE_SIZE);
      return Ok(window.value.records);
    }

    /** Serves retained records from a position on, page by page, until the position that was next when it began. It
        always ends. It succeeds only after marking and sending every position from `from` on, in order and once each,
        at least up to everything retained when the event came; whenever it stops early it has done so for a prefix. `s`
        is the state the event found. */
    method OfferFrom(spool: SpoolPort, from: nat, ghost cause: TransportEvent, ghost s: State)
        returns (r: Result<nat, PortError>)
      requires spool.Sound() && Offering(cause) && Keeps(s, spool.state)
      modifies spool, `sent, `seen
      ensures spool.Sound() && Keeps(s, spool.state) && Since(old(spool.log), spool.log, sender.session, cause)
      ensures OnlyGrew(old(spool.state), spool.state)
      ensures old(sent) <= sent && SentInOrder(sender, s, sent, |old(sent)|, from)
      ensures r.Ok? ==>
        && OfferedFrom(sender, s, old(seen), seen, old(sent), sent, from, r.value)
        && from + r.value >= old(spool.state.next) && (r.value > 0 ==> from + r.value <= spool.state.next)
      ensures r.Err? ==> exists n :: old(seen) <= seen && OffersUpTo(seen[|old(seen)|..], s.streamId, s.epoch, from, n)
    {
      hide Valid, Keeps, Offers, OffersUpTo, PageOf, Legal, Since, SentInOrder, OurOps, RunState;
      NoneSent(sender, s, sent, from);
      ghost var base := |sent|;
      NoOffers(s.streamId, s.epoch, from);
      AtPrefix(s, from, 0, old(seen), seen);
      ghost var first := spool.state;
      var status := spool.CurrentStatus(sender.session, cause);
      KeepsOnward(s, first, spool.state);
      KeepsGrew(first, spool.state);
      if status.Err? { return Err(status.error); }
      var cursor, offered := from, 0;
      while cursor < status.value.next
        invariant spool.Sound() && Keeps(s, spool.state) && OnlyGrew(first, spool.state)
          && status.value.next <= spool.state.next
        invariant Since(old(spool.log), spool.log, sender.session, cause)
        invariant cursor == from + offered && seen == old(seen) + Offers(s.streamId, s.epoch, from, offered)
        invariant SentInOrder(sender, s, sent, base, from) && |sent| == base + offered && old(sent) <= sent
        invariant offered > 0 ==> cursor <= spool.state.next
        decreases status.value.next - cursor
      {
        AtPrefix(s, from, offered, old(seen), seen);
        ghost var logBefore := spool.log;
        var page := NextPage(spool, cursor, cause, s);
        SinceOnward(old(spool.log), logBefore, spool.log, sender.session, cause);
        if page.Err? { return Err(page.error); }
        if page.value == [] { break; }
        logBefore := spool.log;
        var served := OfferPage(spool, page.value, cursor, cause, s, from, offered, old(seen), base);
        SinceOnward(old(spool.log), logBefore, spool.log, sender.session, cause);
        if served.Err? { return Err(served.error); }
        cursor := served.value;
        offered := offered + |page.value|;
      }
      return Ok(offered);
    }

    method OfferAll(spool: SpoolPort, ghost cause: TransportEvent) returns (r: Result<nat, PortError>)
      requires spool.Sound() && Offering(cause)
      modifies spool, `sent, `seen
      ensures spool.Sound() && Keeps(old(spool.state), spool.state)
        && Since(old(spool.log), spool.log, sender.session, cause)
      ensures r.Ok? ==>
        exists from: nat :: OfferedAll(sender, old(spool.state), spool.state, old(seen), seen, old(sent), sent, from,
                                       r.value)
    {
      hide Valid, Keeps, Offers, SentInOrder, Legal;
      ghost var s := spool.state;
      var status := spool.CurrentStatus(sender.session, cause);
      KeepsGrew(s, spool.state);
      if status.Err? { return Err(status.error); }
      ghost var from := status.value.earliest;
      if status.value.pending == 0 {
        NoOffers(s.streamId, s.epoch, from);
        NoneSent(sender, s, sent, from);
        assert OfferedAll(sender, s, spool.state, old(seen), seen, old(sent), sent, from, 0);
        return Ok(0);
      }
      r := OfferFrom(spool, status.value.earliest, cause, s);
      KeepsGrew(s, spool.state);
      if r.Ok? { assert OfferedAll(sender, s, spool.state, old(seen), seen, old(sent), sent, from, r.value); }
    }

    /** The spool whose current stream identity is the one named, topology first. */
    method SpoolForStream(streamId: string, epoch: nat, ghost cause: TransportEvent)
        returns (r: Result<SpoolPort, PortError>)
      requires Sound()
      modifies topology, observations
      ensures Sound() && Keeps(old(topology.state), topology.state)
        && Keeps(old(observations.state), observations.state)
      ensures Since(old(topology.log), topology.log, sender.session, cause)
      ensures Since(old(observations.log), observations.log, sender.session, cause)
      ensures OurOps(topology.log) == OurOps(old(topology.log))
        && OurOps(observations.log) == OurOps(old(observations.log))
      ensures r.Ok? ==>
        r.value in {topology, observations} && r.value.state.streamId == streamId && r.value.state.epoch == epoch
    {
      hide Valid, Keeps, Legal;
      var status := topology.CurrentStatus(sender.session, cause);
      KeepsItself(observations.state);
      if status.Err? { return Err(status.error); }
      if status.value.streamId == streamId && status.value.streamEpoch == epoch { return Ok(topology); }
      status := observations.CurrentStatus(sender.session, cause);
      if status.Err? { return Err(status.error); }
      if status.value.streamId == streamId && status.value.streamEpoch == epoch { return Ok(observations); }
      return Err(Rejected);
    }

    /** A PUBACK marks the record on the spool of its stream. */
    method TransportPublished(identity: Identity) returns (r: Result<(), PortError>)
      requires Sound()
      modifies topology, observations
      ensures Sound() && Keeps(old(topology.state), topology.state)
        && Keeps(old(observations.state), observations.state)
      ensures Since(old(topology.log), topology.log, sender.session, Published(identity))
      ensures Since(old(observations.log), observations.log, sender.session, Published(identity))
      ensures OneCall(OurOps(old(topology.log)), OurOps(topology.log), OurOps(old(observations.log)),
                      OurOps(observations.log), OpPublished(identity, SpoolBinding(sender.session)))
      ensures r.Ok? ==>
        OurOps(topology.log) != OurOps(old(topology.log)) || OurOps(observations.log) != OurOps(old(observations.log))
    {
      hide Valid, Keeps, Legal;
      ghost var cause := Published(identity);
      var spool := SpoolForStream(identity.streamId, identity.streamEpoch, cause);
      if spool.Err? { return Err(spool.error); }
      ghost var t, o := topology.state, observations.state;
      r := spool.value.Mark(OpPublished(identity, SpoolBinding(sender.session)), sender.session, cause);
      if spool.value == topology {
        KeepsOnward(old(topology.state), t, topology.state);
      } else {
        KeepsOnward(old(observations.state), o, observations.state);
      }
    }

    /** A receipt of the current session goes to the spool of its stream. */
    method GiveReceipt(ack: Ack, ghost cause: TransportEvent) returns (r: Result<AckOutcome, PortError>)
      requires Sound() && ReceiptOf(sender.session, cause) == Some(ack)
      modifies topology, observations
      ensures Sound()
      ensures Effect(Some(ack), r.Ok?, old(topology.state), topology.state, old(observations.state), observations.state)
      ensures Since(old(topology.log), topology.log, sender.session, cause)
      ensures Since(old(observations.log), observations.log, sender.session, cause)
      ensures OneCall(OurOps(old(topology.log)), OurOps(topology.log), OurOps(old(observations.log)),
                      OurOps(observations.log), OpAcknowledge(ack))
    {
      hide Valid, Keeps, Acked, Legal, ReceiptOf, RunState, OurOps;
      var spool := SpoolForStream(ack.streamId, ack.streamEpoch, cause);
      if spool.Err? { return Err(spool.error); }
      ghost var t, o := topology.state, observations.state;
      r := spool.value.Acknowledge(ack, sender.session, cause);
      if spool.value == topology {
        EffectOnward(old(topology.state), t, topology.state, ack);
      } else {
        EffectOnward(old(observations.state), o, observations.state, ack);
      }
    }

    /** Serves the stream a replay request names. */
    method Replay(m: ReplayMessage, ghost cause: TransportEvent) returns (r: Result<nat, PortError>)
      requires Sound() && ValidReplayMessage(m) && cause == Received(ReplayDown(ReplayRequest(m)))
      modifies this, topology, observations
      ensures Sound() && Keeps(old(topology.state), topology.state)
        && Keeps(old(observations.state), observations.state)
      ensures Since(old(topology.log), topology.log, sender.session, cause)
      ensures Since(old(observations.log), observations.log, sender.session, cause)
      ensures OnlyOffers(OurOps(old(topology.log)), OurOps(topology.log), SpoolBinding(sender.session))
      ensures OnlyOffers(OurOps(old(observations.log)), OurOps(observations.log), SpoolBinding(sender.session))
      ensures r.Ok? ==>
        || Replayed(sender, m, old(topology.state), topology.state, old(seen), seen, old(sent), sent, r.value)
        || Replayed(sender, m, old(observations.state), observations.state, old(seen), seen, old(sent), sent, r.value)
    {
      hide Valid, Keeps, Legal, ValidReplayMessage, OfferedFrom, OurOps, RunState, Since;
      PositionsParse(m);
      var spool := SpoolForStream(m.streamId, CloudLinkU64(m.streamEpoch).value, cause);
      KeepsGrew(old(topology.state), topology.state);
      KeepsGrew(old(observations.state), observations.state);
      if spool.Err? { return Err(spool.error); }
      ghost var t, o := topology.log, observations.log;
      if spool.value == topology {
        r := OfferFrom(topology, CloudLinkU64(m.fromPosition).value, cause, old(topology.state));
        SinceOnward(old(topology.log), t, topology.log, sender.session, cause);
        OffersOnly(old(topology.log), topology.log, sender.session, cause);
      } else {
        r := OfferFrom(observations, CloudLinkU64(m.fromPosition).value, cause, old(observations.state));
        SinceOnward(old(observations.log), o, observations.log, sender.session, cause);
        OffersOnly(old(observations.log), observations.log, sender.session, cause);
      }
    }

    /** On connecting, offers everything retained in both streams. */
    method OfferBoth() returns (r: Result<nat, PortError>)
      requires Sound()
      modifies this, topology, observations
      ensures Sound() && Keeps(old(topology.state), topology.state)
        && Keeps(old(observations.state), observations.state)
      ensures Since(old(topology.log), topology.log, sender.session, Connected)
      ensures Since(old(observations.log), observations.log, sender.session, Connected)
      ensures OnlyOffers(OurOps(old(topology.log)), OurOps(topology.log), SpoolBinding(sender.session))
      ensures OnlyOffers(OurOps(old(observations.log)), OurOps(observations.log), SpoolBinding(sender.session))
      ensures r.Ok? ==> ServedBoth(sender, old(topology.state), topology.state, old(observations.state),
                                   observations.state, old(seen), seen, old(sent), sent, r.value)
    {
      hide Valid, Keeps, Legal, OfferedAll, OurOps, RunState, Since;
      NothingDone(observations.state, observations.log, sender.session, Connected);
      var first := OfferAll(topology, Connected);
      OffersOnly(old(topology.log), topology.log, sender.session, Connected);
      if first.Err? { return Err(first.error); }
      ghost var a: nat :| OfferedAll(sender, old(topology.state), topology.state, old(seen), seen, old(sent), sent, a,
                                     first.value);
      ghost var seenThen, sentThen := seen, sent;
      var second := OfferAll(observations, Connected);
      OffersOnly(old(observations.log), observations.log, sender.session, Connected);
      if second.Err? { return Err(second.error); }
      ghost var b: nat :|
        OfferedAll(sender, old(observations.state), observations.state, seenThen, seen, sentThen, sent, b,
                   second.value);
      assert ServedTwo(sender, old(topology.state), topology.state, old(observations.state), observations.state,
                       old(seen), seenThen, seen, old(sent), sentThen, sent, a, first.value, b, second.value);
      return Ok(first.value + second.value);
    }

    /** Connecting, disconnecting, PUBACKs and replays never acknowledge anything: each retained record stays with its
        content or is named as lost. A receipt takes effect on one spool, the one whose stream it names, and only if it
        matches the current session; everything else is rejected without touching a spool. */
    method ProcessEvent(event: TransportEvent) returns (r: Result<Outcome, PortError>)
      requires Sound()
      modifies this, topology, observations
      ensures Sound()
      ensures Since(old(topology.log), topology.log, sender.session, event)
      ensures Since(old(observations.log), observations.log, sender.session, event)
      ensures Allowed(sender.session, event, OurOps(old(topology.log)), OurOps(topology.log),
                      OurOps(old(observations.log)), OurOps(observations.log))
      ensures Effect(ReceiptOf(sender.session, event), r.Ok?, old(topology.state), topology.state,
                     old(observations.state), observations.state)
      ensures r.Ok? ==> Answered(sender, event, r.value, old(topology.state), topology.state, old(observations.state),
                                 observations.state, old(seen), seen, old(sent), sent)
      ensures event.Published? && r.Ok? ==>
        OurOps(topology.log) != OurOps(old(topology.log)) || OurOps(observations.log) != OurOps(old(observations.log))
      ensures event.Disconnected? ==> r == Ok(WasDisconnected)
    {
      hide Valid, Keeps, Acked, Legal, ServedBoth, Replayed, ValidReplayMessage, ValidAckMessage, OurOps, RunState;
      KeepsItself(topology.state);
      KeepsItself(observations.state);
      match event
      case Connected =>
        var offered := OfferBoth();
        if offered.Err? { return Err(offered.error); }
        return Ok(WasConnected(offered.value));
      case Disconnected =>
        return Ok(WasDisconnected);
      case Published(identity) =>
        var done := TransportPublished(identity);
        if done.Err? { return Err(done.error); }
        return Ok(WasPublished);
      case Received(inbound) =>
        r := ProcessInbound(inbound);
    }

    method ProcessInbound(inbound: Inbound) returns (r: Result<Outcome, PortError>)
      requires Sound()
      modifies this, topology, observations
      ensures Sound()
      ensures Since(old(topology.log), topology.log, sender.session, Received(inbound))
      ensures Since(old(observations.log), observations.log, sender.session, Received(inbound))
      ensures Allowed(sender.session, Received(inbound), OurOps(old(topology.log)), OurOps(topology.log),
                      OurOps(old(observations.log)), OurOps(observations.log))
      ensures Effect(ReceiptOf(sender.session, Received(inbound)), r.Ok?, old(topology.state), topology.state,
                     old(observations.state), observations.state)
      ensures r.Ok? ==> Answered(sender, Received(inbound), r.value, old(topology.state), topology.state,
                                 old(observations.state), observations.state, old(seen), seen, old(sent), sent)
    {
      hide Valid, Keeps, Acked, Legal, Replayed, ValidReplayMessage, ValidAckMessage, SessionMatch, OurOps, RunState,
           Since, OneCall, ToSpoolAck;
      NothingDone(topology.state, topology.log, sender.session, Received(inbound));
      NothingDone(observations.state, observations.log, sender.session, Received(inbound));
      match inbound
      case AckDown(message) =>
        if message.Undecodable? { return Err(InvalidMessage); }
        if !message.DurableAck? { return Err(Rejected); }
        var ack := ToSpoolAck(message.ack, sender.session);
        if ack.Err? { return Err(InvalidMessage); }
        var done := GiveReceipt(ack.value, Received(inbound));
        if done.Err? { return Err(done.error); }
        if Acked(old(topology.state), topology.state, ack.value) {
          AckedByMessage(message.ack, sender.session, old(topology.state), topology.state);
        } else {
          AckedByMessage(message.ack, sender.session, old(observations.state), observations.state);
        }
        return Ok(WasAcknowledged(done.value));
      case ReplayDown(message) =>
        if message.Undecodable? { return Err(InvalidMessage); }
        if !message.ReplayRequest? { return Err(Rejected); }
        if !ValidReplayMessage(message.request) || !SessionMatch(sender.session, message.request.header) {
          return Err(InvalidMessage);
        }
        var offered := Replay(message.request, Received(inbound));
        if offered.Err? { return Err(offered.error); }
        return Ok(WasReplayed(offered.value));
      case OtherRoute =>
        return Err(Rejected);
    }
  }

  function SessionsOf(senders: seq<Sender>): (sessions: seq<Session>)
    ensures |sessions| == |senders| && forall i :: 0 <= i < |sessions| ==> sessions[i] == senders[i].session
  {
    seq(|senders|, i requires 0 <= i < |senders| => senders[i].session)
  }

  /** Any number of sessions one after another, each with its own publisher and any events, on the same two streams:
      every record retained at the beginning is accounted for at the end. */
  method ServeSessions(senders: seq<Sender>, events: seq<seq<TransportEvent>>, topology: SpoolPort,
                       observations: SpoolPort)
    requires |senders| == |events| && topology != observations && topology.Sound() && observations.Sound()
    requires topology.log == [] && observations.log == []
    modifies topology, observations
    ensures topology.Sound() && observations.Sound()
    ensures OnChain(topology.log, SessionsOf(senders)) && OnChain(observations.log, SessionsOf(senders))
    ensures forall p: nat :: Retained(old(topology.state), old(topology.state).epoch, p) ==>
      Accounted(old(topology.state), topology.log, p)
    ensures forall p: nat :: Retained(old(observations.state), old(observations.state).epoch, p) ==>
      Accounted(old(observations.state), observations.log, p)
  {
    hide Valid, Keeps, Acked, Effect, Allowed, Answered, RunState, Legal, OurOps, Accounted;
    NothingRun(topology);
    NothingRun(observations);
    for i := 0 to |senders|
      invariant topology.Sound() && observations.Sound()
      invariant OnChain(topology.log, SessionsOf(senders)) && OnChain(observations.log, SessionsOf(senders))
    {
      var publisher := new Publisher(senders[i], topology, observations);
      for j := 0 to |events[i]|
        invariant fresh(publisher) && publisher.Sound() && publisher.sender == senders[i]
        invariant publisher.topology == topology && publisher.observations == observations
        invariant OnChain(topology.log, SessionsOf(senders)) && OnChain(observations.log, SessionsOf(senders))
      {
        ghost var t, o := topology.log, observations.log;
        var _ := publisher.ProcessEvent(events[i][j]);
        ChainGrows(t, topology.log, SessionsOf(senders), i, events[i][j]);
        ChainGrows(o, observations.log, SessionsOf(senders), i, events[i][j]);
      }
    }
    forall p: nat | Retained(old(topology.state), old(topology.state).epoch, p)
      ensures Accounted(old(topology.state), topology.log, p)
    {
      NothingLeavesUnnoticed(topology.start, topology.log, p);
    }
    forall p: nat | Retained(old(observations.state), old(observations.state).epoch, p)
      ensures Accounted(old(observations.state), observations.log, p)
    {
      NothingLeavesUnnoticed(observations.start, observations.log, p);
    }
  }

  lemma NothingRun(port: SpoolPort)
    requires port.Sound() && port.log == []
    ensures port.start == port.state
  {
    hide Valid;
  }

  lemma ChainGrows(before: seq<Did>, after: seq<Did>, sessions: seq<Session>, i: nat, event: TransportEvent)
    requires OnChain(before, sessions) && i < |sessions| && Since(before, after, sessions[i], event)
    ensures OnChain(after, sessions)
  {
    forall k | 0 <= k < |after| ensures ByOneOf(after[k], sessions) {
      if k < |before| { assert ByOneOf(before[k], sessions); } else { assert For(after[k], sessions[i], event); }
    }
  }

  // ---------------------------------------------------------------- small steps

  lemma EncodedIsText(e: Envelope)
    requires Encode(e).Ok?
    ensures Encode(e) == Ok(Text(EnvelopeJson(e)))
  {}

  lemma AckedByMessage(m: AckMessage, session: Session, s: State, t: State)
    requires ToSpoolAck(m, session).Ok? && Acked(s, t, ToSpoolAck(m, session).value)
    ensures AcknowledgedBy(m, s, t)
  {
    hide Valid, ValidAckMessage, SessionMatch, ToSpoolAck, Print;
    ReceiptSays(m, session);
    var ack := ToSpoolAck(m, session).value;
    forall p: nat ensures GoneThrough(s, t, p) { assert AckedAt(s, t, ack, p); }
  }

  lemma PositionsParse(m: ReplayMessage)
    requires ValidReplayMessage(m)
    ensures CloudLinkU64(m.streamEpoch).Ok? && CloudLinkU64(m.fromPosition).Ok?
  {}

  lemma NothingDone(s: State, log: seq<Did>, session: Session, cause: TransportEvent)
    requires Valid(s)
    ensures Keeps(s, s) && Since(log, log, session, cause)
  {}

  lemma SinceOnward(a: seq<Did>, b: seq<Did>, c: seq<Did>, session: Session, cause: TransportEvent)
    requires Since(a, b, session, cause) && Since(b, c, session, cause)
    ensures Since(a, c, session, cause)
  {}

  /** Offering events leave nothing but offers on the session. */
  lemma {:induction false} OffersOnly(before: seq<Did>, after: seq<Did>, session: Session, cause: TransportEvent)
    requires Legal(after) && Since(before, after, session, cause) && Offering(cause)
    ensures OnlyOffers(OurOps(before), OurOps(after), SpoolBinding(session))
  {
    if |after| > |before| {
      var n := |after| - 1;
      OffersOnly(before, after[..n], session, cause);
      assert For(after[n], session, cause) && Permitted(after[n]);
    } else {
      assert before == after;
    }
  }

  lemma KeepsGrew(s: State, t: State)
    requires Keeps(s, t)
    ensures OnlyGrew(s, t)
  {}

  lemma EffectOnward(s: State, m: State, t: State, ack: Ack)
    requires Keeps(s, m)
    ensures Keeps(m, t) ==> Keeps(s, t)
    ensures Acked(m, t, ack) ==> Acked(s, t, ack)
  {
    hide Keeps, Acked;
    if Keeps(m, t) { KeepsOnward(s, m, t); }
    if Acked(m, t, ack) { AckedOnward(s, m, t, ack); }
  }

  lemma NoOffers(streamId: string, epoch: nat, from: nat)
    ensures Offers(streamId, epoch, from, 0) == []
  {}

  lemma NoneSent(sender: Sender, s: State, sent: seq<Outgoing>, from: nat)
    ensures SentInOrder(sender, s, sent, |sent|, from)
  {}

  lemma NextOffer(streamId: string, epoch: nat, from: nat, n: nat, before: seq<Seen>, seen: seq<Seen>)
    requires seen == before + Offers(streamId, epoch, from, n)
    ensures var id := Identity(streamId, epoch, from + n);
      seen + [Marked(id), Sent(id)] == before + Offers(streamId, epoch, from, n + 1)
  {}

  lemma BrokenOff(streamId: string, epoch: nat, from: nat, n: nat, before: seq<Seen>, seen: seq<Seen>)
    requires var id := Identity(streamId, epoch, from + n);
      var done := before + Offers(streamId, epoch, from, n);
      seen == done || seen == done + [Marked(id)] || seen == done + [Marked(id), Sent(id)]
    ensures before <= seen && OffersUpTo(seen[|before|..], streamId, epoch, from, n)
  {
    hide Offers;
    var id := Identity(streamId, epoch, from + n);
    var done := Offers(streamId, epoch, from, n);
    assert (before + done)[|before|..] == done;
    assert (before + done + [Marked(id)])[|before|..] == done + [Marked(id)];
    assert (before + done + [Marked(id), Sent(id)])[|before|..] == done + [Marked(id), Sent(id)];
  }

  lemma AtPrefix(s: State, from: nat, n: nat, before: seq<Seen>, seen: seq<Seen>)
    requires seen == before + Offers(s.streamId, s.epoch, from, n)
    ensures before <= seen && OffersUpTo(seen[|before|..], s.streamId, s.epoch, from, n)
  {
    hide Offers;
    BrokenOff(s.streamId, s.epoch, from, n, before, seen);
  }

  ghost predicate PageAt(s: State, page: seq<Record>, start: nat, i: nat)
    requires i < |page|
  {
    page[i].identity == Identity(s.streamId, s.epoch, start + i) && Valid(s) && ContentOf(s, page[i])
  }

  /** The page holds consecutive positions, with the contents they have in this state if it retains them. */
  ghost predicate PageOf(s: State, page: seq<Record>, start: nat) {
    forall i :: 0 <= i < |page| ==> PageAt(s, page, start, i)
  }

  /** A page without loss evidence starts at the position asked for, is not empty before the next position, and ends
      there at the latest. */
  lemma PageIsConsecutive(s: State, t: State, position: nat, limit: nat)
    requires Keeps(s, t) && limit > 0 && position < t.next && ReplayFrom(t, position, limit).Ok?
    requires ReplayFrom(t, position, limit).value.dataLoss.None?
    ensures var page := ReplayFrom(t, position, limit).value.records;
      page != [] && PageOf(s, page, position) && position + |page| <= t.next
  {
    hide BoundedId, AckConsistent, EvidenceConsistent, LossCovered;
    var page := ReplayFrom(t, position, limit).value.records;
    forall i | 0 <= i < |page| ensures PageAt(s, page, position, i) {
      assert Placed(t, position - Earliest(t) + i);
      assert SameAt(s, t, position + i);
    }
  }
}
