/** Sealed content on its way into the spool: when the spool takes it, and when it counts as a repetition. */
module Sealing {
  import opened Wrappers
  import opened CanonicalJson
  import opened CloudLink
  import opened Envelope
  import opened Observations
  import Producer
  import opened Spool

  /** Content the producer sealed is accepted by the spool unless it expires in the very millisecond it was created:
      sealing lets an expiry equal the creation time, the spool demands a later one. */
  lemma SealedContentEntersSpool(rules: Rules, kind: Kind, batchId: string, payload: Json, createdAt: nat,
                                 expiresAt: Option<nat>)
    requires kind in {IntegrationTopologySnapshot, IntegrationObservationBatch}
    requires PrepareIntegrationValue(rules, kind, batchId, payload, createdAt, expiresAt).Ok?
    ensures var c := PrepareIntegrationValue(rules, kind, batchId, payload, createdAt, expiresAt).value;
      ValidContent(c) <==> expiresAt != Some(createdAt)
  {
    hide MaximumEnvelopeSize, BusinessDigest, DigestText;
    BusinessDigestIsDigest(rules, kind, payload);
    assert Size(payload) > 0 by { hide MembersWeight; }
    assert BoundedId(batchId) by { assert Identifier(batchId, 128); }
  }

  // ---------------------------------------------------------------- an input the spool refuses

  function OneReading(batchId: string): Batch {
    Batch(SCHEMA, "i", "0", batchId, "0", [Observation("e", "p", "0", Unavailable, None, None)])
  }

  lemma OneReadingValid(batchId: string)
    requires Identifier(batchId, 128)
    ensures ValidBatch(OneReading(batchId))
  {
    Decimals.U64SpellingsUnique("0", 0);
    assert Decimals.Print(0) == "0";
  }

  lemma OneReadingFits(batchId: string, includeExpiry: bool)
    requires Identifier(batchId, 128)
    ensures var b := OneReading(batchId);
      && MaximumEnvelopeSize(Producer.KIND, batchId, BatchJson(b), includeExpiry) <= MAX_MESSAGE_BYTES
      && Size(BatchJson(b)) <= MAX_INTEGRATION_BYTES
  {
    hide QuotedSize, MembersWeight, JsonRecords.RecordMembers, JsonRecords.RecordJson, ObservationJson, DescriptorJson,
         AuthenticationJson;
    var b := OneReading(batchId);
    OneReadingValid(batchId);
    var empty, items := PayloadJson(b, []), ObservationJsons(b.observations);
    EmptyPayloadBounded(b);
    ObservationBounded(b.observations[0]);
    PayloadSize(b, items);
    assert items == [ObservationJson(b.observations[0])];
    Producer.SmallWeights(items[0]);
    Producer.DescriptorBounded(batchId);
    Producer.AuthenticationBounded();
    Producer.EnvelopeBounded(WorstEnvelope(Producer.KIND, batchId, empty, includeExpiry));
    Producer.WorstSizeFollowsPayload(batchId, empty, BatchJson(b), includeExpiry);
  }

  /** A batch of one reading that expires when it was created: sealed without error, refused by the spool. */
  lemma SealedCanBeRefused(rules: Rules, batchId: string, at: nat)
    requires Producer.DecodesBatches(rules) && Identifier(batchId, 128)
    ensures var sealed := PrepareIntegrationValue(rules, Producer.KIND, batchId, BatchJson(OneReading(batchId)), at,
                                                  Some(at));
      sealed.Ok? && !ValidContent(sealed.value)
  {
    hide PrepareIntegrationValue, BatchJson, ValidContent, MaximumEnvelopeSize, Size;
    OneReadingValid(batchId);
    OneReadingFits(batchId, true);
    Producer.SealingOne(rules, OneReading(batchId), at, Some(at));
    SealedContentEntersSpool(rules, Producer.KIND, batchId, BatchJson(OneReading(batchId)), at, Some(at));
  }

  // ---------------------------------------------------------------- sealed content determines its digest, and back

  lemma {:induction false} PlainText(s: string)
    requires AllPlain(s)
    ensures EscapedText(s) == s
  {
    if s != "" {
      assert Plain(s[0]);
      PlainText(s[1..]);
    }
  }

  lemma RuntimeManifestReportIsPlain()
    ensures AllPlain("runtime-manifest-report")
  {}

  lemma TelemetryBatchIsPlain()
    ensures AllPlain("telemetry-batch")
  {}

  lemma IntegrationTopologySnapshotIsPlain()
    ensures AllPlain("integration-topology-snapshot")
  {}

  lemma IntegrationObservationBatchIsPlain()
    ensures AllPlain("integration-observation-batch")
  {}

  lemma DataLossIsPlain()
    ensures AllPlain("data-loss")
  {}

  lemma KindIsPlain(kind: Kind)
    ensures AllPlain(KindName(kind))
  {
    hide AllPlain;
    match kind
    case RuntimeManifestReport => RuntimeManifestReportIsPlain();
    case TelemetryBatch => TelemetryBatchIsPlain();
    case IntegrationTopologySnapshot => IntegrationTopologySnapshotIsPlain();
    case IntegrationObservationBatch => IntegrationObservationBatchIsPlain();
    case DataLoss => DataLossIsPlain();
  }

  lemma FirstUnit(s: string)
    requires s != "" && (s[0] as int) < 0x1_0000
    ensures Units(s) != [] && Units(s)[0] == s[0] as int && Units(s)[1..] == Units(s[1..])
  {}

  lemma NamesAscend()
    ensures UnitsLeq(Units("message_kind"), Units("payload"))
    ensures !UnitsLeq(Units("protocol_version"), Units("message_kind"))
      && !UnitsLeq(Units("protocol_version"), Units("payload"))
  {
    hide Units;
    FirstUnit("message_kind");
    FirstUnit("payload");
    FirstUnit("protocol_version");
    var a, b := "payload"[1..], "protocol_version"[1..];
    assert a[0] == 'a' && b[0] == 'r';
    FirstUnit(a);
    FirstUnit(b);
  }

  lemma LastSortsFirst(a: Entry, b: Entry, c: Entry)
    requires NameLeq(b, c) && !NameLeq(a, b) && !NameLeq(a, c)
    ensures SortedByName([a, b, c]) == [b, c, a]
  {
    hide NameLeq;
    assert SortedByName([]) == [];
    assert SortedByName([c]) == [c] by { assert [c][1..] == []; }
    assert SortedByName([b, c]) == [b, c] by { assert [b, c][1..] == [c]; }
    assert [a, b, c][1..] == [b, c];
    assert Inserted(a, [c]) == [c, a] by { assert [c][1..] == [] && Inserted(a, []) == [a]; }
    assert Inserted(a, [b, c]) == [b] + Inserted(a, [c]) by { assert [b, c][1..] == [c]; }
  }

  lemma JoinThree(x: string, y: string, z: string)
    ensures Joined([x, y, z]) == x + "," + y + "," + z
  {
    assert [x, y, z][1..] == [y, z] && [y, z][1..] == [z];
    assert Joined([y, z]) == y + "," + z;
  }

  lemma ThreeTexts(a: Entry, b: Entry, c: Entry)
    ensures EntryTexts([a, b, c]) == [a.text, b.text, c.text]
  {
    assert [a, b, c][1..] == [b, c] && [b, c][1..] == [c] && [c][1..] == [];
    assert EntryTexts([c]) == [c.text];
    assert EntryTexts([b, c]) == [b.text, c.text];
  }

  lemma ThreeEntries(a: Member, b: Member, c: Member)
    ensures Entries([a, b, c]) == [Entry(a.name, Quoted(a.name) + ":" + Text(a.value)),
                                   Entry(b.name, Quoted(b.name) + ":" + Text(b.value)),
                                   Entry(c.name, Quoted(c.name) + ":" + Text(c.value))]
  {
    hide Text, Quoted;
    assert [a, b, c][1..] == [b, c] && [b, c][1..] == [c] && [c][1..] == [];
    assert Entries([c]) == [Entry(c.name, Quoted(c.name) + ":" + Text(c.value))];
    assert |Entries([b, c])| == 2;
  }

  /** What stands before the kind in the text that is hashed, and what stands behind it. */
  function Front(): string { "{" + Quoted("message_kind") + ":" + "\"" }

  function Back(payload: string): string {
    "\"" + "," + (Quoted("payload") + ":" + payload) + ","
      + (Quoted("protocol_version") + ":" + Quoted(PROTOCOL_VERSION)) + "}"
  }

  /** The same pieces, grouped differently. */
  lemma Regroup(open: string, name: string, quote: string, kind: string, rest: string)
    ensures open + (name + (quote + kind + quote) + rest) == (open + name + quote) + kind + (quote + rest)
  {
    assert open + (name + (quote + kind + quote) + rest) == open + name + quote + kind + quote + rest;
    assert open + name + quote + kind + quote + rest == (open + name + quote) + kind + (quote + rest);
  }

  lemma RegroupRest(open: string, kind: string, comma: string, payload: string, version: string, close: string)
    ensures open + (kind + comma + payload + comma + version) + close == open
      + (kind + (comma + payload + comma + version + close))
  {
    assert kind + comma + payload + comma + version + close == kind + (comma + payload + comma + version + close);
    assert open + (kind + comma + payload + comma + version) + close == open
      + (kind + comma + payload + comma + version + close);
  }

  lemma QuotedKind(kind: Kind)
    ensures Quoted(KindName(kind)) == "\"" + KindName(kind) + "\""
  {
    hide KindName, AllPlain, EscapedText;
    KindIsPlain(kind);
    PlainText(KindName(kind));
  }

  /** The text whose hash is the digest, with the kind and the payload in it. */
  lemma DigestInputText(kind: Kind, payload: Json)
    ensures Text(DigestInput(kind, payload)) == Front() + KindName(kind) + Back(Text(payload))
  {
    hide Quoted, Units, AllPlain, KindName, SortedByName, EntryTexts, Joined, Entries, UnitsLeq;
    QuotedKind(kind);
    NamesAscend();
    var v, k, p := Member("protocol_version", Str(PROTOCOL_VERSION)), Member("message_kind", Str(KindName(kind))),
      Member("payload", payload);
    ThreeEntries(v, k, p);
    var a, b, c := Entries([v, k, p])[0], Entries([v, k, p])[1], Entries([v, k, p])[2];
    LastSortsFirst(a, b, c);
    ThreeTexts(b, c, a);
    JoinThree(b.text, c.text, a.text);
    RegroupRest("{", b.text, ",", c.text, a.text, "}");
    var rest := "," + c.text + "," + a.text + "}";
    Regroup("{", Quoted("message_kind") + ":", "\"", KindName(kind), rest);
    assert "{" + (Quoted("message_kind") + ":") + "\"" == Front();
    assert "\"" + rest == Back(Text(payload));
  }

  /** No kind contains a quote, so the kind ends where the first quote is. */
  lemma NotShorter(a: string, b: string, x: string, y: string)
    requires AllPlain(b) && x != "" && x[0] == '\"' && a + x == b + y
    ensures |b| <= |a|
  {
    assert (a + x)[|a|] == '\"';
    assert forall i :: 0 <= i < |b| ==> (b + y)[i] == b[i];
  }

  lemma KindEndsAtQuote(a: string, b: string, x: string, y: string)
    requires AllPlain(a) && AllPlain(b) && x != "" && y != "" && x[0] == '\"' && y[0] == '\"'
    requires a + x == b + y
    ensures a == b && x == y
  {
    NotShorter(a, b, x, y);
    NotShorter(b, a, y, x);
    assert a == (a + x)[..|a|] && b == (b + y)[..|b|];
    assert x == (a + x)[|a|..] && y == (b + y)[|b|..];
  }

  lemma CancelFront(a: string, x: string, y: string)
    requires a + x == a + y
    ensures x == y
  {
    assert x == (a + x)[|a|..] && y == (a + y)[|a|..];
  }

  lemma CancelBack(x: string, y: string, b: string)
    requires x + b == y + b
    ensures x == y
  {
    assert x == (x + b)[..|x|] && y == (y + b)[..|y|];
  }

  lemma KindNamesDiffer(a: Kind, b: Kind)
    requires KindName(a) == KindName(b)
    ensures a == b
  {
    assert KindName(a)[0] == KindName(b)[0] && |KindName(a)| == |KindName(b)|;
    if |KindName(a)| == 29 { assert KindName(a)[12] == KindName(b)[12]; }
  }

  lemma SplitAtKind(front: string, a: string, b: string, x: string, y: string)
    requires AllPlain(a) && AllPlain(b) && x != "" && y != "" && x[0] == '\"' && y[0] == '\"'
    requires front + a + x == front + b + y
    ensures a == b && x == y
  {
    hide AllPlain;
    assert front + a + x == front + (a + x);
    assert front + b + y == front + (b + y);
    CancelFront(front, a + x, b + y);
    KindEndsAtQuote(a, b, x, y);
  }

  lemma BackStarts(p: string)
    ensures Back(p) != "" && Back(p)[0] == '\"'
  {
    hide Quoted;
  }

  lemma BackIsUnique(p: string, q: string)
    requires Back(p) == Back(q)
    ensures p == q
  {
    hide Quoted;
    var head := "\"" + "," + Quoted("payload") + ":";
    var tail := "," + (Quoted("protocol_version") + ":" + Quoted(PROTOCOL_VERSION)) + "}";
    assert Back(p) == head + p + tail;
    assert Back(q) == head + q + tail;
    CancelBack(head + p, head + q, tail);
    CancelFront(head, p, q);
  }

  lemma InputTextsDiffer(a: Kind, p: Json, b: Kind, q: Json)
    requires Text(DigestInput(a, p)) == Text(DigestInput(b, q))
    ensures a == b && Text(p) == Text(q)
  {
    hide Text, KindName, AllPlain, Front, Back, Quoted, DigestInput;
    BackStarts(Text(p));
    BackStarts(Text(q));
    DigestInputText(a, p);
    DigestInputText(b, q);
    KindIsPlain(a);
    KindIsPlain(b);
    var x, y := Back(Text(p)), Back(Text(q));
    SplitAtKind(Front(), KindName(a), KindName(b), x, y);
    KindNamesDiffer(a, b);
    BackIsUnique(Text(p), Text(q));
  }

  /** The hash tells the two inputs apart. */
  predicate NoCollision(rules: Rules, a: Kind, p: Json, b: Kind, q: Json) {
    var x, y := Text(DigestInput(a, p)), Text(DigestInput(b, q));
    rules.sha256(x) == rules.sha256(y) ==> x == y
  }

  /** Two sealed contents have the same digest exactly when they have the same kind and payload bytes. */
  lemma DigestIdentifiesContent(rules: Rules, a: Kind, p: Json, b: Kind, q: Json)
    requires NoCollision(rules, a, p, b, q)
    ensures BusinessDigest(rules, a, p) == BusinessDigest(rules, b, q) <==> a == b && Text(p) == Text(q)
  {
    hide Text, HexText, DigestInput;
    if BusinessDigest(rules, a, p) == BusinessDigest(rules, b, q) {
      var x, y := rules.sha256(Text(DigestInput(a, p))), rules.sha256(Text(DigestInput(b, q)));
      CancelFront("sha256:", HexText(x), HexText(y));
      HexTextUnique(x, y);
      InputTextsDiffer(a, p, b, q);
    }
    if a == b && Text(p) == Text(q) {
      DigestInputText(a, p);
      DigestInputText(b, q);
    }
  }

  /** For sealed contents the spool does promise what its port says: a retained batch id with the same digest, whenever
      it was sealed and however it expires, returns the stored record and changes nothing; with another digest it is
      refused. */
  lemma SealedRepeatIsIdempotent(rules: Rules, s: State, i: nat, b: Enqueue)
    requires Spool.Valid(s) && ValidContent(b) && DistinctBatches(s.records)
    requires i < |s.records| && s.records[i].content.batchId == b.batchId
    requires var a := s.records[i].content;
      && a.digest == BusinessDigest(rules, a.kind, a.payload) && b.digest == BusinessDigest(rules, b.kind, b.payload)
      && NoCollision(rules, a.kind, a.payload, b.kind, b.payload)
    ensures EnqueueRecord(s, b) ==
      if s.records[i].content.digest == b.digest then Ok((s, s.records[i])) else Err(ConflictingIdentity)
  {
    hide Text, ValidContent, FindBatch, BusinessDigest, NoCollision, Spool.Valid;
    var a := s.records[i].content;
    DigestIdentifiesContent(rules, a.kind, a.payload, b.kind, b.payload);
    RepeatIff(s, b, i);
  }
}
