# AetherEdge: verified models

AetherEdge is the kernel of an edge gateway. It stores business facts durably and delivers them to a cloud, assembles
frames for data processors and judges their answers, enrolls the gateway's identity, mirrors delegated integrations, and
filters events through a shared bitmap. This project models those parts in Dafny and proves what they promise over every
input, every run and every interleaving.

## What is modelled

- **Canonical encodings** (`Decimals`, `Base64Url`, `LittleEndian`, `CanonicalJson`, `JsonRecords`, `JsonStrings`,
  `JsonReader`): each accepted string is the only spelling of its value; the size of a JSON value is the length of its
  canonical text (RFC 8785).
- **CloudLink producer** (`CloudLink`, `Envelope`, `Delivery`, `Observations`, `Partition`, `Producer`): business facts
  are sealed only if their worst-case envelope fits, so they can always be sent later; an oversized observation batch is
  cut greedily into the fewest parts.
- **Durable spool** (`Spool`, `SpoolObject`, `Sealing`, `Journal`, `FileSpool`, `LandedAppends`, `Framing`): positions,
  retention, receipts, overflow evidence, replay, repetition, and recovery from the journal and its bytes after crashes,
  failed appends, failed compactions and an interrupted creation.
- **Sessions and publisher** (`Sessions`, `SpoolPorts`, `Publisher`): which receipts are admitted, and what connect,
  PUBACK, receipt and replay events do to two spools that other tasks keep filling, over any events and any chain of
  sessions.
- **Enrollment** (`Enrollment`): any number of overlapping calls step one stored identity to a claimed one.
- **Integration synchronizer** (`Synchronizer`): snapshots and single observations copied into a projection.
- **Data processing** (`Frames`, `LiveTail`, `Tasks`, `Assembly`, `Results`, `OrderedMap`, `FrameCodec`, `RequestCodec`,
  `Representable`, `Witnesses`): frame assembly, provenance, gaps, route admission, the wire codec, and acceptance of
  results.
- **Subscription bitmap** (`WatchBitmap`): words changed by atomic steps, read as a set of slots.

Conventions. Floating-point numbers are reals and timestamps are naturals. SHA-256, the checksum, name-based UUIDs and
the per-kind payload decoders are function parameters, so results hold for any of them. A port call that can fail is
allowed to fail before or after it takes effect; other tasks may act between any two port calls. Where only success
matters, the model does not distinguish which error a failed check reports. A 64-bit word is the list of its 64 bits.

## Where the code and its documentation part

- `validate_task_contract` says unsupported unit shapes fail at startup. It checks units that are present but not that a
  number has one, and the decoder every encoding passes through demands it (`Witnesses.AdmissionMissesUnits`,
  `Representable.RequestEncodesIff`).
- Sealing says an expiry must be after the creation time but accepts an equal one, which the spool then refuses
  (`Sealing.SealedContentEntersSpool`, `Sealing.SealedCanBeRefused`).
- The spool port says that repeating a batch id with the same digest is idempotent. The code also compares kind and
  payload bytes (`Spool.RepeatIff`, `Spool.SameDigestCanConflict`). For sealed contents the two agree
  (`Sealing.SealedRepeatIsIdempotent`).
- A failed operation of the in-memory spool is expected to change nothing; an enqueue at the last position of a full
  spool has already evicted a record nobody names (`SpoolObject.FailedEnqueueLosesIff`,
  `SpoolObject.FailedEnqueueCanLose`). The file-backed spool works on a copy and is not affected.
- An append that reports an error after its entry reached the file leaves memory and file apart; until a compaction
  replaces the file, a later mutation can make it unreadable (`LandedAppends.RecoverableIff`,
  `LandedAppends.LandedErrorCanCorrupt`). One that fails half-way makes the entries behind it unreadable, again until a
  compaction (`Framing.AppendsBehindTornAreLost`).
- After a call of `compact` that fails once it has replaced the file, mutations are reported as done and are not
  durable. This ends when the counter of mutations reaches its limit and the next one has to compact
  (`FileSpool.UnattachedAgreesIff`, `FileSpool.CompactCallCanLose`). A compaction that a mutation itself has to make
  loses nothing wherever it fails (`FileSpool.ForcedCompactionLosesNothing`).
- A journal is replaced atomically but created in place. A creation interrupted after its first byte and before its last
  leaves a file that no later `open` accepts (`Framing.CreationSucceedsIff`).
- The synchronizer's own check of the next number does not by itself keep numbers in order when others write in between;
  it takes the comparison the sink is asked for (`Synchronizer.Projection.SynchronizeNext`,
  `Synchronizer.UncomparedCanRepeat`).
- A live tail is described as an optimization whose absence must not make a frame unavailable. Its presence can: a live
  value outside its feature's numeric range fails the whole assembly (`Witnesses.LiveValueCanBlockHistory`,
  `Assembly.TailsFitIffInRange`).
- An enrollment begun while no other is in flight sends no claim once the identity is claimed; one that overlaps with
  the claim of another can (`Enrollment.ClaimAfterClaimedIff`, `Enrollment.OverlappingCallsClaimTwice`).

## Model

| member | source | states |
|---|---|---|
| `Decimals.U64SpellingsUnique` | crates/aether-integration-contract/src/validation.rs:79-98 | the contract validator and the CloudLink validator accept the same strings as u64: for each number up to u64::MAX exactly its one decimal spelling, at most 20 digits |
| `Decimals.ContractDecimalExactly` | crates/aether-integration-contract/src/validation.rs:124-168 | the contract's decimal check accepts exactly the domain decimals of at most 96 characters whose fraction has no trailing zero |
| `Decimals.ContractDecimalsUnique` | crates/aether-integration-contract/src/validation.rs:124-168 | two accepted decimals that denote the same rational are the same string, and every accepted decimal also passes the looser domain check |
| `Decimals.DomainDecimalsNotUnique` | crates/aether-domain/src/integration.rs:383-404 | the domain check alone does not give unique spellings |
| `Base64Url.EncodeBase64Url` | crates/aether-integration-contract/src/validation.rs:218-234 | the chunk loop computes the unpadded base64url encoding of the whole byte sequence |
| `Base64Url.EncodeDecodes` | crates/aether-integration-contract/src/validation.rs:218-234 | decoding an encoding gives back the bytes, with the exact encoded length |
| `Base64Url.DecodeEncodes` | crates/aether-integration-contract/src/validation.rs:170-205 | whatever decodes is the encoding of what it decodes to |
| `Base64Url.AcceptsExactlyEncodings` | crates/aether-integration-contract/src/validation.rs:170-205 | the canonical check accepts exactly the encodings of at most 12288 bytes |
| `Base64Url.EncodeInjective` | crates/aether-integration-contract/src/validation.rs:218-234 | different byte sequences have different encodings |
| `Base64Url.AlphabetIs` | crates/aether-integration-contract/src/validation.rs:21-22 | the table is the alphabet of RFC 4648, letter by letter |
| `Base64Url.ChunkSpellsBytes` | crates/aether-integration-contract/src/validation.rs:218-234 | the letters of a chunk spell the number its bytes spell, zero bits filling the last letter |
| `WatchBitmap.HitReadsBit` | crates/aether-dataplane/src/watch_bitmap.rs:201-211 | testing a word against a one-bit mask reads exactly that bit |
| `WatchBitmap.StepRefines` | crates/aether-dataplane/src/watch_bitmap.rs:215-250 | each atomic word step has exactly its set-level effect and keeps bits at or past the capacity clear |
| `WatchBitmap.LastWriterWins` | crates/aether-dataplane/src/watch_bitmap.rs:215-250 | a run leaves a slot watched if and only if it was set with no later erasing step, or was watched at the start and never erased |
| `WatchBitmap.AnyInterleaving` | crates/aether-dataplane/src/watch_bitmap.rs:201-250 | for every interleaving of the atomic steps of any processes' calls the words stay well formed and hold exactly the slots whose last writer was a set |
| `WatchBitmap.OnesCountSlots` | crates/aether-dataplane/src/watch_bitmap.rs:254-259 | in a quiescent state the sum of the words' bit counts is the number of watched slots |
| `WatchBitmap.SubscriptionBitmap.IsWatched` | crates/aether-dataplane/src/watch_bitmap.rs:201-211 | true exactly for the slots in the set, out-of-range slots included |
| `WatchBitmap.SubscriptionBitmap.SetWatched` | crates/aether-dataplane/src/watch_bitmap.rs:215-227 | adds the one slot, or fails and changes nothing when it is out of range |
| `WatchBitmap.SubscriptionBitmap.ClearWatched` | crates/aether-dataplane/src/watch_bitmap.rs:231-243 | removes the one slot, or fails and changes nothing when it is out of range |
| `WatchBitmap.SubscriptionBitmap.ClearAll` | crates/aether-dataplane/src/watch_bitmap.rs:246-250 | empties the set |
| `WatchBitmap.SubscriptionBitmap.SubscriptionCount` | crates/aether-dataplane/src/watch_bitmap.rs:254-259 | the size of the set |
| `WatchBitmap.LayoutExists` | crates/aether-dataplane/src/watch_bitmap.rs:289-318 | a layout exists for exactly the capacities 1 to u32::MAX; the size arithmetic cannot overflow |
| `WatchBitmap.HeaderRoundTrip` | crates/aether-dataplane/src/watch_bitmap.rs:320-361 | a header written for a layout reads back as that layout |
| `WatchBitmap.AcceptedHeadersAreEncodings` | crates/aether-dataplane/src/watch_bitmap.rs:329-361 | an accepted header is byte for byte the one the encoder writes |
| `CanonicalJson.MembersInOrder` | crates/aether-cloudlink/src/integration.rs:286-288 | canonical objects list exactly their members, in the UTF-16 name order of section 3.2.3 of RFC 8785 |
| `CanonicalJson.SizeIsTextLength` | crates/aether-cloudlink/src/integration.rs:286-288 | the recursive size is the number of UTF-8 bytes of the canonical text |
| `JsonStrings.QuotedReads` | crates/aether-cloudlink/src/codec.rs:160-162 | a JSON reader gets back every string that was written in canonical form |
| `JsonStrings.BytesAreUtf8` | crates/aether-cloudlink/src/codec.rs:160-162 | the length that sizes are added up from is that of the UTF-8 encoding |
| `JsonReader.TextReads` | crates/aether-cloudlink/src/codec.rs:160-162 | a JSON reader gets back every value from its canonical text, with the members of each object in canonical order, whatever is behind it |
| `JsonReader.RecordTextReads` | crates/aether-cloudlink/src/codec.rs:461-479 | the text of a serialized struct reads back, and each field is found under its name |
| `JsonRecords.RecordReplace` | crates/aether-cloudlink/src/integration.rs:103-198 | replacing one field of an object changes its size by the difference of the two values |
| `JsonRecords.FieldReads` | crates/aether-cloudlink/src/codec.rs:461-479 | a reader finds each field of a serialized struct under its name, and nothing under the name of a skipped one |
| `Envelope.WorstCaseDominates` | crates/aether-cloudlink/src/integration.rs:252-297 | every envelope that validates is at most as long as the worst case computed from its kind, batch id, payload and presence of an expiry |
| `Envelope.SealedIsAlwaysSendable` | crates/aether-cloudlink/src/codec.rs:178-229 | sealed content is wrapped and encoded without any error, within 256 KiB, for every valid session, key, optional trace, stream and position |
| `Delivery.EnvelopeReads` | crates/aether-cloudlink/src/codec.rs:461-479 | what a reader finds under each of the fourteen names of an envelope |
| `Delivery.DescriptorReads` | crates/aether-cloudlink/src/codec.rs:410-416 | what a reader finds under each of the five names of a delivery descriptor |
| `Delivery.DeliveredSays` | crates/aether-cloudlink/src/codec.rs:178-229 | a wrapped record names the session in every field, and its position, epoch, times, ids, digest, kind and payload are those of the record |
| `Delivery.DeliveredToOneSession` | crates/aether-cloudlink/src/codec.rs:947-967 | over a chain of sessions an envelope matches the session it was wrapped for and no other |
| `Delivery.DeliveredTextSays` | crates/aether-cloudlink/src/codec.rs:178-229 | the text of such an envelope, read as JSON by its names, names the session and says what the record says |
| `Delivery.AnswerIsAdmitted` | crates/aether-cloudlink/src/codec.rs:757-772 | the receipt made from a delivered envelope is admitted on its session and names exactly that record |
| `Delivery.ReceiptClosesTheLoop` | crates/aether-cloudlink/src/codec.rs:757-772 | for a retained record last offered on the session: the receipt that names its envelope is admitted, covers it, and removes it and everything before it, nothing else |
| `Envelope.EnvelopeWithinSealBound` | crates/aether-cloudlink/src/codec.rs:94-99 | whenever wrapping any record succeeds, the encoded length is within the bound computed at seal time, so encoding cannot fail if that bound fits |
| `Envelope.HexTextSays` | crates/aether-cloudlink/src/codec.rs:900-917 | a digest spells the hash, two hexadecimal digits a byte, the high one first |
| `Observations.PayloadSize` | crates/aether-cloudlink/src/integration.rs:299-312 | a batch payload grows by exactly the sizes of its observations and their separators |
| `Observations.BatchReads` | crates/aether-cloudlink/src/integration.rs:299-312 | what a reader finds under each name of an observation batch |
| `Observations.ObservationReads` | crates/aether-integration-contract/src/wire.rs:582-591 | what a reader finds under each name of an observation; a quality is one of four words |
| `Observations.ValueReads` | crates/aether-integration-contract/src/wire.rs:55-95 | a typed value on the wire: the name of its type, its encoding for bytes only, and its value |
| `Observations.BatchJsonUnique` | crates/aether-integration-contract/src/wire.rs:660-667 | two batches with the same wire form are the same batch |
| `Observations.ObservationBounded` | crates/aether-integration-contract/src/wire.rs:594-618 | no validated observation has a canonical form longer than about 45 KB |
| `Observations.DeclaredIff` | crates/aether-integration-contract/src/wire.rs:693-737 | without repeated ids or keys an observation is declared if and only if some entity has its id, and in it some point its key and the type of its value |
| `Partition.FullIsShortest` | crates/aether-cloudlink/src/integration.rs:137-197 | no split under the same per-index bases has fewer parts than one whose parts are full |
| `Partition.CutsRejoin` | crates/aether-cloudlink/src/integration.rs:137-197 | consecutive cuts put together in order are the list |
| `Producer.RoutesFollowStreams` | crates/aether-cloudlink/src/integration.rs:201-230 | with an activated extension two routable records share a route exactly when they share a stream, and then epoch and kind too |
| `Producer.ActivatedIff` | crates/aether-cloudlink/src/integration.rs:42-69 | the extension is activated if and only if both sides name it, the integration id is valid, the streams differ and the epochs are positive |
| `Producer.RoutesExactly` | crates/aether-cloudlink/src/integration.rs:201-230 | a record goes up the topology route if and only if it is a snapshot of the integration on the topology stream, and up the other if and only if it is such an observation batch |
| `Producer.PartitionIdValid` | crates/aether-cloudlink/src/integration.rs:330-338 | partition ids are valid identifiers of at most 128 bytes |
| `Producer.PartitionIdsDistinct` | crates/aether-cloudlink/src/integration.rs:330-338 | distinct indices give distinct ids, however much of the original each keeps |
| `Producer.PartitionIdShape` | crates/aether-cloudlink/src/integration.rs:330-338 | a part id is as much of the original as fits in 128 bytes, then the index and the hash |
| `Producer.PartIdsOfOtherBatches` | crates/aether-cloudlink/src/integration.rs:314-328 | parts of different batches have different ids, unless the first eight bytes of the hash collide |
| `Producer.PartSizeIsExact` | crates/aether-cloudlink/src/integration.rs:150-178 | the running size of the splitter is the exact worst-case envelope size of the part built so far |
| `Producer.AnyObservationFits` | crates/aether-cloudlink/src/integration.rs:168-176 | in a validated batch every observation fits alone in every part, so the splitter is never stuck |
| `Producer.FillPart` | crates/aether-cloudlink/src/integration.rs:157-180 | the inner loop takes the longest run of observations that fits, or reports that not even one does |
| `Producer.SplitBatch` | crates/aether-cloudlink/src/integration.rs:127-197 | the outer loop covers the batch with full sealed parts; neither the size error nor the partition limit is met |
| `Producer.PrepareObservationBatches` | crates/aether-cloudlink/src/integration.rs:103-198 | succeeds for exactly the admissible batches, sealing them whole when they fit and in full parts otherwise; never fails for size |
| `Producer.TopologySealedIff` | crates/aether-cloudlink/src/integration.rs:79-96 | a snapshot is sealed whole under the id of its generation if and only if it is of the integration, its payload is accepted, its worst-case envelope fits and it expires in time; the binding of id and generation never refuses it |
| `Producer.SplitMeansEnvelopesFit` | crates/aether-cloudlink/src/integration.rs:150-178 | the packing problem solved is the one about envelopes: a split is complete exactly when its parts cover the batch and each worst-case envelope fits |
| `Producer.SplitIsLossless` | crates/aether-cloudlink/src/integration.rs:137-197 | the parts are non-empty and concatenate to the original observations in order; each carries its own id and digest, the given times, and otherwise says what the batch says |
| `Producer.SplitIsShortest` | crates/aether-cloudlink/src/integration.rs:137-197 | no other contiguous split with the same ids, each part within the bound, has fewer parts |
| `Producer.SplitIdsDistinct` | crates/aether-cloudlink/src/integration.rs:148-149 | the parts of one split have pairwise distinct batch ids |
| `Spool.StepKeepsValid` | libs/aether-store-local/src/cloudlink_spool.rs:78-341 | every operation keeps: consecutive retained positions up to the next one, capacity, cursor metadata, and unacknowledged losses named exactly by the current evidence |
| `Spool.ReplayNeverSkips` | libs/aether-store-local/src/cloudlink_spool.rs:161-212 | a replay fails exactly for positions already acknowledged and not named as lost; otherwise it returns consecutive records from there, or evidence that starts after the last acknowledgement and ends where retention starts |
| `Spool.OnlyAckOrRecordedLossRemoves` | crates/aether-ports/src/cloudlink.rs:647-691 | a retained position leaves only by a receipt that names a record offered on its own session, or as the evicted oldest record that evidence names; content never changes |
| `Spool.EveryRunBalances` | libs/aether-store-local/src/cloudlink_spool.rs:78-341 | over every run each assigned position is retained with its content, acknowledged or lost, never two of these, and every loss not overtaken by an acknowledgement is named |
| `Spool.Departure` | crates/aether-ports/src/cloudlink.rs:647-691 | over every run, a record no longer retained left at one step, until which it was untouched, by a covering receipt or a named loss |
| `Spool.FindBatchFinds` | libs/aether-store-local/src/cloudlink_spool.rs:84-87 | the look-up finds a record if and only if one carries the batch id, and then the first |
| `Spool.RepeatIff` | crates/aether-ports/src/cloudlink.rs:650-657 | repeating a retained batch id returns the stored record and changes nothing if and only if digest, kind and payload bytes are the same; otherwise it is refused |
| `Spool.BatchesStayDistinct` | libs/aether-store-local/src/cloudlink_spool.rs:78-130 | over every run from a new spool no two retained records carry the same batch id |
| `Spool.SameDigestCanConflict` | libs/aether-store-local/src/cloudlink_spool.rs:84-102 | the same content under another kind, right after it was enqueued, is refused |
| `SpoolObject.SpoolObject.Enqueue` | libs/aether-store-local/src/cloudlink_spool.rs:78-159 | the in-place enqueue does what the specification says; a failed one changes nothing except that a full spool at the last position has already evicted |
| `SpoolObject.SpoolObject.ReplayFrom` | libs/aether-store-local/src/cloudlink_spool.rs:161-212 | the range scan returns the specified window |
| `SpoolObject.SpoolObject.MarkOffered` | libs/aether-store-local/src/cloudlink_spool.rs:214-222 | marks the one retained record, or fails and changes nothing |
| `SpoolObject.SpoolObject.MarkTransportPublished` | libs/aether-store-local/src/cloudlink_spool.rs:224-239 | marks the record only for the session that offered it |
| `SpoolObject.SpoolObject.RemoveThrough` | libs/aether-store-local/src/cloudlink_spool.rs:289-296 | the removal loop drops exactly the records up to the position |
| `SpoolObject.SpoolObject.Acknowledge` | libs/aether-store-local/src/cloudlink_spool.rs:241-302 | applies a matching receipt by removing exactly the covered records, recognises the last one again, and refuses every other |
| `SpoolObject.SpoolObject.RotateStreamEpoch` | libs/aether-store-local/src/cloudlink_spool.rs:323-341 | starts the next epoch only when nothing is pending |
| `SpoolObject.FailedEnqueueLosesIff` | libs/aether-store-local/src/cloudlink_spool.rs:104-123 | a failed enqueue changes the state exactly when the spool is full at the last position; then a record is gone that was neither acknowledged nor named as lost |
| `SpoolObject.FailedEnqueueCanLose` | libs/aether-store-local/src/cloudlink_spool.rs:104-123 | a valid full spool at the last position in which that happens |
| `Sealing.SealedContentEntersSpool` | libs/aether-store-local/src/cloudlink_spool.rs:392-427 | the spool accepts sealed content if and only if it does not expire in the millisecond it was created, which sealing allows |
| `Sealing.SealedCanBeRefused` | crates/aether-cloudlink/src/codec.rs:154-159 | a batch of one reading that is sealed and then refused by the spool |
| `Sealing.DigestIdentifiesContent` | crates/aether-cloudlink/src/codec.rs:900-917 | unless the hash collides, two digests are equal exactly when kind and canonical payload bytes are |
| `Sealing.SealedRepeatIsIdempotent` | crates/aether-ports/src/cloudlink.rs:650-657 | for sealed contents, and unless the hash collides, repeating a retained batch id with the same digest returns its record and changes nothing, and with another digest is refused |
| `Journal.RedoMatches` | libs/aether-store-local/src/file_cloudlink_spool.rs:466-558 | re-applying the journal entry of an operation gives the state the operation gave |
| `Journal.CompactedReads` | libs/aether-store-local/src/file_cloudlink_spool.rs:267-301 | a compacted journal reads back as the state it was written from |
| `FileSpool.NothingIsForgotten` | libs/aether-store-local/src/file_cloudlink_spool.rs:164-183 | every event keeps what is promised about memory, counter and the state a crash brings back: mutations with the compaction the counter forces, appends refused, landed or torn, compactions failing before, between or after replacing the file, restarts with another capacity |
| `FileSpool.RecoveryKeepsPromise` | libs/aether-store-local/src/file_cloudlink_spool.rs:391-464 | over every run of all these events, recovery brings back exactly the promised state as long as the file is not out of step |
| `FileSpool.RecoveryRefinesMemory` | libs/aether-store-local/src/file_cloudlink_spool.rs:88-183 | over every run of mutations, refused appends, compactions failing anywhere inside mutations, and restarts, the recovered spool equals the in-memory spool that performed exactly the operations reported as done |
| `FileSpool.FreshJournal` | libs/aether-store-local/src/file_cloudlink_spool.rs:112-118 | a created journal is in step with the memory of the new spool |
| `FileSpool.CompactionHeals` | libs/aether-store-local/src/file_cloudlink_spool.rs:303-327 | a compaction puts the file in step with the memory whatever went wrong before |
| `FileSpool.ForcedCompactionLosesNothing` | libs/aether-store-local/src/file_cloudlink_spool.rs:164-183 | when the counter forces a compaction and it fails anywhere, the mutation is refused, the file holds the state, and file and memory go on agreeing |
| `FileSpool.UnattachedAgreesIff` | libs/aether-store-local/src/file_cloudlink_spool.rs:142-183 | after a call of compact that failed once it had replaced the file, and any later mutations: memory and file agree if and only if a mutation was forced to compact and got as far as replacing the file, or nothing changed |
| `FileSpool.CompactCallCanLose` | libs/aether-store-local/src/file_cloudlink_spool.rs:142-145 | a new spool, such a call, and one enqueue: the enqueue is reported as done and a crash brings back the empty spool |
| `LandedAppends.OneEntry` | libs/aether-store-local/src/file_cloudlink_spool.rs:466-558 | recovery accepts an entry made from a memory that is behind the file if and only if it outlives what the file holds, spelled out per kind of operation, and file and memory stay alike |
| `LandedAppends.RecoverableIff` | libs/aether-store-local/src/file_cloudlink_spool.rs:349-464 | over every run of mutations whose appends complete, are refused, or fail after landing, with any forced compactions: the file opens if and only if every entry since it was last replaced outlives what was before it, and it opens to what those entries make |
| `LandedAppends.LandedErrorCanCorrupt` | libs/aether-store-local/src/file_cloudlink_spool.rs:349-359 | in a new spool any two enqueues, the first failing after landing, make the file unreadable; a compaction in between saves it |
| `Framing.TornTailIsCut` | libs/aether-store-local/src/file_cloudlink_spool.rs:412-445 | part of an entry at the end of the file is cut off, wherever it was torn |
| `Framing.BehindTorn` | libs/aether-store-local/src/file_cloudlink_spool.rs:412-445 | what is written behind a torn entry is never read back; the file can be read exactly as long as it does not complete the length the torn entry announced |
| `Framing.FileRecoversJournal` | libs/aether-store-local/src/file_cloudlink_spool.rs:391-464 | the bytes of a journal, with or without part of one more entry, recover as the journal does |
| `Framing.AppendsBehindTornAreLost` | libs/aether-store-local/src/file_cloudlink_spool.rs:361-389 | after an append that failed at any byte, and until a compaction, later entries are dropped while the bytes do not complete what is announced, and recovery fails after that |
| `Framing.PartNeverRecovers` | libs/aether-store-local/src/file_cloudlink_spool.rs:391-464 | part of a new file never recovers, and the truncation by recovery leaves part of a new file |
| `Framing.CreationSucceedsIff` | libs/aether-store-local/src/file_cloudlink_spool.rs:88-118 | over any number of interrupted calls of open, the new spool can be opened if and only if the first call that wrote anything wrote the whole file |
| `Sessions.ValidateCursors` | crates/aether-cloudlink/src/session.rs:682-700 | accepts exactly at most 32 valid cursors with pairwise distinct stream and epoch |
| `Sessions.BoundSession` | crates/aether-cloudlink/src/session.rs:568-597 | a bound session is the one the answer names, for this gateway and credential, in an offered version, newer than the one before |
| `Sessions.SessionMatchExactly` | crates/aether-cloudlink/src/codec.rs:947-967 | exactly one header names a session |
| `Sessions.ReceiptSays` | crates/aether-cloudlink/src/codec.rs:757-772 | a receipt is admitted if and only if its message is valid and names the session, and acknowledges the stream, epoch, position, batch, digest and receipt the message spells |
| `Sessions.ReceiptsBelongToOneSession` | crates/aether-cloudlink/src/session.rs:568-597 | along any chain of binds with rising epochs, each with its own credential and offered versions, a receipt admitted under one session is admitted under no other |
| `Sessions.OnlyTheOfferingSessionAcknowledges` | crates/aether-cloudlink/src/codec.rs:757-772 | an applied receipt names a record offered on its session and removes exactly the positions up to its own |
| `Publisher.Publisher.OfferRecord` | crates/aether-cloudlink/src/integration_publisher.rs:198-219 | a record is marked offered on the session before it is sent, whatever fails; what is sent is the text of an envelope that names the session and says what the record says, on the route of the record's stream |
| `Publisher.CarriedTextSays` | crates/aether-cloudlink/src/integration_publisher.rs:198-219 | what is sent, read as JSON by its names, names the session and says what the record says |
| `Publisher.Publisher.OfferFrom` | crates/aether-cloudlink/src/integration_publisher.rs:163-196 | the replay loop ends; on success every position from the requested one on was marked and sent once, in order, each with its own record, at least up to everything retained at the call and at most up to what is assigned at its end; on failure a prefix was |
| `Publisher.Publisher.SpoolForStream` | crates/aether-cloudlink/src/integration_publisher.rs:236-252 | returns one of the two spools, whose current stream identity is the one named |
| `Publisher.Publisher.ProcessInbound` | crates/aether-cloudlink/src/integration_publisher.rs:109-152 | a receipt of the current session takes effect on at most one stream, the one it names, removing exactly the records up to its position, and does so if it succeeds; a successful replay served the stream it names; any other message changes nothing; after an answered receipt everything up to the position its message spells is gone from the stream it names |
| `Publisher.Publisher.ProcessEvent` | crates/aether-cloudlink/src/integration_publisher.rs:82-107 | connects, disconnects, PUBACKs and replays acknowledge nothing and keep every retained record with its content or named as lost; a successful connect marked and sent everything retained in both streams, topology first |
| `Publisher.ServeSessions` | crates/aether-cloudlink/src/integration_publisher.rs:75-107 | over any number of sessions and any events on each, every record retained at the beginning is retained with its content, was taken away by a receipt its session admitted, or was lost from a full spool and is named until a receipt past it |
| `SpoolPorts.NothingLeavesUnnoticed` | crates/aether-ports/src/cloudlink.rs:647-691 | whatever publishers and other tasks did in any order, each retained record is retained with its content; or one step took it away, a receipt admitted by the session current at that moment for a record offered on it; or one step lost it from a full spool, and it is named at the end or a later receipt passed it |
| `SpoolPorts.RemovedByItsOwnSession` | crates/aether-cloudlink/src/session.rs:568-597 | over a chain of sessions, a record neither retained nor named was taken away, or after its loss overtaken, by a receipt that exactly one of them admits, the one that logged it and offered the record |
| `SpoolPorts.SpoolPort.Acknowledge` | crates/aether-ports/src/cloudlink.rs:680-684 | a receipt call that succeeds removed exactly the records up to its position; one that fails removed those or none |
| `SpoolPorts.SpoolPort.Mark` | crates/aether-ports/src/cloudlink.rs:666-678 | a marking call never removes a record or changes its content |
| `Enrollment.StepSafe` | crates/aether-application/src/gateway_enrollment.rs:116-216 | every atomic action of every call keeps the enrollment invariant |
| `Enrollment.AllClaimsAreOne` | crates/aether-application/src/gateway_enrollment.rs:137-176 | in every run, under every failure, all claims ever sent carry the same target, public key and idempotency key, those of the stored identity |
| `Enrollment.ClaimsAfterDurablePending` | crates/aether-application/src/gateway_enrollment.rs:143-176 | a claim leaves only when the pending phase with its key is durable, and phases only move forward |
| `Enrollment.ClaimedFromOwnReceipt` | crates/aether-application/src/gateway_enrollment.rs:143-176 | in every run a claimed identity, stored or returned, was recorded from a receipt that names its own gateway and revision |
| `Enrollment.ClaimAfterClaimedIff` | crates/aether-application/src/gateway_enrollment.rs:139-176 | with fresh keys, a further claim can be sent after the identity is claimed if and only if a call that read a stored identity before that is still short of its claim |
| `Enrollment.NoClaimAfterClaimed` | crates/aether-application/src/gateway_enrollment.rs:116-140 | once the identity is claimed and no call is in flight, nothing called from then on sends a claim |
| `Enrollment.OverlappingCallsClaimTwice` | crates/aether-application/src/gateway_enrollment.rs:121-176 | a reachable run in which a second, overlapping call sends the claim again after the first completed |
| `Enrollment.Enroller.Enroll` | crates/aether-application/src/gateway_enrollment.rs:116-198 | one call, among any others, performs a run of the machine that ends with the result it returns, sends at most one claim, and none if the identity was claimed and nothing else in flight when it began |
| `Synchronizer.NewSnapshot` | crates/aether-domain/src/integration.rs:910-947 | the scan accepts exactly the snapshots whose observations are in scope, have distinct keys, and fit declared points |
| `Synchronizer.FittingIff` | crates/aether-domain/src/integration.rs:910-947 | an observation fits if and only if the first entity with its id has a point with its key, and its value is of that type for good quality and absent otherwise |
| `Synchronizer.UpsertKeepsValid` | crates/aether-application/src/integration_synchronizer.rs:231-257 | an upsert that passed the synchronizer's checks keeps every rule of a snapshot |
| `Synchronizer.UpsertAdvances` | crates/aether-application/src/integration_synchronizer.rs:259-265 | applying a newer observation makes its sequence the last one, whichever entry it replaces |
| `Synchronizer.UpsertKeepsOthers` | crates/aether-ports/src/integration.rs:180-188 | entries of another entity or another point stay |
| `Synchronizer.UpsertReplaces` | crates/aether-ports/src/integration.rs:180-188 | after an upsert there is one entry for the entity and point, the new one, and no entry that was not there |
| `Synchronizer.Projection.SynchronizeSnapshot` | crates/aether-application/src/integration_synchronizer.rs:117-146 | success means the provider's snapshot was committed and the receipt is its own; an acceptable snapshot nobody interfered with fails only with its port; the projection always equals the replay of its commits |
| `Synchronizer.Projection.SynchronizeNext` | crates/aether-application/src/integration_synchronizer.rs:152-204 | commits only the observation with the number after the last one read, under the topology in force; read undisturbed, any other observation asks for a resynchronization and commits nothing; ordered commits stay ordered exactly when the last number is still the one read, which a comparing sink ensures |
| `Synchronizer.UncomparedCanRepeat` | crates/aether-ports/src/integration.rs:180-188 | without the comparison in the sink an observation committed by another task in between is committed once more |
| `Synchronizer.OrderedExactly` | crates/aether-application/src/integration_synchronizer.rs:175-181 | a commit keeps the order exactly when its number is the one after the last |
| `Synchronizer.ConsecutiveSinceSnapshot` | crates/aether-application/src/integration_synchronizer.rs:175-181 | in ordered commits the numbers applied since a snapshot count up from its maximum plus one, and each observation fits its topology |
| `Frames.ProvenanceRulesAgree` | crates/aether-domain/src/data_processing.rs:1395-1437 | the domain's count rule and the wire validator's distinct-and-complete rule accept the same provenance lists |
| `Frames.NewestExactly` | crates/aether-application/src/data_processing.rs:986-999 | the input watermark is the maximum over the sources that are neither calendar nor constant, and there is none if and only if there is no such source |
| `Frames.GapIsLongestStretch` | crates/aether-domain/src/data_processing.rs:1060-1086 | the maximum gap is the longest interval without a usable observation over all series, both window ends included, and never below the cadence |
| `LiveTail.AcceptSamples` | crates/aether-application/src/data_processing.rs:1117-1133 | the live tail is used only if every mapped sample is present, current, finite and usable |
| `LiveTail.MergeLiveTail` | crates/aether-application/src/data_processing.rs:1090-1202 | the stored history stands unchanged unless every mapping has a usable sample at the cutoff; then exactly the mapped series are merged and re-sourced, and it fails if and only if a merged series breaks its definition |
| `LiveTail.MergedIsHistory` | crates/aether-application/src/data_processing.rs:1197-1200 | a merged history meets every rule of a history, so rebuilding the segment and its sources cannot fail |
| `LiveTail.OnlyTheLastCell` | crates/aether-application/src/data_processing.rs:1156-1179 | a merge alters only the last cell of mapped series and makes it usable |
| `LiveTail.LiveIsFilter` | crates/aether-application/src/data_processing.rs:1096-1101 | the live-tail mappings are the marked ones, in order |
| `LiveTail.MergedSays` | crates/aether-application/src/data_processing.rs:1137-1196 | a series without a live-tail mapping is unchanged; one with a mapping ends in the sample of the first such mapping, with its quality, and its source says history and live at the cutoff |
| `LiveTail.MergeKeepsGap` | crates/aether-application/src/data_processing.rs:1090-1202 | a merge leaves the observation gap exactly unchanged |
| `LiveTail.MergeNeverAddsMissing` | crates/aether-application/src/data_processing.rs:1090-1202 | a merge never raises the number of missing cells |
| `LiveTail.FrameCellCounts` | crates/aether-application/src/data_processing.rs:1475-1516 | the loops count missing, substituted and all cells of a frame |
| `Tasks.BudgetIsSound` | crates/aether-application/src/data_processing.rs:1258-1314 | on an admitted route the run-time cell check can neither overflow nor reject |
| `Tasks.BudgetIsTight` | crates/aether-application/src/data_processing.rs:1258-1314 | at the longest horizon the count at admission is the count at run time |
| `Tasks.DurationsAreWholeSeconds` | crates/aether-application/src/data_processing.rs:1384-1406 | for an aligned cutoff the cadence and the maximum gap are whole seconds, so the wire durations cannot fail |
| `Assembly.SeriesIsFeature` | crates/aether-application/src/data_processing.rs:1408-1427 | the one-sided segment check still means that every series is one of the task's features |
| `Assembly.SourcesFollow` | crates/aether-application/src/data_processing.rs:1450-1473 | a response whose series match the task always passes the check of its sources |
| `Assembly.ConstraintsFollow` | crates/aether-application/src/data_processing.rs:1429-1448 | a response never breaks the numeric constraints it is checked against again |
| `Assembly.TailsFitIffInRange` | crates/aether-application/src/data_processing.rs:1156-1179 | on a commissioned route merging the live tail fails exactly when a live value is out of its feature's range |
| `Witnesses.LiveValueCanBlockHistory` | crates/aether-application/src/data_processing.rs:1109-1113 | admitted routes on which the window is available without a live value and unavailable with one, although the live tail is meant never to do that |
| `Assembly.AssembleHistory` | crates/aether-application/src/data_processing.rs:817-876 | succeeds exactly when the response lies on the task's grid and no live value is out of range; the result is the stored history, with the live tail merged exactly when it is ready, and has the stored gap |
| `Assembly.AssembleFuture` | crates/aether-application/src/data_processing.rs:878-938 | succeeds exactly when no covariates are needed or they lie on the horizon's grid, and changes nothing |
| `Assembly.JoinedSourcesMatch` | crates/aether-application/src/data_processing.rs:967-985 | after the checks on each response, the three source checks and the count check on the joined list pass |
| `Assembly.TimelyExactly` | crates/aether-application/src/data_processing.rs:986-1050 | the checks of lateness, age, issue time, missing cells and gap accept exactly the frames that are timely, stated source by source |
| `Assembly.SourcesSay` | crates/aether-application/src/data_processing.rs:940-961 | the joined list is the sources of the responses followed by one constant as of the cutoff for each static feature |
| `Assembly.JoinSources` | crates/aether-application/src/data_processing.rs:940-1077 | joins sources and counts cells, refuses exactly what fails the joined source checks or is not timely, and takes the newest watermark |
| `Assembly.ConstructorAccepts` | crates/aether-domain/src/data_processing.rs:1353-1461 | after those checks the frame's constructor cannot refuse |
| `Assembly.AssembleFrame` | crates/aether-application/src/data_processing.rs:781-1088 | succeeds if and only if both responses are as asked for and the frame they make is timely and within the task's limits; the result is that frame, valid and on the route; its watermark is the newest of the two responses |
| `Results.AcceptedIff` | crates/aether-application/src/data_processing.rs:1518-1750 | a result is accepted if and only if it encodes, answers the request (ids, digest, watermark, processor, contract, times, artifact, expiry), and is an output on the requested grid with the requested quantiles, such an output that repeats the latest target value as a persistence policy allows, or no output |
| `Results.OnlyPersistence` | crates/aether-data-processing/src/codec.rs:155-163 | on an admitted route the only acceptable fallback is persistence of the forecast target |
| `Results.AcceptedFallbackIsFlat` | crates/aether-application/src/data_processing.rs:1582-1748 | an accepted fallback repeats the latest usable history value of the target in every point and quantile, on the grid continuing the frame up to the horizon |
| `OrderedMap.Collect` | crates/aether-data-processing/src/codec.rs:589-614 | the map-filling loop gives the entries in name order, or nothing if a name repeats |
| `OrderedMap.BuildsIffDistinct` | crates/aether-data-processing/src/codec.rs:589-614 | it succeeds exactly when no name repeats |
| `OrderedMap.LessExactly` | crates/aether-data-processing/src/codec.rs:589-614 | the order of keys is a proper prefix, or the smaller character at the first difference |
| `FrameCodec.DecodedReEncodes` | crates/aether-data-processing/src/codec.rs:540-587 | whatever frame decodes encodes again to the same wire value |
| `FrameCodec.FrameNormalizes` | crates/aether-data-processing/src/codec.rs:500-538 | decoding an encoded frame gives it with features sorted by name and numeric constraints erased |
| `FrameCodec.SegmentWireSays` | crates/aether-data-processing/src/codec.rs:589-624 | the wire form of a segment has its instants in order and every series under its name, with kind, unit, values and quality |
| `FrameCodec.FrameWireSays` | crates/aether-data-processing/src/codec.rs:500-538 | the wire form of a frame says its cutoff, cadence, gap, watermark, counts and sources |
| `FrameCodec.FrameRoundTrip` | crates/aether-data-processing/src/codec.rs:500-587 | a frame that encodes and decodes comes back in that normal form, which has the same wire value |
| `RequestCodec.DigestIsStable` | crates/aether-data-processing/src/codec.rs:101-133 | the input digest is unchanged by that normalization |
| `RequestCodec.DigestBinds` | crates/aether-data-processing/src/codec.rs:101-133 | unless the digester collides, two requests have the same digest if and only if task, binding, contract, artifact, frame on the wire and options are the same |
| `RequestCodec.RequestRoundTrip` | crates/aether-data-processing/src/dto.rs:34-41 | whenever encoding succeeds, decoding gives the normal form of the request, with the same digest, and encoding it again gives the same wire value |
| `Representable.NormalFrameValid` | crates/aether-domain/src/data_processing.rs:1353-1461 | the normal form of a valid frame is a valid frame |
| `Representable.NormalKeepsGap` | crates/aether-data-processing/src/codec.rs:565-570 | reordering the series does not change the maximum gap |
| `Representable.FrameHasTaskFeatures` | crates/aether-application/src/data_processing.rs:1316-1427 | an assembled frame carries exactly the task's features |
| `Representable.FrameEncodesIff` | crates/aether-data-processing/src/codec.rs:500-538 | an assembled frame encodes if and only if its last instant can be printed |
| `Representable.FrameDecodesIff` | crates/aether-data-processing/src/codec.rs:540-587 | its wire value decodes if and only if every number has a unit and no instant is past the year 9999 |
| `Representable.RequestEncodesIff` | crates/aether-data-processing/src/codec.rs:140-203 | on an admitted route a request can be built and encoded if and only if the task gives every number a unit and neither deadline nor last label is past the year 9999 |
| `Witnesses.OneStepFrame` | crates/aether-application/src/data_processing.rs:781-1088 | admitted routes on which frames are assembled do exist |
| `Witnesses.AdmissionMissesUnits` | crates/aether-data-processing/src/codec.rs:179-189 | admitted routes that assemble a frame although a number has no unit, and never encode a request, whatever its id, times and digests |

## Left out

- FileSpool.RecoveryKeepsPromise: journals this code did not write are not modelled; a file out of step is characterised by LandedAppends.RecoverableIff and Framing.AppendsBehindTornAreLost, but a process that opens such a file is not followed further.
- FileSpool.FreshJournal: bytes reach the file in order; what a crash does to unsynchronised writes beyond that is not modelled.
- Framing.BehindTorn: assumes that the checksum notices a torn entry completed with foreign bytes; the JSON form of an entry is a parameter that reads back what it wrote.
- Publisher.Publisher.OfferFrom: while one event is processed the other tasks on a spool only enqueue.
- Sealing.DigestIdentifiesContent: assumes that the hash tells the two inputs apart.
- Producer.PartIdsOfOtherBatches: assumes that the first eight bytes of the hash tell the two batches apart.
- RequestCodec.DigestBinds: assumes that the digester tells the two requests apart.
- JsonReader.TextReads: every number in the value carries number text, which is what a canonical number is; surrogate escapes, which canonical text never has, are not read.
- Observations.DeclaredIff: unique ids and keys are taken from the topology's own validation.
- Producer.PrepareObservationBatches: takes the strict JSON decoder as the inverse of the serializer, and the verdict of the topology's own validation as given.
- Observations.ObservationBounded: a float is carried as its canonical text of at most 25 ASCII characters.
- Results.AcceptedFallbackIsFlat: compares values as reals, not as bit patterns, so the two zeros are one value.
- WatchBitmap.OnesCountSlots: counting while other processes write is not modelled; memory ordering is sequential.
- Synchronizer.Projection.SynchronizeSnapshot: an equal topology digest is taken to mean an equal topology.
- FrameCodec.FrameRoundTrip: RFC 3339 text is an abstract instant with the formatter's and the parser's upper bounds; JSON text and the filter for explicit nulls are not modelled.
- Topology snapshots on the wire and in the domain (uniqueness and references of areas, devices and entities): only the verdict of their validation is used.
- Ed25519 signatures, session challenges, heartbeats, and telemetry and manifest payloads are not modelled.
- Aggregation and duplicate policies of history sources, audit records, deadlines and concurrency limits of the processing application are not modelled.
- Files, memory maps and locks behind the bitmap and the identity store are not modelled.
- Result and derived-data wire codecs are not modelled.
- Audit-governed facades, routing, rules, alarms and channel management are not modelled.
