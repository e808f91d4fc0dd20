/** The journal file as bytes: a header, then one frame per entry with its length in front and its checksum behind. How
    a torn end is cut off, what becomes of entries written behind one, and how a file comes into being. */
module Framing {
  import opened Wrappers
  import opened LittleEndian
  import opened CloudLink
  import opened Spool
  import opened Journal
  import FileSpool

  const MAX_ENTRY_BYTES: nat := 2 * 1024 * 1024
  const HEADER: seq<Byte> := [0x41, 0x45, 0x54, 0x48, 0x43, 0x4C, 0x32, 0x0A]

  type U32 = n: nat | n <= U32_MAX

  /** The code this model does not open: the checksum, and the JSON form of an entry. */
  datatype Codec = Codec(checksum: seq<Byte> -> U32, encode: Entry -> seq<Byte>, decode: seq<Byte> -> Option<Entry>)

  predicate Fits(payload: seq<Byte>) { 0 < |payload| <= MAX_ENTRY_BYTES }

  /** Entries within the size bound read back as they were written. */
  ghost predicate Faithful(c: Codec, e: Entry) { Fits(c.encode(e)) && c.decode(c.encode(e)) == Some(e) }

  // ---------------------------------------------------------------- writing and reading frames

  function Frame(c: Codec, payload: seq<Byte>): seq<Byte> {
    ToLittleEndian(|payload|) + payload + ToLittleEndian(c.checksum(payload))
  }

  function Frames(c: Codec, payloads: seq<seq<Byte>>): seq<Byte> {
    if payloads == [] then [] else Frame(c, payloads[0]) + Frames(c, payloads[1..])
  }

  function Prepend(payload: seq<Byte>, r: Result<seq<seq<Byte>>, Corrupt>): Result<seq<seq<Byte>>, Corrupt> {
    if r.Ok? then Ok([payload] + r.value) else r
  }

  /** The length the first four bytes announce. */
  function Announced(bytes: seq<Byte>): nat
    requires |bytes| >= 4
  {
    FromLittleEndian(bytes[..4])
  }

  /** The loop of recovery: a frame that does not end before the file does is cut off. */
  function Parse(c: Codec, bytes: seq<Byte>): Result<seq<seq<Byte>>, Corrupt> {
    if |bytes| < 4 then Ok([])
    else
      var length := Announced(bytes);
      if length == 0 || length > MAX_ENTRY_BYTES then Err(Corrupt)
      else if |bytes| - 4 < length + 4 then Ok([])
      else if c.checksum(bytes[4..4 + length]) != FromLittleEndian(bytes[4 + length..8 + length]) then Err(Corrupt)
      else Prepend(bytes[4..4 + length], Parse(c, bytes[8 + length..]))
  }

  lemma FrameParts(c: Codec, p: seq<Byte>, rest: seq<Byte>)
    requires Fits(p)
    ensures var bytes := Frame(c, p) + rest;
      && |Frame(c, p)| == |p| + 8 && |bytes| == |p| + 8 + |rest| && bytes[..4] == ToLittleEndian(|p|)
      && bytes[4..4 + |p|] == p && bytes[4 + |p|..8 + |p|] == ToLittleEndian(c.checksum(p)) && bytes[8 + |p|..] == rest
  {
    hide ToLittleEndian;
    var head, sum := ToLittleEndian(|p|), ToLittleEndian(c.checksum(p));
    assert |head| == 4 && |sum| == 4 by { LittleEndianSize(|p|); LittleEndianSize(c.checksum(p)); }
    var bytes := Frame(c, p) + rest;
    assert bytes == head + (p + (sum + rest));
    assert bytes[4..] == p + (sum + rest);
    assert bytes[4..][|p|..] == sum + rest;
    assert bytes[4 + |p|..] == sum + rest;
    assert bytes[4 + |p|..8 + |p|] == bytes[4 + |p|..][..4];
    assert bytes[8 + |p|..] == bytes[4 + |p|..][4..];
    assert bytes[4..4 + |p|] == bytes[4..][..|p|];
  }

  lemma LittleEndianSize(n: nat)
    ensures |ToLittleEndian(n)| == 4
  {}

  lemma ParseFrame(c: Codec, p: seq<Byte>, rest: seq<Byte>)
    requires Fits(p)
    ensures Parse(c, Frame(c, p) + rest) == Prepend(p, Parse(c, rest))
  {
    hide ToLittleEndian, FromLittleEndian, Frame;
    FrameParts(c, p, rest);
    LittleEndianRoundTrip(|p|);
    LittleEndianRoundTrip(c.checksum(p));
  }

  ghost predicate AllFit(payloads: seq<seq<Byte>>) { forall i :: 0 <= i < |payloads| ==> Fits(payloads[i]) }

  function Joined(payloads: seq<seq<Byte>>, r: Result<seq<seq<Byte>>, Corrupt>): Result<seq<seq<Byte>>, Corrupt> {
    if r.Ok? then Ok(payloads + r.value) else r
  }

  /** Whole frames read back in order, and reading goes on with whatever is behind them. */
  lemma {:induction false} WholeFrames(c: Codec, payloads: seq<seq<Byte>>, rest: seq<Byte>)
    requires AllFit(payloads)
    ensures Parse(c, Frames(c, payloads) + rest) == Joined(payloads, Parse(c, rest))
  {
    hide Parse, Frame;
    if payloads == [] {
      assert Frames(c, payloads) + rest == rest;
      if Parse(c, rest).Ok? { assert payloads + Parse(c, rest).value == Parse(c, rest).value; }
    } else {
      var tail := payloads[1..];
      WholeFrames(c, tail, rest);
      assert Frames(c, payloads) + rest == Frame(c, payloads[0]) + (Frames(c, tail) + rest);
      ParseFrame(c, payloads[0], Frames(c, tail) + rest);
      if Parse(c, rest).Ok? { assert payloads + Parse(c, rest).value == [payloads[0]] + (tail + Parse(c, rest).value); }
    }
  }

  lemma TornStart(c: Codec, p: seq<Byte>, kept: nat, more: seq<Byte>)
    requires Fits(p) && 4 <= kept < |Frame(c, p)|
    ensures |Frame(c, p)| == |p| + 8 && Announced(Frame(c, p)[..kept] + more) == |p|
  {
    hide ToLittleEndian, FromLittleEndian, Frame;
    FrameParts(c, p, []);
    var frame := Frame(c, p);
    assert frame + [] == frame;
    assert (frame[..kept] + more)[..4] == frame[..4];
    LittleEndianRoundTrip(|p|);
  }

  /** Part of a frame at the end of the file is cut off, wherever it was torn. */
  lemma TornTailIsCut(c: Codec, payloads: seq<seq<Byte>>, p: seq<Byte>, kept: nat)
    requires AllFit(payloads) && Fits(p) && kept < |Frame(c, p)|
    ensures Parse(c, Frames(c, payloads) + Frame(c, p)[..kept]) == Ok(payloads)
  {
    hide Frame, Announced;
    var torn := Frame(c, p)[..kept];
    WholeFrames(c, payloads, torn);
    if kept >= 4 {
      TornStart(c, p, kept, []);
      assert torn + [] == torn;
    }
    assert Parse(c, torn) == Ok([]);
    assert payloads + [] == payloads;
  }

  /** The checksum notices that a torn frame was completed with foreign bytes. */
  ghost predicate Noticed(c: Codec, bytes: seq<Byte>) {
    |bytes| >= 4 ==>
      var length := Announced(bytes);
      |bytes| >= length + 8 ==> c.checksum(bytes[4..4 + length]) != FromLittleEndian(bytes[4 + length..8 + length])
  }

  /** The bytes are too few for what their first four announce, which is an admissible length. */
  predicate Unfinished(bytes: seq<Byte>) {
    |bytes| < 4 || (0 < Announced(bytes) <= MAX_ENTRY_BYTES && |bytes| < Announced(bytes) + 8)
  }

  /** Whatever is written behind a torn frame is never read back. The file can still be read exactly as long as the
      bytes behind do not complete what is announced; then they are cut off together with the torn frame. */
  lemma BehindTorn(c: Codec, payloads: seq<seq<Byte>>, p: seq<Byte>, kept: nat, more: seq<Byte>)
    requires AllFit(payloads) && Fits(p) && 0 < kept < |Frame(c, p)|
    requires Noticed(c, Frame(c, p)[..kept] + more)
    ensures var tail := Frame(c, p)[..kept] + more;
            var r := Parse(c, Frames(c, payloads) + tail);
      && (r.Ok? ==> r == Ok(payloads))
      && (r.Ok? <==> Unfinished(tail))
      && (kept >= 4 ==> (r.Ok? <==> |more| < |Frame(c, p)| - kept))
  {
    hide Frame, Announced;
    var tail := Frame(c, p)[..kept] + more;
    WholeFrames(c, payloads, tail);
    assert payloads + [] == payloads;
    if kept >= 4 { TornStart(c, p, kept, more); }
  }

  // ---------------------------------------------------------------- the file

  function Payloads(c: Codec, journal: seq<Entry>): (payloads: seq<seq<Byte>>)
    ensures |payloads| == |journal| && forall i :: 0 <= i < |journal| ==> payloads[i] == c.encode(journal[i])
  {
    seq(|journal|, i requires 0 <= i < |journal| => c.encode(journal[i]))
  }

  function File(c: Codec, journal: seq<Entry>): seq<Byte> { HEADER + Frames(c, Payloads(c, journal)) }

  function Entries(c: Codec, payloads: seq<seq<Byte>>): Result<seq<Entry>, Corrupt> {
    if payloads == [] then Ok([])
    else
      var n := |payloads| - 1;
      var before :- Entries(c, payloads[..n]);
      if c.decode(payloads[n]).None? then Err(Corrupt) else Ok(before + [c.decode(payloads[n]).value])
  }

  function RecoverFile(c: Codec, bytes: seq<Byte>): Result<State, Corrupt> {
    if |bytes| < 8 || bytes[..8] != HEADER then Err(Corrupt)
    else
      var payloads :- Parse(c, bytes[8..]);
      var entries :- Entries(c, payloads);
      Recover(entries)
  }

  ghost predicate AllFaithful(c: Codec, journal: seq<Entry>) {
    forall i :: 0 <= i < |journal| ==> Faithful(c, journal[i])
  }

  lemma {:induction false} EntriesReturn(c: Codec, journal: seq<Entry>)
    requires AllFaithful(c, journal)
    ensures Entries(c, Payloads(c, journal)) == Ok(journal) && AllFit(Payloads(c, journal))
  {
    if journal != [] {
      var n := |journal| - 1;
      EntriesReturn(c, journal[..n]);
      assert Payloads(c, journal)[..n] == Payloads(c, journal[..n]);
      assert Faithful(c, journal[n]);
      assert journal == journal[..n] + [journal[n]];
      forall i | 0 <= i < |journal| ensures Fits(Payloads(c, journal)[i]) { assert Faithful(c, journal[i]); }
    }
  }

  /** The file of a journal, with or without part of one more entry at its end, recovers as the journal does. */
  lemma FileRecoversJournal(c: Codec, journal: seq<Entry>, e: Entry, kept: nat)
    requires AllFaithful(c, journal) && Faithful(c, e) && kept < |Frame(c, c.encode(e))|
    ensures RecoverFile(c, File(c, journal)) == Recover(journal)
    ensures RecoverFile(c, File(c, journal) + Frame(c, c.encode(e))[..kept]) == Recover(journal)
  {
    hide Frames, Frame, Parse, Recover, Faithful;
    EntriesReturn(c, journal);
    var payloads := Payloads(c, journal);
    var torn := Frame(c, c.encode(e))[..kept];
    EncodedFits(c, e);
    TornTailIsCut(c, payloads, c.encode(e), kept);
    FrameParts(c, c.encode(e), []);
    TornTailIsCut(c, payloads, c.encode(e), 0);
    assert Frames(c, payloads) + Frame(c, c.encode(e))[..0] == Frames(c, payloads);
    assert File(c, journal)[..8] == HEADER && File(c, journal)[8..] == Frames(c, payloads);
    assert (File(c, journal) + torn)[..8] == HEADER && (File(c, journal) + torn)[8..] == Frames(c, payloads) + torn;
  }

  lemma EncodedFits(c: Codec, e: Entry)
    requires Faithful(c, e)
    ensures Fits(c.encode(e))
  {}

  /** An append that failed half-way without a crash: until a compaction replaces the file, later entries land behind
      the fragment and are lost. Recovery brings back the state before the failure as long as they do not complete what
      is announced, and fails after that. Once the length is in the file, that is what the torn entry still misses. */
  lemma AppendsBehindTornAreLost(c: Codec, journal: seq<Entry>, e: Entry, kept: nat, later: seq<Entry>)
    requires AllFaithful(c, journal) && Faithful(c, e) && 0 < kept < |Frame(c, c.encode(e))|
    requires Noticed(c, Frame(c, c.encode(e))[..kept] + Frames(c, Payloads(c, later)))
    ensures var torn, behind := Frame(c, c.encode(e))[..kept], Frames(c, Payloads(c, later));
            var r := RecoverFile(c, File(c, journal) + torn + behind);
      && (if Unfinished(torn + behind) then r == Recover(journal) else r.Err?)
      && (kept >= 4 ==> (Unfinished(torn + behind) <==> |behind| < |Frame(c, c.encode(e))| - kept))
  {
    hide Frames, Frame, Parse, Recover, Faithful, Noticed, Unfinished;
    EntriesReturn(c, journal);
    EncodedFits(c, e);
    var payloads, behind := Payloads(c, journal), Frames(c, Payloads(c, later));
    var torn := Frame(c, c.encode(e))[..kept];
    BehindTorn(c, payloads, c.encode(e), kept, behind);
    var bytes := File(c, journal) + torn + behind;
    assert bytes[..8] == HEADER && bytes[8..] == Frames(c, payloads) + (torn + behind);
  }

  // ---------------------------------------------------------------- a new file

  /** How many bytes the loop of recovery leaves in a file it reads to the end. */
  function WholeBytes(c: Codec, bytes: seq<Byte>): (n: nat)
    ensures n <= |bytes|
  {
    if |bytes| < 4 then 0
    else
      var length := Announced(bytes);
      if length == 0 || |bytes| - 4 < length + 4 then 0 else 8 + length + WholeBytes(c, bytes[8 + length..])
  }

  /** The file after `recover`, which truncates a torn end that it gets to. */
  function AfterRecovery(c: Codec, bytes: seq<Byte>): seq<Byte> {
    if |bytes| < 8 || bytes[..8] != HEADER then bytes
    else
      var payloads := Parse(c, bytes[8..]);
      if payloads.Err? || Entries(c, payloads.value).Err? || ReadAll(Entries(c, payloads.value).value).Err? then bytes
      else bytes[..8 + WholeBytes(c, bytes[8..])]
  }

  function NewFile(c: Codec, s: State): seq<Byte> { File(c, Compacted(s)) }

  /** What `open` returns: an empty file is made a new spool, any other is recovered. */
  function OpenFile(c: Codec, s: State, bytes: seq<Byte>): Result<State, Corrupt> {
    if bytes == [] then Ok(s) else RecoverFile(c, bytes)
  }

  /** The file after an `open` that is interrupted once it has written so many bytes of a new file, in place. */
  function AfterOpen(c: Codec, s: State, bytes: seq<Byte>, written: nat): seq<Byte> {
    if bytes != [] then AfterRecovery(c, bytes)
    else if written < |NewFile(c, s)| then NewFile(c, s)[..written]
    else NewFile(c, s)
  }

  /** The file after any number of such calls. */
  function AfterOpens(c: Codec, s: State, writes: seq<nat>): seq<Byte> {
    if writes == [] then [] else AfterOpen(c, s, AfterOpens(c, s, writes[..|writes| - 1]), writes[|writes| - 1])
  }

  /** The bytes that the first call got to write, if any did. */
  function FirstWrite(writes: seq<nat>): nat {
    if writes == [] then 0
    else if FirstWrite(writes[..|writes| - 1]) != 0 then FirstWrite(writes[..|writes| - 1])
    else writes[|writes| - 1]
  }

  lemma NewFileParts(c: Codec, s: State)
    requires s.records == [] && Faithful(c, CheckpointOf(s))
    ensures NewFile(c, s) == HEADER + Frame(c, c.encode(CheckpointOf(s))) && |NewFile(c, s)| > 16
    ensures AllFaithful(c, Compacted(s))
  {
    hide Frame;
    var e := CheckpointOf(s);
    assert Compacted(s) == [e];
    assert Payloads(c, [e]) == [c.encode(e)];
    assert Frames(c, [c.encode(e)]) == Frame(c, c.encode(e)) + Frames(c, []);
    FrameParts(c, c.encode(e), []);
  }

  /** Part of a new file never recovers, and recovery leaves part of a new file. */
  lemma PartNeverRecovers(c: Codec, s: State, k: nat)
    requires s.records == [] && Faithful(c, CheckpointOf(s)) && 0 < k < |NewFile(c, s)|
    ensures RecoverFile(c, NewFile(c, s)[..k]).Err?
    ensures AfterRecovery(c, NewFile(c, s)[..k]) == NewFile(c, s)[..if k < 8 then k else 8]
  {
    hide Frame, Parse, Frames, Compacted, WholeBytes;
    NewFileParts(c, s);
    if k >= 8 {
      var payload := c.encode(CheckpointOf(s));
      var torn := Frame(c, payload)[..k - 8];
      var bytes := NewFile(c, s)[..k];
      assert bytes[..8] == HEADER && bytes[8..] == torn;
      EncodedFits(c, CheckpointOf(s));
      TornTailIsCut(c, [], payload, k - 8);
      assert Frames(c, []) + torn == torn by { NoFrames(c); }
      TornIsNotWhole(c, payload, k - 8);
      assert bytes[..8] == NewFile(c, s)[..8];
    }
  }

  lemma NoFrames(c: Codec)
    ensures Frames(c, []) == []
  {}

  lemma TornIsNotWhole(c: Codec, p: seq<Byte>, kept: nat)
    requires Fits(p) && kept < |Frame(c, p)|
    ensures WholeBytes(c, Frame(c, p)[..kept]) == 0
  {
    hide Frame, Announced;
    var torn := Frame(c, p)[..kept];
    if kept >= 4 {
      TornStart(c, p, kept, []);
      assert torn + [] == torn;
    }
  }

  /** What the calls leave: nothing, the new file, or part of it for good. */
  lemma {:induction false} OpensLeave(c: Codec, s: State, writes: seq<nat>)
    requires Valid(s) && s.records == [] && Faithful(c, CheckpointOf(s))
    ensures var bytes, first := AfterOpens(c, s, writes), FirstWrite(writes);
      if first == 0 then bytes == []
      else if first < |NewFile(c, s)| then exists k :: 0 < k < |NewFile(c, s)| && bytes == NewFile(c, s)[..k]
      else bytes == NewFile(c, s)
  {
    hide NewFile, AfterRecovery, Valid, Faithful;
    if writes != [] {
      var n := |writes| - 1;
      OpensLeave(c, s, writes[..n]);
      var before, first := AfterOpens(c, s, writes[..n]), FirstWrite(writes[..n]);
      if first == 0 {
        assert writes[n] < |NewFile(c, s)| ==> AfterOpens(c, s, writes) == NewFile(c, s)[..writes[n]];
      } else if first < |NewFile(c, s)| {
        var k :| 0 < k < |NewFile(c, s)| && before == NewFile(c, s)[..k];
        PartNeverRecovers(c, s, k);
        assert AfterOpens(c, s, writes) == NewFile(c, s)[..if k < 8 then k else 8];
      } else {
        WholeStays(c, s);
        NewFileParts(c, s);
      }
    }
  }

  lemma WholeStays(c: Codec, s: State)
    requires s.records == [] && Faithful(c, CheckpointOf(s))
    ensures AfterRecovery(c, NewFile(c, s)) == NewFile(c, s)
  {
    hide Parse, Entries, ReadAll, Frame, WholeBytes, Compacted;
    NewFileParts(c, s);
    var payload := c.encode(CheckpointOf(s));
    EncodedFits(c, CheckpointOf(s));
    assert NewFile(c, s)[8..] == Frame(c, payload);
    FrameIsWhole(c, payload);
  }

  lemma FrameIsWhole(c: Codec, p: seq<Byte>)
    requires Fits(p)
    ensures WholeBytes(c, Frame(c, p)) == |Frame(c, p)|
  {
    hide Frame, ToLittleEndian, FromLittleEndian;
    FrameParts(c, p, []);
    assert Frame(c, p) + [] == Frame(c, p);
    LittleEndianRoundTrip(|p|);
  }

  /** A new file is written in place. Over any number of interrupted calls, the spool can be opened exactly if the first
      call that wrote anything wrote the whole file; otherwise no later call ever opens it. */
  lemma CreationSucceedsIff(c: Codec, streamId: string, capacity: nat, writes: seq<nat>)
    requires NewState(streamId, capacity).Ok? && Faithful(c, CheckpointOf(NewState(streamId, capacity).value))
    ensures var s := NewState(streamId, capacity).value;
            var r, first := OpenFile(c, s, AfterOpens(c, s, writes)), FirstWrite(writes);
      && (r.Ok? <==> first == 0 || first >= |NewFile(c, s)|)
      && (r.Ok? ==> r == Ok(s))
  {
    hide NewFile, AfterOpens, FirstWrite, Faithful, Recover, Compacted, Frame;
    var s := NewState(streamId, capacity).value;
    OpensLeave(c, s, writes);
    var bytes, first := AfterOpens(c, s, writes), FirstWrite(writes);
    NewFileParts(c, s);
    if 0 < first < |NewFile(c, s)| {
      var k :| 0 < k < |NewFile(c, s)| && bytes == NewFile(c, s)[..k];
      PartNeverRecovers(c, s, k);
    } else if first != 0 {
      NewFileRecovers(c, s);
    }
  }

  lemma NewFileRecovers(c: Codec, s: State)
    requires Valid(s) && s.records == [] && Faithful(c, CheckpointOf(s))
    ensures RecoverFile(c, NewFile(c, s)) == Ok(s)
  {
    hide Frame, Valid, Faithful, Recover, Compacted;
    NewFileParts(c, s);
    EncodedFits(c, CheckpointOf(s));
    FrameParts(c, c.encode(CheckpointOf(s)), []);
    FileRecoversJournal(c, Compacted(s), CheckpointOf(s), 0);
    FileSpool.CompactedStands(s);
  }
}
