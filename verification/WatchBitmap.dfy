/** The shared subscription bitmap: 64-bit words changed by single atomic steps from several processes, read as a plain
    set of slots; and the versioned header in front of the words. */
module WatchBitmap {
  import opened Wrappers
  import opened LittleEndian

  const WORD_BITS: nat := 64
  const MAGIC: seq<Byte> := [0x41, 0x45, 0x54, 0x48, 0x50, 0x57, 0x42, 0x4D]
  const VERSION: nat := 1
  const HEADER_SIZE: nat := 32

  /** A `u64` as its 64 bits, the least significant first. */
  type Word = w: seq<bool> | |w| == 64 witness Zero()

  function Zero(): seq<bool> { seq(64, i => false) }

  datatype LayoutError = ZeroCapacity | CapacityExceedsU32 | SizeOverflow | BadMagic | BadVersion
                       | ReservedBytes | WordCountMismatch | SlotOutOfBounds

  // ---------------------------------------------------------------- one word

  /** `1_u64 << i` */
  function Mask(i: nat): Word { seq(64, j => i == j) }

  function Or(a: Word, b: Word): Word { seq(64, j requires 0 <= j < 64 => a[j] || b[j]) }

  function And(a: Word, b: Word): Word { seq(64, j requires 0 <= j < 64 => a[j] && b[j]) }

  function Not(a: Word): Word { seq(64, j requires 0 <= j < 64 => !a[j]) }

  /** `word & mask != 0` */
  predicate Hit(w: Word, mask: Word) { And(w, mask) != Zero() }

  /** Testing a word against a one-bit mask reads that bit. */
  lemma HitReadsBit(w: Word, i: nat)
    requires i < WORD_BITS
    ensures Hit(w, Mask(i)) <==> w[i]
  {
    if w[i] {
      assert And(w, Mask(i))[i];
    } else {
      assert And(w, Mask(i)) == Zero();
    }
  }

  /** `count_ones` of the lowest `n` bits. */
  function Ones(w: Word, n: nat): nat
    requires n <= WORD_BITS
  {
    if n == 0 then 0 else Ones(w, n - 1) + if w[n - 1] then 1 else 0
  }

  // ---------------------------------------------------------------- the words as a set of slots

  type Words = seq<Word>

  function WordCount(capacity: nat): nat { (capacity + 63) / 64 }

  predicate Watched(words: Words, slot: nat)
    requires slot < 64 * |words|
  {
    words[slot / 64][slot % 64]
  }

  /** What every process may rely on: the array has the declared length and its padding bits are clear. */
  predicate Valid(words: Words, capacity: nat) {
    && |words| == WordCount(capacity)
    && forall slot: nat :: capacity <= slot < 64 * |words| ==> !Watched(words, slot)
  }

  function Slots(words: Words, capacity: nat): set<nat>
    requires capacity <= 64 * |words|
  {
    set slot: nat | slot < capacity && Watched(words, slot)
  }

  /** The atomic memory operations on one word: `fetch_or`, `fetch_and` and `store`. */
  datatype Step = FetchOr(word: nat, mask: Word) | FetchAnd(word: nat, mask: Word) | Store(word: nat, value: Word)

  function Apply(words: Words, step: Step): Words
    requires step.word < |words|
  {
    match step
    case FetchOr(k, mask) => words[k := Or(words[k], mask)]
    case FetchAnd(k, mask) => words[k := And(words[k], mask)]
    case Store(k, value) => words[k := value]
  }

  /** What a caller asks of the bitmap, one atomic step at a time. */
  datatype Action = Set(slot: nat) | Clear(slot: nat) | Wipe(word: nat)

  predicate Possible(action: Action, capacity: nat) {
    match action
    case Set(slot) => slot < capacity
    case Clear(slot) => slot < capacity
    case Wipe(k) => k < WordCount(capacity)
  }

  function StepOf(action: Action): Step {
    match action
    case Set(slot) => FetchOr(slot / 64, Mask(slot % 64))
    case Clear(slot) => FetchAnd(slot / 64, Not(Mask(slot % 64)))
    case Wipe(k) => Store(k, Zero())
  }

  /** The same action on a plain set of slots. */
  function SetEffect(slots: set<nat>, action: Action): set<nat> {
    match action
    case Set(slot) => slots + {slot}
    case Clear(slot) => slots - {slot}
    case Wipe(k) => set s | s in slots && s / 64 != k
  }

  predicate Erases(action: Action, slot: nat) { action == Clear(slot) || action == Wipe(slot / 64) }

  lemma PossibleInRange(action: Action, capacity: nat)
    requires Possible(action, capacity)
    ensures StepOf(action).word < WordCount(capacity)
  {}

  lemma SameSlot(a: nat, b: nat)
    requires a / 64 == b / 64 && a % 64 == b % 64
    ensures a == b
  {}

  /** The bit-level effect of each step: on its own slots, and on no other. */
  lemma StepEffect(words: Words, action: Action, slot: nat)
    requires StepOf(action).word < |words| && slot < 64 * |words|
    ensures Watched(Apply(words, StepOf(action)), slot)
        <==> action == Set(slot) || (Watched(words, slot) && !Erases(action, slot))
  {
    if !action.Wipe? && action.slot / 64 == slot / 64 && action.slot % 64 == slot % 64 {
      SameSlot(action.slot, slot);
    }
  }

  /** Each atomic step has exactly its set-level effect and leaves the padding bits clear. */
  lemma StepRefines(words: Words, action: Action, capacity: nat)
    requires Valid(words, capacity) && Possible(action, capacity)
    ensures StepOf(action).word < |words| && Valid(Apply(words, StepOf(action)), capacity)
    ensures Slots(Apply(words, StepOf(action)), capacity) == SetEffect(Slots(words, capacity), action)
  {
    PossibleInRange(action, capacity);
    forall slot: nat | slot < 64 * |words|
      ensures Watched(Apply(words, StepOf(action)), slot)
          <==> action == Set(slot) || (Watched(words, slot) && !Erases(action, slot))
    {
      StepEffect(words, action, slot);
    }
  }

  // ---------------------------------------------------------------- runs of several processes

  datatype Call = SetWatched(slot: nat) | ClearWatched(slot: nat) | ClearAll

  /** The atomic steps of one API call in program order. A slot out of bounds fails before any step. */
  function StepsOf(call: Call, capacity: nat): seq<Action> {
    match call
    case SetWatched(slot) => if slot >= capacity then [] else [Set(slot)]
    case ClearWatched(slot) => if slot >= capacity then [] else [Clear(slot)]
    case ClearAll => seq(WordCount(capacity), k requires 0 <= k => Wipe(k))
  }

  function Program(calls: seq<Call>, capacity: nat): seq<Action> {
    if calls == [] then [] else StepsOf(calls[0], capacity) + Program(calls[1..], capacity)
  }

  /** `run` takes, at each point, the next step of one of the processes until all are done. */
  ghost predicate Interleaves(run: seq<Action>, processes: seq<seq<Action>>) {
    if run == [] then forall p :: 0 <= p < |processes| ==> processes[p] == []
    else exists p :: 0 <= p < |processes| && processes[p] != [] && processes[p][0] == run[0]
                  && Interleaves(run[1..], processes[p := processes[p][1..]])
  }

  predicate AllPossible(run: seq<Action>, capacity: nat) {
    forall i :: 0 <= i < |run| ==> Possible(run[i], capacity)
  }

  lemma {:induction false} ProgramsArePossible(calls: seq<Call>, capacity: nat)
    ensures AllPossible(Program(calls, capacity), capacity)
  {
    if calls != [] { ProgramsArePossible(calls[1..], capacity); }
  }

  lemma {:induction false} InterleavingsArePossible(run: seq<Action>, processes: seq<seq<Action>>, capacity: nat)
    requires Interleaves(run, processes)
    requires forall p :: 0 <= p < |processes| ==> AllPossible(processes[p], capacity)
    ensures AllPossible(run, capacity)
  {
    if run != [] {
      var p :| 0 <= p < |processes| && processes[p] != [] && processes[p][0] == run[0]
            && Interleaves(run[1..], processes[p := processes[p][1..]]);
      InterleavingsArePossible(run[1..], processes[p := processes[p][1..]], capacity);
      assert Possible(processes[p][0], capacity);
    }
  }

  function Run(words: Words, run: seq<Action>): (r: Words)
    requires forall i :: 0 <= i < |run| ==> StepOf(run[i]).word < |words|
    ensures |r| == |words|
  {
    if run == [] then words else
    var last := |run| - 1;
    Apply(Run(words, run[..last]), StepOf(run[last]))
  }

  function SetRun(slots: set<nat>, run: seq<Action>): set<nat> {
    if run == [] then slots else SetEffect(SetRun(slots, run[..|run| - 1]), run[|run| - 1])
  }

  lemma {:induction false} RunInRange(words: Words, run: seq<Action>, capacity: nat)
    requires |words| == WordCount(capacity) && AllPossible(run, capacity)
    ensures forall i :: 0 <= i < |run| ==> StepOf(run[i]).word < |words|
  {
    forall i | 0 <= i < |run| ensures StepOf(run[i]).word < |words| { PossibleInRange(run[i], capacity); }
  }

  lemma {:induction false} RunRefines(words: Words, run: seq<Action>, capacity: nat)
    requires Valid(words, capacity) && AllPossible(run, capacity)
    ensures forall i :: 0 <= i < |run| ==> StepOf(run[i]).word < |words|
    ensures Valid(Run(words, run), capacity)
    ensures Slots(Run(words, run), capacity) == SetRun(Slots(words, capacity), run)
  {
    RunInRange(words, run, capacity);
    if run != [] {
      var last := |run| - 1;
      RunRefines(words, run[..last], capacity);
      StepRefines(Run(words, run[..last]), run[last], capacity);
    }
  }

  /** Step `i` sets the slot and no later step erases it. */
  predicate StandsFrom(slot: nat, run: seq<Action>, i: nat) {
    i < |run| && run[i] == Set(slot) && Survives(slot, run, i + 1)
  }

  predicate Survives(slot: nat, run: seq<Action>, from: nat) {
    forall i :: from <= i < |run| ==> !Erases(run[i], slot)
  }

  /** Which slots a run leaves watched: those set with no later erasing step, and those watched at the start that no
      step erases. */
  lemma {:induction false} LastWriterWins(slots: set<nat>, run: seq<Action>, slot: nat)
    ensures slot in SetRun(slots, run)
      <==> (slot in slots && Survives(slot, run, 0)) || exists i :: StandsFrom(slot, run, i)
  {
    if run != [] {
      var last := |run| - 1;
      var before := run[..last];
      LastWriterWins(slots, before, slot);
      if run[last] == Set(slot) {
        assert StandsFrom(slot, run, last);
      } else if !Erases(run[last], slot) {
        EarlierWriterStays(before, run[last], slot);
        assert run == before + [run[last]];
      }
      assert slot in SetEffect(SetRun(slots, before), run[last])
        <==> run[last] == Set(slot) || (slot in SetRun(slots, before) && !Erases(run[last], slot));
    }
  }

  lemma EarlierWriterStays(before: seq<Action>, action: Action, slot: nat)
    requires !Erases(action, slot) && action != Set(slot)
    ensures Survives(slot, before + [action], 0) <==> Survives(slot, before, 0)
    ensures (exists i :: StandsFrom(slot, before + [action], i)) <==> exists i :: StandsFrom(slot, before, i)
  {
    var run := before + [action];
    assert Survives(slot, run, 0) ==> forall i :: 0 <= i < |before| ==> run[i] == before[i];
    if i :| StandsFrom(slot, run, i) {
      assert forall k :: 0 <= k < |before| ==> run[k] == before[k];
      assert StandsFrom(slot, before, i);
    }
    if i :| StandsFrom(slot, before, i) {
      assert StandsFrom(slot, run, i);
    }
  }

  /** Several processes calling the API at once: whatever the interleaving of their atomic steps, the words stay a
      well-formed bitmap and hold exactly the slots whose last writer was a `set_watched`. */
  lemma AnyInterleaving(words: Words, programs: seq<seq<Call>>, run: seq<Action>, capacity: nat, slot: nat)
    requires Valid(words, capacity) && slot < capacity
    requires Interleaves(run, seq(|programs|, p requires 0 <= p < |programs| => Program(programs[p], capacity)))
    ensures AllPossible(run, capacity)
    ensures forall i :: 0 <= i < |run| ==> StepOf(run[i]).word < |words|
    ensures Valid(Run(words, run), capacity)
    ensures slot in Slots(Run(words, run), capacity)
      <==> (slot in Slots(words, capacity) && Survives(slot, run, 0)) || exists i :: StandsFrom(slot, run, i)
  {
    var processes := seq(|programs|, p requires 0 <= p < |programs| => Program(programs[p], capacity));
    forall p | 0 <= p < |processes| ensures AllPossible(processes[p], capacity) {
      ProgramsArePossible(programs[p], capacity);
    }
    InterleavingsArePossible(run, processes, capacity);
    RunRefines(words, run, capacity);
    LastWriterWins(Slots(words, capacity), run, slot);
  }

  // ---------------------------------------------------------------- counting

  /** Slots below `n`, counted one by one. */
  function CountBelow(words: Words, n: nat): nat
    requires n <= 64 * |words|
  {
    if n == 0 then 0 else CountBelow(words, n - 1) + if Watched(words, n - 1) then 1 else 0
  }

  function OnesOfWords(words: Words, k: nat): nat
    requires k <= |words|
  {
    if k == 0 then 0 else OnesOfWords(words, k - 1) + Ones(words[k - 1], WORD_BITS)
  }

  lemma {:induction false} OneWordCounts(words: Words, k: nat, n: nat)
    requires k < |words| && n <= 64
    ensures CountBelow(words, 64 * k + n) == CountBelow(words, 64 * k) + Ones(words[k], n)
  {
    if n > 0 {
      OneWordCounts(words, k, n - 1);
      assert (64 * k + n - 1) / 64 == k && (64 * k + n - 1) % 64 == n - 1;
    }
  }

  lemma {:induction false} WordsCount(words: Words, k: nat)
    requires k <= |words|
    ensures OnesOfWords(words, k) == CountBelow(words, 64 * k)
  {
    if k > 0 {
      WordsCount(words, k - 1);
      OneWordCounts(words, k - 1, 64);
    }
  }

  lemma {:induction false} CountIsCardinality(words: Words, n: nat)
    requires n <= 64 * |words|
    ensures CountBelow(words, n) == |Slots(words, n)|
  {
    if n > 0 {
      CountIsCardinality(words, n - 1);
      assert Slots(words, n) == Slots(words, n - 1) + if Watched(words, n - 1) then {n - 1} else {};
    } else {
      assert Slots(words, 0) == {};
    }
  }

  /** Summing `count_ones` over the words counts the watched slots. */
  lemma OnesCountSlots(words: Words, capacity: nat)
    requires Valid(words, capacity)
    ensures OnesOfWords(words, |words|) == |Slots(words, capacity)|
  {
    WordsCount(words, |words|);
    CountIsCardinality(words, 64 * |words|);
    assert Slots(words, 64 * |words|) == Slots(words, capacity);
  }

  // ---------------------------------------------------------------- the API object

  class SubscriptionBitmap {
    const capacity: nat
    const words: array<Word>

    ghost predicate Ready()
      reads words
    {
      Valid(words[..], capacity)
    }

    ghost function Contents(): set<nat>
      requires Ready()
      reads words
    {
      Slots(words[..], capacity)
    }

    constructor (capacity: nat)
      ensures this.capacity == capacity && fresh(words)
      ensures Ready() && Contents() == {}
    {
      this.capacity := capacity;
      words := new Word[WordCount(capacity)](_ => Zero());
      new;
      assert forall k :: 0 <= k < |words[..]| ==> words[..][k] == Zero();
    }

    method IsWatched(slot: nat) returns (watched: bool)
      requires Ready()
      ensures watched <==> slot in Contents()
    {
      if slot >= capacity { return false; }
      var wordIndex, bitIndex := slot / 64, slot % 64;
      if wordIndex >= words.Length { return false; }
      HitReadsBit(words[wordIndex], bitIndex);
      watched := Hit(words[wordIndex], Mask(bitIndex));
    }

    method SetWatched(slot: nat) returns (r: Result<(), LayoutError>)
      requires Ready()
      modifies words
      ensures Ready()
      ensures r == (if slot < capacity then Ok(()) else Err(SlotOutOfBounds))
      ensures Contents() == (if slot < capacity then old(Contents()) + {slot} else old(Contents()))
    {
      if slot >= capacity { return Err(SlotOutOfBounds); }
      var wordIndex, bitIndex := slot / 64, slot % 64;
      StepRefines(words[..], Set(slot), capacity);
      words[wordIndex] := Or(words[wordIndex], Mask(bitIndex));
      assert words[..] == Apply(old(words[..]), StepOf(Set(slot)));
      return Ok(());
    }

    method ClearWatched(slot: nat) returns (r: Result<(), LayoutError>)
      requires Ready()
      modifies words
      ensures Ready()
      ensures r == (if slot < capacity then Ok(()) else Err(SlotOutOfBounds))
      ensures Contents() == (if slot < capacity then old(Contents()) - {slot} else old(Contents()))
    {
      if slot >= capacity { return Err(SlotOutOfBounds); }
      var wordIndex, bitIndex := slot / 64, slot % 64;
      StepRefines(words[..], Clear(slot), capacity);
      words[wordIndex] := And(words[wordIndex], Not(Mask(bitIndex)));
      assert words[..] == Apply(old(words[..]), StepOf(Clear(slot)));
      return Ok(());
    }

    method ClearAll()
      requires Ready()
      modifies words
      ensures Ready() && Contents() == {}
    {
      var i := 0;
      while i < words.Length
        invariant 0 <= i <= words.Length
        invariant forall k :: 0 <= k < i ==> words[k] == Zero()
        invariant Ready()
      {
        StepRefines(words[..], Wipe(i), capacity);
        ghost var before := words[..];
        words[i] := Zero();
        assert words[..] == Apply(before, StepOf(Wipe(i)));
        i := i + 1;
      }
      assert forall k :: 0 <= k < |words[..]| ==> words[..][k] == Zero();
    }

    method SubscriptionCount() returns (n: nat)
      requires Ready()
      ensures n == |Contents()|
    {
      n := 0;
      var i := 0;
      while i < words.Length
        invariant 0 <= i <= words.Length
        invariant n == OnesOfWords(words[..], i)
      {
        n := n + Ones(words[i], WORD_BITS);
        i := i + 1;
      }
      OnesCountSlots(words[..], capacity);
    }
  }

  // ---------------------------------------------------------------- the header

  datatype Layout = Layout(capacity: nat, wordCount: nat, fileSize: nat)

  /** `usizeMax` is the platform's largest `usize`; `capacity` arrives as one. */
  function NewLayout(capacity: nat, usizeMax: nat): Result<Layout, LayoutError> {
    if capacity == 0 then Err(ZeroCapacity)
    else if capacity > U32_MAX then Err(CapacityExceedsU32)
    else
      var wordCount := WordCount(capacity);
      if 8 * wordCount > usizeMax then Err(SizeOverflow)
      else if HEADER_SIZE + 8 * wordCount > usizeMax then Err(SizeOverflow)
      else Ok(Layout(capacity, wordCount, HEADER_SIZE + 8 * wordCount))
  }

  function EncodeHeader(layout: Layout): seq<Byte> {
    MAGIC + ToLittleEndian(VERSION) + ToLittleEndian(layout.capacity) + ToLittleEndian(layout.wordCount)
    + seq(12, i => 0)
  }

  function DecodeHeader(bytes: seq<Byte>, usizeMax: nat): Result<Layout, LayoutError>
    requires |bytes| == HEADER_SIZE
  {
    if bytes[..8] != MAGIC then Err(BadMagic)
    else if FromLittleEndian(bytes[8..12]) != VERSION then Err(BadVersion)
    else if exists i :: 20 <= i < |bytes| && bytes[i] != 0 then Err(ReservedBytes)
    else
      var capacity := FromLittleEndian(bytes[12..16]);
      var wordCount := FromLittleEndian(bytes[16..20]);
      var layout :- NewLayout(capacity, usizeMax);
      if layout.wordCount != wordCount then Err(WordCountMismatch) else Ok(layout)
  }

  /** On any platform whose `usize` holds a `u32`, the size arithmetic never overflows. */
  lemma LayoutExists(capacity: nat, usizeMax: nat)
    requires usizeMax >= U32_MAX
    ensures NewLayout(capacity, usizeMax).Ok? <==> 0 < capacity <= U32_MAX
    ensures NewLayout(capacity, usizeMax) != Err(SizeOverflow)
    ensures NewLayout(capacity, usizeMax).Ok? ==>
      var layout := NewLayout(capacity, usizeMax).value;
      && layout.capacity == capacity && 64 * (layout.wordCount - 1) < capacity <= 64 * layout.wordCount
      && layout.fileSize == 32 + 8 * layout.wordCount
  {
    if capacity <= U32_MAX { assert WordCount(capacity) <= 0x400_0000; }
  }

  lemma HeaderParts(layout: Layout)
    ensures var h := EncodeHeader(layout);
      && |h| == HEADER_SIZE && h[..8] == MAGIC
      && h[8..12] == ToLittleEndian(VERSION) && h[12..16] == ToLittleEndian(layout.capacity)
      && h[16..20] == ToLittleEndian(layout.wordCount) && h[20..] == seq(12, i => 0)
  {}

  /** A header written for a layout reads back as that layout. */
  lemma HeaderRoundTrip(capacity: nat, usizeMax: nat)
    requires usizeMax >= U32_MAX && NewLayout(capacity, usizeMax).Ok?
    ensures var layout := NewLayout(capacity, usizeMax).value;
      |EncodeHeader(layout)| == HEADER_SIZE && DecodeHeader(EncodeHeader(layout), usizeMax) == Ok(layout)
  {
    var layout := NewLayout(capacity, usizeMax).value;
    HeaderParts(layout);
    LittleEndianRoundTrip(VERSION);
    LittleEndianRoundTrip(capacity);
    LittleEndianRoundTrip(layout.wordCount);
    var h := EncodeHeader(layout);
    assert forall i :: 20 <= i < |h| ==> h[i] == h[20..][i - 20];
  }

  /** A header is accepted exactly when it is the one the encoder writes for its layout. */
  lemma AcceptedHeadersAreEncodings(bytes: seq<Byte>, usizeMax: nat)
    requires |bytes| == HEADER_SIZE && DecodeHeader(bytes, usizeMax).Ok?
    ensures bytes == EncodeHeader(DecodeHeader(bytes, usizeMax).value)
  {
    LittleEndianUnique(bytes[8..12]);
    LittleEndianUnique(bytes[12..16]);
    LittleEndianUnique(bytes[16..20]);
    assert bytes[20..] == seq(12, i => 0);
    assert bytes == bytes[..8] + bytes[8..12] + bytes[12..16] + bytes[16..20] + bytes[20..];
  }
}
