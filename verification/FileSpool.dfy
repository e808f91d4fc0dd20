/** The file-backed spool over whole runs: appends and compactions that complete or fail at any point, the counter that
    forces compactions, and crashes. */
module FileSpool {
  import opened Wrappers
  import opened CloudLink
  import opened Spool
  import opened Journal

  const COMPACT_AFTER_MUTATIONS: nat := 256

  /** How the file stands to the memory: in step; ahead by an entry whose append was reported as failed; replaced by a
      compaction whose error left the process writing to the old file; ending in part of an entry; or out of step. */
  datatype Tail = InStep | Ahead | Unattached | Torn | OutOfStep

  /** The file under the spool's path, the state held in memory, and the mutations counted since the last compaction. */
  datatype Disk = Disk(journal: seq<Entry>, state: State, tail: Tail, count: nat)

  /** A compaction completes, fails before it replaces the file, fails after that but before the process takes the new
      file over, or fails only after that. */
  datatype Compaction = Completed | Untouched | Replaced | Unsynced

  /** An append completes, is refused before writing, fails after its whole entry reached the file, or after part of it
      did. */
  datatype Append = Written | Refused | LandedAnyway | WrittenInPart

  /** A mutation, with what becomes of the compaction it may have to make first; a call of `compact`; or the end of the
      process, at any moment, and the next successful `open`. A crash inside a call is the call as far as it reached the
      file, and then the restart. An `open` that fails only leaves the file to the next one. */
  datatype Event =
    | Mutate(op: Op, compaction: Compaction, append: Append)
    | CompactCall(compaction: Compaction)
    | Restart(capacity: nat)

  predicate Changes(s: State, op: Op)
    requires Valid(s)
  {
    Attempt(s, op).Ok? && Step(s, op) != s
  }

  // ---------------------------------------------------------------- what the code does

  /** `compact_locked`: only a compaction that takes the new file over resets the counter. */
  function Compact(d: Disk, outcome: Compaction): Disk {
    match outcome
    case Untouched => d
    case Replaced => Disk(Compacted(d.state), d.state, Unattached, d.count)
    case _ => Disk(Compacted(d.state), d.state, InStep, 0)
  }

  /** The file after an entry is appended, which goes to the old file when the path was replaced. */
  function Appended(d: Disk, op: Op): seq<Entry>
    requires Valid(d.state) && Changes(d.state, op)
  {
    if d.tail.Unattached? then d.journal else d.journal + [EntryFor(d.state, op)]
  }

  function AfterAppend(tail: Tail, landed: Tail): Tail {
    if tail.InStep? then landed else if tail.Unattached? then Unattached else OutOfStep
  }

  function AppendEntry(d: Disk, op: Op, outcome: Append): Disk
    requires Valid(d.state) && Changes(d.state, op)
  {
    match outcome
    case Written => Disk(Appended(d, op), Step(d.state, op), AfterAppend(d.tail, InStep), d.count + 1)
    case Refused => d
    case LandedAnyway => d.(journal := Appended(d, op), tail := AfterAppend(d.tail, Ahead))
    case WrittenInPart => d.(tail := AfterAppend(d.tail, Torn))
  }

  /** Whether a mutation compacts first, and is refused because that fails. */
  predicate Forced(d: Disk) { d.count >= COMPACT_AFTER_MUTATIONS }

  predicate RefusedByCompaction(d: Disk, compaction: Compaction) { Forced(d) && !compaction.Completed? }

  /** `mutate` */
  function Perform(d: Disk, op: Op, compaction: Compaction, append: Append): Disk
    requires Valid(d.state)
  {
    var c := if Forced(d) then Compact(d, compaction) else d;
    if RefusedByCompaction(d, compaction) || !Changes(c.state, op) then c else AppendEntry(c, op, append)
  }

  /** How many mutations a journal holds. */
  function Logged(journal: seq<Entry>): nat {
    if journal == [] then 0
    else Logged(journal[..|journal| - 1]) + if IsMutation(journal[|journal| - 1]) then 1 else 0
  }

  /** A journal found in a file, and its state, once the configured capacity is recorded if it is another one. */
  function Configured(journal: seq<Entry>, s: State, capacity: nat): (seq<Entry>, State)
    requires Valid(s)
  {
    var op := OpReopen(capacity);
    (if Changes(s, op) then journal + [EntryFor(s, op)] else journal, Step(s, op))
  }

  /** `open` recovers from the file, if it can, records another capacity, and compacts at once if the file holds too
      many mutations. A torn entry at the end is cut off. */
  function Open(d: Disk, capacity: nat): Option<Disk> {
    var r := Recover(d.journal);
    if r.Err? || d.tail.OutOfStep? || !Valid(r.value) then None
    else
      var (journal, s) := Configured(d.journal, r.value, capacity);
      if Logged(journal) >= COMPACT_AFTER_MUTATIONS then Some(Disk(Compacted(s), s, InStep, 0))
      else Some(Disk(journal, s, InStep, Logged(journal)))
  }

  function Next(d: Disk, e: Event): Option<Disk>
    requires Valid(d.state)
  {
    match e
    case Mutate(op, compaction, append) => Some(Perform(d, op, compaction, append))
    case CompactCall(compaction) => Some(Compact(d, compaction))
    case Restart(capacity) => Open(d, capacity)
  }

  // ---------------------------------------------------------------- what a user is promised

  /** The state in memory, the one a crash would bring back, and the counters in memory and in the file. */
  datatype Promise = Promise(state: State, durable: State, tail: Tail, count: nat, logged: nat)

  function Whole(s: State): Promise { Promise(s, s, InStep, 0, 0) }

  /** A compaction that replaces the file makes the memory durable, even when it fails after that. */
  function PromisedCompact(p: Promise, outcome: Compaction): Promise {
    match outcome
    case Untouched => p
    case Replaced => Promise(p.state, p.state, Unattached, p.count, 0)
    case _ => Whole(p.state)
  }

  /** A mutation is durable as long as the file is in step. An append that failed after landing is durable although it
      was reported as failed. While the process writes to the old file nothing more is durable. */
  function PromisedAppend(p: Promise, op: Op, outcome: Append): Promise
    requires Valid(p.state)
  {
    var landed := p.tail.InStep? && (outcome.Written? || outcome.LandedAnyway?);
    var q := if landed then p.(durable := Step(p.state, op), logged := p.logged + 1) else p;
    match outcome
    case Written => q.(state := Step(p.state, op), tail := AfterAppend(p.tail, InStep), count := p.count + 1)
    case Refused => q
    case LandedAnyway => q.(tail := AfterAppend(p.tail, Ahead))
    case WrittenInPart => q.(tail := AfterAppend(p.tail, Torn))
  }

  predicate PromiseForced(p: Promise) { p.count >= COMPACT_AFTER_MUTATIONS }

  /** What was durable is there again, under the configured capacity. */
  function PromisedOpen(p: Promise, capacity: nat): Promise
    requires Valid(p.durable)
  {
    var s := Step(p.durable, OpReopen(capacity));
    var logged := if s == p.durable then p.logged else p.logged + 1;
    if logged >= COMPACT_AFTER_MUTATIONS then Whole(s) else Promise(s, s, InStep, logged, logged)
  }

  function Promised(p: Promise, e: Event): Option<Promise>
    requires Valid(p.state) && Valid(p.durable)
  {
    match e
    case Mutate(op, compaction, append) =>
      var c := if PromiseForced(p) then PromisedCompact(p, compaction) else p;
      if (PromiseForced(p) && !compaction.Completed?) || !Changes(c.state, op) then Some(c)
      else Some(PromisedAppend(c, op, append))
    case CompactCall(compaction) => Some(PromisedCompact(p, compaction))
    case Restart(capacity) => if p.tail.OutOfStep? then None else Some(PromisedOpen(p, capacity))
  }

  predicate Reads(journal: seq<Entry>, s: State) {
    ReadAll(journal).Ok? && ReadAll(journal).value.Active? && ReadAll(journal).value.state == s
  }

  predicate Stands(s: State) { Valid(s) && Accepted(s) }

  /** The file is as promised. */
  predicate Honours(d: Disk, p: Promise) {
    && d.state == p.state && d.tail == p.tail && d.count == p.count && Stands(p.state) && Stands(p.durable)
    && (!d.tail.OutOfStep? ==> Reads(d.journal, p.durable) && Logged(d.journal) == p.logged)
    && (d.tail.InStep? || d.tail.Torn? ==> p.durable == p.state)
  }

  lemma AppendReads(journal: seq<Entry>, s: State, op: Op)
    requires Stands(s) && Reads(journal, s) && Changes(s, op)
    ensures ReadAll(journal + [EntryFor(s, op)]) == Ok(Active(Step(s, op), true)) && Stands(Step(s, op))
    ensures Logged(journal + [EntryFor(s, op)]) == Logged(journal) + 1
  {
    hide Valid, Accepted, ReadEntry, Step;
    var more := journal + [EntryFor(s, op)];
    assert more[..|more| - 1] == journal;
    RedoMatches(s, op, ReadAll(journal).value.started);
    StepKeepsValid(s, op);
    StepKeepsAccepted(s, op);
  }

  lemma ReadsRecovers(journal: seq<Entry>, s: State)
    requires Stands(s) && Reads(journal, s)
    ensures Recover(journal) == Ok(s)
  {
    hide Valid, Accepted, ReadAll, RecoveredOk;
    ValidIsRecoverable(s);
  }

  lemma {:induction false} NothingLogged(journal: seq<Entry>)
    requires forall i :: 0 <= i < |journal| ==> !IsMutation(journal[i])
    ensures Logged(journal) == 0
  {
    if journal != [] { NothingLogged(journal[..|journal| - 1]); }
  }

  lemma CompactedStands(s: State)
    requires Stands(s)
    ensures Reads(Compacted(s), s) && Recover(Compacted(s)) == Ok(s) && Logged(Compacted(s)) == 0
  {
    hide Valid, Accepted, ReadAll, Recover;
    CompactedReads(s);
    ReadsRecovers(Compacted(s), s);
    NothingLogged(Compacted(s));
  }

  lemma CompactHonours(d: Disk, p: Promise, outcome: Compaction)
    requires Honours(d, p)
    ensures Honours(Compact(d, outcome), PromisedCompact(p, outcome))
  {
    hide Valid, Accepted, ReadAll, Compacted, Recover, Logged;
    CompactedStands(d.state);
  }

  lemma AppendHonours(d: Disk, p: Promise, op: Op, outcome: Append)
    requires Honours(d, p) && Changes(d.state, op)
    ensures Honours(AppendEntry(d, op, outcome), PromisedAppend(p, op, outcome))
  {
    hide Valid, Accepted, ReadEntry, EntryFor, ReadAll, Recover, Step, Attempt, Logged;
    StepKeepsValid(d.state, op);
    StepKeepsAccepted(d.state, op);
    if d.tail.InStep? { AppendReads(d.journal, d.state, op); }
  }

  /** Every event keeps the promise, and recovery succeeds whenever it is promised. */
  lemma NothingIsForgotten(d: Disk, p: Promise, e: Event)
    requires Honours(d, p)
    ensures Promised(p, e).Some? ==> Next(d, e).Some? && Honours(Next(d, e).value, Promised(p, e).value)
  {
    hide Valid, Accepted, ReadAll, Compacted, Recover, Step, Attempt, Logged, Honours, Compact, PromisedCompact,
         AppendEntry, PromisedAppend;
    HonoursBasics(d, p);
    match e
    case Mutate(op, compaction, append) =>
      CompactHonours(d, p, compaction);
      var (c, q) := if Forced(d) then (Compact(d, compaction), PromisedCompact(p, compaction)) else (d, p);
      HonoursBasics(c, q);
      if Changes(c.state, op) { AppendHonours(c, q, op, append); }
    case CompactCall(compaction) => CompactHonours(d, p, compaction);
    case Restart(capacity) => if !d.tail.OutOfStep? { OpenHonours(d, p, capacity); }
  }

  lemma HonoursBasics(d: Disk, p: Promise)
    requires Honours(d, p)
    ensures d.state == p.state && d.tail == p.tail && d.count == p.count && Valid(d.state) && Stands(p.durable)
    ensures !d.tail.OutOfStep? ==> Reads(d.journal, p.durable) && Logged(d.journal) == p.logged
  {}

  lemma OpenHonours(d: Disk, p: Promise, capacity: nat)
    requires Honours(d, p) && !d.tail.OutOfStep?
    ensures Open(d, capacity).Some? && Honours(Open(d, capacity).value, PromisedOpen(p, capacity))
  {
    hide Valid, Accepted, ReadAll, Compacted, Recover, Logged, Step, Attempt, EntryFor;
    var op := OpReopen(capacity);
    ReadsRecovers(d.journal, p.durable);
    StepKeepsValid(p.durable, op);
    StepKeepsAccepted(p.durable, op);
    CompactedStands(Step(p.durable, op));
    StepChanges(p.durable, op);
    if Changes(p.durable, op) { AppendReads(d.journal, p.durable, op); }
  }

  lemma StepChanges(s: State, op: Op)
    requires Valid(s)
    ensures Changes(s, op) <==> Step(s, op) != s
  {}

  function RunPromise(p: Promise, events: seq<Event>): (r: Option<Promise>)
    requires Stands(p.state) && Stands(p.durable)
    ensures r.Some? ==> Stands(r.value.state) && Stands(r.value.durable)
  {
    if events == [] then Some(p)
    else
      var before := RunPromise(p, events[..|events| - 1]);
      if before.None? then None
      else
        PromiseStands(before.value, events[|events| - 1]);
        Promised(before.value, events[|events| - 1])
  }

  lemma PromiseStands(p: Promise, e: Event)
    requires Stands(p.state) && Stands(p.durable)
    ensures Promised(p, e).Some? ==> Stands(Promised(p, e).value.state) && Stands(Promised(p, e).value.durable)
  {
    hide Valid, Accepted, Attempt, Step;
    if e.Mutate? {
      StepKeepsValid(p.state, e.op);
      StepKeepsAccepted(p.state, e.op);
    } else if e.Restart? {
      StepKeepsValid(p.durable, OpReopen(e.capacity));
      StepKeepsAccepted(p.durable, OpReopen(e.capacity));
    }
  }

  function RunDisk(d: Disk, events: seq<Event>): (r: Option<Disk>)
    requires Valid(d.state)
  {
    if events == [] then Some(d)
    else
      var before := RunDisk(d, events[..|events| - 1]);
      if before.None? || !Valid(before.value.state) then None else Next(before.value, events[|events| - 1])
  }

  /** Over every run of all these events, as long as the promise says what a crash brings back, recovery brings back
      exactly that. */
  lemma {:induction false} RecoveryKeepsPromise(d: Disk, p: Promise, events: seq<Event>)
    requires Honours(d, p) && RunPromise(p, events).Some?
    ensures RunDisk(d, events).Some? && Honours(RunDisk(d, events).value, RunPromise(p, events).value)
    ensures var n := RunDisk(d, events).value;
      n.tail != OutOfStep ==> Recover(n.journal) == Ok(RunPromise(p, events).value.durable)
  {
    hide Valid, Accepted, ReadAll, RecoveredOk, Next, Promised, Recover, Reads, Logged;
    if events != [] {
      var n := |events| - 1;
      RecoveryKeepsPromise(d, p, events[..n]);
      NothingIsForgotten(RunDisk(d, events[..n]).value, RunPromise(p, events[..n]).value, events[n]);
    }
    var q := RunDisk(d, events).value;
    if q.tail != OutOfStep { ReadsRecovers(q.journal, RunPromise(p, events).value.durable); }
  }

  /** A new spool writes its journal before anything else, and is in step. */
  lemma FreshJournal(streamId: string, capacity: nat)
    requires NewState(streamId, capacity).Ok?
    ensures var s := NewState(streamId, capacity).value; Honours(Disk(Compacted(s), s, InStep, 0), Whole(s))
  {
    hide Compacted, Logged, ReadAll;
    var s := NewState(streamId, capacity).value;
    assert Stands(s);
    CompactedStands(s);
  }

  /** A compaction puts the file in step with the memory whatever went wrong before. */
  lemma CompactionHeals(d: Disk)
    requires Stands(d.state)
    ensures Recover(Compact(d, Completed).journal) == Ok(d.state) && Honours(Compact(d, Completed), Whole(d.state))
  {
    hide Valid, Accepted, Recover, ReadAll, Compacted, Logged;
    CompactedStands(d.state);
  }

  // ---------------------------------------------------------------- only one failure loses what was reported as done

  /** File and memory agree, and go on to: in step, or not attached but with a compaction due before anything else. */
  predicate Agrees(p: Promise) {
    Stands(p.state) && p.durable == p.state && (p.tail.InStep? || (p.tail.Unattached? && PromiseForced(p)))
  }

  /** Appends complete or are refused before writing, and no call of `compact` fails after replacing the file. The
      compactions that mutations make may fail anywhere. */
  predicate Orderly(e: Event) {
    match e
    case Mutate(_, _, append) => append.Written? || append.Refused?
    case CompactCall(compaction) => !compaction.Replaced?
    case Restart(_) => true
  }

  /** What the caller is told was done: a mutation that was not refused and whose append was written, or an `open` with
      the configured capacity. */
  function Done(p: Promise, e: Event): Option<Op>
    requires Valid(p.state) && Valid(p.durable)
  {
    match e
    case Mutate(op, compaction, append) =>
      if PromiseForced(p) && !compaction.Completed? then None
      else if Changes(p.state, op) && !append.Written? then None
      else if Attempt(p.state, op).Ok? then Some(op) else None
    case Restart(capacity) => if Attempt(p.durable, OpReopen(capacity)).Ok? then Some(OpReopen(capacity)) else None
    case CompactCall(_) => None
  }

  lemma OrderlyStep(p: Promise, e: Event)
    requires Agrees(p) && Orderly(e)
    ensures Promised(p, e).Some? && Agrees(Promised(p, e).value)
    ensures Promised(p, e).value.state == if Done(p, e).Some? then Step(p.state, Done(p, e).value) else p.state
  {
    hide Valid, Accepted;
    PromiseStands(p, e);
  }

  /** The operations reported as done, in order. */
  function Reported(p: Promise, events: seq<Event>): seq<Op>
    requires Stands(p.state) && Stands(p.durable)
  {
    if events == [] then []
    else
      var n := |events| - 1;
      var before := RunPromise(p, events[..n]);
      var done := if before.None? then None else Done(before.value, events[n]);
      Reported(p, events[..n]) + if done.Some? then [done.value] else []
  }

  /** Over any run of mutations, refusals, compactions that fail as they may inside mutations, and restarts: the
      recovered spool is the in-memory spool that performed exactly the operations reported as done. */
  lemma {:induction false} RecoveryRefinesMemory(d: Disk, p: Promise, events: seq<Event>)
    requires Honours(d, p) && Agrees(p) && forall i :: 0 <= i < |events| ==> Orderly(events[i])
    ensures RunPromise(p, events).Some? && Agrees(RunPromise(p, events).value)
    ensures var s := RunState(d.state, Reported(p, events));
      && RunPromise(p, events).value.state == s
      && RunDisk(d, events).Some? && RunDisk(d, events).value.state == s
      && Recover(RunDisk(d, events).value.journal) == Ok(s)
  {
    hide Valid, Accepted, ReadAll, RecoveredOk, Next, Promised, Recover, Step, Logged, Reads, Done;
    if events != [] {
      var n := |events| - 1;
      RecoveryRefinesMemory(d, p, events[..n]);
      var q := RunPromise(p, events[..n]).value;
      OrderlyStep(q, events[n]);
      var ops := Reported(p, events);
      if Done(q, events[n]).Some? {
        assert ops[..|ops| - 1] == Reported(p, events[..n]) && ops[|ops| - 1] == Done(q, events[n]).value;
      } else {
        assert ops == Reported(p, events[..n]);
      }
    }
    RecoveryKeepsPromise(d, p, events);
  }

  // ---------------------------------------------------------------- a compact call that fails late

  /** A call of a mutation that meets no append error, and what becomes of a compaction it has to make. */
  datatype Call = Call(op: Op, compaction: Compaction)

  function Events(calls: seq<Call>): (events: seq<Event>)
    ensures |events| == |calls|
    ensures forall i :: 0 <= i < |calls| ==> events[i] == Mutate(calls[i].op, calls[i].compaction, Written)
  {
    seq(|calls|, i requires 0 <= i < |calls| => Mutate(calls[i].op, calls[i].compaction, Written))
  }

  /** What a caller can keep count of: the mutations since the last compaction, the state, and whether a mutation had to
      compact and got as far as replacing the file. */
  datatype Tally = Tally(count: nat, state: State, replaced: bool)

  function Counted(t: Tally, call: Call): (r: Tally)
    requires Valid(t.state)
    ensures Valid(r.state)
  {
    var due := t.count >= COMPACT_AFTER_MUTATIONS;
    var c := if !due || call.compaction.Untouched? then t
             else if call.compaction.Replaced? then t.(replaced := true)
             else Tally(0, t.state, true);
    StepKeepsValid(t.state, call.op);
    if (due && !call.compaction.Completed?) || !Changes(t.state, call.op) then c
    else c.(count := c.count + 1, state := Step(t.state, call.op))
  }

  function TallyOf(count: nat, s: State, calls: seq<Call>): (t: Tally)
    requires Valid(s)
    ensures Valid(t.state)
  {
    if calls == [] then Tally(count, s, false)
    else Counted(TallyOf(count, s, calls[..|calls| - 1]), calls[|calls| - 1])
  }

  /** Where a run of calls stands: still behind the old file, or in agreement again. */
  predicate Standing(p: Promise, q: Promise, t: Tally) {
    && q.state == t.state && q.count == t.count && Stands(q.state)
    && (t.replaced ==> Agrees(q))
    && (!t.replaced ==> q.durable == p.durable && q.tail.Unattached?)
  }

  lemma StandingStep(p: Promise, q: Promise, t: Tally, call: Call)
    requires Standing(p, q, t) && Stands(p.durable) && Stands(q.durable)
    ensures var e := Mutate(call.op, call.compaction, Written);
      Promised(q, e).Some? && Standing(p, Promised(q, e).value, Counted(t, call))
  {
    hide Valid, Accepted, Attempt, Step;
    PromiseStands(q, Mutate(call.op, call.compaction, Written));
  }

  lemma {:induction false} UnattachedRun(p: Promise, calls: seq<Call>)
    requires Stands(p.state) && p.durable == p.state && p.tail.Unattached?
    ensures RunPromise(p, Events(calls)).Some?
    ensures Standing(p, RunPromise(p, Events(calls)).value, TallyOf(p.count, p.state, calls))
  {
    hide Valid, Accepted, Promised, Counted;
    if calls != [] {
      var n := |calls| - 1;
      UnattachedRun(p, calls[..n]);
      assert Events(calls)[..n] == Events(calls[..n]);
      StandingStep(p, RunPromise(p, Events(calls[..n])).value, TallyOf(p.count, p.state, calls[..n]), calls[n]);
    }
  }

  /** After a call of `compact` that failed once it had replaced the file, mutations are reported as done and are not
      durable, until one of them has to compact and gets as far as replacing the file, which is when the counter reaches
      its limit. Memory and file agree exactly if that happened or nothing has changed. */
  lemma UnattachedAgreesIff(d: Disk, p: Promise, calls: seq<Call>)
    requires Honours(d, p) && p.durable == p.state && p.tail.Unattached?
    ensures RunDisk(d, Events(calls)).Some?
    ensures var n, t := RunDisk(d, Events(calls)).value, TallyOf(d.count, d.state, calls);
      && n.state == t.state && n.count == t.count
      && (Recover(n.journal) == Ok(n.state) <==> t.replaced || t.state == d.state)
  {
    hide Valid, Accepted, ReadAll, Recover, RunDisk, RunPromise, TallyOf, Logged;
    UnattachedRun(p, calls);
    RecoveryKeepsPromise(d, p, Events(calls));
  }

  /** A compaction that a mutation has to make loses nothing, wherever it fails: the mutation is refused, the file still
      holds the state, and whatever is called next either completes a compaction first or is refused as well. */
  lemma ForcedCompactionLosesNothing(d: Disk, p: Promise, op: Op, compaction: Compaction, append: Append)
    requires Honours(d, p) && Agrees(p) && Forced(d) && !compaction.Completed?
    ensures var n := Perform(d, op, compaction, append);
      && n.state == d.state && Recover(n.journal) == Ok(d.state)
      && Promised(p, Mutate(op, compaction, append)).Some? && Agrees(Promised(p, Mutate(op, compaction, append)).value)
  {
    hide Valid, Accepted, ReadAll, Recover, Logged, Compacted;
    var e := Mutate(op, compaction, append);
    NothingIsForgotten(d, p, e);
    var q := Promised(p, e).value;
    ReadsRecovers(Next(d, e).value.journal, q.durable);
  }

  lemma FirstEnqueue(s: State, input: Enqueue)
    requires Valid(s) && s.records == [] && s.next < U64_MAX && ValidContent(input)
    ensures Changes(s, OpEnqueue(input)) && Step(s, OpEnqueue(input)).next == s.next + 1
  {
    hide ValidContent;
  }

  /** A new spool, a call of `compact` that fails late, and an enqueue: the enqueue is reported as done, and a crash
      brings back the empty spool. */
  lemma CompactCallCanLose(streamId: string, capacity: nat, input: Enqueue)
    requires NewState(streamId, capacity).Ok? && ValidContent(input)
    ensures var s := NewState(streamId, capacity).value;
            var events := [CompactCall(Replaced), Mutate(OpEnqueue(input), Completed, Written)];
            var run := RunDisk(Disk(Compacted(s), s, InStep, 0), events);
      && run.Some? && run.value.state.next == s.next + 1 && Recover(run.value.journal) == Ok(s)
  {
    hide ValidContent, Compacted, Recover, ReadAll, Logged, Attempt, Step;
    var s := NewState(streamId, capacity).value;
    FreshJournal(streamId, capacity);
    FirstEnqueue(s, input);
    var d := Disk(Compacted(s), s, InStep, 0);
    var events := [CompactCall(Replaced), Mutate(OpEnqueue(input), Completed, Written)];
    assert events[..1] == [CompactCall(Replaced)] && events[..1][..0] == [];
    assert RunDisk(d, events[..1]) == Some(Disk(Compacted(s), s, Unattached, 0));
    CompactedStands(s);
  }
}
