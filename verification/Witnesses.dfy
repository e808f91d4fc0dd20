/** Commissioned routes on which the failures stated elsewhere do happen: one step of history for one or two numbers. */
module Witnesses {
  import opened Wrappers
  import CanonicalJson
  import CloudLink
  import opened Frames
  import opened LiveTail
  import opened Tasks
  import opened Assembly
  import opened RequestCodec
  import opened Representable

  predicate Word(s: string) { 0 < |s| <= 64 && forall i :: 0 <= i < |s| ==> Alphanumeric(s[i]) }

  lemma WordsAreAccepted(s: string)
    requires Word(s)
    ensures NotBlank(s) && FeatureName(s) && UnitText(s) && WireIdentifier(s)
  {
    CanonicalJson.AsciiBytes(s);
    assert !Whitespace(s[0]);
  }

  // ---------------------------------------------------------------- the route

  /** One or two numeric history features under different names; the first is the target and has the unit given. */
  predicate Columns(ds: seq<Definition>, unit: string) {
    && 1 <= |ds| <= 2 && Word(unit) && ds[0].unit == Some(unit) && (|ds| == 2 ==> ds[0].name != ds[1].name)
    && forall i :: 0 <= i < |ds| ==> Column(ds[i])
  }

  predicate Column(d: Definition) {
    d.role.HistoryRole? && d.kind.NumberKind? && Word(d.name) && (d.unit.Some? ==> Word(d.unit.value))
  }

  function OneStepTask(ds: seq<Definition>, unit: string, word: string): Task
    requires ds != []
  {
    Task(Identity(word, 1), word, ds,
         Spec(Target(ds[0].name, unit, word), 1_000, 1, 1, 0, 1_000, 1.0, [], [], None, None, false))
  }

  /** A route for one step of these features, the target read live from one point. */
  function OneStepRoute(ds: seq<Definition>, unit: string, word: string, address: string): Route
    requires ds != []
  {
    Route(OneStepTask(ds, unit, word),
          SiteBinding(Identity(word, 1), None, [PointBinding(ds[0].name, address, true)], []),
          Descriptor(word, word, [word], 2, false))
  }

  lemma {:induction false} AllHistory(ds: seq<Definition>)
    requires forall i :: 0 <= i < |ds| ==> ds[i].role.HistoryRole?
    ensures WithRole(ds, HistoryRole) == ds && WithRole(ds, FutureRole) == [] && WithRole(ds, StaticRole) == []
  {
    if ds != [] {
      var n := |ds| - 1;
      AllHistory(ds[..n]);
      assert ds == ds[..n] + [ds[n]];
    }
  }

  lemma ColumnValid(d: Definition)
    requires Column(d)
    ensures ValidDefinition(d) && FeatureName(d.name) && (d.unit.Some? ==> UnitText(d.unit.value))
  {
    hide NotBlank, FeatureName, UnitText, WireIdentifier, Word;
    WordsAreAccepted(d.name);
    if d.unit.Some? { WordsAreAccepted(d.unit.value); }
  }

  lemma OneStepTaskValid(ds: seq<Definition>, unit: string, word: string)
    requires Columns(ds, unit) && Word(word)
    ensures ValidTask(OneStepTask(ds, unit, word))
  {
    hide NotBlank, FeatureName, UnitText, WireIdentifier, Word, ValidDefinition;
    WordsAreAccepted(unit);
    WordsAreAccepted(word);
    WordsAreAccepted(ds[0].name);
    forall i | 0 <= i < |ds| ensures ValidDefinition(ds[i]) { ColumnValid(ds[i]); }
    var t := OneStepTask(ds, unit, word);
    assert Column(ds[0]);
    assert t.features[0] == ds[0];
  }

  lemma OneStepTaskRepresentable(ds: seq<Definition>, unit: string, word: string)
    requires Columns(ds, unit) && Word(word)
    ensures TaskRepresentable(OneStepTask(ds, unit, word))
  {
    hide NotBlank, FeatureName, UnitText, WireIdentifier, Word, ValidDefinition, WithRole;
    WordsAreAccepted(unit);
    WordsAreAccepted(word);
    forall i | 0 <= i < |ds| ensures FeatureName(ds[i].name) && (ds[i].unit.Some? ==> UnitText(ds[i].unit.value)) {
      ColumnValid(ds[i]);
    }
    forall i | 0 <= i < |ds| ensures ds[i].role.HistoryRole? { assert Column(ds[i]); }
    AllHistory(ds);
    assert FeatureName(ds[0].name);
  }

  lemma OneStepAdmitted(ds: seq<Definition>, unit: string, word: string, address: string, usizeMax: nat)
    requires Columns(ds, unit) && Word(word) && usizeMax >= 2
    ensures var r := OneStepRoute(ds, unit, word, address);
      Admitted(r, usizeMax) && SoundRoute(r) && Commissioned(r) && WithRole(r.task.features, HistoryRole) == ds
  {
    hide NotBlank, FeatureName, UnitText, WireIdentifier, Word, ValidDefinition, WithRole, ValidTask, TaskRepresentable;
    var r := OneStepRoute(ds, unit, word, address);
    OneStepTaskValid(ds, unit, word);
    OneStepTaskRepresentable(ds, unit, word);
    WordsAreAccepted(word);
    forall i | 0 <= i < |ds| ensures ds[i].role.HistoryRole? { assert Column(ds[i]); }
    AllHistory(ds);
    assert Column(ds[0]);
    assert r.task.features[0] == ds[0] && r.binding.points[0].feature == ds[0].name;
  }

  // ---------------------------------------------------------------- its history and frame

  function OneStepHistory(ds: seq<Definition>, value: real, asOf: nat): Sourced {
    Sourced(Segment([asOf], seq(|ds|, i requires 0 <= i < |ds| => Series(ds[i], [Number(value)], [Good]))),
            seq(|ds|, i requires 0 <= i < |ds| => Provenance(InHistory, ds[i].name, FromHistory, None, asOf, None)))
  }

  predicate InRangeOf(ds: seq<Definition>, value: real) {
    forall i :: 0 <= i < |ds| && ds[i].constraints.Some? ==> Accepts(ds[i].constraints.value, value)
  }

  lemma OneCell(d: Definition, value: real)
    requires Column(d) && (d.constraints.Some? ==> Accepts(d.constraints.value, value))
    ensures ValidSeries(Series(d, [Number(value)], [Good]))
  {
    hide NotBlank, Accepts, Word, ValidDefinition;
    ColumnValid(d);
    assert ValidSample(d, Number(value), Good);
  }

  lemma OneStepSegment(ds: seq<Definition>, unit: string, value: real, asOf: nat)
    requires Columns(ds, unit) && InRangeOf(ds, value)
    ensures ValidSegment(OneStepHistory(ds, value, asOf).segment)
  {
    hide NotBlank, Accepts, Word, ValidDefinition, ValidSeries, Column;
    var s := OneStepHistory(ds, value, asOf).segment;
    forall i | 0 <= i < |ds| ensures ValidSeries(s.series[i]) && |s.series[i].values| == 1 { OneCell(ds[i], value); }
    if |ds| == 2 { assert s.series[0].definition.name != s.series[1].definition.name; }
  }

  lemma OneStepMatches(ds: seq<Definition>, value: real, asOf: nat)
    ensures SegmentMatches(OneStepHistory(ds, value, asOf).segment, ds, Grid(asOf, 1_000, 1))
  {
    var s := OneStepHistory(ds, value, asOf).segment;
    forall i | 0 <= i < |ds| ensures HasSeries(s, ds[i]) { assert s.series[i].definition == ds[i]; }
    assert s.timestamps == Grid(asOf, 1_000, 1);
  }

  lemma OneStepHistoryValid(ds: seq<Definition>, unit: string, value: real, asOf: nat)
    requires Columns(ds, unit) && InRangeOf(ds, value)
    ensures ValidSourced(OneStepHistory(ds, value, asOf))
  {
    hide NotBlank, Word, ValidSegment, OneEntryEach;
    var h := OneStepHistory(ds, value, asOf);
    OneStepSegment(ds, unit, value, asOf);
    forall i | 0 <= i < |ds| ensures RoleKeys(h.segment.series)[i] == Keys(h.provenance)[i]
      && ValidProvenance(h.provenance[i]) {
      assert Column(ds[i]);
      WordsAreAccepted(ds[i].name);
    }
    var keys := Keys(h.provenance);
    assert RoleKeys(h.segment.series) == keys;
    assert Unique(keys);
    DomainRuleIsPermutation(keys, keys);
  }

  function Request(asOf: nat): TaskRequest { TaskRequest(asOf, 1, []) }

  lemma OneStepSources(ds: seq<Definition>, unit: string, word: string, address: string, value: real, asOf: nat)
    requires Columns(ds, unit) && Word(word) && InRangeOf(ds, value) && asOf + 1_000 <= U64_MAX
    ensures var r := OneStepRoute(ds, unit, word, address);
            var h := OneStepHistory(ds, value, asOf);
      && SoundRoute(r) && ValidSourced(h) && ValidHistory(h) && HistoryStart(r.task, Request(asOf)) == Some(asOf)
      && SourcesReady(r, Request(asOf), Some(h), None, None)
      && SegmentMatches(h.segment, WithRole(r.task.features, HistoryRole), Grid(asOf, 1_000, 1))
  {
    hide NotBlank, Word, ValidSourced, SoundRoute, SegmentMatches, WithRole, ValidHistory, Columns, InRangeOf;
    ColumnsExist(ds, unit);
    var r := OneStepRoute(ds, unit, word, address);
    OneStepAdmitted(ds, unit, word, address, 2);
    OneStepHistoryValid(ds, unit, value, asOf);
    OneStepMatches(ds, value, asOf);
    OneStepTaskValid(ds, unit, word);
    CheckedHistory(r.task, OneStepHistory(ds, value, asOf), Grid(asOf, 1_000, 1));
    NoFuture(ds, unit);
  }

  lemma NoFuture(ds: seq<Definition>, unit: string)
    requires Columns(ds, unit)
    ensures WithRole(ds, FutureRole) == []
  {
    hide Word;
    forall i | 0 <= i < |ds| ensures ds[i].role.HistoryRole? { assert Column(ds[i]); }
    AllHistory(ds);
  }

  lemma {:induction false} AllMeasured(provenance: seq<Provenance>, asOf: nat)
    requires provenance != [] && forall i :: 0 <= i < |provenance| ==>
      Actual(provenance[i]) && provenance[i].watermark == asOf
    ensures NewestActual(provenance) == Some(asOf)
  {
    if |provenance| > 1 {
      AllMeasured(provenance[1..], asOf);
    } else {
      assert NewestActual(provenance[1..]) == None;
    }
  }

  /** Such a route assembles a frame. */
  lemma OneStepFrame(ds: seq<Definition>, unit: string, word: string, address: string, value: real, asOf: nat,
                     usizeMax: nat)
    requires Columns(ds, unit) && Word(word) && InRangeOf(ds, value) && asOf + 1_000 <= U64_MAX && usizeMax >= 2
    ensures var r := OneStepRoute(ds, unit, word, address);
            var h := OneStepHistory(ds, value, asOf);
      && ValidSourced(h) && ValidHistory(h)
      && SourcesReady(r, Request(asOf), Some(h), None, None)
        && Timely(r.task.spec, FrameOf(r, Request(asOf), h, None, None))
      && OnRoute(r, Request(asOf), FrameOf(r, Request(asOf), h, None, None), usizeMax)
  {
    hide NotBlank, Word, ValidSourced, SoundRoute, SegmentMatches, WithRole, ValidHistory, Columns, InRangeOf,
         MaximumGap, MissingRatio, NewestActual, Admitted, ValidFrame, FutureReady, HistoryReady, HistoryStart,
         CountInSeries, CountInStatics, Timely;
    ColumnsExist(ds, unit);
    var r, h := OneStepRoute(ds, unit, word, address), OneStepHistory(ds, value, asOf);
    var q := Request(asOf);
    OneStepAdmitted(ds, unit, word, address, usizeMax);
    OneStepSources(ds, unit, word, address, value, asOf);
    NoFuture(ds, unit);
    var f := FrameOf(r, q, h, None, None);
    assert f.provenance == h.provenance;
    AllMeasured(f.provenance, asOf);
    HistoryValidSegment(h);
    RatioInRange(f.history, f.future, f.statics);
    TimelyExactly(r.task.spec, f);
    ConstructorAccepts(r, q, h, None, f);
    HistoryAligned(h);
    OneStepTaskValid(ds, unit, word);
    AssembledFacts(r, q, None, f);
  }

  lemma ColumnsExist(ds: seq<Definition>, unit: string)
    requires Columns(ds, unit)
    ensures ds != []
  {}

  lemma HistoryValidSegment(h: Sourced)
    requires ValidHistory(h)
    ensures ValidSegment(h.segment)
  {}

  // ---------------------------------------------------------------- what goes wrong there

  /** The target has a unit and the other number has none. */
  function Unitless(target: string, other: string, unit: string): seq<Definition> {
    [Definition(target, HistoryRole, NumberKind, Some(unit), None),
      Definition(other, HistoryRole, NumberKind, None, None)]
  }

  /** Admission passes a task one of whose numbers has no unit. On the route a frame is assembled, and whatever the
      request id, the times and the digests, the request is never encoded. */
  lemma AdmissionMissesUnits(target: string, other: string, unit: string, word: string, address: string, value: real,
                             asOf: nat, digester: Digester, requestId: string, submittedAt: nat, deadline: nat,
                             usizeMax: nat)
    requires Word(target) && Word(other) && Word(unit) && Word(word) && target != other
    requires asOf % 1_000 == 0 && asOf + 1_000 <= U64_MAX && usizeMax >= 2
    requires RequestUuid(requestId) && deadline > submittedAt && deadline > asOf
    requires forall basis :: CloudLink.DigestText(digester(basis))
    ensures var ds := Unitless(target, other, unit);
            var r := OneStepRoute(ds, unit, word, address);
            var h := OneStepHistory(ds, value, asOf);
      && Admitted(r, usizeMax) && ValidSourced(h) && ValidHistory(h)
        && SourcesReady(r, Request(asOf), Some(h), None, None)
      && var f := FrameOf(r, Request(asOf), h, None, None);
         var built := Built(digester, r, Request(asOf), f, requestId, submittedAt, deadline);
      && Timely(r.task.spec, f) && OnRoute(r, Request(asOf), f, usizeMax)
      && !(built.Some? && Encode(digester, built.value).Some?)
  {
    hide Word, SourcesReady, ValidSourced, ValidHistory, Timely, FrameOf, Built, Encode, RequestUuid,
         CloudLink.DigestText, SoundRoute, Admitted, AssembledFor, LastInstant;
    var ds := Unitless(target, other, unit);
    assert forall i :: 0 <= i < |ds| ==> Column(ds[i]);
    assert Columns(ds, unit) && InRangeOf(ds, value);
    OneStepAdmitted(ds, unit, word, address, usizeMax);
    OneStepFrame(ds, unit, word, address, value, asOf, usizeMax);
    var r, h := OneStepRoute(ds, unit, word, address), OneStepHistory(ds, value, asOf);
    var f := FrameOf(r, Request(asOf), h, None, None);
    assert !NumbersHaveUnits(r.task) by { assert r.task.features[1] == ds[1]; }
    RequestEncodesIff(digester, r, Request(asOf), f, requestId, submittedAt, deadline, usizeMax);
  }

  function Capped(name: string, unit: string, maximum: real): seq<Definition> {
    [Definition(name, HistoryRole, NumberKind, Some(unit), Some(Constraints(None, Some(maximum), false)))]
  }

  /** A live tail is meant to be optional, but on a commissioned route a current live value above the feature's maximum
      makes a history window unavailable that is fine without it. */
  lemma LiveValueCanBlockHistory(name: string, unit: string, word: string, address: string, maximum: real, stored: real,
      current: real, asOf: nat, usizeMax: nat)
    requires Word(name) && Word(unit) && Word(word) && usizeMax >= 2
    requires stored <= maximum < current && asOf + 1_000 <= U64_MAX
    ensures var ds := Capped(name, unit, maximum);
            var r := OneStepRoute(ds, unit, word, address);
            var h := OneStepHistory(ds, stored, asOf);
      && Admitted(r, usizeMax) && SoundRoute(r) && ValidSourced(h)
      && HistoryReady(r, Request(asOf), Some(h), None)
      && !HistoryReady(r, Request(asOf), Some(h), Some([Some(LiveSample(address, Some(current), asOf, PointGood))]))
  {
    hide Word, ValidSourced, SoundRoute, WithRole, SegmentMatches, Admitted, ValidHistory, FutureReady;
    var ds := Capped(name, unit, maximum);
    assert Column(ds[0]);
    assert Columns(ds, unit) && InRangeOf(ds, stored);
    OneStepAdmitted(ds, unit, word, address, usizeMax);
    OneStepSources(ds, unit, word, address, stored, asOf);
    var r, h := OneStepRoute(ds, unit, word, address), OneStepHistory(ds, stored, asOf);
    var live := Some([Some(LiveSample(address, Some(current), asOf, PointGood))]);
    assert Live(r.binding.points) == r.binding.points;
    assert TailReady(r.binding.points, asOf, h, live);
    assert !InRange(h.segment.series[0], Tails(r.binding.points, asOf, h, live));
  }
}
