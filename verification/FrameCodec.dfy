/** Frames on the wire: conversion to and from the versioned wire structure, with every check either direction makes.
    Which error a failed check reports is not part of the model. */
module FrameCodec {
  import opened Wrappers
  import opened Frames
  import opened LiveTail
  import opened Tasks
  import opened OrderedMap

  /** The latest instant the formatter prints, and the latest the four-digit-year parser reads back, in milliseconds. */
  const LAST_FORMATTED: nat := 8_210_266_876_799_999
  const LAST_PARSED: nat := 253_402_300_799_999

  // ---------------------------------------------------------------- wire structures

  /** The RFC 3339 text of an instant. */
  datatype Stamp = Stamp(ms: nat)

  datatype Scalar = Null | Num(number: real) | Txt(text: string) | Flag(truth: bool)

  datatype SeriesWire = SeriesWire(kind: ValueKind, unit: Option<string>, values: seq<Scalar>,
                                   quality: seq<SampleQuality>)

  datatype StaticWire = StaticWire(kind: ValueKind, unit: Option<string>, value: Scalar, quality: SampleQuality)

  datatype SegmentWire = SegmentWire(timestamps: seq<Stamp>, features: seq<Named<SeriesWire>>)

  datatype ProvenanceWire = ProvenanceWire(segment: SegmentKind, feature: string, source: SourceKind,
                                           sourceRef: Option<string>, watermark: Stamp, issuedAt: Option<Stamp>)

  datatype QualityWire = QualityWire(watermark: Stamp, missingRatio: real, maxGapSeconds: nat, liveTail: bool,
                                     substituted: nat)

  datatype FrameWire = FrameWire(asOf: Stamp, cadenceSeconds: nat, history: SegmentWire, future: Option<SegmentWire>,
                                 statics: seq<Named<StaticWire>>, quality: QualityWire, provenance: seq<ProvenanceWire>)

  // ---------------------------------------------------------------- values

  function ScalarOf(v: FeatureValue): Scalar {
    match v
    case Number(x) => Num(x)
    case Text(t) => Txt(t)
    case Boolean(b) => Flag(b)
    case MissingValue => Null
  }

  function ValueOf(s: Scalar): FeatureValue {
    match s
    case Num(x) => Number(x)
    case Txt(t) => Text(t)
    case Flag(b) => Boolean(b)
    case Null => MissingValue
  }

  function Scalars(values: seq<FeatureValue>): (r: seq<Scalar>)
    ensures |r| == |values| && forall i :: 0 <= i < |r| ==> r[i] == ScalarOf(values[i])
  {
    seq(|values|, i requires 0 <= i < |values| => ScalarOf(values[i]))
  }

  function FeatureValues(scalars: seq<Scalar>): (r: seq<FeatureValue>)
    ensures |r| == |scalars| && forall i :: 0 <= i < |r| ==> r[i] == ValueOf(scalars[i])
  {
    seq(|scalars|, i requires 0 <= i < |scalars| => ValueOf(scalars[i]))
  }

  lemma ScalarsInvert(scalars: seq<Scalar>, values: seq<FeatureValue>)
    ensures Scalars(FeatureValues(scalars)) == scalars && FeatureValues(Scalars(values)) == values
  {}

  function Stamps(times: seq<nat>): (r: seq<Stamp>)
    ensures |r| == |times| && forall i :: 0 <= i < |r| ==> r[i] == Stamp(times[i])
  {
    seq(|times|, i requires 0 <= i < |times| => Stamp(times[i]))
  }

  function Instants(stamps: seq<Stamp>): (r: seq<nat>)
    ensures |r| == |stamps| && forall i :: 0 <= i < |r| ==> r[i] == stamps[i].ms
  {
    seq(|stamps|, i requires 0 <= i < |stamps| => stamps[i].ms)
  }

  // ---------------------------------------------------------------- segments and statics

  function WireSeries(s: Series): SeriesWire {
    SeriesWire(s.definition.kind, s.definition.unit, Scalars(s.values), s.quality)
  }

  function DomainSeries(role: Role, n: Named<SeriesWire>): Series {
    Series(Definition(n.name, role, n.value.kind, n.value.unit, None), FeatureValues(n.value.values), n.value.quality)
  }

  function NamedWires(series: seq<Series>): (r: seq<Named<SeriesWire>>)
    ensures |r| == |series| && forall i :: 0 <= i < |r| ==>
      r[i] == Named(series[i].definition.name, WireSeries(series[i]))
  {
    seq(|series|, i requires 0 <= i < |series| => Named(series[i].definition.name, WireSeries(series[i])))
  }

  function DomainSeriesAll(role: Role, features: seq<Named<SeriesWire>>): (r: seq<Series>)
    ensures |r| == |features| && forall i :: 0 <= i < |r| ==> r[i] == DomainSeries(role, features[i])
  {
    seq(|features|, i requires 0 <= i < |features| => DomainSeries(role, features[i]))
  }

  function BuiltOr<T>(xs: seq<Named<T>>): seq<Named<T>> { if Build(xs).Some? then Build(xs).value else [] }

  function WireSegment(s: Segment): SegmentWire { SegmentWire(Stamps(s.timestamps), BuiltOr(NamedWires(s.series))) }

  function DomainSegment(role: Role, w: SegmentWire): Segment {
    Segment(Instants(w.timestamps), DomainSeriesAll(role, w.features))
  }

  function WireStatic(s: Static): StaticWire {
    StaticWire(s.definition.kind, s.definition.unit, ScalarOf(s.value), s.quality)
  }

  function DomainStatic(n: Named<StaticWire>): Static {
    Static(Definition(n.name, StaticRole, n.value.kind, n.value.unit, None), ValueOf(n.value.value), n.value.quality)
  }

  function NamedStatics(statics: seq<Static>): (r: seq<Named<StaticWire>>)
    ensures |r| == |statics| && forall i :: 0 <= i < |r| ==>
      r[i] == Named(statics[i].definition.name, WireStatic(statics[i]))
  {
    seq(|statics|, i requires 0 <= i < |statics| => Named(statics[i].definition.name, WireStatic(statics[i])))
  }

  function DomainStatics(wires: seq<Named<StaticWire>>): (r: seq<Static>)
    ensures |r| == |wires| && forall i :: 0 <= i < |r| ==> r[i] == DomainStatic(wires[i])
  {
    seq(|wires|, i requires 0 <= i < |wires| => DomainStatic(wires[i]))
  }

  // ---------------------------------------------------------------- provenance and whole frames

  function OptionStamp(t: Option<nat>): Option<Stamp> { if t.Some? then Some(Stamp(t.value)) else None }

  function OptionInstant(t: Option<Stamp>): Option<nat> { if t.Some? then Some(t.value.ms) else None }

  function WireProvenance(p: Provenance): ProvenanceWire {
    ProvenanceWire(p.segment, p.feature, p.source, p.sourceRef, Stamp(p.watermark), OptionStamp(p.issuedAt))
  }

  function DomainProvenance(p: ProvenanceWire): Provenance {
    Provenance(p.segment, p.feature, p.source, p.sourceRef, p.watermark.ms, OptionInstant(p.issuedAt))
  }

  function WireProvenances(ps: seq<Provenance>): (r: seq<ProvenanceWire>)
    ensures |r| == |ps| && forall i :: 0 <= i < |r| ==> r[i] == WireProvenance(ps[i])
  {
    seq(|ps|, i requires 0 <= i < |ps| => WireProvenance(ps[i]))
  }

  function DomainProvenances(ps: seq<ProvenanceWire>): (r: seq<Provenance>)
    ensures |r| == |ps| && forall i :: 0 <= i < |r| ==> r[i] == DomainProvenance(ps[i])
  {
    seq(|ps|, i requires 0 <= i < |ps| => DomainProvenance(ps[i]))
  }

  function WireQuality(q: FrameQuality): QualityWire {
    QualityWire(Stamp(q.watermark), q.missingRatio, q.maxGap / 1_000, q.liveTail, q.substituted)
  }

  function DomainQuality(q: QualityWire): FrameQuality {
    FrameQuality(q.watermark.ms, q.missingRatio, q.maxGapSeconds * 1_000, q.liveTail, q.substituted)
  }

  /** The wire structure of a frame, when the checks below pass. */
  function WireFrame(f: Frame): FrameWire {
    FrameWire(Stamp(f.asOf), f.cadence / 1_000, WireSegment(f.history),
              if f.future.Some? then Some(WireSegment(f.future.value)) else None,
              BuiltOr(NamedStatics(f.statics)), WireQuality(f.quality), WireProvenances(f.provenance))
  }

  /** The frame a wire structure stands for, when the checks below pass. */
  function DomainFrame(w: FrameWire): Frame {
    Frame(w.asOf.ms, w.cadenceSeconds * 1_000, DomainSegment(HistoryRole, w.history),
          if w.future.Some? then Some(DomainSegment(FutureRole, w.future.value)) else None,
          DomainStatics(w.statics), DomainQuality(w.quality), DomainProvenances(w.provenance))
  }

  /** What the wire says of a source. */
  lemma ProvenanceWireSays(p: Provenance)
    ensures var w := WireProvenance(p);
      && w.segment == p.segment && w.feature == p.feature && w.source == p.source && w.sourceRef == p.sourceRef
      && w.watermark.ms == p.watermark && (w.issuedAt.Some? <==> p.issuedAt.Some?)
      && (p.issuedAt.Some? ==> w.issuedAt.value.ms == p.issuedAt.value)
  {}

  /** The wire form of one series, filed under its name. */
  predicate SeriesSaid(features: seq<Named<SeriesWire>>, s: Series) {
    exists k :: 0 <= k < |features| && SeriesSaidAt(features[k], s)
  }

  predicate SeriesSaidAt(w: Named<SeriesWire>, s: Series) {
    && w.name == s.definition.name && w.value.kind == s.definition.kind && w.value.unit == s.definition.unit
    && w.value.quality == s.quality && |w.value.values| == |s.values|
    && forall i :: 0 <= i < |s.values| ==> ScalarSaid(w.value.values[i], s.values[i])
  }

  predicate ScalarSaid(w: Scalar, v: FeatureValue) {
    match v
    case Number(x) => w == Num(x)
    case Text(t) => w == Txt(t)
    case Boolean(b) => w == Flag(b)
    case MissingValue => w == Null
  }

  /** What the wire says of a segment: its instants in order, and every series under its name, no others. */
  lemma SegmentWireSays(s: Segment, k: nat)
    requires Build(NamedWires(s.series)).Some?
    ensures var w := WireSegment(s);
      && |w.timestamps| == |s.timestamps| && |w.features| == |s.series|
      && (forall i :: 0 <= i < |s.timestamps| ==> w.timestamps[i].ms == s.timestamps[i])
      && (k < |s.series| ==> SeriesSaid(w.features, s.series[k]))
  {
    hide Build;
    var named, w := NamedWires(s.series), WireSegment(s);
    BuildKeeps(named);
    assert |multiset(w.features)| == |w.features| && |multiset(named)| == |named|;
    if k < |s.series| {
      assert named[k] in multiset(w.features);
      var i :| 0 <= i < |w.features| && w.features[i] == named[k];
      assert SeriesSaidAt(w.features[i], s.series[k]);
    }
  }

  /** What the wire says of a frame, for durations of whole seconds. */
  lemma FrameWireSays(f: Frame)
    ensures var w := WireFrame(f);
      && w.asOf.ms == f.asOf && w.quality.watermark.ms == f.quality.watermark
      && (f.cadence % 1_000 == 0 ==> w.cadenceSeconds * 1_000 == f.cadence)
      && (f.quality.maxGap % 1_000 == 0 ==> w.quality.maxGapSeconds * 1_000 == f.quality.maxGap)
      && w.quality.missingRatio == f.quality.missingRatio && w.quality.liveTail == f.quality.liveTail
      && w.quality.substituted == f.quality.substituted && w.history == WireSegment(f.history)
      && (if f.future.Some? then w.future == Some(WireSegment(f.future.value)) else w.future.None?)
      && |w.provenance| == |f.provenance|
      && forall i :: 0 <= i < |f.provenance| ==> w.provenance[i] == WireProvenance(f.provenance[i])
  {
    hide WireSegment;
  }

  // ---------------------------------------------------------------- checks

  predicate Regular(times: seq<nat>, cadence: nat) {
    forall i :: 0 < i < |times| ==> times[i] == times[i - 1] + cadence
  }

  predicate GapMatches(f: Frame) { Aligned(f.history) && f.quality.maxGap == MaximumGap(f.history, f.cadence) }

  predicate SeriesWithinLimits(s: SeriesWire) {
    0 < |s.values| <= MAX_SEGMENT_SAMPLES && 0 < |s.quality| <= MAX_SEGMENT_SAMPLES
  }

  predicate SegmentWithinLimits(w: SegmentWire) {
    && 0 < |w.timestamps| <= MAX_SEGMENT_SAMPLES && 0 < |w.features| <= MAX_FEATURES_PER_SEGMENT
    && forall i :: 0 <= i < |w.features| ==> SeriesWithinLimits(w.features[i].value)
  }

  predicate WithinWireLimits(w: FrameWire) {
    && 0 < w.cadenceSeconds <= MAX_CADENCE_SECONDS
    && SegmentWithinLimits(w.history) && (w.future.Some? ==> SegmentWithinLimits(w.future.value))
    && |w.statics| <= MAX_STATIC_FEATURES && |w.provenance| <= MAX_PROVENANCE_ENTRIES
  }

  function EntryKeys<T>(kind: SegmentKind, entries: seq<Named<T>>): (keys: seq<SourceKey>)
    ensures |keys| == |entries| && forall i :: 0 <= i < |keys| ==> keys[i] == (kind, entries[i].name)
  {
    seq(|entries|, i requires 0 <= i < |entries| => (kind, entries[i].name))
  }

  function WireFeatureKeys(w: FrameWire): seq<SourceKey> {
    EntryKeys(InHistory, w.history.features)
    + (if w.future.Some? then EntryKeys(InFuture, w.future.value.features) else [])
    + EntryKeys(InStatics, w.statics)
  }

  function WireKeys(ps: seq<ProvenanceWire>): (keys: seq<SourceKey>)
    ensures |keys| == |ps| && forall i :: 0 <= i < |keys| ==> keys[i] == (ps[i].segment, ps[i].feature)
  {
    seq(|ps|, i requires 0 <= i < |ps| => (ps[i].segment, ps[i].feature))
  }

  /** `validate_provenance_shape`. */
  predicate ShapeOk(w: FrameWire) {
    w.provenance != [] && DistinctAndComplete(WireKeys(w.provenance), WireFeatureKeys(w))
  }

  predicate SourceTextOk(feature: string, sourceRef: Option<string>) {
    FeatureName(feature) && (sourceRef.Some? ==> WireText(sourceRef.value, 2_048))
  }

  predicate AllAtMost(times: seq<nat>, bound: nat) { forall i :: 0 <= i < |times| ==> times[i] <= bound }

  predicate ProvenanceAtMost(p: Provenance, bound: nat) {
    p.watermark <= bound && (p.issuedAt.Some? ==> p.issuedAt.value <= bound)
  }

  /** Every instant of the frame is within the bound. */
  predicate TimesAtMost(f: Frame, bound: nat) {
    && f.asOf <= bound && f.quality.watermark <= bound && AllAtMost(f.history.timestamps, bound)
    && (f.future.Some? ==> AllAtMost(f.future.value.timestamps, bound))
    && forall i :: 0 <= i < |f.provenance| ==> ProvenanceAtMost(f.provenance[i], bound)
  }

  predicate NamesOk(f: Frame) {
    && (forall i :: 0 <= i < |f.history.series| ==> FeatureName(f.history.series[i].definition.name))
    && (f.future.Some? ==> forall i :: 0 <= i < |f.future.value.series| ==>
      FeatureName(f.future.value.series[i].definition.name))
    && (forall i :: 0 <= i < |f.statics| ==> FeatureName(f.statics[i].definition.name))
    && (forall i :: 0 <= i < |f.provenance| ==> SourceTextOk(f.provenance[i].feature, f.provenance[i].sourceRef))
  }

  predicate Consistent(f: Frame) {
    && NewestActual(f.provenance) == Some(f.quality.watermark)
    && Regular(f.history.timestamps, f.cadence) && (f.future.Some? ==> Regular(f.future.value.timestamps, f.cadence))
    && GapMatches(f)
  }

  predicate KeysBuild(f: Frame) {
    && Build(NamedWires(f.history.series)).Some?
    && (f.future.Some? ==> Build(NamedWires(f.future.value.series)).Some?)
    && Build(NamedStatics(f.statics)).Some?
  }

  /** When `frame_to_wire` succeeds. */
  predicate Encodable(f: Frame) {
    && f.provenance != [] && Consistent(f) && f.cadence % 1_000 == 0 && f.quality.maxGap % 1_000 == 0
    && TimesAtMost(f, LAST_FORMATTED) && NamesOk(f) && KeysBuild(f)
    && WithinWireLimits(WireFrame(f)) && ShapeOk(WireFrame(f))
  }

  /** Numbers need a unit on the wire; nothing else may have one. */
  predicate UnitOk(kind: ValueKind, unit: Option<string>) {
    if kind.NumberKind? then unit.Some? && UnitText(unit.value) else unit.None?
  }

  predicate UnitsOk(f: Frame) {
    && (forall i :: 0 <= i < |f.history.series| ==>
      UnitOk(f.history.series[i].definition.kind, f.history.series[i].definition.unit))
    && (f.future.Some? ==> forall i :: 0 <= i < |f.future.value.series| ==>
          UnitOk(f.future.value.series[i].definition.kind, f.future.value.series[i].definition.unit))
    && (forall i :: 0 <= i < |f.statics| ==> UnitOk(f.statics[i].definition.kind, f.statics[i].definition.unit))
  }

  /** When `frame_from_wire` succeeds. Value types are checked with the domain rules of the decoded frame. */
  predicate Decodable(w: FrameWire) {
    var f := DomainFrame(w);
    && WithinWireLimits(w) && ShapeOk(w)
    && f.cadence <= U64_MAX && f.quality.maxGap <= U64_MAX
    && TimesAtMost(f, LAST_PARSED) && NamesOk(f) && UnitsOk(f)
    && Consistent(f) && ValidFrame(f)
  }

  function FrameToWire(f: Frame): Option<FrameWire> { if Encodable(f) then Some(WireFrame(f)) else None }

  function FrameFromWire(w: FrameWire): Option<Frame> { if Decodable(w) then Some(DomainFrame(w)) else None }

  // ---------------------------------------------------------------- wire to domain and back

  predicate SortedWire(w: FrameWire) {
    Sorted(w.history.features) && (w.future.Some? ==> Sorted(w.future.value.features)) && Sorted(w.statics)
  }

  lemma SegmentReturns(role: Role, w: SegmentWire)
    requires Sorted(w.features)
    ensures WireSegment(DomainSegment(role, w)) == w
      && Build(NamedWires(DomainSegment(role, w).series)) == Some(w.features)
  {
    hide Sorted, Build;
    var s := DomainSegment(role, w);
    assert Stamps(s.timestamps) == w.timestamps;
    assert NamedWires(s.series) == w.features by {
      forall i | 0 <= i < |w.features| ensures NamedWires(s.series)[i] == w.features[i] {
        ScalarsInvert(w.features[i].value.values, []);
      }
    }
    BuildOfSorted(w.features);
  }

  lemma ScalarReturns(s: Scalar)
    ensures ScalarOf(ValueOf(s)) == s
  {}

  lemma StaticsReturn(wires: seq<Named<StaticWire>>)
    requires Sorted(wires)
    ensures Build(NamedStatics(DomainStatics(wires))) == Some(wires)
  {
    hide Sorted, Build;
    var statics := DomainStatics(wires);
    assert NamedStatics(statics) == wires by {
      forall i | 0 <= i < |wires| ensures NamedStatics(statics)[i] == wires[i] { ScalarReturns(wires[i].value.value); }
    }
    BuildOfSorted(wires);
  }

  lemma FrameReturns(w: FrameWire)
    requires SortedWire(w)
    ensures WireFrame(DomainFrame(w)) == w && KeysBuild(DomainFrame(w))
  {
    hide Sorted, Build;
    var f := DomainFrame(w);
    SegmentReturns(HistoryRole, w.history);
    if w.future.Some? { SegmentReturns(FutureRole, w.future.value); }
    StaticsReturn(w.statics);
    assert WireProvenances(f.provenance) == w.provenance;
  }

  lemma ParsedIsFormatted(f: Frame)
    requires TimesAtMost(f, LAST_PARSED)
    ensures TimesAtMost(f, LAST_FORMATTED)
  {
    forall i | 0 <= i < |f.provenance| ensures ProvenanceAtMost(f.provenance[i], LAST_FORMATTED) {
      assert ProvenanceAtMost(f.provenance[i], LAST_PARSED);
    }
  }

  /** Whatever decodes encodes again, to the same wire value. */
  lemma DecodedReEncodes(w: FrameWire)
    requires SortedWire(w) && Decodable(w)
    ensures FrameToWire(DomainFrame(w)) == Some(w)
  {
    hide SortedWire, WithinWireLimits, ShapeOk, NamesOk, UnitsOk, Consistent, ValidFrame, TimesAtMost, KeysBuild;
    var f := DomainFrame(w);
    FrameReturns(w);
    ParsedIsFormatted(f);
    ShapeNotEmpty(w);
  }

  lemma ShapeNotEmpty(w: FrameWire)
    requires ShapeOk(w)
    ensures DomainFrame(w).provenance != []
  {}

  // ---------------------------------------------------------------- domain to wire and back

  function Erased(s: Series): Series { s.(definition := s.definition.(constraints := None)) }

  function ErasedStatic(s: Static): Static { s.(definition := s.definition.(constraints := None)) }

  function NamedErased(series: seq<Series>): (r: seq<Named<Series>>)
    ensures |r| == |series| && forall i :: 0 <= i < |r| ==> r[i] == Named(series[i].definition.name, Erased(series[i]))
  {
    seq(|series|, i requires 0 <= i < |series| => Named(series[i].definition.name, Erased(series[i])))
  }

  function NamedErasedStatics(statics: seq<Static>): (r: seq<Named<Static>>)
    ensures |r| == |statics| && forall i :: 0 <= i < |r| ==>
      r[i] == Named(statics[i].definition.name, ErasedStatic(statics[i]))
  {
    seq(|statics|, i requires 0 <= i < |statics| => Named(statics[i].definition.name, ErasedStatic(statics[i])))
  }

  function Values<T>(xs: seq<Named<T>>): (r: seq<T>)
    ensures |r| == |xs| && forall i :: 0 <= i < |r| ==> r[i] == xs[i].value
  {
    seq(|xs|, i requires 0 <= i < |xs| => xs[i].value)
  }

  /** Series sorted by name, numeric constraints dropped. */
  function NormalSegment(s: Segment): Segment { Segment(s.timestamps, Values(BuiltOr(NamedErased(s.series)))) }

  function NormalStatics(statics: seq<Static>): seq<Static> { Values(BuiltOr(NamedErasedStatics(statics))) }

  function Normal(f: Frame): Frame {
    f.(history := NormalSegment(f.history),
       future := if f.future.Some? then Some(NormalSegment(f.future.value)) else None,
       statics := NormalStatics(f.statics))
  }

  lemma SeriesErased(role: Role, s: Series)
    requires s.definition.role == role
    ensures DomainSeries(role, Named(s.definition.name, WireSeries(s))) == Erased(s)
  {
    ScalarsInvert([], s.values);
  }

  lemma SegmentNormalizes(role: Role, s: Segment)
    requires SeriesRole(s.series, role)
    ensures DomainSegment(role, WireSegment(s)) == NormalSegment(s)
    ensures Build(NamedWires(s.series)).Some? <==> Build(NamedErased(s.series)).Some?
  {
    hide Build, DomainSeries;
    var f := (n: Named<SeriesWire>) => DomainSeries(role, n);
    var wires := NamedWires(s.series);
    assert MapValues(f, wires) == NamedErased(s.series) by {
      forall i | 0 <= i < |wires| ensures MapValues(f, wires)[i] == NamedErased(s.series)[i] {
        SeriesErased(role, s.series[i]);
      }
    }
    BuildMaps(f, wires);
    assert Instants(Stamps(s.timestamps)) == s.timestamps;
    var built := BuiltOr(wires);
    assert BuiltOr(NamedErased(s.series)) == MapValues(f, built) by { assert MapValues(f, []) == []; }
    assert DomainSeriesAll(role, built) == Values(MapValues(f, built));
  }

  lemma ValueReturns(v: FeatureValue)
    ensures ValueOf(ScalarOf(v)) == v
  {}

  lemma StaticsNormalize(statics: seq<Static>)
    requires forall i :: 0 <= i < |statics| ==> statics[i].definition.role == StaticRole
    ensures DomainStatics(BuiltOr(NamedStatics(statics))) == NormalStatics(statics)
  {
    hide Build;
    var f := (n: Named<StaticWire>) => DomainStatic(n);
    var wires := NamedStatics(statics);
    assert MapValues(f, wires) == NamedErasedStatics(statics) by {
      forall i | 0 <= i < |wires| ensures MapValues(f, wires)[i] == NamedErasedStatics(statics)[i] {
        ValueReturns(statics[i].value);
      }
    }
    BuildMaps(f, wires);
    var built := BuiltOr(wires);
    assert BuiltOr(NamedErasedStatics(statics)) == MapValues(f, built) by { assert MapValues(f, []) == []; }
    assert DomainStatics(built) == Values(MapValues(f, built));
  }

  /** Decoding what was encoded gives the frame in normal form. */
  lemma FrameNormalizes(f: Frame)
    requires ValidFrame(f) && f.cadence % 1_000 == 0 && f.quality.maxGap % 1_000 == 0
    ensures DomainFrame(WireFrame(f)) == Normal(f)
  {
    hide Build, ValidSegment, OneEntryEach, NewestActual, ValidProvenance, BuiltOr;
    SegmentNormalizes(HistoryRole, f.history);
    if f.future.Some? { SegmentNormalizes(FutureRole, f.future.value); }
    StaticRoles(f);
    StaticsNormalize(f.statics);
    assert DomainProvenances(WireProvenances(f.provenance)) == f.provenance;
  }

  lemma StaticRoles(f: Frame)
    requires ValidFrame(f)
    ensures forall i :: 0 <= i < |f.statics| ==> f.statics[i].definition.role == StaticRole
  {}

  lemma BuiltIsSorted<T>(xs: seq<Named<T>>)
    ensures Sorted(BuiltOr(xs))
  {
    BuildKeeps(xs);
  }

  lemma WireIsSorted(f: Frame)
    ensures SortedWire(WireFrame(f))
  {
    hide Build, Sorted;
    BuiltIsSorted(NamedWires(f.history.series));
    if f.future.Some? { BuiltIsSorted(NamedWires(f.future.value.series)); }
    BuiltIsSorted(NamedStatics(f.statics));
  }

  /** Whenever a frame encodes and the result decodes, the decoded frame is the original in normal form, and it encodes
      to the very same wire value. */
  lemma FrameRoundTrip(f: Frame, w: FrameWire)
    requires ValidFrame(f) && FrameToWire(f) == Some(w) && FrameFromWire(w).Some?
    ensures FrameFromWire(w) == Some(Normal(f)) && FrameToWire(Normal(f)) == Some(w)
  {
    hide ValidFrame, WireFrame, DomainFrame, Decodable, Normal, SortedWire, Consistent, TimesAtMost, NamesOk, KeysBuild,
         WithinWireLimits, ShapeOk;
    FrameNormalizes(f);
    WireIsSorted(f);
    DecodedReEncodes(w);
  }
}
