/** Data Processing frames: features, series, segments and provenance with the rules their constructors enforce, the
    observation gap, and the two provenance rules. */
module Frames {
  import opened Wrappers

  // ---------------------------------------------------------------- values

  datatype Role = HistoryRole | FutureRole | StaticRole

  datatype ValueKind = NumberKind | TextKind | BooleanKind

  /** Numbers are finite by construction. */
  datatype FeatureValue = Number(number: real) | Text(text: string) | Boolean(truth: bool) | MissingValue

  datatype SampleQuality = Good | Uncertain | Substituted | Missing

  datatype Constraints = Constraints(minimum: Option<real>, maximum: Option<real>, integer: bool)

  datatype Definition = Definition(name: string, role: Role, kind: ValueKind, unit: Option<string>,
                                   constraints: Option<Constraints>)

  datatype Series = Series(definition: Definition, values: seq<FeatureValue>, quality: seq<SampleQuality>)

  datatype Segment = Segment(timestamps: seq<nat>, series: seq<Series>)

  datatype Static = Static(definition: Definition, value: FeatureValue, quality: SampleQuality)

  datatype FrameQuality = FrameQuality(watermark: nat, missingRatio: real, maxGap: nat, liveTail: bool,
                                       substituted: nat)

  datatype SegmentKind = InHistory | InFuture | InStatics

  datatype SourceKind = FromHistory | FromLive | FromHistoryAndLive | FromCovariate | FromCalendar | FromConstant

  datatype Provenance = Provenance(segment: SegmentKind, feature: string, source: SourceKind, sourceRef: Option<string>,
                                   watermark: nat, issuedAt: Option<nat>)

  datatype Frame = Frame(asOf: nat, cadence: nat, history: Segment, future: Option<Segment>, statics: seq<Static>,
                         quality: FrameQuality, provenance: seq<Provenance>)

  /** `nonempty`: something is left after trimming. */
  predicate NotBlank(s: string) { exists i :: 0 <= i < |s| && !Whitespace(s[i]) }

  predicate ValidDefinition(d: Definition) {
    && NotBlank(d.name)
    && (d.unit.Some? ==> d.kind.NumberKind? && NotBlank(d.unit.value))
    && (d.constraints.Some? ==> d.kind.NumberKind?)
  }

  predicate Accepts(c: Constraints, value: real) {
    && (c.minimum.Some? ==> value >= c.minimum.value)
    && (c.maximum.Some? ==> value <= c.maximum.value)
    && (c.integer ==> value.Floor as real == value)
  }

  function KindOf(v: FeatureValue): Option<ValueKind> {
    match v
    case Number(_) => Some(NumberKind)
    case Text(_) => Some(TextKind)
    case Boolean(_) => Some(BooleanKind)
    case MissingValue => None
  }

  predicate ValidSample(d: Definition, v: FeatureValue, q: SampleQuality) {
    && (KindOf(v).Some? ==> KindOf(v).value == d.kind)
    && (v.MissingValue? <==> q.Missing?)
    && (d.constraints.Some? && v.Number? ==> Accepts(d.constraints.value, v.number))
  }

  predicate ValidSeries(s: Series) {
    && ValidDefinition(s.definition) && |s.values| == |s.quality|
    && forall i :: 0 <= i < |s.values| ==> ValidSample(s.definition, s.values[i], s.quality[i])
  }

  predicate Rising(timestamps: seq<nat>) {
    forall i, j :: 0 <= i < j < |timestamps| ==> timestamps[i] < timestamps[j]
  }

  predicate DistinctNames(series: seq<Series>) {
    forall i, j :: 0 <= i < j < |series| ==> series[i].definition.name != series[j].definition.name
  }

  predicate ValidSegment(s: Segment) {
    && s.timestamps != [] && s.series != [] && Rising(s.timestamps)
    && (forall i :: 0 <= i < |s.series| ==> ValidSeries(s.series[i]) && |s.series[i].values| == |s.timestamps|)
    && DistinctNames(s.series)
  }

  predicate ValidStatic(s: Static) {
    ValidDefinition(s.definition) && s.definition.role.StaticRole? && ValidSample(s.definition, s.value, s.quality)
  }

  predicate DistinctStatics(statics: seq<Static>) {
    forall i, j :: 0 <= i < j < |statics| ==> statics[i].definition.name != statics[j].definition.name
  }

  predicate SourceAllowed(segment: SegmentKind, source: SourceKind) {
    match segment
    case InHistory => source in {FromHistory, FromLive, FromHistoryAndLive, FromCalendar}
    case InFuture => source in {FromCovariate, FromCalendar, FromConstant}
    case InStatics => source.FromConstant?
  }

  predicate RefChar(c: char) { 'a' <= c <= 'z' || 'A' <= c <= 'Z' || '0' <= c <= '9' || c in "._-" }

  predicate SemanticRef(s: string) {
    0 < |s| <= 2_048 && RefChar(s[0]) && s[0] !in "._-" && forall i :: 0 < i < |s| ==> RefChar(s[i])
  }

  predicate ValidProvenance(p: Provenance) {
    && SourceAllowed(p.segment, p.source) && NotBlank(p.feature)
    && (p.sourceRef.Some? ==> SemanticRef(p.sourceRef.value))
    && (p.issuedAt.Some? ==> p.segment.InFuture? && p.source.FromCovariate? && p.issuedAt.value <= p.watermark)
  }

  // ---------------------------------------------------------------- provenance

  type SourceKey = (SegmentKind, string)

  function KeyOf(p: Provenance): SourceKey { (p.segment, p.feature) }

  function Keys(provenance: seq<Provenance>): (keys: seq<SourceKey>)
    ensures |keys| == |provenance| && forall i :: 0 <= i < |keys| ==> keys[i] == KeyOf(provenance[i])
  {
    seq(|provenance|, i requires 0 <= i < |provenance| => KeyOf(provenance[i]))
  }

  function SeriesKeys(kind: SegmentKind, series: seq<Series>): (keys: seq<SourceKey>)
    ensures |keys| == |series| && forall i :: 0 <= i < |keys| ==> keys[i] == (kind, series[i].definition.name)
  {
    seq(|series|, i requires 0 <= i < |series| => (kind, series[i].definition.name))
  }

  function StaticKeys(statics: seq<Static>): (keys: seq<SourceKey>)
    ensures |keys| == |statics| && forall i :: 0 <= i < |keys| ==> keys[i] == (InStatics, statics[i].definition.name)
  {
    seq(|statics|, i requires 0 <= i < |statics| => (InStatics, statics[i].definition.name))
  }

  /** Every feature of the frame, as the key its provenance must carry. */
  function FeatureKeys(f: Frame): seq<SourceKey> {
    SeriesKeys(InHistory, f.history.series)
    + (if f.future.Some? then SeriesKeys(InFuture, f.future.value.series) else [])
    + StaticKeys(f.statics)
  }

  function Count(keys: seq<SourceKey>, key: SourceKey): nat {
    if keys == [] then 0 else Count(keys[1..], key) + if keys[0] == key then 1 else 0
  }

  predicate Unique(keys: seq<SourceKey>) { forall i, j :: 0 <= i < j < |keys| ==> keys[i] != keys[j] }

  /** The domain constructor's rule: as many entries as features, and exactly one for each feature. */
  predicate OneEntryEach(entries: seq<SourceKey>, features: seq<SourceKey>) {
    |entries| == |features| && forall i :: 0 <= i < |features| ==> Count(entries, features[i]) == 1
  }

  /** The wire validator's rule: distinct entries, each for a known feature, and every feature covered. */
  predicate DistinctAndComplete(entries: seq<SourceKey>, features: seq<SourceKey>) {
    && Unique(entries)
    && (forall i :: 0 <= i < |entries| ==> entries[i] in features)
    && (forall i :: 0 <= i < |features| ==> features[i] in entries)
  }

  lemma {:induction false} CountIsMultiplicity(keys: seq<SourceKey>, key: SourceKey)
    ensures Count(keys, key) == multiset(keys)[key]
  {
    if keys != [] {
      CountIsMultiplicity(keys[1..], key);
      assert keys == [keys[0]] + keys[1..];
    }
  }

  lemma {:induction false} UniqueMultiplicity(keys: seq<SourceKey>, key: SourceKey)
    requires Unique(keys)
    ensures multiset(keys)[key] == if key in keys then 1 else 0
  {
    if keys != [] {
      var rest := keys[1..];
      assert forall i :: 0 <= i < |rest| ==> rest[i] == keys[i + 1];
      UniqueMultiplicity(rest, key);
      assert keys == [keys[0]] + rest;
    }
  }

  lemma {:induction false} AtMostOnceIsUnique(keys: seq<SourceKey>)
    requires forall key: SourceKey :: multiset(keys)[key] <= 1
    ensures Unique(keys)
  {
    if keys != [] {
      var rest := keys[1..];
      assert keys == [keys[0]] + rest;
      forall key: SourceKey ensures multiset(rest)[key] <= 1 { assert multiset(keys)[key] <= 1; }
      AtMostOnceIsUnique(rest);
      forall i, j | 0 <= i < j < |keys| ensures keys[i] != keys[j] {
        if i == 0 {
          assert rest[j - 1] in multiset(rest);
          assert multiset(keys)[keys[j]] <= 1;
        } else {
          assert rest[i - 1] != rest[j - 1];
        }
      }
    }
  }

  lemma SameSizeIsEqual(a: multiset<SourceKey>, b: multiset<SourceKey>)
    requires b <= a && |a| == |b|
    ensures a == b
  {
    assert a == b + (a - b);
  }

  /** Either rule says that the entries are the features, in some order. */
  lemma DomainRuleIsPermutation(entries: seq<SourceKey>, features: seq<SourceKey>)
    requires Unique(features)
    ensures OneEntryEach(entries, features) <==> multiset(entries) == multiset(features)
  {
    if OneEntryEach(entries, features) {
      forall key: SourceKey ensures multiset(features)[key] <= multiset(entries)[key] {
        UniqueMultiplicity(features, key);
        CountIsMultiplicity(entries, key);
      }
      SameSizeIsEqual(multiset(entries), multiset(features));
    }
    if multiset(entries) == multiset(features) {
      assert |multiset(entries)| == |entries| && |multiset(features)| == |features|;
      forall i | 0 <= i < |features| ensures Count(entries, features[i]) == 1 {
        CountIsMultiplicity(entries, features[i]);
        UniqueMultiplicity(features, features[i]);
      }
    }
  }

  lemma WireRuleIsPermutation(entries: seq<SourceKey>, features: seq<SourceKey>)
    requires Unique(features)
    ensures DistinctAndComplete(entries, features) <==> multiset(entries) == multiset(features)
  {
    if DistinctAndComplete(entries, features) {
      forall key: SourceKey ensures multiset(entries)[key] == multiset(features)[key] {
        UniqueMultiplicity(entries, key);
        UniqueMultiplicity(features, key);
      }
    }
    if multiset(entries) == multiset(features) {
      forall key: SourceKey ensures multiset(entries)[key] <= 1 { UniqueMultiplicity(features, key); }
      AtMostOnceIsUnique(entries);
      forall i | 0 <= i < |entries| ensures entries[i] in features { assert entries[i] in multiset(entries); }
      forall i | 0 <= i < |features| ensures features[i] in entries { assert features[i] in multiset(features); }
    }
  }

  /** For frames whose feature names are distinct within each segment, the two rules accept the same lists. */
  lemma ProvenanceRulesAgree(entries: seq<SourceKey>, features: seq<SourceKey>)
    requires Unique(features)
    ensures OneEntryEach(entries, features) <==> DistinctAndComplete(entries, features)
  {
    DomainRuleIsPermutation(entries, features);
    WireRuleIsPermutation(entries, features);
  }

  // ---------------------------------------------------------------- watermark and frame

  predicate Actual(p: Provenance) { p.source !in {FromCalendar, FromConstant} }

  function NewestActual(provenance: seq<Provenance>): Option<nat> {
    if provenance == [] then None
    else
      var rest := NewestActual(provenance[1..]);
      if !Actual(provenance[0]) then rest
      else if rest.Some? && rest.value > provenance[0].watermark then rest
      else Some(provenance[0].watermark)
  }

  predicate Aged(p: Provenance) { p.source != FromCalendar && p.source != FromConstant }

  /** The largest watermark of the entries that were measured or forecast. */
  predicate IsNewest(provenance: seq<Provenance>, w: nat) {
    && (exists i :: 0 <= i < |provenance| && Aged(provenance[i]) && provenance[i].watermark == w)
    && forall i :: 0 <= i < |provenance| && Aged(provenance[i]) ==> provenance[i].watermark <= w
  }

  lemma {:induction false} NewestIsMaximum(provenance: seq<Provenance>)
    ensures NewestActual(provenance).None? <==> forall i :: 0 <= i < |provenance| ==> !Aged(provenance[i])
    ensures NewestActual(provenance).Some? ==> IsNewest(provenance, NewestActual(provenance).value)
  {
    if provenance != [] {
      var rest := provenance[1..];
      NewestIsMaximum(rest);
      assert forall i :: 0 <= i < |rest| ==> provenance[i + 1] == rest[i];
      assert forall i :: 1 <= i < |provenance| ==> provenance[i] == rest[i - 1];
      if NewestActual(rest).Some? {
        var k :| 0 <= k < |rest| && Aged(rest[k]) && rest[k].watermark == NewestActual(rest).value;
        assert provenance[k + 1] == rest[k];
      }
    }
  }

  /** The newest watermark is the maximum over the actual entries, and there is none exactly if no entry is actual. */
  lemma NewestExactly(provenance: seq<Provenance>, w: nat)
    ensures NewestActual(provenance) == Some(w) <==> IsNewest(provenance, w)
    ensures NewestActual(provenance) == None <==> forall i :: 0 <= i < |provenance| ==> !Aged(provenance[i])
  {
    hide Aged, NewestActual;
    NewestIsMaximum(provenance);
  }

  predicate NoLaterThan(p: Provenance, asOf: nat) {
    p.watermark <= asOf && (p.issuedAt.Some? ==> p.issuedAt.value <= asOf)
  }

  predicate ValidQuality(q: FrameQuality) { 0.0 <= q.missingRatio <= 1.0 }

  predicate SeriesRole(series: seq<Series>, role: Role) {
    forall i :: 0 <= i < |series| ==> series[i].definition.role == role
  }

  predicate ValidFrame(f: Frame) {
    && f.cadence > 0
    && ValidSegment(f.history) && f.history.timestamps[|f.history.timestamps| - 1] == f.asOf
    && (f.future.Some? ==>
          && ValidSegment(f.future.value)
          && f.asOf + f.cadence <= U64_MAX && f.future.value.timestamps[0] == f.asOf + f.cadence)
    && ValidQuality(f.quality) && f.quality.watermark <= f.asOf
    && (forall i :: 0 <= i < |f.provenance| ==>
      ValidProvenance(f.provenance[i]) && NoLaterThan(f.provenance[i], f.asOf))
    && SeriesRole(f.history.series, HistoryRole)
    && (f.future.Some? ==> SeriesRole(f.future.value.series, FutureRole))
    && (forall i :: 0 <= i < |f.statics| ==> ValidStatic(f.statics[i])) && DistinctStatics(f.statics)
    && OneEntryEach(Keys(f.provenance), FeatureKeys(f))
    && NewestActual(f.provenance) == Some(f.quality.watermark)
  }

  lemma ConcatUnique(a: seq<SourceKey>, b: seq<SourceKey>)
    requires Unique(a) && Unique(b) && forall i, j :: 0 <= i < |a| && 0 <= j < |b| ==> a[i] != b[j]
    ensures Unique(a + b)
  {}

  lemma FrameFeaturesUnique(f: Frame)
    requires DistinctNames(f.history.series) && (f.future.Some? ==> DistinctNames(f.future.value.series))
      && DistinctStatics(f.statics)
    ensures Unique(FeatureKeys(f))
  {
    var h := SeriesKeys(InHistory, f.history.series);
    var u := if f.future.Some? then SeriesKeys(InFuture, f.future.value.series) else [];
    ConcatUnique(h, u);
    ConcatUnique(h + u, StaticKeys(f.statics));
  }

  // ---------------------------------------------------------------- the observation gap

  function SatSub(a: nat, b: nat): nat { if a >= b then a - b else 0 }

  function Max(a: nat, b: nat): nat { if a >= b then a else b }

  predicate Usable(v: FeatureValue, q: SampleQuality) { !q.Missing? && !v.MissingValue? }

  function UsableFlags(s: Series): (flags: seq<bool>)
    requires |s.values| == |s.quality|
    ensures |flags| == |s.values| && forall i :: 0 <= i < |flags| ==> flags[i] == Usable(s.values[i], s.quality[i])
  {
    seq(|s.values|, i requires 0 <= i < |s.values| => Usable(s.values[i], s.quality[i]))
  }

  /** The running (last usable label, largest step) after the first `n` labels. */
  function GapFold(times: seq<nat>, usable: seq<bool>, start: nat, cadence: nat, n: nat): (nat, nat)
    requires n <= |times| == |usable|
  {
    if n == 0 then (start, cadence)
    else
      var (previous, largest) := GapFold(times, usable, start, cadence, n - 1);
      if usable[n - 1] then (times[n - 1], Max(largest, SatSub(times[n - 1], previous))) else (previous, largest)
  }

  function SeriesGap(times: seq<nat>, usable: seq<bool>, start: nat, cadence: nat): nat
    requires |times| == |usable| && times != []
  {
    var (previous, largest) := GapFold(times, usable, start, cadence, |times|);
    Max(largest, SatSub(times[|times| - 1], previous))
  }

  predicate Aligned(s: Segment) {
    forall i :: 0 <= i < |s.series| ==> |s.series[i].values| == |s.series[i].quality| == |s.timestamps|
  }

  function WindowStart(s: Segment, cadence: nat): nat
    requires s.timestamps != []
  {
    SatSub(s.timestamps[0], cadence)
  }

  function GapOfFirst(s: Segment, cadence: nat, n: nat): nat
    requires s.timestamps != [] && Aligned(s) && n <= |s.series|
  {
    if n == 0 then cadence
    else Max(GapOfFirst(s, cadence, n - 1),
             SeriesGap(s.timestamps, UsableFlags(s.series[n - 1]), WindowStart(s, cadence), cadence))
  }

  function MaximumGap(s: Segment, cadence: nat): nat
    requires Aligned(s)
  {
    if s.timestamps == [] then cadence else GapOfFirst(s, cadence, |s.series|)
  }

  /** No usable label lies strictly inside the interval. */
  predicate Bare(times: seq<nat>, usable: seq<bool>, a: nat, b: nat)
    requires |times| == |usable|
  {
    forall i :: 0 <= i < |times| && usable[i] ==> !(a < times[i] < b)
  }

  ghost predicate FoldBounds(times: seq<nat>, usable: seq<bool>, start: nat, cadence: nat, n: nat)
    requires n <= |times| == |usable|
  {
    var (previous, largest) := GapFold(times, usable, start, cadence, n);
    && start <= previous && cadence <= largest
    && (previous == start || exists i :: 0 <= i < n && usable[i] && times[i] == previous)
    && (forall i :: 0 <= i < n && usable[i] ==> times[i] <= previous)
    && (forall a: nat, b: nat :: start <= a <= b <= previous && Bare(times, usable, a, b) ==> b - a <= largest)
    && (largest == cadence || exists a: nat, b: nat ::
      start <= a <= b <= previous && Bare(times, usable, a, b) && b - a == largest)
  }

  lemma {:induction false} FoldMeans(times: seq<nat>, usable: seq<bool>, start: nat, cadence: nat, n: nat)
    requires n <= |times| == |usable| && times != [] && Rising(times) && start <= times[0]
    ensures FoldBounds(times, usable, start, cadence, n)
  {
    if n > 0 {
      FoldMeans(times, usable, start, cadence, n - 1);
      FoldStep(times, usable, start, cadence, n);
    }
  }

  lemma FoldStep(times: seq<nat>, usable: seq<bool>, start: nat, cadence: nat, n: nat)
    requires 0 < n <= |times| == |usable| && Rising(times) && start <= times[0]
    requires FoldBounds(times, usable, start, cadence, n - 1)
    ensures FoldBounds(times, usable, start, cadence, n)
  {
    if usable[n - 1] {
      var (previous, largest) := GapFold(times, usable, start, cadence, n - 1);
      var here := times[n - 1];
      assert previous <= here;
      var next := Max(largest, here - previous);
      forall a: nat, b: nat | start <= a <= b <= here && Bare(times, usable, a, b) ensures b - a <= next {
        if previous < b && a < previous { assert false; }
      }
      assert Bare(times, usable, previous, here);
    }
  }

  /** The gap of a series is the length of its longest interval, within the window from one cadence before the first
      label to the last label, that contains no usable label; or the cadence, if that is longer. */
  lemma SeriesGapIsLongest(times: seq<nat>, usable: seq<bool>, start: nat, cadence: nat)
    requires |times| == |usable| && times != [] && Rising(times) && start <= times[0]
    ensures var gap := SeriesGap(times, usable, start, cadence);
            var last := times[|times| - 1];
      && cadence <= gap
      && (forall a: nat, b: nat :: start <= a <= b <= last && Bare(times, usable, a, b) ==> b - a <= gap)
      && (gap == cadence || exists a: nat, b: nat ::
        start <= a <= b <= last && Bare(times, usable, a, b) && b - a == gap)
  {
    FoldMeans(times, usable, start, cadence, |times|);
    var (previous, largest) := GapFold(times, usable, start, cadence, |times|);
    var last := times[|times| - 1];
    var gap := SeriesGap(times, usable, start, cadence);
    assert previous <= last;
    forall a: nat, b: nat | start <= a <= b <= last && Bare(times, usable, a, b) ensures b - a <= gap {
      if previous < b && a < previous { assert false; }
    }
    assert Bare(times, usable, previous, last);
  }

  /** An interval of one series of the window without a usable label inside. */
  predicate Stretch(s: Segment, cadence: nat, i: nat, a: nat, b: nat)
    requires s.timestamps != [] && Aligned(s)
  {
    && i < |s.series| && WindowStart(s, cadence) <= a <= b <= s.timestamps[|s.timestamps| - 1]
    && Bare(s.timestamps, UsableFlags(s.series[i]), a, b)
  }

  lemma {:induction false} GapOfFirstIsLongest(s: Segment, cadence: nat, n: nat)
    requires s.timestamps != [] && Aligned(s) && Rising(s.timestamps) && n <= |s.series|
    ensures var gap := GapOfFirst(s, cadence, n);
      && cadence <= gap
      && (forall i: nat, a: nat, b: nat :: i < n && Stretch(s, cadence, i, a, b) ==> b - a <= gap)
      && (gap == cadence || exists i: nat, a: nat, b: nat :: i < n && Stretch(s, cadence, i, a, b) && b - a == gap)
  {
    hide Bare, SeriesGap;
    if n > 0 {
      GapOfFirstIsLongest(s, cadence, n - 1);
      var flags, start := UsableFlags(s.series[n - 1]), WindowStart(s, cadence);
      SeriesGapIsLongest(s.timestamps, flags, start, cadence);
      var gap := GapOfFirst(s, cadence, n);
      if gap == SeriesGap(s.timestamps, flags, start, cadence) && gap != cadence {
        var a: nat, b: nat :| start <= a <= b <= s.timestamps[|s.timestamps| - 1] && Bare(s.timestamps, flags, a, b)
          && b - a == gap;
        assert Stretch(s, cadence, n - 1, a, b);
      } else if gap != cadence {
        var i: nat, a: nat, b: nat :| i < n - 1 && Stretch(s, cadence, i, a, b) && b - a == gap;
        assert i < n && Stretch(s, cadence, i, a, b);
      }
    }
  }

  /** `maximum_observation_gap` is the longest stretch without a usable observation over all series, both window ends
      included, and never below the cadence. */
  lemma GapIsLongestStretch(s: Segment, cadence: nat)
    requires ValidSegment(s)
    ensures Aligned(s)
    ensures var gap := MaximumGap(s, cadence);
      && cadence <= gap
      && (forall i: nat, a: nat, b: nat :: Stretch(s, cadence, i, a, b) ==> b - a <= gap)
      && (gap == cadence || exists i: nat, a: nat, b: nat :: Stretch(s, cadence, i, a, b) && b - a == gap)
  {
    hide Stretch;
    SegmentAligned(s);
    GapOfFirstIsLongest(s, cadence, |s.series|);
    forall i: nat, a: nat, b: nat | Stretch(s, cadence, i, a, b) ensures b - a <= MaximumGap(s, cadence) {
      StretchIndex(s, cadence, i, a, b);
    }
  }

  lemma SegmentAligned(s: Segment)
    requires ValidSegment(s)
    ensures Aligned(s)
  {}

  lemma StretchIndex(s: Segment, cadence: nat, i: nat, a: nat, b: nat)
    requires s.timestamps != [] && Aligned(s) && Stretch(s, cadence, i, a, b)
    ensures i < |s.series|
  {}
}
