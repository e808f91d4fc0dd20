/** Which requests the application builds on a commissioned route can actually be put on the wire. */
module Representable {
  import opened Wrappers
  import CanonicalJson
  import CloudLink
  import opened Frames
  import opened LiveTail
  import opened Tasks
  import opened Assembly
  import opened OrderedMap
  import opened FrameCodec
  import opened RequestCodec

  // ---------------------------------------------------------------- the normal form is a rearrangement

  lemma NormalBuilds(s: Segment)
    requires DistinctNames(s.series)
    ensures Build(NamedErased(s.series)).Some? && Build(NamedWires(s.series)).Some?
  {
    BuildsIffDistinct(NamedErased(s.series));
    BuildsIffDistinct(NamedWires(s.series));
  }

  lemma NormalMembers(s: Segment, k: nat) returns (i: nat)
    requires DistinctNames(s.series) && k < |NormalSegment(s).series|
    ensures i < |s.series| && NormalSegment(s).series[k] == Erased(s.series[i])
  {
    hide Build;
    var named := NamedErased(s.series);
    NormalBuilds(s);
    BuildKeeps(named);
    var built := Build(named).value;
    assert built[k] in multiset(named);
    i :| 0 <= i < |named| && named[i] == built[k];
  }

  lemma NormalCovers(s: Segment, i: nat) returns (k: nat)
    requires DistinctNames(s.series) && i < |s.series|
    ensures k < |NormalSegment(s).series| && NormalSegment(s).series[k] == Erased(s.series[i])
  {
    hide Build;
    var named := NamedErased(s.series);
    NormalBuilds(s);
    BuildKeeps(named);
    var built := Build(named).value;
    assert named[i] in multiset(built);
    k :| 0 <= k < |built| && built[k] == named[i];
  }

  lemma NormalSize(s: Segment)
    requires DistinctNames(s.series)
    ensures |NormalSegment(s).series| == |s.series|
  {
    hide Build;
    NormalBuilds(s);
    BuildKeeps(NamedErased(s.series));
    assert |multiset(NamedErased(s.series))| == |s.series|;
    assert |multiset(Build(NamedErased(s.series)).value)| == |Build(NamedErased(s.series)).value|;
  }

  lemma NormalDistinct(s: Segment)
    requires DistinctNames(s.series)
    ensures DistinctNames(NormalSegment(s).series)
  {
    hide Build, Sorted;
    var named := NamedErased(s.series);
    NormalBuilds(s);
    BuildKeeps(named);
    var built := Build(named).value;
    SortedIsDistinct(built);
    forall k | 0 <= k < |built| ensures built[k].value.definition.name == built[k].name {
      assert built[k] in multiset(named);
      var i :| 0 <= i < |named| && named[i] == built[k];
    }
  }

  lemma ErasedValid(s: Series)
    requires ValidSeries(s)
    ensures ValidSeries(Erased(s))
  {
    forall i | 0 <= i < |s.values| ensures ValidSample(Erased(s).definition, s.values[i], s.quality[i]) {
      assert ValidSample(s.definition, s.values[i], s.quality[i]);
    }
  }

  lemma NormalSegmentValid(s: Segment)
    requires ValidSegment(s)
    ensures ValidSegment(NormalSegment(s))
  {
    hide Build, ValidSeries;
    var n := NormalSegment(s);
    NormalSize(s);
    NormalDistinct(s);
    forall k | 0 <= k < |n.series| ensures ValidSeries(n.series[k]) && |n.series[k].values| == |n.timestamps| {
      var i := NormalMembers(s, k);
      ErasedValid(s.series[i]);
    }
  }

  // ---------------------------------------------------------------- the gap does not depend on the order of the series

  lemma SameFlags(s: Segment, n: Segment, i: nat, k: nat, cadence: nat, a: nat, b: nat)
    requires s.timestamps == n.timestamps != [] && Aligned(s) && Aligned(n) && i < |s.series| && k < |n.series|
    requires n.series[k] == Erased(s.series[i])
    ensures Stretch(s, cadence, i, a, b) <==> Stretch(n, cadence, k, a, b)
  {
    assert UsableFlags(n.series[k]) == UsableFlags(s.series[i]);
  }

  lemma NormalKeepsGap(s: Segment, cadence: nat)
    requires ValidSegment(s)
    ensures Aligned(s) && Aligned(NormalSegment(s)) && MaximumGap(NormalSegment(s), cadence) == MaximumGap(s, cadence)
  {
    hide Stretch, MaximumGap, ValidSegment, NormalSegment, Erased;
    var n := NormalSegment(s);
    NormalSegmentValid(s);
    NormalTimes(s);
    SegmentDistinct(s);
    GapIsLongestStretch(s, cadence);
    GapIsLongestStretch(n, cadence);
    var g, h := MaximumGap(s, cadence), MaximumGap(n, cadence);
    if g != cadence {
      var i: nat, a: nat, b: nat :| Stretch(s, cadence, i, a, b) && b - a == g;
      StretchIndex(s, cadence, i, a, b);
      var k := NormalCovers(s, i);
      SameFlags(s, n, i, k, cadence, a, b);
    }
    if h != cadence {
      var k: nat, a: nat, b: nat :| Stretch(n, cadence, k, a, b) && b - a == h;
      StretchIndex(n, cadence, k, a, b);
      var i := NormalMembers(s, k);
      SameFlags(s, n, i, k, cadence, a, b);
    }
  }

  lemma NormalTimes(s: Segment)
    requires ValidSegment(s)
    ensures NormalSegment(s).timestamps == s.timestamps != []
  {}

  lemma SegmentDistinct(s: Segment)
    requires ValidSegment(s)
    ensures DistinctNames(s.series)
  {}

  // ---------------------------------------------------------------- statics

  lemma StaticsBuild(statics: seq<Static>)
    requires DistinctStatics(statics)
    ensures Build(NamedErasedStatics(statics)).Some? && Build(NamedStatics(statics)).Some?
  {
    BuildsIffDistinct(NamedErasedStatics(statics));
    BuildsIffDistinct(NamedStatics(statics));
  }

  lemma StaticMembers(statics: seq<Static>, k: nat) returns (i: nat)
    requires DistinctStatics(statics) && k < |NormalStatics(statics)|
    ensures i < |statics| && NormalStatics(statics)[k] == ErasedStatic(statics[i])
  {
    hide Build;
    var named := NamedErasedStatics(statics);
    StaticsBuild(statics);
    BuildKeeps(named);
    var built := Build(named).value;
    assert built[k] in multiset(named);
    i :| 0 <= i < |named| && named[i] == built[k];
  }

  lemma StaticCovers(statics: seq<Static>, i: nat) returns (k: nat)
    requires DistinctStatics(statics) && i < |statics|
    ensures k < |NormalStatics(statics)| && NormalStatics(statics)[k] == ErasedStatic(statics[i])
  {
    hide Build;
    var named := NamedErasedStatics(statics);
    StaticsBuild(statics);
    BuildKeeps(named);
    var built := Build(named).value;
    assert named[i] in multiset(built);
    k :| 0 <= k < |built| && built[k] == named[i];
  }

  lemma NormalStaticsValid(statics: seq<Static>)
    requires DistinctStatics(statics) && forall i :: 0 <= i < |statics| ==> ValidStatic(statics[i])
    ensures DistinctStatics(NormalStatics(statics))
    ensures forall k :: 0 <= k < |NormalStatics(statics)| ==> ValidStatic(NormalStatics(statics)[k])
  {
    hide Build, Sorted, ValidStatic;
    var named := NamedErasedStatics(statics);
    StaticsBuild(statics);
    BuildKeeps(named);
    var built := Build(named).value;
    SortedIsDistinct(built);
    forall k | 0 <= k < |built| ensures built[k].value.definition.name == built[k].name && ValidStatic(built[k].value) {
      assert built[k] in multiset(named);
      var i :| 0 <= i < |named| && named[i] == built[k];
      ErasedStaticValid(statics[i]);
    }
  }

  lemma ErasedStaticValid(s: Static)
    requires ValidStatic(s)
    ensures ValidStatic(ErasedStatic(s))
  {}

  // ---------------------------------------------------------------- the same feature keys

  /** Rearranging the features of a frame does not change the provenance rule. */
  lemma RuleCarriesOver(entries: seq<SourceKey>, features: seq<SourceKey>, others: seq<SourceKey>)
    requires OneEntryEach(entries, features) && Unique(features) && Unique(others)
    requires forall key: SourceKey :: key in features <==> key in others
    ensures OneEntryEach(entries, others)
  {
    ProvenanceRulesAgree(entries, features);
    ProvenanceRulesAgree(entries, others);
    forall i | 0 <= i < |entries| ensures entries[i] in others { assert entries[i] in features; }
    forall i | 0 <= i < |others| ensures others[i] in entries {
      assert others[i] in features;
      var j :| 0 <= j < |features| && features[j] == others[i];
    }
  }

  lemma SeriesKeysSame(kind: SegmentKind, s: Segment, key: SourceKey)
    requires DistinctNames(s.series)
    ensures key in SeriesKeys(kind, NormalSegment(s).series) <==> key in SeriesKeys(kind, s.series)
  {
    var a, b := SeriesKeys(kind, NormalSegment(s).series), SeriesKeys(kind, s.series);
    if key in a {
      var k :| 0 <= k < |a| && a[k] == key;
      var i := NormalMembers(s, k);
      assert b[i] == key;
    }
    if key in b {
      var i :| 0 <= i < |b| && b[i] == key;
      var k := NormalCovers(s, i);
      assert a[k] == key;
    }
  }

  lemma StaticKeysSame(statics: seq<Static>, key: SourceKey)
    requires DistinctStatics(statics)
    ensures key in StaticKeys(NormalStatics(statics)) <==> key in StaticKeys(statics)
  {
    var a, b := StaticKeys(NormalStatics(statics)), StaticKeys(statics);
    if key in a {
      var k :| 0 <= k < |a| && a[k] == key;
      var i := StaticMembers(statics, k);
      assert b[i] == key;
    }
    if key in b {
      var i :| 0 <= i < |b| && b[i] == key;
      var k := StaticCovers(statics, i);
      assert a[k] == key;
    }
  }

  predicate NamesDistinct(f: Frame) {
    DistinctNames(f.history.series) && (f.future.Some? ==> DistinctNames(f.future.value.series))
      && DistinctStatics(f.statics)
  }

  lemma FeatureKeysSame(f: Frame, key: SourceKey)
    requires NamesDistinct(f)
    ensures key in FeatureKeys(Normal(f)) <==> key in FeatureKeys(f)
  {
    hide NormalSegment, NormalStatics;
    SeriesKeysSame(InHistory, f.history, key);
    if f.future.Some? { SeriesKeysSame(InFuture, f.future.value, key); }
    StaticKeysSame(f.statics, key);
  }

  lemma NormalNamesDistinct(f: Frame)
    requires ValidFrame(f)
    ensures NamesDistinct(f) && NamesDistinct(Normal(f))
  {
    hide Build, OneEntryEach, NewestActual, ValidProvenance, NormalSegment, NormalStatics;
    NormalDistinct(f.history);
    if f.future.Some? { NormalDistinct(f.future.value); }
    NormalStaticsValid(f.statics);
  }

  lemma NormalRule(f: Frame)
    requires ValidFrame(f)
    ensures OneEntryEach(Keys(f.provenance), FeatureKeys(Normal(f)))
  {
    hide Build, NewestActual, ValidProvenance, NormalSegment, NormalStatics, FeatureKeys, Keys, OneEntryEach, Normal,
         NamesDistinct, Unique;
    NormalNamesDistinct(f);
    UniqueKeys(f);
    UniqueKeys(Normal(f));
    forall key: SourceKey ensures key in FeatureKeys(f) <==> key in FeatureKeys(Normal(f)) { FeatureKeysSame(f, key); }
    RuleCarriesOver(Keys(f.provenance), FeatureKeys(f), FeatureKeys(Normal(f)));
  }

  lemma UniqueKeys(f: Frame)
    requires NamesDistinct(f)
    ensures Unique(FeatureKeys(f))
  {
    FrameFeaturesUnique(f);
  }

  lemma NormalRoles(s: Segment, role: Role)
    requires DistinctNames(s.series) && SeriesRole(s.series, role)
    ensures SeriesRole(NormalSegment(s).series, role)
  {
    forall k | 0 <= k < |NormalSegment(s).series| ensures NormalSegment(s).series[k].definition.role == role {
      var i := NormalMembers(s, k);
    }
  }

  /** The normal form of a valid frame is a valid frame. */
  lemma NormalFrameValid(f: Frame)
    requires ValidFrame(f)
    ensures ValidFrame(Normal(f))
  {
    hide Build, NewestActual, ValidProvenance, ValidSegment, ValidStatic, DistinctStatics, SeriesRole, OneEntryEach,
         FeatureKeys, NormalSegment, NormalStatics;
    NormalRule(f);
    NormalSegmentValid(f.history);
    NormalTimes(f.history);
    SegmentDistinct(f.history);
    NormalRoles(f.history, HistoryRole);
    NormalStaticsValid(f.statics);
    if f.future.Some? {
      NormalSegmentValid(f.future.value);
      NormalTimes(f.future.value);
      SegmentDistinct(f.future.value);
      NormalRoles(f.future.value, FutureRole);
    }
  }

  lemma NormalConsistent(f: Frame)
    requires ValidFrame(f) && Consistent(f)
    ensures Consistent(Normal(f))
  {
    hide Build, NewestActual, ValidProvenance, ValidSegment, OneEntryEach, FeatureKeys, NormalSegment, NormalStatics,
         MaximumGap;
    NormalKeepsGap(f.history, f.cadence);
    NormalTimes(f.history);
    if f.future.Some? { NormalTimes(f.future.value); }
  }

  // ---------------------------------------------------------------- a frame carries exactly the task's features

  predicate InStatic(statics: seq<Static>, d: Definition) {
    exists k :: 0 <= k < |statics| && statics[k].definition == d
  }

  predicate InFrame(f: Frame, d: Definition) {
    HasSeries(f.history, d) || (f.future.Some? && HasSeries(f.future.value, d)) || InStatic(f.statics, d)
  }

  function StaticNames(statics: seq<Static>): (names: seq<string>)
    ensures |names| == |statics| && forall i :: 0 <= i < |names| ==> names[i] == statics[i].definition.name
  {
    seq(|statics|, i requires 0 <= i < |statics| => statics[i].definition.name)
  }

  lemma StaticIsFeature(statics: seq<Static>, expected: seq<Definition>, k: nat)
    requires DistinctStatics(statics) && Distinct(DefinitionNames(expected)) && |expected| == |statics| && k < |statics|
    requires forall i :: 0 <= i < |expected| ==> InStatic(statics, expected[i])
    ensures statics[k].definition in expected
  {
    var names, wanted := StaticNames(statics), DefinitionNames(expected);
    forall i | 0 <= i < |wanted| ensures wanted[i] in names {
      assert InStatic(statics, expected[i]);
      var j :| 0 <= j < |statics| && statics[j].definition == expected[i];
      assert names[j] == wanted[i];
    }
    Pigeonhole(names, wanted, k);
    var i :| 0 <= i < |wanted| && wanted[i] == names[k];
    assert InStatic(statics, expected[i]);
    var j :| 0 <= j < |statics| && statics[j].definition == expected[i];
    assert statics[j].definition.name == statics[k].definition.name;
  }

  lemma {:induction false} RoleMember(features: seq<Definition>, role: Role, d: Definition)
    ensures d in WithRole(features, role) <==> d in features && d.role == role
  {
    if features != [] {
      var n := |features| - 1;
      RoleMember(features[..n], role, d);
      assert features == features[..n] + [features[n]];
    }
  }

  lemma SegmentFeatures(s: Segment, features: seq<Definition>, role: Role, times: seq<nat>, d: Definition)
    requires FeaturesUnique(features) && DistinctNames(s.series) && SegmentMatches(s, WithRole(features, role), times)
    ensures HasSeries(s, d) <==> d in features && d.role == role
  {
    hide WithRole, FeaturesUnique;
    var wanted := WithRole(features, role);
    RoleNamesDistinct(features, role);
    RoleMember(features, role, d);
    if HasSeries(s, d) {
      var k :| 0 <= k < |s.series| && s.series[k].definition == d;
      SeriesIsFeature(s, wanted, times, k);
    }
    if d in wanted {
      var i :| 0 <= i < |wanted| && wanted[i] == d;
      assert HasSeries(s, wanted[i]);
    }
  }

  lemma StaticFeatures(statics: seq<Static>, t: Task, d: Definition)
    requires FeaturesUnique(t.features) && DistinctStatics(statics) && StaticsMatch(t, statics)
    ensures InStatic(statics, d) <==> d in t.features && d.role == StaticRole
  {
    hide WithRole, FeaturesUnique;
    var wanted := WithRole(t.features, StaticRole);
    RoleNamesDistinct(t.features, StaticRole);
    RoleMember(t.features, StaticRole, d);
    forall i | 0 <= i < |wanted| ensures InStatic(statics, wanted[i]) {}
    if InStatic(statics, d) {
      var k :| 0 <= k < |statics| && statics[k].definition == d;
      StaticIsFeature(statics, wanted, k);
    }
    if d in wanted { var i :| 0 <= i < |wanted| && wanted[i] == d; }
  }

  lemma FutureAbsent(t: Task, d: Definition)
    requires WithRole(t.features, FutureRole) == []
    ensures !(d in t.features && d.role == FutureRole)
  {
    RoleMember(t.features, FutureRole, d);
  }

  predicate OnRoute(r: Route, q: TaskRequest, f: Frame, usizeMax: nat) {
    Admitted(r, usizeMax) && AssembledFor(r, q, f)
  }

  /** The facts about a frame on a route that the lemmas below start from. */
  lemma RouteBasics(r: Route, q: TaskRequest, f: Frame, usizeMax: nat)
    requires OnRoute(r, q, f, usizeMax)
    ensures ValidFrame(f) && ValidTask(r.task) && TaskRepresentable(r.task) && FeaturesUnique(r.task.features)
    ensures StaticsMatch(r.task, f.statics)
    ensures f.asOf == q.asOf && f.cadence == r.task.spec.cadence && 0 < q.horizon <= r.task.spec.maxHorizon
    ensures r.task.spec.historySteps > 0 && HistorySpan(r.task) <= q.asOf
    ensures SegmentMatches(f.history, WithRole(r.task.features, HistoryRole),
                           Grid(q.asOf - HistorySpan(r.task), r.task.spec.cadence, r.task.spec.historySteps))
    ensures f.future.None? <==> WithRole(r.task.features, FutureRole) == []
    ensures f.future.Some? ==>
      SegmentMatches(f.future.value, WithRole(r.task.features, FutureRole),
                     Grid(q.asOf + r.task.spec.cadence, r.task.spec.cadence, q.horizon))
    ensures GapMatches(f)
  {
    hide ValidFrame, TaskRepresentable, WithRole, SegmentMatches, CheckedCells, MaximumGap, StaticsMatch,
         WireIdentifier, PointsMatch, MaximumTaskCells;
  }

  lemma FrameHasTaskFeatures(r: Route, q: TaskRequest, f: Frame, usizeMax: nat, d: Definition)
    requires OnRoute(r, q, f, usizeMax)
    ensures InFrame(f, d) <==> d in r.task.features
  {
    hide HasSeries, InStatic, WithRole, SegmentMatches, ValidFrame, TaskRepresentable, ValidTask, MaximumGap,
         StaticsMatch, OnRoute, FeaturesUnique;
    var features, spec := r.task.features, r.task.spec;
    RouteBasics(r, q, f, usizeMax);
    NormalNamesDistinct(f);
    SegmentFeatures(f.history, features, HistoryRole,
                    Grid(q.asOf - HistorySpan(r.task), spec.cadence, spec.historySteps), d);
    if f.future.Some? {
      SegmentFeatures(f.future.value, features, FutureRole, Grid(q.asOf + spec.cadence, spec.cadence, q.horizon), d);
    } else {
      FutureAbsent(r.task, d);
    }
    StaticFeatures(f.statics, r.task, d);
  }

  // ---------------------------------------------------------------- names, units, limits and shape

  predicate NumbersHaveUnits(t: Task) {
    forall i :: 0 <= i < |t.features| && t.features[i].kind.NumberKind? ==> t.features[i].unit.Some?
  }

  lemma DefinitionsOk(r: Route, q: TaskRequest, f: Frame, usizeMax: nat, d: Definition)
    requires OnRoute(r, q, f, usizeMax) && InFrame(f, d)
    ensures FeatureName(d.name) && (UnitOk(d.kind, d.unit) <==> (d.kind.NumberKind? ==> d.unit.Some?))
  {
    hide FeatureName, UnitText, WithRole, SegmentMatches, ValidFrame, MaximumGap, StaticsMatch, OnRoute, WireIdentifier,
         ValidSpec, HistoryNamed, InFrame, FeaturesUnique;
    RouteBasics(r, q, f, usizeMax);
    FrameHasTaskFeatures(r, q, f, usizeMax, d);
    var i :| 0 <= i < |r.task.features| && r.task.features[i] == d;
    assert ValidDefinition(r.task.features[i]);
  }

  lemma {:induction false} AsciiRef(s: string)
    requires forall i :: 0 <= i < |s| ==> RefChar(s[i])
    ensures CanonicalJson.Bytes(s) == |s|
  {
    CanonicalJson.AsciiBytes(s);
  }

  lemma RefIsText(s: string)
    requires SemanticRef(s)
    ensures WireText(s, 2_048)
  {
    AsciiRef(s);
  }

  lemma SourceNamed(r: Route, q: TaskRequest, f: Frame, usizeMax: nat, i: nat)
    requires OnRoute(r, q, f, usizeMax) && i < |f.provenance|
    ensures SourceTextOk(f.provenance[i].feature, f.provenance[i].sourceRef)
  {
    hide FeatureName, WireText, WithRole, SegmentMatches, MaximumGap, StaticsMatch, OnRoute, ValidTask,
         TaskRepresentable, NewestActual, ValidSegment, InFrame;
    RouteBasics(r, q, f, usizeMax);
    var p := f.provenance[i];
    assert ValidProvenance(p);
    if p.sourceRef.Some? { RefIsText(p.sourceRef.value); }
    var d := SourceDefinition(f, i);
    DefinitionsOk(r, q, f, usizeMax, d);
  }

  lemma SourceDefinition(f: Frame, i: nat) returns (d: Definition)
    requires ValidFrame(f) && i < |f.provenance|
    ensures InFrame(f, d) && d.name == f.provenance[i].feature
  {
    hide ValidSegment, NewestActual, ValidProvenance, ValidStatic, OneEntryEach, Unique;
    NormalNamesDistinct(f);
    FrameFeaturesUnique(f);
    ProvenanceRulesAgree(Keys(f.provenance), FeatureKeys(f));
    var key := Keys(f.provenance)[i];
    assert key in FeatureKeys(f);
    var h := SeriesKeys(InHistory, f.history.series);
    if key in h {
      var k :| 0 <= k < |h| && h[k] == key;
      d := f.history.series[k].definition;
      assert HasSeries(f.history, d);
    } else if f.future.Some? && key in SeriesKeys(InFuture, f.future.value.series) {
      var k :| 0 <= k < |f.future.value.series| && SeriesKeys(InFuture, f.future.value.series)[k] == key;
      d := f.future.value.series[k].definition;
      assert HasSeries(f.future.value, d);
    } else {
      assert key in StaticKeys(f.statics);
      var k :| 0 <= k < |f.statics| && StaticKeys(f.statics)[k] == key;
      d := f.statics[k].definition;
      assert InStatic(f.statics, d);
    }
  }

  lemma AssembledNames(r: Route, q: TaskRequest, f: Frame, usizeMax: nat)
    requires OnRoute(r, q, f, usizeMax)
    ensures NamesOk(f)
  {
    hide FeatureName, OnRoute, SourceTextOk, UnitOk;
    forall i | 0 <= i < |f.history.series| ensures FeatureName(f.history.series[i].definition.name) {
      assert HasSeries(f.history, f.history.series[i].definition);
      DefinitionsOk(r, q, f, usizeMax, f.history.series[i].definition);
    }
    if f.future.Some? {
      forall i | 0 <= i < |f.future.value.series| ensures FeatureName(f.future.value.series[i].definition.name) {
        assert HasSeries(f.future.value, f.future.value.series[i].definition);
        DefinitionsOk(r, q, f, usizeMax, f.future.value.series[i].definition);
      }
    }
    forall i | 0 <= i < |f.statics| ensures FeatureName(f.statics[i].definition.name) {
      assert InStatic(f.statics, f.statics[i].definition);
      DefinitionsOk(r, q, f, usizeMax, f.statics[i].definition);
    }
    forall i | 0 <= i < |f.provenance| ensures SourceTextOk(f.provenance[i].feature, f.provenance[i].sourceRef) {
      SourceNamed(r, q, f, usizeMax, i);
    }
  }

  /** A frame's features all pass the decoder's unit rule exactly when the task gives every number a unit. */
  lemma UnitsOkIff(r: Route, q: TaskRequest, f: Frame, usizeMax: nat)
    requires OnRoute(r, q, f, usizeMax)
    ensures UnitsOk(f) <==> NumbersHaveUnits(r.task)
  {
    hide FeatureName, UnitText, OnRoute;
    if NumbersHaveUnits(r.task) {
      forall i | 0 <= i < |f.history.series| ensures UnitOk(f.history.series[i].definition.kind,
                                                            f.history.series[i].definition.unit) {
        assert HasSeries(f.history, f.history.series[i].definition);
        UnitFromTask(r, q, f, usizeMax, f.history.series[i].definition);
      }
      if f.future.Some? {
        forall i | 0 <= i < |f.future.value.series|
          ensures UnitOk(f.future.value.series[i].definition.kind, f.future.value.series[i].definition.unit)
        {
          assert HasSeries(f.future.value, f.future.value.series[i].definition);
          UnitFromTask(r, q, f, usizeMax, f.future.value.series[i].definition);
        }
      }
      forall i | 0 <= i < |f.statics| ensures UnitOk(f.statics[i].definition.kind, f.statics[i].definition.unit) {
        assert InStatic(f.statics, f.statics[i].definition);
        UnitFromTask(r, q, f, usizeMax, f.statics[i].definition);
      }
    }
    if UnitsOk(f) {
      forall i | 0 <= i < |r.task.features|
        && r.task.features[i].kind.NumberKind? ensures r.task.features[i].unit.Some? {
        FrameHasTaskFeatures(r, q, f, usizeMax, r.task.features[i]);
      }
    }
  }

  lemma UnitFromTask(r: Route, q: TaskRequest, f: Frame, usizeMax: nat, d: Definition)
    requires OnRoute(r, q, f, usizeMax) && InFrame(f, d) && NumbersHaveUnits(r.task)
    ensures UnitOk(d.kind, d.unit)
  {
    hide OnRoute, InFrame, UnitOk, FeatureName;
    DefinitionsOk(r, q, f, usizeMax, d);
    FrameHasTaskFeatures(r, q, f, usizeMax, d);
  }

  lemma BuiltMembers<T>(xs: seq<Named<T>>, k: nat) returns (i: nat)
    requires Build(xs).Some? && k < |Build(xs).value|
    ensures |Build(xs).value| == |xs| && i < |xs| && Build(xs).value[k] == xs[i]
  {
    BuildKeeps(xs);
    BuiltSize(xs);
    assert Build(xs).value[k] in multiset(xs);
    i :| 0 <= i < |xs| && xs[i] == Build(xs).value[k];
  }

  lemma BuiltSize<T>(xs: seq<Named<T>>)
    requires Build(xs).Some?
    ensures |Build(xs).value| == |xs|
  {
    BuildKeeps(xs);
    assert |multiset(Build(xs).value)| == |Build(xs).value| && |multiset(xs)| == |xs|;
  }

  lemma SegmentLimits(s: Segment)
    requires ValidSegment(s) && |s.timestamps| <= MAX_SEGMENT_SAMPLES && |s.series| <= MAX_FEATURES_PER_SEGMENT
    ensures SegmentWithinLimits(WireSegment(s)) && Build(NamedWires(s.series)).Some?
  {
    hide Build, ValidSeries;
    NormalBuilds(s);
    var named := NamedWires(s.series);
    BuiltSize(named);
    var w := WireSegment(s);
    forall k | 0 <= k < |w.features| ensures SeriesWithinLimits(w.features[k].value) {
      var i := BuiltMembers(named, k);
      SeriesShape(s, i);
    }
  }

  lemma SeriesShape(s: Segment, i: nat)
    requires ValidSegment(s) && i < |s.series|
    ensures |s.series[i].values| == |s.series[i].quality| == |s.timestamps| > 0
  {}

  lemma ProvenanceSize(f: Frame)
    requires ValidFrame(f)
    ensures |f.provenance| == |f.history.series| + |SeriesOf(f.future)| + |f.statics| > 0
  {
    hide ValidSegment, NewestActual, ValidProvenance, ValidStatic, Count;
    assert |f.history.series| > 0 by { HasSeriesInHistory(f); }
  }

  lemma HasSeriesInHistory(f: Frame)
    requires ValidFrame(f)
    ensures f.history.series != []
  {}

  lemma AssembledLimits(r: Route, q: TaskRequest, f: Frame, usizeMax: nat)
    requires OnRoute(r, q, f, usizeMax)
    ensures WithinWireLimits(WireFrame(f)) && KeysBuild(f) && f.cadence % 1_000 == 0
  {
    hide OnRoute, ValidFrame, ValidTask, Build, WireSegment, SegmentWithinLimits, WithRole, MaximumGap, FeatureName,
         WireIdentifier, UnitText;
    RouteBasics(r, q, f, usizeMax);
    FrameParts(f);
    PositiveCadence(r.task);
    SegmentLimits(f.history);
    if f.future.Some? { SegmentLimits(f.future.value); }
    StaticsBuild(f.statics);
    BuiltSize(NamedStatics(f.statics));
    ProvenanceSize(f);
  }

  lemma PositiveCadence(t: Task)
    requires ValidTask(t)
    ensures 0 < t.spec.cadence <= U64_MAX
  {}

  lemma FrameParts(f: Frame)
    requires ValidFrame(f)
    ensures ValidSegment(f.history) && (f.future.Some? ==> ValidSegment(f.future.value)) && DistinctStatics(f.statics)
  {}

  lemma WireKeysAreFrameKeys(w: FrameWire)
    ensures WireFeatureKeys(w) == FeatureKeys(DomainFrame(w))
      && WireKeys(w.provenance) == Keys(DomainFrame(w).provenance)
  {
    var f := DomainFrame(w);
    assert EntryKeys(InHistory, w.history.features) == SeriesKeys(InHistory, f.history.series);
    if w.future.Some? {
      assert EntryKeys(InFuture, w.future.value.features) == SeriesKeys(InFuture, f.future.value.series);
    }
    assert EntryKeys(InStatics, w.statics) == StaticKeys(f.statics);
  }

  lemma AssembledShape(f: Frame)
    requires ValidFrame(f) && f.cadence % 1_000 == 0 && f.quality.maxGap % 1_000 == 0
    ensures ShapeOk(WireFrame(f)) && f.provenance != []
  {
    hide Build, ValidFrame, WireFrame, DomainFrame, NormalSegment, NormalStatics, Unique, FeatureKeys, NamesDistinct,
         OneEntryEach, DistinctAndComplete;
    FrameNormalizes(f);
    WireKeysAreFrameKeys(WireFrame(f));
    NormalRule(f);
    NormalNamesDistinct(f);
    UniqueKeys(Normal(f));
    ProvenanceRulesAgree(Keys(f.provenance), FeatureKeys(Normal(f)));
    ProvenanceSize(f);
    WireProvenanceSize(f);
  }

  lemma WireProvenanceSize(f: Frame)
    ensures |WireFrame(f).provenance| == |f.provenance|
  {}

  // ---------------------------------------------------------------- instants

  /** The latest instant the frame mentions. */
  function LastInstant(t: Task, q: TaskRequest): nat {
    if WithRole(t.features, FutureRole) == [] then q.asOf else q.asOf + t.spec.cadence * q.horizon
  }

  lemma HistoryTimes(s: Segment, bound: nat)
    requires ValidSegment(s)
    ensures AllAtMost(s.timestamps, bound) <==> s.timestamps[|s.timestamps| - 1] <= bound
  {
    var last := |s.timestamps| - 1;
    if s.timestamps[last] <= bound {
      forall i | 0 <= i < |s.timestamps| ensures s.timestamps[i] <= bound {
        if i < last { assert s.timestamps[i] < s.timestamps[last]; }
      }
    }
  }

  lemma GridLast(asOf: nat, cadence: nat, n: nat)
    requires n > 0
    ensures Grid(asOf + cadence, cadence, n)[n - 1] == asOf + cadence * n
  {
    assert cadence * n == cadence * (n - 1) + cadence;
  }

  lemma SourcesAtMost(f: Frame, bound: nat)
    requires ValidFrame(f) && f.asOf <= bound
    ensures forall i :: 0 <= i < |f.provenance| ==> ProvenanceAtMost(f.provenance[i], bound)
  {
    hide ValidSegment, NewestActual, ValidStatic, OneEntryEach, FeatureKeys;
    forall i | 0 <= i < |f.provenance| ensures ProvenanceAtMost(f.provenance[i], bound) {
      assert NoLaterThan(f.provenance[i], f.asOf);
    }
  }

  lemma FrameEnds(f: Frame)
    requires ValidFrame(f)
    ensures f.history.timestamps != [] && f.history.timestamps[|f.history.timestamps| - 1] == f.asOf
      && f.quality.watermark <= f.asOf
  {}

  lemma AssembledTimes(r: Route, q: TaskRequest, f: Frame, usizeMax: nat, bound: nat)
    requires OnRoute(r, q, f, usizeMax)
    ensures TimesAtMost(f, bound) <==> LastInstant(r.task, q) <= bound
    ensures q.asOf <= LastInstant(r.task, q)
  {
    hide OnRoute, ValidFrame, ValidTask, TaskRepresentable, WithRole, MaximumGap, StaticsMatch, AllAtMost,
         ProvenanceAtMost;
    RouteBasics(r, q, f, usizeMax);
    FrameParts(f);
    FrameEnds(f);
    HistoryTimes(f.history, bound);
    if f.asOf <= bound { SourcesAtMost(f, bound); }
    if f.future.Some? {
      HistoryTimes(f.future.value, bound);
      GridLast(q.asOf, f.cadence, q.horizon);
    }
  }

  lemma GridRegular(start: nat, cadence: nat, n: nat)
    ensures Regular(Grid(start, cadence, n), cadence)
  {
    forall i | 0 < i < n ensures Grid(start, cadence, n)[i] == Grid(start, cadence, n)[i - 1] + cadence {
      assert cadence * i == cadence * (i - 1) + cadence;
    }
  }

  lemma AssembledConsistent(r: Route, q: TaskRequest, f: Frame, usizeMax: nat)
    requires OnRoute(r, q, f, usizeMax)
    ensures Consistent(f)
  {
    hide OnRoute, ValidSegment, ValidTask, TaskRepresentable, WithRole, MaximumGap, StaticsMatch, Regular, OneEntryEach,
         FeatureKeys, ValidProvenance, ValidStatic;
    RouteBasics(r, q, f, usizeMax);
    GridRegular(q.asOf - HistorySpan(r.task), f.cadence, r.task.spec.historySteps);
    GridRegular(q.asOf + f.cadence, f.cadence, q.horizon);
  }

  /** A frame assembled on a commissioned route for an aligned cutoff always encodes, as long as its instants can be
      printed. */
  lemma FrameEncodesIff(r: Route, q: TaskRequest, f: Frame, usizeMax: nat)
    requires OnRoute(r, q, f, usizeMax) && CutoffAligned(r.task, q)
    ensures FrameToWire(f).Some? <==> LastInstant(r.task, q) <= LAST_FORMATTED
    ensures f.cadence % 1_000 == 0 && f.quality.maxGap % 1_000 == 0 && WithinWireLimits(WireFrame(f))
      && ShapeOk(WireFrame(f))
  {
    hide Admitted, AssembledFor, LastInstant, TimesAtMost, NamesOk, KeysBuild, Consistent, WithinWireLimits, ShapeOk,
         WireFrame, ValidFrame, CutoffAligned;
    DurationsAreWholeSeconds(r, q, f, usizeMax);
    AssembledTimes(r, q, f, usizeMax, LAST_FORMATTED);
    AssembledConsistent(r, q, f, usizeMax);
    AssembledNames(r, q, f, usizeMax);
    AssembledLimits(r, q, f, usizeMax);
    FrameIsValid(r, q, f, usizeMax);
    AssembledShape(f);
  }

  lemma FrameIsValid(r: Route, q: TaskRequest, f: Frame, usizeMax: nat)
    requires OnRoute(r, q, f, usizeMax)
    ensures ValidFrame(f) && f.asOf == q.asOf
  {
    hide ValidFrame;
    RouteBasics(r, q, f, usizeMax);
  }

  // ---------------------------------------------------------------- what the decoder then accepts

  lemma NormalNamesOk(f: Frame)
    requires ValidFrame(f) && NamesOk(f)
    ensures NamesOk(Normal(f))
  {
    hide ValidFrame, FeatureName, SourceTextOk, NormalSegment, NormalStatics, Erased, ErasedStatic;
    NormalNamesDistinct(f);
    var n := Normal(f);
    forall k | 0 <= k < |n.history.series| ensures FeatureName(n.history.series[k].definition.name) {
      var i := NormalMembers(f.history, k);
      ErasedName(f.history.series[i]);
    }
    if f.future.Some? {
      forall k | 0 <= k < |n.future.value.series| ensures FeatureName(n.future.value.series[k].definition.name) {
        var i := NormalMembers(f.future.value, k);
        ErasedName(f.future.value.series[i]);
      }
    }
    forall k | 0 <= k < |n.statics| ensures FeatureName(n.statics[k].definition.name) {
      var i := StaticMembers(f.statics, k);
      ErasedStaticName(f.statics[i]);
    }
  }

  lemma ErasedName(s: Series)
    ensures var d := Erased(s).definition;
      d.name == s.definition.name && d.kind == s.definition.kind && d.unit == s.definition.unit
  {}

  lemma ErasedStaticName(s: Static)
    ensures var d := ErasedStatic(s).definition;
      d.name == s.definition.name && d.kind == s.definition.kind && d.unit == s.definition.unit
  {}

  predicate SegmentUnits(s: Segment) {
    forall i :: 0 <= i < |s.series| ==> UnitOk(s.series[i].definition.kind, s.series[i].definition.unit)
  }

  predicate StaticUnits(statics: seq<Static>) {
    forall i :: 0 <= i < |statics| ==> UnitOk(statics[i].definition.kind, statics[i].definition.unit)
  }

  lemma SegmentUnitsSame(s: Segment)
    requires DistinctNames(s.series)
    ensures SegmentUnits(NormalSegment(s)) <==> SegmentUnits(s)
  {
    hide UnitOk, Erased, NormalSegment;
    var n := NormalSegment(s);
    if SegmentUnits(s) {
      forall k | 0 <= k < |n.series| ensures UnitOk(n.series[k].definition.kind, n.series[k].definition.unit) {
        var i := NormalMembers(s, k);
        ErasedName(s.series[i]);
      }
    }
    if SegmentUnits(n) {
      forall i | 0 <= i < |s.series| ensures UnitOk(s.series[i].definition.kind, s.series[i].definition.unit) {
        var k := NormalCovers(s, i);
        ErasedName(s.series[i]);
      }
    }
  }

  lemma StaticUnitsSame(statics: seq<Static>)
    requires DistinctStatics(statics)
    ensures StaticUnits(NormalStatics(statics)) <==> StaticUnits(statics)
  {
    hide UnitOk, ErasedStatic, NormalStatics;
    var n := NormalStatics(statics);
    if StaticUnits(statics) {
      forall k | 0 <= k < |n| ensures UnitOk(n[k].definition.kind, n[k].definition.unit) {
        var i := StaticMembers(statics, k);
        ErasedStaticName(statics[i]);
      }
    }
    if StaticUnits(n) {
      forall i | 0 <= i < |statics| ensures UnitOk(statics[i].definition.kind, statics[i].definition.unit) {
        var k := StaticCovers(statics, i);
        ErasedStaticName(statics[i]);
      }
    }
  }

  lemma UnitsByPart(f: Frame)
    ensures UnitsOk(f) <==>
      SegmentUnits(f.history) && (f.future.Some? ==> SegmentUnits(f.future.value)) && StaticUnits(f.statics)
  {
    hide UnitOk;
  }

  lemma NormalUnits(f: Frame)
    requires ValidFrame(f)
    ensures UnitsOk(Normal(f)) <==> UnitsOk(f)
  {
    hide ValidFrame, UnitsOk, SegmentUnits, StaticUnits, NormalSegment, NormalStatics;
    NormalNamesDistinct(f);
    UnitsByPart(f);
    UnitsByPart(Normal(f));
    SegmentUnitsSame(f.history);
    if f.future.Some? { SegmentUnitsSame(f.future.value); }
    StaticUnitsSame(f.statics);
  }

  lemma NormalInstants(f: Frame, bound: nat)
    requires ValidFrame(f)
    ensures TimesAtMost(Normal(f), bound) <==> TimesAtMost(f, bound)
  {
    hide ValidSegment, NewestActual, ValidProvenance, ValidStatic, OneEntryEach, FeatureKeys, NormalStatics, AllAtMost,
         ProvenanceAtMost;
    NormalTimes(f.history);
    if f.future.Some? { NormalTimes(f.future.value); }
  }

  lemma GapIsBounded(f: Frame)
    requires ValidFrame(f) && GapMatches(f) && f.cadence <= U64_MAX && f.asOf <= U64_MAX
    ensures f.quality.maxGap <= U64_MAX
  {
    hide NewestActual, ValidProvenance, ValidStatic, OneEntryEach, FeatureKeys, ValidSeries, MaximumGap, Bare;
    GapIsLongestStretch(f.history, f.cadence);
  }

  /** The wire value of such a frame decodes exactly when every number has a unit and no instant is past the year
      9999. */
  lemma FrameDecodesIff(r: Route, q: TaskRequest, f: Frame, usizeMax: nat)
    requires OnRoute(r, q, f, usizeMax) && CutoffAligned(r.task, q)
    ensures FrameFromWire(WireFrame(f)).Some? <==> NumbersHaveUnits(r.task) && LastInstant(r.task, q) <= LAST_PARSED
  {
    hide Admitted, AssembledFor, LastInstant, TimesAtMost, NamesOk, UnitsOk, Consistent, WithinWireLimits, ShapeOk,
         WireFrame, DomainFrame, Normal, ValidFrame, CutoffAligned, NumbersHaveUnits;
    FrameIsValid(r, q, f, usizeMax);
    FrameEncodesIff(r, q, f, usizeMax);
    FrameNormalizes(f);
    NormalFrameValid(f);
    AssembledNames(r, q, f, usizeMax);
    NormalNamesOk(f);
    NormalUnits(f);
    UnitsOkIff(r, q, f, usizeMax);
    AssembledConsistent(r, q, f, usizeMax);
    NormalConsistent(f);
    NormalInstants(f, LAST_PARSED);
    AssembledTimes(r, q, f, usizeMax, LAST_PARSED);
    if LastInstant(r.task, q) <= LAST_PARSED { DurationsFit(r, q, f, usizeMax); }
  }

  lemma DurationsFit(r: Route, q: TaskRequest, f: Frame, usizeMax: nat)
    requires OnRoute(r, q, f, usizeMax) && q.asOf <= U64_MAX
    ensures Normal(f).cadence <= U64_MAX && Normal(f).quality.maxGap <= U64_MAX
  {
    hide Admitted, AssembledFor, ValidFrame, ValidTask, TaskRepresentable, WithRole, StaticsMatch, SegmentMatches,
         OnRoute, MaximumGap, GapMatches;
    RouteBasics(r, q, f, usizeMax);
    PositiveCadence(r.task);
    GapIsBounded(f);
  }

  // ---------------------------------------------------------------- whole requests

  /** The request the application builds for a frame. */
  function Built(digester: Digester, r: Route, q: TaskRequest, f: Frame, requestId: string, submittedAt: nat,
                 deadline: nat): Option<Request> {
    var options := Options(q.horizon, q.quantiles);
    var digest := ComputeDigest(digester, r.task.identity, r.binding.identity, r.task.contract, r.binding.artifact, f,
                                options);
    if digest.None? || deadline <= submittedAt || deadline <= f.asOf then None
    else Some(Request(requestId, r.task.identity, r.binding.identity, f, submittedAt, deadline, r.task.contract,
                      r.binding.artifact, digest.value, options))
  }

  predicate Commissioned(r: Route) {
    r.task.identity.revision > 0 && SelectorOk(r.binding.artifact)
  }

  lemma RouteWireOk(r: Route, q: TaskRequest, f: Frame, usizeMax: nat)
    requires OnRoute(r, q, f, usizeMax) && Commissioned(r) && ValidOptions(Options(q.horizon, q.quantiles))
    ensures var o := Options(q.horizon, q.quantiles);
      && WireIdentifier(r.task.contract) && NotBlank(r.task.contract) && IdentityOk(r.task.identity)
        && IdentityOk(r.binding.identity)
      && OptionsOk(o) && OptionsDecodable(WireOptions(o)) && HorizonOk(f, o)
  {
    hide ValidFrame, WithRole, MaximumGap, WireIdentifier, FeatureName, UnitText, HistoryNamed, StaticsMatch,
         PointsMatch, CheckedCells, NotBlank;
    OptionsReturn(Options(q.horizon, q.quantiles));
  }

  lemma TextIsNotBlank(s: string)
    requires RequestUuid(s) || CloudLink.DigestText(s)
    ensures NotBlank(s)
  {
    if RequestUuid(s) { assert !Whitespace(s[8]); } else { assert s[0] == s[..7][0] == 's'; assert !Whitespace(s[0]); }
  }

  lemma DecodedRequestValid(r: Request)
    requires ValidRequest(r) && FrameToWire(r.frame).Some? && FrameFromWire(FrameToWire(r.frame).value).Some?
    ensures ValidRequest(NormalRequest(r)) && FrameFromWire(FrameToWire(r.frame).value) == Some(Normal(r.frame))
    ensures FrameToWire(Normal(r.frame)) == FrameToWire(r.frame)
  {
    hide ValidFrame, FrameToWire, FrameFromWire, NormalSegment, NormalStatics, ValidOptions, NotBlank;
    FrameRoundTrip(r.frame, FrameToWire(r.frame).value);
    NormalFrameValid(r.frame);
  }

  /** A request whose own fields are in order encodes exactly when the decoder reads its frame and its two instants. */
  lemma EncodesWhenDecoded(digester: Digester, r: Request)
    requires ValidRequest(r) && RequestUuid(r.requestId) && CloudLink.DigestText(r.digest)
      && DigestOf(digester, r) == Some(r.digest)
    requires OptionsDecodable(WireOptions(r.options))
    ensures FrameToWire(r.frame).Some?
    ensures Encode(digester, r).Some? <==>
      r.submittedAt <= LAST_PARSED && r.deadline <= LAST_PARSED && FrameFromWire(FrameToWire(r.frame).value).Some?
  {
    hide ValidRequest, FrameToWire, FrameFromWire, RequestUuid, CloudLink.DigestText, OptionsDecodable, HorizonOk,
         WireIdentifier, SelectorOk, IdentityOk, OptionsOk, Normal;
    if r.submittedAt <= LAST_PARSED && r.deadline <= LAST_PARSED && FrameFromWire(FrameToWire(r.frame).value).Some? {
      DecodedRequestValid(r);
      DigestIsStable(digester, r);
      HorizonUnchanged(r.frame, r.options);
      OptionsReturn(r.options);
    }
  }

  /** On a commissioned route, with an aligned cutoff and a deadline after submission and cutoff, a request can be built
      and encoded if and only if the task gives every numeric feature a unit and neither the deadline nor the last label
      of the frame is past the year 9999. Route admission checks neither. */
  lemma RequestEncodesIff(digester: Digester, r: Route, q: TaskRequest, f: Frame, requestId: string, submittedAt: nat,
                          deadline: nat, usizeMax: nat)
    requires OnRoute(r, q, f, usizeMax) && CutoffAligned(r.task, q) && Commissioned(r)
    requires RequestUuid(requestId) && ValidOptions(Options(q.horizon, q.quantiles))
    requires deadline > submittedAt && deadline > q.asOf
    requires forall basis :: CloudLink.DigestText(digester(basis))
    ensures var built := Built(digester, r, q, f, requestId, submittedAt, deadline);
      (built.Some? && Encode(digester, built.value).Some?)
        <==> NumbersHaveUnits(r.task) && LastInstant(r.task, q) <= LAST_PARSED && deadline <= LAST_PARSED
  {
    hide Admitted, AssembledFor, LastInstant, ValidFrame, CutoffAligned, NumbersHaveUnits, Encodable, FrameFromWire,
         RequestUuid, CloudLink.DigestText, OptionsDecodable, ValidOptions, HorizonOk, WireIdentifier, SelectorOk,
         IdentityOk, OptionsOk, Encode;
    RouteWireOk(r, q, f, usizeMax);
    FrameEncodesIff(r, q, f, usizeMax);
    FrameDecodesIff(r, q, f, usizeMax);
    FrameIsValid(r, q, f, usizeMax);
    var built := Built(digester, r, q, f, requestId, submittedAt, deadline);
    if built.Some? {
      TextIsNotBlank(requestId);
      TextIsNotBlank(built.value.digest);
      EncodesWhenDecoded(digester, built.value);
    }
  }
}
