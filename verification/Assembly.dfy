/** Assembling a frame for a request: source responses are checked against the task, the live tail is merged, provenance
    is joined, and quality is computed. */
module Assembly {
  import opened Wrappers
  import opened Frames
  import opened LiveTail
  import opened Tasks

  datatype AssemblyError = InvalidWindow | SourceFailed | QualityRejected | MissingCovariateSource | MergeFailed

  function SegmentOf(role: Role): SegmentKind {
    match role
    case HistoryRole => InHistory
    case FutureRole => InFuture
    case StaticRole => InStatics
  }

  function RoleKeys(series: seq<Series>): (keys: seq<SourceKey>)
    ensures |keys| == |series|
    ensures forall i :: 0 <= i < |keys| ==> keys[i] == (SegmentOf(series[i].definition.role), series[i].definition.name)
  {
    seq(|series|, i requires 0 <= i < |series| => (SegmentOf(series[i].definition.role), series[i].definition.name))
  }

  /** What any source response satisfies by construction. */
  predicate ValidSourced(s: Sourced) {
    && ValidSegment(s.segment) && OneEntryEach(Keys(s.provenance), RoleKeys(s.segment.series))
    && forall i :: 0 <= i < |s.provenance| ==> ValidProvenance(s.provenance[i])
  }

  function InSegment(keys: seq<SourceKey>, kind: SegmentKind): nat {
    if keys == [] then 0 else InSegment(keys[1..], kind) + if keys[0].0 == kind then 1 else 0
  }

  /** `validate_segment_provenance`. */
  predicate SourcesMatch(provenance: seq<Provenance>, features: seq<Definition>, kind: SegmentKind) {
    var keys := Keys(provenance);
    && InSegment(keys, kind) == |features|
    && forall i :: 0 <= i < |features| ==> Count(keys, (kind, features[i].name)) == 1
  }

  predicate WithinConstraints(s: Segment) {
    forall i, j :: 0 <= i < |s.series| && 0 <= j < |s.series[i].values| && s.series[i].definition.constraints.Some? ==>
      s.series[i].values[j].MissingValue?
      || (s.series[i].values[j].Number? && Accepts(s.series[i].definition.constraints.value,
                                                   s.series[i].values[j].number))
  }

  function StaticSources(statics: seq<Static>, asOf: nat): (p: seq<Provenance>)
    ensures |p| == |statics|
  {
    seq(|statics|, i requires 0 <= i < |statics| => Provenance(InStatics, statics[i].definition.name, FromConstant,
                                                               None, asOf, None))
  }

  predicate AnyLater(provenance: seq<Provenance>, asOf: nat) {
    exists i :: 0 <= i < |provenance| && !NoLaterThan(provenance[i], asOf)
  }

  predicate MissingIssueTime(provenance: seq<Provenance>) {
    exists i :: 0 <= i < |provenance| && provenance[i].segment.InFuture? && Actual(provenance[i])
      && provenance[i].issuedAt.None?
  }

  predicate AnyTooOld(provenance: seq<Provenance>, asOf: nat, maxAge: nat) {
    exists i :: 0 <= i < |provenance| && Actual(provenance[i]) && SatSub(asOf, provenance[i].watermark) > maxAge
  }

  // ---------------------------------------------------------------- a matching segment is a bijection

  function Names(series: seq<Series>): (names: seq<string>)
    ensures |names| == |series| && forall i :: 0 <= i < |names| ==> names[i] == series[i].definition.name
  {
    seq(|series|, i requires 0 <= i < |series| => series[i].definition.name)
  }

  function DefinitionNames(features: seq<Definition>): (names: seq<string>)
    ensures |names| == |features| && forall i :: 0 <= i < |names| ==> names[i] == features[i].name
  {
    seq(|features|, i requires 0 <= i < |features| => features[i].name)
  }

  predicate Distinct(names: seq<string>) { forall i, j :: 0 <= i < j < |names| ==> names[i] != names[j] }

  function NameSet(names: seq<string>): set<string> { set i | 0 <= i < |names| :: names[i] }

  lemma NameSetGrows(names: seq<string>)
    requires names != []
    ensures NameSet(names) == NameSet(names[..|names| - 1]) + {names[|names| - 1]}
  {
    var rest := names[..|names| - 1];
    forall i | 0 <= i < |names| ensures names[i] in NameSet(rest) + {names[|names| - 1]} {
      if i < |rest| { assert rest[i] == names[i]; }
    }
    forall i | 0 <= i < |rest| ensures rest[i] in NameSet(names) { assert names[i] == rest[i]; }
  }

  lemma {:induction false} DistinctSize(names: seq<string>)
    requires Distinct(names)
    ensures |NameSet(names)| == |names|
  {
    if names == [] {
      assert NameSet(names) == {};
    } else {
      var n := |names| - 1;
      NameSetGrows(names);
      DistinctSize(names[..n]);
      assert names[n] !in NameSet(names[..n]);
    }
  }

  lemma SubsetOfSameSize(a: set<string>, b: set<string>)
    requires b <= a && |a| == |b|
    ensures a == b
  {
    assert a == b + (a - b);
  }

  /** As many distinct names on both sides, and one side inside the other: the sides are equal. */
  lemma Pigeonhole(names: seq<string>, wanted: seq<string>, k: nat)
    requires Distinct(names) && Distinct(wanted) && |names| == |wanted| && k < |names|
    requires forall i :: 0 <= i < |wanted| ==> wanted[i] in names
    ensures names[k] in wanted
  {
    DistinctSize(names);
    DistinctSize(wanted);
    var a, b := NameSet(names), NameSet(wanted);
    forall x | x in b ensures x in a {
      var i :| 0 <= i < |wanted| && wanted[i] == x;
      assert wanted[i] in names;
    }
    SubsetOfSameSize(a, b);
    assert names[k] in a;
  }

  /** Every series of a matching segment is one of the task's features. */
  lemma SeriesIsFeature(s: Segment, features: seq<Definition>, times: seq<nat>, k: nat)
    requires DistinctNames(s.series) && Distinct(DefinitionNames(features)) && SegmentMatches(s, features, times)
      && k < |s.series|
    ensures s.series[k].definition in features
  {
    var names, wanted := Names(s.series), DefinitionNames(features);
    forall i | 0 <= i < |wanted| ensures wanted[i] in names {
      assert HasSeries(s, features[i]);
      var j :| 0 <= j < |s.series| && s.series[j].definition == features[i];
      assert names[j] == wanted[i];
    }
    Pigeonhole(names, wanted, k);
    var i :| 0 <= i < |wanted| && wanted[i] == names[k];
    assert HasSeries(s, features[i]);
    var j :| 0 <= j < |s.series| && s.series[j].definition == features[i];
    assert s.series[j].definition.name == s.series[k].definition.name;
  }

  lemma {:induction false} WithRoleMembers(features: seq<Definition>, role: Role, k: nat)
    requires k < |WithRole(features, role)|
    ensures WithRole(features, role)[k].role == role && WithRole(features, role)[k] in features
  {
    var n := |features| - 1;
    if k < |WithRole(features[..n], role)| {
      WithRoleMembers(features[..n], role, k);
      assert WithRole(features[..n], role)[k] in features[..n];
    }
  }

  predicate FeaturesUnique(features: seq<Definition>) {
    forall i, j :: 0 <= i < j < |features| ==>
      features[i].role != features[j].role || features[i].name != features[j].name
  }

  lemma {:induction false} RoleNamesDistinct(features: seq<Definition>, role: Role)
    requires FeaturesUnique(features)
    ensures Distinct(DefinitionNames(WithRole(features, role)))
  {
    if features != [] {
      var n := |features| - 1;
      var rest := WithRole(features[..n], role);
      RoleNamesDistinct(features[..n], role);
      forall k | 0 <= k < |rest| && features[n].role == role ensures rest[k].name != features[n].name {
        WithRoleMembers(features[..n], role, k);
        var i :| 0 <= i < n && features[i] == rest[k];
      }
      var names := DefinitionNames(WithRole(features, role));
      forall i, j | 0 <= i < j < |names| ensures names[i] != names[j] {
        if j < |rest| { assert DefinitionNames(rest)[i] != DefinitionNames(rest)[j]; }
      }
    }
  }

  /** Every series of a matching segment has the role the segment was matched for. */
  lemma RolesFollow(t: Task, s: Segment, role: Role, times: seq<nat>)
    requires ValidTask(t) && DistinctNames(s.series) && SegmentMatches(s, WithRole(t.features, role), times)
    ensures SeriesRole(s.series, role) && RoleKeys(s.series) == SeriesKeys(SegmentOf(role), s.series)
  {
    hide ValidSpec, ValidDefinition, NotBlank;
    RoleNamesDistinct(t.features, role);
    forall k | 0 <= k < |s.series| ensures s.series[k].definition.role == role {
      SeriesIsFeature(s, WithRole(t.features, role), times, k);
      var i :| 0 <= i < |WithRole(t.features, role)| && WithRole(t.features, role)[i] == s.series[k].definition;
      WithRoleMembers(t.features, role, i);
    }
    assert RoleKeys(s.series) == SeriesKeys(SegmentOf(role), s.series);
  }

  /** A checked history response can be merged with the live tail. */
  lemma CheckedHistory(t: Task, h: Sourced, times: seq<nat>)
    requires ValidTask(t) && ValidSourced(h) && SegmentMatches(h.segment, WithRole(t.features, HistoryRole), times)
    ensures ValidHistory(h)
  {
    hide ValidTask, ValidSeries, ValidProvenance, OneEntryEach;
    RolesFollow(t, h.segment, HistoryRole, times);
  }

  // ---------------------------------------------------------------- checks that can no longer fail

  lemma {:induction false} AllInSegment(keys: seq<SourceKey>, kind: SegmentKind)
    requires forall i :: 0 <= i < |keys| ==> keys[i].0 == kind
    ensures InSegment(keys, kind) == |keys|
  {
    if keys != [] { AllInSegment(keys[1..], kind); }
  }

  /** The sources of one segment and no other. */
  predicate OnlyFor(provenance: seq<Provenance>, features: seq<Definition>, kind: SegmentKind) {
    SourcesMatch(provenance, features, kind) && forall i :: 0 <= i < |provenance| ==> provenance[i].segment == kind
  }

  /** One source for each series of a matching segment is one source for each feature. */
  lemma SegmentSources(s: Segment, provenance: seq<Provenance>, features: seq<Definition>, kind: SegmentKind,
                       times: seq<nat>)
    requires DistinctNames(s.series) && SegmentMatches(s, features, times)
    requires OneEntryEach(Keys(provenance), SeriesKeys(kind, s.series))
    ensures OnlyFor(provenance, features, kind)
  {
    var keys, series := Keys(provenance), SeriesKeys(kind, s.series);
    SeriesKeysUnique(s.series, kind);
    ProvenanceRulesAgree(keys, series);
    forall i | 0 <= i < |keys| ensures keys[i].0 == kind == provenance[i].segment { assert keys[i] in series; }
    AllInSegment(keys, kind);
    forall i | 0 <= i < |features| ensures Count(keys, (kind, features[i].name)) == 1 {
      assert HasSeries(s, features[i]);
      var j :| 0 <= j < |s.series| && s.series[j].definition == features[i];
      assert series[j] == (kind, features[i].name);
    }
  }

  /** A response whose series match the task has the sources the task asks for, so the second source check passes. */
  lemma SourcesFollow(t: Task, s: Sourced, role: Role, times: seq<nat>)
    requires ValidTask(t) && ValidSourced(s) && SegmentMatches(s.segment, WithRole(t.features, role), times)
    ensures OnlyFor(s.provenance, WithRole(t.features, role), SegmentOf(role))
    ensures SourcesMatch(s.provenance, WithRole(t.features, role), SegmentOf(role))
  {
    hide ValidTask, ValidSeries, ValidProvenance, WithRole, SourcesMatch;
    RolesFollow(t, s.segment, role, times);
    SegmentSources(s.segment, s.provenance, WithRole(t.features, role), SegmentOf(role), times);
  }

  lemma {:induction false} InSegmentJoins(a: seq<SourceKey>, b: seq<SourceKey>, kind: SegmentKind)
    ensures InSegment(a + b, kind) == InSegment(a, kind) + InSegment(b, kind)
  {
    if a == [] {
      assert a + b == b;
    } else {
      InSegmentJoins(a[1..], b, kind);
      assert (a + b)[1..] == a[1..] + b;
    }
  }

  lemma CountJoins(a: seq<SourceKey>, b: seq<SourceKey>, key: SourceKey)
    ensures Count(a + b, key) == Count(a, key) + Count(b, key)
  {
    CountIsMultiplicity(a, key);
    CountIsMultiplicity(b, key);
    CountIsMultiplicity(a + b, key);
  }

  /** Sources of other segments around those of one change nothing about its check. */
  lemma MatchAmong(before: seq<Provenance>, own: seq<Provenance>, after: seq<Provenance>, features: seq<Definition>,
                   kind: SegmentKind)
    requires SourcesMatch(own, features, kind) && NotIn(before, kind) && NotIn(after, kind)
    ensures SourcesMatch(before + own + after, features, kind)
  {
    hide InSegment, Count;
    KeysJoin(before, own);
    KeysJoin(before + own, after);
    var a, b, c := Keys(before), Keys(own), Keys(after);
    InSegmentJoins(a, b, kind);
    InSegmentJoins(a + b, c, kind);
    NoKeys(a, kind, "");
    NoKeys(c, kind, "");
    forall i | 0 <= i < |features| ensures Count(a + b + c, (kind, features[i].name)) == 1 {
      CountJoins(a, b, (kind, features[i].name));
      CountJoins(a + b, c, (kind, features[i].name));
      NoKeys(a, kind, features[i].name);
      NoKeys(c, kind, features[i].name);
    }
  }

  predicate NotIn(provenance: seq<Provenance>, kind: SegmentKind) {
    forall i :: 0 <= i < |provenance| ==> provenance[i].segment != kind
  }

  lemma {:induction false} NoKeys(keys: seq<SourceKey>, kind: SegmentKind, name: string)
    requires forall i :: 0 <= i < |keys| ==> keys[i].0 != kind
    ensures InSegment(keys, kind) == 0 && Count(keys, (kind, name)) == 0
  {
    if keys != [] { NoKeys(keys[1..], kind, name); }
  }

  /** Series keep the numeric constraints of their definitions from the moment they are built. */
  lemma ConstraintsFollow(s: Segment)
    requires ValidSegment(s)
    ensures WithinConstraints(s)
  {
    hide NotBlank;
    forall i, j | 0 <= i < |s.series| && 0 <= j < |s.series[i].values| && s.series[i].definition.constraints.Some?
      ensures s.series[i].values[j].MissingValue?
           || (s.series[i].values[j].Number?
             && Accepts(s.series[i].definition.constraints.value, s.series[i].values[j].number))
    {
      assert ValidSeries(s.series[i]);
      assert ValidSample(s.series[i].definition, s.series[i].values[j], s.series[i].quality[j]);
    }
  }

  /** A live value is put into a numeric series unless it breaks the series' constraints. */
  lemma TailFitsIff(s: Series, tails: seq<Tail>)
    requires ValidSeries(s) && s.values != [] && s.definition.kind.NumberKind? && AllUsable(tails)
    ensures TailFits(s, tails) <==>
      var tail := FindTail(tails, s.definition.name);
      tail.Some? && s.definition.constraints.Some? ==> Accepts(s.definition.constraints.value, tail.value.value)
  {
    hide ValidDefinition, Accepts;
    TailsFound(tails, s.definition.name);
    var tail := FindTail(tails, s.definition.name);
    if tail.Some? {
      var t, n := WithTail(s, tail.value), |s.values| - 1;
      assert t.definition == s.definition && |t.values| == |t.quality| == n + 1;
      assert forall i :: 0 <= i < n ==> t.values[i] == s.values[i] && t.quality[i] == s.quality[i];
      assert t.values[n] == Number(tail.value.value) && t.quality[n] == tail.value.quality;
      assert ValidSeries(t) <==> ValidSample(t.definition, t.values[n], t.quality[n]);
    }
  }

  lemma {:induction false} QualityCountBound(quality: seq<SampleQuality>, q: SampleQuality)
    ensures CountQuality(quality, q) <= |quality|
  {
    if quality != [] { QualityCountBound(quality[..|quality| - 1], q); }
  }

  lemma {:induction false} SeriesCountBound(series: seq<Series>, q: SampleQuality)
    requires forall i :: 0 <= i < |series| ==> |series[i].values| == |series[i].quality|
    ensures CountInSeries(series, q) <= CellsOf(series)
  {
    if series != [] {
      var n := |series| - 1;
      SeriesCountBound(series[..n], q);
      QualityCountBound(series[n].quality, q);
    }
  }

  lemma {:induction false} StaticCountBound(statics: seq<Static>, q: SampleQuality)
    ensures CountInStatics(statics, q) <= |statics|
  {
    if statics != [] { StaticCountBound(statics[..|statics| - 1], q); }
  }

  lemma {:induction false} NewestBound(provenance: seq<Provenance>, asOf: nat)
    requires !AnyLater(provenance, asOf) && NewestActual(provenance).Some?
    ensures NewestActual(provenance).value <= asOf
  {
    assert NoLaterThan(provenance[0], asOf);
    if NewestActual(provenance[1..]).Some? {
      forall i | 0 <= i < |provenance| - 1 ensures NoLaterThan(provenance[1..][i], asOf) {
        assert provenance[1..][i] == provenance[i + 1];
      }
      NewestBound(provenance[1..], asOf);
    }
  }

  lemma {:induction false} NamesAtMost(names: seq<string>)
    ensures |NameSet(names)| <= |names|
  {
    if names == [] {
      assert NameSet(names) == {};
    } else {
      NameSetGrows(names);
      NamesAtMost(names[..|names| - 1]);
    }
  }

  /** As many names as wanted distinct ones, all of them present: the names are distinct too. */
  lemma CoveringIsDistinct(names: seq<string>, wanted: seq<string>)
    requires Distinct(wanted) && |names| == |wanted| && forall i :: 0 <= i < |wanted| ==> wanted[i] in names
    ensures Distinct(names)
  {
    if i, j :| 0 <= i < j < |names| && names[i] == names[j] {
      var rest := names[..j] + names[j + 1..];
      NamesAtMost(rest);
      DistinctSize(wanted);
      var a, b := NameSet(rest), NameSet(wanted);
      forall x | x in b ensures x in a {
        var k :| 0 <= k < |wanted| && wanted[k] == x;
        var m :| 0 <= m < |names| && names[m] == x;
        assert if m < j then rest[m] == x else if m == j then rest[i] == x else rest[m - 1] == x;
      }
      SubsetCount(b, a);
    }
  }

  lemma SubsetCount(b: set<string>, a: set<string>)
    requires b <= a
    ensures |b| <= |a|
  {
    assert a == b + (a - b);
  }

  lemma StaticsDistinct(t: Task, statics: seq<Static>)
    requires ValidTask(t) && StaticsMatch(t, statics)
    ensures DistinctStatics(statics)
  {
    hide ValidSpec, ValidDefinition, NotBlank;
    RoleNamesDistinct(t.features, StaticRole);
    var expected := WithRole(t.features, StaticRole);
    var names := seq(|statics|, i requires 0 <= i < |statics| => statics[i].definition.name);
    var wanted := DefinitionNames(expected);
    forall i | 0 <= i < |wanted| ensures wanted[i] in names {
      var j :| 0 <= j < |statics| && statics[j].definition == expected[i];
      assert names[j] == wanted[i];
    }
    CoveringIsDistinct(names, wanted);
    forall i, j | 0 <= i < j < |statics| ensures statics[i].definition.name != statics[j].definition.name {
      assert names[i] != names[j];
    }
  }

  lemma MergeKeepsDefinitions(h: Sourced, m: Sourced, asOf: nat, tails: seq<Tail>, features: seq<Definition>,
                              times: seq<nat>)
    requires ValidHistory(h) && Merged(h, m, asOf, tails, |h.segment.series|) && AllUsable(tails)
      && SegmentMatches(h.segment, features, times)
    ensures SegmentMatches(m.segment, features, times)
  {
    hide ValidHistory, SourceMerged, ValidSeries;
    HistoryShape(h);
    forall j | 0 <= j < |h.segment.series| ensures m.segment.series[j].definition == h.segment.series[j].definition {
      assert MergedAt(h, m, asOf, tails, j);
      OnlyTheLastCell(h.segment.series[j], m.segment.series[j], tails);
    }
    assert m.segment.timestamps == times && |m.segment.series| == |features|;
    forall i | 0 <= i < |features| ensures HasSeries(m.segment, features[i]) {
      assert HasSeries(h.segment, features[i]);
      var j :| 0 <= j < |h.segment.series| && h.segment.series[j].definition == features[i];
      assert m.segment.series[j].definition == features[i];
    }
  }

  // ---------------------------------------------------------------- assembly

  /** The start of the history window, if every bound of the request stays within a `u64`. */
  function HistoryStart(t: Task, q: TaskRequest): Option<nat>
    requires t.spec.historySteps > 0
  {
    var span := HistorySpan(t);
    if span > U64_MAX || span > q.asOf || q.asOf + t.spec.cadence > U64_MAX then None else Some(q.asOf - span)
  }

  /** What `DataProcessingRoute::new` guarantees of the task and its binding. */
  predicate SoundRoute(r: Route) {
    && ValidTask(r.task) && StaticsMatch(r.task, r.binding.statics) && PointsMatch(r.task, r.binding.points)
    && forall i :: 0 <= i < |r.binding.statics| ==> ValidStatic(r.binding.statics[i])
  }

  /** The stored history, with the live tail merged exactly when it is ready. */
  function HistoryOf(r: Route, q: TaskRequest, stored: Sourced, live: Option<seq<Option<LiveSample>>>): Sourced
    requires ValidHistory(stored)
  {
    if TailReady(r.binding.points, q.asOf, stored, live)
    then MergeInto(stored, q.asOf, Tails(r.binding.points, q.asOf, stored, live)) else stored
  }

  predicate InRange(s: Series, tails: seq<Tail>) {
    var tail := FindTail(tails, s.definition.name);
    tail.Some? && s.definition.constraints.Some? ==> Accepts(s.definition.constraints.value, tail.value.value)
  }

  /** No live value breaks the numeric constraints of its feature. */
  predicate LiveInRange(r: Route, q: TaskRequest, stored: Sourced, live: Option<seq<Option<LiveSample>>>) {
    TailReady(r.binding.points, q.asOf, stored, live) ==>
      forall i :: 0 <= i < |stored.segment.series| ==>
        InRange(stored.segment.series[i], Tails(r.binding.points, q.asOf, stored, live))
  }

  lemma {:induction false} LiveIsMapping(mappings: seq<PointBinding>, k: nat)
    requires k < |Live(mappings)|
    ensures Live(mappings)[k] in mappings
  {
    if !mappings[0].liveTail {
      LiveIsMapping(mappings[1..], k);
    } else if k > 0 {
      LiveIsMapping(mappings[1..], k - 1);
    }
  }

  lemma {:induction false} FoundTail(tails: seq<Tail>, feature: string) returns (k: nat)
    requires FindTail(tails, feature).Some?
    ensures k < |tails| && tails[k] == FindTail(tails, feature).value && tails[k].feature == feature
  {
    if tails[0].feature == feature {
      k := 0;
    } else {
      var j := FoundTail(tails[1..], feature);
      k := j + 1;
    }
  }

  /** A history feature with the name of a mapped point is numeric. */
  lemma MappedIsNumeric(t: Task, points: seq<PointBinding>, m: nat, d: Definition)
    requires ValidTask(t) && PointsMatch(t, points) && m < |points| && points[m].feature == d.name && d in t.features
      && d.role.HistoryRole?
    ensures d.kind.NumberKind?
  {
    hide ValidSpec, ValidDefinition, NotBlank;
    var j :| 0 <= j < |t.features| && t.features[j].name == points[m].feature && t.features[j].role.HistoryRole?
      && t.features[j].kind.NumberKind?;
    var same :| 0 <= same < |t.features| && t.features[same] == d;
    assert same == j;
  }

  lemma MatchedIsHistoryFeature(t: Task, s: Segment, times: seq<nat>, i: nat)
    requires ValidTask(t) && DistinctNames(s.series) && SegmentMatches(s, WithRole(t.features, HistoryRole), times)
      && i < |s.series|
    ensures s.series[i].definition in t.features && s.series[i].definition.role.HistoryRole?
  {
    hide ValidSpec, ValidDefinition, NotBlank;
    var features := WithRole(t.features, HistoryRole);
    RoleNamesDistinct(t.features, HistoryRole);
    SeriesIsFeature(s, features, times, i);
    var at :| 0 <= at < |features| && features[at] == s.series[i].definition;
    WithRoleMembers(t.features, HistoryRole, at);
  }

  /** Live tails are mapped to numeric features only. */
  lemma TailIsNumeric(r: Route, q: TaskRequest, stored: Sourced, live: Option<seq<Option<LiveSample>>>, times: seq<nat>,
      i: nat)
    requires SoundRoute(r) && ValidHistory(stored) && TailReady(r.binding.points, q.asOf, stored, live)
    requires SegmentMatches(stored.segment, WithRole(r.task.features, HistoryRole), times)
      && i < |stored.segment.series|
    requires FindTail(Tails(r.binding.points, q.asOf, stored, live), stored.segment.series[i].definition.name).Some?
    ensures stored.segment.series[i].definition.kind.NumberKind?
  {
    hide ValidTask, ValidSeries, ValidStatic, StaticsMatch, PointsMatch, OneEntryEach, ValidProvenance, SegmentMatches,
         WithRole;
    var d := stored.segment.series[i].definition;
    var k := FoundTail(Tails(r.binding.points, q.asOf, stored, live), d.name);
    LiveIsMapping(r.binding.points, k);
    var m :| 0 <= m < |r.binding.points| && r.binding.points[m] == Live(r.binding.points)[k];
    MatchedIsHistoryFeature(r.task, stored.segment, times, i);
    MappedIsNumeric(r.task, r.binding.points, m, d);
  }

  /** On a commissioned route the merge fails exactly when a live value is out of range. */
  lemma TailsFitIffInRange(r: Route, q: TaskRequest, stored: Sourced, live: Option<seq<Option<LiveSample>>>,
                           times: seq<nat>)
    requires SoundRoute(r) && ValidHistory(stored) && TailReady(r.binding.points, q.asOf, stored, live)
    requires SegmentMatches(stored.segment, WithRole(r.task.features, HistoryRole), times)
    ensures (forall i :: 0 <= i < |stored.segment.series| ==>
      SeriesTailFits(stored, Tails(r.binding.points, q.asOf, stored, live), i))
      <==> LiveInRange(r, q, stored, live)
  {
    hide SoundRoute, SegmentMatches, TailReady, Tails, Accepts;
    HistoryShape(stored);
    var tails := Tails(r.binding.points, q.asOf, stored, live);
    forall i | 0 <= i < |stored.segment.series| ensures SeriesTailFits(stored, tails, i) <==>
      InRange(stored.segment.series[i], tails) {
      if FindTail(tails, stored.segment.series[i].definition.name).Some? {
        TailIsNumeric(r, q, stored, live, times, i);
        TailFitsIff(stored.segment.series[i], tails);
      }
    }
  }

  /** The history response lies on the task's grid, and no live value is out of range. */
  predicate HistoryReady(r: Route, q: TaskRequest, response: Option<Sourced>, live: Option<seq<Option<LiveSample>>>)
    requires r.task.spec.historySteps > 0
  {
    && HistoryStart(r.task, q).Some? && response.Some?
    && SegmentMatches(response.value.segment, WithRole(r.task.features, HistoryRole),
                      Grid(HistoryStart(r.task, q).value, r.task.spec.cadence, r.task.spec.historySteps))
    && LiveInRange(r, q, response.value, live)
  }

  /** Reads, checks and merges the history window. `live` is what the live-state port answered. The constraint check and
      the source check that follow the grid check never refuse anything. */
  method AssembleHistory(r: Route, q: TaskRequest, response: Option<Sourced>, live: Option<seq<Option<LiveSample>>>)
    returns (result: Result<(Sourced, bool), AssemblyError>)
    requires SoundRoute(r) && (response.Some? ==> ValidSourced(response.value))
    ensures result.Ok? <==> HistoryReady(r, q, response, live)
    ensures result.Ok? ==>
      && HistoryStart(r.task, q).Some? && response.Some? && ValidHistory(response.value) && ValidHistory(result.value.0)
      && result.value == (HistoryOf(r, q, response.value, live),
                          TailReady(r.binding.points, q.asOf, response.value, live))
      && SegmentMatches(result.value.0.segment, WithRole(r.task.features, HistoryRole),
                        Grid(HistoryStart(r.task, q).value, r.task.spec.cadence, r.task.spec.historySteps))
      && (Aligned(result.value.0.segment) && Aligned(response.value.segment)
          && MaximumGap(result.value.0.segment, r.task.spec.cadence)
             == MaximumGap(response.value.segment, r.task.spec.cadence))
  {
    hide ValidSegment, OneEntryEach, SegmentMatches, WithinConstraints, MaximumGap, Merged, TailReady, LiveInRange,
         ValidHistory, MergeInto, StaticsMatch, PointsMatch, SourcesMatch, ValidSourced;
    var start := HistoryStart(r.task, q);
    if start.None? { return Err(InvalidWindow); }
    if response.None? { return Err(SourceFailed); }
    var h := response.value;
    var features := WithRole(r.task.features, HistoryRole);
    var times := Grid(start.value, r.task.spec.cadence, r.task.spec.historySteps);
    if !SegmentMatches(h.segment, features, times) { return Err(QualityRejected); }
    SourcedSegmentValid(h);
    ConstraintsFollow(h.segment);
    SourcesFollow(r.task, h, HistoryRole, times);
    if !WithinConstraints(h.segment) || !SourcesMatch(h.provenance, features, InHistory) {
      return Err(QualityRejected);
    }
    CheckedHistory(r.task, h, times);
    SegmentAligned(h.segment);
    var merged := MergeLiveTail(r.binding.points, q.asOf, h, live);
    if TailReady(r.binding.points, q.asOf, h, live) {
      TailsFitIffInRange(r, q, h, live, times);
    } else {
      assert LiveInRange(r, q, h, live) by { NotReadyInRange(r, q, h, live); }
    }
    if merged.Err? { return Err(MergeFailed); }
    if merged.value.1 {
      ghost var tails := Tails(r.binding.points, q.asOf, h, live);
      MergeKeepsDefinitions(h, merged.value.0, q.asOf, tails, features, times);
      MergeKeepsGap(h, merged.value.0, q.asOf, tails, r.task.spec.cadence);
      MergedIsMergeInto(h, merged.value.0, q.asOf, tails);
      MergedIsHistory(h, merged.value.0, q.asOf, tails);
    }
    return Ok(merged.value);
  }

  lemma SourcedSegmentValid(s: Sourced)
    requires ValidSourced(s)
    ensures ValidSegment(s.segment)
  {}

  lemma NotReadyInRange(r: Route, q: TaskRequest, stored: Sourced, live: Option<seq<Option<LiveSample>>>)
    requires !TailReady(r.binding.points, q.asOf, stored, live)
    ensures LiveInRange(r, q, stored, live)
  {}

  /** No covariates are needed, or the response lies on the horizon's grid. */
  predicate FutureReady(r: Route, q: TaskRequest, response: Option<Sourced>) {
    var features := WithRole(r.task.features, FutureRole);
    var start := q.asOf + r.task.spec.cadence;
    features != [] ==>
      && start + r.task.spec.cadence * q.horizon <= U64_MAX && response.Some?
      && SegmentMatches(response.value.segment, features, Grid(start, r.task.spec.cadence, q.horizon))
  }

  function FutureOf(r: Route, response: Option<Sourced>): Option<Sourced> {
    if WithRole(r.task.features, FutureRole) == [] then None else response
  }

  method AssembleFuture(r: Route, q: TaskRequest, response: Option<Sourced>)
      returns (result: Result<Option<Sourced>, AssemblyError>)
    requires ValidTask(r.task) && (response.Some? ==> ValidSourced(response.value))
    ensures result.Ok? <==> FutureReady(r, q, response)
    ensures result.Ok? ==> result.value == FutureOf(r, response)
  {
    hide ValidSpec, ValidSegment, OneEntryEach, SegmentMatches, WithinConstraints, SourcesMatch, ValidSourced;
    var features := WithRole(r.task.features, FutureRole);
    if features == [] { return Ok(None); }
    var start := q.asOf + r.task.spec.cadence;
    if start + r.task.spec.cadence * q.horizon > U64_MAX { return Err(InvalidWindow); }
    if response.None? { return Err(MissingCovariateSource); }
    var sourced := response.value;
    var times := Grid(start, r.task.spec.cadence, q.horizon);
    if !SegmentMatches(sourced.segment, features, times) { return Err(QualityRejected); }
    SourcedSegmentValid(sourced);
    ConstraintsFollow(sourced.segment);
    SourcesFollow(r.task, sourced, FutureRole, times);
    if !WithinConstraints(sourced.segment) || !SourcesMatch(sourced.provenance, features, InFuture) {
      return Err(QualityRejected);
    }
    return Ok(Some(sourced));
  }

  /** The task's own input-quality limits: missing cells, the gap, the age of whatever is neither calendar nor constant,
      and an issue time for every forecast. */
  predicate WithinLimits(spec: Spec, f: Frame) {
    && f.quality.missingRatio <= spec.maxMissingRatio
    && (spec.maxGap.Some? ==> f.quality.maxGap <= spec.maxGap.value)
    && forall i :: 0 <= i < |f.provenance| ==> SourceWithin(spec, f.provenance[i], f.asOf)
  }

  predicate SourceWithin(spec: Spec, p: Provenance, asOf: nat) {
    p.source != FromCalendar && p.source != FromConstant ==>
      && (spec.maxInputAge.Some? ==> asOf <= p.watermark + spec.maxInputAge.value)
      && (spec.requireIssueTime && p.segment == InFuture ==> p.issuedAt.Some?)
  }

  /** Everything known up to the cutoff, some of it measured, and within the task's limits. */
  predicate Timely(spec: Spec, f: Frame) {
    && (forall i :: 0 <= i < |f.provenance| ==>
          && f.provenance[i].watermark <= f.asOf
          && (f.provenance[i].issuedAt.Some? ==> f.provenance[i].issuedAt.value <= f.asOf))
    && (exists i :: 0 <= i < |f.provenance| && f.provenance[i].source != FromCalendar
                 && f.provenance[i].source != FromConstant)
    && WithinLimits(spec, f)
  }

  /** What the code checks one after another is that. */
  lemma TimelyExactly(spec: Spec, f: Frame)
    ensures Timely(spec, f) <==>
      && !AnyLater(f.provenance, f.asOf) && NewestActual(f.provenance).Some?
      && !(spec.requireIssueTime && MissingIssueTime(f.provenance))
      && !(spec.maxInputAge.Some? && AnyTooOld(f.provenance, f.asOf, spec.maxInputAge.value))
      && f.quality.missingRatio <= spec.maxMissingRatio && (spec.maxGap.Some? ==> f.quality.maxGap <= spec.maxGap.value)
  {
    hide NewestActual;
    NewestIsMaximum(f.provenance);
    assert forall i :: 0 <= i < |f.provenance| ==>
      (Actual(f.provenance[i]) <==> f.provenance[i].source != FromCalendar && f.provenance[i].source != FromConstant);
    if !(spec.requireIssueTime && MissingIssueTime(f.provenance))
       && !(spec.maxInputAge.Some? && AnyTooOld(f.provenance, f.asOf, spec.maxInputAge.value)) {
      forall i | 0 <= i < |f.provenance| ensures SourceWithin(spec, f.provenance[i], f.asOf) {}
    }
  }

  function Sources(h: Sourced, future: Option<Sourced>, statics: seq<Static>, asOf: nat): seq<Provenance> {
    h.provenance + (if future.Some? then future.value.provenance else []) + StaticSources(statics, asOf)
  }

  /** The sources of the two responses, the live tail included. */
  function Responses(h: Sourced, future: Option<Sourced>): seq<Provenance> {
    h.provenance + if future.Some? then future.value.provenance else []
  }

  /** The joined list: the sources of the responses, then one constant, as of the cutoff, for each static feature. */
  lemma SourcesSay(h: Sourced, future: Option<Sourced>, statics: seq<Static>, asOf: nat, i: nat)
    ensures var all, n := Sources(h, future, statics, asOf), |Responses(h, future)|;
      && |all| == n + |statics| && all[..n] == Responses(h, future)
      && (i < |statics| ==>
            && all[n + i].segment == InStatics && all[n + i].feature == statics[i].definition.name
            && all[n + i].source == FromConstant && all[n + i].watermark == asOf && all[n + i].issuedAt.None?)
  {
    if i < |statics| {
      assert Sources(h, future, statics, asOf)[|Responses(h, future)| + i] == StaticSources(statics, asOf)[i];
    }
  }

  lemma ConstantsHaveNoAge(h: Sourced, future: Option<Sourced>, statics: seq<Static>, asOf: nat, w: nat)
    ensures IsNewest(Sources(h, future, statics, asOf), w) <==> IsNewest(Responses(h, future), w)
  {
    var all, some := Sources(h, future, statics, asOf), Responses(h, future);
    assert forall i :: 0 <= i < |some| ==> all[i] == some[i];
    assert forall i :: |some| <= i < |all| ==> all[i] == StaticSources(statics, asOf)[i - |some|];
    assert forall i :: |some| <= i < |all| ==> !Actual(all[i]);
  }

  function MissingRatio(history: Segment, future: Option<Segment>, statics: seq<Static>): real {
    var cells := CellsOf(history.series) + CellsOf(SeriesOf(future)) + |statics|;
    var missing := CountInSeries(history.series, Missing) + CountInSeries(SeriesOf(future), Missing)
      + CountInStatics(statics, Missing);
    if cells == 0 then 0.0 else missing as real / cells as real
  }

  function SegmentsOf(future: Option<Sourced>): Option<Segment> {
    if future.Some? then Some(future.value.segment) else None
  }

  /** A history, covariates and constants as one frame: their sources in that order, counts over all cells. */
  function Joined(asOf: nat, cadence: nat, h: Sourced, included: bool, gap: nat, future: Option<Sourced>,
                  statics: seq<Static>): Frame {
    var ahead := SegmentsOf(future);
    var provenance := Sources(h, future, statics, asOf);
    var newest := NewestActual(provenance);
    var substituted := CountInSeries(h.segment.series, Substituted) + CountInSeries(SeriesOf(ahead), Substituted)
                       + CountInStatics(statics, Substituted);
    Frame(asOf, cadence, h.segment, ahead, statics,
          FrameQuality(if newest.Some? then newest.value else 0, MissingRatio(h.segment, ahead, statics), gap, included,
                       substituted),
          provenance)
  }

  /** The frame of the sources: the history with its live tail, the covariates as resolved, the commissioned constants,
      and the gap of the history as it was stored. */
  function FrameOf(r: Route, q: TaskRequest, stored: Sourced, live: Option<seq<Option<LiveSample>>>,
                   covariates: Option<Sourced>): Frame
    requires ValidHistory(stored)
  {
    HistoryAligned(stored);
    Joined(q.asOf, r.task.spec.cadence, HistoryOf(r, q, stored, live),
           TailReady(r.binding.points, q.asOf, stored, live), MaximumGap(stored.segment, r.task.spec.cadence),
           FutureOf(r, covariates), r.binding.statics)
  }

  function StaticDefinitions(statics: seq<Static>): (features: seq<Definition>)
    ensures |features| == |statics| && forall i :: 0 <= i < |features| ==> features[i] == statics[i].definition
  {
    seq(|statics|, i requires 0 <= i < |statics| => statics[i].definition)
  }

  /** The source checks on the joined list: one source for each feature of each segment, and no others. */
  predicate JoinedMatch(provenance: seq<Provenance>, past: seq<Definition>, ahead: seq<Definition>,
                        statics: seq<Static>) {
    && SourcesMatch(provenance, past, InHistory) && SourcesMatch(provenance, ahead, InFuture)
    && SourcesMatch(provenance, StaticDefinitions(statics), InStatics)
    && |provenance| == |past| + |ahead| + |statics|
  }

  lemma StaticSourcesMatch(statics: seq<Static>, asOf: nat)
    requires DistinctStatics(statics)
    ensures OnlyFor(StaticSources(statics, asOf), StaticDefinitions(statics), InStatics)
  {
    var keys := Keys(StaticSources(statics, asOf));
    assert keys == StaticKeys(statics);
    assert Unique(keys);
    DomainRuleIsPermutation(keys, keys);
    AllInSegment(keys, InStatics);
    var features := StaticDefinitions(statics);
    forall i | 0 <= i < |features| ensures Count(keys, (InStatics, features[i].name)) == 1 {
      assert keys[i] == (InStatics, features[i].name);
    }
  }

  lemma NoSourcesMatch(kind: SegmentKind)
    ensures OnlyFor([], [], kind)
  {}

  lemma OnlyForSize(provenance: seq<Provenance>, features: seq<Definition>, kind: SegmentKind)
    requires OnlyFor(provenance, features, kind)
    ensures |provenance| == |features|
  {
    AllInSegment(Keys(provenance), kind);
  }

  /** Once the responses were checked one by one, the checks on the joined list cannot refuse. */
  lemma JoinedSourcesMatch(h: Sourced, future: Option<Sourced>, statics: seq<Static>, asOf: nat, past: seq<Definition>,
                           ahead: seq<Definition>)
    requires OnlyFor(h.provenance, past, InHistory) && DistinctStatics(statics)
    requires if future.Some? then OnlyFor(future.value.provenance, ahead, InFuture) else ahead == []
    ensures JoinedMatch(Sources(h, future, statics, asOf), past, ahead, statics)
  {
    hide SourcesMatch, StaticSources, StaticDefinitions;
    var a, c := h.provenance, StaticSources(statics, asOf);
    var b := if future.Some? then future.value.provenance else [];
    StaticSourcesMatch(statics, asOf);
    NoSourcesMatch(InFuture);
    OnlyForSize(a, past, InHistory);
    OnlyForSize(b, ahead, InFuture);
    OnlyForSize(c, StaticDefinitions(statics), InStatics);
    MatchAmong(a, b, c, ahead, InFuture);
    MatchAmong([], a, b + c, past, InHistory);
    MatchAmong(a + b, c, [], StaticDefinitions(statics), InStatics);
    assert [] + a + (b + c) == a + b + c == a + b + c + [];
  }

  /** The quality half of assembly: joins the sources, checks them again, counts, and refuses what is late, stale,
      sparse or gappy. */
  method JoinSources(spec: Spec, past: seq<Definition>, ahead: seq<Definition>, asOf: nat, h: Sourced, liveTail: bool,
                     future: Option<Sourced>, statics: seq<Static>)
    returns (result: Result<Frame, AssemblyError>)
    requires h.segment.timestamps != [] && Aligned(h.segment)
    ensures var f := Joined(asOf, spec.cadence, h, liveTail, MaximumGap(h.segment, spec.cadence), future, statics);
      && (result.Ok? <==> JoinedMatch(f.provenance, past, ahead, statics) && Timely(spec, f))
      && (result.Ok? ==> result.value == f && IsNewest(f.provenance, f.quality.watermark))
  {
    hide MaximumGap, AnyTooOld, MissingIssueTime, AnyLater, NewestActual, CellsOf, CountInSeries, CountInStatics,
         StaticSources, SourcesMatch, Timely;
    TimelyExactly(spec, Joined(asOf, spec.cadence, h, liveTail, MaximumGap(h.segment, spec.cadence), future, statics));
    var provenance := h.provenance + (if future.Some? then future.value.provenance else [])
                      + StaticSources(statics, asOf);
    if !SourcesMatch(provenance, past, InHistory) || !SourcesMatch(provenance, ahead, InFuture) {
      return Err(QualityRejected);
    }
    if !SourcesMatch(provenance, StaticDefinitions(statics), InStatics) { return Err(QualityRejected); }
    if |provenance| != |past| + |ahead| + |statics| { return Err(QualityRejected); }
    var watermark := NewestActual(provenance);
    NewestIsMaximum(provenance);
    if watermark.None? { return Err(QualityRejected); }
    if AnyLater(provenance, asOf) { return Err(QualityRejected); }
    if spec.requireIssueTime && MissingIssueTime(provenance) { return Err(QualityRejected); }
    if spec.maxInputAge.Some? && AnyTooOld(provenance, asOf, spec.maxInputAge.value) { return Err(QualityRejected); }
    var segment := if future.Some? then Some(future.value.segment) else None;
    var missing, substituted, cells := FrameCellCounts(h.segment, segment, statics);
    var ratio := if cells == 0 then 0.0 else missing as real / cells as real;
    if ratio > spec.maxMissingRatio { return Err(QualityRejected); }
    var gap := MaximumGap(h.segment, spec.cadence);
    if spec.maxGap.Some? && gap > spec.maxGap.value { return Err(QualityRejected); }
    return Ok(Frame(asOf, spec.cadence, h.segment, segment, statics,
                    FrameQuality(watermark.value, ratio, gap, liveTail, substituted), provenance));
  }

  lemma HistoryAligned(h: Sourced)
    requires ValidHistory(h)
    ensures h.segment.timestamps != [] && Aligned(h.segment)
  {
    HistoryShape(h);
  }

  lemma KeysJoin(a: seq<Provenance>, b: seq<Provenance>)
    ensures Keys(a + b) == Keys(a) + Keys(b)
  {}

  /** The joined sources have exactly one entry for each feature of the frame. */
  lemma JoinedSources(h: Sourced, future: Option<Sourced>, f: Frame)
    requires ValidHistory(h) && f.history == h.segment && f.future == SegmentsOf(future) && DistinctStatics(f.statics)
    requires f.provenance == Sources(h, future, f.statics, f.asOf)
    requires future.Some? ==>
      DistinctNames(future.value.segment.series)
        && OneEntryEach(Keys(future.value.provenance), SeriesKeys(InFuture, future.value.segment.series))
    ensures OneEntryEach(Keys(f.provenance), FeatureKeys(f))
  {
    hide OneEntryEach, ValidSeries, ValidProvenance;
    FrameFeaturesUnique(f);
    var more := if future.Some? then future.value.provenance else [];
    var constants := StaticSources(f.statics, f.asOf);
    KeysJoin(h.provenance, more);
    KeysJoin(h.provenance + more, constants);
    SeriesKeysUnique(h.segment.series, InHistory);
    DomainRuleIsPermutation(Keys(h.provenance), SeriesKeys(InHistory, h.segment.series));
    if future.Some? {
      SeriesKeysUnique(future.value.segment.series, InFuture);
      DomainRuleIsPermutation(Keys(more), SeriesKeys(InFuture, future.value.segment.series));
    }
    assert Keys(constants) == StaticKeys(f.statics);
    DomainRuleIsPermutation(Keys(f.provenance), FeatureKeys(f));
  }

  lemma RatioInRange(history: Segment, future: Option<Segment>, statics: seq<Static>)
    requires ValidSegment(history) && (future.Some? ==> ValidSegment(future.value))
    ensures 0.0 <= MissingRatio(history, future, statics) <= 1.0
  {
    hide ValidDefinition, ValidSample, CountInSeries, CellsOf, CountInStatics;
    SeriesCountBound(history.series, Missing);
    SeriesCountBound(SeriesOf(future), Missing);
    StaticCountBound(statics, Missing);
    var cells := CellsOf(history.series) + CellsOf(SeriesOf(future)) + |statics|;
    var missing := CountInSeries(history.series, Missing) + CountInSeries(SeriesOf(future), Missing)
      + CountInStatics(statics, Missing);
    if cells > 0 { Quotient(missing, cells); }
  }

  lemma Quotient(a: nat, b: nat)
    requires a <= b && b > 0
    ensures 0.0 <= a as real / b as real <= 1.0
  {}

  lemma HistoryEndsAtCutoff(t: Task, q: TaskRequest)
    requires t.spec.historySteps > 0 && HistoryStart(t, q).Some?
    ensures Grid(HistoryStart(t, q).value, t.spec.cadence, t.spec.historySteps)[t.spec.historySteps - 1] == q.asOf
  {}

  lemma StaticSourcesValid(statics: seq<Static>, asOf: nat)
    requires forall i :: 0 <= i < |statics| ==> ValidStatic(statics[i])
    ensures forall i :: 0 <= i < |statics| ==> ValidProvenance(StaticSources(statics, asOf)[i])
  {
    hide NotBlank, ValidSample;
    forall i | 0 <= i < |statics| ensures ValidProvenance(StaticSources(statics, asOf)[i]) {
      assert ValidStatic(statics[i]);
    }
  }

  /** After the application's own checks the frame's constructor cannot refuse. */
  lemma ConstructorAccepts(r: Route, q: TaskRequest, h: Sourced, covariates: Option<Sourced>, f: Frame)
    requires SoundRoute(r) && q.horizon > 0 && ValidHistory(h) && HistoryStart(r.task, q).Some?
    requires covariates.Some? ==> ValidSourced(covariates.value)
    requires SegmentMatches(h.segment, WithRole(r.task.features, HistoryRole),
                            Grid(HistoryStart(r.task, q).value, r.task.spec.cadence, r.task.spec.historySteps))
    requires FutureReady(r, q, covariates)
    requires f.asOf == q.asOf && f.cadence == r.task.spec.cadence && f.statics == r.binding.statics
    requires f.history == h.segment && f.future == SegmentsOf(FutureOf(r, covariates))
    requires f.provenance == Sources(h, FutureOf(r, covariates), f.statics, q.asOf)
    requires f.quality.missingRatio == MissingRatio(f.history, f.future, f.statics)
    requires !AnyLater(f.provenance, q.asOf) && NewestActual(f.provenance) == Some(f.quality.watermark)
    ensures ValidFrame(f)
  {
    hide ValidSeries, ValidProvenance, OneEntryEach, WithRole, ValidSpec, ValidDefinition, PointsMatch, StaticsMatch,
         ValidStatic, NewestActual, MissingRatio, Keys, NotBlank, FeatureKeys;
    HistoryEndsAtCutoff(r.task, q);
    StaticsDistinct(r.task, r.binding.statics);
    StaticSourcesValid(r.binding.statics, q.asOf);
    NewestBound(f.provenance, q.asOf);
    var future := FutureOf(r, covariates);
    if future.Some? {
      RolesFollow(r.task, future.value.segment, FutureRole,
                  Grid(q.asOf + r.task.spec.cadence, r.task.spec.cadence, q.horizon));
    }
    RatioInRange(f.history, f.future, f.statics);
    JoinedSources(h, future, f);
    SourcesValid(h, future, f.statics, q.asOf);
    assert r.task.spec.cadence > 0 by { SpecCadence(r.task.spec); }
  }

  lemma SpecCadence(s: Spec)
    requires ValidSpec(s)
    ensures s.cadence > 0 && s.historySteps > 0
  {
    hide NotBlank;
  }

  lemma SourcesValid(h: Sourced, future: Option<Sourced>, statics: seq<Static>, asOf: nat)
    requires forall i :: 0 <= i < |h.provenance| ==> ValidProvenance(h.provenance[i])
    requires future.Some? ==> forall i :: 0 <= i < |future.value.provenance| ==>
      ValidProvenance(future.value.provenance[i])
    requires forall i :: 0 <= i < |statics| ==> ValidProvenance(StaticSources(statics, asOf)[i])
    ensures forall i :: 0 <= i < |Sources(h, future, statics, asOf)| ==>
      ValidProvenance(Sources(h, future, statics, asOf)[i])
  {
    hide ValidProvenance;
  }

  /** The joined list of an assembled frame passes the source checks. */
  lemma ChecksRepeat(r: Route, q: TaskRequest, h: Sourced, covariates: Option<Sourced>)
    requires SoundRoute(r) && ValidHistory(h) && HistoryStart(r.task, q).Some?
    requires covariates.Some? ==> ValidSourced(covariates.value)
    requires SegmentMatches(h.segment, WithRole(r.task.features, HistoryRole),
                            Grid(HistoryStart(r.task, q).value, r.task.spec.cadence, r.task.spec.historySteps))
    requires FutureReady(r, q, covariates)
    ensures JoinedMatch(Sources(h, FutureOf(r, covariates), r.binding.statics, q.asOf),
                        WithRole(r.task.features, HistoryRole), WithRole(r.task.features, FutureRole),
                        r.binding.statics)
  {
    hide ValidSeries, ValidProvenance, OneEntryEach, WithRole, ValidSpec, ValidDefinition, PointsMatch, StaticsMatch,
         ValidStatic, NotBlank, OnlyFor, SourcesMatch, JoinedMatch, SegmentMatches, ValidSourced, Sources;
    var past, ahead := WithRole(r.task.features, HistoryRole), WithRole(r.task.features, FutureRole);
    StaticsDistinct(r.task, r.binding.statics);
    SpecCadence(r.task.spec);
    SegmentSources(h.segment, h.provenance, past, InHistory,
                   Grid(HistoryStart(r.task, q).value, r.task.spec.cadence, r.task.spec.historySteps));
    if ahead != [] {
      SourcesFollow(r.task, covariates.value, FutureRole,
                    Grid(q.asOf + r.task.spec.cadence, r.task.spec.cadence, q.horizon));
    }
    JoinedSourcesMatch(h, FutureOf(r, covariates), r.binding.statics, q.asOf, past, ahead);
  }

  lemma AssembledFacts(r: Route, q: TaskRequest, covariates: Option<Sourced>, f: Frame)
    requires ValidTask(r.task) && ValidFrame(f) && f.asOf == q.asOf && f.cadence == r.task.spec.cadence
    requires 0 < q.horizon <= r.task.spec.maxHorizon && |q.quantiles| <= r.task.spec.maxQuantiles
    requires HistoryStart(r.task, q).Some? && f.statics == r.binding.statics
    requires SegmentMatches(f.history, WithRole(r.task.features, HistoryRole),
                            Grid(HistoryStart(r.task, q).value, r.task.spec.cadence, r.task.spec.historySteps))
    requires FutureReady(r, q, covariates) && f.future == SegmentsOf(FutureOf(r, covariates))
    requires Aligned(f.history) && f.quality.maxGap == MaximumGap(f.history, r.task.spec.cadence)
    ensures AssembledFor(r, q, f)
  {
    hide ValidFrame, SegmentMatches, MaximumGap, WithRole;
  }

  /** Within the task's bounds, and both responses as asked for. */
  predicate SourcesReady(r: Route, q: TaskRequest, history: Option<Sourced>, live: Option<seq<Option<LiveSample>>>,
                         covariates: Option<Sourced>)
    requires r.task.spec.historySteps > 0
  {
    && q.horizon <= r.task.spec.maxHorizon && |q.quantiles| <= r.task.spec.maxQuantiles
    && HistoryReady(r, q, history, live) && FutureReady(r, q, covariates)
  }

  lemma ReadyIsHistory(r: Route, q: TaskRequest, history: Option<Sourced>, live: Option<seq<Option<LiveSample>>>)
    requires ValidTask(r.task) && (history.Some? ==> ValidSourced(history.value)) && HistoryReady(r, q, history, live)
    ensures ValidHistory(history.value)
  {
    hide ValidSourced, SegmentMatches, LiveInRange, ValidHistory;
    CheckedHistory(r.task, history.value,
                   Grid(HistoryStart(r.task, q).value, r.task.spec.cadence, r.task.spec.historySteps));
  }

  /** Succeeds if and only if the responses are as asked for and the frame they make is timely and within the limits;
      then it returns that frame, valid and on the route, with the newest watermark of the two responses. The remaining
      checks of the code never refuse anything: numeric constraints, sources per response, sources joined, and the
      frame's constructor. */
  method AssembleFrame(r: Route, q: TaskRequest, history: Option<Sourced>, live: Option<seq<Option<LiveSample>>>,
                       covariates: Option<Sourced>)
    returns (result: Result<Frame, AssemblyError>)
    requires SoundRoute(r) && q.horizon > 0
    requires history.Some? ==> ValidSourced(history.value)
    requires covariates.Some? ==> ValidSourced(covariates.value)
    ensures SourcesReady(r, q, history, live, covariates) ==> ValidHistory(history.value)
    ensures result.Ok? <==>
      SourcesReady(r, q, history, live, covariates)
        && Timely(r.task.spec, FrameOf(r, q, history.value, live, covariates))
    ensures result.Ok? ==>
      && result.value == FrameOf(r, q, history.value, live, covariates) && AssembledFor(r, q, result.value)
      && IsNewest(Responses(HistoryOf(r, q, history.value, live), FutureOf(r, covariates)),
                  result.value.quality.watermark)
  {
    hide ValidSourced, ValidHistory, SegmentMatches, MaximumGap, ValidFrame, AssembledFor, WithRole, HistoryStart,
         Aligned, HistoryOf, TailReady, LiveInRange, StaticsMatch, PointsMatch, HistoryReady, FutureReady, NotBlank,
         ValidDefinition, ValidStatic, WithinLimits, NewestActual, MissingRatio, Sources, AnyLater, CountInSeries,
         CountInStatics, IsNewest, Responses, Timely;
    var spec := r.task.spec;
    if q.horizon > spec.maxHorizon || |q.quantiles| > spec.maxQuantiles { return Err(InvalidWindow); }
    var past := AssembleHistory(r, q, history, live);
    if past.Err? { return Err(past.error); }
    ReadyIsHistory(r, q, history, live);
    HistoryAligned(past.value.0);
    var future := AssembleFuture(r, q, covariates);
    if future.Err? { return Err(future.error); }
    ChecksRepeat(r, q, past.value.0, covariates);
    result := JoinSources(spec, WithRole(r.task.features, HistoryRole), WithRole(r.task.features, FutureRole), q.asOf,
                          past.value.0, past.value.1, future.value, r.binding.statics);
    if result.Err? { return; }
    TimelyExactly(spec, result.value);
    ConstructorAccepts(r, q, past.value.0, covariates, result.value);
    if !ValidFrame(result.value) { return Err(QualityRejected); }
    AssembledFacts(r, q, covariates, result.value);
    ConstantsHaveNoAge(past.value.0, future.value, r.binding.statics, q.asOf, result.value.quality.watermark);
  }
}
