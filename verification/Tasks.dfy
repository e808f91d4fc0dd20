/** Forecast tasks, commissioned routes, and what admission of a route guarantees. */
module Tasks {
  import opened Wrappers
  import CanonicalJson
  import opened Frames
  import opened LiveTail

  const MAX_SEGMENT_SAMPLES: nat := 20_000
  const MAX_FEATURES_PER_SEGMENT: nat := 128
  const MAX_STATIC_FEATURES: nat := 128
  const MAX_PROVENANCE_ENTRIES: nat := 512
  const MAX_FORECAST_POINTS: nat := 4_096
  const MAX_QUANTILES: nat := 19
  const MAX_CADENCE_SECONDS: nat := 86_400

  // ---------------------------------------------------------------- wire text

  predicate WireIdentifier(s: string) {
    0 < |s| <= 256 && Alphanumeric(s[0]) && forall i :: 0 < i < |s| ==> Alphanumeric(s[i]) || s[i] in "._:-"
  }

  predicate Control(c: char) { c < ' ' || '\U{7f}' <= c <= '\U{9f}' }

  predicate WireText(s: string, maxBytes: nat) {
    s != "" && CanonicalJson.Bytes(s) <= maxBytes && forall i :: 0 <= i < |s| ==> !Control(s[i])
  }

  predicate FeatureName(s: string) { WireText(s, 128) }

  predicate UnitText(s: string) { WireText(s, 64) }

  // ---------------------------------------------------------------- tasks

  datatype Target = Target(name: string, unit: string, sign: string)

  datatype FallbackPolicy = FallbackPolicy(strategy: string, version: string, sourceFeature: string, maxOutputAge: nat)

  datatype Spec = Spec(target: Target, cadence: nat, historySteps: nat, maxHorizon: nat, maxQuantiles: nat,
                       maxOutputAge: nat, maxMissingRatio: real, allowedFallbacks: seq<string>,
                       fallbackPolicies: seq<FallbackPolicy>, maxInputAge: Option<nat>, maxGap: Option<nat>,
                       requireIssueTime: bool)

  datatype Identity = Identity(id: string, revision: nat)

  datatype Task = Task(identity: Identity, contract: string, features: seq<Definition>, spec: Spec)

  datatype Artifact = Artifact(kind: string, family: string, version: Option<string>, digest: Option<string>)

  datatype SiteBinding = SiteBinding(identity: Identity, artifact: Option<Artifact>, points: seq<PointBinding>,
                                     statics: seq<Static>)

  datatype Descriptor = Descriptor(id: string, version: string, contracts: seq<string>, maxFrameSamples: nat,
                                   remote: bool)

  datatype Route = Route(task: Task, binding: SiteBinding, descriptor: Descriptor)

  function WithRole(features: seq<Definition>, role: Role): seq<Definition> {
    if features == [] then []
    else WithRole(features[..|features| - 1], role) + if features[|features| - 1].role == role
      then [features[|features| - 1]] else []
  }

  /** The features of one role, all of them, in the task's order. */
  lemma {:induction false} WithRoleIsFilter(a: seq<Definition>, d: Definition, role: Role)
    ensures WithRole([], role) == []
    ensures WithRole(a + [d], role) == WithRole(a, role) + if d.role == role then [d] else []
    ensures d in WithRole(a, role) <==> d in a && d.role == role
  {
    assert (a + [d])[..|a|] == a;
    if a != [] {
      var n := |a| - 1;
      WithRoleIsFilter(a[..n], d, role);
      assert a == a[..n] + [a[n]];
    }
  }

  predicate StrategiesUnique(policies: seq<FallbackPolicy>) {
    forall i, j :: 0 <= i < j < |policies| ==> policies[i].strategy != policies[j].strategy
  }

  /** `ForecastTaskSpec::new` and its builders. */
  predicate ValidSpec(s: Spec) {
    && NotBlank(s.target.name) && NotBlank(s.target.unit) && NotBlank(s.target.sign)
    && 0 < s.cadence <= U64_MAX && 0 < s.historySteps && 0 < s.maxHorizon && s.maxQuantiles <= 19
    && 0 < s.maxOutputAge <= U64_MAX
    && 0.0 <= s.maxMissingRatio <= 1.0
    && (s.maxGap.Some? ==> s.maxGap.value >= s.cadence) && (s.maxInputAge.Some? ==> s.maxInputAge.value > 0)
    && (forall i, j :: 0 <= i < j < |s.allowedFallbacks| ==> s.allowedFallbacks[i] != s.allowedFallbacks[j])
    && (s.fallbackPolicies != [] ==>
          && |s.fallbackPolicies| == |s.allowedFallbacks| && StrategiesUnique(s.fallbackPolicies)
          && forall i :: 0 <= i < |s.fallbackPolicies| ==>
               && s.fallbackPolicies[i].strategy in s.allowedFallbacks
               && 0 < s.fallbackPolicies[i].maxOutputAge <= s.maxOutputAge)
  }

  predicate HistoryNamed(features: seq<Definition>, name: string) {
    exists i :: 0 <= i < |features| && features[i].role.HistoryRole? && features[i].name == name
  }

  /** `DataProcessingTask::forecast`. */
  predicate ValidTask(t: Task) {
    && ValidSpec(t.spec) && t.features != [] && NotBlank(t.contract)
    && (forall i :: 0 <= i < |t.features| ==> ValidDefinition(t.features[i]))
    && (forall i, j :: 0 <= i < j < |t.features| ==>
          t.features[i].role != t.features[j].role || t.features[i].name != t.features[j].name)
    && (exists i :: 0 <= i < |t.features| && t.features[i].role.HistoryRole? && t.features[i].name == t.spec.target.name
                 && t.features[i].kind.NumberKind? && t.features[i].unit == Some(t.spec.target.unit))
    && (forall i :: 0 <= i < |t.features| && !t.features[i].role.HistoryRole? ==>
          t.features[i].name != t.spec.target.name)
    && (forall i :: 0 <= i < |t.spec.fallbackPolicies| ==>
          var p := t.spec.fallbackPolicies[i];
          && HistoryNamed(t.features, p.sourceFeature)
          && (p.strategy == "persistence" ==> p.sourceFeature == t.spec.target.name))
  }

  /** `validate_task_contract`. */
  predicate TaskRepresentable(t: Task) {
    && WireIdentifier(t.identity.id) && WireIdentifier(t.contract)
    && t.spec.cadence % 1_000 == 0 && t.spec.cadence / 1_000 <= MAX_CADENCE_SECONDS
    && t.spec.historySteps <= MAX_SEGMENT_SAMPLES && t.spec.maxHorizon <= MAX_FORECAST_POINTS
    && |t.spec.allowedFallbacks| == |t.spec.fallbackPolicies|
    && (forall i :: 0 <= i < |t.spec.fallbackPolicies| ==> t.spec.fallbackPolicies[i].strategy == "persistence")
    && (forall i :: 0 <= i < |t.spec.allowedFallbacks| ==> WireIdentifier(t.spec.allowedFallbacks[i]))
    && FeatureName(t.spec.target.name) && UnitText(t.spec.target.unit) && WireIdentifier(t.spec.target.sign)
    && (forall i :: 0 <= i < |t.spec.fallbackPolicies| ==>
          WireIdentifier(t.spec.fallbackPolicies[i].version) && FeatureName(t.spec.fallbackPolicies[i].sourceFeature))
    && (forall i :: 0 <= i < |t.features| ==>
          FeatureName(t.features[i].name) && (t.features[i].unit.Some? ==> UnitText(t.features[i].unit.value)))
    && |WithRole(t.features, HistoryRole)| <= MAX_FEATURES_PER_SEGMENT
    && |WithRole(t.features, FutureRole)| <= MAX_FEATURES_PER_SEGMENT
    && |WithRole(t.features, StaticRole)| <= MAX_STATIC_FEATURES
    && |WithRole(t.features, HistoryRole)| + |WithRole(t.features, FutureRole)|
      + |WithRole(t.features, StaticRole)| <= MAX_PROVENANCE_ENTRIES
  }

  // ---------------------------------------------------------------- the cell budget

  function CheckedMul(a: nat, b: nat, max: nat): Option<nat> { if a * b <= max then Some(a * b) else None }

  function CheckedAdd(a: nat, b: nat, max: nat): Option<nat> { if a + b <= max then Some(a + b) else None }

  function MaximumTaskCells(t: Task, usizeMax: nat): Option<nat> {
    var history := CheckedMul(|WithRole(t.features, HistoryRole)|, t.spec.historySteps, usizeMax);
    var future := CheckedMul(|WithRole(t.features, FutureRole)|, t.spec.maxHorizon, usizeMax);
    if history.None? || future.None? then None
    else
      var both := CheckedAdd(history.value, future.value, usizeMax);
      if both.None? then None else CheckedAdd(both.value, |WithRole(t.features, StaticRole)|, usizeMax)
  }

  function CheckedCells(series: seq<Series>, usizeMax: nat): Option<nat> {
    if series == [] then Some(0)
    else
      var rest := CheckedCells(series[..|series| - 1], usizeMax);
      if rest.None? then None else CheckedAdd(rest.value, |series[|series| - 1].values|, usizeMax)
  }

  /** `frame_cell_count` at run time. */
  function FrameCells(f: Frame, usizeMax: nat): Option<nat> {
    var history := CheckedCells(f.history.series, usizeMax);
    var future := CheckedCells(SeriesOf(f.future), usizeMax);
    if history.None? || future.None? then None
    else
      var both := CheckedAdd(future.value, history.value, usizeMax);
      if both.None? then None else CheckedAdd(both.value, |f.statics|, usizeMax)
  }

  predicate StaticsMatch(t: Task, statics: seq<Static>) {
    var expected := WithRole(t.features, StaticRole);
    && |expected| == |statics|
    && forall i :: 0 <= i < |expected| ==> exists j :: 0 <= j < |statics| && statics[j].definition == expected[i]
  }

  predicate PointsMatch(t: Task, points: seq<PointBinding>) {
    && (forall i :: 0 <= i < |points| ==>
          exists j :: 0 <= j < |t.features| && t.features[j].name == points[i].feature
                   && t.features[j].role.HistoryRole? && t.features[j].kind.NumberKind?)
    && (exists i :: 0 <= i < |points| && points[i].feature == t.spec.target.name)
  }

  predicate ArtifactOk(a: Option<Artifact>) {
    a.Some? ==>
      && WireIdentifier(a.value.kind) && WireIdentifier(a.value.family)
      && (a.value.version.Some? ==> WireIdentifier(a.value.version.value))
  }

  /** `DataProcessingRoute::new`, for a processor whose descriptor does not change. */
  predicate Admitted(r: Route, usizeMax: nat) {
    && ValidTask(r.task) && TaskRepresentable(r.task)
    && WireIdentifier(r.binding.identity.id) && r.binding.identity.revision > 0 && ArtifactOk(r.binding.artifact)
    && WireIdentifier(r.descriptor.id) && WireIdentifier(r.descriptor.version)
    && (forall i :: 0 <= i < |r.descriptor.contracts| ==> WireIdentifier(r.descriptor.contracts[i]))
    && r.task.contract in r.descriptor.contracts
    && MaximumTaskCells(r.task, usizeMax).Some?
      && MaximumTaskCells(r.task, usizeMax).value <= r.descriptor.maxFrameSamples
    && StaticsMatch(r.task, r.binding.statics) && PointsMatch(r.task, r.binding.points)
    && (forall i :: 0 <= i < |r.binding.statics| ==> ValidStatic(r.binding.statics[i]))
  }

  // ---------------------------------------------------------------- what assembly guarantees

  function Grid(start: nat, cadence: nat, n: nat): (times: seq<nat>)
    ensures |times| == n && forall i :: 0 <= i < n ==> times[i] == start + cadence * i
  {
    seq(n, i requires 0 <= i < n => start + cadence * i)
  }

  predicate HasSeries(s: Segment, d: Definition) {
    exists j :: 0 <= j < |s.series| && s.series[j].definition == d
  }

  /** A segment with exactly the expected definitions on exactly the expected grid. */
  predicate SegmentMatches(s: Segment, features: seq<Definition>, times: seq<nat>) {
    && s.timestamps == times && |s.series| == |features|
    && forall i :: 0 <= i < |features| ==> HasSeries(s, features[i])
  }

  datatype TaskRequest = TaskRequest(asOf: nat, horizon: nat, quantiles: seq<real>)

  predicate CutoffAligned(t: Task, q: TaskRequest) { t.spec.cadence > 0 && q.asOf % t.spec.cadence == 0 }

  function HistorySpan(t: Task): nat
    requires t.spec.historySteps > 0
  {
    t.spec.cadence * (t.spec.historySteps - 1)
  }

  /** Everything a frame built for a request on a route satisfies. */
  predicate AssembledFor(r: Route, q: TaskRequest, f: Frame)
    requires r.task.spec.historySteps > 0
  {
    var spec := r.task.spec;
    var futures := WithRole(r.task.features, FutureRole);
    && ValidFrame(f) && f.asOf == q.asOf && f.cadence == spec.cadence
    && 0 < q.horizon <= spec.maxHorizon && |q.quantiles| <= spec.maxQuantiles
    && HistorySpan(r.task) <= q.asOf && q.asOf + spec.cadence <= U64_MAX
    && SegmentMatches(f.history, WithRole(r.task.features, HistoryRole),
                      Grid(q.asOf - HistorySpan(r.task), spec.cadence, spec.historySteps))
    && (f.future.None? <==> futures == [])
    && (f.future.Some? ==>
          SegmentMatches(f.future.value, futures, Grid(q.asOf + spec.cadence, spec.cadence, q.horizon)))
    && f.statics == r.binding.statics
    && Aligned(f.history) && f.quality.maxGap == MaximumGap(f.history, spec.cadence)
  }

  lemma {:induction false} CellsAreRectangle(series: seq<Series>, n: nat, usizeMax: nat)
    requires forall i :: 0 <= i < |series| ==> |series[i].values| == n
    requires |series| * n <= usizeMax
    ensures CheckedCells(series, usizeMax) == Some(|series| * n)
  {
    if series != [] {
      var k := |series| - 1;
      Rows(k, n);
      CellsAreRectangle(series[..k], n, usizeMax);
    }
  }

  lemma Rows(k: nat, n: nat)
    ensures (k + 1) * n == k * n + n && k * n <= (k + 1) * n
  {}

  lemma ProductMonotone(a: nat, b: nat, c: nat)
    requires b <= c
    ensures a * b <= a * c
  {}

  /** On an admitted route the run-time size check cannot reject a frame, and its checked sum cannot overflow. */
  lemma BudgetIsSound(r: Route, q: TaskRequest, f: Frame, usizeMax: nat)
    requires Admitted(r, usizeMax) && AssembledFor(r, q, f)
    ensures FrameCells(f, usizeMax).Some? && FrameCells(f, usizeMax).value <= r.descriptor.maxFrameSamples
  {
    hide ValidTask, TaskRepresentable, WithRole, CheckedCells, WireIdentifier;
    var history, future := |WithRole(r.task.features, HistoryRole)|, |WithRole(r.task.features, FutureRole)|;
    assert f.history.series != [];
    CellsAreRectangle(f.history.series, r.task.spec.historySteps, usizeMax);
    ProductMonotone(future, q.horizon, r.task.spec.maxHorizon);
    if f.future.Some? {
      CellsAreRectangle(f.future.value.series, q.horizon, usizeMax);
    } else {
      CellsAreRectangle([], q.horizon, usizeMax);
    }
  }

  /** Admission asks for no more than the longest request needs: at the longest horizon the count at admission is the
      count at run time. */
  lemma BudgetIsTight(r: Route, q: TaskRequest, f: Frame, usizeMax: nat)
    requires Admitted(r, usizeMax) && AssembledFor(r, q, f) && q.horizon == r.task.spec.maxHorizon
    ensures MaximumTaskCells(r.task, usizeMax) == FrameCells(f, usizeMax)
  {
    hide ValidTask, TaskRepresentable, WithRole, CheckedCells, WireIdentifier;
    CellsAreRectangle(f.history.series, r.task.spec.historySteps, usizeMax);
    if f.future.Some? {
      CellsAreRectangle(f.future.value.series, q.horizon, usizeMax);
    } else {
      CellsAreRectangle([], q.horizon, usizeMax);
    }
  }

  // ---------------------------------------------------------------- whole seconds

  function Times(k: nat, m: nat): nat { k * m }

  ghost predicate Multiple(a: nat, m: nat) { exists k :: a == Times(k, m) }

  lemma AlignedIsMultiple(a: nat, m: nat)
    requires m > 0 && a % m == 0
    ensures Multiple(a, m)
  {
    assert a == Times(a / m, m);
  }

  lemma MultipleOf(k: nat, m: nat)
    ensures Multiple(m * k, m)
  {
    assert m * k == Times(k, m);
  }

  lemma DifferenceMultiple(a: nat, b: nat, m: nat)
    requires Multiple(a, m) && Multiple(b, m)
    ensures Multiple(SatSub(a, b), m)
  {
    var x: nat, y: nat :| a == Times(x, m) && b == Times(y, m);
    if a > b {
      Factored(x, y, m);
      assert a - b == Times(x - y, m);
    } else {
      assert 0 == Times(0, m);
    }
  }

  lemma Factored(x: nat, y: nat, m: nat)
    requires x * m > y * m
    ensures x > y && x * m - y * m == (x - y) * m
  {
    if x <= y { ProductMonotone(m, x, y); }
  }

  lemma SumMultiple(a: nat, b: nat, m: nat)
    requires Multiple(a, m) && Multiple(b, m)
    ensures Multiple(a + b, m)
  {
    var x: nat, y: nat :| a == Times(x, m) && b == Times(y, m);
    assert a + b == Times(x + y, m);
  }

  lemma {:induction false} FoldMultiple(times: seq<nat>, usable: seq<bool>, start: nat, cadence: nat, n: nat)
    requires n <= |times| == |usable| && Multiple(start, cadence)
    requires forall i :: 0 <= i < |times| ==> Multiple(times[i], cadence)
    ensures Multiple(GapFold(times, usable, start, cadence, n).0, cadence)
      && Multiple(GapFold(times, usable, start, cadence, n).1, cadence)
  {
    if n == 0 {
      MultipleOf(1, cadence);
    } else {
      FoldMultiple(times, usable, start, cadence, n - 1);
      DifferenceMultiple(times[n - 1], GapFold(times, usable, start, cadence, n - 1).0, cadence);
    }
  }

  lemma {:induction false} GapMultiple(s: Segment, cadence: nat, n: nat)
    requires s.timestamps != [] && Aligned(s) && n <= |s.series|
    requires forall i :: 0 <= i < |s.timestamps| ==> Multiple(s.timestamps[i], cadence)
    ensures Multiple(GapOfFirst(s, cadence, n), cadence)
  {
    hide GapFold;
    MultipleOf(1, cadence);
    if n > 0 {
      GapMultiple(s, cadence, n - 1);
      var times, flags, start := s.timestamps, UsableFlags(s.series[n - 1]), WindowStart(s, cadence);
      DifferenceMultiple(times[0], cadence, cadence);
      FoldMultiple(times, flags, start, cadence, |times|);
      DifferenceMultiple(times[|times| - 1], GapFold(times, flags, start, cadence, |times|).0, cadence);
    }
  }

  lemma GridMultiple(asOf: nat, span: nat, cadence: nat, n: nat, i: nat)
    requires Multiple(asOf, cadence) && Multiple(span, cadence) && span <= asOf && i < n
    ensures Multiple(Grid(asOf - span, cadence, n)[i], cadence)
  {
    DifferenceMultiple(asOf, span, cadence);
    MultipleOf(i, cadence);
    SumMultiple(asOf - span, cadence * i, cadence);
  }

  function MillisecondsToSeconds(ms: nat): Option<nat> { if ms % 1_000 == 0 then Some(ms / 1_000) else None }

  lemma WholeThousands(a: nat, cadence: nat)
    requires Multiple(a, cadence) && cadence % 1_000 == 0
    ensures a % 1_000 == 0
  {
    var d: nat :| a == Times(d, cadence);
    var k := cadence / 1_000;
    assert d * (k * 1_000) == (d * k) * 1_000;
  }

  /** For a cutoff aligned to the cadence, the cadence and the gap of every frame on an admitted route are whole
      seconds, so neither wire duration can fail. */
  lemma DurationsAreWholeSeconds(r: Route, q: TaskRequest, f: Frame, usizeMax: nat)
    requires Admitted(r, usizeMax) && AssembledFor(r, q, f) && CutoffAligned(r.task, q)
    ensures MillisecondsToSeconds(f.cadence).Some? && MillisecondsToSeconds(f.quality.maxGap).Some?
    ensures MillisecondsToSeconds(f.cadence).value * 1_000 == f.cadence
    ensures MillisecondsToSeconds(f.quality.maxGap).value * 1_000 == f.quality.maxGap
    ensures Multiple(f.quality.maxGap, f.cadence)
  {
    hide WithRole, WireIdentifier, CheckedCells, GapOfFirst, FeatureName, UnitText;
    var cadence := r.task.spec.cadence;
    MultipleOf(r.task.spec.historySteps - 1, cadence);
    AlignedIsMultiple(q.asOf, cadence);
    forall i | 0 <= i < |f.history.timestamps| ensures Multiple(f.history.timestamps[i], cadence) {
      GridMultiple(q.asOf, HistorySpan(r.task), cadence, r.task.spec.historySteps, i);
    }
    GapMultiple(f.history, cadence, |f.history.series|);
    WholeThousands(f.quality.maxGap, cadence);
  }
}
