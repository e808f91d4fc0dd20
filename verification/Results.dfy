/** Accepting an untrusted processor result against the route, the request and the frame it answers. */
module Results {
  import opened Wrappers
  import opened Frames
  import opened LiveTail
  import opened Tasks

  datatype Quantile = Quantile(probability: real, value: real)

  datatype Point = Point(timestamp: nat, value: real, quantiles: seq<Quantile>)

  datatype Forecast = Forecast(target: string, unit: string, sign: string, cadence: nat, points: seq<Point>)

  datatype Status = Produced | Fallback | Unavailable

  datatype FallbackInfo = FallbackInfo(strategy: string, version: string, sourceFeature: string, basedOn: nat)

  datatype Processor = Processor(id: string, version: string, contract: string)

  datatype UsedArtifact = UsedArtifact(kind: string, family: string, version: string, digest: string)

  datatype ProcessingResult = ProcessingResult(requestId: string, task: Identity, binding: Identity, digest: string,
                                               status: Status, processor: Processor, artifact: Option<UsedArtifact>,
                                               watermark: nat, producedAt: nat, expiresAt: Option<nat>,
                                               output: Option<Forecast>, fallback: Option<FallbackInfo>,
                                               unavailable: bool)

  datatype ProcessorRequest = ProcessorRequest(requestId: string, task: Identity, binding: Identity, frame: Frame,
                                               submittedAt: nat, deadline: nat, contract: string,
                                               artifact: Option<Artifact>, digest: string, options: TaskRequest)

  /** The shape every result has by construction. */
  predicate WellFormed(r: ProcessingResult) {
    && (match r.status
        case Produced => r.output.Some? && r.expiresAt.Some? && r.fallback.None? && !r.unavailable
        case Fallback => r.output.Some? && r.expiresAt.Some? && r.fallback.Some? && !r.unavailable
        case Unavailable => r.output.None? && r.expiresAt.None? && r.fallback.None? && r.unavailable)
    && r.watermark <= r.producedAt && (r.expiresAt.Some? ==> r.expiresAt.value > r.producedAt)
    && (r.fallback.Some? ==> r.fallback.value.basedOn <= r.watermark)
  }

  datatype Verdict = Accepted | Rejected(reason: string)

  predicate ArtifactConflicts(selector: Option<Artifact>, used: Option<UsedArtifact>) {
    && selector.Some? && used.Some?
    && (used.value.kind != selector.value.kind || used.value.family != selector.value.family
        || (selector.value.version.Some? && selector.value.version.value != used.value.version)
        || (selector.value.digest.Some? && selector.value.digest.value != used.value.digest))
  }

  predicate Correlated(route: Route, q: ProcessorRequest, r: ProcessingResult) {
    && r.requestId == q.requestId && r.task == q.task && r.binding == q.binding && r.digest == q.digest
    && r.watermark == q.frame.quality.watermark
    && r.processor == Processor(route.descriptor.id, route.descriptor.version, q.contract)
    && q.submittedAt <= r.producedAt <= q.deadline
  }

  function FindSeries(series: seq<Series>, name: string): Option<Series> {
    if series == [] then None
    else if series[0].definition.name == name then Some(series[0]) else FindSeries(series[1..], name)
  }

  /** The index of the last usable cell among the first `n`. */
  function LastUsable(s: Series, n: nat): Option<nat>
    requires n <= |s.values| && n <= |s.quality|
  {
    if n == 0 then None
    else if Usable(s.values[n - 1], s.quality[n - 1]) then Some(n - 1) else LastUsable(s, n - 1)
  }

  function FindPolicy(policies: seq<FallbackPolicy>, strategy: string): Option<FallbackPolicy> {
    if policies == [] then None
    else if policies[0].strategy == strategy then Some(policies[0]) else FindPolicy(policies[1..], strategy)
  }

  predicate AllEqual(points: seq<Point>, value: real) {
    forall i :: 0 <= i < |points| ==>
      points[i].value == value && forall j :: 0 <= j < |points[i].quantiles| ==> points[i].quantiles[j].value == value
  }

  /** The fallback branch. */
  function CheckFallback(spec: Spec, history: Segment, r: ProcessingResult): Verdict
    requires history.timestamps != [] && Aligned(history) && r.fallback.Some?
  {
    var info := r.fallback.value;
    if info.strategy !in spec.allowedFallbacks then Rejected("undeclared fallback")
    else if info.basedOn > history.timestamps[|history.timestamps| - 1] then Rejected("beyond the history")
    else
      var source := FindSeries(history.series, info.sourceFeature);
      if source.None? then Rejected("unknown source")
      else
        SeriesFound(history.series, info.sourceFeature);
        var index := LastUsable(source.value, |history.timestamps|);
        if index.None? then Rejected("no usable observation")
        else
          LastUsableIsLatest(source.value, |history.timestamps|);
          if history.timestamps[index.value] != info.basedOn then Rejected("not the latest observation")
          else
            var policy := FindPolicy(spec.fallbackPolicies, info.strategy);
            if policy.None? then Rejected("no policy")
            else if info.version != policy.value.version || info.sourceFeature != policy.value.sourceFeature
              then Rejected("policy mismatch")
            else if r.expiresAt.None? then Rejected("no expiry")
            else if SatSub(r.expiresAt.value, r.producedAt) > policy.value.maxOutputAge then Rejected("lives too long")
            else if info.strategy == "persistence" then
              var value := source.value.values[index.value];
              if !value.Number? then Rejected("not numeric")
              else if r.output.None? then Rejected("no output")
              else if !AllEqual(r.output.value.points, value.number) then Rejected("differs from its source")
              else Accepted
            else Accepted
  }

  predicate TimesMatch(points: seq<Point>, times: seq<nat>) {
    |points| == |times| && forall i :: 0 <= i < |points| ==> points[i].timestamp == times[i]
  }

  predicate QuantilesMatch(points: seq<Point>, quantiles: seq<real>) {
    forall i :: 0 <= i < |points| ==>
      |points[i].quantiles| == |quantiles| && forall j :: 0 <= j < |quantiles| ==>
        points[i].quantiles[j].probability == quantiles[j]
  }

  /** The time axis a usable output must carry; none if it would overflow. */
  function ExpectedTimes(spec: Spec, q: ProcessorRequest): Option<seq<nat>> {
    if q.frame.future.Some? then Some(q.frame.future.value.timestamps)
    else if q.frame.asOf + spec.cadence > U64_MAX then None
    else
      var times := Grid(q.frame.asOf + spec.cadence, spec.cadence, q.options.horizon);
      if exists i :: 0 <= i < |times| && times[i] > U64_MAX then None else Some(times)
  }

  function CheckOutput(spec: Spec, q: ProcessorRequest, output: Forecast): Verdict {
    if output.target != spec.target.name || output.unit != spec.target.unit || output.sign != spec.target.sign
       || output.cadence != spec.cadence || |output.points| != q.options.horizon then Rejected("shape")
    else
      var times := ExpectedTimes(spec, q);
      if times.None? then Rejected("time axis overflow")
      else if !TimesMatch(output.points, times.value) || !QuantilesMatch(output.points, q.options.quantiles)
        then Rejected("time axis or quantiles")
      else Accepted
  }

  /** `validate_processor_result`; `wireOk` is whether the result encodes under the versioned contract. */
  function Validate(route: Route, q: ProcessorRequest, r: ProcessingResult, wireOk: bool): Verdict
    requires q.frame.history.timestamps != [] && Aligned(q.frame.history)
  {
    var spec := route.task.spec;
    if !wireOk then Rejected("wire contract")
    else if !Correlated(route, q, r) then Rejected("correlation")
    else if ArtifactConflicts(q.artifact, r.artifact) then Rejected("artifact")
    else if r.status.Produced? && q.artifact.Some? && r.artifact.None? then Rejected("artifact missing")
    else if r.expiresAt.Some? && SatSub(r.expiresAt.value, r.producedAt) > spec.maxOutputAge then Rejected("expiry")
    else if r.status.Unavailable? then Accepted
    else if r.status.Fallback? && r.fallback.None? then Rejected("fallback metadata")
    else if r.status.Fallback? && CheckFallback(spec, q.frame.history, r).Rejected?
      then CheckFallback(spec, q.frame.history, r)
    else if r.output.None? then Rejected("no output")
    else CheckOutput(spec, q, r.output.value)
  }

  // ---------------------------------------------------------------- what acceptance means

  lemma {:induction false} SeriesFound(series: seq<Series>, name: string)
    ensures FindSeries(series, name).Some? ==>
      FindSeries(series, name).value in series && FindSeries(series, name).value.definition.name == name
  {
    if series != [] && series[0].definition.name != name { SeriesFound(series[1..], name); }
  }

  lemma {:induction false} LastUsableIsLatest(s: Series, n: nat)
    requires n <= |s.values| && n <= |s.quality|
    ensures var i := LastUsable(s, n);
      if i.Some? then i.value < n && Usable(s.values[i.value], s.quality[i.value])
                      && forall k :: i.value < k < n ==> !Usable(s.values[k], s.quality[k])
      else forall k :: 0 <= k < n ==> !Usable(s.values[k], s.quality[k])
  {
    if n > 0 && !Usable(s.values[n - 1], s.quality[n - 1]) { LastUsableIsLatest(s, n - 1); }
  }

  lemma {:induction false} PolicyFound(policies: seq<FallbackPolicy>, strategy: string)
    ensures FindPolicy(policies, strategy).Some? ==>
      FindPolicy(policies, strategy).value in policies && FindPolicy(policies, strategy).value.strategy == strategy
  {
    if policies != [] && policies[0].strategy != strategy { PolicyFound(policies[1..], strategy); }
  }

  /** On an admitted route the only fallback is persistence of the forecast target. */
  lemma OnlyPersistence(route: Route, history: Segment, r: ProcessingResult, usizeMax: nat)
    requires Admitted(route, usizeMax) && history.timestamps != [] && Aligned(history) && r.fallback.Some?
    requires CheckFallback(route.task.spec, history, r).Accepted?
    ensures r.fallback.value.strategy == "persistence" && r.fallback.value.sourceFeature == route.task.spec.target.name
  {
    hide WireIdentifier, FeatureName, UnitText, WithRole, LastUsable, FindSeries, AllEqual, StaticsMatch, PointsMatch,
         ValidSpec, HistoryNamed;
    SeriesFound(history.series, r.fallback.value.sourceFeature);
    PolicyFound(route.task.spec.fallbackPolicies, r.fallback.value.strategy);
  }

  /** The series, cell and grid an accepted fallback repeats. */
  predicate FlatLine(route: Route, q: TaskRequest, f: Frame, output: Forecast, s: Series, at: nat)
  {
    && s in f.history.series && s.definition.name == route.task.spec.target.name
    && at < |s.values| == |s.quality| && Usable(s.values[at], s.quality[at]) && s.values[at].Number?
    && (forall k :: at < k < |s.values| ==> !Usable(s.values[k], s.quality[k]))
    && |output.points| == q.horizon
    && AllEqual(output.points, s.values[at].number)
    && forall k :: 0 <= k < |output.points| ==> output.points[k].timestamp == f.asOf + f.cadence * (k + 1)
  }

  lemma PersistenceRepeats(spec: Spec, history: Segment, r: ProcessingResult) returns (s: Series, at: nat)
    requires history.timestamps != [] && Aligned(history) && r.fallback.Some?
      && CheckFallback(spec, history, r).Accepted?
    requires r.fallback.value.strategy == "persistence"
    ensures s in history.series && s.definition.name == r.fallback.value.sourceFeature
    ensures |s.values| == |s.quality| == |history.timestamps|
    ensures at < |s.values| && Usable(s.values[at], s.quality[at]) && s.values[at].Number?
    ensures forall k :: at < k < |s.values| ==> !Usable(s.values[k], s.quality[k])
    ensures r.output.Some? && AllEqual(r.output.value.points, s.values[at].number)
  {
    SeriesFound(history.series, r.fallback.value.sourceFeature);
    s := FindSeries(history.series, r.fallback.value.sourceFeature).value;
    LastUsableIsLatest(s, |history.timestamps|);
    at := LastUsable(s, |history.timestamps|).value;
  }

  lemma GridStep(start: nat, cadence: nat, n: nat, k: nat)
    requires k < n
    ensures Grid(start + cadence, cadence, n)[k] == start + cadence * (k + 1)
  {}

  lemma AcceptedTimes(route: Route, q: ProcessorRequest, output: Forecast, k: nat)
    requires route.task.spec.historySteps > 0 && AssembledFor(route, q.options, q.frame)
    requires CheckOutput(route.task.spec, q, output).Accepted? && k < |output.points|
    ensures |output.points| == q.options.horizon
      && output.points[k].timestamp == q.frame.asOf + q.frame.cadence * (k + 1)
  {
    hide ValidFrame, QuantilesMatch, WithRole, MaximumGap;
    GridStep(q.frame.asOf, q.frame.cadence, q.options.horizon, k);
    if q.frame.future.Some? {
      SegmentAtGrid(q.frame.future.value, WithRole(route.task.features, FutureRole),
                    Grid(q.frame.asOf + q.frame.cadence, q.frame.cadence, q.options.horizon));
    }
  }

  lemma SegmentAtGrid(s: Segment, features: seq<Definition>, times: seq<nat>)
    requires SegmentMatches(s, features, times)
    ensures s.timestamps == times
  {}

  /** An accepted fallback is a flat line: every point and every quantile repeats the latest usable history value of the
      forecast target, on the grid that continues the frame one cadence at a time up to the horizon. */
  lemma AcceptedFallbackIsFlat(route: Route, q: ProcessorRequest, r: ProcessingResult, wireOk: bool, usizeMax: nat)
    returns (s: Series, at: nat)
    requires Admitted(route, usizeMax) && AssembledFor(route, q.options, q.frame)
    requires q.frame.history.timestamps != [] && Aligned(q.frame.history)
    requires WellFormed(r) && r.status.Fallback? && Validate(route, q, r, wireOk) == Accepted
    ensures r.output.Some? && FlatLine(route, q.options, q.frame, r.output.value, s, at)
  {
    hide Admitted, AssembledFor, CheckFallback, CheckOutput, Correlated, ArtifactConflicts;
    assert CheckFallback(route.task.spec, q.frame.history, r).Accepted?;
    AdmittedSteps(route, usizeMax);
    OnlyPersistence(route, q.frame.history, r, usizeMax);
    s, at := PersistenceRepeats(route.task.spec, q.frame.history, r);
    var output := r.output.value;
    assert CheckOutput(route.task.spec, q, output).Accepted?;
    HorizonKept(route.task.spec, q, output);
    forall k | 0 <= k < |output.points| ensures output.points[k].timestamp == q.frame.asOf + q.frame.cadence * (k + 1) {
      AcceptedTimes(route, q, output, k);
    }
  }

  lemma AdmittedSteps(route: Route, usizeMax: nat)
    requires Admitted(route, usizeMax)
    ensures route.task.spec.historySteps > 0
  {}

  lemma HorizonKept(spec: Spec, q: ProcessorRequest, output: Forecast)
    requires CheckOutput(spec, q, output).Accepted?
    ensures |output.points| == q.options.horizon
  {}

  // ---------------------------------------------------------------- exactly what is accepted

  /** The artifact that was used is the one the request selects; only a produced result has to name it. */
  predicate ArtifactRight(selector: Option<Artifact>, used: Option<UsedArtifact>, produced: bool) {
    selector.Some? ==>
      if used.None? then !produced
      else
        && used.value.kind == selector.value.kind && used.value.family == selector.value.family
        && (selector.value.version.Some? ==> used.value.version == selector.value.version.value)
        && (selector.value.digest.Some? ==> used.value.digest == selector.value.digest.value)
  }

  /** The result answers this very request: same ids, digest and watermark, from the route's processor under the
      requested contract, made between submission and deadline, and not to be used for longer than the task allows. */
  predicate AnswersRequest(route: Route, q: ProcessorRequest, r: ProcessingResult) {
    && r.requestId == q.requestId && r.task == q.task && r.binding == q.binding && r.digest == q.digest
    && r.watermark == q.frame.quality.watermark
    && r.processor.id == route.descriptor.id && r.processor.version == route.descriptor.version
    && r.processor.contract == q.contract
    && q.submittedAt <= r.producedAt && r.producedAt <= q.deadline
    && ArtifactRight(q.artifact, r.artifact, r.status.Produced?)
    && (r.expiresAt.Some? ==> r.expiresAt.value <= r.producedAt + route.task.spec.maxOutputAge)
  }

  /** One value per step of the horizon, each one cadence after the one before, with the requested quantiles, for the
      task's target. */
  predicate OutputRight(spec: Spec, q: ProcessorRequest, output: Forecast) {
    && output.target == spec.target.name && output.unit == spec.target.unit && output.sign == spec.target.sign
    && output.cadence == spec.cadence && |output.points| == q.options.horizon
    && (forall k :: 0 <= k < |output.points| ==> PointRight(spec, q, output.points[k], k))
    && (q.frame.future.None? ==> q.frame.asOf + spec.cadence * q.options.horizon <= U64_MAX)
  }

  predicate PointRight(spec: Spec, q: ProcessorRequest, point: Point, k: nat) {
    && point.timestamp == q.frame.asOf + spec.cadence * (k + 1) && |point.quantiles| == |q.options.quantiles|
    && forall j :: 0 <= j < |point.quantiles| ==> point.quantiles[j].probability == q.options.quantiles[j]
  }

  /** The answer of a persistence policy: the latest usable value of the target, said to be from then, on every point,
      for no longer than the policy allows. */
  ghost predicate PersistenceRight(spec: Spec, history: Segment, r: ProcessingResult) {
    && r.fallback.Some? && r.output.Some? && r.expiresAt.Some? && r.fallback.value.strategy == "persistence"
    && "persistence" in spec.allowedFallbacks && r.fallback.value.sourceFeature == spec.target.name
    && (exists i :: 0 <= i < |spec.fallbackPolicies| && PolicyRight(spec.fallbackPolicies[i], spec, r))
    && (exists i, at :: 0 <= i < |history.series| && ValueRight(history, i, at, spec, r))
  }

  predicate PolicyRight(p: FallbackPolicy, spec: Spec, r: ProcessingResult)
    requires r.fallback.Some? && r.expiresAt.Some?
  {
    && p.strategy == "persistence" && p.version == r.fallback.value.version && p.sourceFeature == spec.target.name
    && r.expiresAt.value <= r.producedAt + p.maxOutputAge
  }

  predicate ValueRight(history: Segment, i: nat, at: nat, spec: Spec, r: ProcessingResult)
    requires i < |history.series| && r.fallback.Some? && r.output.Some?
  {
    var s := history.series[i];
    && s.definition.name == spec.target.name && at < |s.values| == |s.quality| == |history.timestamps|
    && Usable(s.values[at], s.quality[at]) && (forall k :: at < k < |s.values| ==> !Usable(s.values[k], s.quality[k]))
    && s.values[at].Number? && history.timestamps[at] == r.fallback.value.basedOn
    && AllEqual(r.output.value.points, s.values[at].number)
  }

  lemma ArtifactExactly(selector: Option<Artifact>, used: Option<UsedArtifact>, produced: bool)
    ensures ArtifactRight(selector, used, produced) <==>
      !ArtifactConflicts(selector, used) && !(produced && selector.Some? && used.None?)
  {}

  lemma LastStep(start: nat, cadence: nat, n: nat)
    requires n > 0
    ensures var times := Grid(start + cadence, cadence, n);
      (exists i :: 0 <= i < |times| && times[i] > U64_MAX) <==> start + cadence * n > U64_MAX
    ensures start + cadence > U64_MAX ==> start + cadence * n > U64_MAX
  {
    GridStep(start, cadence, n, n - 1);
    StepsGrow(cadence, 1, n);
    var times := Grid(start + cadence, cadence, n);
    assert times[n - 1] == start + cadence * n;
    forall i | 0 <= i < |times| ensures times[i] <= start + cadence * n {
      GridStep(start, cadence, n, i);
      StepsGrow(cadence, i + 1, n);
    }
  }

  lemma StepsGrow(cadence: nat, a: nat, b: nat)
    requires a <= b
    ensures cadence * a <= cadence * b
  {}

  lemma TimesExactly(route: Route, q: ProcessorRequest, points: seq<Point>)
    requires route.task.spec.historySteps > 0 && AssembledFor(route, q.options, q.frame)
    requires |points| == q.options.horizon
    ensures var spec := route.task.spec;
            var times := ExpectedTimes(spec, q);
      (times.Some? && TimesMatch(points, times.value)) <==>
        && (q.frame.future.None? ==> q.frame.asOf + spec.cadence * q.options.horizon <= U64_MAX)
        && forall k :: 0 <= k < |points| ==> points[k].timestamp == q.frame.asOf + spec.cadence * (k + 1)
  {
    hide ValidFrame, WithRole, MaximumGap;
    var spec := route.task.spec;
    LastStep(q.frame.asOf, spec.cadence, q.options.horizon);
    var grid := Grid(q.frame.asOf + spec.cadence, spec.cadence, q.options.horizon);
    forall k | 0 <= k < q.options.horizon ensures grid[k] == q.frame.asOf + spec.cadence * (k + 1) {
      GridStep(q.frame.asOf, spec.cadence, q.options.horizon, k);
    }
    if q.frame.future.Some? { SegmentAtGrid(q.frame.future.value, WithRole(route.task.features, FutureRole), grid); }
  }

  lemma OutputExactly(route: Route, q: ProcessorRequest, output: Forecast)
    requires route.task.spec.historySteps > 0 && AssembledFor(route, q.options, q.frame)
    ensures CheckOutput(route.task.spec, q, output).Accepted? <==> OutputRight(route.task.spec, q, output)
  {
    hide AssembledFor, ExpectedTimes, TimesMatch;
    if |output.points| == q.options.horizon { TimesExactly(route, q, output.points); }
    if QuantilesMatch(output.points, q.options.quantiles) {
      forall k | 0 <= k < |output.points|
        ensures output.points[k].timestamp == q.frame.asOf + route.task.spec.cadence * (k + 1) ==>
          PointRight(route.task.spec, q, output.points[k], k)
      {}
    }
  }

  lemma {:induction false} SeriesExactly(series: seq<Series>, name: string, i: nat)
    requires DistinctNames(series) && i < |series| && series[i].definition.name == name
    ensures FindSeries(series, name) == Some(series[i])
  {
    if i > 0 {
      assert series[0].definition.name != name;
      assert DistinctNames(series[1..]);
      SeriesExactly(series[1..], name, i - 1);
    }
  }

  lemma {:induction false} PolicyExactly(policies: seq<FallbackPolicy>, strategy: string, i: nat)
    requires StrategiesUnique(policies) && i < |policies| && policies[i].strategy == strategy
    ensures FindPolicy(policies, strategy) == Some(policies[i])
  {
    if i > 0 {
      assert policies[0].strategy != strategy;
      assert StrategiesUnique(policies[1..]);
      PolicyExactly(policies[1..], strategy, i - 1);
    }
  }

  lemma LastUsableExactly(s: Series, n: nat, at: nat)
    requires n == |s.values| == |s.quality| && at < n && Usable(s.values[at], s.quality[at])
    requires forall k :: at < k < n ==> !Usable(s.values[k], s.quality[k])
    ensures LastUsable(s, n) == Some(at)
  {
    LastUsableIsLatest(s, n);
  }

  /** What the fallback branch accepts is right. */
  lemma AcceptedIsRight(spec: Spec, history: Segment, r: ProcessingResult)
    requires history.timestamps != [] && Aligned(history) && r.fallback.Some? && r.expiresAt.Some?
    requires CheckFallback(spec, history, r).Accepted?
    requires r.fallback.value.strategy == "persistence" && r.fallback.value.sourceFeature == spec.target.name
    ensures PersistenceRight(spec, history, r)
  {
    hide AllEqual, LastUsable, FindSeries, FindPolicy;
    var info := r.fallback.value;
    var s, at := PersistenceRepeats(spec, history, r);
    SeriesFound(history.series, info.sourceFeature);
    var source := FindSeries(history.series, info.sourceFeature).value;
    LastUsableIsLatest(source, |history.timestamps|);
    var index := LastUsable(source, |history.timestamps|).value;
    var i :| 0 <= i < |history.series| && history.series[i] == source;
    assert ValueRight(history, i, index, spec, r);
    PolicyFound(spec.fallbackPolicies, info.strategy);
    var policy := FindPolicy(spec.fallbackPolicies, info.strategy).value;
    var k :| 0 <= k < |spec.fallbackPolicies| && spec.fallbackPolicies[k] == policy;
    assert PolicyRight(spec.fallbackPolicies[k], spec, r);
  }

  lemma RightIsAccepted(spec: Spec, history: Segment, r: ProcessingResult)
    requires history.timestamps != [] && Aligned(history) && Rising(history.timestamps)
    requires DistinctNames(history.series) && StrategiesUnique(spec.fallbackPolicies)
    requires PersistenceRight(spec, history, r)
    ensures CheckFallback(spec, history, r).Accepted?
  {
    hide AllEqual, LastUsable, FindSeries, FindPolicy;
    var i, at :| 0 <= i < |history.series| && ValueRight(history, i, at, spec, r);
    var k :| 0 <= k < |spec.fallbackPolicies| && PolicyRight(spec.fallbackPolicies[k], spec, r);
    SeriesExactly(history.series, spec.target.name, i);
    PolicyExactly(spec.fallbackPolicies, "persistence", k);
    LastUsableExactly(history.series[i], |history.timestamps|, at);
  }

  lemma FallbackExactly(route: Route, q: ProcessorRequest, r: ProcessingResult, usizeMax: nat)
    requires Admitted(route, usizeMax) && AssembledFor(route, q.options, q.frame)
    requires q.frame.history.timestamps != [] && Aligned(q.frame.history)
    requires r.fallback.Some? && r.expiresAt.Some?
    ensures CheckFallback(route.task.spec, q.frame.history, r).Accepted? <==>
      PersistenceRight(route.task.spec, q.frame.history, r)
  {
    hide Admitted, AssembledFor, CheckFallback, PersistenceRight;
    var spec := route.task.spec;
    if CheckFallback(spec, q.frame.history, r).Accepted? {
      OnlyPersistence(route, q.frame.history, r, usizeMax);
      AcceptedIsRight(spec, q.frame.history, r);
    }
    if PersistenceRight(spec, q.frame.history, r) {
      Wellordered(route, q, usizeMax);
      RightIsAccepted(spec, q.frame.history, r);
    }
  }

  lemma Wellordered(route: Route, q: ProcessorRequest, usizeMax: nat)
    requires Admitted(route, usizeMax) && AssembledFor(route, q.options, q.frame)
    ensures Rising(q.frame.history.timestamps) && DistinctNames(q.frame.history.series)
    ensures StrategiesUnique(route.task.spec.fallbackPolicies)
  {
    hide ValidSeries, ValidProvenance, OneEntryEach, StaticsMatch, PointsMatch, WithRole, MaximumGap, TaskRepresentable;
  }

  /** A result is accepted exactly if it encodes, answers the request, and is one of three: an output on the requested
      grid, such an output that repeats the latest value of the target as a persistence policy allows, or no output. */
  lemma AcceptedIff(route: Route, q: ProcessorRequest, r: ProcessingResult, wireOk: bool, usizeMax: nat)
    requires Admitted(route, usizeMax) && AssembledFor(route, q.options, q.frame)
    requires q.frame.history.timestamps != [] && Aligned(q.frame.history) && WellFormed(r)
    ensures Validate(route, q, r, wireOk) == Accepted <==>
      && wireOk && AnswersRequest(route, q, r)
      && (match r.status
          case Produced => OutputRight(route.task.spec, q, r.output.value)
          case Fallback =>
            PersistenceRight(route.task.spec, q.frame.history, r) && OutputRight(route.task.spec, q, r.output.value)
          case Unavailable => true)
  {
    hide Admitted, AssembledFor, CheckFallback, CheckOutput, ArtifactConflicts, ArtifactRight, OutputRight,
         PersistenceRight;
    AdmittedSteps(route, usizeMax);
    ArtifactExactly(q.artifact, r.artifact, r.status.Produced?);
    if r.status.Fallback? { FallbackExactly(route, q, r, usizeMax); }
    if r.output.Some? { OutputExactly(route, q, r.output.value); }
  }
}
