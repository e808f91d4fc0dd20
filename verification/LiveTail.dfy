/** Merging current live samples into the last cell of a stored history window, and counting the cells of a frame. */
module LiveTail {
  import opened Wrappers
  import opened Frames

  datatype PointQuality = PointGood | PointUncertain | PointBad | PointUnavailable

  datatype PointBinding = PointBinding(feature: string, address: string, liveTail: bool)

  /** `value` is absent when the sampled number is not finite. */
  datatype LiveSample = LiveSample(address: string, value: Option<real>, timestamp: nat, quality: PointQuality)

  datatype Sourced = Sourced(segment: Segment, provenance: seq<Provenance>)

  datatype MergeError = InvalidSeries | IncompleteProvenance

  /** What a validated history response satisfies. */
  predicate ValidHistory(h: Sourced) {
    && ValidSegment(h.segment) && SeriesRole(h.segment.series, HistoryRole)
    && OneEntryEach(Keys(h.provenance), SeriesKeys(InHistory, h.segment.series))
    && forall i :: 0 <= i < |h.provenance| ==> ValidProvenance(h.provenance[i])
  }

  predicate Acceptable(mapping: PointBinding, sample: Option<LiveSample>, asOf: nat) {
    && sample.Some? && sample.value.address == mapping.address && sample.value.value.Some?
    && sample.value.timestamp == asOf && sample.value.quality in {PointGood, PointUncertain}
  }

  datatype Tail = Tail(feature: string, value: real, quality: SampleQuality)

  function TailOf(mapping: PointBinding, sample: LiveSample): Tail
    requires sample.value.Some?
  {
    Tail(mapping.feature, sample.value.value, if sample.quality.PointGood? then Good else Uncertain)
  }

  function FindTail(tails: seq<Tail>, feature: string): Option<Tail> {
    if tails == [] then None
    else if tails[0].feature == feature then Some(tails[0]) else FindTail(tails[1..], feature)
  }

  function FindSource(provenance: seq<Provenance>, feature: string): Option<Provenance> {
    if provenance == [] then None
    else if provenance[0].feature == feature then Some(provenance[0]) else FindSource(provenance[1..], feature)
  }

  function Live(mappings: seq<PointBinding>): seq<PointBinding> {
    if mappings == [] then [] else (if mappings[0].liveTail then [mappings[0]] else []) + Live(mappings[1..])
  }

  /** The series with its last cell replaced. */
  function WithTail(s: Series, tail: Tail): Series
    requires s.values != [] && s.quality != []
  {
    s.(values := s.values[|s.values| - 1 := Number(tail.value)], quality := s.quality[|s.quality| - 1 := tail.quality])
  }

  /** Unchanged, or the same series with a usable number of a mapped feature in its last cell. */
  predicate SeriesMerged(s: Series, t: Series, tails: seq<Tail>)
    requires |s.values| == |s.quality| > 0
  {
    var tail := FindTail(tails, s.definition.name);
    t == if tail.None? then s else WithTail(s, tail.value)
  }

  predicate SourceMerged(p: Provenance, s: Series, h: Sourced, asOf: nat, tails: seq<Tail>) {
    var stored := FindSource(h.provenance, s.definition.name);
    && stored.Some?
    && p == if FindTail(tails, s.definition.name).None? then stored.value
            else Provenance(InHistory, s.definition.name, FromHistoryAndLive, stored.value.sourceRef, asOf, None)
  }

  predicate Merged(h: Sourced, m: Sourced, asOf: nat, tails: seq<Tail>, n: nat)
    requires ValidHistory(h) && n <= |h.segment.series|
  {
    && |m.segment.series| == |m.provenance| == n && m.segment.timestamps == h.segment.timestamps
    && forall i :: 0 <= i < n ==> MergedAt(h, m, asOf, tails, i)
  }

  predicate MergedAt(h: Sourced, m: Sourced, asOf: nat, tails: seq<Tail>, i: nat)
    requires ValidHistory(h) && i < |h.segment.series| && i < |m.segment.series| && i < |m.provenance|
  {
    && ValidSeries(m.segment.series[i])
    && SeriesMerged(h.segment.series[i], m.segment.series[i], tails)
    && SourceMerged(m.provenance[i], h.segment.series[i], h, asOf, tails)
  }

  predicate AllUsable(tails: seq<Tail>) { forall i :: 0 <= i < |tails| ==> tails[i].quality in {Good, Uncertain} }

  /** A window that ends at the cutoff, and a usable sample stamped there for each live-tail mapping, of which there is
      one. */
  predicate TailReady(mappings: seq<PointBinding>, asOf: nat, h: Sourced, read: Option<seq<Option<LiveSample>>>) {
    var live := Live(mappings);
    && live != [] && h.segment.timestamps != [] && h.segment.timestamps[|h.segment.timestamps| - 1] == asOf
    && read.Some? && |read.value| == |live|
    && forall i :: 0 <= i < |live| ==> Acceptable(live[i], read.value[i], asOf)
  }

  /** The accepted samples, in mapping order. */
  function Tails(mappings: seq<PointBinding>, asOf: nat, h: Sourced,
                 read: Option<seq<Option<LiveSample>>>): (tails: seq<Tail>)
    requires TailReady(mappings, asOf, h, read)
    ensures |tails| == |Live(mappings)| && AllUsable(tails)
  {
    var live := Live(mappings);
    seq(|live|, i requires 0 <= i < |live| =>
      assert Acceptable(live[i], read.value[i], asOf);
      TailOf(live[i], read.value[i].value))
  }

  /** Putting a tail into a series leaves it valid. */
  predicate TailFits(s: Series, tails: seq<Tail>)
    requires |s.values| == |s.quality| > 0
  {
    var tail := FindTail(tails, s.definition.name);
    tail.Some? ==> ValidSeries(WithTail(s, tail.value))
  }

  /** The first loop: all live samples must be current and usable, or the stored history stands. */
  method AcceptSamples(live: seq<PointBinding>, samples: seq<Option<LiveSample>>, asOf: nat)
      returns (tails: Option<seq<Tail>>)
    requires |samples| == |live|
    ensures tails.Some? <==> forall i :: 0 <= i < |live| ==> Acceptable(live[i], samples[i], asOf)
    ensures tails.Some? ==>
      |tails.value| == |live| && AllUsable(tails.value)
      && forall i :: 0 <= i < |live| ==>
        samples[i].Some? && samples[i].value.value.Some? && tails.value[i] == TailOf(live[i], samples[i].value)
  {
    var accepted: seq<Tail> := [];
    for n := 0 to |live|
      invariant |accepted| == n && AllUsable(accepted)
      invariant forall i :: 0 <= i < n ==>
        Acceptable(live[i], samples[i], asOf) && accepted[i] == TailOf(live[i], samples[i].value)
    {
      if !Acceptable(live[n], samples[n], asOf) { return None; }
      accepted := accepted + [TailOf(live[n], samples[n].value)];
    }
    return Some(accepted);
  }

  /** Keeps the stored history unless every live-tail mapping has a usable sample stamped exactly at the cutoff; then
      replaces the last cell of the mapped series and re-labels their source. */
  method MergeLiveTail(mappings: seq<PointBinding>, asOf: nat, h: Sourced, read: Option<seq<Option<LiveSample>>>)
    returns (r: Result<(Sourced, bool), MergeError>)
    requires ValidHistory(h)
    ensures !TailReady(mappings, asOf, h, read) ==> r == Ok((h, false))
    ensures TailReady(mappings, asOf, h, read) ==>
      var tails := Tails(mappings, asOf, h, read);
      && (r.Ok? ==> r.value.1 && Merged(h, r.value.0, asOf, tails, |h.segment.series|))
      && (r.Ok? <==> forall i :: 0 <= i < |h.segment.series| ==> SeriesTailFits(h, tails, i))
      && (r.Err? ==> r.error == InvalidSeries)
  {
    hide ValidSeries, ValidSegment, OneEntryEach, ValidProvenance;
    HistoryShape(h);
    var live := Live(mappings);
    if live == [] { return Ok((h, false)); }
    if h.segment.timestamps[|h.segment.timestamps| - 1] != asOf { return Ok((h, false)); }
    if read.None? { return Ok((h, false)); }
    if |read.value| != |live| { return Ok((h, false)); }
    var accepted := AcceptSamples(live, read.value, asOf);
    if accepted.None? { return Ok((h, false)); }
    ghost var tails := Tails(mappings, asOf, h, read);
    assert accepted.value == tails;
    var series: seq<Series> := [];
    var provenance: seq<Provenance> := [];
    for n := 0 to |h.segment.series|
      invariant Merged(h, Sourced(Segment(h.segment.timestamps, series), provenance), asOf, tails, n)
      invariant forall i :: 0 <= i < n ==> SeriesTailFits(h, tails, i)
    {
      var stored := h.segment.series[n];
      HistorySource(h, n);
      var source := FindSource(h.provenance, stored.definition.name);
      if source.None? { return Err(IncompleteProvenance); }
      var tail := FindTail(accepted.value, stored.definition.name);
      ghost var before := Sourced(Segment(h.segment.timestamps, series), provenance);
      if tail.None? {
        series := series + [stored];
        provenance := provenance + [source.value];
      } else {
        var merged := WithTail(stored, tail.value);
        if !ValidSeries(merged) {
          assert !SeriesTailFits(h, tails, n);
          return Err(InvalidSeries);
        }
        series := series + [merged];
        provenance := provenance + [Provenance(InHistory, stored.definition.name, FromHistoryAndLive,
                                               source.value.sourceRef, asOf, None)];
      }
      MergedGrows(h, before, series[n], provenance[n], asOf, tails);
    }
    return Ok((Sourced(Segment(h.segment.timestamps, series), provenance), true));
  }

  predicate SeriesTailFits(h: Sourced, tails: seq<Tail>, i: nat)
    requires ValidHistory(h) && i < |h.segment.series|
  {
    TailFits(h.segment.series[i], tails)
  }

  lemma HistoryShape(h: Sourced)
    requires ValidHistory(h)
    ensures h.segment.timestamps != []
    ensures forall i :: 0 <= i < |h.segment.series| ==>
      ValidSeries(h.segment.series[i]) && |h.segment.series[i].values| == |h.segment.series[i].quality|
        == |h.segment.timestamps|
  {}

  lemma {:induction false} CountedIsFound(provenance: seq<Provenance>, kind: SegmentKind, feature: string)
    requires Count(Keys(provenance), (kind, feature)) > 0
    ensures FindSource(provenance, feature).Some?
  {
    if provenance != [] && provenance[0].feature != feature {
      assert Keys(provenance)[1..] == Keys(provenance[1..]);
      CountedIsFound(provenance[1..], kind, feature);
    }
  }

  lemma HistorySource(h: Sourced, n: nat)
    requires ValidHistory(h) && n < |h.segment.series|
    ensures FindSource(h.provenance, h.segment.series[n].definition.name).Some?
  {
    hide ValidSegment;
    var keys := SeriesKeys(InHistory, h.segment.series);
    assert Count(Keys(h.provenance), keys[n]) == 1;
    CountedIsFound(h.provenance, InHistory, h.segment.series[n].definition.name);
  }

  lemma {:induction false} FoundSource(provenance: seq<Provenance>, feature: string) returns (i: nat)
    requires FindSource(provenance, feature).Some?
    ensures i < |provenance| && provenance[i] == FindSource(provenance, feature).value
      && provenance[i].feature == feature
  {
    if provenance[0].feature == feature {
      i := 0;
    } else {
      var j := FoundSource(provenance[1..], feature);
      i := j + 1;
    }
  }

  lemma SeriesKeysUnique(series: seq<Series>, kind: SegmentKind)
    requires DistinctNames(series)
    ensures Unique(SeriesKeys(kind, series))
  {}

  /** Every source of a history belongs to the history segment. */
  lemma StoredSource(h: Sourced, i: nat)
    requires ValidHistory(h) && i < |h.provenance|
    ensures h.provenance[i].segment.InHistory? && ValidProvenance(h.provenance[i])
  {
    hide ValidSeries, ValidProvenance;
    var keys := SeriesKeys(InHistory, h.segment.series);
    SeriesKeysUnique(h.segment.series, InHistory);
    ProvenanceRulesAgree(Keys(h.provenance), keys);
    assert Keys(h.provenance)[i] in keys;
  }

  lemma MergedSource(h: Sourced, m: Sourced, asOf: nat, tails: seq<Tail>, i: nat)
    requires ValidHistory(h) && Merged(h, m, asOf, tails, |h.segment.series|) && i < |h.segment.series|
    ensures KeyOf(m.provenance[i]) == (InHistory, h.segment.series[i].definition.name)
      && ValidProvenance(m.provenance[i])
  {
    hide OneEntryEach, Keys, SeriesKeys;
    assert MergedAt(h, m, asOf, tails, i);
    var j := FoundSource(h.provenance, h.segment.series[i].definition.name);
    StoredSource(h, j);
  }

  /** A merged history satisfies every rule of a history, so building it again cannot fail. */
  lemma MergedIsHistory(h: Sourced, m: Sourced, asOf: nat, tails: seq<Tail>)
    requires ValidHistory(h) && Merged(h, m, asOf, tails, |h.segment.series|) && AllUsable(tails)
    ensures ValidHistory(m)
  {
    hide OneEntryEach, ValidSeries, ValidProvenance;
    HistoryShape(h);
    forall i | 0 <= i < |m.segment.series|
      ensures m.segment.series[i].definition == h.segment.series[i].definition && ValidSeries(m.segment.series[i])
      ensures |m.segment.series[i].values| == |m.segment.timestamps|
      ensures KeyOf(m.provenance[i]) == (InHistory, h.segment.series[i].definition.name)
        && ValidProvenance(m.provenance[i])
    {
      assert MergedAt(h, m, asOf, tails, i);
      OnlyTheLastCell(h.segment.series[i], m.segment.series[i], tails);
      MergedSource(h, m, asOf, tails, i);
    }
    var keys := SeriesKeys(InHistory, m.segment.series);
    assert Keys(m.provenance) == keys;
    SeriesKeysUnique(m.segment.series, InHistory);
    DomainRuleIsPermutation(keys, keys);
  }

  /** The merge as one function of the stored history and the accepted samples. */
  function MergeInto(h: Sourced, asOf: nat, tails: seq<Tail>): (m: Sourced)
    requires ValidHistory(h)
    ensures |m.segment.series| == |m.provenance| == |h.segment.series|
  {
    HistoryShape(h);
    var n := |h.segment.series|;
    Sourced(Segment(h.segment.timestamps, seq(n, i requires 0 <= i < n =>
                      var s := h.segment.series[i];
                      var tail := FindTail(tails, s.definition.name);
                      if tail.None? then s else WithTail(s, tail.value))),
            seq(n, i requires 0 <= i < n =>
              HistorySource(h, i);
              var name := h.segment.series[i].definition.name;
              var stored := FindSource(h.provenance, name).value;
              if FindTail(tails, name).None? then stored
              else Provenance(InHistory, name, FromHistoryAndLive, stored.sourceRef, asOf, None)))
  }

  lemma LiveStep(m: PointBinding, rest: seq<PointBinding>)
    ensures Live([m] + rest) == (if m.liveTail then [m] else []) + Live(rest)
  {
    assert ([m] + rest)[1..] == rest;
  }

  lemma {:induction false} LiveJoins(a: seq<PointBinding>, b: seq<PointBinding>)
    ensures Live(a + b) == Live(a) + Live(b)
  {
    if a == [] {
      assert a + b == b;
    } else {
      hide Live;
      var m, rest := a[0], a[1..];
      LiveJoins(rest, b);
      assert a == [m] + rest && a + b == [m] + (rest + b);
      LiveStep(m, rest);
      LiveStep(m, rest + b);
    }
  }

  /** The live-tail mappings are the marked ones, in order. */
  lemma LiveIsFilter(a: seq<PointBinding>, m: PointBinding, b: seq<PointBinding>)
    ensures Live(a + [m] + b) == Live(a) + (if m.liveTail then [m] else []) + Live(b)
  {
    LiveJoins(a + [m], b);
    LiveJoins(a, [m]);
    assert [m][1..] == [] && Live([m]) == if m.liveTail then [m] else [];
  }

  /** The first live-tail mapping for a feature. */
  predicate FirstFor(live: seq<PointBinding>, name: string, k: nat) {
    && k < |live| && live[k].feature == name && forall j :: 0 <= j < k ==> live[j].feature != name
  }

  lemma {:induction false} FirstTail(tails: seq<Tail>, name: string, k: nat)
    requires k < |tails| && tails[k].feature == name && forall j :: 0 <= j < k ==> tails[j].feature != name
    ensures FindTail(tails, name) == Some(tails[k])
  {
    if k > 0 { FirstTail(tails[1..], name, k - 1); }
  }

  lemma {:induction false} NoTail(tails: seq<Tail>, name: string)
    requires forall j :: 0 <= j < |tails| ==> tails[j].feature != name
    ensures FindTail(tails, name) == None
  {
    if tails != [] { NoTail(tails[1..], name); }
  }

  lemma TailsSay(mappings: seq<PointBinding>, asOf: nat, h: Sourced, read: Option<seq<Option<LiveSample>>>, k: nat)
    requires TailReady(mappings, asOf, h, read) && k < |Live(mappings)|
    ensures read.value[k].Some? && read.value[k].value.value.Some?
    ensures var tail, sample := Tails(mappings, asOf, h, read)[k], read.value[k].value;
      && tail.feature == Live(mappings)[k].feature && tail.value == sample.value.value
      && (sample.quality.PointGood? ==> tail.quality == Good)
      && (sample.quality.PointUncertain? ==> tail.quality == Uncertain)
  {
    assert Acceptable(Live(mappings)[k], read.value[k], asOf);
  }

  predicate Unmapped(live: seq<PointBinding>, name: string) { forall j :: 0 <= j < |live| ==> live[j].feature != name }

  /** The last cell is the sample's, with its quality, and the other cells are as stored. */
  predicate EndsIn(s: Series, t: Series, sample: LiveSample) {
    var n := |s.values| - 1;
    && n >= 0 && t.definition == s.definition && |t.values| == |t.quality| == |s.quality| == n + 1
    && t.values[..n] == s.values[..n] && t.quality[..n] == s.quality[..n]
    && sample.value.Some? && t.values[n] == Number(sample.value.value)
    && (sample.quality.PointGood? ==> t.quality[n] == Good)
    && (sample.quality.PointUncertain? ==> t.quality[n] == Uncertain)
  }

  predicate SaidLive(p: Provenance, name: string, asOf: nat) {
    && p.segment == InHistory && p.feature == name && p.source == FromHistoryAndLive && p.watermark == asOf
    && p.issuedAt.None?
  }

  lemma TailEnds(s: Series, tail: Tail, sample: LiveSample)
    requires |s.values| == |s.quality| > 0 && sample.value.Some? && tail.value == sample.value.value
    requires sample.quality.PointGood? ==> tail.quality == Good
    requires sample.quality.PointUncertain? ==> tail.quality == Uncertain
    ensures EndsIn(s, WithTail(s, tail), sample)
  {}

  lemma UnmappedSays(mappings: seq<PointBinding>, asOf: nat, h: Sourced, read: Option<seq<Option<LiveSample>>>, i: nat)
    requires ValidHistory(h) && TailReady(mappings, asOf, h, read) && i < |h.segment.series|
    requires Unmapped(Live(mappings), h.segment.series[i].definition.name)
    ensures var m, name := MergeInto(h, asOf, Tails(mappings, asOf, h, read)), h.segment.series[i].definition.name;
      && m.segment.series[i] == h.segment.series[i]
      && m.provenance[i] in h.provenance && m.provenance[i].feature == name
  {
    hide ValidHistory, Live, Tails, FindTail, FindSource, Acceptable;
    HistoryShape(h);
    HistorySource(h, i);
    var live, tails, name := Live(mappings), Tails(mappings, asOf, h, read), h.segment.series[i].definition.name;
    forall j | 0 <= j < |tails| ensures tails[j].feature != name {
      TailsSay(mappings, asOf, h, read, j);
      assert live[j].feature != name;
    }
    NoTail(tails, name);
    var at := FoundSource(h.provenance, name);
    assert h.provenance[at] == MergeInto(h, asOf, tails).provenance[i];
  }

  lemma MappedSays(mappings: seq<PointBinding>, asOf: nat, h: Sourced, read: Option<seq<Option<LiveSample>>>, i: nat,
                   k: nat)
    requires ValidHistory(h) && TailReady(mappings, asOf, h, read) && i < |h.segment.series|
    requires FirstFor(Live(mappings), h.segment.series[i].definition.name, k)
    ensures var m, s := MergeInto(h, asOf, Tails(mappings, asOf, h, read)), h.segment.series[i];
      && read.value[k].Some? && EndsIn(s, m.segment.series[i], read.value[k].value)
      && SaidLive(m.provenance[i], s.definition.name, asOf)
  {
    hide ValidHistory, Live, Tails, FindTail, FindSource, Acceptable, EndsIn, WithTail;
    HistoryShape(h);
    HistorySource(h, i);
    var live, tails, name := Live(mappings), Tails(mappings, asOf, h, read), h.segment.series[i].definition.name;
    forall j | 0 <= j < k ensures tails[j].feature != name {
      TailsSay(mappings, asOf, h, read, j);
      assert live[j].feature != name;
    }
    TailsSay(mappings, asOf, h, read, k);
    FirstTail(tails, name, k);
    TailEnds(h.segment.series[i], tails[k], read.value[k].value);
  }

  /** What a ready live tail does to one series: without a live-tail mapping series and source stay as they are. With
      one, the last cell becomes the sample of the first such mapping, with its quality, the other cells stay, and the
      source is said to be history and live at the cutoff. */
  lemma MergedSays(mappings: seq<PointBinding>, asOf: nat, h: Sourced, read: Option<seq<Option<LiveSample>>>, i: nat,
                   k: nat)
    requires ValidHistory(h) && TailReady(mappings, asOf, h, read) && i < |h.segment.series|
    ensures var m, s, live := MergeInto(h, asOf, Tails(mappings, asOf, h, read)), h.segment.series[i], Live(mappings);
            var t, p, name := m.segment.series[i], m.provenance[i], s.definition.name;
      && m.segment.timestamps == h.segment.timestamps
      && (Unmapped(live, name) ==> t == s && p in h.provenance && p.feature == name)
      && (FirstFor(live, name, k) ==>
            read.value[k].Some? && EndsIn(s, t, read.value[k].value) && SaidLive(p, name, asOf))
  {
    hide ValidHistory, Live, Tails, Unmapped, FirstFor, EndsIn, SaidLive, TailReady;
    var live, name := Live(mappings), h.segment.series[i].definition.name;
    if Unmapped(live, name) { UnmappedSays(mappings, asOf, h, read, i); }
    if FirstFor(live, name, k) { MappedSays(mappings, asOf, h, read, i, k); }
  }

  lemma MergedIsMergeInto(h: Sourced, m: Sourced, asOf: nat, tails: seq<Tail>)
    requires ValidHistory(h) && Merged(h, m, asOf, tails, |h.segment.series|)
    ensures m == MergeInto(h, asOf, tails)
  {
    hide ValidHistory, ValidSeries;
    HistoryShape(h);
    var k := MergeInto(h, asOf, tails);
    forall i | 0 <= i < |h.segment.series|
      ensures m.segment.series[i] == k.segment.series[i] && m.provenance[i] == k.provenance[i]
    {
      assert MergedAt(h, m, asOf, tails, i);
    }
    assert m.segment.series == k.segment.series && m.provenance == k.provenance;
  }

  lemma MergedGrows(h: Sourced, m: Sourced, s: Series, p: Provenance, asOf: nat, tails: seq<Tail>)
    requires ValidHistory(h) && |m.segment.series| < |h.segment.series|
    requires Merged(h, m, asOf, tails, |m.segment.series|)
    requires var stored := h.segment.series[|m.segment.series|];
      |stored.values| == |stored.quality| > 0 && ValidSeries(s) && SeriesMerged(stored, s, tails)
        && SourceMerged(p, stored, h, asOf, tails)
    ensures Merged(h, Sourced(Segment(h.segment.timestamps, m.segment.series + [s]), m.provenance + [p]), asOf, tails,
                   |m.segment.series| + 1)
  {
    hide ValidHistory, ValidSeries, SeriesMerged, SourceMerged;
    var more := Sourced(Segment(h.segment.timestamps, m.segment.series + [s]), m.provenance + [p]);
    forall i | 0 <= i < |m.segment.series| + 1 ensures MergedAt(h, more, asOf, tails, i) {
      if i < |m.segment.series| { assert MergedAt(h, m, asOf, tails, i); }
    }
  }

  // ---------------------------------------------------------------- what a merge leaves alone

  /** Only the last cell of a mapped series changes, and it becomes usable. */
  lemma OnlyTheLastCell(s: Series, t: Series, tails: seq<Tail>)
    requires |s.values| == |s.quality| > 0 && SeriesMerged(s, t, tails) && AllUsable(tails)
    ensures t.definition == s.definition && |t.values| == |t.quality| == |s.values|
    ensures forall i :: 0 <= i < |s.values| - 1 ==> t.values[i] == s.values[i] && t.quality[i] == s.quality[i]
    ensures t != s ==>
      Usable(t.values[|t.values| - 1], t.quality[|t.quality| - 1]) && FindTail(tails, s.definition.name).Some?
  {
    TailsFound(tails, s.definition.name);
  }

  lemma {:induction false} TailsFound(tails: seq<Tail>, feature: string)
    requires AllUsable(tails)
    ensures FindTail(tails, feature).Some? ==> FindTail(tails, feature).value.quality in {Good, Uncertain}
  {
    if tails != [] && tails[0].feature != feature { TailsFound(tails[1..], feature); }
  }

  lemma {:induction false} FoldIgnoresLater(times: seq<nat>, a: seq<bool>, b: seq<bool>, start: nat, cadence: nat,
                                            n: nat)
    requires n <= |times| == |a| == |b| && forall i :: 0 <= i < n ==> a[i] == b[i]
    ensures GapFold(times, a, start, cadence, n) == GapFold(times, b, start, cadence, n)
  {
    if n > 0 { FoldIgnoresLater(times, a, b, start, cadence, n - 1); }
  }

  /** Whether the last label is usable makes no difference: its stretch ends at the window's end either way. */
  lemma LastLabelDoesNotMatter(times: seq<nat>, a: seq<bool>, b: seq<bool>, start: nat, cadence: nat)
    requires |times| == |a| == |b| > 0 && forall i :: 0 <= i < |times| - 1 ==> a[i] == b[i]
    ensures SeriesGap(times, a, start, cadence) == SeriesGap(times, b, start, cadence)
  {
    FoldIgnoresLater(times, a, b, start, cadence, |times| - 1);
  }

  lemma {:induction false} MergeKeepsGapOfFirst(h: Sourced, m: Sourced, asOf: nat, tails: seq<Tail>, cadence: nat,
                                                n: nat)
    requires ValidHistory(h) && Merged(h, m, asOf, tails, |h.segment.series|) && AllUsable(tails)
      && n <= |h.segment.series|
    requires h.segment.timestamps != [] && Aligned(h.segment) && Aligned(m.segment)
    ensures GapOfFirst(m.segment, cadence, n) == GapOfFirst(h.segment, cadence, n)
  {
    hide ValidHistory, SeriesGap;
    if n > 0 {
      MergeKeepsGapOfFirst(h, m, asOf, tails, cadence, n - 1);
      assert MergedAt(h, m, asOf, tails, n - 1);
      OnlyTheLastCell(h.segment.series[n - 1], m.segment.series[n - 1], tails);
      LastLabelDoesNotMatter(h.segment.timestamps, UsableFlags(h.segment.series[n - 1]),
                             UsableFlags(m.segment.series[n - 1]), WindowStart(h.segment, cadence), cadence);
    }
  }

  lemma MergedIsAligned(h: Sourced, m: Sourced, asOf: nat, tails: seq<Tail>)
    requires ValidHistory(h) && Merged(h, m, asOf, tails, |h.segment.series|) && AllUsable(tails)
    ensures h.segment.timestamps != [] && Aligned(h.segment) && Aligned(m.segment)
  {
    HistoryShape(h);
    forall i | 0 <= i < |m.segment.series|
      ensures |m.segment.series[i].values| == |m.segment.series[i].quality| == |m.segment.timestamps|
    {
      assert MergedAt(h, m, asOf, tails, i);
      OnlyTheLastCell(h.segment.series[i], m.segment.series[i], tails);
    }
  }

  /** A merged live tail leaves the observation gap exactly as it was. */
  lemma MergeKeepsGap(h: Sourced, m: Sourced, asOf: nat, tails: seq<Tail>, cadence: nat)
    requires ValidHistory(h) && Merged(h, m, asOf, tails, |h.segment.series|) && AllUsable(tails)
    ensures Aligned(h.segment) && Aligned(m.segment) && MaximumGap(m.segment, cadence) == MaximumGap(h.segment, cadence)
  {
    hide ValidHistory, GapOfFirst;
    MergedIsAligned(h, m, asOf, tails);
    MergeKeepsGapOfFirst(h, m, asOf, tails, cadence, |h.segment.series|);
  }

  // ---------------------------------------------------------------- counting cells

  function CountQuality(quality: seq<SampleQuality>, q: SampleQuality): nat {
    if quality == [] then 0
    else CountQuality(quality[..|quality| - 1], q) + if quality[|quality| - 1] == q then 1 else 0
  }

  function CountInSeries(series: seq<Series>, q: SampleQuality): nat {
    if series == [] then 0 else CountInSeries(series[..|series| - 1], q) + CountQuality(series[|series| - 1].quality, q)
  }

  function CountInStatics(statics: seq<Static>, q: SampleQuality): nat {
    if statics == [] then 0
    else CountInStatics(statics[..|statics| - 1], q) + if statics[|statics| - 1].quality == q then 1 else 0
  }

  function CellsOf(series: seq<Series>): nat {
    if series == [] then 0 else CellsOf(series[..|series| - 1]) + |series[|series| - 1].values|
  }

  function SeriesOf(s: Option<Segment>): seq<Series> { if s.Some? then s.value.series else [] }

  method CountSegment(series: seq<Series>, cells0: nat, missing0: nat, substituted0: nat)
    returns (cells: nat, missing: nat, substituted: nat)
    ensures cells == cells0 + CellsOf(series)
    ensures missing == missing0 + CountInSeries(series, Missing)
    ensures substituted == substituted0 + CountInSeries(series, Substituted)
  {
    cells, missing, substituted := cells0, missing0, substituted0;
    for n := 0 to |series|
      invariant cells == cells0 + CellsOf(series[..n])
      invariant missing == missing0 + CountInSeries(series[..n], Missing)
      invariant substituted == substituted0 + CountInSeries(series[..n], Substituted)
    {
      assert series[..n + 1][..n] == series[..n];
      cells := cells + |series[n].values|;
      missing := missing + CountQuality(series[n].quality, Missing);
      substituted := substituted + CountQuality(series[n].quality, Substituted);
    }
    assert series[..|series|] == series;
  }

  method FrameCellCounts(history: Segment, future: Option<Segment>, statics: seq<Static>)
    returns (missing: nat, substituted: nat, cells: nat)
    ensures cells == CellsOf(history.series) + CellsOf(SeriesOf(future)) + |statics|
    ensures missing == CountInSeries(history.series, Missing) + CountInSeries(SeriesOf(future), Missing)
      + CountInStatics(statics, Missing)
    ensures substituted == CountInSeries(history.series, Substituted) + CountInSeries(SeriesOf(future), Substituted)
      + CountInStatics(statics, Substituted)
  {
    cells, missing, substituted := CountSegment(history.series, 0, 0, 0);
    cells, missing, substituted := CountSegment(SeriesOf(future), cells, missing, substituted);
    cells := cells + |statics|;
    missing := missing + CountInStatics(statics, Missing);
    substituted := substituted + CountInStatics(statics, Substituted);
  }

  lemma LastCellMissing(s: Series, t: Series, tails: seq<Tail>)
    requires |s.values| == |s.quality| > 0 && SeriesMerged(s, t, tails) && AllUsable(tails)
    ensures CountQuality(t.quality, Missing) <= CountQuality(s.quality, Missing)
  {
    OnlyTheLastCell(s, t, tails);
    assert t.quality[..|t.quality| - 1] == s.quality[..|s.quality| - 1];
  }

  /** A merged live tail never raises the number of missing cells. */
  lemma {:induction false} MergeNeverAddsMissing(h: Sourced, m: Sourced, asOf: nat, tails: seq<Tail>, n: nat)
    requires ValidHistory(h) && Merged(h, m, asOf, tails, |h.segment.series|) && AllUsable(tails)
      && n <= |h.segment.series|
    ensures CountInSeries(m.segment.series[..n], Missing) <= CountInSeries(h.segment.series[..n], Missing)
  {
    hide ValidHistory, CountQuality;
    if n > 0 {
      MergeNeverAddsMissing(h, m, asOf, tails, n - 1);
      assert m.segment.series[..n][..n - 1] == m.segment.series[..n - 1]
        && h.segment.series[..n][..n - 1] == h.segment.series[..n - 1];
      assert MergedAt(h, m, asOf, tails, n - 1);
      HistoryShape(h);
      LastCellMissing(h.segment.series[n - 1], m.segment.series[n - 1], tails);
    }
  }
}
