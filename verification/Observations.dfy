/** The Integration v1alpha1 observation batch: its closed wire shape, its validation, and how long one validated
    observation can be. */
module Observations {
  import opened Wrappers
  import opened CanonicalJson
  import opened JsonRecords
  import opened Decimals
  import CloudLink
  import Base64Url

  const SCHEMA: string := "aether.integration.observation-batch.v1alpha1"
  const MAX_OBSERVATIONS: nat := 65_536
  const MAX_INTEGRATION_BYTES: nat := 16 * 1024 * 1024
  const MAX_STRING_CHARS: nat := 4_096
  const MAX_DIAGNOSTIC_CHARS: nat := 512
  const MAX_FLOAT_CHARS: nat := 25

  datatype ValueType = Boolean | Int64 | UInt64 | Float64 | Decimal | String | Bytes

  /** A float is carried as the text the canonical form prints for it. */
  datatype ObservedValue =
    | BooleanValue(truth: bool)
    | Int64Value(text: string)
    | UInt64Value(text: string)
    | Float64Value(text: string)
    | DecimalValue(text: string)
    | StringValue(text: string)
    | BytesValue(encoding: string, text: string)

  datatype Quality = Good | Uncertain | Bad | Unavailable

  datatype Observation = Observation(entityId: string, pointKey: string, observedAt: string, quality: Quality,
                                     value: Option<ObservedValue>, diagnostic: Option<string>)

  datatype Batch = Batch(schema: string, integrationId: string, generation: string, batchId: string, observedAt: string,
                         observations: seq<Observation>)

  datatype Point = Point(key: string, valueType: ValueType)
  datatype Entity = Entity(id: string, points: seq<Point>)

  /** `valid` is the verdict of the topology's own validation. */
  datatype Topology = Topology(integrationId: string, generation: string, entities: seq<Entity>, valid: bool)

  // ---------------------------------------------------------------- validation

  function TypeOf(v: ObservedValue): ValueType {
    match v
    case BooleanValue(_) => Boolean
    case Int64Value(_) => Int64
    case UInt64Value(_) => UInt64
    case Float64Value(_) => Float64
    case DecimalValue(_) => Decimal
    case StringValue(_) => String
    case BytesValue(_, _) => Bytes
  }

  predicate CanonicalI64(s: string) {
    && |s| <= 20 && s != "-0" && Numeral(Unsigned(s))
    && Value(Unsigned(s)) <= if Unsigned(s) == s then 0x7FFF_FFFF_FFFF_FFFF else 0x8000_0000_0000_0000
  }

  predicate Ascii(s: string) { forall i :: 0 <= i < |s| ==> s[i] < '\U{80}' }

  predicate ValidValue(v: ObservedValue) {
    match v
    case BooleanValue(_) => true
    case Int64Value(text) => CanonicalI64(text)
    case UInt64Value(text) => ContractU64(text).Ok?
    case Float64Value(text) => |text| <= MAX_FLOAT_CHARS && Ascii(text)
    case DecimalValue(text) => CanonicalDecimal(text).Ok?
    case StringValue(text) => |text| <= MAX_STRING_CHARS
    case BytesValue(encoding, text) => encoding == "base64url" && Base64Url.CanonicalBase64Url(text).Ok?
  }

  predicate EvidenceText(s: string, maximum: nat) {
    && 0 < |s| <= maximum
    && (forall i :: 0 <= i < |s| ==> s[i] >= ' ' && s[i] != '\U{7f}')
    && (exists i :: 0 <= i < |s| && !Whitespace(s[i]))
  }

  predicate ValidObservation(o: Observation) {
    && CloudLink.Identifier(o.entityId, 128) && CloudLink.Identifier(o.pointKey, 128)
    && ContractU64(o.observedAt).Ok?
    && (o.diagnostic.Some? ==> EvidenceText(o.diagnostic.value, MAX_DIAGNOSTIC_CHARS))
    && (o.value.Some? ==> ValidValue(o.value.value))
    && (o.value.Some? <==> o.quality in {Good, Uncertain})
  }

  predicate ValidBatch(b: Batch) {
    && b.schema == SCHEMA && CloudLink.Identifier(b.integrationId, 128) && ContractU64(b.generation).Ok?
    && CloudLink.Identifier(b.batchId, 128) && ContractU64(b.observedAt).Ok?
    && 0 < |b.observations| <= MAX_OBSERVATIONS
    && forall i :: 0 <= i < |b.observations| ==> ValidObservation(b.observations[i])
  }

  predicate Declared(t: Topology, o: Observation) {
    var entity := First(t.entities, (e: Entity) => e.id == o.entityId);
    && entity.Some?
    && (var point := First(entity.value.points, (p: Point) => p.key == o.pointKey);
        point.Some? && (o.value.Some? ==> TypeOf(o.value.value) == point.value.valueType))
  }

  predicate EntitiesUnique(t: Topology) {
    && (forall i, j :: 0 <= i < j < |t.entities| ==> t.entities[i].id != t.entities[j].id)
    && forall i :: 0 <= i < |t.entities| ==> PointsUnique(t.entities[i])
  }

  predicate PointsUnique(e: Entity) { forall i, j :: 0 <= i < j < |e.points| ==> e.points[i].key != e.points[j].key }

  predicate DeclaresAt(t: Topology, o: Observation, i: nat, j: nat) {
    && i < |t.entities| && j < |t.entities[i].points| && t.entities[i].id == o.entityId
    && t.entities[i].points[j].key == o.pointKey
    && (o.value.Some? ==> t.entities[i].points[j].valueType == TypeOf(o.value.value))
  }

  /** In a topology without repeated ids or keys an observation is declared exactly if some entity has its id, and in it
      some point its key and the type of its value. */
  lemma DeclaredIff(t: Topology, o: Observation)
    requires EntitiesUnique(t)
    ensures Declared(t, o) <==> exists i: nat, j: nat :: DeclaresAt(t, o, i, j)
  {
    var entity := First(t.entities, (e: Entity) => e.id == o.entityId);
    if entity.Some? {
      var point := First(entity.value.points, (p: Point) => p.key == o.pointKey);
      if Declared(t, o) {
        var i :| 0 <= i < |t.entities| && t.entities[i] == entity.value;
        var j :| 0 <= j < |t.entities[i].points| && t.entities[i].points[j] == point.value;
        assert DeclaresAt(t, o, i, j);
      }
    }
    if i: nat, j: nat :| DeclaresAt(t, o, i, j) { DeclaredAt(t, o, i, j); }
  }

  lemma DeclaredAt(t: Topology, o: Observation, i: nat, j: nat)
    requires EntitiesUnique(t) && DeclaresAt(t, o, i, j)
    ensures Declared(t, o)
  {
    var entity := First(t.entities, (e: Entity) => e.id == o.entityId);
    assert entity == Some(t.entities[i]);
    assert PointsUnique(t.entities[i]);
    assert First(entity.value.points, (p: Point) => p.key == o.pointKey) == Some(t.entities[i].points[j]);
  }

  predicate ValidAgainst(b: Batch, t: Topology) {
    && t.valid && ValidBatch(b)
    && b.integrationId == t.integrationId && b.generation == t.generation
    && forall i :: 0 <= i < |b.observations| ==> Declared(t, b.observations[i])
  }

  // ---------------------------------------------------------------- JSON

  function TypeName(v: ObservedValue): string {
    match TypeOf(v)
    case Boolean => "boolean"
    case Int64 => "int64"
    case UInt64 => "uint64"
    case Float64 => "float64"
    case Decimal => "decimal"
    case String => "string"
    case Bytes => "bytes"
  }

  const VALUE_FIELDS: seq<string> := ["type", "encoding", "value"]

  function PlainValueJson(v: ObservedValue): Json {
    match v
    case BooleanValue(truth) => Bool(truth)
    case Float64Value(text) => Number(text)
    case _ => Str(v.text)
  }

  function ValueJson(v: ObservedValue): Json {
    RecordJson(VALUE_FIELDS,
      [Field(TypeName(v)), if v.BytesValue? then Field(v.encoding) else None, Some(PlainValueJson(v))])
  }

  function QualityName(q: Quality): string {
    match q
    case Good => "good"
    case Uncertain => "uncertain"
    case Bad => "bad"
    case Unavailable => "unavailable"
  }

  const OBSERVATION_FIELDS: seq<string> :=
    ["entity_id", "point_key", "observed_at_ms", "quality", "value", "diagnostic"]

  function ObservationValues(o: Observation): (values: seq<Option<Json>>)
    ensures |values| == 6
  {
    [Field(o.entityId), Field(o.pointKey), Field(o.observedAt), Field(QualityName(o.quality)),
     if o.value.Some? then Some(ValueJson(o.value.value)) else None, OptionField(o.diagnostic)]
  }

  function ObservationJson(o: Observation): Json { RecordJson(OBSERVATION_FIELDS, ObservationValues(o)) }

  function ObservationJsons(observations: seq<Observation>): (items: seq<Json>)
    ensures |items| == |observations|
    ensures forall i :: 0 <= i < |items| ==> items[i] == ObservationJson(observations[i])
  {
    seq(|observations|, i requires 0 <= i < |observations| => ObservationJson(observations[i]))
  }

  const BATCH_FIELDS: seq<string> :=
    ["schema", "integration_id", "snapshot_generation", "batch_id", "observed_at_ms", "observations"]

  function BatchValues(b: Batch, items: seq<Json>): (values: seq<Option<Json>>)
    ensures |values| == 6 && values[5] == Some(Array(items))
  {
    [Field(b.schema), Field(b.integrationId), Field(b.generation), Field(b.batchId), Field(b.observedAt),
     Some(Array(items))]
  }

  /** The batch with other items in place of its observations. */
  function PayloadJson(b: Batch, items: seq<Json>): Json { RecordJson(BATCH_FIELDS, BatchValues(b, items)) }

  function BatchJson(b: Batch): Json { PayloadJson(b, ObservationJsons(b.observations)) }

  // ---------------------------------------------------------------- what a reader finds

  lemma BatchFieldsDistinct()
    ensures DistinctFields(BATCH_FIELDS)
  {}

  /** A batch on the wire, by the names of the contract. */
  lemma BatchReads(b: Batch)
    ensures var j := BatchJson(b);
      && Lookup(j, "schema") == Some(Str(b.schema)) && Lookup(j, "integration_id") == Some(Str(b.integrationId))
      && Lookup(j, "snapshot_generation") == Some(Str(b.generation)) && Lookup(j, "batch_id") == Some(Str(b.batchId))
      && Lookup(j, "observed_at_ms") == Some(Str(b.observedAt))
      && Lookup(j, "observations") == Some(Array(ObservationJsons(b.observations)))
  {
    hide RecordMembers, LookupMember, ObservationJson, RecordJson, Lookup, DistinctFields;
    BatchFieldsDistinct();
    var values := BatchValues(b, ObservationJsons(b.observations));
    FieldReads(BATCH_FIELDS, values, 0);
    FieldReads(BATCH_FIELDS, values, 1);
    FieldReads(BATCH_FIELDS, values, 2);
    FieldReads(BATCH_FIELDS, values, 3);
    FieldReads(BATCH_FIELDS, values, 4);
    FieldReads(BATCH_FIELDS, values, 5);
  }

  lemma ObservationFieldsDistinct()
    ensures DistinctFields(OBSERVATION_FIELDS) && DistinctFields(VALUE_FIELDS)
  {}

  /** One observation on the wire. A quality is one of four words; what is absent has no member. */
  lemma ObservationReads(o: Observation)
    ensures var j := ObservationJson(o);
      && Lookup(j, "entity_id") == Some(Str(o.entityId)) && Lookup(j, "point_key") == Some(Str(o.pointKey))
      && Lookup(j, "observed_at_ms") == Some(Str(o.observedAt))
      && Lookup(j, "value") == (if o.value.Some? then Some(ValueJson(o.value.value)) else None)
      && Lookup(j, "diagnostic") == (if o.diagnostic.Some? then Some(Str(o.diagnostic.value)) else None)
      && (o.quality == Good <==> Lookup(j, "quality") == Some(Str("good")))
      && (o.quality == Uncertain <==> Lookup(j, "quality") == Some(Str("uncertain")))
      && (o.quality == Bad <==> Lookup(j, "quality") == Some(Str("bad")))
      && (o.quality == Unavailable <==> Lookup(j, "quality") == Some(Str("unavailable")))
  {
    hide RecordMembers, LookupMember, ValueJson, RecordJson, Lookup, DistinctFields;
    ObservationFieldsDistinct();
    var values := ObservationValues(o);
    FieldReads(OBSERVATION_FIELDS, values, 0);
    FieldReads(OBSERVATION_FIELDS, values, 1);
    FieldReads(OBSERVATION_FIELDS, values, 2);
    FieldReads(OBSERVATION_FIELDS, values, 3);
    FieldReads(OBSERVATION_FIELDS, values, 4);
    FieldReads(OBSERVATION_FIELDS, values, 5);
  }

  /** A typed value on the wire: its type by name, and integers, decimals, strings and bytes as text. */
  lemma ValueReads(v: ObservedValue)
    ensures var j := ValueJson(v);
      && Lookup(j, "encoding") == (if v.BytesValue? then Some(Str(v.encoding)) else None)
      && (match v
          case BooleanValue(b) => Lookup(j, "type") == Some(Str("boolean")) && Lookup(j, "value") == Some(Bool(b))
          case Int64Value(t) => Lookup(j, "type") == Some(Str("int64")) && Lookup(j, "value") == Some(Str(t))
          case UInt64Value(t) => Lookup(j, "type") == Some(Str("uint64")) && Lookup(j, "value") == Some(Str(t))
          case Float64Value(t) => Lookup(j, "type") == Some(Str("float64")) && Lookup(j, "value") == Some(Number(t))
          case DecimalValue(t) => Lookup(j, "type") == Some(Str("decimal")) && Lookup(j, "value") == Some(Str(t))
          case StringValue(t) => Lookup(j, "type") == Some(Str("string")) && Lookup(j, "value") == Some(Str(t))
          case BytesValue(_, t) => Lookup(j, "type") == Some(Str("bytes")) && Lookup(j, "value") == Some(Str(t)))
  {
    hide RecordMembers, LookupMember, RecordJson, Lookup, DistinctFields;
    ObservationFieldsDistinct();
    var values := [Field(TypeName(v)), if v.BytesValue? then Field(v.encoding) else None, Some(PlainValueJson(v))];
    FieldReads(VALUE_FIELDS, values, 0);
    FieldReads(VALUE_FIELDS, values, 1);
    FieldReads(VALUE_FIELDS, values, 2);
  }

  lemma ValueJsonUnique(v: ObservedValue, w: ObservedValue)
    requires ValueJson(v) == ValueJson(w)
    ensures v == w
  {
    hide ValueJson, Lookup;
    ValueReads(v);
    ValueReads(w);
  }

  lemma ObservationJsonUnique(o: Observation, p: Observation)
    requires ObservationJson(o) == ObservationJson(p)
    ensures o == p
  {
    hide ObservationJson, ValueJson, Lookup;
    ObservationReads(o);
    ObservationReads(p);
    if o.value.Some? { ValueJsonUnique(o.value.value, p.value.value); }
  }

  /** The wire form binds everything a batch says. */
  lemma BatchJsonUnique(a: Batch, b: Batch)
    requires BatchJson(a) == BatchJson(b)
    ensures a == b
  {
    hide BatchJson, ObservationJson, Lookup;
    BatchReads(a);
    BatchReads(b);
    var x, y := ObservationJsons(a.observations), ObservationJsons(b.observations);
    assert x == y;
    forall i | 0 <= i < |a.observations| ensures a.observations[i] == b.observations[i] {
      assert x[i] == y[i];
      ObservationJsonUnique(a.observations[i], b.observations[i]);
    }
  }

  // ---------------------------------------------------------------- sizes

  /** A payload grows by exactly the weight of its items, less the separator the last one does not need. */
  lemma PayloadSize(b: Batch, items: seq<Json>)
    ensures Size(PayloadJson(b, items)) == Size(PayloadJson(b, [])) + if items == [] then 0 else ItemsWeight(items) - 1
  {
    hide QuotedSize, RecordMembers, MembersWeight;
    RecordReplace(BATCH_FIELDS, BatchValues(b, []), 5, Array(items));
    assert BatchValues(b, [])[5 := Some(Array(items))] == BatchValues(b, items);
    if items != [] { assert ItemsWeight(items) > 0; }
  }

  const STRING_CAP: nat := 6 * 4_096 + 2
  const VALUE_CAP: nat := 2 + (100 + 6 * MAX_NAME + 4) * 3 + STRING_CAP
  const OBSERVATION_CAP: nat := 2 + (3_074 + 6 * MAX_NAME + 4) * 6 + VALUE_CAP

  lemma Base64IsPlain(text: string)
    requires Base64Url.CanonicalBase64Url(text).Ok?
    ensures AllPlain(text) && |text| <= 16_384
  {
    forall i | 0 <= i < |text| ensures Plain(text[i]) {
      assert Base64Url.Index(text[i]).Some?;
    }
  }

  lemma PlainValueBounded(v: ObservedValue)
    requires ValidValue(v)
    ensures Size(PlainValueJson(v)) <= STRING_CAP
  {
    hide QuotedSize, Numeral, Value, Split;
    match v
    case BooleanValue(_) =>
    case Float64Value(text) => AsciiBytes(text);
    case BytesValue(_, text) =>
      Base64IsPlain(text);
      PlainSize(text);
    case StringValue(text) => SizeBound(text);
    case Int64Value(text) => SizeBound(text);
    case UInt64Value(text) => SizeBound(text);
    case DecimalValue(text) => SizeBound(text);
  }

  lemma NameBounded(s: string, n: nat)
    requires |s| <= n
    ensures Size(Str(s)) <= 6 * n + 2
  {
    SizeBound(s);
  }

  lemma ValueBounded(v: ObservedValue)
    requires ValidValue(v)
    ensures Size(ValueJson(v)) <= VALUE_CAP
  {
    hide QuotedSize, RecordMembers, MembersWeight;
    PlainValueBounded(v);
    NameBounded(TypeName(v), 7);
    if v.BytesValue? { NameBounded(v.encoding, 9); }
    RecordBounded(VALUE_FIELDS,
      [Field(TypeName(v)), if v.BytesValue? then Field(v.encoding) else None, Some(PlainValueJson(v))],
      100, STRING_CAP, 2);
  }

  /** No validated observation needs more than about 45 KB. */
  lemma ObservationBounded(o: Observation)
    requires ValidObservation(o)
    ensures Size(ObservationJson(o)) <= OBSERVATION_CAP
  {
    hide QuotedSize, RecordMembers, MembersWeight, ValueJson;
    NameBounded(o.entityId, 128);
    NameBounded(o.pointKey, 128);
    NameBounded(o.observedAt, 20);
    NameBounded(QualityName(o.quality), 11);
    if o.diagnostic.Some? { NameBounded(o.diagnostic.value, 512); }
    if o.value.Some? { ValueBounded(o.value.value); }
    RecordBounded(OBSERVATION_FIELDS, ObservationValues(o), 3_074, VALUE_CAP, 4);
  }

  lemma EmptyPayloadBounded(b: Batch)
    requires |b.schema| <= 128 && |b.integrationId| <= 128 && |b.generation| <= 128
    requires |b.batchId| <= 128 && |b.observedAt| <= 128
    ensures Size(PayloadJson(b, [])) <= 2 + (770 + 6 * MAX_NAME + 4) * 6
  {
    hide QuotedSize, RecordMembers, MembersWeight;
    NameBounded(b.schema, 128);
    NameBounded(b.integrationId, 128);
    NameBounded(b.generation, 128);
    NameBounded(b.batchId, 128);
    NameBounded(b.observedAt, 128);
    RecordBounded(BATCH_FIELDS, BatchValues(b, []), 770, 0, 6);
  }
}
