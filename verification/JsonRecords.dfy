/** Structs serialized as JSON objects, and how the size of the object follows the sizes of its fields. */
module JsonRecords {
  import opened Wrappers
  import opened CanonicalJson

  /** Serializes a struct: its field names, and a value for each field that is not skipped. */
  function RecordJson(names: seq<string>, values: seq<Option<Json>>): Json
    requires |names| == |values|
  {
    Object(RecordMembers(names, values))
  }

  function RecordMembers(names: seq<string>, values: seq<Option<Json>>): seq<Member>
    requires |names| == |values|
  {
    if names == [] then []
    else (if values[0].Some? then [Member(names[0], values[0].value)] else []) + RecordMembers(names[1..], values[1..])
  }

  function Field(text: string): Option<Json> { Some(Str(text)) }

  function OptionField(text: Option<string>): Option<Json> { if text.Some? then Some(Str(text.value)) else None }

  // ---------------------------------------------------------------- reading a field by its name

  function Lookup(value: Json, name: string): Option<Json> {
    if !value.Object? then None else LookupMember(value.members, name)
  }

  function LookupMember(members: seq<Member>, name: string): Option<Json> {
    if members == [] then None
    else if members[0].name == name then Some(members[0].value)
    else LookupMember(members[1..], name)
  }

  predicate DistinctFields(names: seq<string>) { forall i, j :: 0 <= i < j < |names| ==> names[i] != names[j] }

  lemma SkipField(names: seq<string>, values: seq<Option<Json>>, name: string)
    requires |names| == |values| && names != [] && (names[0] == name ==> values[0].None?)
    ensures LookupMember(RecordMembers(names, values), name)
         == LookupMember(RecordMembers(names[1..], values[1..]), name)
  {
    var rest := RecordMembers(names[1..], values[1..]);
    if values[0].Some? {
      assert RecordMembers(names, values)[1..] == rest;
    } else {
      assert RecordMembers(names, values) == rest;
    }
  }

  lemma {:induction false} NoSuchField(names: seq<string>, values: seq<Option<Json>>, name: string)
    requires |names| == |values| && name !in names
    ensures LookupMember(RecordMembers(names, values), name) == None
  {
    if names != [] {
      SkipField(names, values, name);
      NoSuchField(names[1..], values[1..], name);
    }
  }

  /** A reader finds each field of a struct under its name, and nothing under the name of a skipped one. */
  lemma {:induction false} FieldReads(names: seq<string>, values: seq<Option<Json>>, i: nat)
    requires |names| == |values| && DistinctFields(names) && i < |names|
    ensures Lookup(RecordJson(names, values), names[i]) == values[i]
  {
    if i > 0 {
      SkipField(names, values, names[i]);
      FieldReads(names[1..], values[1..], i - 1);
    } else if values[0].None? {
      SkipField(names, values, names[0]);
      NoSuchField(names[1..], values[1..], names[0]);
    }
  }

  // ---------------------------------------------------------------- sizes

  /** A field skipped, or printed in no more bytes. */
  predicate ValueLeq(a: Option<Json>, b: Option<Json>) {
    a.None? || (b.Some? && Size(a.value) <= Size(b.value))
  }

  function FieldWeight(name: string, value: Option<Json>): nat {
    if value.Some? then QuotedSize(name) + 1 + Size(value.value) + 1 else 0
  }

  lemma RecordWeight(names: seq<string>, values: seq<Option<Json>>)
    requires |names| == |values| && names != []
    ensures MembersWeight(RecordMembers(names, values))
         == FieldWeight(names[0], values[0]) + MembersWeight(RecordMembers(names[1..], values[1..]))
  {
    if values[0].Some? {
      assert RecordMembers(names, values)[1..] == RecordMembers(names[1..], values[1..]);
    } else {
      assert RecordMembers(names, values) == RecordMembers(names[1..], values[1..]);
    }
  }

  lemma {:induction false} MembersDominate(names: seq<string>, a: seq<Option<Json>>, b: seq<Option<Json>>)
    requires |names| == |a| == |b| && forall i :: 0 <= i < |a| ==> ValueLeq(a[i], b[i])
    ensures MembersWeight(RecordMembers(names, a)) <= MembersWeight(RecordMembers(names, b))
  {
    if names != [] {
      MembersDominate(names[1..], a[1..], b[1..]);
      assert ValueLeq(a[0], b[0]);
      RecordWeight(names, a);
      RecordWeight(names, b);
    }
  }

  lemma RecordsDominate(names: seq<string>, a: seq<Option<Json>>, b: seq<Option<Json>>)
    requires |names| == |a| == |b| && forall i :: 0 <= i < |a| ==> ValueLeq(a[i], b[i])
    ensures Size(RecordJson(names, a)) <= Size(RecordJson(names, b))
  {
    MembersDominate(names, a, b);
  }

  lemma {:induction false} MembersReplace(names: seq<string>, values: seq<Option<Json>>, i: nat, v: Json)
    requires |names| == |values| && i < |values| && values[i].Some?
    ensures MembersWeight(RecordMembers(names, values[i := Some(v)])) + Size(values[i].value)
         == MembersWeight(RecordMembers(names, values)) + Size(v)
    ensures MembersWeight(RecordMembers(names, values)) > Size(values[i].value)
  {
    var changed := values[i := Some(v)];
    RecordWeight(names, values);
    RecordWeight(names, changed);
    if i > 0 {
      MembersReplace(names[1..], values[1..], i - 1, v);
      assert changed[1..] == values[1..][i - 1 := Some(v)];
    } else {
      assert changed[1..] == values[1..];
    }
  }

  /** Replacing one field's value changes the size by the difference of the two values, and the object is longer than
      each of its values. */
  lemma RecordReplace(names: seq<string>, values: seq<Option<Json>>, i: nat, v: Json)
    requires |names| == |values| && i < |values| && values[i].Some?
    ensures Size(RecordJson(names, values[i := Some(v)])) + Size(values[i].value) == Size(RecordJson(names, values))
      + Size(v)
    ensures Size(values[i].value) <= Size(RecordJson(names, values))
  {
    MembersReplace(names, values, i, v);
    MembersReplace(names, values[i := Some(v)], i, v);
  }

  const MAX_NAME: nat := 32

  predicate ShortNames(names: seq<string>) {
    forall i :: 0 <= i < |names| ==> |names[i]| <= MAX_NAME
  }

  predicate Within(value: Option<Json>, cap: nat) { value.Some? ==> Size(value.value) <= cap }

  lemma {:induction false} MembersBounded(names: seq<string>, values: seq<Option<Json>>, cap: nat, big: nat, at: nat)
    requires |names| == |values| && ShortNames(names)
    requires forall i :: 0 <= i < |values| && i != at ==> Within(values[i], cap)
    requires at < |values| ==> Within(values[at], big)
    ensures MembersWeight(RecordMembers(names, values))
         <= (cap + 6 * MAX_NAME + 4) * |names| + if at < |values| then big else 0
  {
    if names != [] {
      RecordWeight(names, values);
      SizeBound(names[0]);
      if at == 0 {
        MembersBounded(names[1..], values[1..], cap, big, |values| - 1);
        OneMoreField(cap, |names|, FieldWeight(names[0], values[0]), big,
                     MembersWeight(RecordMembers(names[1..], values[1..])), 0);
      } else {
        MembersBounded(names[1..], values[1..], cap, big, at - 1);
        OneMoreField(cap, |names|, FieldWeight(names[0], values[0]), 0,
                     MembersWeight(RecordMembers(names[1..], values[1..])), if at < |values| then big else 0);
      }
    }
  }

  lemma OneMoreField(cap: nat, n: nat, first: nat, extra: nat, rest: nat, big: nat)
    requires n > 0 && first <= cap + 6 * MAX_NAME + 4 + extra && rest <= (cap + 6 * MAX_NAME + 4) * (n - 1) + big
    ensures first + rest <= (cap + 6 * MAX_NAME + 4) * n + extra + big
  {}

  /** An object whose fields are all small but one. */
  lemma RecordBounded(names: seq<string>, values: seq<Option<Json>>, cap: nat, big: nat, at: nat)
    requires |names| == |values| && ShortNames(names)
    requires forall i :: 0 <= i < |values| && i != at ==> Within(values[i], cap)
    requires at < |values| ==> Within(values[at], big)
    ensures Size(RecordJson(names, values)) <= 2 + (cap + 6 * MAX_NAME + 4) * |names| + if at < |values| then big else 0
  {
    MembersBounded(names, values, cap, big, at);
  }
}
