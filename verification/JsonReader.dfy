/** Reading JSON text back (RFC 8259): the canonical text of a value says the value, with the members of each object in
    canonical order, and a reader finds in it what a reader of the value finds. */
module JsonReader {
  import opened Wrappers
  import opened CanonicalJson
  import opened JsonRecords
  import opened JsonStrings

  // ---------------------------------------------------------------- the reader

  predicate NumberChar(c: char) { '0' <= c <= '9' || c in "+-.eE" }

  /** The longest run of number characters, and what is behind it. */
  function NumberRun(t: string): (r: (string, string))
    ensures r.0 + r.1 == t
  {
    if t == "" || !NumberChar(t[0]) then ("", t)
    else
      var (run, rest) := NumberRun(t[1..]);
      ([t[0]] + run, rest)
  }

  function ReadText(t: string): (r: Option<(string, string)>)
    ensures r.Some? ==> |r.value.1| < |t|
  {
    ReadStringShortens(t);
    ReadString(t)
  }

  lemma {:induction false} ReadStringShortens(t: string)
    ensures ReadString(t).Some? ==> |ReadString(t).value.1| < |t|
    decreases |t|
  {
    if t != "" && t[0] != '\"' {
      ReadStringShortens(t[1..]);
      if |t| >= 2 { ReadStringShortens(t[2..]); }
      if |t| >= 6 { ReadStringShortens(t[6..]); }
    }
  }

  function ReadValue(t: string): (r: Option<(Json, string)>)
    ensures r.Some? ==> |r.value.1| < |t|
    decreases |t|, 0
  {
    if t == "" then None
    else if "null" <= t then Some((Null, t[4..]))
    else if "true" <= t then Some((Bool(true), t[4..]))
    else if "false" <= t then Some((Bool(false), t[5..]))
    else if t[0] == '\"' then
      var s := ReadText(t[1..]);
      if s.None? then None else Some((Str(s.value.0), s.value.1))
    else if t[0] == '[' then
      if "[]" <= t then Some((Array([]), t[2..]))
      else
        var items := ReadItems(t[1..]);
        if items.None? then None else Some((Array(items.value.0), items.value.1))
    else if t[0] == '{' then
      if "{}" <= t then Some((Object([]), t[2..]))
      else
        var members := ReadMembers(t[1..]);
        if members.None? then None else Some((Object(members.value.0), members.value.1))
    else
      var (run, rest) := NumberRun(t);
      if run == "" then None else Some((Number(run), rest))
  }

  /** Items up to the closing bracket. */
  function ReadItems(t: string): (r: Option<(seq<Json>, string)>)
    ensures r.Some? ==> |r.value.1| < |t|
    decreases |t|, 1
  {
    var first := ReadValue(t);
    if first.None? || first.value.1 == "" then None
    else
      var (v, rest) := first.value;
      if rest[0] == ']' then Some(([v], rest[1..]))
      else if rest[0] != ',' then None
      else
        var more := ReadItems(rest[1..]);
        if more.None? then None else Some(([v] + more.value.0, more.value.1))
  }

  /** One member: a string, a colon and a value. */
  function ReadMember(t: string): (r: Option<(Member, string)>)
    ensures r.Some? ==> |r.value.1| < |t|
    decreases |t|, 1
  {
    if t == "" || t[0] != '\"' then None
    else
      var name := ReadText(t[1..]);
      if name.None? || name.value.1 == "" || name.value.1[0] != ':' then None
      else
        var v := ReadValue(name.value.1[1..]);
        if v.None? then None else Some((Member(name.value.0, v.value.0), v.value.1))
  }

  /** Members up to the closing brace. */
  function ReadMembers(t: string): (r: Option<(seq<Member>, string)>)
    ensures r.Some? ==> |r.value.1| < |t|
    decreases |t|, 2
  {
    var first := ReadMember(t);
    if first.None? || first.value.1 == "" then None
    else
      var (m, rest) := first.value;
      if rest[0] == '}' then Some(([m], rest[1..]))
      else if rest[0] != ',' then None
      else
        var more := ReadMembers(rest[1..]);
        if more.None? then None else Some(([m] + more.value.0, more.value.1))
  }

  // ---------------------------------------------------------------- what is read back

  predicate NumberText(s: string) { s != "" && forall i :: 0 <= i < |s| ==> NumberChar(s[i]) }

  /** Every number in the value carries number text. */
  predicate Numeric(v: Json)
    decreases v
  {
    match v
    case Number(text) => NumberText(text)
    case Array(items) => forall i :: 0 <= i < |items| ==> Numeric(items[i])
    case Object(members) => forall i :: 0 <= i < |members| ==> Numeric(members[i].value)
    case _ => true
  }

  function InsertedMember(m: Member, sorted: seq<Member>): seq<Member> {
    if sorted == [] || UnitsLeq(Units(m.name), Units(sorted[0].name)) then [m] + sorted
    else [sorted[0]] + InsertedMember(m, sorted[1..])
  }

  /** The members in canonical order. */
  function SortedMembers(members: seq<Member>): seq<Member> {
    if members == [] then [] else InsertedMember(members[0], SortedMembers(members[1..]))
  }

  lemma {:induction false} InsertedMemberPermutes(m: Member, sorted: seq<Member>)
    ensures multiset(InsertedMember(m, sorted)) == multiset(sorted) + multiset{m}
  {
    if !(sorted == [] || UnitsLeq(Units(m.name), Units(sorted[0].name))) {
      InsertedMemberPermutes(m, sorted[1..]);
      assert sorted == [sorted[0]] + sorted[1..];
    }
  }

  lemma {:induction false} SortedMembersPermute(members: seq<Member>)
    ensures multiset(SortedMembers(members)) == multiset(members)
  {
    if members != [] {
      SortedMembersPermute(members[1..]);
      InsertedMemberPermutes(members[0], SortedMembers(members[1..]));
      assert members == [members[0]] + members[1..];
    }
  }

  lemma SortedMemberIsMember(members: seq<Member>, k: nat) returns (i: nat)
    requires k < |SortedMembers(members)|
    ensures i < |members| && members[i] == SortedMembers(members)[k]
  {
    SortedMembersPermute(members);
    assert SortedMembers(members)[k] in multiset(members);
    i :| i < |members| && members[i] == SortedMembers(members)[k];
  }

  /** The value with the members of every object in canonical order. */
  function Canonical(v: Json): Json
    decreases v
  {
    match v
    case Array(items) => Array(CanonicalItems(items))
    case Object(members) => Object(SortedCanonical(members))
    case _ => v
  }

  function CanonicalItems(items: seq<Json>): (r: seq<Json>)
    ensures |r| == |items|
    decreases items
  {
    if items == [] then [] else [Canonical(items[0])] + CanonicalItems(items[1..])
  }

  function SortedCanonical(members: seq<Member>): seq<Member>
    decreases members
  {
    if members == [] then []
    else InsertedMember(Member(members[0].name, Canonical(members[0].value)), SortedCanonical(members[1..]))
  }

  function CanonicalMember(m: Member): Member { Member(m.name, Canonical(m.value)) }

  function EachCanonical(members: seq<Member>): seq<Member> {
    if members == [] then [] else [CanonicalMember(members[0])] + EachCanonical(members[1..])
  }

  function EntryOf(m: Member): Entry { Entry(m.name, Quoted(m.name) + ":" + Text(m.value)) }

  /** Sorting looks only at names, so it does not matter when the values are printed or made canonical. */
  lemma {:induction false} InsertCommutes(m: Member, sorted: seq<Member>)
    ensures EachCanonical(InsertedMember(m, sorted)) == InsertedMember(CanonicalMember(m), EachCanonical(sorted))
    ensures Entries(InsertedMember(m, sorted)) == Inserted(EntryOf(m), Entries(sorted))
  {
    hide Canonical, Text, Quoted, Units, UnitsLeq;
    if sorted == [] || UnitsLeq(Units(m.name), Units(sorted[0].name)) {
      assert ([m] + sorted)[1..] == sorted;
    } else {
      InsertCommutes(m, sorted[1..]);
      var rest := InsertedMember(m, sorted[1..]);
      assert ([sorted[0]] + rest)[1..] == rest;
      assert EachCanonical(sorted)[1..] == EachCanonical(sorted[1..]);
      assert Entries(sorted)[1..] == Entries(sorted[1..]);
    }
  }

  lemma {:induction false} SortCommutes(members: seq<Member>)
    ensures SortedCanonical(members) == EachCanonical(SortedMembers(members))
    ensures SortedByName(Entries(members)) == Entries(SortedMembers(members))
  {
    hide Canonical, Text, Quoted, Inserted, InsertedMember;
    if members != [] {
      SortCommutes(members[1..]);
      InsertCommutes(members[0], SortedMembers(members[1..]));
      assert Entries(members)[1..] == Entries(members[1..]);
    }
  }

  // ---------------------------------------------------------------- reading follows writing

  lemma {:induction false} RunReads(text: string, rest: string)
    requires forall i :: 0 <= i < |text| ==> NumberChar(text[i])
    requires rest == "" || !NumberChar(rest[0])
    ensures NumberRun(text + rest) == (text, rest)
  {
    if text == "" {
      assert text + rest == rest;
    } else {
      RunReads(text[1..], rest);
      assert (text + rest)[1..] == text[1..] + rest && text == [text[0]] + text[1..];
    }
  }

  /** Nothing a value is printed as begins like the end of something. */
  lemma TextStarts(v: Json)
    requires Numeric(v)
    ensures Text(v) != "" && Text(v)[0] !in "]},:"
  {
    match v
    case Number(text) => assert NumberChar(text[0]);
    case _ =>
  }

  predicate Ends(v: Json, rest: string) { v.Number? ==> rest == "" || !NumberChar(rest[0]) }

  lemma PlainReads(v: Json, rest: string)
    requires (v.Null? || v.Bool? || v.Number?) && Numeric(v) && Ends(v, rest)
    ensures ReadValue(Text(v) + rest) == Some((v, rest))
  {
    hide ReadItems, ReadMembers, ReadText;
    var t := Text(v) + rest;
    match v
    case Null => assert t[..4] == "null" && t[4..] == rest;
    case Bool(truth) =>
      if truth {
        assert t[..4] == "true" && t[4..] == rest;
        assert t[0] == 't' && !("null" <= t);
      } else {
        assert t[..5] == "false" && t[5..] == rest;
        assert t[0] == 'f' && !("null" <= t) && !("true" <= t);
      }
    case Number(text) =>
      RunReads(text, rest);
      assert NumberChar(t[0]);
  }

  lemma QuotedShape(s: string)
    ensures |Quoted(s)| >= 2 && Quoted(s)[0] == '\"'
  {}

  lemma StringReads(s: string, rest: string)
    ensures ReadValue(Text(Str(s)) + rest) == Some((Str(s), rest))
  {
    hide ReadItems, ReadMembers, ReadString, Quoted;
    QuotedShape(s);
    QuotedReads(s, rest);
    var t := Quoted(s) + rest;
    assert t[0] == '\"' && t[1..] == Quoted(s)[1..] + rest;
  }

  lemma EmptyReads(rest: string)
    ensures Text(Array([])) == "[]" && ReadValue("[]" + rest) == Some((Array([]), rest))
    ensures Text(Object([])) == "{}" && ReadValue("{}" + rest) == Some((Object([]), rest))
  {
    var a, b := "[]" + rest, "{}" + rest;
    assert a[..2] == "[]" && a[2..] == rest && a[0] == '[';
    assert b[..2] == "{}" && b[2..] == rest && b[0] == '{';
  }

  /** The canonical text of a value reads back as the value in canonical order, whatever is behind it. */
  lemma {:induction false} TextReads(v: Json, rest: string)
    requires Numeric(v) && Ends(v, rest)
    ensures ReadValue(Text(v) + rest) == Some((Canonical(v), rest))
    decreases v, 0, 0
  {
    match v
    case Str(s) => StringReads(s, rest);
    case Array(items) =>
      if items == [] {
        EmptyReads(rest);
      } else {
        ItemsRead(items, rest);
        ArrayReads(items, rest);
      }
    case Object(members) =>
      SortCommutes(members);
      SortedMembersPermute(members);
      var sorted := SortedMembers(members);
      assert |multiset(sorted)| == |sorted| && |multiset(members)| == |members|;
      if members == [] {
        EmptyReads(rest);
      } else {
        forall k | 0 <= k < |sorted| ensures sorted[k] in members {
          var i := SortedMemberIsMember(members, k);
        }
        MembersRead(members, sorted, rest);
        ObjectReads(sorted, rest);
      }
    case _ => PlainReads(v, rest);
  }

  function ItemsText(items: seq<Json>): string { Joined(Texts(items)) }

  function MembersText(members: seq<Member>): string { Joined(EntryTexts(Entries(members))) }

  lemma ItemsTextStep(items: seq<Json>)
    requires items != []
    ensures ItemsText(items) == if |items| == 1 then Text(items[0]) else Text(items[0]) + "," + ItemsText(items[1..])
  {
    assert |Texts(items)| == |items| by { TextsSize(items); }
    assert Texts(items)[1..] == Texts(items[1..]);
  }

  lemma {:induction false} TextsSize(items: seq<Json>)
    ensures |Texts(items)| == |items|
  {
    if items != [] { TextsSize(items[1..]); }
  }

  lemma {:induction false} EntriesSize(members: seq<Member>)
    ensures |EntryTexts(Entries(members))| == |members|
  {
    if members != [] {
      EntriesSize(members[1..]);
      assert Entries(members)[1..] == Entries(members[1..]);
    }
  }

  lemma MembersTextStep(members: seq<Member>)
    requires members != []
    ensures var first := Quoted(members[0].name) + ":" + Text(members[0].value);
      MembersText(members) == if |members| == 1 then first else first + "," + MembersText(members[1..])
  {
    hide Quoted, Text;
    EntriesSize(members);
    assert Entries(members)[1..] == Entries(members[1..]);
    assert EntryTexts(Entries(members))[1..] == EntryTexts(Entries(members[1..]));
  }

  lemma ArrayReads(items: seq<Json>, rest: string)
    requires items != [] && Numeric(Array(items))
    requires ReadItems(ItemsText(items) + "]" + rest) == Some((CanonicalItems(items), rest))
    ensures ReadValue(Text(Array(items)) + rest) == Some((Canonical(Array(items)), rest))
  {
    hide ReadValue, ReadItems, Text, ItemsText, Canonical, CanonicalItems;
    var text := ItemsText(items);
    ItemsTextStep(items);
    TextStarts(items[0]);
    BracketReads(text, CanonicalItems(items), rest);
    ArrayText(items);
    assert Text(Array(items)) + rest == "[" + (text + "]" + rest);
  }

  lemma ArrayText(items: seq<Json>)
    ensures Text(Array(items)) == "[" + ItemsText(items) + "]"
    ensures Canonical(Array(items)) == Array(CanonicalItems(items))
  {}

  lemma BracketReads(text: string, items: seq<Json>, rest: string)
    requires text != "" && text[0] != ']' && ReadItems(text + "]" + rest) == Some((items, rest))
    ensures ReadValue("[" + (text + "]" + rest)) == Some((Array(items), rest))
  {
    hide ReadItems, ReadMembers, ReadText;
    var t := "[" + (text + "]" + rest);
    assert t[0] == '[' && t[1..] == text + "]" + rest && t[1] == text[0];
  }

  lemma ObjectReads(sorted: seq<Member>, rest: string)
    requires sorted != [] && ReadMembers(MembersText(sorted) + "}" + rest) == Some((EachCanonical(sorted), rest))
    ensures ReadValue("{" + MembersText(sorted) + "}" + rest) == Some((Object(EachCanonical(sorted)), rest))
  {
    hide ReadValue, ReadMembers, EachCanonical, MembersText, Text, Quoted;
    var text := MembersText(sorted);
    MembersTextStep(sorted);
    QuotedShape(sorted[0].name);
    BraceReads(text, EachCanonical(sorted), rest);
    assert "{" + text + "}" + rest == "{" + (text + "}" + rest);
  }

  lemma BraceReads(text: string, members: seq<Member>, rest: string)
    requires text != "" && text[0] != '}' && ReadMembers(text + "}" + rest) == Some((members, rest))
    ensures ReadValue("{" + (text + "}" + rest)) == Some((Object(members), rest))
  {
    hide ReadItems, ReadMembers, ReadText;
    var t := "{" + (text + "}" + rest);
    assert t[0] == '{' && t[1..] == text + "}" + rest && t[1] == text[0];
  }

  lemma {:induction false} ItemsRead(items: seq<Json>, rest: string)
    requires items != [] && forall i :: 0 <= i < |items| ==> Numeric(items[i])
    ensures ReadItems(ItemsText(items) + "]" + rest) == Some((CanonicalItems(items), rest))
    decreases items, 1, 0
  {
    hide ReadValue, Canonical, Text, Joined, Texts;
    ItemsTextStep(items);
    var t := ItemsText(items) + "]" + rest;
    if |items| == 1 {
      var behind := "]" + rest;
      assert t == Text(items[0]) + behind && behind[1..] == rest;
      TextReads(items[0], behind);
      assert items[1..] == [] && CanonicalItems(items) == [Canonical(items[0])];
    } else {
      var more := ItemsText(items[1..]) + "]" + rest;
      var behind := "," + more;
      assert t == Text(items[0]) + behind && behind[1..] == more;
      TextReads(items[0], behind);
      ItemsRead(items[1..], rest);
    }
  }

  lemma OneMemberReads(m: Member, behind: string)
    requires ReadValue(Text(m.value) + behind) == Some((Canonical(m.value), behind))
    ensures ReadMember(Quoted(m.name) + ":" + Text(m.value) + behind) == Some((CanonicalMember(m), behind))
  {
    hide ReadValue, ReadString, Canonical, Text, Quoted;
    var after := ":" + Text(m.value) + behind;
    QuotedShape(m.name);
    QuotedReads(m.name, after);
    var t := Quoted(m.name) + ":" + Text(m.value) + behind;
    assert t == Quoted(m.name) + after;
    assert t[0] == '\"' && t[1..] == Quoted(m.name)[1..] + after;
    assert after[1..] == Text(m.value) + behind;
  }

  lemma {:induction false} MembersRead(all: seq<Member>, members: seq<Member>, rest: string)
    requires members != [] && (forall i :: 0 <= i < |all| ==> Numeric(all[i].value))
    requires forall k :: 0 <= k < |members| ==> members[k] in all
    ensures ReadMembers(MembersText(members) + "}" + rest) == Some((EachCanonical(members), rest))
    decreases all, 1, |members|
  {
    hide ReadValue, ReadMember, Canonical, Text, Joined, Entries, Quoted;
    MembersTextStep(members);
    var m, t := members[0], MembersText(members) + "}" + rest;
    var first := Quoted(m.name) + ":" + Text(m.value);
    var i :| 0 <= i < |all| && all[i] == m;
    if |members| == 1 {
      var behind := "}" + rest;
      assert t == first + behind && behind[1..] == rest;
      TextReads(all[i].value, behind);
      OneMemberReads(m, behind);
      assert members[1..] == [] && EachCanonical(members) == [CanonicalMember(m)];
    } else {
      var more := MembersText(members[1..]) + "}" + rest;
      var behind := "," + more;
      assert t == first + behind && behind[1..] == more;
      TextReads(all[i].value, behind);
      OneMemberReads(m, behind);
      MembersRead(all, members[1..], rest);
    }
  }

  // ---------------------------------------------------------------- finding a member in the text

  predicate DistinctMembers(members: seq<Member>) {
    forall i, j :: 0 <= i < j < |members| ==> members[i].name != members[j].name
  }

  lemma {:induction false} LookupInserted(m: Member, sorted: seq<Member>, name: string)
    requires forall i :: 0 <= i < |sorted| ==> sorted[i].name != m.name
    ensures LookupMember(InsertedMember(m, sorted), name) ==
      if m.name == name then Some(m.value) else LookupMember(sorted, name)
  {
    hide Units, UnitsLeq;
    if sorted == [] || UnitsLeq(Units(m.name), Units(sorted[0].name)) {
      assert ([m] + sorted)[1..] == sorted;
    } else {
      LookupInserted(m, sorted[1..], name);
      var rest := InsertedMember(m, sorted[1..]);
      assert ([sorted[0]] + rest)[1..] == rest;
    }
  }

  lemma {:induction false} NamesStay(members: seq<Member>, k: nat)
    requires k < |SortedCanonical(members)|
    ensures exists i :: 0 <= i < |members| && members[i].name == SortedCanonical(members)[k].name
  {
    SortCommutes(members);
    EachCanonicalAt(SortedMembers(members), k);
    var i := SortedMemberIsMember(members, k);
  }

  lemma {:induction false} EachCanonicalAt(members: seq<Member>, k: nat)
    ensures |EachCanonical(members)| == |members|
    ensures k < |members| ==> EachCanonical(members)[k] == CanonicalMember(members[k])
  {
    if members != [] { EachCanonicalAt(members[1..], if k > 0 then k - 1 else 0); }
  }

  /** A reader of the text finds under each name what a reader of the value finds there, in canonical order. */
  lemma {:induction false} LookupReads(members: seq<Member>, name: string)
    requires DistinctMembers(members)
    ensures var found := LookupMember(members, name);
      Lookup(Canonical(Object(members)), name) == if found.Some? then Some(Canonical(found.value)) else None
  {
    hide Canonical, InsertedMember;
    assert Canonical(Object(members)) == Object(SortedCanonical(members)) by { CanonicalObject(members); }
    if members != [] {
      LookupReads(members[1..], name);
      CanonicalObject(members[1..]);
      var sorted := SortedCanonical(members[1..]);
      forall k | 0 <= k < |sorted| ensures sorted[k].name != members[0].name { NamesStay(members[1..], k); }
      LookupInserted(CanonicalMember(members[0]), sorted, name);
    }
  }

  lemma CanonicalObject(members: seq<Member>)
    ensures Canonical(Object(members)) == Object(SortedCanonical(members))
  {}

  lemma {:induction false} RecordNames(names: seq<string>, values: seq<Option<Json>>, i: nat)
    requires |names| == |values| && i < |RecordMembers(names, values)|
    ensures RecordMembers(names, values)[i].name in names
  {
    if values[0].None? {
      RecordNames(names[1..], values[1..], i);
    } else if i > 0 {
      RecordNames(names[1..], values[1..], i - 1);
    }
  }

  lemma {:induction false} RecordDistinct(names: seq<string>, values: seq<Option<Json>>)
    requires |names| == |values| && DistinctFields(names)
    ensures DistinctMembers(RecordMembers(names, values))
  {
    if names != [] {
      RecordDistinct(names[1..], values[1..]);
      var rest := RecordMembers(names[1..], values[1..]);
      forall i | 0 <= i < |rest| ensures rest[i].name != names[0] { RecordNames(names[1..], values[1..], i); }
    }
  }

  /** A serialized struct, as text: it reads back, and each field is found under its name. */
  lemma RecordTextReads(names: seq<string>, values: seq<Option<Json>>, i: nat)
    requires |names| == |values| && DistinctFields(names) && i < |names| && Numeric(RecordJson(names, values))
    ensures var j := Canonical(RecordJson(names, values));
      && ReadValue(Text(RecordJson(names, values))) == Some((j, ""))
      && Lookup(j, names[i]) == if values[i].Some? then Some(Canonical(values[i].value)) else None
  {
    hide ReadValue, Canonical, Text, RecordMembers, Numeric, LookupMember;
    var v := RecordJson(names, values);
    TextReads(v, "");
    assert Text(v) + "" == Text(v);
    RecordDistinct(names, values);
    LookupReads(RecordMembers(names, values), names[i]);
    FieldReads(names, values, i);
  }

  lemma {:induction false} RecordNumeric(names: seq<string>, values: seq<Option<Json>>)
    requires |names| == |values| && forall i :: 0 <= i < |values| && values[i].Some? ==> Numeric(values[i].value)
    ensures Numeric(RecordJson(names, values))
  {
    if names != [] {
      RecordNumeric(names[1..], values[1..]);
      var rest, all := RecordMembers(names[1..], values[1..]), RecordMembers(names, values);
      forall i | 0 <= i < |all| ensures Numeric(all[i].value) {
        assert Numeric(Object(rest));
        if values[0].None? { assert all[i] == rest[i]; } else if i > 0 { assert all[i] == rest[i - 1]; }
      }
    }
  }
}
