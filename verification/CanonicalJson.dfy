/** JSON values, their RFC 8785 (JSON Canonicalization Scheme) text, and the number of UTF-8 bytes in it. */
module CanonicalJson {

  /** A number carries the text the scheme prints for it. */
  datatype Json =
    | Null
    | Bool(truth: bool)
    | Number(text: string)
    | Str(chars: string)
    | Array(items: seq<Json>)
    | Object(members: seq<Member>)

  datatype Member = Member(name: string, value: Json)

  // ---------------------------------------------------------------- text

  const HEX: string := "0123456789abcdef"

  /** Section 3.2.2.2 of RFC 8785. */
  function Escaped(c: char): string {
    if c == '\"' then "\\\""
    else if c == '\\' then "\\\\"
    else if c == '\U{8}' then "\\b"
    else if c == '\t' then "\\t"
    else if c == '\n' then "\\n"
    else if c == '\U{c}' then "\\f"
    else if c == '\r' then "\\r"
    else if c < ' ' then "\\u00" + [HEX[(c as int) / 16], HEX[(c as int) % 16]]
    else [c]
  }

  function EscapedText(s: string): string {
    if s == "" then "" else Escaped(s[0]) + EscapedText(s[1..])
  }

  function Quoted(s: string): string { "\"" + EscapedText(s) + "\"" }

  /** One member, printed. */
  datatype Entry = Entry(name: string, text: string)

  function Text(v: Json): string
    decreases v
  {
    match v
    case Null => "null"
    case Bool(truth) => if truth then "true" else "false"
    case Number(text) => text
    case Str(chars) => Quoted(chars)
    case Array(items) => "[" + Joined(Texts(items)) + "]"
    case Object(members) => "{" + Joined(EntryTexts(SortedByName(Entries(members)))) + "}"
  }

  function Texts(items: seq<Json>): seq<string>
    decreases items
  {
    if items == [] then [] else [Text(items[0])] + Texts(items[1..])
  }

  function Entries(members: seq<Member>): seq<Entry>
    decreases members
  {
    if members == [] then []
    else [Entry(members[0].name, Quoted(members[0].name) + ":" + Text(members[0].value))] + Entries(members[1..])
  }

  function EntryTexts(entries: seq<Entry>): seq<string> {
    if entries == [] then [] else [entries[0].text] + EntryTexts(entries[1..])
  }

  function Joined(texts: seq<string>): string {
    if texts == [] then ""
    else if |texts| == 1 then texts[0]
    else texts[0] + "," + Joined(texts[1..])
  }

  // ---------------------------------------------------------------- member order

  /** The UTF-16 code units of a name, on which section 3.2.3 of RFC 8785 sorts. */
  function Units(s: string): seq<nat> {
    if s == "" then []
    else
      var code := s[0] as int;
      (if code < 0x1_0000 then [code]
       else [0xD800 + (code - 0x1_0000) / 0x400, 0xDC00 + (code - 0x1_0000) % 0x400]) + Units(s[1..])
  }

  predicate UnitsLeq(a: seq<nat>, b: seq<nat>) {
    a == [] || (b != [] && (a[0] < b[0] || (a[0] == b[0] && UnitsLeq(a[1..], b[1..]))))
  }

  predicate NameLeq(a: Entry, b: Entry) { UnitsLeq(Units(a.name), Units(b.name)) }

  function Inserted(e: Entry, sorted: seq<Entry>): seq<Entry> {
    if sorted == [] || NameLeq(e, sorted[0]) then [e] + sorted
    else [sorted[0]] + Inserted(e, sorted[1..])
  }

  function SortedByName(entries: seq<Entry>): seq<Entry> {
    if entries == [] then [] else Inserted(entries[0], SortedByName(entries[1..]))
  }

  predicate InOrder(entries: seq<Entry>) {
    forall i :: 0 < i < |entries| ==> NameLeq(entries[i - 1], entries[i])
  }

  lemma {:induction false} UnitsTotal(a: seq<nat>, b: seq<nat>)
    ensures UnitsLeq(a, b) || UnitsLeq(b, a)
  {
    if a != [] && b != [] { UnitsTotal(a[1..], b[1..]); }
  }

  lemma {:induction false} InsertedPermutes(e: Entry, sorted: seq<Entry>)
    ensures multiset(Inserted(e, sorted)) == multiset(sorted) + multiset{e}
  {
    if !(sorted == [] || NameLeq(e, sorted[0])) {
      InsertedPermutes(e, sorted[1..]);
      assert sorted == [sorted[0]] + sorted[1..];
    }
  }

  lemma InOrderCons(first: Entry, rest: seq<Entry>)
    requires InOrder(rest) && (rest == [] || NameLeq(first, rest[0]))
    ensures InOrder([first] + rest)
  {
    var all := [first] + rest;
    forall i | 0 < i < |all| ensures NameLeq(all[i - 1], all[i]) {
      if i > 1 { assert NameLeq(rest[i - 2], rest[i - 1]); }
    }
  }

  lemma {:induction false} InsertedInOrder(e: Entry, sorted: seq<Entry>)
    requires InOrder(sorted)
    ensures InOrder(Inserted(e, sorted))
    ensures Inserted(e, sorted)[0] == e || (sorted != [] && Inserted(e, sorted)[0] == sorted[0])
  {
    if sorted == [] || NameLeq(e, sorted[0]) {
      InOrderCons(e, sorted);
    } else {
      UnitsTotal(Units(e.name), Units(sorted[0].name));
      InsertedInOrder(e, sorted[1..]);
      InOrderCons(sorted[0], Inserted(e, sorted[1..]));
    }
  }

  /** The printed members are the object's members, in name order. */
  lemma {:induction false} MembersInOrder(entries: seq<Entry>)
    ensures InOrder(SortedByName(entries)) && multiset(SortedByName(entries)) == multiset(entries)
  {
    if entries != [] {
      MembersInOrder(entries[1..]);
      InsertedInOrder(entries[0], SortedByName(entries[1..]));
      InsertedPermutes(entries[0], SortedByName(entries[1..]));
      assert entries == [entries[0]] + entries[1..];
    }
  }

  // ---------------------------------------------------------------- size

  function Utf8Length(c: char): nat {
    if c < '\U{80}' then 1 else if c < '\U{800}' then 2 else if c < '\U{10000}' then 3 else 4
  }

  function Bytes(s: string): nat {
    if s == "" then 0 else Utf8Length(s[0]) + Bytes(s[1..])
  }

  function QuotedSize(s: string): nat { 2 + Bytes(EscapedText(s)) }

  /** The length of the canonical text, without building it. */
  function Size(v: Json): nat
    decreases v
  {
    match v
    case Null => 4
    case Bool(truth) => if truth then 4 else 5
    case Number(text) => Bytes(text)
    case Str(chars) => QuotedSize(chars)
    case Array(items) => Bracketed(ItemsWeight(items))
    case Object(members) => Bracketed(MembersWeight(members))
  }

  /** Each element with a separator after it; the last separator gives way to the closing bracket. */
  function Bracketed(weight: nat): nat { if weight == 0 then 2 else 1 + weight }

  function ItemsWeight(items: seq<Json>): nat
    decreases items
  {
    if items == [] then 0 else Size(items[0]) + 1 + ItemsWeight(items[1..])
  }

  function MembersWeight(members: seq<Member>): nat
    decreases members
  {
    if members == [] then 0 else MemberSize(members[0]) + 1 + MembersWeight(members[1..])
  }

  function MemberSize(m: Member): nat
    decreases m
  {
    QuotedSize(m.name) + 1 + Size(m.value)
  }

  lemma {:induction false} BytesConcat(a: string, b: string)
    ensures Bytes(a + b) == Bytes(a) + Bytes(b)
  {
    if a == "" { assert a + b == b; }
    else {
      BytesConcat(a[1..], b);
      assert (a + b)[1..] == a[1..] + b;
    }
  }

  lemma {:induction false} AsciiBytes(s: string)
    requires forall i :: 0 <= i < |s| ==> s[i] < '\U{80}'
    ensures Bytes(s) == |s|
  {
    if s != "" { AsciiBytes(s[1..]); }
  }

  function TotalBytes(texts: seq<string>): nat {
    if texts == [] then 0 else Bytes(texts[0]) + 1 + TotalBytes(texts[1..])
  }

  lemma {:induction false} JoinedBytes(texts: seq<string>)
    ensures Bytes(Joined(texts)) == if texts == [] then 0 else TotalBytes(texts) - 1
  {
    if |texts| > 1 {
      JoinedBytes(texts[1..]);
      BytesConcat(texts[0] + ",", Joined(texts[1..]));
      BytesConcat(texts[0], ",");
    }
  }

  lemma BracketsBytes(open: string, texts: seq<string>, close: string)
    requires Bytes(open) == 1 && Bytes(close) == 1
    ensures Bytes(open + Joined(texts) + close) == Bracketed(TotalBytes(texts))
  {
    BytesConcat(open + Joined(texts), close);
    BytesConcat(open, Joined(texts));
    JoinedBytes(texts);
  }

  lemma {:induction false} InsertedBytes(e: Entry, sorted: seq<Entry>)
    ensures TotalBytes(EntryTexts(Inserted(e, sorted))) == Bytes(e.text) + 1 + TotalBytes(EntryTexts(sorted))
  {
    if !(sorted == [] || NameLeq(e, sorted[0])) {
      InsertedBytes(e, sorted[1..]);
    }
  }

  lemma {:induction false} SortingKeepsBytes(entries: seq<Entry>)
    ensures TotalBytes(EntryTexts(SortedByName(entries))) == TotalBytes(EntryTexts(entries))
  {
    if entries != [] {
      SortingKeepsBytes(entries[1..]);
      InsertedBytes(entries[0], SortedByName(entries[1..]));
    }
  }

  lemma QuotedBytes(s: string)
    ensures Bytes(Quoted(s)) == QuotedSize(s)
  {
    BytesConcat("\"" + EscapedText(s), "\"");
    BytesConcat("\"", EscapedText(s));
  }

  /** `Size` is exactly the number of bytes in the canonical text. */
  lemma {:induction false} SizeIsTextLength(v: Json)
    ensures Bytes(Text(v)) == Size(v)
    decreases v
  {
    match v
    case Null => AsciiBytes("null");
    case Bool(truth) => AsciiBytes(Text(v));
    case Number(text) =>
    case Str(chars) => QuotedBytes(chars);
    case Array(items) =>
      ItemsAreTexts(items);
      BracketsBytes("[", Texts(items), "]");
    case Object(members) =>
      MembersAreTexts(members);
      SortingKeepsBytes(Entries(members));
      BracketsBytes("{", EntryTexts(SortedByName(Entries(members))), "}");
  }

  lemma {:induction false} ItemsAreTexts(items: seq<Json>)
    ensures TotalBytes(Texts(items)) == ItemsWeight(items)
    decreases items
  {
    if items != [] {
      SizeIsTextLength(items[0]);
      ItemsAreTexts(items[1..]);
    }
  }

  lemma {:induction false} MembersAreTexts(members: seq<Member>)
    ensures TotalBytes(EntryTexts(Entries(members))) == MembersWeight(members)
    decreases members
  {
    if members != [] {
      var m := members[0];
      SizeIsTextLength(m.value);
      MembersAreTexts(members[1..]);
      QuotedBytes(m.name);
      BytesConcat(Quoted(m.name) + ":", Text(m.value));
      BytesConcat(Quoted(m.name), ":");
    }
  }

  // ---------------------------------------------------------------- bounds on strings

  /** Printed as one byte, with no escape. */
  predicate Plain(c: char) { ' ' <= c < '\U{80}' && c != '\"' && c != '\\' }

  predicate AllPlain(s: string) { forall i :: 0 <= i < |s| ==> Plain(s[i]) }

  lemma {:induction false} PlainSize(s: string)
    requires AllPlain(s)
    ensures QuotedSize(s) == |s| + 2
  {
    if s != "" {
      PlainSize(s[1..]);
      BytesConcat(Escaped(s[0]), EscapedText(s[1..]));
      assert Plain(s[0]);
    }
  }

  lemma EscapedBytes(c: char)
    ensures 1 <= Bytes(Escaped(c)) <= 6
  {
    if c < '\U{80}' {
      assert forall i :: 0 <= i < 16 ==> HEX[i] < '\U{80}';
      AsciiBytes(Escaped(c));
    }
  }

  lemma {:induction false} SizeBound(s: string)
    ensures |s| + 2 <= QuotedSize(s) <= 6 * |s| + 2
  {
    if s != "" {
      SizeBound(s[1..]);
      EscapedBytes(s[0]);
      BytesConcat(Escaped(s[0]), EscapedText(s[1..]));
    }
  }

  // ---------------------------------------------------------------- weights of concatenations

  lemma {:induction false} MembersWeightConcat(a: seq<Member>, b: seq<Member>)
    ensures MembersWeight(a + b) == MembersWeight(a) + MembersWeight(b)
  {
    if a == [] { assert a + b == b; }
    else {
      MembersWeightConcat(a[1..], b);
      assert (a + b)[1..] == a[1..] + b;
    }
  }

  lemma {:induction false} ItemsWeightConcat(a: seq<Json>, b: seq<Json>)
    ensures ItemsWeight(a + b) == ItemsWeight(a) + ItemsWeight(b)
  {
    if a == [] { assert a + b == b; }
    else {
      ItemsWeightConcat(a[1..], b);
      assert (a + b)[1..] == a[1..] + b;
    }
  }
}
