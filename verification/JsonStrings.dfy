/** Reading JSON strings (section 7 of RFC 8259), why canonical strings say what was written, and the UTF-8 and UTF-16
    forms that sizes and member order are computed from. */
module JsonStrings {
  import opened Wrappers
  import opened CanonicalJson

  function HexValue(c: char): Option<nat> {
    if '0' <= c <= '9' then Some(c as int - '0' as int)
    else if 'a' <= c <= 'f' then Some(c as int - 'a' as int + 10)
    else if 'A' <= c <= 'F' then Some(c as int - 'A' as int + 10)
    else None
  }

  /** The character after a backslash, for the escapes of two characters. */
  function ShortEscape(c: char): Option<char> {
    if c == '\"' || c == '\\' || c == '/' then Some(c)
    else if c == 'b' then Some('\U{8}')
    else if c == 't' then Some('\t')
    else if c == 'n' then Some('\n')
    else if c == 'f' then Some('\U{c}')
    else if c == 'r' then Some('\r')
    else None
  }

  function Prefixed(c: char, r: Option<(string, string)>): Option<(string, string)> {
    if r.None? then None else Some(([c] + r.value.0, r.value.1))
  }

  function HexNumber(text: string): Option<nat>
    requires |text| == 4
  {
    var a, b, c, d := HexValue(text[0]), HexValue(text[1]), HexValue(text[2]), HexValue(text[3]);
    if a.None? || b.None? || c.None? || d.None? then None
    else Some(((a.value * 16 + b.value) * 16 + c.value) * 16 + d.value)
  }

  /** What stands before the closing quote, and what stands behind it. Surrogates are not read. */
  function ReadString(t: string): Option<(string, string)>
    decreases |t|
  {
    if t == "" || t[0] < ' ' then None
    else if t[0] == '\"' then Some(("", t[1..]))
    else if t[0] != '\\' then Prefixed(t[0], ReadString(t[1..]))
    else if |t| < 2 then None
    else if ShortEscape(t[1]).Some? then Prefixed(ShortEscape(t[1]).value, ReadString(t[2..]))
    else if t[1] != 'u' || |t| < 6 then None
    else
      var n := HexNumber(t[2..6]);
      if n.None? || n.value >= 0xD800 then None else Prefixed(n.value as char, ReadString(t[6..]))
  }

  lemma ControlReads(c: char, rest: string)
    requires c < ' ' && Escaped(c)[1] == 'u'
    ensures ReadString(Escaped(c) + rest) == Prefixed(c, ReadString(rest))
  {
    var n := c as int;
    var digits := "00" + [HEX[n / 16], HEX[n % 16]];
    assert Escaped(c) == "\\u" + digits;
    HexReads(n / 16);
    HexReads(n % 16);
    CodeReads(digits, n, rest);
  }

  lemma CodeReads(digits: string, n: nat, rest: string)
    requires |digits| == 4 && HexNumber(digits) == Some(n) && n < 0xD800
    ensures ReadString("\\u" + digits + rest) == Prefixed(n as char, ReadString(rest))
  {
    hide HexNumber;
    var t := "\\u" + digits + rest;
    assert t[2..6] == digits && t[6..] == rest && t[0] == '\\' && t[1] == 'u';
  }

  lemma HexReads(i: nat)
    requires i < 16
    ensures HexValue(HEX[i]) == Some(i)
  {
    assert i == 0 || i == 1 || i == 2 || i == 3 || i == 4 || i == 5 || i == 6 || i == 7 || i == 8 || i == 9 || i == 10
        || i == 11 || i == 12 || i == 13 || i == 14 || i == 15;
  }

  lemma CharReads(c: char, rest: string)
    ensures ReadString(Escaped(c) + rest) == Prefixed(c, ReadString(rest))
  {
    var t := Escaped(c) + rest;
    assert |Escaped(c)| == 1 ==> t[1..] == rest;
    assert |Escaped(c)| == 2 ==> t[2..] == rest && t[0] == '\\' && t[1] == Escaped(c)[1];
    if |Escaped(c)| == 6 { ControlReads(c, rest); }
  }

  /** A reader gets back the string that was written, and goes on behind the closing quote. */
  lemma {:induction false} QuotedReads(s: string, rest: string)
    ensures Quoted(s)[0] == '\"' && ReadString(Quoted(s)[1..] + rest) == Some((s, rest))
  {
    hide ReadString, Escaped;
    if s == "" {
      assert Quoted(s)[1..] + rest == "\"" + rest;
      EndReads(rest);
    } else {
      QuotedReads(s[1..], rest);
      var tail := Quoted(s[1..])[1..] + rest;
      assert Quoted(s)[1..] + rest == Escaped(s[0]) + tail;
      CharReads(s[0], tail);
      assert s == [s[0]] + s[1..];
    }
  }

  lemma EndReads(rest: string)
    ensures ReadString("\"" + rest) == Some(("", rest))
  {
    assert ("\"" + rest)[1..] == rest;
  }

  // ---------------------------------------------------------------- UTF-8 and UTF-16

  /** Section 3 of RFC 3629. */
  function Utf8(c: char): (bytes: seq<Byte>)
    ensures bytes != []
  {
    var n := c as int;
    if n < 0x80 then [n]
    else if n < 0x800 then [0xC0 + n / 0x40, 0x80 + n % 0x40]
    else if n < 0x1_0000 then [0xE0 + n / 0x1000, 0x80 + n / 0x40 % 0x40, 0x80 + n % 0x40]
    else [0xF0 + n / 0x4_0000, 0x80 + n / 0x1000 % 0x40, 0x80 + n / 0x40 % 0x40, 0x80 + n % 0x40]
  }

  function Utf8Text(s: string): seq<Byte> { if s == "" then [] else Utf8(s[0]) + Utf8Text(s[1..]) }

  /** The length that sizes are added up from is that of the UTF-8 encoding. */
  lemma {:induction false} BytesAreUtf8(s: string)
    ensures Bytes(s) == |Utf8Text(s)|
  {
    if s != "" { BytesAreUtf8(s[1..]); }
  }

  /** A character outside the basic plane is a surrogate pair, any other is itself (section 2.1 of RFC 2781). */
  lemma UnitsAreUtf16(s: string)
    requires s != ""
    ensures var code, units := s[0] as int, Units(s);
      if code < 0x1_0000 then units == [code] + Units(s[1..])
      else
        && |units| >= 2 && units[2..] == Units(s[1..])
        && 0xD800 <= units[0] < 0xDC00 <= units[1] < 0xE000
        && code == 0x1_0000 + (units[0] - 0xD800) * 0x400 + (units[1] - 0xDC00)
  {}
}
