/** Unpadded base64url text for opaque byte values (sections 3.5 and 5 of RFC 4648). */
module Base64Url {
  import opened Wrappers

  const MAX_BASE64URL_CHARS: nat := 16_384

  type Sextet = i: nat | i < 64

  datatype TextError = FieldBound | ValueEncodingInvalid

  /** Entry `i` of the alphabet table. */
  function Letter(i: Sextet): char {
    if i < 26 then ('A' as int + i) as char
    else if i < 52 then ('a' as int + i - 26) as char
    else if i < 62 then ('0' as int + i - 52) as char
    else if i == 62 then '-'
    else '_'
  }

  function Index(c: char): Option<Sextet> {
    if 'A' <= c <= 'Z' then Some(c as int - 'A' as int)
    else if 'a' <= c <= 'z' then Some(c as int - 'a' as int + 26)
    else if '0' <= c <= '9' then Some(c as int - '0' as int + 52)
    else if c == '-' then Some(62)
    else if c == '_' then Some(63)
    else None
  }

  /** The alphabet of section 5 of RFC 4648. */
  const ALPHABET: string := "ABCDEFGHIJKLMNOPQRSTUVWXYZ" + "abcdefghijklmnopqrstuvwxyz" + "0123456789-_"

  lemma AlphabetIs(i: Sextet)
    ensures |ALPHABET| == 64 && Letter(i) == ALPHABET[i]
  {
    var k := if i < 26 then i else if i < 52 then i - 26 else i - 52;
    assert k == 0 || k == 1 || k == 2 || k == 3 || k == 4 || k == 5 || k == 6 || k == 7 || k == 8 || k == 9
           || k == 10 || k == 11 || k == 12 || k == 13 || k == 14 || k == 15 || k == 16 || k == 17 || k == 18
           || k == 19 || k == 20 || k == 21 || k == 22 || k == 23 || k == 24 || k == 25;
  }

  lemma LettersAndIndices(i: Sextet, c: char)
    ensures Index(Letter(i)) == Some(i)
    ensures Index(c).Some? ==> Letter(Index(c).value) == c
  {}

  /** One chunk of up to three bytes. Shifting and masking bytes is written as division and remainder. */
  function EncodeChunk(chunk: seq<Byte>): string
    requires 1 <= |chunk| <= 3
  {
    var first, second := chunk[0], if |chunk| > 1 then chunk[1] else 0;
    var third := if |chunk| > 2 then chunk[2] else 0;
    [Letter(first / 4), Letter(first % 4 * 16 + second / 16)]
    + (if |chunk| > 1 then [Letter(second % 16 * 4 + third / 64)] else [])
    + (if |chunk| > 2 then [Letter(third % 64)] else [])
  }

  /** The number that the letters of a text spell, most significant first. */
  function Spelled(text: string): nat {
    if text == "" then 0
    else
      var last := Index(text[|text| - 1]);
      Spelled(text[..|text| - 1]) * 64 + if last.Some? then last.value else 0
  }

  lemma SpelledOf(letters: seq<nat>, text: string)
    requires 2 <= |letters| <= 4 && |text| == |letters|
    requires forall k :: 0 <= k < |text| ==> letters[k] < 64 && text[k] == Letter(letters[k])
    ensures |text| == 2 ==> Spelled(text) == letters[0] * 64 + letters[1]
    ensures |text| == 3 ==> Spelled(text) == (letters[0] * 64 + letters[1]) * 64 + letters[2]
    ensures |text| == 4 ==> Spelled(text) == ((letters[0] * 64 + letters[1]) * 64 + letters[2]) * 64 + letters[3]
  {
    forall k | 0 <= k < |text| ensures Index(text[k]) == Some(letters[k]) { LettersAndIndices(letters[k], text[k]); }
    assert text[..1][..0] == "" && text[..2][..1] == text[..1];
    assert Spelled(text[..1]) == letters[0];
    assert Spelled(text[..2]) == letters[0] * 64 + letters[1];
    assert text[..|text|] == text;
    if |text| >= 3 {
      assert text[..3][..2] == text[..2];
      assert Spelled(text[..3]) == Spelled(text[..2]) * 64 + letters[2];
    }
    if |text| == 4 { assert text[..4][..3] == text[..3]; }
  }

  lemma Regrouped(a: int, b: int, c: int)
    requires 0 <= a < 256 && 0 <= b < 256 && 0 <= c < 256
    ensures a / 4 * 64 + a % 4 * 16 == a * 16
    ensures (a / 4 * 64 + (a % 4 * 16 + b / 16)) * 64 + b % 16 * 4 == (a * 256 + b) * 4
    ensures ((a / 4 * 64 + (a % 4 * 16 + b / 16)) * 64 + (b % 16 * 4 + c / 64)) * 64 + c % 64
         == a * 65_536 + b * 256 + c
  {}

  function Big(bytes: seq<Byte>): nat {
    if bytes == [] then 0 else Big(bytes[..|bytes| - 1]) * 256 + bytes[|bytes| - 1]
  }

  lemma SmallBig(a: Byte, b: Byte, c: Byte)
    ensures Big([a]) == a && Big([a, b]) == 256 * a as int + b
    ensures Big([a, b, c]) == 65_536 * a as int + 256 * b as int + c
  {
    assert [a][..0] == [] && [a, b][..1] == [a] && [a, b, c][..2] == [a, b];
  }

  lemma OneByteSpelled(chunk: seq<Byte>)
    requires |chunk| == 1
    ensures |EncodeChunk(chunk)| == 2 && Spelled(EncodeChunk(chunk)) == Big(chunk) * 16
  {
    hide Letter, Index, Spelled, Big;
    var a: int := chunk[0];
    Regrouped(a, 0, 0);
    SpelledOf([a / 4, a % 4 * 16], EncodeChunk(chunk));
    SmallBig(chunk[0], 0, 0);
    assert chunk == [chunk[0]];
  }

  lemma TwoBytesSpelled(chunk: seq<Byte>)
    requires |chunk| == 2
    ensures |EncodeChunk(chunk)| == 3 && Spelled(EncodeChunk(chunk)) == Big(chunk) * 4
  {
    hide Letter, Index, Spelled, Big;
    var a: int, b: int := chunk[0], chunk[1];
    Regrouped(a, b, 0);
    SpelledOf([a / 4, a % 4 * 16 + b / 16, b % 16 * 4], EncodeChunk(chunk));
    SmallBig(chunk[0], chunk[1], 0);
    assert chunk == [chunk[0], chunk[1]];
  }

  lemma ThreeBytesSpelled(chunk: seq<Byte>)
    requires |chunk| == 3
    ensures |EncodeChunk(chunk)| == 4 && Spelled(EncodeChunk(chunk)) == Big(chunk)
  {
    hide Letter, Index, Spelled, Big;
    var a: int, b: int, c: int := chunk[0], chunk[1], chunk[2];
    Regrouped(a, b, c);
    SpelledOf([a / 4, a % 4 * 16 + b / 16, b % 16 * 4 + c / 64, c % 64], EncodeChunk(chunk));
    SmallBig(chunk[0], chunk[1], chunk[2]);
    assert chunk == [chunk[0], chunk[1], chunk[2]];
  }

  /** A chunk's letters spell the number that its bytes spell, zero bits filling the last letter. */
  lemma ChunkSpellsBytes(chunk: seq<Byte>)
    requires 1 <= |chunk| <= 3
    ensures |EncodeChunk(chunk)| == |chunk| + 1
    ensures Spelled(EncodeChunk(chunk)) == Big(chunk) * if |chunk| == 1 then 16 else if |chunk| == 2 then 4 else 1
  {
    hide EncodeChunk, Spelled, Big;
    if |chunk| == 1 { OneByteSpelled(chunk); }
    else if |chunk| == 2 { TwoBytesSpelled(chunk); }
    else { ThreeBytesSpelled(chunk); }
  }

  function Encode(bytes: seq<Byte>): string {
    if |bytes| == 0 then ""
    else if |bytes| <= 3 then EncodeChunk(bytes)
    else EncodeChunk(bytes[..3]) + Encode(bytes[3..])
  }

  /** The body of the encoder's loop: one chunk pushes two to four characters. */
  method PushChunk(text: string, chunk: seq<Byte>) returns (encoded: string)
    requires 1 <= |chunk| <= 3
    ensures encoded == text + EncodeChunk(chunk)
  {
    var first := chunk[0];
    encoded := text + [Letter(first / 4)];
    var second := if |chunk| > 1 then chunk[1] else 0;
    encoded := encoded + [Letter(first % 4 * 16 + second / 16)];
    if |chunk| > 1 {
      var third := if |chunk| > 2 then chunk[2] else 0;
      encoded := encoded + [Letter(second % 16 * 4 + third / 64)];
    }
    if |chunk| > 2 {
      encoded := encoded + [Letter(chunk[2] % 64)];
    }
  }

  /** The encoder: a loop over chunks of three bytes. */
  method EncodeBase64Url(bytes: seq<Byte>) returns (encoded: string)
    ensures encoded == Encode(bytes)
  {
    encoded := "";
    var cursor := 0;
    while cursor < |bytes|
      invariant 0 <= cursor <= |bytes|
      invariant encoded + Encode(bytes[cursor..]) == Encode(bytes)
    {
      var rest := bytes[cursor..];
      var n := if |rest| < 3 then |rest| else 3;
      var next := PushChunk(encoded, rest[..n]);
      assert next + Encode(bytes[cursor + n..]) == Encode(bytes) by {
        NextChunk(rest, rest[..n]);
        assert bytes[cursor + n..] == rest[n..];
        Regroup(encoded, EncodeChunk(rest[..n]), Encode(rest[n..]));
      }
      encoded, cursor := next, cursor + n;
    }
    assert bytes[cursor..] == [];
  }

  lemma Regroup(a: string, b: string, c: string)
    ensures (a + b) + c == a + (b + c)
  {}

  lemma NextChunk(rest: seq<Byte>, chunk: seq<Byte>)
    requires |rest| > 0 && chunk == rest[..if |rest| < 3 then |rest| else 3]
    ensures Encode(rest) == EncodeChunk(chunk) + Encode(rest[|chunk|..])
  {
    if |rest| <= 3 {
      assert chunk == rest && rest[|chunk|..] == [];
      assert EncodeChunk(chunk) + "" == EncodeChunk(chunk);
    }
  }

  /** The validator as written. */
  function CanonicalBase64Url(value: string): Result<(), TextError> {
    if |value| > MAX_BASE64URL_CHARS then Err(FieldBound)
    else if |value| % 4 == 1 || exists i | 0 <= i < |value| :: Index(value[i]).None? then Err(ValueEncodingInvalid)
    else
      var trailingBitsAreZero :=
        match |value| % 4
        case 0 => true
        case 2 => (var last := Index(value[|value| - 1]); last.Some? && last.value % 16 == 0)
        case 3 => (var last := Index(value[|value| - 1]); last.Some? && last.value % 4 == 0)
        case _ => false;
      if trailingBitsAreZero then Ok(()) else Err(ValueEncodingInvalid)
  }

  // ----------------------------------------------------------- reference decoder

  function DecodeQuad(a: Sextet, b: Sextet, c: Sextet, d: Sextet): seq<Byte> {
    [a * 4 + b / 16, b % 16 * 16 + c / 4, c % 4 * 64 + d]
  }

  /** Two or three trailing letters; the bits that fall off must be zero. */
  function DecodeTail(s: string): Option<seq<Byte>>
    requires 0 < |s| <= 3
  {
    if |s| == 1 || Index(s[0]).None? || Index(s[1]).None? then None
    else
      var a, b := Index(s[0]).value, Index(s[1]).value;
      if |s| == 2 then
        if b % 16 == 0 then Some([a * 4 + b / 16]) else None
      else if Index(s[2]).None? then None
      else
        var c := Index(s[2]).value;
        if c % 4 == 0 then Some([a * 4 + b / 16, b % 16 * 16 + c / 4]) else None
  }

  function Decode(s: string): Option<seq<Byte>> {
    if s == "" then Some([])
    else if |s| <= 3 then DecodeTail(s)
    else if Index(s[0]).None? || Index(s[1]).None? || Index(s[2]).None? || Index(s[3]).None? then None
    else match Decode(s[4..])
      case None => None
      case Some(rest) =>
        Some(DecodeQuad(Index(s[0]).value, Index(s[1]).value, Index(s[2]).value, Index(s[3]).value) + rest)
  }

  lemma OneByte(x: Byte)
    ensures var s := EncodeChunk([x]); |s| == 2 && DecodeTail(s) == Some([x])
  {
    hide Letter, Index;
    LettersAndIndices(x / 4, 'A');
    LettersAndIndices(x % 4 * 16, 'A');
    SextetsRebuildBytes(x, 0, 0);
  }

  lemma TwoBytes(x: Byte, y: Byte)
    ensures var s := EncodeChunk([x, y]); |s| == 3 && DecodeTail(s) == Some([x, y])
  {
    hide Letter, Index;
    LettersAndIndices(x / 4, 'A');
    LettersAndIndices(x % 4 * 16 + y / 16, 'A');
    LettersAndIndices(y % 16 * 4, 'A');
    SextetsRebuildBytes(x, y, 0);
  }

  predicate QuadReads(s: string, chunk: seq<Byte>)
    requires |s| >= 4
  {
    && Index(s[0]).Some? && Index(s[1]).Some? && Index(s[2]).Some? && Index(s[3]).Some?
    && DecodeQuad(Index(s[0]).value, Index(s[1]).value, Index(s[2]).value, Index(s[3]).value) == chunk
  }

  lemma ThreeBytes(x: Byte, y: Byte, z: Byte)
    ensures var s := EncodeChunk([x, y, z]); |s| == 4 && QuadReads(s, [x, y, z])
  {
    hide Letter, Index;
    var a, b, c, d := x / 4, x % 4 * 16 + y / 16, y % 16 * 4 + z / 64, z % 64;
    LettersAndIndices(a, 'A');
    LettersAndIndices(b, 'A');
    LettersAndIndices(c, 'A');
    LettersAndIndices(d, 'A');
    SextetsRebuildBytes(x, y, z);
    assert EncodeChunk([x, y, z]) == [Letter(a), Letter(b), Letter(c), Letter(d)];
  }

  lemma ChunkRoundTrip(chunk: seq<Byte>)
    requires 1 <= |chunk| <= 3
    ensures var s := EncodeChunk(chunk);
            && |s| == |chunk| + 1
            && (|chunk| < 3 ==> DecodeTail(s) == Some(chunk))
            && (|chunk| == 3 ==> QuadReads(s, chunk))
  {
    hide EncodeChunk, DecodeTail, QuadReads;
    if |chunk| == 1 {
      OneByte(chunk[0]);
      assert chunk == [chunk[0]];
    } else if |chunk| == 2 {
      TwoBytes(chunk[0], chunk[1]);
      assert chunk == [chunk[0], chunk[1]];
    } else {
      ThreeBytes(chunk[0], chunk[1], chunk[2]);
      assert chunk == [chunk[0], chunk[1], chunk[2]];
    }
  }

  lemma SextetsRebuildBytes(x: Byte, y: Byte, z: Byte)
    ensures var a, b, c, d := x / 4, x % 4 * 16 + y / 16, y % 16 * 4 + z / 64, z % 64;
            && a * 4 + b / 16 == x && b % 16 * 16 + c / 4 == y && c % 4 * 64 + d == z
            && (y == 0 ==> b % 16 == 0) && (z == 0 ==> c % 4 == 0)
  {
    assert (x % 4 * 16 + y / 16) / 16 == x % 4;
    assert (y % 16 * 4 + z / 64) / 4 == y % 16;
  }

  lemma DecodeStep(s: string, chunk: seq<Byte>)
    requires |s| >= 4 && QuadReads(s, chunk) && Decode(s[4..]).Some?
    ensures Decode(s) == Some(chunk + Decode(s[4..]).value)
  {
    hide Index, DecodeQuad;
  }

  lemma {:induction false} EncodeDecodes(bytes: seq<Byte>)
    ensures Decode(Encode(bytes)) == Some(bytes)
    ensures |Encode(bytes)| == |bytes| / 3 * 4 + (if |bytes| % 3 == 0 then 0 else |bytes| % 3 + 1)
  {
    hide Letter, Index, EncodeChunk, DecodeQuad, DecodeTail;
    if |bytes| > 0 {
      var n := if |bytes| < 3 then |bytes| else 3;
      var chunk, rest := bytes[..n], bytes[n..];
      NextChunk(bytes, chunk);
      ChunkRoundTrip(chunk);
      var s := Encode(bytes);
      if n < 3 {
        assert rest == [] && chunk == bytes;
        assert s == EncodeChunk(chunk);
      } else {
        EncodeDecodes(rest);
        assert s[4..] == Encode(rest);
        assert s[0] == EncodeChunk(chunk)[0] && s[1] == EncodeChunk(chunk)[1];
        assert s[2] == EncodeChunk(chunk)[2] && s[3] == EncodeChunk(chunk)[3];
        assert QuadReads(s, chunk);
        DecodeStep(s, chunk);
        assert chunk + rest == bytes;
      }
    }
  }

  lemma OneByteBack(a: Sextet, b: Sextet)
    requires b % 16 == 0
    ensures EncodeChunk([a * 4 + b / 16]) == [Letter(a), Letter(b)]
  {
    hide Letter;
    assert (a * 4 + b / 16) / 4 == a && (a * 4 + b / 16) % 4 * 16 == b;
  }

  lemma TwoBytesBack(p: Sextet, q: Sextet, r: Sextet)
    requires r % 4 == 0
    ensures EncodeChunk([p * 4 + q / 16, q % 16 * 16 + r / 4]) == [Letter(p), Letter(q), Letter(r)]
  {
    hide Letter;
    var a: int, b: int, c: int := p, q, r;
    assert (a * 4 + b / 16) / 4 == a && (a * 4 + b / 16) % 4 == b / 16;
    assert (b % 16 * 16 + c / 4) / 16 == b % 16 && (b % 16 * 16 + c / 4) % 16 * 4 == c;
  }

  lemma TailRoundTrip(s: string)
    requires 0 < |s| <= 3 && DecodeTail(s).Some?
    ensures Encode(DecodeTail(s).value) == s && |DecodeTail(s).value| == |s| - 1
  {
    hide Letter, Index, EncodeChunk;
    var a, b := Index(s[0]).value, Index(s[1]).value;
    LettersAndIndices(0, s[0]);
    LettersAndIndices(0, s[1]);
    if |s| == 2 {
      OneByteBack(a, b);
      assert s == [s[0], s[1]];
    } else {
      LettersAndIndices(0, s[2]);
      TwoBytesBack(a, b, Index(s[2]).value);
      assert s == [s[0], s[1], s[2]];
    }
  }

  lemma SplitAt4(high: nat, low: nat)
    requires low < 4
    ensures (high * 4 + low) / 4 == high && (high * 4 + low) % 4 == low
  {}

  lemma SplitAt16(high: nat, low: nat)
    requires low < 16
    ensures (high * 16 + low) / 16 == high && (high * 16 + low) % 16 == low
  {}

  lemma SplitAt64(high: nat, low: nat)
    requires low < 64
    ensures (high * 64 + low) / 64 == high && (high * 64 + low) % 64 == low
  {}

  lemma QuadRoundTrip(p: Sextet, q: Sextet, r: Sextet, t: Sextet)
    ensures EncodeChunk(DecodeQuad(p, q, r, t)) == [Letter(p), Letter(q), Letter(r), Letter(t)]
  {
    hide Letter;
    SplitAt4(p, q / 16);
    SplitAt16(q % 16, r / 4);
    SplitAt64(r % 4, t);
  }

  lemma EncodeStep(s: string, quad: seq<Byte>, rest: seq<Byte>)
    requires |s| >= 4 && QuadReads(s, quad) && Encode(rest) == s[4..]
    ensures Encode(quad + rest) == s
  {
    hide Letter, Index, EncodeChunk;
    NextChunk(quad + rest, quad);
    assert (quad + rest)[3..] == rest;
    QuadRoundTrip(Index(s[0]).value, Index(s[1]).value, Index(s[2]).value, Index(s[3]).value);
    LettersAndIndices(0, s[0]);
    LettersAndIndices(0, s[1]);
    LettersAndIndices(0, s[2]);
    LettersAndIndices(0, s[3]);
    assert s == [s[0], s[1], s[2], s[3]] + s[4..];
  }

  lemma {:induction false} DecodeEncodes(s: string)
    requires Decode(s).Some?
    ensures Encode(Decode(s).value) == s
    ensures |Decode(s).value| == |s| * 3 / 4
  {
    hide Letter, Index, EncodeChunk, DecodeTail, Encode;
    if s == "" {
      assert Encode([]) == "" by { EmptyText(); }
    } else if |s| <= 3 {
      TailRoundTrip(s);
    } else {
      DecodeEncodes(s[4..]);
      var quad := DecodeQuad(Index(s[0]).value, Index(s[1]).value, Index(s[2]).value, Index(s[3]).value);
      EncodeStep(s, quad, Decode(s[4..]).value);
    }
  }

  lemma EmptyText()
    ensures Encode([]) == ""
  {}

  // ----------------------------------------------------------- the validator decides exactly

  predicate Letters(s: string) { forall i :: 0 <= i < |s| ==> Index(s[i]).Some? }

  /** The bits that fall off the last letter are zero. */
  predicate NothingFallsOff(s: string)
    requires Letters(s)
  {
    && (|s| % 4 == 2 ==> Index(s[|s| - 1]).value % 16 == 0)
    && (|s| % 4 == 3 ==> Index(s[|s| - 1]).value % 4 == 0)
  }

  predicate WellFormed(s: string) { |s| % 4 != 1 && Letters(s) && NothingFallsOff(s) }

  lemma ShortWellFormed(s: string)
    requires |s| <= 3
    ensures Decode(s).Some? <==> WellFormed(s)
  {
    hide Index;
  }

  lemma DropFour(s: string)
    requires |s| > 3
    ensures WellFormed(s) <==>
      Index(s[0]).Some? && Index(s[1]).Some? && Index(s[2]).Some? && Index(s[3]).Some? && WellFormed(s[4..])
  {
    hide Index;
    var t := s[4..];
    assert |s| % 4 == |t| % 4;
    assert forall i | 0 <= i < |t| :: t[i] == s[i + 4];
    assert forall i | 4 <= i < |s| :: s[i] == t[i - 4];
    if |t| > 0 { assert s[|s| - 1] == t[|t| - 1]; }
  }

  /** The letters-and-last-letter test of the validator decides whether a text decodes at all. */
  lemma {:induction false} WellFormedIffDecodes(s: string)
    ensures Decode(s).Some? <==> WellFormed(s)
  {
    hide Index, DecodeTail, DecodeQuad, WellFormed;
    if |s| > 3 {
      WellFormedIffDecodes(s[4..]);
      DropFour(s);
    } else {
      ShortWellFormed(s);
    }
  }

  lemma ValidatorIsWellFormed(s: string)
    ensures CanonicalBase64Url(s).Ok? <==> |s| <= MAX_BASE64URL_CHARS && WellFormed(s)
  {
    hide Index;
  }

  /** The validator accepts exactly the texts the encoder produces from at most 12288 bytes, and no two byte sequences
      share a text. */
  lemma AcceptsExactlyEncodings(s: string)
    ensures CanonicalBase64Url(s).Ok? <==> exists bytes: seq<Byte> :: |bytes| <= 12_288 && Encode(bytes) == s
  {
    hide Index, WellFormed, CanonicalBase64Url, Decode, Encode;
    WellFormedIffDecodes(s);
    ValidatorIsWellFormed(s);
    if CanonicalBase64Url(s).Ok? {
      DecodeEncodes(s);
      assert |Decode(s).value| <= 12_288 && Encode(Decode(s).value) == s;
    }
    forall bytes: seq<Byte> | |bytes| <= 12_288 && Encode(bytes) == s
      ensures CanonicalBase64Url(s).Ok?
    {
      EncodeDecodes(bytes);
    }
  }

  lemma EncodeInjective(a: seq<Byte>, b: seq<Byte>)
    requires Encode(a) == Encode(b)
    ensures a == b
  {
    EncodeDecodes(a);
    EncodeDecodes(b);
  }
}
