// The basic Base64 alphabet with padding (section 4 of RFC 4648), as
// java.util.Base64's basic encoder writes it and its basic decoder reads it,
// plus the UTF-8 encoding of text (String.getBytes(UTF_8)).
module Base64 {
  import opened Wrappers
  import opened Strings

  /** The alphabet character for a 6-bit value. */
  function CharOf(v: int): (c: char)
    requires 0 <= v < 64
  {
    if v < 26 then ('A' as int + v) as char
    else if v < 52 then ('a' as int + v - 26) as char
    else if v < 62 then ('0' as int + v - 52) as char
    else if v == 62 then '+'
    else '/'
  }

  /** The 6-bit value of an alphabet character; None for any other character,
   *  the padding character '=' included. */
  function ValueOf(c: char): (r: Option<int>)
    ensures r.Some? ==> 0 <= r.value < 64 && CharOf(r.value) == c
  {
    if 'A' <= c <= 'Z' then Some(c as int - 'A' as int)
    else if 'a' <= c <= 'z' then Some(c as int - 'a' as int + 26)
    else if '0' <= c <= '9' then Some(c as int - '0' as int + 52)
    else if c == '+' then Some(62)
    else if c == '/' then Some(63)
    else None
  }

  lemma ValueOfCharOf(v: int)
    requires 0 <= v < 64
    ensures ValueOf(CharOf(v)) == Some(v)
  {
  }

  /** The four characters for three bytes. */
  function EncodeUnit(x: byte, y: byte, z: byte): (u: string)
    ensures |u| == 4
  {
    [CharOf(x / 4), CharOf((x % 4) * 16 + y / 16), CharOf((y % 16) * 4 + z / 64), CharOf(z % 64)]
  }

  /** `Base64.getEncoder().encodeToString`: full units, then a final unit
   *  padded with "==" after one byte or "=" after two. */
  function Encode(b: seq<byte>): (s: string)
    ensures |s| == 4 * ((|b| + 2) / 3)
  {
    if |b| == 0 then ""
    else if |b| == 1 then [CharOf(b[0] / 4), CharOf((b[0] % 4) * 16), '=', '=']
    else if |b| == 2 then
      [CharOf(b[0] / 4), CharOf((b[0] % 4) * 16 + b[1] / 16), CharOf((b[1] % 16) * 4), '=']
    else EncodeUnit(b[0], b[1], b[2]) + Encode(b[3..])
  }

  function Byte0(v0: int, v1: int): byte
    requires 0 <= v0 < 64 && 0 <= v1 < 64
  {
    v0 * 4 + v1 / 16
  }

  function Byte1(v1: int, v2: int): byte
    requires 0 <= v1 < 64 && 0 <= v2 < 64
  {
    (v1 % 16) * 16 + v2 / 4
  }

  function Byte2(v2: int, v3: int): byte
    requires 0 <= v2 < 64 && 0 <= v3 < 64
  {
    (v2 % 4) * 64 + v3
  }

  /** The last unit of the input, four characters long: two data characters,
   *  then "==", a data character and "=", or two data characters. Bits left
   *  over in the last data character are ignored, as the Java decoder does. */
  function DecodeLastUnit(u: string): (r: Option<seq<byte>>)
    requires |u| == 4
    ensures r.Some? ==> 1 <= |r.value| <= 3
  {
    match (ValueOf(u[0]), ValueOf(u[1]))
    case (Some(v0), Some(v1)) =>
      if u[2] == '=' then
        if u[3] == '=' then Some([Byte0(v0, v1)]) else None
      else
        (match ValueOf(u[2])
         case None => None
         case Some(v2) =>
           if u[3] == '=' then Some([Byte0(v0, v1), Byte1(v1, v2)])
           else match ValueOf(u[3])
             case None => None
             case Some(v3) => Some([Byte0(v0, v1), Byte1(v1, v2), Byte2(v2, v3)]))
    case _ => None
  }

  /** A final unit written without padding: two or three data characters. */
  function DecodeUnpadded(u: string): (r: Option<seq<byte>>)
    requires 1 <= |u| <= 3
  {
    if |u| == 1 then None
    else match (ValueOf(u[0]), ValueOf(u[1]))
      case (Some(v0), Some(v1)) =>
        if |u| == 2 then Some([Byte0(v0, v1)])
        else (match ValueOf(u[2])
              case None => None
              case Some(v2) => Some([Byte0(v0, v1), Byte1(v1, v2)]))
      case _ => None
  }

  /** A unit of four data characters. */
  function DecodeFullUnit(u: string): (r: Option<seq<byte>>)
    requires |u| == 4
  {
    match (ValueOf(u[0]), ValueOf(u[1]), ValueOf(u[2]), ValueOf(u[3]))
    case (Some(v0), Some(v1), Some(v2), Some(v3)) =>
      Some([Byte0(v0, v1), Byte1(v1, v2), Byte2(v2, v3)])
    case _ => None
  }

  /** `Base64.getDecoder().decode`: None stands for IllegalArgumentException.
   *  Only the last unit may carry padding, padding may be omitted, a single
   *  character in the last unit is rejected, and nothing may follow padding. */
  function Decode(s: string): (r: Option<seq<byte>>)
  {
    if |s| == 0 then Some([])
    else if |s| < 4 then DecodeUnpadded(s)
    else if |s| == 4 then DecodeLastUnit(s)
    else match (DecodeFullUnit(s[..4]), Decode(s[4..]))
      case (Some(first), Some(rest)) => Some(first + rest)
      case _ => None
  }

  lemma UnitArithmetic(x: byte, y: byte, z: byte)
    ensures Byte0(x / 4, (x % 4) * 16 + y / 16) == x
    ensures Byte1((x % 4) * 16 + y / 16, (y % 16) * 4 + z / 64) == y
    ensures Byte2((y % 16) * 4 + z / 64, z % 64) == z
  {
    var b := (x % 4) * 16 + y / 16;
    var c := (y % 16) * 4 + z / 64;
    assert b / 16 == x % 4 && b % 16 == y / 16;
    assert c / 4 == y % 16 && c % 4 == z / 64;
  }

  lemma UnitRoundTrip(x: byte, y: byte, z: byte)
    ensures DecodeFullUnit(EncodeUnit(x, y, z)) == Some([x, y, z])
    ensures DecodeLastUnit(EncodeUnit(x, y, z)) == Some([x, y, z])
  {
    UnitArithmetic(x, y, z);
    ValueOfCharOf(x / 4);
    ValueOfCharOf((x % 4) * 16 + y / 16);
    ValueOfCharOf((y % 16) * 4 + z / 64);
    ValueOfCharOf(z % 64);
  }

  lemma OneByteRoundTrip(x: byte)
    ensures Decode(Encode([x])) == Some([x])
  {
    var v1 := (x % 4) * 16;
    assert v1 / 16 == x % 4;
    assert Byte0(x / 4, v1) == x;
    ValueOfCharOf(x / 4);
    ValueOfCharOf(v1);
  }

  lemma TwoByteRoundTrip(x: byte, y: byte)
    ensures Decode(Encode([x, y])) == Some([x, y])
  {
    UnitArithmetic(x, y, 0);
    ValueOfCharOf(x / 4);
    ValueOfCharOf((x % 4) * 16 + y / 16);
    ValueOfCharOf((y % 16) * 4);
  }

  /** Decoding undoes encoding, for every byte sequence. */
  lemma {:induction false} DecodeEncode(b: seq<byte>)
    ensures Decode(Encode(b)) == Some(b)
    decreases |b|
  {
    if |b| == 1 {
      assert b == [b[0]];
      OneByteRoundTrip(b[0]);
    } else if |b| == 2 {
      assert b == [b[0], b[1]];
      TwoByteRoundTrip(b[0], b[1]);
    } else if |b| == 3 {
      assert b == [b[0], b[1], b[2]];
      ThreeByteRoundTrip(b[0], b[1], b[2]);
    } else if |b| > 3 {
      DecodeEncode(b[3..]);
      LongRoundTrip(b);
    }
  }

  /** One more unit in front of a sequence that round-trips keeps it so. */
  lemma LongRoundTrip(b: seq<byte>)
    requires |b| > 3 && Decode(Encode(b[3..])) == Some(b[3..])
    ensures Decode(Encode(b)) == Some(b)
  {
    SplitAfterThree(b);
    var u, t := EncodeUnit(b[0], b[1], b[2]), Encode(b[3..]);
    assert Encode(b) == u + t;
    UnitRoundTrip(b[0], b[1], b[2]);
    DecodeSplit(u, t, [b[0], b[1], b[2]], b[3..]);
  }

  lemma SplitAfterThree(b: seq<byte>)
    requires |b| >= 3
    ensures [b[0], b[1], b[2]] + b[3..] == b
  {
    assert b[..3] == [b[0], b[1], b[2]];
    assert b[..3] + b[3..] == b;
  }

  /** A text longer than one unit decodes as its first unit, then the rest. */
  lemma DecodeSplit(u: string, t: string, first: seq<byte>, rest: seq<byte>)
    requires |u| == 4 && |t| > 0
    requires DecodeFullUnit(u) == Some(first) && Decode(t) == Some(rest)
    ensures Decode(u + t) == Some(first + rest)
  {
    assert (u + t)[..4] == u && (u + t)[4..] == t;
  }

  lemma ThreeByteRoundTrip(x: byte, y: byte, z: byte)
    ensures Decode(Encode([x, y, z])) == Some([x, y, z])
  {
    var b := [x, y, z];
    assert b[3..] == [];
    assert Encode(b) == EncodeUnit(x, y, z) + Encode([]);
    UnitRoundTrip(x, y, z);
  }

  /** The decoder's edge cases: missing padding is accepted, a lone last
   *  character, misplaced padding and data after padding are rejected. */
  lemma DecoderEdgeCases()
    ensures Decode("QQ") == Some([65])
    ensures Decode("QQ==") == Some([65])
    ensures Decode("Q").None?
    ensures Decode("Q===").None?
    ensures Decode("QQ=A").None?
    ensures Decode("QQ==QQ==").None?
  {
    assert ValueOf('Q') == Some(16);
  }

  /** The UTF-8 bytes of one character. */
  function Utf8Char(c: char): (bs: seq<byte>)
    ensures 1 <= |bs| <= 4
    ensures (c as int < 0x80) <==> |bs| == 1
    ensures |bs| == 1 ==> bs[0] == c as int
  {
    var n := c as int;
    if n < 0x80 then [n]
    else if n < 0x800 then [0xC0 + n / 64, 0x80 + n % 64]
    else if n < 0x10000 then [0xE0 + n / 4096, 0x80 + (n / 64) % 64, 0x80 + n % 64]
    else [0xF0 + n / 262144, 0x80 + (n / 4096) % 64, 0x80 + (n / 64) % 64, 0x80 + n % 64]
  }

  /** `String.getBytes(StandardCharsets.UTF_8)`. */
  function Utf8(s: string): (bs: seq<byte>)
    ensures |s| <= |bs| <= 4 * |s|
  {
    if |s| == 0 then [] else Utf8Char(s[0]) + Utf8(s[1..])
  }

  predicate IsAscii(s: string)
  {
    forall i :: 0 <= i < |s| ==> s[i] as int < 0x80
  }

  /** ASCII text is encoded one byte per character, with its own code. */
  lemma {:induction false} Utf8Ascii(s: string)
    requires IsAscii(s)
    ensures |Utf8(s)| == |s|
    ensures forall i :: 0 <= i < |s| ==> Utf8(s)[i] == s[i] as int
  {
    if |s| > 0 {
      Utf8Ascii(s[1..]);
    }
  }

  /** Encoding distributes over concatenation. */
  lemma {:induction false} Utf8Append(a: string, b: string)
    ensures Utf8(a + b) == Utf8(a) + Utf8(b)
  {
    if |a| > 0 {
      assert (a + b)[0] == a[0];
      assert (a + b)[1..] == a[1..] + b;
      Utf8Append(a[1..], b);
      calc {
        Utf8(a + b);
        Utf8Char(a[0]) + Utf8(a[1..] + b);
        Utf8Char(a[0]) + (Utf8(a[1..]) + Utf8(b));
        (Utf8Char(a[0]) + Utf8(a[1..])) + Utf8(b);
      }
    } else {
      assert a + b == b;
    }
  }
}
