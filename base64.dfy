/**
 * Base 64 encoding as defined in section 4 of RFC 4648: the 64-character
 * alphabet `A-Z a-z 0-9 + /`, 24-bit groups written as four characters, and
 * `=` padding for a final group of one or two bytes.
 * `Buffer.from(bytes).toString('base64')` is `Encode`; `Decode` is the strict
 * reading of the same format.
 */
module Base64 {
  import opened Wrappers

  type Byte = x: int | 0 <= x < 256
  type Sextet = x: int | 0 <= x < 64

  /** The alphabet of Table 1 in section 4 of RFC 4648. */
  function CharOf(v: Sextet): (c: char)
    ensures ValueOf(c) == Some(v)
  {
    if v < 26 then ('A' as int + v) as char
    else if v < 52 then ('a' as int + (v - 26)) as char
    else if v < 62 then ('0' as int + (v - 52)) as char
    else if v == 62 then '+'
    else '/'
  }

  function ValueOf(c: char): (r: Option<Sextet>)
    ensures r.Some? ==> c != '='
  {
    if 'A' <= c <= 'Z' then Some(c as int - 'A' as int)
    else if 'a' <= c <= 'z' then Some(c as int - 'a' as int + 26)
    else if '0' <= c <= '9' then Some(c as int - '0' as int + 52)
    else if c == '+' then Some(62)
    else if c == '/' then Some(63)
    else None
  }

  /** Three bytes as four characters. */
  function EncodeTriple(b0: Byte, b1: Byte, b2: Byte): (g: string)
    ensures |g| == 4
  {
    [CharOf(b0 / 4), CharOf((b0 % 4) * 16 + b1 / 16), CharOf((b1 % 16) * 4 + b2 / 64), CharOf(b2 % 64)]
  }

  /** A final pair of bytes: three characters and one `=`. */
  function EncodePair(b0: Byte, b1: Byte): (g: string)
    ensures |g| == 4
  {
    [CharOf(b0 / 4), CharOf((b0 % 4) * 16 + b1 / 16), CharOf((b1 % 16) * 4), '=']
  }

  /** A final single byte: two characters and `==`. */
  function EncodeSingle(b0: Byte): (g: string)
    ensures |g| == 4
  {
    [CharOf(b0 / 4), CharOf((b0 % 4) * 16), '=', '=']
  }

  function Encode(bs: seq<Byte>): (s: string)
    ensures |s| == 4 * ((|bs| + 2) / 3)
    decreases |bs|
  {
    if |bs| == 0 then ""
    else if |bs| == 1 then EncodeSingle(bs[0])
    else if |bs| == 2 then EncodePair(bs[0], bs[1])
    else EncodeTriple(bs[0], bs[1], bs[2]) + Encode(bs[3..])
  }

  /** Three bytes from four alphabet characters. */
  function DecodeQuad(c0: Sextet, c1: Sextet, c2: Sextet, c3: Sextet): seq<Byte> {
    [c0 * 4 + c1 / 16, (c1 % 16) * 16 + c2 / 4, (c2 % 4) * 64 + c3]
  }

  /** A group of four characters that is not the last one: no padding allowed. */
  function DecodeGroup(g: string): Option<seq<Byte>>
    requires |g| == 4
  {
    match (ValueOf(g[0]), ValueOf(g[1]), ValueOf(g[2]), ValueOf(g[3]))
    case (Some(c0), Some(c1), Some(c2), Some(c3)) => Some(DecodeQuad(c0, c1, c2, c3))
    case _ => None
  }

  /** The last group: four characters, or two or three followed by `=` padding. */
  function DecodeLastGroup(g: string): (r: Option<seq<Byte>>)
    requires |g| == 4
  {
    match (ValueOf(g[0]), ValueOf(g[1]), ValueOf(g[2]), ValueOf(g[3]))
    case (Some(c0), Some(c1), Some(c2), Some(c3)) => Some(DecodeQuad(c0, c1, c2, c3))
    case (Some(c0), Some(c1), Some(c2), None) =>
      if g[3] == '=' then Some(DecodeQuad(c0, c1, c2, 0)[..2]) else None
    case (Some(c0), Some(c1), None, None) =>
      if g[2] == '=' && g[3] == '=' then Some(DecodeQuad(c0, c1, 0, 0)[..1]) else None
    case _ => None
  }

  /** Strict decoding: `None` for a length that is not a multiple of four, a foreign character or misplaced padding. */
  function Decode(s: string): (r: Option<seq<Byte>>)
    ensures r.Some? ==> |s| % 4 == 0
    decreases |s|
  {
    if |s| == 0 then Some([])
    else if |s| < 4 then None
    else if |s| == 4 then DecodeLastGroup(s)
    else
      match (DecodeGroup(s[..4]), Decode(s[4..]))
      case (Some(head), Some(tail)) => Some(head + tail)
      case _ => None
  }

  lemma TripleRoundTrip(b0: Byte, b1: Byte, b2: Byte)
    ensures DecodeGroup(EncodeTriple(b0, b1, b2)) == Some([b0, b1, b2])
    ensures DecodeLastGroup(EncodeTriple(b0, b1, b2)) == Some([b0, b1, b2])
  {
    var c1 := (b0 % 4) * 16 + b1 / 16;
    var c2 := (b1 % 16) * 4 + b2 / 64;
    assert c1 / 16 == b0 % 4 && c1 % 16 == b1 / 16;
    assert c2 / 4 == b1 % 16 && c2 % 4 == b2 / 64;
    assert DecodeQuad(b0 / 4, c1, c2, b2 % 64) == [b0, b1, b2];
  }

  lemma PairRoundTrip(b0: Byte, b1: Byte)
    ensures DecodeLastGroup(EncodePair(b0, b1)) == Some([b0, b1])
  {
    var c1 := (b0 % 4) * 16 + b1 / 16;
    var c2 := (b1 % 16) * 4;
    assert c1 / 16 == b0 % 4 && c1 % 16 == b1 / 16;
    assert c2 / 4 == b1 % 16;
    assert DecodeQuad(b0 / 4, c1, c2, 0)[..2] == [b0, b1];
  }

  lemma SingleRoundTrip(b0: Byte)
    ensures DecodeLastGroup(EncodeSingle(b0)) == Some([b0])
  {
    var c1 := (b0 % 4) * 16;
    assert c1 / 16 == b0 % 4;
    assert DecodeQuad(b0 / 4, c1, 0, 0)[..1] == [b0];
  }

  /** Decoding undoes encoding, for every byte string. */
  lemma {:induction false} DecodeEncode(bs: seq<Byte>)
    ensures Decode(Encode(bs)) == Some(bs)
    decreases |bs|
  {
    if |bs| == 0 {
    } else if |bs| == 1 {
      SingleRoundTrip(bs[0]);
      assert bs == [bs[0]];
    } else if |bs| == 2 {
      PairRoundTrip(bs[0], bs[1]);
      assert bs == [bs[0], bs[1]];
    } else {
      var head := EncodeTriple(bs[0], bs[1], bs[2]);
      var tail := Encode(bs[3..]);
      var s := head + tail;
      TripleRoundTrip(bs[0], bs[1], bs[2]);
      assert bs[..3] == [bs[0], bs[1], bs[2]];
      if |bs| == 3 {
        assert tail == "" && s == head;
        assert bs == bs[..3];
      } else {
        assert s[..4] == head && s[4..] == tail;
        DecodeEncode(bs[3..]);
        assert bs == bs[..3] + bs[3..];
      }
    }
  }

  /** Only the empty byte string encodes to the empty text. */
  lemma EncodeEmpty(bs: seq<Byte>)
    ensures Encode(bs) == "" <==> bs == []
  {
  }
}
