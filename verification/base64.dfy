/** Base64 with the standard alphabet and `=` padding (section 4 of RFC 4648),
    as `Buffer.toString('base64')` produces it. */
module Base64 {
  import opened Values
  import opened Utf8

  /** The character for a 6-bit value, in the order of Table 1 of RFC 4648. */
  function CharOf(i: int): (c: char)
    requires 0 <= i < 64
    ensures IndexOf(c) == i
    ensures c != '='
  {
    if i < 26 then ('A' as int + i) as char
    else if i < 52 then ('a' as int + (i - 26)) as char
    else if i < 62 then ('0' as int + (i - 52)) as char
    else if i == 62 then '+'
    else '/'
  }

  /** The 6-bit value of an alphabet character; -1 for any other character. */
  function IndexOf(c: char): (i: int)
    ensures -1 <= i < 64
  {
    if 'A' <= c <= 'Z' then c as int - 'A' as int
    else if 'a' <= c <= 'z' then c as int - 'a' as int + 26
    else if '0' <= c <= '9' then c as int - '0' as int + 52
    else if c == '+' then 62
    else if c == '/' then 63
    else -1
  }

  /** Three bytes, 24 bits, as four characters. */
  function EncodeGroup(b0: Byte, b1: Byte, b2: Byte): (r: string)
    ensures |r| == 4 && forall k :: 0 <= k < 4 ==> IndexOf(r[k]) >= 0
  {
    [CharOf(b0 / 4), CharOf((b0 % 4) * 16 + b1 / 16), CharOf((b1 % 16) * 4 + b2 / 64), CharOf(b2 % 64)]
  }

  /** The whole input in groups of three bytes; a final group of one or two bytes is padded. */
  function Encode(b: seq<Byte>): (r: string)
    ensures |r| == (|b| + 2) / 3 * 4
  {
    if |b| == 0 then ""
    else if |b| == 1 then [CharOf(b[0] / 4), CharOf((b[0] % 4) * 16), '=', '=']
    else if |b| == 2 then [CharOf(b[0] / 4), CharOf((b[0] % 4) * 16 + b[1] / 16), CharOf((b[1] % 16) * 4), '=']
    else EncodeGroup(b[0], b[1], b[2]) + Encode(b[3..])
  }

  /** Four unpadded characters back to three bytes. */
  function DecodeGroup(q: string): (r: Option<seq<Byte>>)
    requires |q| == 4
    ensures r.Some? ==> |r.value| == 3
  {
    var d0, d1, d2, d3 := IndexOf(q[0]), IndexOf(q[1]), IndexOf(q[2]), IndexOf(q[3]);
    if d0 < 0 || d1 < 0 || d2 < 0 || d3 < 0 then None
    else Some([d0 * 4 + d1 / 16, (d1 % 16) * 16 + d2 / 4, (d2 % 4) * 64 + d3])
  }

  /** The last four characters, which may end in one or two `=`. */
  function DecodeLast(q: string): (r: Option<seq<Byte>>)
    requires |q| == 4
    ensures r.Some? ==> 1 <= |r.value| <= 3
  {
    var d0, d1, d2 := IndexOf(q[0]), IndexOf(q[1]), IndexOf(q[2]);
    if q[2] == '=' && q[3] == '=' then
      if d0 < 0 || d1 < 0 then None else Some([d0 * 4 + d1 / 16])
    else if q[3] == '=' then
      if d0 < 0 || d1 < 0 || d2 < 0 then None else Some([d0 * 4 + d1 / 16, (d1 % 16) * 16 + d2 / 4])
    else DecodeGroup(q)
  }

  function Decode(s: string): (r: Option<seq<Byte>>)
  {
    if |s| == 0 then Some([])
    else if |s| < 4 then None
    else if |s| == 4 then DecodeLast(s)
    else match DecodeGroup(s[..4])
      case None => None
      case Some(head) =>
        match Decode(s[4..])
        case None => None
        case Some(tail) => Some(head + tail)
  }

  lemma GroupRoundTrip(b0: Byte, b1: Byte, b2: Byte)
    ensures DecodeGroup(EncodeGroup(b0, b1, b2)) == Some([b0, b1, b2])
  {
    var d1 := (b0 % 4) * 16 + b1 / 16;
    var d2 := (b1 % 16) * 4 + b2 / 64;
    assert d1 / 16 == b0 % 4 && d1 % 16 == b1 / 16;
    assert d2 / 4 == b1 % 16 && d2 % 4 == b2 / 64;
  }

  lemma OneByteRoundTrip(b0: Byte)
    ensures Decode(Encode([b0])) == Some([b0])
  {
    var d1 := (b0 % 4) * 16;
    assert d1 / 16 == b0 % 4;
  }

  lemma TwoBytesRoundTrip(b0: Byte, b1: Byte)
    ensures Decode(Encode([b0, b1])) == Some([b0, b1])
  {
    var d1 := (b0 % 4) * 16 + b1 / 16;
    var d2 := (b1 % 16) * 4;
    assert d1 / 16 == b0 % 4 && d1 % 16 == b1 / 16;
    assert d2 / 4 == b1 % 16;
    var s := Encode([b0, b1]);
    assert s == [CharOf(b0 / 4), CharOf(d1), CharOf(d2), '='];
  }

  lemma ThreeBytesRoundTrip(b0: Byte, b1: Byte, b2: Byte)
    ensures Decode(EncodeGroup(b0, b1, b2)) == Some([b0, b1, b2])
  {
    var q := EncodeGroup(b0, b1, b2);
    assert q[2] != '=' && q[3] != '=';
    assert Decode(q) == DecodeLast(q) == DecodeGroup(q);
    GroupRoundTrip(b0, b1, b2);
  }

  /** A group that decodes, followed by text that decodes, decodes to both. */
  lemma DecodeGroupThenRest(head: string, tail: string, h: seq<Byte>, rest: seq<Byte>)
    requires |head| == 4 && |tail| >= 4
    requires DecodeGroup(head) == Some(h) && Decode(tail) == Some(rest)
    ensures Decode(head + tail) == Some(h + rest)
  {
    var s := head + tail;
    assert s[..4] == head && s[4..] == tail;
  }

  lemma EncodeLength(b: seq<Byte>)
    requires |b| >= 1
    ensures |Encode(b)| >= 4
  {
  }

  /** Decoding undoes encoding, for every byte string. */
  lemma {:induction false} RoundTrip(b: seq<Byte>)
    ensures Decode(Encode(b)) == Some(b)
    decreases |b|
  {
    if |b| == 1 {
      OneByteRoundTrip(b[0]);
      assert b == [b[0]];
    } else if |b| == 2 {
      TwoBytesRoundTrip(b[0], b[1]);
      assert b == [b[0], b[1]];
    } else if |b| == 3 {
      ThreeBytesRoundTrip(b[0], b[1], b[2]);
      assert b[3..] == [];
      assert b == [b[0], b[1], b[2]];
    } else if |b| > 3 {
      var head, tail := EncodeGroup(b[0], b[1], b[2]), Encode(b[3..]);
      EncodeLength(b[3..]);
      GroupRoundTrip(b[0], b[1], b[2]);
      RoundTrip(b[3..]);
      DecodeGroupThenRest(head, tail, [b[0], b[1], b[2]], b[3..]);
      assert [b[0], b[1], b[2]] + b[3..] == b;
    }
  }
}
