/** UTF-8, the encoding `Buffer.from(string)` applies before base64 when the
    Basic credentials are built. Dafny's `char` is a Unicode scalar value. */
module Utf8 {
  import opened Values

  type Byte = b: int | 0 <= b < 256

  predicate IsScalar(cp: int)
  {
    0 <= cp < 0xD800 || 0xE000 <= cp < 0x11_0000
  }

  predicate IsContinuation(b: Byte)
  {
    0x80 <= b < 0xC0
  }

  /** The one to four bytes of one scalar value. */
  function EncodeScalar(c: char): (r: seq<Byte>)
    ensures 1 <= |r| <= 4
    ensures |r| == 1 <==> c as int < 0x80
    ensures |r| == 1 ==> r[0] == c as int
    ensures SequenceLength(r[0]) == |r|
    ensures forall k :: 1 <= k < |r| ==> IsContinuation(r[k])
  {
    var cp := c as int;
    if cp < 0x80 then [cp]
    else if cp < 0x800 then [0xC0 + cp / 64, 0x80 + cp % 64]
    else if cp < 0x1_0000 then [0xE0 + cp / 4096, 0x80 + (cp / 64) % 64, 0x80 + cp % 64]
    else [0xF0 + cp / 262144, 0x80 + (cp / 4096) % 64, 0x80 + (cp / 64) % 64, 0x80 + cp % 64]
  }

  function Encode(s: string): (r: seq<Byte>)
    ensures |r| >= |s|
  {
    if s == [] then [] else EncodeScalar(s[0]) + Encode(s[1..])
  }

  /** The length of the sequence a lead byte announces; 0 when it cannot lead one. */
  function SequenceLength(lead: Byte): (n: nat)
    ensures n <= 4
  {
    if lead < 0x80 then 1
    else if 0xC2 <= lead < 0xE0 then 2
    else if 0xE0 <= lead < 0xF0 then 3
    else if 0xF0 <= lead < 0xF5 then 4
    else 0
  }

  /** Decodes one well-formed sequence: no overlong form, no surrogate, nothing above U+10FFFF. */
  function DecodeScalar(b: seq<Byte>): (r: Option<char>)
    requires 1 <= |b| <= 4 && |b| == SequenceLength(b[0])
  {
    if exists k :: 1 <= k < |b| && !IsContinuation(b[k]) then None
    else
      var cp: int :=
        if |b| == 1 then b[0] as int
        else if |b| == 2 then (b[0] as int - 0xC0) * 64 + (b[1] - 0x80)
        else if |b| == 3 then (b[0] as int - 0xE0) * 4096 + (b[1] as int - 0x80) * 64 + (b[2] - 0x80)
        else (b[0] as int - 0xF0) * 262144 + (b[1] as int - 0x80) * 4096 + (b[2] as int - 0x80) * 64 + (b[3] - 0x80);
      var least: int := if |b| == 1 then 0 else if |b| == 2 then 0x80 else if |b| == 3 then 0x800 else 0x1_0000;
      if least <= cp && IsScalar(cp) then Some(cp as char) else None
  }

  function Decode(b: seq<Byte>): (r: Option<string>)
  {
    if b == [] then Some([])
    else
      var n := SequenceLength(b[0]);
      if n == 0 || |b| < n then None
      else match DecodeScalar(b[..n])
        case None => None
        case Some(c) =>
          match Decode(b[n..])
          case None => None
          case Some(rest) => Some([c] + rest)
  }

  lemma TwoByteRoundTrip(c: char)
    requires 0x80 <= c as int < 0x800
    ensures DecodeScalar(EncodeScalar(c)) == Some(c)
  {
    var cp := c as int;
    var b := EncodeScalar(c);
    assert b == [0xC0 + cp / 64, 0x80 + cp % 64];
    assert cp == (cp / 64) * 64 + cp % 64;
    assert !exists k :: 1 <= k < |b| && !IsContinuation(b[k]);
  }

  lemma ThreeByteRoundTrip(c: char)
    requires 0x800 <= c as int < 0x1_0000
    ensures DecodeScalar(EncodeScalar(c)) == Some(c)
  {
    var cp := c as int;
    var b := EncodeScalar(c);
    assert b == [0xE0 + cp / 4096, 0x80 + (cp / 64) % 64, 0x80 + cp % 64];
    assert cp == (cp / 64) * 64 + cp % 64;
    assert cp / 64 == (cp / 4096) * 64 + (cp / 64) % 64;
    assert !exists k :: 1 <= k < |b| && !IsContinuation(b[k]);
  }

  lemma FourByteRoundTrip(c: char)
    requires 0x1_0000 <= c as int
    ensures DecodeScalar(EncodeScalar(c)) == Some(c)
  {
    var cp := c as int;
    var b := EncodeScalar(c);
    assert b == [0xF0 + cp / 262144, 0x80 + (cp / 4096) % 64, 0x80 + (cp / 64) % 64, 0x80 + cp % 64];
    assert cp == (cp / 64) * 64 + cp % 64;
    assert cp / 64 == (cp / 4096) * 64 + (cp / 64) % 64;
    assert cp / 4096 == (cp / 262144) * 64 + (cp / 4096) % 64;
    assert !exists k :: 1 <= k < |b| && !IsContinuation(b[k]);
  }

  lemma ScalarRoundTrip(c: char)
    ensures DecodeScalar(EncodeScalar(c)) == Some(c)
  {
    var cp := c as int;
    if cp < 0x80 {
    } else if cp < 0x800 {
      TwoByteRoundTrip(c);
    } else if cp < 0x1_0000 {
      ThreeByteRoundTrip(c);
    } else {
      FourByteRoundTrip(c);
    }
  }

  /** Decoding undoes encoding: the credentials survive the byte conversion. */
  lemma {:induction false} RoundTrip(s: string)
    ensures Decode(Encode(s)) == Some(s)
  {
    if s != [] {
      var head, tail := EncodeScalar(s[0]), Encode(s[1..]);
      var b := head + tail;
      assert b[0] == head[0];
      assert b[..|head|] == head && b[|head|..] == tail;
      ScalarRoundTrip(s[0]);
      RoundTrip(s[1..]);
      assert [s[0]] + s[1..] == s;
    }
  }

  /** An ASCII string encodes to its own code units, one byte each. */
  lemma {:induction false} AsciiEncodesToItself(s: string)
    requires forall i :: 0 <= i < |s| ==> s[i] as int < 0x80
    ensures |Encode(s)| == |s|
    ensures forall i :: 0 <= i < |s| ==> Encode(s)[i] == s[i] as int
  {
    if s != [] {
      AsciiEncodesToItself(s[1..]);
    }
  }
}
