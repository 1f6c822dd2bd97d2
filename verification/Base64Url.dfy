/**
 Base64url without padding (`base64url_encode_no_pad`; section 5 of RFC 4648), with a decoder
 that shows the encoding loses nothing.
 */
module Base64Url {
  import opened Bytes

  type digit = d: int | 0 <= d < 64

  /** `ABC…Zabc…z0…9-_`. */
  function Char(d: digit): byte {
    if d < 26 then 65 + d
    else if d < 52 then 97 + (d - 26)
    else if d < 62 then 48 + (d - 52)
    else if d == 62 then 45
    else 95
  }

  function DigitOf(c: byte): digit {
    if 65 <= c <= 90 then c - 65
    else if 97 <= c <= 122 then c - 97 + 26
    else if 48 <= c <= 57 then c - 48 + 52
    else if c == 45 then 62
    else if c == 95 then 63
    else 0
  }

  /** The 24-bit group of up to three bytes, missing ones zero. */
  function Word(chunk: seq<byte>): nat
    requires 1 <= |chunk| <= 3
  {
    var b0, b1, b2: int := chunk[0], if |chunk| > 1 then chunk[1] else 0, if |chunk| > 2 then chunk[2] else 0;
    b0 * 0x1_0000 + b1 * 0x100 + b2
  }

  /** One chunk: two, three or four characters for one, two or three bytes. */
  function EncodeChunk(chunk: seq<byte>): (r: seq<byte>)
    requires 1 <= |chunk| <= 3
    ensures |r| == |chunk| + 1
  {
    var w := Word(chunk);
    [Char(w / 0x4_0000 % 64), Char(w / 0x1000 % 64)]
    + (if |chunk| > 1 then [Char(w / 0x40 % 64)] else [])
    + (if |chunk| > 2 then [Char(w % 64)] else [])
  }

  function Encode(data: seq<byte>): seq<byte> {
    if data == [] then []
    else if |data| <= 3 then EncodeChunk(data)
    else EncodeChunk(data[..3]) + Encode(data[3..])
  }

  /** The body of the loop: the chunk's characters, pushed one by one. */
  method PushChunk(start: seq<byte>, chunk: seq<byte>) returns (result: seq<byte>)
    requires 1 <= |chunk| <= 3
    ensures result == start + EncodeChunk(chunk)
  {
    var w := Word(chunk);
    result := start + [Char(w / 0x4_0000 % 64)];
    result := result + [Char(w / 0x1000 % 64)];
    if |chunk| > 1 {
      result := result + [Char(w / 0x40 % 64)];
    }
    if |chunk| > 2 {
      result := result + [Char(w % 64)];
    }
  }

  lemma {:induction false} EncodeStep(rest: seq<byte>, n: nat)
    requires rest != [] && n == if |rest| < 3 then |rest| else 3
    ensures Encode(rest) == EncodeChunk(rest[..n]) + Encode(rest[n..])
  {
    if |rest| <= 3 {
      NothingAfter(EncodeChunk(rest));
      assert rest[..n] == rest && rest[n..] == [];
    }
  }

  lemma NothingAfter(s: seq<byte>)
    ensures s + [] == s
  {
  }

  lemma Regrouped(a: seq<byte>, b: seq<byte>, c: seq<byte>)
    ensures a + (b + c) == (a + b) + c
  {
  }

  /** `base64url_encode_no_pad`: the loop over chunks of three. */
  method EncodeNoPad(data: seq<byte>) returns (result: seq<byte>)
    ensures result == Encode(data)
  {
    result := [];
    var rest := data;
    while rest != []
      invariant Encode(data) == result + Encode(rest)
      decreases |rest|
    {
      var n := if |rest| < 3 then |rest| else 3;
      EncodeStep(rest, n);
      Regrouped(result, EncodeChunk(rest[..n]), Encode(rest[n..]));
      result := PushChunk(result, rest[..n]);
      rest := rest[n..];
    }
  }

  function DecodeChunk(s: seq<byte>): (r: seq<byte>)
    requires 2 <= |s| <= 4
    ensures |r| == |s| - 1
  {
    var d0, d1: int := DigitOf(s[0]), DigitOf(s[1]);
    var d2, d3: int := if |s| > 2 then DigitOf(s[2]) else 0, if |s| > 3 then DigitOf(s[3]) else 0;
    var w := d0 * 0x4_0000 + d1 * 0x1000 + d2 * 0x40 + d3;
    [w / 0x1_0000 % 256] + (if |s| > 2 then [w / 0x100 % 256] else []) + (if |s| > 3 then [w % 256] else [])
  }

  function Decode(s: seq<byte>): seq<byte> {
    if |s| < 2 then []
    else if |s| <= 4 then DecodeChunk(s)
    else DecodeChunk(s[..4]) + Decode(s[4..])
  }

  lemma CharsAreDigits(d: digit)
    ensures DigitOf(Char(d)) == d
  {
  }

  lemma Regroup(w: nat)
    requires w < 0x100_0000
    ensures w == (w / 0x4_0000 % 64) * 0x4_0000 + (w / 0x1000 % 64) * 0x1000 + (w / 0x40 % 64) * 0x40 + w % 64
  {
  }

  lemma BytesOfWord(b0: byte, b1: byte, b2: byte)
    ensures var w := b0 as int * 0x1_0000 + b1 as int * 0x100 + b2;
            && w < 0x100_0000
            && w / 0x1_0000 % 256 == b0 && w / 0x100 % 256 == b1 && w % 256 == b2
            && (b2 == 0 ==> w % 64 == 0) && (b1 == 0 && b2 == 0 ==> w / 0x40 % 64 == 0)
  {
    var x, y, z: int := b0, b1, b2;
    var w := x * 0x1_0000 + y * 0x100 + z;
    assert w / 0x100 == x * 0x100 + y;
    assert w / 0x1_0000 == x;
    assert (x * 0x100 + y) % 0x100 == y;
    assert w % 0x100 == z;
    assert z == 0 ==> w == 64 * (x * 0x400 + y * 4);
    assert y == 0 && z == 0 ==> w / 0x40 == 64 * (x * 16);
  }

  lemma ChunkRoundTrip(chunk: seq<byte>)
    requires 1 <= |chunk| <= 3
    ensures DecodeChunk(EncodeChunk(chunk)) == chunk
  {
    var w := Word(chunk);
    BytesOfWord(chunk[0], if |chunk| > 1 then chunk[1] else 0, if |chunk| > 2 then chunk[2] else 0);
    Regroup(w);
    var d0, d1, d2, d3 := w / 0x4_0000 % 64, w / 0x1000 % 64, w / 0x40 % 64, w % 64;
    CharsAreDigits(d0);
    CharsAreDigits(d1);
    CharsAreDigits(d2);
    CharsAreDigits(d3);
  }

  lemma {:induction false} DecodeInvertsEncode(data: seq<byte>)
    ensures Decode(Encode(data)) == data
  {
    if data != [] {
      if |data| <= 3 {
        ChunkRoundTrip(data);
      } else {
        var head, rest := EncodeChunk(data[..3]), Encode(data[3..]);
        ChunkRoundTrip(data[..3]);
        DecodeInvertsEncode(data[3..]);
        assert (head + rest)[..4] == head && (head + rest)[4..] == rest;
        assert rest != [];
        assert data == data[..3] + data[3..];
      }
    }
  }

  /** Two byte strings with one encoding are one byte string. */
  lemma EncodeIsInjective(a: seq<byte>, b: seq<byte>)
    requires Encode(a) == Encode(b)
    ensures a == b
  {
    DecodeInvertsEncode(a);
    DecodeInvertsEncode(b);
  }

  // ---------------------------------------------------------------------------
  // Character by character
  // ---------------------------------------------------------------------------

  /** The URL-safe alphabet: A to Z, a to z, 0 to 9, minus and underscore. */
  function Symbol(d: digit): char {
    if d < 26 then 'A' + d as char
    else if d < 52 then 'a' + (d - 26) as char
    else if d < 62 then '0' + (d - 52) as char
    else if d == 62 then '-'
    else '_'
  }

  /** The byte at a position, zero past the end. */
  function ByteAt(data: seq<byte>, i: nat): byte {
    if i < |data| then data[i] else 0
  }

  /** Three bytes in sixes, high bits first. */
  function SixBits(b0: byte, b1: byte, b2: byte, r: nat): digit {
    if r == 0 then b0 / 4
    else if r == 1 then b0 % 4 * 16 + b1 / 16
    else if r == 2 then b1 % 16 * 4 + b2 / 64
    else b2 % 64
  }

  function DigitAt(data: seq<byte>, i: nat, r: nat): digit {
    SixBits(ByteAt(data, 3 * i), ByteAt(data, 3 * i + 1), ByteAt(data, 3 * i + 2), r)
  }

  lemma SixesOf(q0: digit, q1: digit, q2: digit, q3: digit)
    ensures var w := q0 as int * 0x4_0000 + q1 as int * 0x1000 + q2 as int * 0x40 + q3;
            w / 0x4_0000 % 64 == q0 && w / 0x1000 % 64 == q1 && w / 0x40 % 64 == q2 && w % 64 == q3
  {
    var w := q0 as int * 0x4_0000 + q1 as int * 0x1000 + q2 as int * 0x40 + q3;
    assert w / 0x40 == q0 * 0x1000 + q1 * 0x40 + q2;
    assert w / 0x1000 == q0 * 0x40 + q1;
    assert w / 0x4_0000 == q0;
  }

  lemma WordInSixes(b0: byte, b1: byte, b2: byte)
    ensures var w := b0 as int * 0x1_0000 + b1 as int * 0x100 + b2;
            && w / 0x4_0000 % 64 == b0 / 4 && w / 0x1000 % 64 == b0 % 4 * 16 + b1 / 16
            && w / 0x40 % 64 == b1 % 16 * 4 + b2 / 64 && w % 64 == b2 % 64
  {
    var xh, xl, yh, yl, zh, zl: int := b0 / 4, b0 % 4, b1 / 16, b1 % 16, b2 / 64, b2 % 64;
    assert b0 as int == 4 * xh + xl && b1 as int == 16 * yh + yl && b2 as int == 64 * zh + zl;
    SixesOf(xh, xl * 16 + yh, yl * 4 + zh, zl);
  }

  lemma ChunkExactly(chunk: seq<byte>, r: nat)
    requires 1 <= |chunk| <= 3 && r <= |chunk|
    ensures EncodeChunk(chunk)[r] as int == Symbol(DigitAt(chunk, 0, r)) as int
  {
    WordInSixes(ByteAt(chunk, 0), ByteAt(chunk, 1), ByteAt(chunk, 2));
  }

  lemma DigitShift(data: seq<byte>, i: nat, r: nat)
    requires |data| > 3
    ensures DigitAt(data, 0, r) == DigitAt(data[..3], 0, r) && DigitAt(data, i + 1, r) == DigitAt(data[3..], i, r)
  {
    var rest := data[3..];
    assert forall j: nat :: ByteAt(rest, j) == ByteAt(data, j + 3);
    assert 3 * (i + 1) == 3 * i + 3;
  }

  lemma {:induction false} EncodeLength(data: seq<byte>)
    ensures |Encode(data)| == (4 * |data| + 2) / 3
  {
    if |data| > 3 {
      EncodeLength(data[3..]);
    }
  }

  /**
   Base64url as RFC 4648 draws it: the bytes' bits in sixes, high ones first, each the character
   of the URL-safe alphabet with that number; no padding.
   */
  lemma {:induction false} EncodeExactly(data: seq<byte>, i: nat, r: nat)
    requires r < 4 && 4 * i + r < |Encode(data)|
    ensures Encode(data)[4 * i + r] as int == Symbol(DigitAt(data, i, r)) as int
  {
    if |data| <= 3 {
      ChunkExactly(data, r);
    } else if i == 0 {
      ChunkExactly(data[..3], r);
      DigitShift(data, 0, r);
    } else {
      EncodeExactly(data[3..], i - 1, r);
      DigitShift(data, i - 1, r);
      assert Encode(data)[4 * i + r] == Encode(data[3..])[4 * (i - 1) + r];
    }
  }
}
