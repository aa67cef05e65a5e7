/**
 * Base 64 encoding of section 4 of RFC 4648 (standard alphabet, `=` padding),
 * as produced by `Buffer.toString('base64')` for the attachment bytes that
 * are sent inline to the AI service.
 */
module Base64 {

  newtype byte = x: int | 0 <= x < 256

  /** The character of the alphabet "A".."Z", "a".."z", "0".."9", "+", "/" that encodes the 6-bit value `v`. */
  function Symbol(v: int): (c: char)
    requires 0 <= v < 64
    ensures IsSymbol(c)
  {
    if v < 26 then ('A' as int + v) as char
    else if v < 52 then ('a' as int + (v - 26)) as char
    else if v < 62 then ('0' as int + (v - 52)) as char
    else if v == 62 then '+'
    else '/'
  }

  /** The 6-bit value a character of the alphabet stands for. */
  function SymbolValue(c: char): (v: int)
    ensures -1 <= v < 64
  {
    if 'A' <= c <= 'Z' then c as int - 'A' as int
    else if 'a' <= c <= 'z' then c as int - 'a' as int + 26
    else if '0' <= c <= '9' then c as int - '0' as int + 52
    else if c == '+' then 62
    else if c == '/' then 63
    else -1
  }

  /** `c` is one of the 64 symbols (not padding, not foreign). */
  predicate IsSymbol(c: char) {
    'A' <= c <= 'Z' || 'a' <= c <= 'z' || '0' <= c <= '9' || c == '+' || c == '/'
  }

  lemma SymbolRoundTrip(v: int)
    requires 0 <= v < 64
    ensures SymbolValue(Symbol(v)) == v
  {
  }

  /** The encoding: every 3 bytes become 4 symbols; a final group of 1 or 2 bytes is padded with `=`. */
  function Encode(b: seq<byte>): (r: string)
    ensures |r| == 4 * ((|b| + 2) / 3)
    ensures forall i :: 0 <= i < |r| ==> IsSymbol(r[i]) || r[i] == '='
    ensures forall i :: 0 <= i < |r| && r[i] == '=' ==> |r| - 2 <= i
  {
    if |b| < 3 then Final(b) else Quad(b[0], b[1], b[2]) + Encode(b[3..])
  }

  /** The last, partial group: nothing, or 2 or 3 symbols padded to 4 with `=`. */
  function Final(b: seq<byte>): (r: string)
    requires |b| < 3
    ensures |r| == 4 * ((|b| + 2) / 3)
    ensures forall i :: 0 <= i < |r| ==> IsSymbol(r[i]) || r[i] == '='
    ensures forall i :: 0 <= i < |r| && r[i] == '=' ==> |r| - 2 <= i
  {
    if |b| == 0 then ""
    else if |b| == 1 then
      var b0 := b[0] as int;
      [Symbol(b0 / 4), Symbol((b0 % 4) * 16), '=', '=']
    else
      var b0, b1 := b[0] as int, b[1] as int;
      [Symbol(b0 / 4), Symbol((b0 % 4) * 16 + b1 / 16), Symbol((b1 % 16) * 4), '=']
  }

  /** The four symbols of a full 3-byte group. */
  function Quad(x: byte, y: byte, z: byte): (r: string)
    ensures |r| == 4 && forall i :: 0 <= i < 4 ==> IsSymbol(r[i])
  {
    var b0, b1, b2 := x as int, y as int, z as int;
    [Symbol(b0 / 4), Symbol((b0 % 4) * 16 + b1 / 16), Symbol((b1 % 16) * 4 + b2 / 64), Symbol(b2 % 64)]
  }

  /** The inverse of `Encode`, exact on its outputs. On other text it is lenient:
      it decodes four-symbol groups from the front and stops, keeping what it
      has, at the first group it cannot read, after a padded group, or before
      fewer than four remaining characters. */
  function Decode(s: string): seq<byte>
    decreases |s|
  {
    if |s| < 4 then []
    else
      var v0, v1, v2, v3 := SymbolValue(s[0]), SymbolValue(s[1]), SymbolValue(s[2]), SymbolValue(s[3]);
      if v0 < 0 || v1 < 0 then []
      else if s[2] == '=' then [(v0 * 4 + v1 / 16) as byte]
      else if v2 < 0 then []
      else if s[3] == '=' then [(v0 * 4 + v1 / 16) as byte, ((v1 % 16) * 16 + v2 / 4) as byte]
      else if v3 < 0 then []
      else [(v0 * 4 + v1 / 16) as byte, ((v1 % 16) * 16 + v2 / 4) as byte, ((v2 % 4) * 64 + v3) as byte]
           + Decode(s[4..])
  }

  /** Decoding undoes encoding, so no attachment byte is lost or altered. */
  lemma {:induction false} DecodeEncode(b: seq<byte>)
    ensures Decode(Encode(b)) == b
    decreases |b|
  {
    if |b| < 3 {
      FinalDecodes(b);
    } else {
      assert Encode(b) == Quad(b[0], b[1], b[2]) + Encode(b[3..]);
      QuadDecodes(b[0], b[1], b[2], Encode(b[3..]));
      DecodeEncode(b[3..]);
      assert b == [b[0], b[1], b[2]] + b[3..];
    }
  }

  /** The final partial group decodes to its bytes. */
  lemma FinalDecodes(b: seq<byte>)
    requires |b| < 3
    ensures Decode(Final(b)) == b
  {
    if |b| == 1 {
      var b0 := b[0] as int;
      SymbolRoundTrip(b0 / 4);
      SymbolRoundTrip((b0 % 4) * 16);
      SplitBits(b0, 0);
    } else if |b| == 2 {
      var b0, b1 := b[0] as int, b[1] as int;
      SymbolRoundTrip(b0 / 4);
      SymbolRoundTrip((b0 % 4) * 16 + b1 / 16);
      SymbolRoundTrip((b1 % 16) * 4);
      SplitBits(b0, b1);
      SplitBits(b1, 0);
    }
  }

  /** A full group decodes to its three bytes, whatever follows it. */
  lemma QuadDecodes(x: byte, y: byte, z: byte, rest: string)
    ensures Decode(Quad(x, y, z) + rest) == [x, y, z] + Decode(rest)
  {
    var b0, b1, b2 := x as int, y as int, z as int;
    SymbolRoundTrip(b0 / 4);
    SymbolRoundTrip((b0 % 4) * 16 + b1 / 16);
    SymbolRoundTrip((b1 % 16) * 4 + b2 / 64);
    SymbolRoundTrip(b2 % 64);
    SplitBits(b0, b1);
    SplitBits(b1, b2);
    var s := Quad(x, y, z) + rest;
    assert s[4..] == rest;
  }

  /** The bit arithmetic behind the three shapes of group: how the high and low bits of a byte recombine. */
  lemma SplitBits(p: int, q: int)
    requires 0 <= p < 256 && 0 <= q < 256
    ensures (p / 4) * 4 + ((p % 4) * 16 + q / 16) / 16 == p
    ensures ((p % 16) * 4 + q / 64) / 4 == p % 16
    ensures (((p % 16) * 4 + q / 64) % 4) * 64 + q % 64 == q
    ensures ((p % 4) * 16 + q / 16) % 16 == q / 16
  {
  }
}
