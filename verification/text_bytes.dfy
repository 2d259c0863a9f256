/**
  Conversion between strings and payload bytes, standing in for Node's
  `new Buffer(s, 'utf8')` and `buffer.toString()`.

  The engine never looks inside a payload: it only relies on decoding
  returning the string that was encoded. The model therefore uses a fixed
  three-byte, big-endian encoding of each Unicode scalar value instead of
  UTF-8. Like Node's decoder, `Decode` never fails: a unit that is not a
  scalar value, and a truncated tail, become U+FFFD.
 */
module TextBytes {

  newtype byte = b: int | 0 <= b < 256

  type Bytes = seq<byte>

  /** The replacement character a lenient decoder substitutes. */
  const Replacement: char := '\U{FFFD}'

  predicate IsScalar(n: int) {
    0 <= n < 0xD800 || 0xE000 <= n < 0x11_0000
  }

  /** The three bytes standing for one character. */
  function EncodeChar(c: char): (b: Bytes)
    ensures |b| == 3
    ensures b[0] as int * 0x1_0000 + b[1] as int * 0x100 + b[2] as int == c as int
  {
    var n := c as int;
    [(n / 0x1_0000) as byte, (n / 0x100 % 0x100) as byte, (n % 0x100) as byte]
  }

  /** The character three bytes stand for, or U+FFFD when they name no scalar value. */
  function DecodeUnit(b0: byte, b1: byte, b2: byte): char {
    var n := b0 as int * 0x1_0000 + b1 as int * 0x100 + b2 as int;
    if IsScalar(n) then n as char else Replacement
  }

  function Encode(s: string): (b: Bytes)
    ensures |b| == 3 * |s|
  {
    seq(3 * |s|, k requires 0 <= k < 3 * |s| => EncodeChar(s[k / 3])[k % 3])
  }

  function Decode(b: Bytes): string
  {
    if |b| == 0 then []
    else if |b| < 3 then [Replacement]
    else [DecodeUnit(b[0], b[1], b[2])] + Decode(b[3..])
  }

  /** Decoding what was encoded gives back the string. */
  lemma {:induction false} DecodeEncode(s: string)
    ensures Decode(Encode(s)) == s
  {
    if |s| > 0 {
      var e := Encode(s);
      EncodeCons(s);
      assert DecodeUnit(e[0], e[1], e[2]) == s[0] by {
        assert IsScalar(s[0] as int);
      }
      DecodeEncode(s[1..]);
    }
  }

  /** The payload of a non-empty string starts with its first character's bytes. */
  lemma EncodeCons(s: string)
    requires |s| > 0
    ensures Encode(s)[..3] == EncodeChar(s[0])
    ensures Encode(s)[3..] == Encode(s[1..])
  {
    var e := Encode(s);
    forall k | 0 <= k < 3 * (|s| - 1)
      ensures e[3..][k] == Encode(s[1..])[k]
    {
      assert (k + 3) / 3 == k / 3 + 1;
      assert (k + 3) % 3 == k % 3;
    }
  }
}
