/**
  Base16 encoding (section 8 of RFC 4648) as Go's `hex.EncodeToString` writes it:
  two lowercase digits per byte, high nibble first. The decryption key handed to
  the transform engine is the base16 text of the key's bytes.
 */
module Hex {
  import opened Wrappers

  /** One byte of a Go string. */
  newtype byte = x: int | 0 <= x < 256

  /** The digit for a nibble, lowercase as Go emits it. */
  function Digit(v: int): (c: char)
    requires 0 <= v < 16
    ensures '0' <= c <= '9' || 'a' <= c <= 'f'
  {
    if v < 10 then ('0' as int + v) as char else ('a' as int + v - 10) as char
  }

  /** The digit of the high nibble of `x`. */
  function High(x: byte): char { Digit(x as int / 16) }

  /** The digit of the low nibble of `x`. */
  function Low(x: byte): char { Digit(x as int % 16) }

  /** The base16 text of `b`. */
  function Encode(b: seq<byte>): (s: string)
    ensures |s| == 2 * |b|
    ensures forall i :: 0 <= i < |b| ==>
              s[2 * i] == High(b[i]) && s[2 * i + 1] == Low(b[i])
  {
    if |b| == 0 then []
    else [High(b[0]), Low(b[0])] + Encode(b[1..])
  }

  /** The value of one base16 digit, accepting both cases as Go's decoder does. */
  function DigitValue(c: char): (r: Option<int>)
    ensures r.Some? ==> 0 <= r.value < 16
  {
    if '0' <= c <= '9' then Some(c as int - '0' as int)
    else if 'a' <= c <= 'f' then Some(c as int - 'a' as int + 10)
    else if 'A' <= c <= 'F' then Some(c as int - 'A' as int + 10)
    else None
  }

  /** The bytes a base16 text denotes, or None for an odd length or a non-digit. */
  function Decode(s: string): Option<seq<byte>>
    decreases |s|
  {
    if |s| == 0 then Some([])
    else if |s| == 1 then None
    else
      var hi, lo, rest := DigitValue(s[0]), DigitValue(s[1]), Decode(s[2..]);
      if hi.Some? && lo.Some? && rest.Some? then Some([(hi.value * 16 + lo.value) as byte] + rest.value) else None
  }

  /** Reading a digit back gives the nibble it was written for. */
  lemma DigitRoundTrip(v: int)
    requires 0 <= v < 16
    ensures DigitValue(Digit(v)) == Some(v)
  {
  }

  /** The two digits of a byte read back as its nibbles, which recombine into the byte. */
  lemma ByteDigits(x: byte)
    ensures DigitValue(High(x)) == Some(x as int / 16) && DigitValue(Low(x)) == Some(x as int % 16)
    ensures (x as int / 16 * 16 + x as int % 16) as byte == x
  {
    DigitRoundTrip(x as int / 16);
    DigitRoundTrip(x as int % 16);
  }

  /** Decoding the two digits of one byte in front of a text gives that byte in front of the text's bytes. */
  lemma DecodeCons(x: byte, t: string)
    ensures Decode([High(x), Low(x)] + t) == if Decode(t).Some? then Some([x] + Decode(t).value) else None
  {
    var s := [High(x), Low(x)] + t;
    ByteDigits(x);
    assert s[2..] == t;
    assert Decode(s) == if Decode(t).Some? then Some([(x as int / 16 * 16 + x as int % 16) as byte] + Decode(t).value) else None;
  }

  /** Decoding undoes encoding. */
  lemma {:induction false} DecodeEncode(b: seq<byte>)
    ensures Decode(Encode(b)) == Some(b)
  {
    if |b| > 0 {
      assert Encode(b) == [High(b[0]), Low(b[0])] + Encode(b[1..]);
      DecodeCons(b[0], Encode(b[1..]));
      DecodeEncode(b[1..]);
      assert b == [b[0]] + b[1..];
    }
  }

  /** Distinct keys are handed to the transform engine as distinct texts. */
  lemma EncodeInjective(b1: seq<byte>, b2: seq<byte>)
    ensures Encode(b1) == Encode(b2) ==> b1 == b2
  {
    DecodeEncode(b1);
    DecodeEncode(b2);
  }
}
