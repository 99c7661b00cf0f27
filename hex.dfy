/**
 * Go's `encoding/hex.EncodeToString`: Base16 (section 8 of RFC 4648)
 * written with the lower-case alphabet, two digits per byte, high nibble
 * first. `Decode` is the strict inverse used to state the round trip.
 */
module Hex {
  import opened Wrappers

  newtype byte = x: int | 0 <= x < 256

  const Alphabet: string := "0123456789abcdef"

  predicate IsLowerHexDigit(c: char)
  {
    '0' <= c <= '9' || 'a' <= c <= 'f'
  }

  /** The value of one lower-case hex digit. */
  function DigitValue(c: char): (v: Option<nat>)
    ensures v.Some? <==> IsLowerHexDigit(c)
    ensures v.Some? ==> v.value < 16 && Alphabet[v.value] == c
  {
    if '0' <= c <= '9' then Some(c as nat - '0' as nat)
    else if 'a' <= c <= 'f' then Some(c as nat - 'a' as nat + 10)
    else None
  }

  /** Each digit of the alphabet reads back as its position. */
  lemma DigitValueOfAlphabet(k: nat)
    requires k < 16
    ensures DigitValue(Alphabet[k]) == Some(k)
  {
  }

  function Encode(bytes: seq<byte>): (s: string)
    ensures |s| == 2 * |bytes|
    ensures forall i :: 0 <= i < |s| ==> IsLowerHexDigit(s[i])
  {
    if bytes == [] then ""
    else [Alphabet[bytes[0] as int / 16], Alphabet[bytes[0] as int % 16]] + Encode(bytes[1..])
  }

  /** Reads pairs of lower-case digits; odd length or any other character is `None`. */
  function Decode(s: string): (r: Option<seq<byte>>)
    ensures r.Some? ==> 2 * |r.value| == |s|
    decreases |s|
  {
    if s == [] then Some([])
    else if |s| == 1 then None
    else
      match (DigitValue(s[0]), DigitValue(s[1]), Decode(s[2..]))
      case (Some(hi), Some(lo), Some(rest)) => Some([(hi * 16 + lo) as byte] + rest)
      case _ => None
  }

  /** Two digits in front of a string decode to one byte in front of what that string decodes to. */
  lemma DecodePair(c0: char, c1: char, t: string)
    requires IsLowerHexDigit(c0) && IsLowerHexDigit(c1)
    ensures Decode([c0, c1] + t) ==
      if Decode(t).Some? then Some([(DigitValue(c0).value * 16 + DigitValue(c1).value) as byte] + Decode(t).value)
      else None
  {
    assert ([c0, c1] + t)[2..] == t;
  }

  /** The two digits of a byte read back as its high and low nibble. */
  lemma DigitsOfByte(b: byte)
    ensures var hi, lo := Alphabet[b as int / 16], Alphabet[b as int % 16];
      IsLowerHexDigit(hi) && IsLowerHexDigit(lo) &&
      (DigitValue(hi).value * 16 + DigitValue(lo).value) as byte == b
  {
    DigitValueOfAlphabet(b as int / 16);
    DigitValueOfAlphabet(b as int % 16);
  }

  /** Decoding an encoding gives back the bytes. */
  lemma {:induction false} DecodeEncode(bytes: seq<byte>)
    ensures Decode(Encode(bytes)) == Some(bytes)
  {
    if bytes != [] {
      var b, rest := bytes[0], bytes[1..];
      var hi, lo := Alphabet[b as int / 16], Alphabet[b as int % 16];
      assert Encode(bytes) == [hi, lo] + Encode(rest);
      DecodeEncode(rest);
      DigitsOfByte(b);
      DecodePair(hi, lo, Encode(rest));
      assert [b] + rest == bytes;
    }
  }

  /** Every string the decoder accepts is the encoding of what it decodes to. */
  lemma {:induction false} EncodeDecode(s: string)
    requires Decode(s).Some?
    ensures Encode(Decode(s).value) == s
    decreases |s|
  {
    if s != [] {
      var hi := DigitValue(s[0]).value;
      var lo := DigitValue(s[1]).value;
      var rest := Decode(s[2..]).value;
      EncodeDecode(s[2..]);
      var b := (hi * 16 + lo) as byte;
      assert Decode(s).value == [b] + rest;
      assert b as int / 16 == hi && b as int % 16 == lo;
      assert s == [s[0], s[1]] + s[2..];
    }
  }

  /** Distinct byte strings have distinct encodings. */
  lemma EncodeInjective(a: seq<byte>, b: seq<byte>)
    requires Encode(a) == Encode(b)
    ensures a == b
  {
    DecodeEncode(a);
    DecodeEncode(b);
  }
}
