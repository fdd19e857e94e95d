/** The worker's password hashing and id generation. SHA-256 itself is a foreign primitive and
    appears as a function parameter from the password to its digest bytes; what is modelled
    is the hexadecimal encoding of the digest, the comparison, and the id layout. */
module Crypto {
  import opened Common

  type Byte = b: nat | b < 256

  /** `b.toString(16).padStart(2, '0')`. */
  function HexByte(b: Byte): (r: string)
    ensures r == [Digit(b / 16), Digit(b % 16)]
  {
    ByteDigits(b);
    PadStart(NatToRadix(b, 16), 2, '0')
  }

  /** A byte prints as one or two hexadecimal digits. */
  lemma ByteDigits(b: Byte)
    ensures NatToRadix(b, 16) == if b < 16 then [Digit(b)] else [Digit(b / 16), Digit(b % 16)]
  {
    if b >= 16 {
      DivMod(b, 16);
      assert NatToRadix(b, 16) == NatToRadix(b / 16, 16) + [Digit(b % 16)];
    }
  }

  /** A lower-case hexadecimal digit, as toString(16) prints it. */
  predicate IsLowerHex(c: char) {
    '0' <= c <= '9' || 'a' <= c <= 'f'
  }

  /** `bytes.map(b => b.toString(16).padStart(2, '0')).join('')`. */
  function HexEncode(bytes: seq<Byte>): (r: string)
    ensures |r| == 2 * |bytes|
    ensures forall i :: 0 <= i < |r| ==> IsLowerHex(r[i])
  {
    if bytes == [] then "" else HexByte(bytes[0]) + HexEncode(bytes[1..])
  }

  /** Reads two hex digits per byte; the inverse of HexEncode. */
  function HexDecode(s: string): seq<Byte>
    requires |s| % 2 == 0
    requires forall i :: 0 <= i < |s| ==> IsLowerHex(s[i])
  {
    if s == [] then []
    else
      assert |s| >= 2;
      assert IsLowerHex(s[0]) && IsLowerHex(s[1]);
      assert IsRadixDigit(s[0], 16) && IsRadixDigit(s[1], 16);
      [DigitValue(s[0]) * 16 + DigitValue(s[1])] + HexDecode(s[2..])
  }

  /** Decoding the encoding gives the bytes back. */
  lemma {:induction false} HexRoundTrip(bytes: seq<Byte>)
    ensures HexDecode(HexEncode(bytes)) == bytes
  {
    if bytes != [] {
      var b := bytes[0];
      var s := HexEncode(bytes);
      assert s == HexByte(b) + HexEncode(bytes[1..]);
      assert s[0] == HexByte(b)[0] && s[1] == HexByte(b)[1];
      assert s[2..] == HexEncode(bytes[1..]);
      HexByteDecodes(b);
      HexRoundTrip(bytes[1..]);
    }
  }

  /** The two digits of one byte read back as that byte. */
  lemma HexByteDecodes(b: Byte)
    ensures IsRadixDigit(HexByte(b)[0], 16) && IsRadixDigit(HexByte(b)[1], 16)
    ensures DigitValue(HexByte(b)[0]) * 16 + DigitValue(HexByte(b)[1]) == b
  {
    var hi, lo := b / 16, b % 16;
    assert HexByte(b) == [Digit(hi), Digit(lo)];
    DigitPairValue(hi, lo);
  }

  lemma DigitPairValue(hi: nat, lo: nat)
    requires hi < 16 && lo < 16
    ensures IsRadixDigit(Digit(hi), 16) && IsRadixDigit(Digit(lo), 16)
    ensures DigitValue(Digit(hi)) * 16 + DigitValue(Digit(lo)) == hi * 16 + lo
  {
    DigitRoundTrip(hi);
    DigitRoundTrip(lo);
  }

  /** The fixed two-character width makes the encoding injective. */
  lemma HexEncodeInjective(a: seq<Byte>, b: seq<Byte>)
    requires HexEncode(a) == HexEncode(b)
    ensures a == b
  {
    HexRoundTrip(a);
    HexRoundTrip(b);
  }

  /** hashPassword, with `sha256` the Web Crypto digest of the UTF-8 encoded password. */
  function HashPassword(password: string, sha256: string -> seq<Byte>): (hash: string)
    ensures |hash| == 2 * |sha256(password)|
    ensures |sha256(password)| == 32 ==> |hash| == 64
  {
    HexEncode(sha256(password))
  }

  /** verifyPassword. */
  function VerifyPassword(password: string, hash: string, sha256: string -> seq<Byte>): bool {
    HashPassword(password, sha256) == hash
  }

  /** A password verifies against its own hash, and against another password's hash exactly
      when the two digests agree. */
  lemma VerifyPasswordCorrect(password: string, other: string, sha256: string -> seq<Byte>)
    ensures VerifyPassword(password, HashPassword(password, sha256), sha256)
    ensures VerifyPassword(password, HashPassword(other, sha256), sha256) <==> sha256(password) == sha256(other)
  {
    if VerifyPassword(password, HashPassword(other, sha256), sha256) {
      HexEncodeInjective(sha256(password), sha256(other));
    }
  }

  /** `s.substring(start, end)`, with both indices clamped to the string. */
  function Substring(s: string, start: nat, end: nat): (r: string)
    ensures |r| <= |s| && |r| <= if end >= start then end - start else start - end
  {
    var a := if start < |s| then start else |s|;
    var b := if end < |s| then end else |s|;
    if a <= b then s[a..b] else s[b..a]
  }

  /** generateId. `now` is Date.now() and `randomText` is Math.random().toString(36), of which
      the characters at positions 2 to 14 are kept. */
  function GenerateId(prefix: string, now: nat, randomText: string): (id: string)
    ensures var ts := NatToRadix(now, 36);
            var rand := Substring(randomText, 2, 15);
            id == if prefix != "" then prefix + "_" + ts + "_" + rand else ts + "_" + rand
  {
    var randomPart := Substring(randomText, 2, 15);
    var timestampPart := NatToRadix(now, 36);
    if prefix != "" then prefix + "_" + timestampPart + "_" + randomPart
    else timestampPart + "_" + randomPart
  }

  /** The timestamp is printed in digits only, so it contains no underscore. */
  lemma TimestampLacksUnderscore(now: nat)
    ensures '_' !in NatToRadix(now, 36)
  {
    var ts := NatToRadix(now, 36);
    forall i | 0 <= i < |ts|
      ensures ts[i] != '_'
    {
      assert IsRadixDigit(ts[i], 36);
    }
  }

  /** The layout of an id: with a prefix it splits on `_` into prefix, timestamp and random
      part; without one it splits into timestamp and random part and cannot start with `_`.
      The timestamp reads back to `now` in base 36. */
  lemma GenerateIdFields(prefix: string, now: nat, randomText: string)
    requires '_' !in prefix && '_' !in randomText
    ensures var ts := NatToRadix(now, 36);
            var rand := Substring(randomText, 2, 15);
            var id := GenerateId(prefix, now, randomText);
            (prefix != "" ==> Split(id, '_') == [prefix, ts, rand])
            && (prefix == "" ==> Split(id, '_') == [ts, rand] && id[0] != '_')
            && RadixValue(ts, 36) == now
  {
    var ts := NatToRadix(now, 36);
    var rand := Substring(randomText, 2, 15);
    TimestampLacksUnderscore(now);
    SubstringLacks(randomText, 2, 15, '_');
    TwoFields(ts, rand);
    if prefix != "" {
      assert prefix + "_" + ts + "_" + rand == prefix + ['_'] + (ts + "_" + rand);
      SplitAfterWord(prefix, '_', ts + "_" + rand);
    } else {
      assert IsRadixDigit(ts[0], 36);
    }
    NatToRadixRoundTrip(now, 36);
  }

  /** A character absent from a string is absent from every substring of it. */
  lemma SubstringLacks(s: string, start: nat, end: nat, c: char)
    requires c !in s
    ensures c !in Substring(s, start, end)
  {
    var a := if start < |s| then start else |s|;
    var b := if end < |s| then end else |s|;
    var r := Substring(s, start, end);
    forall i | 0 <= i < |r|
      ensures r[i] != c
    {
      if a <= b {
        assert r[i] == s[a + i];
      } else {
        assert r[i] == s[b + i];
      }
    }
  }

  /** Two underscore-free words joined by one underscore split back into the two. */
  lemma TwoFields(a: string, b: string)
    requires '_' !in a && '_' !in b
    ensures Split(a + "_" + b, '_') == [a, b]
  {
    SplitWithoutSeparator(b, '_');
    SplitAfterWord(a, '_', b);
    assert a + "_" + b == a + ['_'] + b;
  }
}
