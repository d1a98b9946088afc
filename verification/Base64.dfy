/**
 base64.RawURLEncoding: the URL-safe alphabet of section 5 of RFC 4648, without
 padding (section 3.2). Go's decoder skips carriage returns and line feeds, and
 does not look at the unused bits of the last character.
 */
module Base64 {
  import opened Wrappers

  type Byte = n: int | 0 <= n < 256
  type Sextet = n: int | 0 <= n < 64

  function Encoded(v: Sextet): char {
    if v < 26 then ('A' as int + v) as char
    else if v < 52 then ('a' as int + v - 26) as char
    else if v < 62 then ('0' as int + v - 52) as char
    else if v == 62 then '-' else '_'
  }

  function Decoded(c: char): Option<Sextet> {
    if 'A' <= c <= 'Z' then Some(c as int - 'A' as int)
    else if 'a' <= c <= 'z' then Some(c as int - 'a' as int + 26)
    else if '0' <= c <= '9' then Some(c as int - '0' as int + 52)
    else if c == '-' then Some(62) else if c == '_' then Some(63) else None
  }

  lemma DecodedEncoded(v: Sextet)
    ensures Decoded(Encoded(v)) == Some(v)
  {
  }

  /** Consecutive characters. */
  function Run(first: char, n: nat): string
    requires first as int + n < 0xD800
  {
    seq(n, i requires 0 <= i < n => (first as int + i) as char)
  }

  /** Table 2 of RFC 4648: the characters for 0 to 63. */
  lemma EncodedExact(v: Sextet)
    ensures Encoded(v) == (Run('A', 26) + Run('a', 26) + Run('0', 10) + "-_")[v]
  {
  }

  predicate Plain(s: string) {
    forall i :: 0 <= i < |s| ==> Decoded(s[i]).Some?
  }

  /** The four characters for three bytes. */
  function Quantum(x: Byte, y: Byte, z: Byte): (s: string)
    ensures |s| == 4
    ensures Decoded(s[0]) == Some(x / 4) && Decoded(s[1]) == Some(x % 4 * 16 + y / 16)
    ensures Decoded(s[2]) == Some(y % 16 * 4 + z / 64) && Decoded(s[3]) == Some(z % 64)
  {
    DecodedEncoded(x / 4);
    DecodedEncoded(x % 4 * 16 + y / 16);
    DecodedEncoded(y % 16 * 4 + z / 64);
    DecodedEncoded(z % 64);
    [Encoded(x / 4), Encoded(x % 4 * 16 + y / 16), Encoded(y % 16 * 4 + z / 64), Encoded(z % 64)]
  }

  /** Missing bytes of the last quantum count as zero, and their characters are left out. */
  function Encode(p: seq<Byte>): (s: string)
    ensures Plain(s)
  {
    hide Quantum, Decoded;
    if |p| == 0 then "" else
    if |p| == 1 then Quantum(p[0], 0, 0)[..2] else
    if |p| == 2 then Quantum(p[0], p[1], 0)[..3] else
      var quantum := Quantum(p[0], p[1], p[2]);
      var rest := Encode(p[3..]);
      assert forall i :: 4 <= i < |quantum + rest| ==> (quantum + rest)[i] == rest[i - 4];
      quantum + rest
  }

  function WithoutBreaks(s: string): string {
    if s == "" then "" else
    if s[0] == '\r' || s[0] == '\n' then WithoutBreaks(s[1..]) else [s[0]] + WithoutBreaks(s[1..])
  }

  function DecodeQuanta(s: string): Option<seq<Byte>> {
    if s == "" then Some([]) else
    if |s| == 1 then None else
    var a, b := Decoded(s[0]), Decoded(s[1]);
    if a.None? || b.None? then None else
    var first := a.value * 4 + b.value / 16;
    if |s| == 2 then Some([first]) else
    var c := Decoded(s[2]);
    if c.None? then None else
    var second := b.value % 16 * 16 + c.value / 4;
    if |s| == 3 then Some([first, second]) else
    var d := Decoded(s[3]);
    if d.None? then None else
    var third := c.value % 4 * 64 + d.value;
    match DecodeQuanta(s[4..])
    case None => None
    case Some(rest) => Some([first, second, third] + rest)
  }

  function Decode(s: string): Option<seq<Byte>> {
    DecodeQuanta(WithoutBreaks(s))
  }

  /** Exactly the strings that decode: alphabet characters and line breaks, not one character over a quantum. */
  lemma {:induction false} QuantaDecodeIff(s: string)
    ensures DecodeQuanta(s).Some? <==> Plain(s) && |s| % 4 != 1
  {
    hide Decoded;
    if |s| >= 4 {
      QuantaDecodeIff(s[4..]);
      assert forall i :: 4 <= i < |s| ==> s[i] == s[4..][i - 4];
      assert Plain(s) <==> Plain(s[..4]) && Plain(s[4..]);
      assert forall i :: 0 <= i < 4 ==> s[..4][i] == s[i];
    }
  }

  lemma DecodeIff(s: string)
    ensures Decode(s).Some? <==> Plain(WithoutBreaks(s)) && |WithoutBreaks(s)| % 4 != 1
  {
    QuantaDecodeIff(WithoutBreaks(s));
  }

  lemma {:induction false} PlainHasNoBreaks(s: string)
    requires Plain(s)
    ensures WithoutBreaks(s) == s
    ensures '.' !in s
  {
    if s != "" {
      PlainHasNoBreaks(s[1..]);
      assert s == [s[0]] + s[1..];
    }
  }

  lemma QuantumBack(x: Byte, y: Byte, z: Byte)
    ensures x / 4 * 4 + (x % 4 * 16 + y / 16) / 16 == x
    ensures (x % 4 * 16 + y / 16) % 16 * 16 + (y % 16 * 4 + z / 64) / 4 == y
    ensures (y % 16 * 4 + z / 64) % 4 * 64 + z % 64 == z
  {
  }

  lemma {:induction false} QuantaRoundTrip(p: seq<Byte>)
    ensures DecodeQuanta(Encode(p)) == Some(p)
  {
    hide Quantum, Decoded;
    if |p| >= 3 {
      QuantaRoundTrip(p[3..]);
      QuantumBack(p[0], p[1], p[2]);
      assert Encode(p)[4..] == Encode(p[3..]);
      assert p == [p[0], p[1], p[2]] + p[3..];
    } else if |p| == 2 {
      QuantumBack(p[0], p[1], 0);
      assert p == [p[0], p[1]];
    } else if |p| == 1 {
      QuantumBack(p[0], 0, 0);
      assert p == [p[0]];
    }
  }

  /** Decoding an encoding gives the bytes back. */
  lemma RoundTrip(p: seq<Byte>)
    ensures Decode(Encode(p)) == Some(p)
    ensures '.' !in Encode(p)
  {
    PlainHasNoBreaks(Encode(p));
    QuantaRoundTrip(p);
  }

  // ------------------------------------------------------------- bit for bit

  /** The bit of weight 2^k. */
  function Bit(v: nat, k: nat): nat {
    if k == 0 then v % 2 else Bit(v / 2, k - 1)
  }

  /** The n-th bit of a sequence of bytes, most significant first, as if zeros followed. */
  function ByteBit(p: seq<Byte>, n: nat): nat {
    if n / 8 < |p| then Bit(p[n / 8], 7 - n % 8) else 0
  }

  /** The n-th bit that the characters carry, six each. */
  function CharBit(s: string, n: nat): nat
    requires Plain(s) && n < 6 * |s|
  {
    Bit(Decoded(s[n / 6]).value, 5 - n % 6)
  }

  lemma Shift4(v: nat, k: nat)
    ensures Bit(v, k) == if k >= 2 then Bit(v / 4, k - 2) else Bit(v % 4, k)
  {
    if k >= 2 {
      assert Bit(v, k) == Bit(v / 2, k - 1) == Bit(v / 2 / 2, k - 2);
    }
  }

  lemma Digits16(v: nat)
    ensures v / 16 == v / 4 / 4 && v % 16 % 4 == v % 4 && v % 16 / 4 == v / 4 % 4
  {
    assert v == 16 * (v / 16) + v % 16;
  }

  lemma Digits64(v: nat)
    ensures v / 64 == v / 16 / 4 && v % 64 % 16 == v % 16 && v % 64 / 16 == v / 16 % 4
  {
    assert v == 64 * (v / 64) + v % 64;
  }

  lemma Shift16(v: nat, k: nat)
    ensures Bit(v, k) == if k >= 4 then Bit(v / 16, k - 4) else Bit(v % 16, k)
  {
    hide Bit;
    Digits16(v);
    Shift4(v, k);
    if k >= 2 {
      Shift4(v / 4, k - 2);
    }
    Shift4(v % 16, k);
  }

  lemma Shift64(v: nat, k: nat)
    ensures Bit(v, k) == if k >= 6 then Bit(v / 64, k - 6) else Bit(v % 64, k)
  {
    hide Bit;
    Digits64(v);
    Shift16(v, k);
    if k >= 4 {
      Shift4(v / 16, k - 4);
    }
    Shift16(v % 64, k);
  }

  lemma {:induction false} ZeroBits(k: nat)
    ensures Bit(0, k) == 0
  {
    if k > 0 {
      ZeroBits(k - 1);
    }
  }

  lemma QuantumBits(x: Byte, y: Byte, z: Byte, n: nat)
    requires n < 24
    ensures Plain(Quantum(x, y, z)) && CharBit(Quantum(x, y, z), n) == ByteBit([x, y, z], n)
  {
    hide Quantum, Decoded, Bit;
    var k := 5 - n % 6;
    if n < 6 {
      Shift4(x, k + 2);
    } else if n < 12 {
      Shift16(x % 4 * 16 + y / 16, k);
      if k >= 4 {
        Shift4(x, k - 4);
      } else {
        Shift16(y, k + 4);
      }
    } else if n < 18 {
      Shift4(y % 16 * 4 + z / 64, k);
      if k >= 2 {
        Shift16(y, k - 2);
      } else {
        Shift64(z, k + 6);
      }
    } else {
      Shift64(z, k);
    }
  }

  /** An encoding carries the bits of the bytes, in order, and is as short as that allows. */
  lemma {:induction false} EncodeBits(p: seq<Byte>, n: nat)
    ensures 8 * |p| <= 6 * |Encode(p)| < 8 * |p| + 6
    ensures n < 6 * |Encode(p)| ==> CharBit(Encode(p), n) == ByteBit(p, n)
  {
    hide Quantum, Decoded, Bit;
    if |p| >= 3 {
      if n < 24 {
        EncodeBits(p[3..], 0);
        QuantumBits(p[0], p[1], p[2], n);
      } else {
        EncodeBits(p[3..], n - 24);
        assert (n - 24) / 6 == n / 6 - 4 && (n - 24) % 6 == n % 6 && (n - 24) / 8 == n / 8 - 3 && (n - 24) % 8 == n % 8;
      }
    } else if |p| == 2 && n < 18 {
      QuantumBits(p[0], p[1], 0, n);
      ZeroBits(7 - n % 8);
    } else if |p| == 1 && n < 12 {
      QuantumBits(p[0], 0, 0, n);
      ZeroBits(7 - n % 8);
    }
  }

  /** Encodings are unambiguous. */
  lemma EncodeInjective(p: seq<Byte>, q: seq<Byte>)
    requires Encode(p) == Encode(q)
    ensures p == q
  {
    RoundTrip(p);
    RoundTrip(q);
  }
}
