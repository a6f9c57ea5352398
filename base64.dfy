/** The base64 encoding of section 4 of RFC 4648 (alphabet of Table 1, "="
    padding), as Python's `base64.b64encode` produces it, with a decoder
    that inverts it; and the ASCII encoding of text that precedes it. */
module Base64 {
  import opened Common

  type Byte = b: nat | b < 256
  type Sextet = s: nat | s < 64

  const PadChar := '='

  /** Table 1 of RFC 4648: the character for each 6-bit value. */
  function Alphabet(s: Sextet): char
  {
    if s < 26 then ('A' as int + s) as char
    else if s < 52 then ('a' as int + s - 26) as char
    else if s < 62 then ('0' as int + s - 52) as char
    else if s == 62 then '+'
    else '/'
  }

  predicate IsAlphabetChar(c: char)
  {
    ('A' <= c <= 'Z') || ('a' <= c <= 'z') || ('0' <= c <= '9') || c == '+' || c == '/'
  }

  /** The inverse of Table 1. */
  function SextetOf(c: char): (s: Sextet)
    requires IsAlphabetChar(c)
    ensures Alphabet(s) == c
  {
    if 'A' <= c <= 'Z' then c as int - 'A' as int
    else if 'a' <= c <= 'z' then c as int - 'a' as int + 26
    else if '0' <= c <= '9' then c as int - '0' as int + 52
    else if c == '+' then 62
    else 63
  }

  lemma AlphabetRoundTrip(s: Sextet)
    ensures IsAlphabetChar(Alphabet(s)) && SextetOf(Alphabet(s)) == s
  {
  }

  /** Splitting `hi * 16 + lo` by 16 gives back both parts. */
  lemma Split16(hi: nat, lo: nat)
    requires lo < 16
    ensures (hi * 16 + lo) / 16 == hi && (hi * 16 + lo) % 16 == lo
  {
  }

  /** Splitting `hi * 4 + lo` by 4 gives back both parts. */
  lemma Split4(hi: nat, lo: nat)
    requires lo < 4
    ensures (hi * 4 + lo) / 4 == hi && (hi * 4 + lo) % 4 == lo
  {
  }

  /** Three bytes as four characters: 24 bits read as four 6-bit groups,
      most significant first. */
  function EncodeGroup(a: Byte, b: Byte, c: Byte): string
  {
    [Alphabet(a / 4), Alphabet((a % 4) * 16 + b / 16), Alphabet((b % 16) * 4 + c / 64), Alphabet(c % 64)]
  }

  /** `base64.b64encode`: full groups, then a final group of one byte (two
      characters and "==") or two bytes (three characters and "="). */
  function Encode(data: seq<Byte>): (r: string)
    ensures |r| % 4 == 0 && (|data| > 0 <==> |r| > 0)
    decreases |data|
  {
    if |data| < 3 then EncodeFinal(data)
    else EncodeGroup(data[0], data[1], data[2]) + Encode(data[3..])
  }

  /** The final, padded quantum for fewer than three remaining bytes. */
  function EncodeFinal(data: seq<Byte>): (r: string)
    requires |data| < 3
    ensures |r| == if |data| == 0 then 0 else 4
  {
    if |data| == 0 then ""
    else if |data| == 1 then
      [Alphabet(data[0] / 4), Alphabet((data[0] % 4) * 16), PadChar, PadChar]
    else
      [Alphabet(data[0] / 4), Alphabet((data[0] % 4) * 16 + data[1] / 16), Alphabet((data[1] % 16) * 4), PadChar]
  }

  /** Four alphabet characters back to three bytes. */
  function DecodeGroup(s0: Sextet, s1: Sextet, s2: Sextet, s3: Sextet): seq<Byte>
  {
    [s0 * 4 + s1 / 16, (s1 % 16) * 16 + s2 / 4, (s2 % 4) * 64 + s3]
  }

  /** Four characters, all from the alphabet. */
  predicate IsQuantum(q: string)
  {
    |q| == 4 && IsAlphabetChar(q[0]) && IsAlphabetChar(q[1]) && IsAlphabetChar(q[2]) && IsAlphabetChar(q[3])
  }

  function DecodeQuantum(q: string): seq<Byte>
    requires IsQuantum(q)
  {
    DecodeGroup(SextetOf(q[0]), SextetOf(q[1]), SextetOf(q[2]), SextetOf(q[3]))
  }

  /** The last quantum: four characters, or two or three followed by padding. */
  function DecodeLast(q: string): Option<seq<Byte>>
    requires |q| == 4
  {
    if IsQuantum(q) then Some(DecodeQuantum(q))
    else if !IsAlphabetChar(q[0]) || !IsAlphabetChar(q[1]) then None
    else if q[2] == PadChar && q[3] == PadChar then
      Some([SextetOf(q[0]) * 4 + SextetOf(q[1]) / 16])
    else if IsAlphabetChar(q[2]) && q[3] == PadChar then
      Some(DecodeGroup(SextetOf(q[0]), SextetOf(q[1]), SextetOf(q[2]), 0)[..2])
    else None
  }

  /** Decoding of RFC 4648 base64 text; None for text that is not a
      sequence of padded quanta over the alphabet. */
  function Decode(s: string): Option<seq<Byte>>
    decreases |s|
  {
    if |s| == 0 then Some([])
    else if |s| < 4 then None
    else if |s| == 4 then DecodeLast(s)
    else if IsQuantum(s[..4]) then
      match Decode(s[4..])
      case None => None
      case Some(rest) => Some(DecodeQuantum(s[..4]) + rest)
    else None
  }

  /** Regrouping the four 6-bit values of three bytes gives the bytes. */
  lemma RegroupBytes(a: Byte, b: Byte, c: Byte)
    ensures DecodeGroup(a / 4, (a % 4) * 16 + b / 16, (b % 16) * 4 + c / 64, c % 64) == [a, b, c]
  {
    Split16(a % 4, b / 16);
    Split4(b % 16, c / 64);
  }

  lemma GroupRoundTrip(a: Byte, b: Byte, c: Byte)
    ensures IsQuantum(EncodeGroup(a, b, c)) && DecodeQuantum(EncodeGroup(a, b, c)) == [a, b, c]
  {
    var s0, s1, s2, s3 := a / 4, (a % 4) * 16 + b / 16, (b % 16) * 4 + c / 64, c % 64;
    AlphabetRoundTrip(s0);
    AlphabetRoundTrip(s1);
    AlphabetRoundTrip(s2);
    AlphabetRoundTrip(s3);
    RegroupBytes(a, b, c);
  }

  /** A final group of one byte decodes back to it. */
  lemma OneByteRoundTrip(a: Byte)
    ensures Decode(EncodeFinal([a])) == Some([a])
  {
    AlphabetRoundTrip(a / 4);
    AlphabetRoundTrip((a % 4) * 16);
    Split16(a % 4, 0);
    var e := EncodeFinal([a]);
    assert !IsQuantum(e);
    assert SextetOf(e[0]) * 4 + SextetOf(e[1]) / 16 == a;
  }

  /** A final group of two bytes decodes back to them. */
  lemma TwoByteRoundTrip(a: Byte, b: Byte)
    ensures Decode(EncodeFinal([a, b])) == Some([a, b])
  {
    AlphabetRoundTrip(a / 4);
    AlphabetRoundTrip((a % 4) * 16 + b / 16);
    AlphabetRoundTrip((b % 16) * 4);
    RegroupBytes(a, b, 0);
    var e := EncodeFinal([a, b]);
    assert !IsQuantum(e);
    assert DecodeLast(e) == Some(DecodeGroup(a / 4, (a % 4) * 16 + b / 16, (b % 16) * 4, 0)[..2]);
    assert DecodeGroup(a / 4, (a % 4) * 16 + b / 16, (b % 16) * 4, 0) == [a, b, 0];
    assert [a, b, 0][..2] == [a, b];
  }

  /** A full quantum in front of more text decodes in front of its bytes. */
  lemma DecodeAfterQuantum(q: string, t: string)
    requires IsQuantum(q)
    ensures Decode(q + t) == if |t| == 0 then Some(DecodeQuantum(q))
                             else match Decode(t)
                               case None => None
                               case Some(rest) => Some(DecodeQuantum(q) + rest)
  {
    if |t| == 0 {
      assert q + t == q;
    } else {
      assert (q + t)[..4] == q && (q + t)[4..] == t;
    }
  }

  /** Decoding what `Encode` produced gives the bytes back. */
  lemma {:induction false} DecodeEncode(data: seq<Byte>)
    ensures Decode(Encode(data)) == Some(data)
    decreases |data|
  {
    if |data| == 0 {
    } else if |data| == 1 {
      assert data == [data[0]];
      OneByteRoundTrip(data[0]);
    } else if |data| == 2 {
      assert data == [data[0], data[1]];
      TwoByteRoundTrip(data[0], data[1]);
    } else {
      var rest := data[3..];
      var q := EncodeGroup(data[0], data[1], data[2]);
      GroupRoundTrip(data[0], data[1], data[2]);
      DecodeEncode(rest);
      assert Encode(data) == q + Encode(rest);
      DecodeAfterQuantum(q, Encode(rest));
      if |rest| == 0 {
        assert Encode(rest) == "";
        assert data == [data[0], data[1], data[2]];
      } else {
        assert |Encode(rest)| > 0;
        assert data == [data[0], data[1], data[2]] + rest;
      }
    }
  }

  /** `text.encode("ascii")`: the code of each character, or None (Python
      raises UnicodeEncodeError) when some character is not ASCII. */
  function AsciiBytes(text: string): (r: Option<seq<Byte>>)
    ensures r.Some? <==> forall i :: 0 <= i < |text| ==> text[i] as int < 128
    ensures r.Some? ==> |r.value| == |text| && forall i :: 0 <= i < |text| ==> r.value[i] == text[i] as int
  {
    if |text| == 0 then Some([])
    else if text[0] as int >= 128 then None
    else match AsciiBytes(text[1..])
      case None => None
      case Some(rest) => Some([text[0] as int as Byte] + rest)
  }
}
