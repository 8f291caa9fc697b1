/**
 * Base64 with the standard alphabet and `=` padding, as in section 4 of
 * RFC 4648 (Go's `base64.StdEncoding`). The webhook signature is the
 * encoding of a 32-byte HMAC-SHA256 digest, so it is 44 characters long.
 */
module Base64 {
  import opened Wrappers

  /** A byte. */
  type Byte = x: int | 0 <= x < 256

  /** The 6-bit value a character encodes, or -1 if it is not in the alphabet. */
  function Value(c: char): (v: int)
    ensures -1 <= v < 64
  {
    if 'A' <= c <= 'Z' then c as int - 'A' as int
    else if 'a' <= c <= 'z' then c as int - 'a' as int + 26
    else if '0' <= c <= '9' then c as int - '0' as int + 52
    else if c == '+' then 62
    else if c == '/' then 63
    else -1
  }

  predicate InAlphabet(c: char) {
    Value(c) >= 0
  }

  /** The character that encodes a 6-bit value: A-Z, a-z, 0-9, '+', '/'; Value reads it back. */
  function Char(v: int): (c: char)
    requires 0 <= v < 64
    ensures Value(c) == v
  {
    if v < 26 then ('A' as int + v) as char
    else if v < 52 then ('a' as int + (v - 26)) as char
    else if v < 62 then ('0' as int + (v - 52)) as char
    else if v == 62 then '+'
    else '/'
  }

  /** The four characters for three bytes. */
  function Quantum(b0: Byte, b1: Byte, b2: Byte): string {
    [Char(b0 / 4), Char((b0 % 4) * 16 + b1 / 16), Char((b1 % 16) * 4 + b2 / 64), Char(b2 % 64)]
  }

  /** The last group when one byte is left: two characters and two '='. */
  function FinalSingle(b0: Byte): string {
    [Char(b0 / 4), Char((b0 % 4) * 16), '=', '=']
  }

  /** The last group when two bytes are left: three characters and one '='. */
  function FinalPair(b0: Byte, b1: Byte): string {
    [Char(b0 / 4), Char((b0 % 4) * 16 + b1 / 16), Char((b1 % 16) * 4), '=']
  }

  /**
   * The standard encoding of `d`: four characters per three bytes, the last
   * group padded with '=' when `d` is not a multiple of three bytes long.
   */
  function Encode(d: seq<Byte>): (s: string)
    ensures |s| == 4 * ((|d| + 2) / 3)
    decreases |d|
  {
    if |d| == 0 then ""
    else if |d| == 1 then FinalSingle(d[0])
    else if |d| == 2 then FinalPair(d[0], d[1])
    else Quantum(d[0], d[1], d[2]) + Encode(d[3..])
  }

  /**
   * The bytes of one four-character group, or None when it is malformed.
   * Padding ("xy==" for one byte, "xyz=" for two) is accepted only in the
   * last group.
   */
  function DecodeQuantum(q: string, last: bool): Option<seq<Byte>>
    requires |q| == 4
  {
    if !InAlphabet(q[0]) || !InAlphabet(q[1]) then None
    else
      var v0, v1 := Value(q[0]), Value(q[1]);
      var b0 := v0 * 4 + v1 / 16;
      if last && q[2] == '=' && q[3] == '=' then Some([b0])
      else if !InAlphabet(q[2]) then None
      else
        var v2 := Value(q[2]);
        var b1 := (v1 % 16) * 16 + v2 / 4;
        if last && q[3] == '=' then Some([b0, b1])
        else if !InAlphabet(q[3]) then None
        else Some([b0, b1, (v2 % 4) * 64 + Value(q[3])])
  }

  /** The inverse of Encode: rejects characters outside the alphabet and padding anywhere but in the last group. */
  function Decode(s: string): Option<seq<Byte>>
    decreases |s|
  {
    if |s| == 0 then Some([])
    else if |s| < 4 then None
    else match DecodeQuantum(s[..4], |s| == 4)
      case None => None
      case Some(group) =>
        match Decode(s[4..])
        case None => None
        case Some(rest) => Some(group + rest)
  }

  /** Splitting a byte into 6-bit values and joining them back is the identity. */
  lemma GroupArithmetic(b0: Byte, b1: Byte, b2: Byte)
    ensures (b0 / 4) * 4 + ((b0 % 4) * 16 + b1 / 16) / 16 == b0
    ensures (((b0 % 4) * 16 + b1 / 16) % 16) * 16 + ((b1 % 16) * 4 + b2 / 64) / 4 == b1
    ensures (((b1 % 16) * 4 + b2 / 64) % 4) * 64 + b2 % 64 == b2
  {
  }

  lemma DecodeFinalSingle(b0: Byte)
    ensures DecodeQuantum(FinalSingle(b0), true) == Some([b0])
  {
  }

  lemma DecodeFinalPair(b0: Byte, b1: Byte)
    ensures DecodeQuantum(FinalPair(b0, b1), true) == Some([b0, b1])
  {
  }

  /** A group of four alphabet characters decodes to the three bytes their values spell. */
  lemma DecodeQuantumValues(q: string, v0: int, v1: int, v2: int, v3: int, last: bool)
    requires |q| == 4
    requires 0 <= v0 < 64 && 0 <= v1 < 64 && 0 <= v2 < 64 && 0 <= v3 < 64
    requires Value(q[0]) == v0 && Value(q[1]) == v1 && Value(q[2]) == v2 && Value(q[3]) == v3
    ensures DecodeQuantum(q, last) == Some([v0 * 4 + v1 / 16, (v1 % 16) * 16 + v2 / 4, (v2 % 4) * 64 + v3])
  {
  }

  lemma DecodeFullQuantum(b0: Byte, b1: Byte, b2: Byte, last: bool)
    ensures DecodeQuantum(Quantum(b0, b1, b2), last) == Some([b0, b1, b2])
  {
    var v0, v1, v2, v3 := b0 / 4, (b0 % 4) * 16 + b1 / 16, (b1 % 16) * 4 + b2 / 64, b2 % 64;
    DecodeQuantumValues(Quantum(b0, b1, b2), v0, v1, v2, v3, last);
    GroupArithmetic(b0, b1, b2);
  }

  /** Decoding a well-formed group followed by a decodable rest. */
  lemma DecodeCons(q: string, rest: string, group: seq<Byte>, tail: seq<Byte>)
    requires |q| == 4
    requires DecodeQuantum(q, |rest| == 0) == Some(group)
    requires Decode(rest) == Some(tail)
    ensures Decode(q + rest) == Some(group + tail)
  {
  }

  lemma DecodeEncodeSingle(d: seq<Byte>)
    requires |d| == 1
    ensures Decode(Encode(d)) == Some(d)
  {
    DecodeFinalSingle(d[0]);
    DecodeCons(FinalSingle(d[0]), [], [d[0]], []);
    assert FinalSingle(d[0]) + [] == Encode(d);
    assert [d[0]] + [] == d;
  }

  lemma DecodeEncodePair(d: seq<Byte>)
    requires |d| == 2
    ensures Decode(Encode(d)) == Some(d)
  {
    DecodeFinalPair(d[0], d[1]);
    DecodeCons(FinalPair(d[0], d[1]), [], [d[0], d[1]], []);
    assert FinalPair(d[0], d[1]) + [] == Encode(d);
    assert [d[0], d[1]] + [] == d;
  }

  /** The encoding of three or more bytes is one full group followed by the encoding of the rest. */
  lemma EncodeUnfold(d: seq<Byte>)
    requires |d| > 2
    ensures Encode(d) == Quantum(d[0], d[1], d[2]) + Encode(d[3..])
  {
  }

  lemma SplitFirstThree(d: seq<Byte>)
    requires |d| > 2
    ensures d == [d[0], d[1], d[2]] + d[3..]
  {
  }

  /** One full group in front of a tail that already round-trips. */
  lemma DecodeEncodeStep(d: seq<Byte>)
    requires |d| > 2
    requires Decode(Encode(d[3..])) == Some(d[3..])
    ensures Decode(Quantum(d[0], d[1], d[2]) + Encode(d[3..])) == Some([d[0], d[1], d[2]] + d[3..])
  {
    var rest := Encode(d[3..]);
    DecodeFullQuantum(d[0], d[1], d[2], |rest| == 0);
    DecodeCons(Quantum(d[0], d[1], d[2]), rest, [d[0], d[1], d[2]], d[3..]);
  }

  /** Decoding an encoding gives back the bytes. */
  lemma {:induction false} DecodeEncode(d: seq<Byte>)
    ensures Decode(Encode(d)) == Some(d)
    decreases |d|
  {
    if |d| == 1 {
      DecodeEncodeSingle(d);
    } else if |d| == 2 {
      DecodeEncodePair(d);
    } else if |d| > 2 {
      DecodeEncode(d[3..]);
      DecodeEncodeStep(d);
      EncodeUnfold(d);
      SplitFirstThree(d);
    }
  }

  /** Two byte strings with the same encoding are equal. */
  lemma EncodeInjective(a: seq<Byte>, b: seq<Byte>)
    ensures Encode(a) == Encode(b) <==> a == b
  {
    DecodeEncode(a);
    DecodeEncode(b);
  }
}
