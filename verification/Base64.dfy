// Unpadded standard Base64, as the Go library prints and reads it: the reader
// skips line breaks and ignores the unused low bits of the last character.

module Base64 {
  import opened Types

  type byte = n: nat | n < 256

  function Digit(v: nat): (c: char)
    requires v < 64
    ensures Value(c) == Some(v)
  {
    if v < 26 then 'A' + v as char
    else if v < 52 then 'a' + (v - 26) as char
    else if v < 62 then '0' + (v - 52) as char
    else if v == 62 then '+' else '/'
  }

  function Value(c: char): (v: Option<nat>)
    ensures v.Some? ==> v.value < 64
  {
    if 'A' <= c <= 'Z' then Some((c - 'A') as nat)
    else if 'a' <= c <= 'z' then Some((c - 'a') as nat + 26)
    else if '0' <= c <= '9' then Some((c - '0') as nat + 52)
    else if c == '+' then Some(62)
    else if c == '/' then Some(63)
    else None
  }

  function Encode(b: seq<byte>): string {
    if |b| == 0 then ""
    else if |b| == 1 then [Digit(b[0] / 4), Digit(b[0] % 4 * 16)]
    else if |b| == 2 then [Digit(b[0] / 4), Digit(b[0] % 4 * 16 + b[1] / 16), Digit(b[1] % 16 * 4)]
    else
      [Digit(b[0] / 4), Digit(b[0] % 4 * 16 + b[1] / 16), Digit(b[1] % 16 * 4 + b[2] / 64), Digit(b[2] % 64)]
      + Encode(b[3..])
  }

  predicate LineBreak(c: char) {
    c == '\r' || c == '\n'
  }

  function Unbroken(s: string): string {
    if s == "" then "" else if LineBreak(s[0]) then Unbroken(s[1..]) else [s[0]] + Unbroken(s[1..])
  }

  function Values(s: string): (vs: Option<seq<nat>>)
    ensures vs.Some? ==> |vs.value| == |s| && forall i :: 0 <= i < |s| ==> vs.value[i] < 64
  {
    if s == "" then Some([])
    else match (Value(s[0]), Values(s[1..]))
      case (Some(v), Some(vs)) => Some([v] + vs)
      case _ => None
  }

  function Bytes(vs: seq<nat>): (b: Option<seq<byte>>)
    requires forall i :: 0 <= i < |vs| ==> vs[i] < 64
  {
    if |vs| == 0 then Some([])
    else if |vs| == 1 then None
    else if |vs| == 2 then Some([vs[0] * 4 + vs[1] / 16])
    else if |vs| == 3 then Some([vs[0] * 4 + vs[1] / 16, vs[1] % 16 * 16 + vs[2] / 4])
    else match Bytes(vs[4..])
      case Some(rest) =>
        Some([vs[0] * 4 + vs[1] / 16, vs[1] % 16 * 16 + vs[2] / 4, vs[2] % 4 * 64 + vs[3]] + rest)
      case None => None
  }

  function Decode(s: string): Option<seq<byte>> {
    match Values(Unbroken(s))
    case Some(vs) => Bytes(vs)
    case None => None
  }

  lemma {:induction false} UnbrokenDigits(s: string)
    requires forall c :: c in s ==> Value(c).Some?
    ensures Unbroken(s) == s
  {
    if s != "" {
      assert s[0] in s;
      UnbrokenDigits(s[1..]);
    }
  }

  lemma {:induction false} EncodesInDigits(b: seq<byte>)
    ensures forall c :: c in Encode(b) ==> Value(c).Some?
    ensures b != [] ==> Encode(b) != ""
  {
    if |b| >= 3 {
      EncodesInDigits(b[3..]);
    }
  }

  lemma ValuesCons(c: char, s: string, vs: seq<nat>)
    requires Value(c).Some? && Values(s) == Some(vs)
    ensures Values([c] + s) == Some([Value(c).value] + vs)
  {
    assert ([c] + s)[1..] == s;
  }

  /** One to three bytes become two to four six-bit values, and come back. */
  lemma SixBits(a: byte, b: byte, c: byte)
    ensures a / 4 < 64 && a % 4 * 16 + b / 16 < 64 && b % 16 * 4 + c / 64 < 64 && c % 64 < 64
    ensures a / 4 * 4 + (a % 4 * 16 + b / 16) / 16 == a
    ensures (a % 4 * 16 + b / 16) % 16 * 16 + (b % 16 * 4 + c / 64) / 4 == b
    ensures (b % 16 * 4 + c / 64) % 4 * 64 + c % 64 == c
  {
  }

  function SixBitValues(b: seq<byte>): (vs: seq<nat>)
    ensures forall i :: 0 <= i < |vs| ==> vs[i] < 64
  {
    if |b| == 0 then []
    else if |b| == 1 then [b[0] / 4, b[0] % 4 * 16]
    else if |b| == 2 then [b[0] / 4, b[0] % 4 * 16 + b[1] / 16, b[1] % 16 * 4]
    else
      [b[0] / 4, b[0] % 4 * 16 + b[1] / 16, b[1] % 16 * 4 + b[2] / 64, b[2] % 64] + SixBitValues(b[3..])
  }

  lemma {:induction false} ValuesOfDigits(vs: seq<nat>, s: string)
    requires |vs| == |s| && forall i :: 0 <= i < |vs| ==> vs[i] < 64 && s[i] == Digit(vs[i])
    ensures Values(s) == Some(vs)
  {
    if s != "" {
      ValuesOfDigits(vs[1..], s[1..]);
      ValuesCons(s[0], s[1..], vs[1..]);
      assert [s[0]] + s[1..] == s && [vs[0]] + vs[1..] == vs;
    }
  }

  lemma {:induction false} EncodedDigits(b: seq<byte>)
    ensures |Encode(b)| == |SixBitValues(b)|
    ensures forall i :: 0 <= i < |Encode(b)| ==> Encode(b)[i] == Digit(SixBitValues(b)[i])
  {
    if |b| >= 3 {
      EncodedDigits(b[3..]);
    }
  }

  lemma {:induction false} BytesOfSixBits(b: seq<byte>)
    ensures Bytes(SixBitValues(b)) == Some(b)
  {
    if |b| == 1 {
      SixBits(b[0], 0, 0);
      assert b == [b[0]];
    } else if |b| == 2 {
      SixBits(b[0], b[1], 0);
      assert b == [b[0], b[1]];
    } else if |b| >= 3 {
      SixBits(b[0], b[1], b[2]);
      BytesOfSixBits(b[3..]);
      assert SixBitValues(b)[4..] == SixBitValues(b[3..]);
      assert b == [b[0], b[1], b[2]] + b[3..];
    } else {
      assert b == [];
    }
  }

  /** Sections 3.2 and 4 of RFC 4648: what is printed is read back, for every byte sequence. */
  lemma RoundTrip(b: seq<byte>)
    ensures Decode(Encode(b)) == Some(b)
  {
    EncodesInDigits(b);
    UnbrokenDigits(Encode(b));
    EncodedDigits(b);
    ValuesOfDigits(SixBitValues(b), Encode(b));
    BytesOfSixBits(b);
  }

  /** Table 1 of RFC 4648: its four runs and its last two characters. */
  lemma Alphabet(v: nat)
    requires v < 64
    ensures Digit(0) == 'A' && Digit(25) == 'Z' && Digit(26) == 'a' && Digit(51) == 'z' && Digit(52) == '0' && Digit(61) == '9'
    ensures Digit(62) == '+' && Digit(63) == '/'
    ensures v < 61 && v != 25 && v != 51 ==> Digit(v + 1) as int == Digit(v) as int + 1
  {
  }

  /** Section 4 of RFC 4648: three bytes are one number of 24 bits, written in base 64, the most
      significant digit first; one or two bytes at the end are padded with zero bits. */
  lemma GroupsAreNumbers(b: seq<byte>)
    requires |b| > 0
    ensures
      var x: int, y: int, z: int := b[0], if |b| > 1 then b[1] else 0, if |b| > 2 then b[2] else 0;
      var d := SixBitValues(b);
      && |d| == |Encode(b)| && (forall i :: 0 <= i < |d| ==> Encode(b)[i] == Digit(d[i]))
      && (|b| == 1 ==> |d| == 2 && d[0] * 64 + d[1] == x * 16)
      && (|b| == 2 ==> |d| == 3 && (d[0] * 64 + d[1]) * 64 + d[2] == (x * 256 + y) * 4)
      && (|b| >= 3 ==>
            && |d| >= 4 && Encode(b)[4..] == Encode(b[3..])
            && ((d[0] * 64 + d[1]) * 64 + d[2]) * 64 + d[3] == (x * 256 + y) * 256 + z)
  {
    EncodedDigits(b);
  }
}
