/** Base64 as in section 4 of RFC 4648: the alphabet A-Z, a-z, 0-9, '+', '/'
    and '=' padding of the final quantum. The decoder is the one the GUI calls
    on the captcha image; like Python's, it ignores the unused low bits of a
    padded final quantum. */
module Base64 {
  import opened Api

  type byte = x: int | 0 <= x < 256

  predicate IsAlphabetChar(c: char) {
    ('A' <= c <= 'Z') || ('a' <= c <= 'z') || ('0' <= c <= '9') || c == '+' || c == '/'
  }

  /** The character that encodes the 6-bit value `i`. */
  function CharOf(i: int): (c: char)
    requires 0 <= i < 64
    ensures IsAlphabetChar(c)
  {
    if i < 26 then ('A' as int + i) as char
    else if i < 52 then ('a' as int + (i - 26)) as char
    else if i < 62 then ('0' as int + (i - 52)) as char
    else if i == 62 then '+'
    else '/'
  }

  /** The 6-bit value an alphabet character encodes. */
  function ValueOf(c: char): (i: int)
    requires IsAlphabetChar(c)
    ensures 0 <= i < 64 && CharOf(i) == c
  {
    if 'A' <= c <= 'Z' then c as int - 'A' as int
    else if 'a' <= c <= 'z' then c as int - 'a' as int + 26
    else if '0' <= c <= '9' then c as int - '0' as int + 52
    else if c == '+' then 62
    else 63
  }

  lemma ValueOfCharOf(i: int)
    requires 0 <= i < 64
    ensures ValueOf(CharOf(i)) == i
  {
  }

  /** Three bytes as four characters. */
  function EncodeQuantum(b0: byte, b1: byte, b2: byte): string {
    [CharOf(b0 / 4), CharOf((b0 % 4) * 16 + b1 / 16), CharOf((b1 % 16) * 4 + b2 / 64), CharOf(b2 % 64)]
  }

  function Encode(bs: seq<byte>): (s: string)
    ensures |s| % 4 == 0
    ensures |s| == 0 <==> |bs| == 0
    decreases |bs|
  {
    if |bs| == 0 then ""
    else if |bs| == 1 then [CharOf(bs[0] / 4), CharOf((bs[0] % 4) * 16), '=', '=']
    else if |bs| == 2 then
      [CharOf(bs[0] / 4), CharOf((bs[0] % 4) * 16 + bs[1] / 16), CharOf((bs[1] % 16) * 4), '=']
    else EncodeQuantum(bs[0], bs[1], bs[2]) + Encode(bs[3..])
  }

  /** Four alphabet characters as three bytes. */
  function DecodeQuantum(c0: char, c1: char, c2: char, c3: char): (bs: seq<byte>)
    requires IsAlphabetChar(c0) && IsAlphabetChar(c1) && IsAlphabetChar(c2) && IsAlphabetChar(c3)
    ensures |bs| == 3
  {
    var i0, i1, i2, i3 := ValueOf(c0), ValueOf(c1), ValueOf(c2), ValueOf(c3);
    [i0 * 4 + i1 / 16, (i1 % 16) * 16 + i2 / 4, (i2 % 4) * 64 + i3]
  }

  /** The last quantum, which may end in one or two '='. */
  function DecodeFinal(c0: char, c1: char, c2: char, c3: char): (r: Option<seq<byte>>)
    ensures r.Some? ==> 1 <= |r.value| <= 3
  {
    if !IsAlphabetChar(c0) || !IsAlphabetChar(c1) then None
    else if IsAlphabetChar(c2) && IsAlphabetChar(c3) then Some(DecodeQuantum(c0, c1, c2, c3))
    else if IsAlphabetChar(c2) && c3 == '=' then
      Some(DecodeQuantum(c0, c1, c2, 'A')[..2])
    else if c2 == '=' && c3 == '=' then
      Some(DecodeQuantum(c0, c1, 'A', 'A')[..1])
    else None
  }

  /** Decodes `s`, or None when its length is not a multiple of four, when a
      character is outside the alphabet, or when '=' appears before the end. */
  function Decode(s: string): (r: Option<seq<byte>>)
    ensures r.Some? ==> |s| % 4 == 0
    decreases |s|
  {
    if |s| == 0 then Some([])
    else if |s| < 4 then None
    else if |s| == 4 then DecodeFinal(s[0], s[1], s[2], s[3])
    else if !(IsAlphabetChar(s[0]) && IsAlphabetChar(s[1]) && IsAlphabetChar(s[2]) && IsAlphabetChar(s[3])) then None
    else match Decode(s[4..])
      case None => None
      case Some(rest) => Some(DecodeQuantum(s[0], s[1], s[2], s[3]) + rest)
  }

  lemma QuantumRoundTrip(b0: byte, b1: byte, b2: byte)
    ensures var q := EncodeQuantum(b0, b1, b2);
            DecodeQuantum(q[0], q[1], q[2], q[3]) == [b0, b1, b2]
  {
    var i0, i1, i2, i3 := b0 / 4, (b0 % 4) * 16 + b1 / 16, (b1 % 16) * 4 + b2 / 64, b2 % 64;
    ValueOfCharOf(i0);
    ValueOfCharOf(i1);
    ValueOfCharOf(i2);
    ValueOfCharOf(i3);
    assert i1 / 16 == b0 % 4 && i1 % 16 == b1 / 16;
    assert i2 / 4 == b1 % 16 && i2 % 4 == b2 / 64;
  }

  /** One byte encodes to "xx==", which decodes back to it. */
  lemma DecodeEncodeOne(b0: byte)
    ensures Decode(Encode([b0])) == Some([b0])
  {
    QuantumRoundTrip(b0, 0, 0);
    var s := Encode([b0]);
    var q := EncodeQuantum(b0, 0, 0);
    assert CharOf(0) == 'A';
    assert q == [s[0], s[1], 'A', 'A'];
    var d := DecodeQuantum(s[0], s[1], 'A', 'A');
    assert d == [b0, 0, 0];
    assert Decode(s) == Some(d[..1]);
    assert d[..1] == [b0];
  }

  /** Two bytes encode to "xxx=", which decodes back to them. */
  lemma DecodeEncodeTwo(b0: byte, b1: byte)
    ensures Decode(Encode([b0, b1])) == Some([b0, b1])
  {
    QuantumRoundTrip(b0, b1, 0);
    var s := Encode([b0, b1]);
    var q := EncodeQuantum(b0, b1, 0);
    assert CharOf(0) == 'A';
    assert q == [s[0], s[1], s[2], 'A'];
    var d := DecodeQuantum(s[0], s[1], s[2], 'A');
    assert d == [b0, b1, 0];
    assert Decode(s) == Some(d[..2]);
    assert d[..2] == [b0, b1];
  }

  /** Three bytes encode to one full quantum, which decodes back to them. */
  lemma DecodeEncodeThree(b0: byte, b1: byte, b2: byte)
    ensures Decode(Encode([b0, b1, b2])) == Some([b0, b1, b2])
  {
    QuantumRoundTrip(b0, b1, b2);
    var bs := [b0, b1, b2];
    assert bs[3..] == [];
    assert Encode(bs) == EncodeQuantum(b0, b1, b2);
  }

  /** A full quantum in front of a non-empty decodable string. */
  lemma DecodeCons(q: string, rest: string, tail: seq<byte>)
    requires |q| == 4 && IsAlphabetChar(q[0]) && IsAlphabetChar(q[1]) && IsAlphabetChar(q[2]) && IsAlphabetChar(q[3])
    requires |rest| > 0 && Decode(rest) == Some(tail)
    ensures Decode(q + rest) == Some(DecodeQuantum(q[0], q[1], q[2], q[3]) + tail)
  {
    var s := q + rest;
    assert s[4..] == rest;
    assert s[0] == q[0] && s[1] == q[1] && s[2] == q[2] && s[3] == q[3];
  }

  /** Decoding undoes encoding, for every byte string. */
  lemma {:induction false} DecodeEncode(bs: seq<byte>)
    ensures Decode(Encode(bs)) == Some(bs)
    decreases |bs|
  {
    if |bs| == 0 {
    } else if |bs| == 1 {
      assert bs == [bs[0]];
      DecodeEncodeOne(bs[0]);
    } else if |bs| == 2 {
      assert bs == [bs[0], bs[1]];
      DecodeEncodeTwo(bs[0], bs[1]);
    } else if |bs| == 3 {
      assert bs == [bs[0], bs[1], bs[2]];
      DecodeEncodeThree(bs[0], bs[1], bs[2]);
    } else {
      var q := EncodeQuantum(bs[0], bs[1], bs[2]);
      var rest := Encode(bs[3..]);
      assert Encode(bs) == q + rest;
      QuantumRoundTrip(bs[0], bs[1], bs[2]);
      DecodeEncode(bs[3..]);
      DecodeCons(q, rest, bs[3..]);
      assert bs == [bs[0], bs[1], bs[2]] + bs[3..];
    }
  }

  /** The example the captcha decoder is documented with: "QUJD" is "ABC". */
  lemma DecodeAbc()
    ensures Decode("QUJD") == Some([65, 66, 67])
  {
    assert Encode([65, 66, 67]) == "QUJD";
    DecodeEncode([65, 66, 67]);
  }
}
