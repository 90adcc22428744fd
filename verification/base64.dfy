/** Base 64 encoding with the standard alphabet and `=` padding, as defined in
    section 4 of RFC 4648 (Go's `base64.StdEncoding`), with its decoder. */
module Base64 {
  import opened Wrappers
  import opened Utf8

  type Sextet = i: int | 0 <= i < 64

  const Pad: char := '='

  /** The character of the encoding alphabet (table 1 of RFC 4648) for a 6-bit value. */
  function Digit(i: Sextet): char {
    if i < 26 then ('A' as int + i) as char
    else if i < 52 then ('a' as int + (i - 26)) as char
    else if i < 62 then ('0' as int + (i - 52)) as char
    else if i == 62 then '+'
    else '/'
  }

  predicate IsDigit(c: char) {
    'A' <= c <= 'Z' || 'a' <= c <= 'z' || '0' <= c <= '9' || c == '+' || c == '/'
  }

  /** The 6-bit value of an alphabet character; None for any other character. */
  function DigitValue(c: char): (r: Option<Sextet>)
    ensures r.Some? <==> IsDigit(c)
    ensures r.Some? ==> Digit(r.value) == c
  {
    if 'A' <= c <= 'Z' then Some(c as int - 'A' as int)
    else if 'a' <= c <= 'z' then Some(c as int - 'a' as int + 26)
    else if '0' <= c <= '9' then Some(c as int - '0' as int + 52)
    else if c == '+' then Some(62)
    else if c == '/' then Some(63)
    else None
  }

  lemma DigitValueOfDigit(i: Sextet)
    ensures IsDigit(Digit(i)) && DigitValue(Digit(i)) == Some(i)
  {
  }

  /** Three bytes become four alphabet characters. */
  function EncodeGroup(b0: Byte, b1: Byte, b2: Byte): string {
    [Digit(b0 / 4), Digit(b0 % 4 * 16 + b1 / 16), Digit(b1 % 16 * 4 + b2 / 64), Digit(b2 % 64)]
  }

  /** A final group of one or two bytes becomes two or three characters padded
      with `=` to four. */
  function EncodeTail(bs: seq<Byte>): string
    requires 1 <= |bs| <= 2
  {
    if |bs| == 1 then [Digit(bs[0] / 4), Digit(bs[0] % 4 * 16), Pad, Pad]
    else [Digit(bs[0] / 4), Digit(bs[0] % 4 * 16 + bs[1] / 16), Digit(bs[1] % 16 * 4), Pad]
  }

  function Encode(bs: seq<Byte>): (s: string)
    ensures |s| == (|bs| + 2) / 3 * 4
    ensures forall i :: 0 <= i < |s| ==> IsDigit(s[i]) || (s[i] == Pad && |s| - 2 <= i)
    decreases |bs|
  {
    if |bs| == 0 then ""
    else if |bs| < 3 then EncodeTail(bs)
    else EncodeGroup(bs[0], bs[1], bs[2]) + Encode(bs[3..])
  }

  /** Decodes one block of four characters; `=` is accepted only where an
      encoder puts it and the bits it drops must be zero. */
  function DecodeBlock(q: string): Option<seq<Byte>>
    requires |q| == 4
  {
    var d0, d1, d2, d3 := DigitValue(q[0]), DigitValue(q[1]), DigitValue(q[2]), DigitValue(q[3]);
    if d0.None? || d1.None? then None
    else
      var c0, c1 := d0.value as int, d1.value as int;
      if q[2] == Pad && q[3] == Pad then
        if c1 % 16 == 0 then Some([c0 * 4 + c1 / 16]) else None
      else if d2.None? then None
      else
        var c2 := d2.value as int;
        if q[3] == Pad then
          if c2 % 4 == 0 then Some([c0 * 4 + c1 / 16, c1 % 16 * 16 + c2 / 4]) else None
        else if d3.None? then None
        else Some([c0 * 4 + c1 / 16, c1 % 16 * 16 + c2 / 4, c2 % 4 * 64 + d3.value as int])
  }

  function Decode(s: string): Option<seq<Byte>>
    decreases |s|
  {
    if s == "" then Some([])
    else if |s| < 4 then None
    else
      match DecodeBlock(s[..4])
      case None => None
      case Some(group) =>
        if |group| < 3 && |s| > 4 then None
        else
          match Decode(s[4..])
          case None => None
          case Some(rest) => Some(group + rest)
  }

  lemma GroupArithmetic(b0: Byte, b1: Byte, b2: Byte)
    ensures (b0 / 4) * 4 + (b0 % 4 * 16 + b1 / 16) / 16 == b0
    ensures (b0 % 4 * 16 + b1 / 16) % 16 * 16 + (b1 % 16 * 4 + b2 / 64) / 4 == b1
    ensures (b1 % 16 * 4 + b2 / 64) % 4 * 64 + b2 % 64 == b2
  {
  }

  lemma DecodeEncodeTail(bs: seq<Byte>)
    requires 1 <= |bs| <= 2
    ensures DecodeBlock(EncodeTail(bs)) == Some(bs)
  {
    DigitValueOfDigit(bs[0] / 4);
    if |bs| == 1 {
      var q := EncodeTail(bs);
      DigitValueOfDigit(bs[0] % 4 * 16);
      GroupArithmetic(bs[0], 0, 0);
      assert q[2] == Pad && q[3] == Pad;
      assert DigitValue(q[1]) == Some(bs[0] % 4 * 16);
      assert (bs[0] % 4 * 16) % 16 == 0;
      assert bs == [bs[0]];
    } else {
      DigitValueOfDigit(bs[0] % 4 * 16 + bs[1] / 16);
      DigitValueOfDigit(bs[1] % 16 * 4);
      GroupArithmetic(bs[0], bs[1], 0);
      assert bs == [bs[0], bs[1]];
    }
  }

  lemma DecodeEncodeGroup(b0: Byte, b1: Byte, b2: Byte)
    ensures DecodeBlock(EncodeGroup(b0, b1, b2)) == Some([b0, b1, b2])
  {
    DigitValueOfDigit(b0 / 4);
    DigitValueOfDigit(b0 % 4 * 16 + b1 / 16);
    DigitValueOfDigit(b1 % 16 * 4 + b2 / 64);
    DigitValueOfDigit(b2 % 64);
    GroupArithmetic(b0, b1, b2);
  }

  /** Round trip: decoding what the encoder produced gives back the bytes, so
      the encoding loses nothing. */
  lemma {:induction false} DecodeEncode(bs: seq<Byte>)
    ensures Decode(Encode(bs)) == Some(bs)
    decreases |bs|
  {
    var s := Encode(bs);
    if |bs| == 0 {
    } else if |bs| < 3 {
      DecodeEncodeTail(bs);
      assert s == EncodeTail(bs);
      assert s[..4] == s && s[4..] == "";
      assert Decode(s[4..]) == Some([]);
      assert bs + [] == bs;
    } else {
      var head := EncodeGroup(bs[0], bs[1], bs[2]);
      DecodeEncodeGroup(bs[0], bs[1], bs[2]);
      assert s[..4] == head;
      assert s[4..] == Encode(bs[3..]);
      DecodeEncode(bs[3..]);
      assert [bs[0], bs[1], bs[2]] + bs[3..] == bs;
    }
  }

  /** The seven test vectors of section 10 of RFC 4648. */
  lemma StandardVectors()
    ensures Encode([]) == ""
    ensures Encode([0x66]) == "Zg=="
    ensures Encode([0x66, 0x6F]) == "Zm8="
    ensures Encode([0x66, 0x6F, 0x6F]) == "Zm9v"
    ensures Encode([0x66, 0x6F, 0x6F, 0x62]) == "Zm9vYg=="
    ensures Encode([0x66, 0x6F, 0x6F, 0x62, 0x61]) == "Zm9vYmE="
    ensures Encode([0x66, 0x6F, 0x6F, 0x62, 0x61, 0x72]) == "Zm9vYmFy"
  {
    assert [0x66, 0x6F, 0x6F, 0x62][3..] == [0x62];
    assert [0x66, 0x6F, 0x6F, 0x62, 0x61][3..] == [0x62, 0x61];
    assert [0x66, 0x6F, 0x6F, 0x62, 0x61, 0x72][3..] == [0x62, 0x61, 0x72];
  }
}
