/** The UTF-8 encoding (section 3 of RFC 3629) of Dafny strings, which is what
    Go's `[]byte(s)` conversion yields for a string holding valid text. */
module Utf8 {
  import opened Wrappers

  type Byte = b: int | 0 <= b < 256

  predicate IsContinuation(b: Byte) {
    0x80 <= b < 0xC0
  }

  /** The one to four bytes that encode a single Unicode scalar value. */
  function EncodeChar(c: char): (bs: seq<Byte>)
    ensures 1 <= |bs| <= 4
    ensures |bs| == 1 <==> c as int < 0x80
    ensures forall i :: 1 <= i < |bs| ==> IsContinuation(bs[i])
  {
    var cp := c as int;
    if cp < 0x80 then [cp]
    else if cp < 0x800 then [0xC0 + cp / 64, 0x80 + cp % 64]
    else if cp < 0x10000 then [0xE0 + cp / 4096, 0x80 + cp / 64 % 64, 0x80 + cp % 64]
    else [0xF0 + cp / 0x40000, 0x80 + cp / 4096 % 64, 0x80 + cp / 64 % 64, 0x80 + cp % 64]
  }

  function Encode(s: string): (bs: seq<Byte>)
    ensures |s| <= |bs| <= 4 * |s|
  {
    if s == [] then [] else EncodeChar(s[0]) + Encode(s[1..])
  }

  /** Decodes the character at the head of `bs`, with the number of bytes it
      takes; None when the head is not a well-formed shortest encoding. */
  function DecodeChar(bs: seq<Byte>): (r: Option<(char, nat)>)
    ensures r.Some? ==> 1 <= r.value.1 <= |bs| && r.value.1 <= 4
  {
    if |bs| == 0 then None
    else if bs[0] < 0x80 then Some((bs[0] as char, 1))
    else if 0xC0 <= bs[0] < 0xE0 then
      if |bs| < 2 || !IsContinuation(bs[1]) then None
      else
        var cp: int := (bs[0] - 0xC0) as int * 64 + (bs[1] - 0x80) as int;
        if cp < 0x80 then None else Some((cp as char, 2))
    else if 0xE0 <= bs[0] < 0xF0 then
      if |bs| < 3 || !IsContinuation(bs[1]) || !IsContinuation(bs[2]) then None
      else
        var cp: int := (bs[0] - 0xE0) as int * 4096 + (bs[1] - 0x80) as int * 64 + (bs[2] - 0x80) as int;
        if cp < 0x800 || 0xD800 <= cp < 0xE000 then None else Some((cp as char, 3))
    else if 0xF0 <= bs[0] < 0xF8 then
      if |bs| < 4 || !IsContinuation(bs[1]) || !IsContinuation(bs[2]) || !IsContinuation(bs[3]) then None
      else
        var cp: int := (bs[0] - 0xF0) as int * 0x40000 + (bs[1] - 0x80) as int * 4096
          + (bs[2] - 0x80) as int * 64 + (bs[3] - 0x80) as int;
        if cp < 0x10000 || 0x10FFFF < cp then None else Some((cp as char, 4))
    else None
  }

  function Decode(bs: seq<Byte>): Option<string>
    decreases |bs|
  {
    if bs == [] then Some([])
    else match DecodeChar(bs)
      case None => None
      case Some((c, n)) =>
        match Decode(bs[n..])
        case None => None
        case Some(rest) => Some([c] + rest)
  }

  /** Decoding the encoding of one character gives that character back and
      consumes exactly its bytes, whatever follows. */
  lemma DecodeEncodeChar(c: char, rest: seq<Byte>)
    ensures DecodeChar(EncodeChar(c) + rest) == Some((c, |EncodeChar(c)|))
  {
    var cp := c as int;
    var bs := EncodeChar(c) + rest;
    if cp < 0x80 {
    } else if cp < 0x800 {
      SplitTwo(cp);
    } else if cp < 0x10000 {
      SplitThree(cp);
    } else {
      SplitFour(cp);
    }
  }

  lemma SplitTwo(cp: int)
    requires 0x80 <= cp < 0x800
    ensures 2 <= cp / 64 < 32
    ensures cp == (cp / 64) * 64 + cp % 64
  {
  }

  lemma SplitThree(cp: int)
    requires 0x800 <= cp < 0x10000
    ensures cp / 4096 < 16
    ensures cp == (cp / 4096) * 4096 + (cp / 64 % 64) * 64 + cp % 64
  {
  }

  lemma SplitFour(cp: int)
    requires 0x10000 <= cp <= 0x10FFFF
    ensures cp / 0x40000 <= 4
    ensures cp == (cp / 0x40000) * 0x40000 + (cp / 4096 % 64) * 4096 + (cp / 64 % 64) * 64 + cp % 64
  {
  }

  /** Round trip: the bytes Go sends for a string decode back to that string. */
  lemma {:induction false} DecodeEncode(s: string)
    ensures Decode(Encode(s)) == Some(s)
  {
    if s != [] {
      var head := EncodeChar(s[0]);
      var tail := Encode(s[1..]);
      DecodeEncodeChar(s[0], tail);
      assert (head + tail)[|head|..] == tail;
      DecodeEncode(s[1..]);
      assert [s[0]] + s[1..] == s;
    }
  }

  /** Text made of ASCII characters is sent one byte per character, each byte
      being the character's code. */
  lemma {:induction false} EncodeAscii(s: string)
    requires forall i :: 0 <= i < |s| ==> s[i] as int < 0x80
    ensures |Encode(s)| == |s|
    ensures forall i :: 0 <= i < |s| ==> Encode(s)[i] == s[i] as int
  {
    if s != [] {
      EncodeAscii(s[1..]);
    }
  }
}
