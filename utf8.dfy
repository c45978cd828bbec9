/**
 * UTF-8, as Python's `str.encode()` and `bytes.decode()` apply it with their
 * default codec and the strict error handler: a decoding that meets a byte
 * sequence that is not well-formed UTF-8 (section 3 of RFC 3629) raises.
 */
module Utf8 {
  import opened Wrappers
  import opened PyText

  /** A continuation byte, `10xxxxxx`. */
  predicate IsCont(b: Byte) {
    0x80 <= b < 0xC0
  }

  /** The bytes of one character. */
  function EncodeChar(c: char): (r: seq<Byte>)
    ensures 1 <= |r| <= 4
    ensures c as int < 0x80 <==> |r| == 1
    ensures |r| == 1 ==> r[0] == c as int
  {
    var cp := c as int;
    if cp < 0x80 then [cp]
    else if cp < 0x800 then [0xC0 + cp / 64, 0x80 + cp % 64]
    else if cp < 0x10000 then [0xE0 + cp / 4096, 0x80 + cp / 64 % 64, 0x80 + cp % 64]
    else [0xF0 + cp / 262144, 0x80 + cp / 4096 % 64, 0x80 + cp / 64 % 64, 0x80 + cp % 64]
  }

  /** `s.encode()`. */
  function Encode(s: string): (r: seq<Byte>)
    ensures |r| >= |s|
  {
    if s == [] then [] else EncodeChar(s[0]) + Encode(s[1..])
  }

  /** A Unicode scalar value: a code point that is not a surrogate. */
  predicate IsScalar(cp: int) {
    0 <= cp < 0xD800 || 0xE000 <= cp < 0x110000
  }

  /**
   * The character at the front of `b` and how many bytes it takes, or
   * nothing when the front is not well-formed: a stray continuation byte,
   * `C0`, `C1` or `F5`-`FF`, a missing continuation byte, an overlong form,
   * a surrogate or a code point above `10FFFF` (the ranges of the second
   * byte after `E0`, `ED`, `F0` and `F4` exclude the last three).
   */
  function DecodeFront(b: seq<Byte>): (r: Option<(char, nat)>)
    requires b != []
    ensures r.Some? ==> 1 <= r.value.1 <= |b| && r.value.1 <= 4
  {
    var b0 := b[0] as int;
    if b0 < 0x80 then Some((b0 as char, 1))
    else if 0xC2 <= b0 < 0xE0 then
      if |b| >= 2 && IsCont(b[1]) then Some((((b0 - 0xC0) * 64 + (b[1] as int - 0x80)) as char, 2)) else None
    else if 0xE0 <= b0 < 0xF0 then
      var lo := if b0 == 0xE0 then 0xA0 else 0x80;
      var hi := if b0 == 0xED then 0xA0 else 0xC0;
      if |b| >= 3 && lo <= b[1] < hi && IsCont(b[2]) then
        var cp := (b0 - 0xE0) * 4096 + (b[1] as int - 0x80) * 64 + (b[2] as int - 0x80);
        if IsScalar(cp) then Some((cp as char, 3)) else None
      else None
    else if 0xF0 <= b0 < 0xF5 then
      var lo := if b0 == 0xF0 then 0x90 else 0x80;
      var hi := if b0 == 0xF4 then 0x90 else 0xC0;
      if |b| >= 4 && lo <= b[1] < hi && IsCont(b[2]) && IsCont(b[3]) then
        var cp := (b0 - 0xF0) * 262144 + (b[1] as int - 0x80) * 4096 + (b[2] as int - 0x80) * 64 + (b[3] as int - 0x80);
        if IsScalar(cp) then Some((cp as char, 4)) else None
      else None
    else None
  }

  /** `b.decode()`: `None` stands for the `UnicodeDecodeError` it raises. */
  function Decode(b: seq<Byte>): (r: Option<string>)
    decreases |b|
  {
    if b == [] then Some([])
    else
      match DecodeFront(b)
      case None => None
      case Some((c, n)) =>
        match Decode(b[n..])
        case None => None
        case Some(s) => Some([c] + s)
  }

  // The arithmetic of each length: the bytes written lie in the ranges the
  // decoder accepts, and the decoder's sum gives the code point back.

  lemma TwoBytes(cp: int)
    requires 0x80 <= cp < 0x800
    ensures var b0, b1 := 0xC0 + cp / 64, 0x80 + cp % 64;
      0xC2 <= b0 < 0xE0 && 0x80 <= b1 < 0xC0 && (b0 - 0xC0) * 64 + (b1 - 0x80) == cp
  {
  }

  lemma ThreeBytes(cp: int)
    requires 0x800 <= cp < 0x10000 && IsScalar(cp)
    ensures var b0, b1, b2 := 0xE0 + cp / 4096, 0x80 + cp / 64 % 64, 0x80 + cp % 64;
      && 0xE0 <= b0 < 0xF0 && 0x80 <= b1 < 0xC0 && 0x80 <= b2 < 0xC0
      && (b0 == 0xE0 ==> b1 >= 0xA0) && (b0 == 0xED ==> b1 < 0xA0)
      && (b0 - 0xE0) * 4096 + (b1 - 0x80) * 64 + (b2 - 0x80) == cp
  {
  }

  lemma FourBytes(cp: int)
    requires 0x10000 <= cp < 0x110000
    ensures var b0, b1, b2, b3 := 0xF0 + cp / 262144, 0x80 + cp / 4096 % 64, 0x80 + cp / 64 % 64, 0x80 + cp % 64;
      && 0xF0 <= b0 < 0xF5 && 0x80 <= b1 < 0xC0 && 0x80 <= b2 < 0xC0 && 0x80 <= b3 < 0xC0
      && (b0 == 0xF0 ==> b1 >= 0x90) && (b0 == 0xF4 ==> b1 < 0x90)
      && (b0 - 0xF0) * 262144 + (b1 - 0x80) * 4096 + (b2 - 0x80) * 64 + (b3 - 0x80) == cp
  {
  }

  /** The bytes of a character are read back as that character. */
  lemma DecodeFrontEncodeChar(c: char, rest: seq<Byte>)
    ensures DecodeFront(EncodeChar(c) + rest) == Some((c, |EncodeChar(c)|))
  {
    var cp := c as int;
    var e := EncodeChar(c);
    var b := e + rest;
    assert forall i | 0 <= i < |e| :: b[i] == e[i];
    if cp < 0x80 {
    } else if cp < 0x800 {
      TwoBytes(cp);
    } else if cp < 0x10000 {
      ThreeBytes(cp);
    } else {
      FourBytes(cp);
    }
  }

  /** `s.encode().decode() == s`. */
  lemma {:induction false} DecodeEncode(s: string)
    ensures Decode(Encode(s)) == Some(s)
  {
    if s != [] {
      var e := EncodeChar(s[0]);
      var b := Encode(s);
      assert b == e + Encode(s[1..]);
      DecodeFrontEncodeChar(s[0], Encode(s[1..]));
      assert b[|e|..] == Encode(s[1..]);
      DecodeEncode(s[1..]);
      assert [s[0]] + s[1..] == s;
    }
  }

  /** Text of code points below 128 is encoded as those code points, one byte each. */
  lemma {:induction false} EncodeAscii(s: string)
    requires IsAscii(s)
    ensures |Encode(s)| == |s| && forall i | 0 <= i < |s| :: Encode(s)[i] == s[i] as int
  {
    if s != [] {
      assert IsAscii(s[1..]) by {
        forall i | 0 <= i < |s[1..]| ensures s[1..][i] as int < 128 {
          assert s[1..][i] == s[i + 1];
        }
      }
      EncodeAscii(s[1..]);
      assert Encode(s) == [s[0] as int] + Encode(s[1..]);
    }
  }

  /** A lone continuation byte is rejected. */
  lemma StrayContinuationRejected(b: Byte)
    requires IsCont(b)
    ensures Decode([b]).None?
  {
  }

  /** The overlong two-byte form of `/` is rejected. */
  lemma OverlongRejected()
    ensures Decode([0xC0, 0xAF]).None?
  {
  }

  /** The three bytes that would encode the surrogate `D800` are rejected. */
  lemma SurrogateRejected()
    ensures Decode([0xED, 0xA0, 0x80]).None?
  {
  }
}
