/**
 * URL-safe base64 (section 5 of RFC 4648) as Python's `base64` module applies
 * it: `urlsafe_b64encode` writes padded groups of four letters over the
 * alphabet ending in `-` and `_`; `urlsafe_b64decode` accepts ASCII text,
 * maps `-` and `_` to `+` and `/`, and decodes leniently, as
 * `binascii.a2b_base64` does outside strict mode: characters outside the
 * alphabet are skipped, a complete run of padding ends the input, and a
 * final incomplete group is an error.
 */
module Base64Url {
  import opened Wrappers
  import opened PyText

  /** A 6-bit value, one letter of the encoding. */
  type Sextet = x: int | 0 <= x < 64

  /** The URL-safe alphabet. */
  function Letter(v: Sextet): (c: char)
    ensures c != '='
  {
    if v < 26 then ('A' as int + v) as char
    else if v < 52 then ('a' as int + (v - 26)) as char
    else if v < 62 then ('0' as int + (v - 52)) as char
    else if v == 62 then '-'
    else '_'
  }

  /** The characters the URL-safe encoder writes. */
  predicate IsUrlSafeChar(c: char) {
    'A' <= c <= 'Z' || 'a' <= c <= 'z' || '0' <= c <= '9' || c == '-' || c == '_' || c == '='
  }

  /**
   * The value the decoder gives a character: `-` and `_` are first turned
   * into `+` and `/`, so both spellings of 62 and 63 are accepted.
   */
  function SextetOf(c: char): Option<Sextet> {
    if 'A' <= c <= 'Z' then Some(c as int - 'A' as int)
    else if 'a' <= c <= 'z' then Some(c as int - 'a' as int + 26)
    else if '0' <= c <= '9' then Some(c as int - '0' as int + 52)
    else if c == '+' || c == '-' then Some(62)
    else if c == '/' || c == '_' then Some(63)
    else None
  }

  /** Every letter decodes to its value. */
  lemma LetterDecodes(v: Sextet)
    ensures SextetOf(Letter(v)) == Some(v)
    ensures IsUrlSafeChar(Letter(v))
  {
  }

  /** The letters of one to three bytes, high bits first; fewer than three bytes leave the low bits of the last letter 0. */
  function Letters0(b0: Byte): Sextet { b0 / 4 }
  function Letters1(b0: Byte, b1: Byte): Sextet { b0 % 4 * 16 + b1 / 16 }
  function Letters2(b1: Byte, b2: Byte): Sextet { b1 % 16 * 4 + b2 / 64 }
  function Letters3(b2: Byte): Sextet { b2 % 64 }

  /** The four letters of three bytes. */
  function Group(b0: Byte, b1: Byte, b2: Byte): string {
    [Letter(Letters0(b0)), Letter(Letters1(b0, b1)), Letter(Letters2(b1, b2)), Letter(Letters3(b2))]
  }

  /** `base64.urlsafe_b64encode(data).decode()`: full groups, then a padded final group. */
  function Encode(data: seq<Byte>): (s: string)
    ensures |s| == (|data| + 2) / 3 * 4
    ensures forall i | 0 <= i < |s| :: IsUrlSafeChar(s[i])
    ensures |data| % 3 == 0 ==> '=' !in s
    decreases |data|
  {
    if |data| == 0 then []
    else if |data| == 1 then
      LetterDecodes(Letters0(data[0]));
      LetterDecodes(Letters1(data[0], 0));
      [Letter(Letters0(data[0])), Letter(Letters1(data[0], 0)), '=', '=']
    else if |data| == 2 then
      LetterDecodes(Letters0(data[0]));
      LetterDecodes(Letters1(data[0], data[1]));
      LetterDecodes(Letters2(data[1], 0));
      [Letter(Letters0(data[0])), Letter(Letters1(data[0], data[1])), Letter(Letters2(data[1], 0)), '=']
    else
      LetterDecodes(Letters0(data[0]));
      LetterDecodes(Letters1(data[0], data[1]));
      LetterDecodes(Letters2(data[1], data[2]));
      LetterDecodes(Letters3(data[2]));
      Group(data[0], data[1], data[2]) + Encode(data[3..])
  }

  // ---------------------------------------------------------------------
  // Decoding

  /** Why `urlsafe_b64decode` raises. */
  datatype Base64Error =
    | NonAsciiInput
    | SingleTrailingChar
    | IncorrectPadding

  type QuadPos = x: int | 0 <= x < 4

  /**
   * The decoder between two characters: how many letters of the current
   * group it has seen, how many `=` since the group's second letter, the
   * bits of the last letter not yet written, and the bytes written so far.
   */
  datatype Decoder = Decoder(quadPos: QuadPos, pads: nat, leftChar: Sextet, out: seq<Byte>)

  const Start := Decoder(0, 0, 0, [])

  /**
   * One letter of a group: the shifted bits of the previous letter joined
   * with the high bits of this one make the next byte (they never exceed 8
   * bits, so the C code's truncation to a byte changes nothing).
   */
  function Feed(d: Decoder, v: Sextet): (e: Decoder)
    ensures e.pads == 0 && e.quadPos == (d.quadPos + 1) % 4
  {
    if d.quadPos == 0 then Decoder(1, 0, v, d.out)
    else if d.quadPos == 1 then Decoder(2, 0, v % 16, d.out + [d.leftChar * 4 + v / 16])
    else if d.quadPos == 2 then Decoder(3, 0, v % 4, d.out + [d.leftChar % 16 * 16 + v / 4])
    else Decoder(0, 0, 0, d.out + [d.leftChar % 4 * 64 + v])
  }

  /**
   * One character: `=` after a group's second letter counts towards the
   * padding and, once the group is complete, stops the decoding (`true`);
   * `=` earlier and characters outside the alphabet are skipped.
   */
  function Step(d: Decoder, c: char): (Decoder, bool) {
    if c == '=' then
      if d.quadPos >= 2 then
        (d.(pads := d.pads + 1), d.quadPos + d.pads + 1 >= 4)
      else (d, false)
    else
      match SextetOf(c)
      case None => (d, false)
      case Some(v) => (Feed(d, v), false)
  }

  /** The rest of the decoding: stop at a complete padding, else fail on an incomplete group at the end. */
  function Run(s: string, d: Decoder): Result<seq<Byte>, Base64Error>
    decreases |s|
  {
    if s == [] then
      if d.quadPos == 0 then Success(d.out)
      else if d.quadPos == 1 then Failure(SingleTrailingChar)
      else Failure(IncorrectPadding)
    else
      var (e, done) := Step(d, s[0]);
      if done then Success(e.out) else Run(s[1..], e)
  }

  /** `base64.urlsafe_b64decode(s)` for a `str` argument. */
  function Decode(s: string): (r: Result<seq<Byte>, Base64Error>)
    ensures !IsAscii(s) ==> r == Failure(NonAsciiInput)
  {
    if IsAscii(s) then Run(s, Start) else Failure(NonAsciiInput)
  }

  // ---------------------------------------------------------------------
  // Round trip

  /** The decoder reading one character that does not stop it. */
  lemma RunCons(c: char, rest: string, d: Decoder)
    requires !Step(d, c).1
    ensures Run([c] + rest, d) == Run(rest, Step(d, c).0)
  {
    assert ([c] + rest)[0] == c && ([c] + rest)[1..] == rest;
  }

  /** Each byte comes back from the letters that hold its bits. */
  lemma FirstByteBack(b0: Byte, b1: Byte)
    ensures Letters0(b0) * 4 + Letters1(b0, b1) / 16 == b0 && Letters1(b0, b1) % 16 == b1 / 16
  {
  }

  lemma SecondByteBack(b1: Byte, b2: Byte)
    ensures b1 / 16 * 16 + Letters2(b1, b2) / 4 == b1 && Letters2(b1, b2) % 4 == b2 / 64
  {
  }

  lemma ThirdByteBack(b2: Byte)
    ensures b2 / 64 * 64 + Letters3(b2) == b2
  {
  }

  /** The letters of three bytes give them back. */
  lemma FeedGroup(b0: Byte, b1: Byte, b2: Byte, d: Decoder)
    requires d.quadPos == 0
    ensures Feed(Feed(Feed(Feed(d, Letters0(b0)), Letters1(b0, b1)), Letters2(b1, b2)), Letters3(b2))
      == Decoder(0, 0, 0, d.out + [b0, b1, b2])
  {
    FirstByteBack(b0, b1);
    SecondByteBack(b1, b2);
    ThirdByteBack(b2);
    var d1 := Feed(d, Letters0(b0));
    var d2 := Feed(d1, Letters1(b0, b1));
    var d3 := Feed(d2, Letters2(b1, b2));
    assert d2.out == d.out + [b0] && d2.leftChar == b1 / 16;
    assert d3.out == d.out + [b0] + [b1] && d3.leftChar == b2 / 64;
    assert d.out + [b0] + [b1] + [b2] == d.out + [b0, b1, b2];
  }

  /** Four characters in front of a string, as the decoder takes them one by one. */
  lemma Cons4<T>(a: T, b: T, c: T, e: T, rest: seq<T>)
    ensures [a, b, c, e] + rest == [a] + ([b] + ([c] + ([e] + rest)))
  {
  }

  /** A full group of four letters adds its three bytes. */
  lemma RunGroup(b0: Byte, b1: Byte, b2: Byte, rest: string, d: Decoder)
    requires d.quadPos == 0
    ensures Run(Group(b0, b1, b2) + rest, d) == Run(rest, Decoder(0, 0, 0, d.out + [b0, b1, b2]))
  {
    var v0, v1, v2, v3 := Letters0(b0), Letters1(b0, b1), Letters2(b1, b2), Letters3(b2);
    LetterDecodes(v0);
    LetterDecodes(v1);
    LetterDecodes(v2);
    LetterDecodes(v3);
    var d1 := Feed(d, v0);
    var d2 := Feed(d1, v1);
    var d3 := Feed(d2, v2);
    FeedGroup(b0, b1, b2, d);
    Cons4(Letter(v0), Letter(v1), Letter(v2), Letter(v3), rest);
    RunCons(Letter(v0), [Letter(v1)] + ([Letter(v2)] + ([Letter(v3)] + rest)), d);
    RunCons(Letter(v1), [Letter(v2)] + ([Letter(v3)] + rest), d1);
    RunCons(Letter(v2), [Letter(v3)] + rest, d2);
    RunCons(Letter(v3), rest, d3);
  }

  /** One byte: two letters, then two `=` that stop the decoder. */
  lemma RunLastOne(b0: Byte, rest: string, d: Decoder)
    requires d.quadPos == 0
    ensures Run([Letter(Letters0(b0)), Letter(Letters1(b0, 0)), '=', '='] + rest, d) == Success(d.out + [b0])
  {
    var v0, v1 := Letters0(b0), Letters1(b0, 0);
    LetterDecodes(v0);
    LetterDecodes(v1);
    FirstByteBack(b0, 0);
    var d1 := Feed(d, v0);
    var d2 := Feed(d1, v1);
    assert d2.out == d.out + [b0] && d2.quadPos == 2 && d2.pads == 0;
    Cons4(Letter(v0), Letter(v1), '=', '=', rest);
    RunCons(Letter(v0), [Letter(v1)] + (['='] + (['='] + rest)), d);
    RunCons(Letter(v1), ['='] + (['='] + rest), d1);
    RunCons('=', ['='] + rest, d2);
    assert (['='] + rest)[0] == '=';
  }

  /** Two bytes: three letters, then one `=` that stops the decoder. */
  lemma RunLastTwo(b0: Byte, b1: Byte, rest: string, d: Decoder)
    requires d.quadPos == 0
    ensures Run([Letter(Letters0(b0)), Letter(Letters1(b0, b1)), Letter(Letters2(b1, 0)), '='] + rest, d)
      == Success(d.out + [b0, b1])
  {
    var v0, v1, v2 := Letters0(b0), Letters1(b0, b1), Letters2(b1, 0);
    LetterDecodes(v0);
    LetterDecodes(v1);
    LetterDecodes(v2);
    FirstByteBack(b0, b1);
    SecondByteBack(b1, 0);
    var d1 := Feed(d, v0);
    var d2 := Feed(d1, v1);
    var d3 := Feed(d2, v2);
    assert d3.out == d.out + [b0] + [b1] && d3.quadPos == 3 && d3.pads == 0;
    assert d.out + [b0] + [b1] == d.out + [b0, b1];
    Cons4(Letter(v0), Letter(v1), Letter(v2), '=', rest);
    RunCons(Letter(v0), [Letter(v1)] + ([Letter(v2)] + (['='] + rest)), d);
    RunCons(Letter(v1), [Letter(v2)] + (['='] + rest), d1);
    RunCons(Letter(v2), ['='] + rest, d2);
    assert (['='] + rest)[0] == '=';
  }

  /** How `Encode` begins, by the number of bytes. */
  lemma EncodeShape(data: seq<Byte>)
    ensures |data| == 1 ==> Encode(data) == [Letter(Letters0(data[0])), Letter(Letters1(data[0], 0)), '=', '=']
    ensures |data| == 2 ==>
      Encode(data) == [Letter(Letters0(data[0])), Letter(Letters1(data[0], data[1])), Letter(Letters2(data[1], 0)), '=']
    ensures |data| >= 3 ==> Encode(data) == Group(data[0], data[1], data[2]) + Encode(data[3..])
  {
  }

  lemma DropGroupMod(n: nat)
    requires n >= 3
    ensures (n - 3) % 3 == n % 3
  {
  }

  lemma SplitThree<T>(out: seq<T>, data: seq<T>)
    requires |data| >= 3
    ensures out + [data[0], data[1], data[2]] + data[3..] == out + data
  {
    assert data == [data[0], data[1], data[2]] + data[3..];
  }

  /** A full first group, followed by the decoding of the rest of the encoding. */
  lemma RunEncodedGroup(data: seq<Byte>, rest: string, d: Decoder)
    requires |data| >= 3 && d.quadPos == 0
    requires var e := Decoder(0, 0, 0, d.out + [data[0], data[1], data[2]]);
      Run(Encode(data[3..]) + rest, e) == Success(e.out + data[3..])
    ensures Run(Encode(data) + rest, d) == Success(d.out + data)
  {
    EncodeShape(data);
    AppendAssoc(Group(data[0], data[1], data[2]), Encode(data[3..]), rest);
    RunGroup(data[0], data[1], data[2], Encode(data[3..]) + rest, d);
    SplitThree(d.out, data);
  }

  /** Decoding the encoding from a group boundary adds exactly the encoded bytes, whatever follows a padded end. */
  lemma {:induction false} RunEncoded(data: seq<Byte>, rest: string, d: Decoder)
    requires d.quadPos == 0
    requires |data| % 3 == 0 ==> rest == []
    ensures Run(Encode(data) + rest, d) == Success(d.out + data)
    decreases |data|
  {
    if |data| == 0 {
      assert Encode(data) + rest == [] && d.out + data == d.out;
    } else if |data| == 1 {
      EncodeShape(data);
      RunLastOne(data[0], rest, d);
      assert d.out + [data[0]] == d.out + data;
    } else if |data| == 2 {
      EncodeShape(data);
      RunLastTwo(data[0], data[1], rest, d);
      assert d.out + [data[0], data[1]] == d.out + data;
    } else {
      var e := Decoder(0, 0, 0, d.out + [data[0], data[1], data[2]]);
      DropGroupMod(|data|);
      RunEncoded(data[3..], rest, e);
      RunEncodedGroup(data, rest, d);
    }
  }

  /** The encoding is ASCII text. */
  lemma EncodedIsAscii(data: seq<Byte>, rest: string)
    requires IsAscii(rest)
    ensures IsAscii(Encode(data) + rest)
  {
    var s := Encode(data) + rest;
    forall i | 0 <= i < |s| ensures s[i] as int < 128 {
      if i < |Encode(data)| {
        assert IsUrlSafeChar(Encode(data)[i]);
      } else {
        assert s[i] == rest[i - |Encode(data)|];
      }
    }
  }

  /** `urlsafe_b64decode(urlsafe_b64encode(data)) == data`. */
  lemma DecodeEncode(data: seq<Byte>)
    ensures Decode(Encode(data)) == Success(data)
  {
    EncodedIsAscii(data, []);
    assert Encode(data) + [] == Encode(data);
    RunEncoded(data, [], Start);
    assert Start.out + data == data;
  }

  /** Once the padding is complete the decoder reads no further: anything appended is ignored. */
  lemma TextAfterPaddingIgnored(data: seq<Byte>, rest: string)
    requires |data| % 3 != 0 && IsAscii(rest)
    ensures Decode(Encode(data) + rest) == Success(data)
  {
    EncodedIsAscii(data, rest);
    RunEncoded(data, rest, Start);
    assert Start.out + data == data;
  }

  /** A character outside the alphabet, other than `=`, is skipped wherever it stands. */
  lemma {:induction false} OtherCharSkipped(a: string, c: char, b: string, d: Decoder)
    requires c != '=' && SextetOf(c).None?
    ensures Run(a + [c] + b, d) == Run(a + b, d)
    decreases |a|
  {
    if a == [] {
      assert (a + [c] + b)[1..] == b && a + b == b;
    } else {
      assert (a + [c] + b)[0] == (a + b)[0] == a[0];
      assert (a + [c] + b)[1..] == a[1..] + [c] + b && (a + b)[1..] == a[1..] + b;
      var (e, done) := Step(d, a[0]);
      if !done {
        OtherCharSkipped(a[1..], c, b, e);
      }
    }
  }

  /** A single letter left over after the last full group is an error. */
  lemma SingleLetterRejected(c: char)
    requires SextetOf(c).Some? && c as int < 128
    ensures Decode([c]) == Failure(SingleTrailingChar)
  {
    assert IsAscii([c]);
    RunCons(c, [], Start);
    assert [c] + [] == [c];
  }

  /** Two letters without their padding are an error. */
  lemma MissingPaddingRejected(c0: char, c1: char)
    requires SextetOf(c0).Some? && SextetOf(c1).Some? && c0 as int < 128 && c1 as int < 128
    ensures Decode([c0, c1]) == Failure(IncorrectPadding)
  {
    assert IsAscii([c0, c1]);
    RunCons(c0, [c1], Start);
    RunCons(c1, [], Step(Start, c0).0);
    assert [c0] + [c1] == [c0, c1] && [c1] + [] == [c1];
  }
}
