/**
 * The JSON text of a virtual collection's id: `json.dumps` of a dict of
 * strings with the default settings (`ensure_ascii=True`, separators `", "`
 * and `": "`), and `json.loads` for objects whose members are strings.
 */
module JsonText {
  import opened Wrappers
  import opened PyText

  // ---------------------------------------------------------------------
  // Writing strings

  function HexDigit(d: int): (c: char)
    requires 0 <= d < 16
  {
    if d < 10 then ('0' as int + d) as char else ('a' as int + d - 10) as char
  }

  /** Four lower-case hexadecimal digits, as `'{0:04x}'.format(n)` writes them. */
  function Hex4(n: int): (s: string)
    requires 0 <= n < 0x10000
    ensures |s| == 4
  {
    [HexDigit(n / 4096), HexDigit(n / 256 % 16), HexDigit(n / 16 % 16), HexDigit(n % 16)]
  }

  /** The ASCII characters `ensure_ascii` output keeps as they are: space to `~`, except `"` and `\`. */
  predicate IsPlain(c: char) {
    ' ' <= c <= '~' && c != '"' && c != '\\'
  }

  /**
   * How the encoder writes one character: the short escapes of `"`, `\`,
   * backspace, form feed, newline, carriage return and tab; other
   * characters outside space to `~` as `\u` and four hex digits, those
   * above `FFFF` as a surrogate pair.
   */
  function EscapeChar(c: char): (r: string)
    ensures |r| >= 1
  {
    if c == '"' then "\\\""
    else if c == '\\' then "\\\\"
    else if c == 8 as char then "\\b"
    else if c == 12 as char then "\\f"
    else if c == '\n' then "\\n"
    else if c == '\r' then "\\r"
    else if c == '\t' then "\\t"
    else if IsPlain(c) then [c]
    else if c as int < 0x10000 then "\\u" + Hex4(c as int)
    else
      var v := c as int - 0x10000;
      "\\u" + Hex4(0xD800 + v / 1024) + "\\u" + Hex4(0xDC00 + v % 1024)
  }

  function EscapeText(s: string): string {
    if s == [] then [] else EscapeChar(s[0]) + EscapeText(s[1..])
  }

  /** A string as `json.dumps` writes it. */
  function Quote(s: string): string {
    "\"" + EscapeText(s) + "\""
  }

  /** One member of an object as `json.dumps` writes it. */
  function Member(key: string, value: string): string {
    Quote(key) + ": " + Quote(value)
  }

  /** `json.dumps({"name": name, "type": type})`. */
  function DumpsNameType(name: string, collectionType: string): string {
    "{" + Member("name", name) + ", " + Member("type", collectionType) + "}"
  }

  // With `ensure_ascii`, the output is ASCII whatever the input.

  lemma Hex4Ascii(n: int)
    requires 0 <= n < 0x10000
    ensures IsAscii(Hex4(n))
  {
  }

  lemma SurrogatePairAscii(hi: int, lo: int)
    requires 0 <= hi < 0x10000 && 0 <= lo < 0x10000
    ensures IsAscii("\\u" + Hex4(hi) + "\\u" + Hex4(lo))
  {
    Hex4Ascii(hi);
    Hex4Ascii(lo);
    AsciiConcat("\\u", Hex4(hi));
    AsciiConcat("\\u" + Hex4(hi), "\\u");
    AsciiConcat("\\u" + Hex4(hi) + "\\u", Hex4(lo));
  }

  lemma EscapeCharAscii(c: char)
    ensures IsAscii(EscapeChar(c))
  {
    if !IsPlain(c) && c as int >= 0x10000 {
      var v := c as int - 0x10000;
      AstralEscape(c);
      SurrogatePairAscii(0xD800 + v / 1024, 0xDC00 + v % 1024);
    } else if !IsPlain(c) {
      Hex4Ascii(c as int);
      AsciiConcat("\\u", Hex4(c as int));
    }
  }

  lemma {:induction false} EscapeTextAscii(s: string)
    ensures IsAscii(EscapeText(s))
  {
    if s != [] {
      EscapeCharAscii(s[0]);
      EscapeTextAscii(s[1..]);
      AsciiConcat(EscapeChar(s[0]), EscapeText(s[1..]));
    }
  }

  lemma QuoteAscii(s: string)
    ensures IsAscii(Quote(s))
  {
    EscapeTextAscii(s);
    AsciiConcat("\"", EscapeText(s));
    AsciiConcat("\"" + EscapeText(s), "\"");
  }

  lemma MemberAscii(key: string, value: string)
    ensures IsAscii(Member(key, value))
  {
    QuoteAscii(key);
    QuoteAscii(value);
    AsciiConcat(Quote(key), ": ");
    AsciiConcat(Quote(key) + ": ", Quote(value));
  }

  /** The id text of a virtual collection is ASCII. */
  lemma DumpsNameTypeAscii(name: string, collectionType: string)
    ensures IsAscii(DumpsNameType(name, collectionType))
  {
    MemberAscii("name", name);
    MemberAscii("type", collectionType);
    AsciiConcat("{", Member("name", name));
    AsciiConcat("{" + Member("name", name), ", ");
    AsciiConcat("{" + Member("name", name) + ", ", Member("type", collectionType));
    AsciiConcat("{" + Member("name", name) + ", " + Member("type", collectionType), "}");
  }

  // ---------------------------------------------------------------------
  // Reading

  /** Why `json.loads` raises, as far as the model tells the cases apart. */
  datatype JsonError =
    | UnterminatedString
    | InvalidControlCharacter
    | InvalidEscape
    | LoneSurrogate
    | ExpectingObject
    | ExpectingPropertyName
    | ExpectingColon
    | ExpectingCommaOrEnd
    | UnsupportedValue
    | ExtraData

  /** The whitespace JSON allows between tokens. */
  predicate IsJsonSpace(c: char) {
    c == ' ' || c == '\t' || c == '\n' || c == '\r'
  }

  /** The text after the leading whitespace. */
  function SkipSpace(s: string): (r: string)
    ensures |r| <= |s| && (r == [] || !IsJsonSpace(r[0]))
  {
    if s != [] && IsJsonSpace(s[0]) then SkipSpace(s[1..]) else s
  }

  function HexValue(c: char): Option<int> {
    if '0' <= c <= '9' then Some(c as int - '0' as int)
    else if 'a' <= c <= 'f' then Some(c as int - 'a' as int + 10)
    else if 'A' <= c <= 'F' then Some(c as int - 'A' as int + 10)
    else None
  }

  /** Four hexadecimal digits of either case at the front of `s`. */
  function ParseHex4(s: string): (r: Option<int>)
    ensures r.Some? ==> |s| >= 4 && 0 <= r.value < 0x10000
  {
    if |s| < 4 then None
    else
      match (HexValue(s[0]), HexValue(s[1]), HexValue(s[2]), HexValue(s[3]))
      case (Some(a), Some(b), Some(c), Some(d)) =>
        if 0 <= a < 16 && 0 <= b < 16 && 0 <= c < 16 && 0 <= d < 16 then Some(a * 4096 + b * 256 + c * 16 + d) else None
      case _ => None
  }

  predicate IsHighSurrogate(u: int) { 0xD800 <= u < 0xDC00 }
  predicate IsLowSurrogate(u: int) { 0xDC00 <= u < 0xE000 }

  /**
   * A `\u` escape, `s` being the text after the `u`: a high surrogate
   * followed by an escaped low surrogate is one character; a surrogate
   * left on its own cannot be a character here.
   */
  function ParseUnicodeEscape(s: string): (r: Result<(char, string), JsonError>)
    ensures r.Success? ==> |r.value.1| < |s|
  {
    match ParseHex4(s)
    case None => Failure(InvalidEscape)
    case Some(u) =>
      var t := s[4..];
      if IsHighSurrogate(u) then
        if |t| >= 2 && t[0] == '\\' && t[1] == 'u' then
          match ParseHex4(t[2..])
          case None => Failure(InvalidEscape)
          case Some(u2) =>
            if IsLowSurrogate(u2) then Success(((0x10000 + (u - 0xD800) * 1024 + (u2 - 0xDC00)) as char, t[6..]))
            else Failure(LoneSurrogate)
        else Failure(LoneSurrogate)
      else if IsLowSurrogate(u) then Failure(LoneSurrogate)
      else Success((u as char, t))
  }

  /** An escape, `s` being the text after the backslash. */
  function ParseEscape(s: string): (r: Result<(char, string), JsonError>)
    ensures r.Success? ==> |r.value.1| < |s|
  {
    if s == [] then Failure(UnterminatedString)
    else if s[0] == '"' then Success(('"', s[1..]))
    else if s[0] == '\\' then Success(('\\', s[1..]))
    else if s[0] == '/' then Success(('/', s[1..]))
    else if s[0] == 'b' then Success((8 as char, s[1..]))
    else if s[0] == 'f' then Success((12 as char, s[1..]))
    else if s[0] == 'n' then Success(('\n', s[1..]))
    else if s[0] == 'r' then Success(('\r', s[1..]))
    else if s[0] == 't' then Success(('\t', s[1..]))
    else if s[0] == 'u' then ParseUnicodeEscape(s[1..])
    else Failure(InvalidEscape)
  }

  /** A character put in front of a parsed string. */
  function Cons(c: char, r: Result<(string, string), JsonError>): Result<(string, string), JsonError> {
    match r
    case Failure(e) => Failure(e)
    case Success((v, rest)) => Success(([c] + v, rest))
  }

  /**
   * A string, `s` being the text after the opening quote: its value and the
   * text after the closing quote.  Control characters must be escaped.
   */
  function ParseString(s: string): (r: Result<(string, string), JsonError>)
    ensures r.Success? ==> |r.value.1| < |s|
    decreases |s|
  {
    if s == [] then Failure(UnterminatedString)
    else if s[0] == '"' then Success(([], s[1..]))
    else if s[0] == '\\' then
      match ParseEscape(s[1..])
      case Failure(e) => Failure(e)
      case Success((c, t)) => Cons(c, ParseString(t))
    else if s[0] as int < 0x20 then Failure(InvalidControlCharacter)
    else Cons(s[0], ParseString(s[1..]))
  }

  /**
   * One member, `s` being the text at its name: the name, the value and
   * the text after the value.  Whitespace may stand around the colon.
   */
  function ParseMember(s: string): (r: Result<((string, string), string), JsonError>)
    ensures r.Success? ==> |r.value.1| < |s|
  {
    if s == [] || s[0] != '"' then Failure(ExpectingPropertyName)
    else
      match ParseString(s[1..])
      case Failure(e) => Failure(e)
      case Success((key, t1)) =>
        var t2 := SkipSpace(t1);
        if t2 == [] || t2[0] != ':' then Failure(ExpectingColon)
        else
          var t3 := SkipSpace(t2[1..]);
          if t3 == [] || t3[0] != '"' then Failure(UnsupportedValue)
          else
            match ParseString(t3[1..])
            case Failure(e) => Failure(e)
            case Success((value, t4)) => Success(((key, value), t4))
  }

  /**
   * The members of an object, `s` being the text after `{` or `,` and the
   * whitespace after it; each member is added to those read before it, so a
   * repeated name keeps its last value.
   */
  function ParseMembers(s: string, acc: map<string, string>): (r: Result<(map<string, string>, string), JsonError>)
    decreases |s|
  {
    match ParseMember(s)
    case Failure(e) => Failure(e)
    case Success(((key, value), t4)) =>
      var t5 := SkipSpace(t4);
      var members := acc[key := value];
      if t5 != [] && t5[0] == '}' then Success((members, t5[1..]))
      else if t5 != [] && t5[0] == ',' then ParseMembers(SkipSpace(t5[1..]), members)
      else Failure(ExpectingCommaOrEnd)
  }

  /** `json.loads(s)` for a text holding one object whose members are strings. */
  function Loads(s: string): (r: Result<map<string, string>, JsonError>)
  {
    var t := SkipSpace(s);
    if t == [] || t[0] != '{' then Failure(ExpectingObject)
    else
      var u := SkipSpace(t[1..]);
      var parsed: Result<(map<string, string>, string), JsonError> := if u != [] && u[0] == '}' then Success((map[], u[1..])) else ParseMembers(u, map[]);
      match parsed
      case Failure(e) => Failure(e)
      case Success((obj, rest)) => if SkipSpace(rest) == [] then Success(obj) else Failure(ExtraData)
  }

  // ---------------------------------------------------------------------
  // Round trip

  // Shapes of the text being read, each shown apart from the reader.

  lemma Lead<T>(x: T, rest: seq<T>)
    ensures ([x] + rest)[0] == x && ([x] + rest)[1..] == rest
  {
  }

  lemma LeadTwo<T>(pair: seq<T>, rest: seq<T>)
    requires |pair| == 2
    ensures (pair + rest)[0] == pair[0] && (pair + rest)[1..] == [pair[1]] + rest
  {
  }

  lemma LeadTwoThen<T>(pair: seq<T>, x: seq<T>, rest: seq<T>)
    requires |pair| == 2
    ensures (pair + x + rest)[0] == pair[0] && (pair + x + rest)[1..] == [pair[1]] + (x + rest)
  {
    assert (pair + x + rest)[1..] == [pair[1]] + (x + rest);
  }

  lemma SurrogateShape<T>(pair: seq<T>, x: seq<T>, y: seq<T>, rest: seq<T>)
    requires |pair| == 2
    ensures (pair + x + pair + y + rest)[0] == pair[0]
    ensures (pair + x + pair + y + rest)[1..] == [pair[1]] + (x + (pair + (y + rest)))
  {
    assert (pair + x + pair + y + rest)[1..] == [pair[1]] + (x + (pair + (y + rest)));
  }

  lemma DropFront<T>(x: seq<T>, rest: seq<T>)
    ensures (x + rest)[|x|..] == rest
  {
  }

  lemma QuoteShape(e: string, rest: string)
    ensures ("\"" + e + "\"" + rest)[0] == '"' && ("\"" + e + "\"" + rest)[1..] == e + ("\"" + rest)
  {
    assert ("\"" + e + "\"" + rest)[1..] == e + ("\"" + rest);
  }

  lemma MemberShape(q1: string, q2: string, rest: string)
    ensures q1 + ": " + q2 + rest == q1 + (": " + (q2 + rest))
  {
  }

  lemma ObjectShape(m1: string, m2: string)
    ensures ("{" + m1 + ", " + m2 + "}")[0] == '{'
    ensures ("{" + m1 + ", " + m2 + "}")[1..] == m1 + (", " + (m2 + "}"))
  {
    assert ("{" + m1 + ", " + m2 + "}")[1..] == m1 + (", " + (m2 + "}"));
  }

  /** A separator and one space before a string: the reader finds the separator and then the string. */
  lemma SeparatorThenString(sep: char, x: string)
    requires !IsJsonSpace(sep) && x != [] && x[0] == '"'
    ensures var t := [sep, ' '] + x; SkipSpace(t) == t && t[0] == sep && SkipSpace(t[1..]) == x
  {
    var t := [sep, ' '] + x;
    LeadTwo([sep, ' '], x);
    Lead(' ', x);
  }

  lemma HexDigitValue(d: int)
    requires 0 <= d < 16
    ensures HexValue(HexDigit(d)) == Some(d)
  {
  }

  lemma Hex4Digits(n: int)
    requires 0 <= n < 0x10000
    ensures n / 4096 < 16
    ensures n / 4096 * 4096 + n / 256 % 16 * 256 + n / 16 % 16 * 16 + n % 16 == n
  {
    assert n == n / 16 * 16 + n % 16;
    assert n / 16 == n / 256 * 16 + n / 16 % 16;
    assert n / 256 == n / 4096 * 16 + n / 256 % 16;
  }

  /** The hex digits read back. */
  lemma Hex4Parses(n: int, rest: string)
    requires 0 <= n < 0x10000
    ensures ParseHex4(Hex4(n) + rest) == Some(n)
  {
    var h := Hex4(n);
    var s := h + rest;
    assert s[0] == h[0] && s[1] == h[1] && s[2] == h[2] && s[3] == h[3];
    Hex4Digits(n);
    HexDigitValue(n / 4096);
    HexDigitValue(n / 256 % 16);
    HexDigitValue(n / 16 % 16);
    HexDigitValue(n % 16);
  }

  /** An escaped character of the Basic Multilingual Plane is read back. */
  lemma BmpEscapeParses(c: char, rest: string)
    requires c as int < 0x10000 && !IsHighSurrogate(c as int) && !IsLowSurrogate(c as int)
    ensures ParseUnicodeEscape(Hex4(c as int) + rest) == Success((c, rest))
  {
    Hex4Parses(c as int, rest);
    DropFront(Hex4(c as int), rest);
  }

  lemma SurrogateArithmetic(c: char)
    requires c as int >= 0x10000
    ensures var v := c as int - 0x10000; var hi, lo := 0xD800 + v / 1024, 0xDC00 + v % 1024;
      IsHighSurrogate(hi) && IsLowSurrogate(lo) && 0x10000 + (hi - 0xD800) * 1024 + (lo - 0xDC00) == c as int
  {
  }

  /** A character written as a surrogate pair is read back as that character. */
  lemma SurrogatePairParses(c: char, rest: string)
    requires c as int >= 0x10000
    ensures var v := c as int - 0x10000;
      ParseUnicodeEscape(Hex4(0xD800 + v / 1024) + ("\\u" + (Hex4(0xDC00 + v % 1024) + rest))) == Success((c, rest))
  {
    var v := c as int - 0x10000;
    var hi, lo := 0xD800 + v / 1024, 0xDC00 + v % 1024;
    var x := "\\u" + (Hex4(lo) + rest);
    Hex4Parses(hi, x);
    DropFront(Hex4(hi), x);
    LeadTwo("\\u", Hex4(lo) + rest);
    Lead('u', Hex4(lo) + rest);
    Hex4Parses(lo, rest);
    assert x[2..] == Hex4(lo) + rest;
    assert x[2..][4..] == rest by { DropFront(Hex4(lo), rest); }
    SurrogateArithmetic(c);
  }

  // Every written character is read back, and the reading goes on after it.

  lemma ShortEscapeParses(c: char, rest: string)
    requires c == '"' || c == '\\' || c == 8 as char || c == 12 as char || c == '\n' || c == '\r' || c == '\t'
    ensures ParseString(EscapeChar(c) + rest) == Cons(c, ParseString(rest))
  {
    var e := EscapeChar(c);
    LeadTwo(e, rest);
    Lead(e[1], rest);
  }

  lemma PlainParses(c: char, rest: string)
    requires IsPlain(c)
    ensures ParseString(EscapeChar(c) + rest) == Cons(c, ParseString(rest))
  {
    Lead(c, rest);
  }

  lemma BmpParses(c: char, rest: string)
    requires !IsPlain(c) && c as int < 0x10000
    requires !(c == '"' || c == '\\' || c == 8 as char || c == 12 as char || c == '\n' || c == '\r' || c == '\t')
    ensures ParseString(EscapeChar(c) + rest) == Cons(c, ParseString(rest))
  {
    LeadTwoThen("\\u", Hex4(c as int), rest);
    Lead('u', Hex4(c as int) + rest);
    BmpEscapeParses(c, rest);
  }

  /** How a reader step over an escape goes on. */
  lemma EscapeStep(s: string, c: char, t: string)
    requires s != [] && s[0] == '\\' && ParseEscape(s[1..]) == Success((c, t))
    ensures ParseString(s) == Cons(c, ParseString(t))
  {
  }

  /** How a reader step over a `\\u` escape goes on. */
  lemma UnicodeEscapeStep(y: string, c: char, t: string)
    requires y != [] && y[0] == 'u' && ParseUnicodeEscape(y[1..]) == Success((c, t))
    ensures ParseEscape(y) == Success((c, t))
  {
  }

  lemma AstralEscape(c: char)
    requires c as int >= 0x10000
    ensures var v := c as int - 0x10000;
      EscapeChar(c) == "\\u" + Hex4(0xD800 + v / 1024) + "\\u" + Hex4(0xDC00 + v % 1024)
  {
  }

  lemma AstralParses(c: char, rest: string)
    requires c as int >= 0x10000
    ensures ParseString(EscapeChar(c) + rest) == Cons(c, ParseString(rest))
  {
    var v := c as int - 0x10000;
    var h1, h2 := Hex4(0xD800 + v / 1024), Hex4(0xDC00 + v % 1024);
    var x := h1 + ("\\u" + (h2 + rest));
    var s := EscapeChar(c) + rest;
    AstralEscape(c);
    SurrogateShape("\\u", h1, h2, rest);
    assert s[0] == '\\' && s[1..] == ['u'] + x;
    Lead('u', x);
    SurrogatePairParses(c, rest);
    UnicodeEscapeStep(['u'] + x, c, rest);
    EscapeStep(s, c, rest);
  }

  lemma EscapeCharParses(c: char, rest: string)
    ensures ParseString(EscapeChar(c) + rest) == Cons(c, ParseString(rest))
  {
    if c == '"' || c == '\\' || c == 8 as char || c == 12 as char || c == '\n' || c == '\r' || c == '\t' {
      ShortEscapeParses(c, rest);
    } else if IsPlain(c) {
      PlainParses(c, rest);
    } else if c as int < 0x10000 {
      BmpParses(c, rest);
    } else {
      AstralParses(c, rest);
    }
  }

  /** A written string is read back in full, and the reading stops after its closing quote. */
  lemma {:induction false} EscapeTextParses(s: string, rest: string)
    ensures ParseString(EscapeText(s) + ("\"" + rest)) == Success((s, rest))
  {
    if s == [] {
      assert EscapeText(s) + ("\"" + rest) == "\"" + rest;
      Lead('"', rest);
    } else {
      var tail := EscapeText(s[1..]) + ("\"" + rest);
      AppendAssoc(EscapeChar(s[0]), EscapeText(s[1..]), "\"" + rest);
      EscapeCharParses(s[0], tail);
      EscapeTextParses(s[1..], rest);
      assert [s[0]] + s[1..] == s;
    }
  }

  /** A quoted string read from after its opening quote. */
  lemma QuoteParses(s: string, rest: string)
    ensures var q := Quote(s) + rest; q[0] == '"' && ParseString(q[1..]) == Success((s, rest))
  {
    QuoteShape(EscapeText(s), rest);
    EscapeTextParses(s, rest);
  }

  /** One member read back, and the reading goes on after its value. */
  lemma MemberParses(key: string, value: string, rest: string)
    ensures var s := Member(key, value) + rest; s != [] && s[0] == '"' && ParseMember(s) == Success(((key, value), rest))
  {
    MemberShape(Quote(key), Quote(value), rest);
    QuoteParses(key, ": " + (Quote(value) + rest));
    QuoteParses(value, rest);
    SeparatorThenString(':', Quote(value) + rest);
  }

  /** A last member, followed by `}`. */
  lemma LastMemberParses(key: string, value: string, acc: map<string, string>)
    ensures ParseMembers(Member(key, value) + "}", acc) == Success((acc[key := value], []))
  {
    var s := Member(key, value) + "}";
    MemberParses(key, value, "}");
    assert ParseMember(s) == Success(((key, value), "}"));
    assert SkipSpace("}") == "}";
    assert "}"[1..] == [];
  }

  /** Two members, the first followed by `, ` and the second by `}`. */
  lemma TwoMembersParse(k1: string, v1: string, k2: string, v2: string, acc: map<string, string>)
    ensures ParseMembers(Member(k1, v1) + (", " + (Member(k2, v2) + "}")), acc) == Success((acc[k1 := v1][k2 := v2], []))
  {
    var second := Member(k2, v2) + "}";
    MemberParses(k1, v1, ", " + second);
    MemberParses(k2, v2, "}");
    SeparatorThenString(',', second);
    LastMemberParses(k2, v2, acc[k1 := v1]);
  }

  /** `json.loads(json.dumps({"name": name, "type": type}))` gives the two strings back. */
  lemma LoadsDumps(name: string, collectionType: string)
    ensures Loads(DumpsNameType(name, collectionType)) == Success(map["name" := name, "type" := collectionType])
  {
    var m1, m2 := Member("name", name), Member("type", collectionType);
    ObjectShape(m1, m2);
    MemberParses("name", name, ", " + (m2 + "}"));
    TwoMembersParse("name", name, "type", collectionType, map[]);
  }

  /** The later of two members with the same name wins, as in a dict built from the pairs. */
  lemma RepeatedNameKeepsLast(key: string, v1: string, v2: string)
    ensures ParseMembers(Member(key, v1) + (", " + (Member(key, v2) + "}")), map[]) == Success((map[key := v2], []))
  {
    TwoMembersParse(key, v1, key, v2, map[]);
    assert map[key := v1][key := v2] == map[key := v2];
  }
}
