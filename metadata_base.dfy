/**
 * The string helpers shared by the metadata handlers: search-term and cover
 * URL normalisation, masking of secrets before logging, the Switch product-id
 * rewrite, the filename patterns recognised before searching, and the small
 * helpers that turn a cached index entry into a search term.  The cache
 * itself is outside the model: what a lookup finds is passed in.
 */
module MetadataBase {
  import opened Wrappers
  import opened PyText

  const TradeMarkSign := '\U{2122}'
  const RegisteredSign := '\U{00AE}'
  const CopyrightSign := '\U{00A9}'
  const ServiceMarkSign := '\U{2120}'

  /** The symbols that `normalize_search_term` deletes. */
  const RemovedSymbols: set<char> := {TradeMarkSign, RegisteredSign, CopyrightSign, ServiceMarkSign}

  /**
   * `MetadataHandler.normalize_search_term`: delete the trade mark, registered,
   * copyright and service mark signs, then strip surrounding whitespace.
   */
  function NormalizeSearchTerm(searchTerm: string): (r: string)
    ensures forall c | c in RemovedSymbols :: c !in r
    ensures IsStripped(r)
    ensures r == Strip(Without(searchTerm, RemovedSymbols))
  {
    var t1 := Replace(searchTerm, [TradeMarkSign], "");
    var t2 := Replace(t1, [RegisteredSign], "");
    var t3 := Replace(t2, [CopyrightSign], "");
    var t4 := Replace(t3, [ServiceMarkSign], "");
    RemoveSymbolsOneByOne(searchTerm);
    forall c | c in RemovedSymbols ensures c !in Strip(t4) {
      if c in Strip(t4) {
        StripKeepsChars(t4, c);
        WithoutMembers(searchTerm, RemovedSymbols, c);
      }
    }
    Strip(t4)
  }

  /** The four single-symbol replacements together delete exactly the removed symbols. */
  lemma RemoveSymbolsOneByOne(s: string)
    ensures
      var t1 := Replace(s, [TradeMarkSign], "");
      var t2 := Replace(t1, [RegisteredSign], "");
      var t3 := Replace(t2, [CopyrightSign], "");
      Replace(t3, [ServiceMarkSign], "") == Without(s, RemovedSymbols)
  {
    var t1 := Replace(s, [TradeMarkSign], "");
    ReplaceCharWithEmpty(s, TradeMarkSign);
    var t2 := Replace(t1, [RegisteredSign], "");
    ReplaceCharWithEmpty(t1, RegisteredSign);
    WithoutWithout(s, {TradeMarkSign}, {RegisteredSign});
    var t3 := Replace(t2, [CopyrightSign], "");
    ReplaceCharWithEmpty(t2, CopyrightSign);
    WithoutWithout(s, {TradeMarkSign} + {RegisteredSign}, {CopyrightSign});
    ReplaceCharWithEmpty(t3, ServiceMarkSign);
    WithoutWithout(s, {TradeMarkSign} + {RegisteredSign} + {CopyrightSign}, {ServiceMarkSign});
    assert {TradeMarkSign} + {RegisteredSign} + {CopyrightSign} + {ServiceMarkSign} == RemovedSymbols;
  }

  /** Normalising a normalised term changes nothing. */
  lemma NormalizeSearchTermIdempotent(searchTerm: string)
    ensures NormalizeSearchTerm(NormalizeSearchTerm(searchTerm)) == NormalizeSearchTerm(searchTerm)
  {
    var r := NormalizeSearchTerm(searchTerm);
    WithoutNone(r, RemovedSymbols);
    StripStripped(r);
  }

  /**
   * `MetadataHandler._normalize_cover_url`: an empty URL is kept; otherwise
   * the occurrences of `https:` that a left-to-right `replace` finds are
   * removed and one is put in front.  Removing one can join its neighbours
   * into a new `https:`, which then stays.
   */
  function NormalizeCoverUrl(url: string): (r: string)
    ensures url == [] <==> r == []
    ensures url != [] ==> StartsWith(r, "https:")
    ensures url != [] && !Contains(url, "https:") ==> r == "https:" + url
  {
    if url == [] then url
    else
      var r := "https:" + Replace(url, "https:", "");
      if Contains(url, "https:") then r else ReplaceAbsent(url, "https:", ""); r
  }

  /** A URL that already starts with the scheme, and has no second one, is its own normal form. */
  lemma CoverUrlWithSchemeKept(rest: string)
    requires !Contains(rest, "https:")
    ensures NormalizeCoverUrl("https:" + rest) == "https:" + rest
  {
    var url := "https:" + rest;
    assert url[..6] == "https:";
    assert url[6..] == rest;
    ReplaceAbsent(rest, "https:", "");
    assert Replace(url, "https:", "") == rest;
  }

  /** A protocol-relative URL and the same URL with the scheme normalise alike. */
  lemma CoverUrlProtocolRelative(rest: string)
    requires !Contains(rest, "https:")
    ensures NormalizeCoverUrl("//" + rest) == NormalizeCoverUrl("https://" + rest) == "https://" + rest
  {
    var url := "//" + rest;
    forall i: nat | i <= |url| ensures !OccursAt(url, "https:", i) {
      if i < 2 {
        assert url[i] == '/';
      } else if i + 6 <= |url| {
        assert url[i..i + 6] == rest[i - 2..i + 4];
        assert !OccursAt(rest, "https:", i - 2);
      }
    }
    assert "https://" + rest == "https:" + ("//" + rest);
    CoverUrlWithSchemeKept("//" + rest);
  }

  /** The header and parameter names whose values are masked wholesale. */
  const SensitiveKeys: set<string> :=
    {"Client-ID", "Client-Secret", "client_id", "client_secret", "api_key", "ssid", "sspassword", "devid", "devpassword"}

  const BearerPrefix := "Bearer "

  /** `v[:2] + "***" + v[-2:]`: the first two and the last two characters around three stars. */
  function MaskValue(v: string): (r: string)
    ensures |r| <= 7
    ensures |v| >= 2 ==> |r| == 7 && r == v[..2] + "***" + v[|v| - 2..]
    ensures |v| < 2 ==> r == v + "***" + v
    ensures forall i | 0 <= i < |r| :: r[i] == '*' || r[i] in v
  {
    PrefixSlice(v, 2) + "***" + SuffixSlice(v, 2)
  }

  /**
   * The two kept ends overlap or touch for a value of at most four
   * characters, so its mask shows it whole: it can be read back from the
   * mask and its length.
   */
  lemma ShortValueExposed(v: string)
    requires 2 <= |v| <= 4
    ensures var r := MaskValue(v); v == r[..2] + r[9 - |v|..]
  {
    var r := MaskValue(v);
    assert r[9 - |v|..] == v[2..] by {
      forall i | 0 <= i < |v| - 2 ensures r[9 - |v|..][i] == v[2..][i] {
        assert r[9 - |v| + i] == v[|v| - 2 + (4 - |v| + i)];
      }
    }
    assert v == v[..2] + v[2..];
  }

  /** Masking a masked value of at least two characters gives it back. */
  lemma MaskValueStable(v: string)
    requires |v| >= 2
    ensures MaskValue(MaskValue(v)) == MaskValue(v)
  {
  }

  /** The second field of `v.split(' ')` when `v` starts with `"Bearer "`: the token up to the next space. */
  function BearerToken(v: string): (t: string)
    requires StartsWith(v, BearerPrefix)
    ensures ' ' !in t
    ensures |t| <= |v| - 7 && t == v[7..7 + |t|]
    ensures 7 + |t| < |v| ==> v[7 + |t|] == ' '
  {
    assert v == "Bearer" + [' '] + v[7..];
    SplitAt("Bearer", v[7..], ' ');
    var t := Split(v, ' ')[1];
    assert t == Split(v[7..], ' ')[0];
    FirstPieceIsPrefix(v[7..], ' ');
    t
  }

  /** The first piece of a split is the text before the first separator. */
  lemma FirstPieceIsPrefix(s: string, sep: char)
    ensures var p := Split(s, sep)[0]; |p| <= |s| && p == s[..|p|] && (|p| < |s| ==> s[|p|] == sep)
  {
  }

  /** The masked form of one value, decided by its key. */
  function MaskEntry(key: string, value: string): (r: string)
    ensures key == "Authorization" && StartsWith(value, BearerPrefix) ==>
      r == BearerPrefix + PrefixSlice(BearerToken(value), 2) + "***" + SuffixSlice(BearerToken(value), 2)
    ensures key in SensitiveKeys ==> |r| <= 7 && r == PrefixSlice(value, 2) + "***" + SuffixSlice(value, 2)
    ensures key !in SensitiveKeys && !(key == "Authorization" && StartsWith(value, BearerPrefix)) ==> r == value
  {
    assert "Authorization" !in SensitiveKeys;
    if key == "Authorization" && StartsWith(value, BearerPrefix) then BearerPrefix + MaskValue(BearerToken(value))
    else if key in SensitiveKeys then MaskValue(value)
    else value
  }

  /**
   * `MetadataHandler._mask_sensitive_values`: a bearer token keeps its first
   * and last two characters, a sensitive value likewise, anything else is kept.
   */
  function MaskSensitiveValues(values: map<string, string>): (r: map<string, string>)
    ensures r.Keys == values.Keys
    ensures forall key | key in values && key !in SensitiveKeys && !(key == "Authorization" && StartsWith(values[key], BearerPrefix)) ::
      r[key] == values[key]
    ensures forall key | key in values && key in SensitiveKeys ::
      |r[key]| <= 7 && r[key] == PrefixSlice(values[key], 2) + "***" + SuffixSlice(values[key], 2)
    ensures "Authorization" in values && StartsWith(values["Authorization"], BearerPrefix) ==>
      var t := BearerToken(values["Authorization"]);
      r["Authorization"] == BearerPrefix + PrefixSlice(t, 2) + "***" + SuffixSlice(t, 2)
  {
    map key | key in values :: MaskEntry(key, values[key])
  }

  /** Masking twice gives the same result as once for every sensitive value of at least two characters. */
  lemma MaskSensitiveStable(values: map<string, string>, key: string)
    requires key in values && key in SensitiveKeys && |values[key]| >= 2
    ensures MaskSensitiveValues(MaskSensitiveValues(values))[key] == MaskSensitiveValues(values)[key]
  {
    MaskValueStable(values[key]);
  }

  /** The value of one upper-case hexadecimal digit. */
  predicate IsUpperHexDigit(c: char) {
    '0' <= c <= '9' || 'A' <= c <= 'F'
  }

  function HexDigitValue(c: char): (d: nat)
    requires IsUpperHexDigit(c)
    ensures d < 16
  {
    if c <= '9' then c as int - '0' as int else c as int - 'A' as int + 10
  }

  predicate AllUpperHex(s: string) {
    forall i | 0 <= i < |s| :: IsUpperHexDigit(s[i])
  }

  /** The number a string of upper-case hexadecimal digits denotes. */
  function HexValue(s: string): nat
    requires AllUpperHex(s)
  {
    if s == [] then 0 else HexValue(s[..|s| - 1]) * 16 + HexDigitValue(s[|s| - 1])
  }

  /** A Switch product id as the product-id pattern finds it: `0100` and twelve upper-case hexadecimal digits. */
  predicate IsProductId(s: string) {
    |s| == 16 && s[..4] == "0100" && AllUpperHex(s)
  }

  /** The product id with its third character from the end set to `0`. */
  function UpdateBitCleared(productId: string): (r: string)
    requires |productId| >= 3
    ensures |r| == |productId| && r[|r| - 3] == '0'
    ensures forall i | 0 <= i < |r| && i != |r| - 3 :: r[i] == productId[i]
  {
    productId[|productId| - 3 := '0']
  }

  /**
   * The rewrite in `_switch_productid_format`: the id becomes a list of
   * characters, the one at index -3 is overwritten with `"0"`, and the list is
   * joined again.
   */
  method ClearUpdateBit(productId: string) returns (r: string)
    requires |productId| >= 3
    ensures r == UpdateBitCleared(productId)
  {
    var chars := new char[|productId|](i requires 0 <= i < |productId| => productId[i]);
    chars[chars.Length - 3] := '0';
    r := chars[..];
  }

  /** The rewrite keeps a product id a product id. */
  lemma UpdateBitClearedIsProductId(productId: string)
    requires IsProductId(productId)
    ensures IsProductId(UpdateBitCleared(productId))
  {
    var r := UpdateBitCleared(productId);
    assert r[..4] == productId[..4];
  }

  /** A prefix of hexadecimal digits is hexadecimal digits. */
  lemma AllUpperHexPrefix(s: string, k: nat)
    requires AllUpperHex(s) && k <= |s|
    ensures AllUpperHex(s[..k])
  {
    assert forall i | 0 <= i < k :: s[..k][i] == s[i];
  }

  /** The value of a digit string split off before its last three digits. */
  lemma HexValueLastThree(s: string)
    requires |s| >= 3 && AllUpperHex(s)
    ensures AllUpperHex(s[..|s| - 3])
    ensures HexValue(s) == HexValue(s[..|s| - 3]) * 0x1000 + HexDigitValue(s[|s| - 3]) * 0x100
      + HexDigitValue(s[|s| - 2]) * 0x10 + HexDigitValue(s[|s| - 1])
  {
    var n := |s|;
    var a, b, c := s[..n - 1], s[..n - 2], s[..n - 3];
    AllUpperHexPrefix(s, n - 1);
    AllUpperHexPrefix(s, n - 2);
    AllUpperHexPrefix(s, n - 3);
    assert a[..n - 2] == b && a[n - 2] == s[n - 2];
    assert b[..n - 3] == c && b[n - 3] == s[n - 3];
    assert HexValue(s) == HexValue(a) * 16 + HexDigitValue(s[n - 1]);
    assert HexValue(a) == HexValue(b) * 16 + HexDigitValue(s[n - 2]);
    assert HexValue(b) == HexValue(c) * 16 + HexDigitValue(s[n - 3]);
  }

  /** Clearing the digit at index -3 lowers the value by that digit times 0x100 and touches nothing else. */
  lemma UpdateBitClearedValue(productId: string)
    requires |productId| >= 3 && AllUpperHex(productId)
    ensures AllUpperHex(UpdateBitCleared(productId))
    ensures HexValue(UpdateBitCleared(productId)) == HexValue(productId) - HexDigitValue(productId[|productId| - 3]) * 0x100
  {
    var s := productId;
    var r := UpdateBitCleared(s);
    var n := |s|;
    assert r[..n - 3] == s[..n - 3];
    HexValueLastThree(s);
    HexValueLastThree(r);
  }

  /**
   * The purpose of the rewrite: an update's product id is its application's id
   * with 0x800 added, so the rewrite maps the update back to the application.
   */
  lemma UpdateMapsToApplication(application: string)
    requires IsProductId(application) && application[13] == '0'
    ensures var update := application[13 := '8'];
      IsProductId(update) && HexValue(update) == HexValue(application) + 0x800 &&
      UpdateBitCleared(update) == application
  {
    var update := application[13 := '8'];
    assert update[..4] == application[..4];
    UpdateBitClearedValue(update);
    UpdateBitClearedValue(application);
    assert UpdateBitCleared(update) == application;
    assert UpdateBitCleared(application) == application;
  }

  predicate IsAsciiDigit(c: char) {
    '0' <= c <= '9'
  }

  predicate IsAsciiLetter(c: char) {
    'a' <= c <= 'z' || 'A' <= c <= 'Z'
  }

  /** `70` and twelve decimal digits start at index `i`. */
  predicate TitleIdAt(s: string, i: nat) {
    i + 14 <= |s| && s[i..i + 2] == "70" && forall k | i + 2 <= k < i + 14 :: IsAsciiDigit(s[k])
  }

  /** `0100` and twelve upper-case hexadecimal digits start at index `i`. */
  predicate ProductIdAt(s: string, i: nat) {
    i + 16 <= |s| && IsProductId(s[i..i + 16])
  }

  /** The two Switch filename patterns: `(70[0-9]{12})` and `(0100[0-9A-F]{12})`. */
  datatype SwitchPattern = TitleIdPattern | ProductIdPattern {
    function Width(): nat {
      if this == TitleIdPattern then 14 else 16
    }

    predicate At(s: string, i: nat) {
      if this == TitleIdPattern then TitleIdAt(s, i) else ProductIdAt(s, i)
    }
  }

  /** The leftmost start in `[i, |s|]` of the pattern, as `re.search` scans start positions from the left. */
  function Leftmost(p: SwitchPattern, s: string, i: nat): (r: Option<nat>)
    ensures r.Some? ==> i <= r.value <= |s| && p.At(s, r.value) && forall k: nat | i <= k < r.value :: !p.At(s, k)
    ensures r.None? ==> forall k: nat | i <= k :: !p.At(s, k)
    decreases |s| - i
  {
    if i > |s| then None else if p.At(s, i) then Some(i) else Leftmost(p, s, i + 1)
  }

  /** `pattern.search(s).group(1)` for a Switch pattern: the leftmost match. */
  function SwitchSearch(p: SwitchPattern, s: string): (r: Option<string>)
    ensures r.Some? <==> exists i: nat :: p.At(s, i)
    ensures r.Some? ==> exists i: nat | p.At(s, i) ::
      r.value == s[i..i + p.Width()] && forall k: nat | k < i :: !p.At(s, k)
    ensures r.Some? && p == ProductIdPattern ==> IsProductId(r.value)
  {
    match Leftmost(p, s, 0)
    case None => None
    case Some(i) => Some(s[i..i + p.Width()])
  }

  /** No newline in `s[a..b]`. */
  predicate NoNewline(s: string, a: nat, b: nat) {
    forall k | a <= k < b && k < |s| :: s[k] != '\n'
  }

  /** `.*$` matches from index `a`: no newline up to the end, except possibly a final one. */
  predicate RestOfLine(s: string, a: nat) {
    forall k | a <= k < |s| - 1 :: s[k] != '\n'
  }

  predicate IsAsciiUpper(c: char) {
    'A' <= c <= 'Z'
  }

  /** The OPL pattern `[A-Z]{4}_\d{3}\.\d{2}\.` at the start of `s`, position by position. */
  predicate OplNameAt(s: string) {
    && |s| >= 12
    && IsAsciiUpper(s[0]) && IsAsciiUpper(s[1]) && IsAsciiUpper(s[2]) && IsAsciiUpper(s[3])
    && s[4] == '_'
    && IsAsciiDigit(s[5]) && IsAsciiDigit(s[6]) && IsAsciiDigit(s[7])
    && s[8] == '.'
    && IsAsciiDigit(s[9]) && IsAsciiDigit(s[10])
    && s[11] == '.'
  }

  /**
   * `PS2_OPL_REGEX.match(s).group(1)`: four upper-case letters, `_`, three
   * digits, `.`, two digits, then `.` and the rest of the line.
   */
  function Ps2OplMatch(s: string): (r: Option<string>)
    ensures r.Some? <==> OplNameAt(s) && RestOfLine(s, 12)
    ensures r.Some? ==> r.value == s[..11]
  {
    if |s| >= 12 && (forall k | 0 <= k < 4 :: 'A' <= s[k] <= 'Z') && s[4] == '_'
       && (forall k | 5 <= k < 8 :: IsAsciiDigit(s[k])) && s[8] == '.'
       && (forall k | 9 <= k < 11 :: IsAsciiDigit(s[k])) && s[11] == '.' && RestOfLine(s, 12)
    then Some(s[..11])
    else None
  }

  /** An OPL file name gives its code, also with a final newline, which `$` allows. */
  lemma OplNameAccepted()
    ensures Ps2OplMatch("SLUS_203.12.iso") == Some("SLUS_203.12")
    ensures Ps2OplMatch("SLUS_203.12.iso\n") == Some("SLUS_203.12")
  {
    var s := "SLUS_203.12.iso";
    assert OplNameAt(s);
    assert RestOfLine(s, 12);
    assert s[..11] == "SLUS_203.12";
    var t := "SLUS_203.12.iso\n";
    assert OplNameAt(t);
    assert RestOfLine(t, 12);
    assert t[..11] == "SLUS_203.12";
  }

  /** The letters must be upper case. */
  lemma OplLowerCaseRejected()
    ensures Ps2OplMatch("slus_203.12.iso") == None
  {
    var s := "slus_203.12.iso";
    assert !IsAsciiUpper(s[0]);
  }

  /** `.*$` does not cross a newline that is not the last character. */
  lemma OplInnerNewlineRejected()
    ensures Ps2OplMatch("SLUS_203.12.i\nso") == None
  {
    var s := "SLUS_203.12.i\nso";
    assert s[13] == '\n' && 12 <= 13 < |s| - 1;
  }

  /** A Sony serial, four letters of either case, `-` and five digits, starts at index `j`. */
  predicate SerialAt(s: string, j: nat) {
    j + 10 <= |s| && (forall k | j <= k < j + 4 :: IsAsciiLetter(s[k])) && s[j + 4] == '-'
    && forall k | j + 5 <= k < j + 10 :: IsAsciiDigit(s[k])
  }

  /** The serial at `j` can be the group of the Sony pattern: the rest of the line after it satisfies `.*$`. */
  predicate SerialHit(s: string, j: nat) {
    SerialAt(s, j) && RestOfLine(s, j + 10)
  }

  /** Where the greedy `.*` stops when it starts at `p`: the first newline at or after `p`, or the end. */
  function LineEnd(s: string, p: nat): (e: nat)
    requires p <= |s|
    ensures p <= e <= |s| && NoNewline(s, p, e)
    ensures e < |s| ==> s[e] == '\n'
    decreases |s| - p
  {
    if p == |s| || s[p] == '\n' then p else LineEnd(s, p + 1)
  }

  /** Backtracking of the greedy `.*`: the last `j` in `[p, j0]` at which the rest of the pattern matches. */
  function LastHit(s: string, p: nat, j0: nat): (r: Option<nat>)
    requires p <= j0
    ensures r.Some? ==> p <= r.value <= j0 && SerialHit(s, r.value) && forall k | r.value < k <= j0 :: !SerialHit(s, k)
    ensures r.None? ==> forall k | p <= k <= j0 :: !SerialHit(s, k)
    decreases j0 - p
  {
    if SerialHit(s, j0) then Some(j0) else if j0 == p then None else LastHit(s, p, j0 - 1)
  }

  /**
   * `SONY_SERIAL_REGEX.search(s, pos).group(1)` for the pattern
   * `.*([a-zA-Z]{4}-\d{5}).*$`: start positions are tried from `pos` on, and
   * at each the greedy `.*` first runs to the end of the line and backtracks.
   */
  function SonySerialSearch(s: string, pos: nat): (r: Option<string>)
    decreases |s| - pos
  {
    if pos > |s| then None
    else
      match LastHit(s, pos, LineEnd(s, pos))
      case Some(j) => Some(s[j..j + 10])
      case None => SonySerialSearch(s, pos + 1)
  }

  /**
   * What the search finds, stated without the scanning: there is a match
   * exactly when some serial at or after `pos` is followed by the rest of
   * the line, and the group is the last such serial.
   */
  lemma {:induction false} SonySerialSearchFindsLastSerial(s: string, pos: nat)
    ensures SonySerialSearch(s, pos).Some? <==> exists j: nat | pos <= j :: SerialHit(s, j)
    ensures SonySerialSearch(s, pos).Some? ==> exists j: nat | pos <= j && SerialHit(s, j) ::
      SonySerialSearch(s, pos).value == s[j..j + 10] && forall k: nat | j < k :: !SerialHit(s, k)
    decreases |s| - pos
  {
    if pos <= |s| {
      var e := LineEnd(s, pos);
      match LastHit(s, pos, e)
      case Some(j) =>
        assert NoNewline(s, j, j + 10);
        assert forall k | j <= k < j + 10 :: s[k] != '\n';
        assert e >= j + 10;
        assert e < |s| ==> e == |s| - 1;
        forall k: nat | j < k ensures !SerialHit(s, k) {
          if k > e {
            assert !SerialAt(s, k);
          }
        }
      case None =>
        assert !SerialHit(s, pos);
        SonySerialSearchFindsLastSerial(s, pos + 1);
        assert forall j: nat | pos <= j && SerialHit(s, j) :: pos + 1 <= j;
    } else {
      assert forall j: nat | pos <= j :: !SerialAt(s, j);
    }
  }

  /** `re.IGNORECASE`, whose value 2 the Moby handler passes as the `pos` argument of `search`. */
  const IgnoreCaseFlag: nat := 2

  /** In `SLUS-01234.bin` the only serial starts at index 0. */
  lemma OnlySerialAtStart()
    ensures SerialHit("SLUS-01234.bin", 0)
    ensures forall j: nat | 1 <= j :: !SerialAt("SLUS-01234.bin", j)
  {
    var s := "SLUS-01234.bin";
    assert !IsAsciiLetter(s[4]);
  }

  /** A search from index 0 finds the serial at the start of the name. */
  lemma LeadingSerialFoundFromStart()
    ensures SonySerialSearch("SLUS-01234.bin", 0) == Some("SLUS-01234")
  {
    var s := "SLUS-01234.bin";
    SonySerialSearchFindsLastSerial(s, 0);
    OnlySerialAtStart();
    assert s[0..10] == "SLUS-01234";
  }

  /** Because the Moby handler's search starts at index 2, it misses a serial at the very start of the name. */
  lemma LeadingSerialMissed()
    ensures SonySerialSearch("SLUS-01234.bin", IgnoreCaseFlag) == None
  {
    SonySerialSearchFindsLastSerial("SLUS-01234.bin", IgnoreCaseFlag);
    OnlySerialAtStart();
  }

  /** `_ps2_opl_format`: the index entry's name when the serial is indexed, else the term unchanged. */
  function Ps2OplFormat(indexedName: Option<string>, searchTerm: string): (r: string)
    ensures indexedName.None? ==> r == searchTerm
    ensures indexedName.Some? ==> r == indexedName.value
  {
    match indexedName
    case Some(name) => name
    case None => searchTerm
  }

  /** `_ps1/_ps2/_psp_serial_format`: the indexed title when there is a non-empty one, else the term unchanged. */
  function SonySerialFormat(indexedTitle: Option<string>, searchTerm: string): (r: string)
    ensures r == searchTerm || (indexedTitle.Some? && r == indexedTitle.value && r != [])
    ensures indexedTitle.Some? && indexedTitle.value != [] ==> r == indexedTitle.value
  {
    if indexedTitle.Some? && indexedTitle.value != [] then indexedTitle.value else searchTerm
  }

  /** A member of a decoded JSON object as `dict.get` sees it: absent, present as `null`, or present with a value. */
  datatype JsonField<T> = Absent | Null | Present(value: T)

  /** The fields of a Switch title database entry that the handlers read. */
  datatype SwitchEntry = SwitchEntry(name: string, description: JsonField<string>, iconUrl: JsonField<string>,
                                     screenshots: JsonField<seq<string>>)

  /**
   * `_switch_titledb_format` and `_switch_productid_format` after the lookup:
   * the entry's name and the entry, or the unchanged term and nothing when the
   * index (still) lacks it.
   */
  function SwitchFormat(entry: Option<SwitchEntry>, searchTerm: string): (r: (string, Option<SwitchEntry>))
    ensures r.1 == entry
    ensures r.0 == if entry.Some? then entry.value.name else searchTerm
  {
    match entry
    case Some(e) => (e.name, entry)
    case None => (searchTerm, None)
  }

  /** The fields of a MAME index entry that the handlers read. */
  datatype MameEntry = MameEntry(description: Option<string>)

  /**
   * `_mame_format`: for an indexed short name, the entry's description (the
   * term itself when it has none) with its tags removed by `noTags`.
   */
  function MameFormat(entry: Option<MameEntry>, searchTerm: string, noTags: string -> string): (r: string)
    ensures entry.None? ==> r == searchTerm
    ensures entry.Some? && entry.value.description.Some? ==> r == noTags(entry.value.description.value)
    ensures entry.Some? && entry.value.description.None? ==> r == noTags(searchTerm)
  {
    match entry
    case None => searchTerm
    case Some(e) => noTags(if e.description.Some? then e.description.value else searchTerm)
  }
}
