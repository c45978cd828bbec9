/**
 * The MobyGames metadata handler: the metadata taken from a search result,
 * the choice among search results, the platform-specific search terms and
 * fallbacks of `get_rom`, its retry loops over parts of the term, and the
 * dictionary it returns.  The remote search, the serial and title indexes
 * and the tag stripper are given as functions in `MobyServices`.
 */
module MobyHandler {
  import opened Wrappers
  import opened PyText
  import opened MetadataBase

  const Ps1MobyId := 6
  const Ps2MobyId := 7
  const PspMobyId := 46
  const SwitchMobyId := 203
  const ArcadeMobyIds: seq<int> := [143, 36]

  /** The value of an optional dictionary key, or the default given to `get`. */
  function GetOr<T>(o: Option<T>, d: T): (r: T)
    ensures o.Some? ==> r == o.value
    ensures o.None? ==> r == d
  {
    if o.Some? then o.value else d
  }

  // ---------------------------------------------------------------------
  // Search results and their metadata

  /** One element of a game's `platforms` list. */
  datatype GamePlatform = GamePlatform(platformId: int, platformName: string)

  /**
   * One game of a MobyGames search response, by the keys the handler reads;
   * `None` stands for a missing key.  `genreNames` and `alternateTitles`
   * are the values stored under the literal keys `genres.genre_name` and
   * `alternate_titles.title`, which a plain `dict.get` looks up as they are;
   * `sampleCoverImage` is `sample_cover.image`, read as a path, and
   * `sampleScreenshots` holds the `image` of each `sample_screenshots` entry.
   */
  datatype MobyGame = MobyGame(
    gameId: int,
    title: string,
    mobyUrl: string,
    description: Option<string>,
    sampleCoverImage: Option<string>,
    sampleScreenshots: Option<seq<string>>,
    mobyScore: Option<string>,
    genreNames: Option<seq<string>>,
    alternateTitles: Option<seq<string>>,
    platforms: Option<seq<GamePlatform>>)

  /** `MobyMetadataPlatform`. */
  datatype MetadataPlatform = MetadataPlatform(mobyId: int, name: string)

  /** `MobyMetadata`. */
  datatype MobyMetadata = MobyMetadata(
    mobyScore: string,
    genres: seq<string>,
    alternateTitles: seq<string>,
    platforms: seq<MetadataPlatform>)

  /** The `platforms` comprehension: one metadata platform per game platform, in order. */
  function MetadataPlatforms(ps: seq<GamePlatform>): (r: seq<MetadataPlatform>)
    ensures |r| == |ps|
    ensures forall i | 0 <= i < |ps| :: r[i].mobyId == ps[i].platformId && r[i].name == ps[i].platformName
  {
    if ps == [] then [] else [MetadataPlatform(ps[0].platformId, ps[0].platformName)] + MetadataPlatforms(ps[1..])
  }

  /** The game platforms a list of metadata platforms was made from. */
  function GamePlatforms(ms: seq<MetadataPlatform>): (r: seq<GamePlatform>)
    ensures |r| == |ms|
  {
    if ms == [] then [] else [GamePlatform(ms[0].mobyId, ms[0].name)] + GamePlatforms(ms[1..])
  }

  /** No platform is lost or altered: the game's list can be read back from the metadata. */
  lemma {:induction false} MetadataPlatformsReversible(ps: seq<GamePlatform>)
    ensures GamePlatforms(MetadataPlatforms(ps)) == ps
  {
    if ps != [] {
      MetadataPlatformsReversible(ps[1..]);
      assert MetadataPlatforms(ps)[1..] == MetadataPlatforms(ps[1..]);
    }
  }

  /** `extract_metadata_from_moby_rom`: missing keys give `""` or `[]`. */
  function ExtractMetadata(game: MobyGame): (r: MobyMetadata)
    ensures game.mobyScore.None? ==> r.mobyScore == ""
    ensures game.mobyScore.Some? ==> r.mobyScore == game.mobyScore.value
    ensures game.genreNames.None? ==> r.genres == []
    ensures game.genreNames.Some? ==> r.genres == game.genreNames.value
    ensures game.alternateTitles.None? ==> r.alternateTitles == []
    ensures game.alternateTitles.Some? ==> r.alternateTitles == game.alternateTitles.value
    ensures game.platforms.None? ==> r.platforms == []
    ensures game.platforms.Some? ==> GamePlatforms(r.platforms) == game.platforms.value
  {
    var ps := GetOr(game.platforms, []);
    MetadataPlatformsReversible(ps);
    MobyMetadata(GetOr(game.mobyScore, ""), GetOr(game.genreNames, []), GetOr(game.alternateTitles, []),
                 MetadataPlatforms(ps))
  }

  // ---------------------------------------------------------------------
  // The returned dictionary

  /** The values a `MobyGamesRom` dictionary holds. */
  datatype RomValue =
    | NoneValue
    | IntValue(i: int)
    | TextValue(s: string)
    | TextList(items: seq<string>)
    | MetadataValue(metadata: MobyMetadata)
  {
    /** Python truthiness; a `MobyMetadata` dictionary always has its four keys, so it is truthy. */
    predicate Truthy() {
      match this
      case NoneValue => false
      case IntValue(i) => i != 0
      case TextValue(s) => s != []
      case TextList(items) => items != []
      case MetadataValue(_) => true
    }
  }

  /** A `MobyGamesRom` dictionary. */
  type RomDict = map<string, RomValue>

  /** `MobyGamesRom(moby_id=None)`. */
  const NoRom: RomDict := map["moby_id" := NoneValue]

  /** `MobyGamesRom(moby_id=None, name=name)`. */
  function NamedRom(name: string): (r: RomDict)
    ensures r.Keys == {"moby_id", "name"} && r["moby_id"] == NoneValue && r["name"] == TextValue(name)
  {
    map["moby_id" := NoneValue, "name" := TextValue(name)]
  }

  /**
   * The fallback built from a Switch index entry: `entry.get(k, "")` gives
   * `""` for an absent description or icon and `None` for a `null` one; the
   * screenshots are `[]` unless present as a non-`null` list (`or []` also
   * turns an empty list into `[]`).
   */
  function SwitchRom(e: SwitchEntry): (r: RomDict)
    ensures r.Keys == {"moby_id", "name", "summary", "url_cover", "url_screenshots"}
    ensures r["moby_id"] == NoneValue && r["name"] == TextValue(e.name)
    ensures e.description.Absent? ==> r["summary"] == TextValue("")
    ensures e.description.Null? ==> r["summary"] == NoneValue
    ensures e.description.Present? ==> r["summary"] == TextValue(e.description.value)
    ensures e.iconUrl.Absent? ==> r["url_cover"] == TextValue("")
    ensures e.iconUrl.Null? ==> r["url_cover"] == NoneValue
    ensures e.iconUrl.Present? ==> r["url_cover"] == TextValue(e.iconUrl.value)
    ensures r["url_screenshots"] == TextList(if e.screenshots.Present? then e.screenshots.value else [])
  {
    map["moby_id" := NoneValue, "name" := TextValue(e.name), "summary" := GetText(e.description),
        "url_cover" := GetText(e.iconUrl),
        "url_screenshots" := TextList(if e.screenshots.Present? then e.screenshots.value else [])]
  }

  /** `entry.get(k, "")` for a text member. */
  function GetText(f: JsonField<string>): RomValue {
    match f
    case Absent => TextValue("")
    case Null => NoneValue
    case Present(v) => TextValue(v)
  }

  /** `res["moby_url"].split("/")[-1]`: the text after the last slash. */
  function LastSegment(url: string): (r: string)
    ensures '/' !in r
    ensures |r| <= |url| && r == url[|url| - |r|..]
    ensures '/' in url ==> |r| < |url| && url[|url| - |r| - 1] == '/'
    ensures '/' !in url ==> r == url
  {
    var parts := Split(url, '/');
    SplitLastPiece(url, '/');
    parts[|parts| - 1]
  }

  /** The dictionary built from a found game, before the falsy values are dropped. */
  function GameRom(g: MobyGame): (r: RomDict)
    ensures r.Keys == {"moby_id", "name", "moby_slug", "summary", "url_cover", "url_screenshots", "moby_metadata"}
  {
    map["moby_id" := IntValue(g.gameId), "name" := TextValue(g.title), "moby_slug" := TextValue(LastSegment(g.mobyUrl)),
        "summary" := TextValue(GetOr(g.description, "")), "url_cover" := TextValue(GetOr(g.sampleCoverImage, "")),
        "url_screenshots" := TextList(GetOr(g.sampleScreenshots, [])), "moby_metadata" := MetadataValue(ExtractMetadata(g))]
  }

  /** `{k: v for k, v in rom.items() if v}`. */
  function DropFalsy(rom: RomDict): (r: RomDict)
    ensures r.Keys <= rom.Keys
    ensures forall k | k in r :: r[k] == rom[k] && r[k].Truthy()
    ensures forall k | k in rom && rom[k].Truthy() :: k in r
  {
    map k | k in rom && rom[k].Truthy() :: rom[k]
  }

  /** A key is kept exactly when its value is truthy. */
  lemma KeptIffTruthy(rom: RomDict, k: string)
    requires k in rom
    ensures k in DropFalsy(rom) <==> rom[k].Truthy()
  {
  }

  /** Dropping the falsy values twice drops nothing more. */
  lemma DropFalsyIdempotent(rom: RomDict)
    ensures DropFalsy(DropFalsy(rom)) == DropFalsy(rom)
  {
  }

  /**
   * What is kept of a found game: always its metadata, its id unless it is
   * 0, its name, slug, summary and cover unless empty, its screenshots
   * unless there are none.
   */
  lemma FoundRomKeys(g: MobyGame)
    ensures var d := DropFalsy(GameRom(g));
      && d.Keys <= {"moby_id", "name", "moby_slug", "summary", "url_cover", "url_screenshots", "moby_metadata"}
      && "moby_metadata" in d
      && ("moby_id" in d <==> g.gameId != 0)
      && ("name" in d <==> g.title != "")
      && ("moby_slug" in d <==> LastSegment(g.mobyUrl) != "")
      && ("summary" in d <==> GetOr(g.description, "") != "")
      && ("url_cover" in d <==> GetOr(g.sampleCoverImage, "") != "")
      && ("url_screenshots" in d <==> GetOr(g.sampleScreenshots, []) != [])
  {
    var r := GameRom(g);
    assert r["moby_id"] == IntValue(g.gameId);
    assert r["name"] == TextValue(g.title);
    assert r["moby_slug"] == TextValue(LastSegment(g.mobyUrl));
    assert r["summary"] == TextValue(GetOr(g.description, ""));
    assert r["url_cover"] == TextValue(GetOr(g.sampleCoverImage, ""));
    assert r["url_screenshots"] == TextList(GetOr(g.sampleScreenshots, []));
    assert r["moby_metadata"] == MetadataValue(ExtractMetadata(g));
    forall k | k in r ensures k in DropFalsy(r) <==> r[k].Truthy() {
      KeptIffTruthy(r, k);
    }
  }

  // ---------------------------------------------------------------------
  // The services the handler calls

  /**
   * `searchGames(title, platform)` stands for the `games` list of the
   * MobyGames search response (`[]` when the response has none);
   * `unidecode`, `normalizeExactMatch` and `noTags` for the transliterator,
   * `_normalize_exact_match` and `get_file_name_with_no_tags`; the index
   * functions for the cached serial, title and MAME indexes, `None` when
   * the key is not indexed.
   */
  datatype MobyServices = MobyServices(
    apiEnabled: bool,
    searchGames: (string, int) -> seq<MobyGame>,
    unidecode: string -> string,
    normalizeExactMatch: string -> string,
    noTags: string -> string,
    ps2OplIndex: string -> Option<string>,
    ps1SerialIndex: string -> Option<string>,
    ps2SerialIndex: string -> Option<string>,
    pspSerialIndex: string -> Option<string>,
    switchTitleIndex: string -> Option<SwitchEntry>,
    switchProductIndex: string -> Option<SwitchEntry>,
    mameIndex: string -> Option<MameEntry>)

  // ---------------------------------------------------------------------
  // `_search_rom`

  /** A result whose title equals the term ignoring case, or after `_normalize_exact_match`. */
  predicate IsExactMatch(env: MobyServices, term: string, g: MobyGame) {
    Lower(g.title) == Lower(term) || env.normalizeExactMatch(g.title) == env.normalizeExactMatch(term)
  }

  /** The `exact_matches` comprehension. */
  function ExactMatches(env: MobyServices, term: string, games: seq<MobyGame>): seq<MobyGame> {
    if games == [] then []
    else if IsExactMatch(env, term, games[0]) then [games[0]] + ExactMatches(env, term, games[1..])
    else ExactMatches(env, term, games[1..])
  }

  /** The exact matches, in order: empty exactly when no game matches, and led by the earliest match. */
  lemma {:induction false} ExactMatchesSpec(env: MobyServices, term: string, games: seq<MobyGame>)
    ensures var r := ExactMatches(env, term, games);
      && (forall g | g in r :: g in games && IsExactMatch(env, term, g))
      && (r == [] <==> forall i | 0 <= i < |games| :: !IsExactMatch(env, term, games[i]))
      && (r != [] ==> exists i | 0 <= i < |games| ::
            r[0] == games[i] && IsExactMatch(env, term, games[i]) && forall j | 0 <= j < i :: !IsExactMatch(env, term, games[j]))
  {
    if games != [] {
      ExactMatchesSpec(env, term, games[1..]);
      assert forall i | 1 <= i < |games| :: games[i] == games[1..][i - 1];
      var rest := ExactMatches(env, term, games[1..]);
      if !IsExactMatch(env, term, games[0]) && rest != [] {
        var i :| 0 <= i < |games[1..]| && rest[0] == games[1..][i] && IsExactMatch(env, term, games[1..][i])
          && forall j | 0 <= j < i :: !IsExactMatch(env, term, games[1..][j]);
        assert games[i + 1] == games[1..][i];
      }
    }
  }

  /** The games the search for a term lists: the transliterated term, on one platform. */
  function Query(env: MobyServices, searchTerm: string, platformMobyId: int): seq<MobyGame> {
    env.searchGames(env.unidecode(searchTerm), platformMobyId)
  }

  /** `MobyGamesHandler._search_rom`: the first exact match, else the first result, else nothing. */
  function SearchRom(env: MobyServices, searchTerm: string, platformMobyId: int): (r: Option<MobyGame>)
    ensures platformMobyId == 0 ==> r.None?
  {
    if platformMobyId == 0 then None
    else
      var term := env.unidecode(searchTerm);
      var games := Query(env, searchTerm, platformMobyId);
      var exact := ExactMatches(env, term, games);
      var pick := if exact != [] then exact else games;
      if pick == [] then None else Some(pick[0])
  }

  /**
   * What the search picks for a non-falsy platform id: nothing exactly when
   * the response lists no game; the earliest exact match when there is one;
   * otherwise the first game listed.
   */
  lemma SearchRomPicks(env: MobyServices, searchTerm: string, platformMobyId: int)
    requires platformMobyId != 0
    ensures var r := SearchRom(env, searchTerm, platformMobyId); var games := Query(env, searchTerm, platformMobyId);
      var term := env.unidecode(searchTerm);
      && (r.None? <==> games == [])
      && ((forall i | 0 <= i < |games| :: !IsExactMatch(env, term, games[i])) && games != [] ==> r == Some(games[0]))
      && ((exists i | 0 <= i < |games| :: IsExactMatch(env, term, games[i])) ==>
            exists i | 0 <= i < |games| ::
              r == Some(games[i]) && IsExactMatch(env, term, games[i]) && forall j | 0 <= j < i :: !IsExactMatch(env, term, games[j]))
  {
    var games := Query(env, searchTerm, platformMobyId);
    var exact := ExactMatches(env, env.unidecode(searchTerm), games);
    ExactMatchesSpec(env, env.unidecode(searchTerm), games);
    if exact != [] {
      assert exact[0] in exact;
    }
  }

  // ---------------------------------------------------------------------
  // The search term and fallback of `get_rom`

  /** The search term and the dictionary returned when nothing is found. */
  datatype Prepared = Prepared(searchTerm: string, fallback: RomDict)

  /** PS2 OPL file names: the indexed name replaces the term; the fallback is named after the term. */
  function AfterPs2Opl(env: MobyServices, fsName: string, platformMobyId: int, p: Prepared): (r: Prepared)
    ensures platformMobyId != Ps2MobyId || Ps2OplMatch(fsName).None? ==> r == p
    ensures platformMobyId == Ps2MobyId && Ps2OplMatch(fsName).Some? ==>
      r.fallback == NamedRom(r.searchTerm)
      && r.searchTerm == GetOr(env.ps2OplIndex(Ps2OplMatch(fsName).value), p.searchTerm)
  {
    var m := Ps2OplMatch(fsName);
    if platformMobyId == Ps2MobyId && m.Some? then
      var t := Ps2OplFormat(env.ps2OplIndex(m.value), p.searchTerm);
      Prepared(t, NamedRom(t))
    else p
  }

  /**
   * Sony serials, searched from index `IgnoreCaseFlag`: a non-empty title in
   * the platform's serial index replaces the term; the fallback is named
   * after the term.  The three platform tests of the source exclude each
   * other, as the three ids differ.
   */
  function AfterSonySerial(env: MobyServices, fsName: string, platformMobyId: int, p: Prepared): (r: Prepared)
    ensures platformMobyId !in {Ps1MobyId, Ps2MobyId, PspMobyId} || SonySerialSearch(fsName, IgnoreCaseFlag).None? ==> r == p
    ensures platformMobyId in {Ps1MobyId, Ps2MobyId, PspMobyId} && SonySerialSearch(fsName, IgnoreCaseFlag).Some? ==>
      r.fallback == NamedRom(r.searchTerm)
      && var serial := SonySerialSearch(fsName, IgnoreCaseFlag).value;
         var title := if platformMobyId == Ps1MobyId then env.ps1SerialIndex(serial)
                      else if platformMobyId == Ps2MobyId then env.ps2SerialIndex(serial)
                      else env.pspSerialIndex(serial);
         r.searchTerm == if title.Some? && title.value != "" then title.value else p.searchTerm
  {
    var m := SonySerialSearch(fsName, IgnoreCaseFlag);
    if m.None? then p
    else if platformMobyId == Ps1MobyId then
      var t := SonySerialFormat(env.ps1SerialIndex(m.value), p.searchTerm);
      Prepared(t, NamedRom(t))
    else if platformMobyId == Ps2MobyId then
      var t := SonySerialFormat(env.ps2SerialIndex(m.value), p.searchTerm);
      Prepared(t, NamedRom(t))
    else if platformMobyId == PspMobyId then
      var t := SonySerialFormat(env.pspSerialIndex(m.value), p.searchTerm);
      Prepared(t, NamedRom(t))
    else p
  }

  /** The index key for a Switch match: a product id is looked up with its update bit cleared. */
  function SwitchKey(pattern: SwitchPattern, matched: string): (key: string)
    requires pattern == ProductIdPattern ==> |matched| >= 3
    ensures pattern == TitleIdPattern ==> key == matched
    ensures pattern == ProductIdPattern ==> key == UpdateBitCleared(matched)
  {
    if pattern == ProductIdPattern then UpdateBitCleared(matched) else matched
  }

  /**
   * Switch title ids or product ids: an indexed entry gives the term and the
   * fallback; otherwise both stay as they were.
   */
  function AfterSwitch(pattern: SwitchPattern, index: string -> Option<SwitchEntry>, fsName: string, platformMobyId: int,
                       p: Prepared): (r: Prepared)
    ensures platformMobyId != SwitchMobyId || SwitchSearch(pattern, fsName).None? ==> r == p
    ensures platformMobyId == SwitchMobyId && SwitchSearch(pattern, fsName).Some? ==>
      var m := SwitchSearch(pattern, fsName).value;
      |m| == pattern.Width()
      && var e := index(SwitchKey(pattern, m));
         r == if e.Some? then Prepared(e.value.name, SwitchRom(e.value)) else p
  {
    var m := SwitchSearch(pattern, fsName);
    if platformMobyId == SwitchMobyId && m.Some? then
      assert |m.value| == pattern.Width();
      var (t, e) := SwitchFormat(index(SwitchKey(pattern, m.value)), p.searchTerm);
      Prepared(t, if e.Some? then SwitchRom(e.value) else p.fallback)
    else p
  }

  /** MAME arcade names: the indexed description replaces the term; the fallback is named after the term. */
  function AfterMame(env: MobyServices, platformMobyId: int, p: Prepared): (r: Prepared)
    ensures platformMobyId !in ArcadeMobyIds ==> r == p
    ensures platformMobyId in ArcadeMobyIds ==>
      r.fallback == NamedRom(r.searchTerm)
      && r.searchTerm == MameFormat(env.mameIndex(p.searchTerm), p.searchTerm, env.noTags)
  {
    if platformMobyId in ArcadeMobyIds then
      var t := MameFormat(env.mameIndex(p.searchTerm), p.searchTerm, env.noTags);
      Prepared(t, NamedRom(t))
    else p
  }

  /** The steps of `get_rom` before the search, in source order. */
  function SpecialFormats(env: MobyServices, fsName: string, platformMobyId: int): (r: Prepared)
    ensures "moby_id" in r.fallback && r.fallback["moby_id"] == NoneValue
  {
    var plain := Prepared(env.noTags(fsName), NoRom);
    var opl := AfterPs2Opl(env, fsName, platformMobyId, plain);
    var sony := AfterSonySerial(env, fsName, platformMobyId, opl);
    var titleId := AfterSwitch(TitleIdPattern, env.switchTitleIndex, fsName, platformMobyId, sony);
    var productId := AfterSwitch(ProductIdPattern, env.switchProductIndex, fsName, platformMobyId, titleId);
    AfterMame(env, platformMobyId, productId)
  }

  /** On a platform without a special file name format, the term is the name without tags and the fallback has no name. */
  lemma PlainPlatform(env: MobyServices, fsName: string, platformMobyId: int)
    requires platformMobyId !in {Ps1MobyId, Ps2MobyId, PspMobyId, SwitchMobyId} && platformMobyId !in ArcadeMobyIds
    ensures SpecialFormats(env, fsName, platformMobyId) == Prepared(env.noTags(fsName), NoRom)
  {
  }

  /** A PS1 serial in the index gives the search term and the fallback's name. */
  lemma Ps1SerialFound(env: MobyServices, fsName: string, serial: string, title: string)
    requires SonySerialSearch(fsName, IgnoreCaseFlag) == Some(serial)
    requires env.ps1SerialIndex(serial) == Some(title) && title != ""
    ensures SpecialFormats(env, fsName, Ps1MobyId) == Prepared(title, NamedRom(title))
  {
  }

  /** A PS1 name that starts with its serial is not recognised, since the search starts at index 2. */
  lemma Ps1LeadingSerialIgnored(env: MobyServices)
    ensures SpecialFormats(env, "SLUS-01234.bin", Ps1MobyId) == Prepared(env.noTags("SLUS-01234.bin"), NoRom)
  {
    LeadingSerialMissed();
  }

  /** On PS2, a serial the serial index lacks keeps the name the OPL index gave. */
  lemma Ps2SerialMissKeepsOplName(env: MobyServices, fsName: string, code: string, name: string, serial: string)
    requires Ps2OplMatch(fsName) == Some(code) && env.ps2OplIndex(code) == Some(name)
    requires SonySerialSearch(fsName, IgnoreCaseFlag) == Some(serial) && env.ps2SerialIndex(serial).None?
    ensures SpecialFormats(env, fsName, Ps2MobyId) == Prepared(name, NamedRom(name))
  {
  }

  /** On PS2, an indexed serial title overrides the OPL name. */
  lemma Ps2SerialOverridesOpl(env: MobyServices, fsName: string, code: string, serial: string, title: string)
    requires Ps2OplMatch(fsName) == Some(code) && env.ps2OplIndex(code).Some?
    requires SonySerialSearch(fsName, IgnoreCaseFlag) == Some(serial) && env.ps2SerialIndex(serial) == Some(title)
    requires title != ""
    ensures SpecialFormats(env, fsName, Ps2MobyId) == Prepared(title, NamedRom(title))
  {
  }

  /** A Switch update's product id is looked up as its application's, and the entry found decides term and fallback. */
  lemma SwitchUpdateFindsApplication(env: MobyServices, fsName: string, productId: string, e: SwitchEntry)
    requires SwitchSearch(TitleIdPattern, fsName).None?
    requires SwitchSearch(ProductIdPattern, fsName) == Some(productId)
    requires env.switchProductIndex(UpdateBitCleared(productId)) == Some(e)
    ensures |productId| == 16
    ensures SpecialFormats(env, fsName, SwitchMobyId) == Prepared(e.name, SwitchRom(e))
  {
  }

  /** On an arcade platform, the MAME description gives the term and the fallback's name. */
  lemma ArcadeUsesMame(env: MobyServices, fsName: string, platformMobyId: int)
    requires platformMobyId in ArcadeMobyIds
    ensures var t := MameFormat(env.mameIndex(env.noTags(fsName)), env.noTags(fsName), env.noTags);
      SpecialFormats(env, fsName, platformMobyId) == Prepared(t, NamedRom(t))
  {
  }

  // ---------------------------------------------------------------------
  // The search and its fallbacks

  /** The elements of a sequence in reverse order, `s[::-1]`. */
  function Reversed<T>(s: seq<T>): (r: seq<T>)
    ensures |r| == |s|
    ensures forall i | 0 <= i < |s| :: r[i] == s[|s| - 1 - i]
  {
    if s == [] then [] else Reversed(s[1..]) + [s[0]]
  }

  /** Each piece stripped. */
  function StripEach(parts: seq<string>): (r: seq<string>)
    ensures |r| == |parts|
    ensures forall i | 0 <= i < |parts| :: r[i] == Strip(parts[i])
  {
    seq(|parts|, i requires 0 <= i < |parts| => Strip(parts[i]))
  }

  /** A search for one term, as `_search_rom` runs it on one platform. */
  type Search = string -> Option<MobyGame>

  /** `_search_rom` on a fixed platform. */
  function Searcher(env: MobyServices, platformMobyId: int): Search {
    t => SearchRom(env, t, platformMobyId)
  }

  /** The searcher runs `_search_rom` on its platform. */
  lemma SearcherSearches(env: MobyServices, platformMobyId: int, t: string)
    ensures Searcher(env, platformMobyId)(t) == SearchRom(env, t, platformMobyId)
  {
  }

  /** No term finds anything. */
  predicate AllMiss(search: Search, terms: seq<string>) {
    forall i | 0 <= i < |terms| :: search(terms[i]).None?
  }

  /** The result of the first term, in order, whose search finds something. */
  function FirstHit(search: Search, terms: seq<string>): Option<MobyGame>
  {
    if terms == [] then None
    else
      var r := search(terms[0]);
      if r.Some? then r else FirstHit(search, terms[1..])
  }

  /** `FirstHit` finds something exactly when some term does, and then it is the earliest such term's result. */
  lemma {:induction false} FirstHitIsFirst(search: Search, terms: seq<string>)
    ensures FirstHit(search, terms).None? <==> AllMiss(search, terms)
    ensures FirstHit(search, terms).Some? ==> exists i | 0 <= i < |terms| ::
      FirstHit(search, terms) == search(terms[i]) && forall j | 0 <= j < i :: search(terms[j]).None?
  {
    if terms != [] {
      FirstHitIsFirst(search, terms[1..]);
      assert forall i | 1 <= i < |terms| :: terms[i] == terms[1..][i - 1];
      if search(terms[0]).None? && FirstHit(search, terms).Some? {
        var i :| 0 <= i < |terms[1..]| && FirstHit(search, terms[1..]) == search(terms[1..][i])
          && forall j | 0 <= j < i :: search(terms[1..][j]).None?;
        assert terms[i + 1] == terms[1..][i];
      }
    }
  }

  /**
   * The search of `get_rom`: the whole term; then, when that finds nothing
   * and the term has a `:`, its `:`-pieces from last to first, unstripped;
   * then, when still nothing is found and the term has a `/`, its
   * `/`-pieces from first to last, stripped.
   */
  function FindGame(search: Search, term: string): Option<MobyGame> {
    var whole := search(term);
    var afterColon := if whole.None? && ':' in term then FirstHit(search, Reversed(Split(term, ':'))) else whole;
    if afterColon.None? && '/' in term then FirstHit(search, StripEach(Split(term, '/'))) else afterColon
  }

  /** A hit on the whole term is the result. */
  lemma WholeTermFirst(search: Search, term: string)
    requires search(term).Some?
    ensures FindGame(search, term) == search(term)
  {
  }

  /** A term without `:` or `/` is searched once. */
  lemma NoSeparatorsSearchedOnce(search: Search, term: string)
    requires ':' !in term && '/' !in term
    ensures FindGame(search, term) == search(term)
  {
  }

  /** When nothing is found, the whole term and every piece tried have missed. */
  lemma NothingFoundAllMissed(search: Search, term: string)
    requires FindGame(search, term).None?
    ensures search(term).None?
    ensures ':' in term ==> AllMiss(search, Split(term, ':'))
    ensures '/' in term ==> AllMiss(search, StripEach(Split(term, '/')))
  {
    var colon := Reversed(Split(term, ':'));
    var slash := StripEach(Split(term, '/'));
    FirstHitIsFirst(search, colon);
    FirstHitIsFirst(search, slash);
    if ':' in term {
      var pieces := Split(term, ':');
      assert forall i | 0 <= i < |pieces| :: pieces[i] == colon[|pieces| - 1 - i];
    }
  }

  /** With a falsy platform id nothing is ever found. */
  lemma FalsyPlatformFindsNothing(env: MobyServices, term: string)
    ensures FindGame(Searcher(env, 0), term).None?
  {
    forall t ensures Searcher(env, 0)(t).None? {
      SearcherSearches(env, 0, t);
    }
    FirstHitIsFirst(Searcher(env, 0), Reversed(Split(term, ':')));
    FirstHitIsFirst(Searcher(env, 0), StripEach(Split(term, '/')));
  }

  /** Searching the reversed terms finds the last term that hits. */
  lemma FirstHitReversed(search: Search, terms: seq<string>)
    requires exists i | 0 <= i < |terms| :: search(terms[i]).Some?
    ensures exists n | 0 <= n < |terms| ::
      FirstHit(search, Reversed(terms)) == search(terms[n]) && search(terms[n]).Some?
      && forall j | n < j < |terms| :: search(terms[j]).None?
  {
    var rev := Reversed(terms);
    FirstHitIsFirst(search, rev);
    assert FirstHit(search, rev).Some? by {
      var i :| 0 <= i < |terms| && search(terms[i]).Some?;
      assert rev[|terms| - 1 - i] == terms[i];
    }
    var k :| 0 <= k < |rev| && FirstHit(search, rev) == search(rev[k]) && forall j | 0 <= j < k :: search(rev[j]).None?;
    ReversedFirstIsLast(search, terms, rev, k);
  }

  /** The `k`-th of the reversed terms, met after misses only, is the last term after which everything misses. */
  lemma ReversedFirstIsLast(search: Search, terms: seq<string>, rev: seq<string>, k: nat)
    requires |rev| == |terms| && forall i | 0 <= i < |terms| :: rev[i] == terms[|terms| - 1 - i]
    requires k < |terms|
    requires forall j | 0 <= j < k :: search(rev[j]).None?
    ensures rev[k] == terms[|terms| - 1 - k]
    ensures forall j | |terms| - 1 - k < j < |terms| :: search(terms[j]).None?
  {
    forall j | |terms| - 1 - k < j < |terms| ensures search(terms[j]).None? {
      assert rev[|terms| - 1 - j] == terms[j];
    }
  }

  /** When the whole term misses, the result is that of the last `:`-piece that hits. */
  lemma ColonPiecesFromTheRight(search: Search, term: string)
    requires search(term).None? && ':' in term
    requires var pieces := Split(term, ':'); exists i | 0 <= i < |pieces| :: search(pieces[i]).Some?
    ensures var pieces := Split(term, ':'); exists i | 0 <= i < |pieces| ::
      FindGame(search, term) == search(pieces[i]) && search(pieces[i]).Some?
      && forall j | i < j < |pieces| :: search(pieces[j]).None?
  {
    var pieces := Split(term, ':');
    FirstHitReversed(search, pieces);
    var n :| 0 <= n < |pieces| && FirstHit(search, Reversed(pieces)) == search(pieces[n]) && search(pieces[n]).Some?
      && forall j | n < j < |pieces| :: search(pieces[j]).None?;
    assert FindGame(search, term) == FirstHit(search, Reversed(pieces));
  }

  /**
   * The `/`-pieces are tried only when neither the whole term nor any
   * `:`-piece hits, and then the first stripped piece that hits decides.
   */
  lemma SlashPiecesAfterColon(search: Search, term: string)
    requires search(term).None? && '/' in term
    requires ':' in term ==> AllMiss(search, Split(term, ':'))
    ensures FindGame(search, term) == FirstHit(search, StripEach(Split(term, '/')))
  {
    if ':' in term {
      var pieces := Split(term, ':');
      var rev := Reversed(pieces);
      forall i | 0 <= i < |rev| ensures search(rev[i]).None? {
        assert rev[i] == pieces[|pieces| - 1 - i];
      }
      FirstHitIsFirst(search, rev);
      assert FirstHit(search, rev).None?;
    }
  }

  /** The `:` loop of `get_rom`: the pieces from last to first, stopping at the first hit. */
  method SearchColonPieces(search: Search, searchTerm: string) returns (res: Option<MobyGame>)
    ensures res == FirstHit(search, Reversed(Split(searchTerm, ':')))
  {
    var terms := Reversed(Split(searchTerm, ':'));
    var i := 0;
    while i < |terms|
      invariant 0 <= i <= |terms|
      invariant FirstHit(search, terms[i..]) == FirstHit(search, terms)
    {
      assert terms[i..][0] == terms[i] && terms[i..][1..] == terms[i + 1..];
      res := search(terms[i]);
      if res.Some? {
        return;
      }
      i := i + 1;
    }
    assert terms[i..] == [];
    res := None;
  }

  /** The `/` loop of `get_rom`: the stripped pieces from first to last, stopping at the first hit. */
  method SearchSlashPieces(search: Search, searchTerm: string) returns (res: Option<MobyGame>)
    ensures res == FirstHit(search, StripEach(Split(searchTerm, '/')))
  {
    var pieces := Split(searchTerm, '/');
    ghost var terms := StripEach(pieces);
    var i := 0;
    while i < |pieces|
      invariant 0 <= i <= |pieces|
      invariant FirstHit(search, terms[i..]) == FirstHit(search, terms)
    {
      assert terms[i..][0] == Strip(pieces[i]) && terms[i..][1..] == terms[i + 1..];
      res := search(Strip(pieces[i]));
      if res.Some? {
        return;
      }
      i := i + 1;
    }
    assert terms[i..] == [];
    res := None;
  }

  /** The searches of `get_rom` for one normalized term, in the order `FindGame` describes. */
  method FindRomGame(search: Search, searchTerm: string) returns (res: Option<MobyGame>)
    ensures res == FindGame(search, searchTerm)
  {
    res := search(searchTerm);
    if res.None? && ':' in searchTerm {
      res := SearchColonPieces(search, searchTerm);
    }
    if res.None? && '/' in searchTerm {
      res := SearchSlashPieces(search, searchTerm);
    }
  }

  /**
   * `MobyGamesHandler.get_rom`: nothing when the API is disabled or the
   * platform id is falsy; otherwise the found game without its falsy
   * values, or the fallback when nothing is found.
   */
  method GetRom(env: MobyServices, fsName: string, platformMobyId: int) returns (rom: RomDict)
    ensures !env.apiEnabled || platformMobyId == 0 ==> rom == NoRom
    ensures env.apiEnabled && platformMobyId != 0 ==>
      var p := SpecialFormats(env, fsName, platformMobyId);
      var found := FindGame(Searcher(env, platformMobyId), NormalizeSearchTerm(p.searchTerm));
      rom == if found.Some? then DropFalsy(GameRom(found.value)) else p.fallback
  {
    if !env.apiEnabled || platformMobyId == 0 {
      return NoRom;
    }
    var p := SpecialFormats(env, fsName, platformMobyId);
    var res := FindRomGame(Searcher(env, platformMobyId), NormalizeSearchTerm(p.searchTerm));
    if res.None? {
      return p.fallback;
    }
    rom := DropFalsy(GameRom(res.value));
  }
}
