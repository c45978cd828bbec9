/**
 * The RetroAchievements hashing service: it maps a platform slug to the
 * numeric RetroAchievements console id, runs the external `RAHasher` tool on
 * a file, and validates what the tool prints.  The tool itself is outside the
 * model: its run is a parameter that maps a command line to a process outcome.
 */
module RAHasher {
  import opened Wrappers
  import opened PyText

  // The platform table, split in parts so that facts about it stay cheap to
  // check; the whole table is their union.  No slug occurs in two parts.

  /** Entries 1-17 of the table, in source order. */
  const TablePart1: map<string, int> := map[
    "3do" := 43,
    "amstradcpc" := 37,
    "apple2" := 38,
    "arcade" := 27,
    "arcadia" := 73,
    "arduboy" := 71,
    "atari2600" := 25,
    "atari7800" := 51,
    "jaguarcd" := 77,
    "colecovision" := 44,
    "dreamcast" := 40,
    "gb" := 4,
    "gba" := 5,
    "gbc" := 6,
    "gamegear" := 15,
    "genesis" := 1,
    "intellivision" := 45
  ]

  /** Entries 18-34 of the table, in source order. */
  const TablePart2: map<string, int> := map[
    "jaguar" := 17,
    "lynx" := 13,
    "msx" := 29,
    "megaduck" := 69,
    "megadrive" := 16,
    "nes" := 7,
    "ngc" := 14,
    "famicom" := 7,
    "neogeocd" := 56,
    "ngp" := 14,
    "ngpc" := 14,
    "n64" := 2,
    "nds" := 18,
    "dsi" := 78,
    "odyssey2" := 23,
    "pc88" := 47,
    "pcfx" := 49
  ]

  /** Entries 35-51 of the table, in source order. */
  const TablePart3: map<string, int> := map[
    "psp" := 41,
    "psx" := 12,
    "ps2" := 21,
    "pokemini" := 24,
    "saturn" := 39,
    "sega32x" := 10,
    "segacd" := 9,
    "sms" := 11,
    "sg1000" := 33,
    "snes" := 3,
    "pcenginecd" := 76,
    "pcengine" := 8,
    "vectrex" := 26,
    "virtualboy" := 28,
    "supervision" := 63,
    "wswan" := 53,
    "wswanc" := 53
  ]

  /** Python's `PLATFORM_SLUG_TO_RETROACHIEVEMENTS_ID`. */
  const PlatformTable: map<string, int> := TablePart1 + TablePart2 + TablePart3

  /** The executable that computes the hashes. */
  const Tool := "RAHasher"

  /** The exit status with which the tool reports success. */
  const SuccessCode := 1

  /** Why a hash could not be obtained; each case is one `RAHasherError` raised by the service. */
  datatype RAHasherError =
    | UnsupportedPlatform(platformSlug: string)
    | ToolFailed(returnCode: int, stderr: Option<string>)
    | NoHashReturned
    | EmptyHash(platformId: int, filePath: string)
    | InvalidHash(fileHash: string, platformId: int, filePath: string)

  /**
   * What one run of the tool yields: its exit status and, when the pipes
   * exist, everything it wrote to standard output and standard error
   * (already decoded as UTF-8).
   */
  datatype ProcessOutcome = ProcessOutcome(returnCode: int, stdout: Option<string>, stderr: Option<string>)

  predicate IsLowerHexDigit(c: char) {
    '0' <= c <= '9' || 'a' <= c <= 'f'
  }

  /** A RetroAchievements hash: exactly 32 lower-case hexadecimal digits. */
  predicate IsHash(s: string) {
    |s| == 32 && forall i | 0 <= i < |s| :: IsLowerHexDigit(s[i])
  }

  /**
   * `re.match(r"^[0-9a-f]{32}$", s)` succeeds: in Python `$` also matches just
   * before a final newline, so 32 digits followed by one `\n` are accepted too.
   */
  predicate HashPatternMatches(s: string) {
    IsHash(s) || (|s| == 33 && s[32] == '\n' && IsHash(s[..32]))
  }

  /** After `strip()` the newline allowance of `$` no longer matters: the pattern accepts exactly the hashes. */
  lemma HashPatternOnStripped(s: string)
    requires IsStripped(s)
    ensures HashPatternMatches(s) <==> IsHash(s)
  {
  }

  /** All ids of one part of the table are positive. */
  predicate AllPositive(m: map<string, int>) {
    forall slug | slug in m :: m[slug] > 0
  }

  lemma Part1Positive() ensures AllPositive(TablePart1) {}
  lemma Part2Positive() ensures AllPositive(TablePart2) {}
  lemma Part3Positive() ensures AllPositive(TablePart3) {}

  lemma UnionPositive(a: map<string, int>, b: map<string, int>)
    requires AllPositive(a) && AllPositive(b)
    ensures AllPositive(a + b)
  {
  }

  /** Every console id in the table is positive, so the service's "falsy id" test only rejects missing slugs. */
  lemma TableIdsPositive()
    ensures forall slug | slug in PlatformTable :: PlatformTable[slug] > 0
  {
    Part1Positive();
    Part2Positive();
    Part3Positive();
    UnionPositive(TablePart1, TablePart2);
    UnionPositive(TablePart1 + TablePart2, TablePart3);
    assert AllPositive(PlatformTable);
  }

  /**
   * The console id for a platform slug: `dict.get` followed by the test
   * `if not platform_id`, which rejects a missing slug (and would reject an id of 0).
   */
  function ResolvePlatform(platformSlug: string): (r: Result<int, RAHasherError>)
    ensures r.Success? ==> platformSlug in PlatformTable && r.value == PlatformTable[platformSlug] && r.value != 0
    ensures r.Failure? ==> r.error == UnsupportedPlatform(platformSlug)
  {
    if platformSlug in PlatformTable && PlatformTable[platformSlug] != 0 then Success(PlatformTable[platformSlug])
    else Failure(UnsupportedPlatform(platformSlug))
  }

  /** A slug resolves exactly when it is in the table. */
  lemma ResolveIffInTable(platformSlug: string)
    ensures ResolvePlatform(platformSlug).Success? <==> platformSlug in PlatformTable
  {
    TableIdsPositive();
  }

  /** The tool's command line: its name, the console id in decimal, and the file path. */
  function CommandLine(platformId: int, filePath: string): (argv: seq<string>)
    ensures |argv| == 3 && argv[0] == Tool && argv[2] == filePath
    ensures ParseInt(argv[1]) == Some(platformId)
  {
    IntToStringRoundTrip(platformId);
    [Tool, IntToString(platformId), filePath]
  }

  /**
   * The checks that follow the run: exit status, presence of the output pipe,
   * an empty result after stripping, and the hash pattern, in that order.
   */
  function ValidateOutcome(platformId: int, filePath: string, outcome: ProcessOutcome): (r: Result<string, RAHasherError>)
    ensures r.Success? <==>
      outcome.returnCode == SuccessCode && outcome.stdout.Some? && IsHash(Strip(outcome.stdout.value))
    ensures r.Success? ==> r.value == Strip(outcome.stdout.value)
    ensures outcome.returnCode != SuccessCode ==> r == Failure(ToolFailed(outcome.returnCode, outcome.stderr))
    ensures outcome.returnCode == SuccessCode && outcome.stdout.None? ==> r == Failure(NoHashReturned)
    ensures outcome.returnCode == SuccessCode && outcome.stdout.Some? && Strip(outcome.stdout.value) == [] ==>
      r == Failure(EmptyHash(platformId, filePath))
    ensures outcome.returnCode == SuccessCode && outcome.stdout.Some? && Strip(outcome.stdout.value) != [] &&
            !IsHash(Strip(outcome.stdout.value)) ==>
      r == Failure(InvalidHash(Strip(outcome.stdout.value), platformId, filePath))
  {
    if outcome.returnCode != SuccessCode then Failure(ToolFailed(outcome.returnCode, outcome.stderr))
    else if outcome.stdout.None? then Failure(NoHashReturned)
    else
      var fileHash := Strip(outcome.stdout.value);
      HashPatternOnStripped(fileHash);
      if fileHash == [] then Failure(EmptyHash(platformId, filePath))
      else if !HashPatternMatches(fileHash) then Failure(InvalidHash(fileHash, platformId, filePath))
      else Success(fileHash)
  }

  /**
   * `RAHasherService.calculate_hash`: `run` stands for launching the tool
   * with a command line and waiting for it.
   */
  function CalculateHash(platformSlug: string, filePath: string, run: seq<string> -> ProcessOutcome): (r: Result<string, RAHasherError>)
    ensures r.Success? ==> IsHash(r.value) && platformSlug in PlatformTable
    ensures platformSlug !in PlatformTable ==> r == Failure(UnsupportedPlatform(platformSlug))
    ensures platformSlug in PlatformTable ==>
      var argv := CommandLine(PlatformTable[platformSlug], filePath);
      r == ValidateOutcome(PlatformTable[platformSlug], filePath, run(argv))
  {
    TableIdsPositive();
    match ResolvePlatform(platformSlug)
    case Failure(e) => Failure(e)
    case Success(platformId) => ValidateOutcome(platformId, filePath, run(CommandLine(platformId, filePath)))
  }

  /** For an unsupported slug the tool's behaviour is irrelevant: it is never consulted. */
  lemma UnsupportedIgnoresTool(platformSlug: string, filePath: string, run1: seq<string> -> ProcessOutcome, run2: seq<string> -> ProcessOutcome)
    requires platformSlug !in PlatformTable
    ensures CalculateHash(platformSlug, filePath, run1) == CalculateHash(platformSlug, filePath, run2)
  {
  }

  /** Only the run on the one command line built from the table matters. */
  lemma OnlyOwnCommandLineMatters(platformSlug: string, filePath: string, run1: seq<string> -> ProcessOutcome, run2: seq<string> -> ProcessOutcome)
    requires platformSlug in PlatformTable
    requires run1(CommandLine(PlatformTable[platformSlug], filePath)) == run2(CommandLine(PlatformTable[platformSlug], filePath))
    ensures CalculateHash(platformSlug, filePath, run1) == CalculateHash(platformSlug, filePath, run2)
  {
  }

  // Lookups in the whole table, from facts about single parts.

  lemma InPart1Only(slug: string, id: int)
    requires slug in TablePart1 && TablePart1[slug] == id && slug !in TablePart2 && slug !in TablePart3
    ensures slug in PlatformTable && PlatformTable[slug] == id
  {
  }

  lemma InPart2Only(slug: string, id: int)
    requires slug in TablePart2 && TablePart2[slug] == id && slug !in TablePart3
    ensures slug in PlatformTable && PlatformTable[slug] == id
  {
  }

  lemma InPart3(slug: string, id: int)
    requires slug in TablePart3 && TablePart3[slug] == id
    ensures slug in PlatformTable && PlatformTable[slug] == id
  {
  }

  lemma NotInAnyPart(slug: string)
    requires slug !in TablePart1 && slug !in TablePart2 && slug !in TablePart3
    ensures slug !in PlatformTable
  {
  }

  lemma NesFamicomEntries()
    ensures "nes" in TablePart2 && TablePart2["nes"] == 7 && "nes" !in TablePart3
    ensures "famicom" in TablePart2 && TablePart2["famicom"] == 7 && "famicom" !in TablePart3
  {
  }

  lemma NeoGeoPocketEntries()
    ensures "ngc" in TablePart2 && TablePart2["ngc"] == 14 && "ngc" !in TablePart3
    ensures "ngp" in TablePart2 && TablePart2["ngp"] == 14 && "ngp" !in TablePart3
    ensures "ngpc" in TablePart2 && TablePart2["ngpc"] == 14 && "ngpc" !in TablePart3
  {
  }

  lemma WonderSwanEntries()
    ensures "wswan" in TablePart3 && TablePart3["wswan"] == 53
    ensures "wswanc" in TablePart3 && TablePart3["wswanc"] == 53
  {
  }

  lemma GenesisEntry()
    ensures "genesis" in TablePart1 && TablePart1["genesis"] == 1 && "genesis" !in TablePart2 && "genesis" !in TablePart3
  {
  }

  lemma MegaDriveEntry()
    ensures "megadrive" in TablePart2 && TablePart2["megadrive"] == 16 && "megadrive" !in TablePart3
  {
  }

  lemma MadeUpPlatformAbsent()
    ensures "made-up-platform" !in TablePart1 && "made-up-platform" !in TablePart2 && "made-up-platform" !in TablePart3
  {
  }

  /** Slugs that share a console: NES and Famicom, the Neo Geo Pocket family, the WonderSwan pair. */
  lemma SharedConsoleIds()
    ensures PlatformTable["nes"] == PlatformTable["famicom"] == 7
    ensures PlatformTable["ngc"] == PlatformTable["ngp"] == PlatformTable["ngpc"] == 14
    ensures PlatformTable["wswan"] == PlatformTable["wswanc"] == 53
  {
    NesFamicomEntries();
    NeoGeoPocketEntries();
    WonderSwanEntries();
    InPart2Only("nes", 7);
    InPart2Only("famicom", 7);
    InPart2Only("ngc", 14);
    InPart2Only("ngp", 14);
    InPart2Only("ngpc", 14);
    InPart3("wswan", 53);
    InPart3("wswanc", 53);
  }

  /** `genesis` and `megadrive` are distinct entries with distinct ids. */
  lemma GenesisIsNotMegaDrive()
    ensures PlatformTable["genesis"] == 1 && PlatformTable["megadrive"] == 16
  {
    GenesisEntry();
    MegaDriveEntry();
    InPart1Only("genesis", 1);
    InPart2Only("megadrive", 16);
  }

  /** A slug outside the table is rejected before the tool runs. */
  lemma MadeUpPlatformRejected(filePath: string, run: seq<string> -> ProcessOutcome)
    ensures CalculateHash("made-up-platform", filePath, run) == Failure(UnsupportedPlatform("made-up-platform"))
  {
    MadeUpPlatformAbsent();
    NotInAnyPart("made-up-platform");
  }

  /** A success status with a bare hash yields that hash unchanged. */
  lemma ValidHashAccepted(platformId: int, filePath: string)
    ensures ValidateOutcome(platformId, filePath, ProcessOutcome(1, Some("0123456789abcdef0123456789abcdef"), None))
      == Success("0123456789abcdef0123456789abcdef")
  {
    var h := "0123456789abcdef0123456789abcdef";
    assert IsHash(h);
    StripStripped(h);
    var r := ValidateOutcome(platformId, filePath, ProcessOutcome(1, Some(h), None));
    assert r.Success? && r.value == h;
  }

  /** Exit status 0 is a tool failure whatever the tool printed. */
  lemma ExitZeroFails(platformId: int, filePath: string, stdout: Option<string>, stderr: Option<string>)
    ensures ValidateOutcome(platformId, filePath, ProcessOutcome(0, stdout, stderr)) == Failure(ToolFailed(0, stderr))
  {
  }

  /** Output made only of whitespace is an empty hash. */
  lemma BlankOutputIsEmptyHash(platformId: int, filePath: string)
    ensures ValidateOutcome(platformId, filePath, ProcessOutcome(1, Some("  \n"), None)) == Failure(EmptyHash(platformId, filePath))
  {
    StripEmptyIffAllSpace("  \n");
  }

  /** Stripped, non-empty output that is not a hash is reported as an invalid hash. */
  lemma NotAHashRejected(platformId: int, filePath: string, h: string)
    requires IsStripped(h) && h != [] && !IsHash(h)
    ensures ValidateOutcome(platformId, filePath, ProcessOutcome(1, Some(h), None)) == Failure(InvalidHash(h, platformId, filePath))
  {
    StripStripped(h);
  }

  /** Upper-case digits are not lowered: the output is rejected. */
  lemma UpperCaseHashRejected(platformId: int, filePath: string)
    ensures var h := "0123456789ABCDEF0123456789ABCDEF";
      ValidateOutcome(platformId, filePath, ProcessOutcome(1, Some(h), None)) == Failure(InvalidHash(h, platformId, filePath))
  {
    var h := "0123456789ABCDEF0123456789ABCDEF";
    assert h[10] == 'A';
    NotAHashRejected(platformId, filePath, h);
  }

  /** One digit too few or too many is rejected. */
  lemma WrongLengthRejected(platformId: int, filePath: string)
    ensures var h := "0123456789abcdef0123456789abcde";
      ValidateOutcome(platformId, filePath, ProcessOutcome(1, Some(h), None)) == Failure(InvalidHash(h, platformId, filePath))
    ensures var h := "0123456789abcdef0123456789abcdef0";
      ValidateOutcome(platformId, filePath, ProcessOutcome(1, Some(h), None)) == Failure(InvalidHash(h, platformId, filePath))
  {
    NotAHashRejected(platformId, filePath, "0123456789abcdef0123456789abcde");
    NotAHashRejected(platformId, filePath, "0123456789abcdef0123456789abcdef0");
  }
}
