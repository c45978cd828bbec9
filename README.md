# RomM metadata, collections and scan statistics — a Dafny model

This project models six self-contained pieces of the RomM backend and
proves properties about them:

- **RetroAchievements hashing** (`RAHasher`, file `rahasher.dfy`). This
  covers the 51-entry table from platform slug to RetroAchievements console
  id, the hash pattern, and `RAHasherService.calculate_hash`. The tool's
  process is a parameter of the model: a function from the command line to
  the process outcome (exit status, optional standard output, optional
  standard error).
- **Metadata helpers** (`MetadataBase`, file `metadata_base.dfy`). This
  covers the search-term normalisation, the cover-URL normalisation, and
  the masking of sensitive values. It also covers the rewrite that clears
  the update bit of a Switch product id (done as a step-by-step method
  over the characters), the four file-name patterns, and the pure parts of
  the format helpers that `get_rom` calls.
- **MobyGames** (`MobyPlatforms` and `MobyHandler`, files
  `moby_platforms.dfy` and `moby_handler.dfy`).
  - The 324-entry `SLUG_TO_MOBY_PLATFORM` table, its reverse map from id to
    slug, and `get_platform`.
  - `extract_metadata_from_moby_rom`.
  - The exact-match-else-first choice of `_search_rom`.
  - `get_rom`: the special file-name formats in source order, then the
    search of the whole term, the `:`-pieces from the right and the
    `/`-pieces from the left, each loop a method with invariants, and the
    final filter that drops falsy values.
  - The MobyGames search itself, `unidecode` and `_normalize_exact_match`
    are uninterpreted functions passed in as a `MobyServices` record.
- **The collection models** (`CollectionModel`, file `collection.dfy`).
  - The derived properties of `Collection` and `VirtualCollection`.
  - The reversible virtual-collection id. It is modelled end to end with
    its own models of the standard functions it uses:
    - URL-safe Base64 (`Base64Url`), section 5 of RFC 4648, with the decoder
      as Python's `binascii` runs it;
    - UTF-8 (`Utf8`), section 3 of RFC 3629;
    - JSON text (`JsonText`), RFC 8259, as `json.dumps` writes and
      `json.loads` reads an object of string members.
- **The collections tables** (`CollectionsDb`, file `collections_db.dfy`).
  A class `CollectionsTables` holds three tables:
  - the `collections` rows,
  - the `collections_roms` pairs,
  - the `virtual_collections` rows.

  `update_collection`, `delete_collection`, `get_collections` and
  `get_virtual_collections` are methods on that class. Ordered queries use
  a sort by a text column (`Sorting`).
- **Scan statistics** (`ScanStatsModel`, file `scan_stats.dfy`).
  `ScanStats` is a class with eight counters, updated in place by `+= 1`
  and by an in-place field-wise `+=` that rejects other operands. The
  class's own source (`scan.py`) is not part of this model, so the
  assertions of its tests are the contract.

The shared modules are:

- `Wrappers`: `Option` and `Result`.
- `PyText`: Python `str` operations on `seq<char>`, namely `strip`,
  `replace`, `split`, `join`, ASCII `lower`, and `str(int)`/`int(str)`.
- `Sorting`: code-point order, an insertion sort, and `LIMIT`.

## Model

| member | source | states |
|---|---|---|
| RAHasher.HashPatternOnStripped | backend/adapters/services/rahasher.py:7 | on stripped text the pattern `^[0-9a-f]{32}$` (whose `$` also allows one final newline) accepts exactly 32 lower-case hex digits |
| RAHasher.TableIdsPositive | backend/adapters/services/rahasher.py:10-62 | every console id in the table is positive |
| RAHasher.ResolvePlatform | backend/adapters/services/rahasher.py:72-76 | success gives the slug's table id; otherwise the unsupported-platform error carrying the slug |
| RAHasher.ResolveIffInTable | backend/adapters/services/rahasher.py:72-76 | a slug resolves exactly when it is in the table, so the falsy-id test only rejects absence |
| RAHasher.CommandLine | backend/adapters/services/rahasher.py:78-86 | three arguments: the tool name, a decimal that parses back to the id, and the file path |
| RAHasher.ValidateOutcome | backend/adapters/services/rahasher.py:87-108 | success iff exit code 1, stdout present and a hash after strip; the result is the stripped text; each failure (tool failed with its stderr, no stdout, empty, invalid) has its own condition |
| RAHasher.CalculateHash | backend/adapters/services/rahasher.py:71-108 | a result is a hash of a table slug; an absent slug fails before the tool runs; otherwise the validation of the run on the table's command line |
| RAHasher.UnsupportedIgnoresTool | backend/adapters/services/rahasher.py:72-81 | for a slug outside the table, any two tools give the same result |
| RAHasher.OnlyOwnCommandLineMatters | backend/adapters/services/rahasher.py:78-87 | two tools that agree on the one command line built give the same result |
| RAHasher.SharedConsoleIds | backend/adapters/services/rahasher.py:33-61 | nes and famicom are 7; ngc, ngp and ngpc are 14; wswan and wswanc are 53 |
| RAHasher.GenesisIsNotMegaDrive | backend/adapters/services/rahasher.py:26-32 | genesis is 1 and megadrive is 16 |
| RAHasher.MadeUpPlatformRejected | backend/adapters/services/rahasher.py:72-76 | a slug outside the table is rejected whatever the tool would do |
| RAHasher.ValidHashAccepted | backend/adapters/services/rahasher.py:98-108 | exit 1 with a bare hash on stdout returns that hash |
| RAHasher.ExitZeroFails | backend/adapters/services/rahasher.py:87-93 | exit code 0 is a tool failure whatever was printed |
| RAHasher.BlankOutputIsEmptyHash | backend/adapters/services/rahasher.py:98-102 | whitespace-only output is the empty-hash error |
| RAHasher.UpperCaseHashRejected | backend/adapters/services/rahasher.py:103-106 | upper-case hex digits are an invalid hash |
| RAHasher.WrongLengthRejected | backend/adapters/services/rahasher.py:103-106 | 31 or 33 digits are an invalid hash |
| MetadataBase.NormalizeSearchTerm | backend/handler/metadata/base_hander.py:60-67 | the result holds none of the four removed symbols and is stripped |
| MetadataBase.RemoveSymbolsOneByOne | backend/handler/metadata/base_hander.py:60-67 | the four chained replacements delete exactly the four symbols and keep every other character in order |
| MetadataBase.NormalizeSearchTermIdempotent | backend/handler/metadata/base_hander.py:60-67 | normalising twice is normalising once |
| MetadataBase.NormalizeCoverUrl | backend/handler/metadata/base_hander.py:70-71 | the result is empty exactly when the URL is; a non-empty URL always comes out starting with `https:`; a URL without `https:` gets exactly `https:` in front (the partner lemmas below cover a URL that already has one scheme and a protocol-relative URL) |
| MetadataBase.CoverUrlWithSchemeKept | backend/handler/metadata/base_hander.py:70-71 | a URL with one leading `https:` is left as it is |
| MetadataBase.CoverUrlProtocolRelative | backend/handler/metadata/base_hander.py:70-71 | `//host/x` and `https://host/x` give the same result |
| MetadataBase.MaskValue | backend/handler/metadata/base_hander.py:216-228 | the exact mask: for two or more characters the first two, `***` and the last two (seven characters); for fewer, the value, `***` and the value again; every character is a star or one of the value's |
| MetadataBase.ShortValueExposed | backend/handler/metadata/base_hander.py:216-228 | a value of two to four characters is recovered from its mask and its length, so such a secret is logged whole |
| MetadataBase.MaskValueStable | backend/handler/metadata/base_hander.py:216-228 | masking a masked value of at least two characters gives it back |
| MetadataBase.BearerToken | backend/handler/metadata/base_hander.py:213-214 | the token is the text after `Bearer ` up to the next space |
| MetadataBase.MaskEntry | backend/handler/metadata/base_hander.py:211-234 | the Bearer form for a bearer `Authorization`, the masked value for a sensitive key, else the value unchanged |
| MetadataBase.MaskSensitiveValues | backend/handler/metadata/base_hander.py:196-235 | the same keys, and each value replaced by its masked form |
| MetadataBase.MaskSensitiveStable | backend/handler/metadata/base_hander.py:196-235 | masking twice equals masking once for sensitive values of at least two characters |
| MetadataBase.UpdateBitCleared | backend/handler/metadata/base_hander.py:164-167 | same length, `0` at index len-3, every other character unchanged |
| MetadataBase.ClearUpdateBit | backend/handler/metadata/base_hander.py:164-167 | the in-place character rewrite gives the function's result |
| MetadataBase.UpdateBitClearedIsProductId | backend/handler/metadata/base_hander.py:159-167 | a product id stays a product id |
| MetadataBase.UpdateBitClearedValue | backend/handler/metadata/base_hander.py:164-167 | the hex value drops by exactly the cleared digit times 0x100 |
| MetadataBase.UpdateMapsToApplication | backend/handler/metadata/base_hander.py:163-167 | an update's product id (digit 8 at index -3) and its application's give the same key |
| MetadataBase.Leftmost | backend/handler/metadata/base_hander.py:32-33 | the leftmost start at or after i where the pattern matches, and none before it |
| MetadataBase.SwitchSearch | backend/handler/metadata/base_hander.py:32-33 | the group of the leftmost title-id or product-id match |
| MetadataBase.Ps2OplMatch | backend/handler/metadata/base_hander.py:41 | a match exactly when the name starts with four capital letters, `_`, three digits, `.`, two digits and `.`, and has no newline after that except possibly as its last character; the group is the first eleven characters |
| MetadataBase.OplNameAccepted | backend/handler/metadata/base_hander.py:41 | `SLUS_203.12.iso` gives `SLUS_203.12`, and so does the same name with a final newline, which `$` allows |
| MetadataBase.OplLowerCaseRejected | backend/handler/metadata/base_hander.py:41 | lower-case letters do not match `[A-Z]` |
| MetadataBase.OplInnerNewlineRejected | backend/handler/metadata/base_hander.py:41 | `.*$` does not cross a newline before the last character |
| MetadataBase.LineEnd | backend/handler/metadata/base_hander.py:46 | where a greedy `.*` stops: the first newline at or after the position, or the end |
| MetadataBase.LastHit | backend/handler/metadata/base_hander.py:46 | backtracking finds the last position in range where the rest of the pattern matches |
| MetadataBase.SonySerialSearchFindsLastSerial | backend/handler/metadata/base_hander.py:46 | a match exactly when some serial at or after the start is followed by the rest of its line; the group is the last such serial |
| MetadataBase.LeadingSerialFoundFromStart | backend/handler/metadata/base_hander.py:46 | searched from index 0, `SLUS-01234.bin` yields its serial |
| MetadataBase.LeadingSerialMissed | backend/handler/metadata/moby_handler.py:212 | searched from index 2 (the flag passed as `pos`), the same name yields nothing |
| MetadataBase.OnlySerialAtStart | backend/handler/metadata/base_hander.py:46 | that name's only serial starts at index 0 |
| MetadataBase.Ps2OplFormat | backend/handler/metadata/base_hander.py:101-108 | the indexed name when there is one, else the term |
| MetadataBase.SonySerialFormat | backend/handler/metadata/base_hander.py:110-137 | a non-empty indexed title, else the term |
| MetadataBase.SwitchFormat | backend/handler/metadata/base_hander.py:139-182 | the entry's name and the entry when indexed, else the term and no entry |
| MetadataBase.MameFormat | backend/handler/metadata/base_hander.py:184-194 | the indexed description without its tags, else the term |
| MobyPlatforms.SlugMapKeys | backend/handler/metadata/moby_handler.py:365-886 | the dict display has exactly the table's slugs as keys |
| MobyPlatforms.SlugMapLast | backend/handler/metadata/moby_handler.py:365-886 | each slug maps to its last entry in the display |
| MobyPlatforms.ReverseKeys | backend/handler/metadata/moby_handler.py:889 | the reverse map's keys are exactly the ids of the run |
| MobyPlatforms.ReverseLast | backend/handler/metadata/moby_handler.py:889 | each id maps to the slug of its last entry |
| MobyPlatforms.ReverseLastWins | backend/handler/metadata/moby_handler.py:889 | an entry no later entry shares its id with decides that id's slug |
| MobyPlatforms.ReverseConcat | backend/handler/metadata/moby_handler.py:889 | the reverse map of two runs is the first's overridden by the second's |
| MobyPlatforms.ReverseMapSound | backend/handler/metadata/moby_handler.py:889 | `MOBY_ID_TO_MOBY_PLATFORM` has exactly the table's ids as keys, and each maps to a slug whose entry carries that id |
| MobyPlatforms.ReverseId115 | backend/handler/metadata/moby_handler.py:449-459 | id 115 (c16plus4, cplus4, c16) maps to c16 |
| MobyPlatforms.ReverseId22 | backend/handler/metadata/moby_handler.py:640-641 | id 22 (nes, famicom) maps to famicom |
| MobyPlatforms.ReverseId36 | backend/handler/metadata/moby_handler.py:643-644 | id 36 (neogeoaes, neogeomvs) maps to neogeomvs |
| MobyPlatforms.ReverseId15 | backend/handler/metadata/moby_handler.py:743-744 | id 15 (snes, sfam) maps to sfam |
| MobyPlatforms.ReverseId86 | backend/handler/metadata/moby_handler.py:879-880 | id 86 (iphone, ios) maps to ios |
| MobyPlatforms.SlugLookup | backend/handler/metadata/moby_handler.py:182 | a slug is a key exactly when some entry has it, and it maps to such an entry |
| MobyPlatforms.GetPlatform | backend/handler/metadata/moby_handler.py:181-191 | a table slug gives its entry's id and name; any other slug gives no id and no name; the slug is always echoed |
| MobyHandler.MetadataPlatforms | backend/handler/metadata/moby_handler.py:69-75 | one metadata platform per game platform, same length and order, id and name copied |
| MobyHandler.MetadataPlatformsReversible | backend/handler/metadata/moby_handler.py:69-75 | the game's platform list is read back from the metadata, so nothing is lost |
| MobyHandler.ExtractMetadata | backend/handler/metadata/moby_handler.py:63-77 | missing score, genres and alternate titles default to `""` and `[]`; present ones are copied; platforms are mapped one to one |
| MobyHandler.NamedRom | backend/handler/metadata/moby_handler.py:209 | a fallback with exactly `moby_id` None and the name |
| MobyHandler.SwitchRom | backend/handler/metadata/moby_handler.py:232-238 | a fallback with the entry's name; the description and icon are `""` when absent, `None` when `null`, and the text otherwise; the screenshots are the list when present and not `null`, else `[]` |
| MobyHandler.LastSegment | backend/handler/metadata/moby_handler.py:283 | the suffix of the URL after its last slash, with no slash in it |
| MobyHandler.GameRom | backend/handler/metadata/moby_handler.py:280-288 | the seven keys of the found game's dictionary |
| MobyHandler.DropFalsy | backend/handler/metadata/moby_handler.py:290 | exactly the entries with truthy values are kept, unchanged |
| MobyHandler.DropFalsyIdempotent | backend/handler/metadata/moby_handler.py:290 | filtering twice is filtering once |
| MobyHandler.FoundRomKeys | backend/handler/metadata/moby_handler.py:280-290 | the metadata is always kept; the id, name, slug, summary, cover and screenshots are kept exactly when truthy |
| MobyHandler.ExactMatchesSpec | backend/handler/metadata/moby_handler.py:167-177 | the exact matches are games that match; empty iff no game matches; led by the earliest match |
| MobyHandler.SearchRom | backend/handler/metadata/moby_handler.py:156-158 | a falsy platform id finds nothing |
| MobyHandler.SearchRomPicks | backend/handler/metadata/moby_handler.py:156-179 | nothing iff no game is listed; the earliest exact match when one exists; else the first game listed |
| MobyHandler.AfterPs2Opl | backend/handler/metadata/moby_handler.py:205-209 | only on PS2 with an OPL match: the indexed name (or the term) becomes the term and the fallback's name |
| MobyHandler.AfterSonySerial | backend/handler/metadata/moby_handler.py:211-223 | only on PS1, PS2 or PSP with a serial: the platform's indexed title (or the term) becomes the term and the fallback's name |
| MobyHandler.SwitchKey | backend/handler/metadata/moby_handler.py:240-245 | a title id is looked up as is, a product id with its update bit cleared |
| MobyHandler.AfterSwitch | backend/handler/metadata/moby_handler.py:225-253 | only on Switch with a match: an indexed entry gives the term and the fallback; otherwise both stay |
| MobyHandler.AfterMame | backend/handler/metadata/moby_handler.py:255-258 | only on an arcade id: the MAME description becomes the term and the fallback's name |
| MobyHandler.SpecialFormats | backend/handler/metadata/moby_handler.py:202-258 | the fallback always has `moby_id` None |
| MobyHandler.PlainPlatform | backend/handler/metadata/moby_handler.py:202-258 | on other platforms the term is the name without tags, and the fallback has no name |
| MobyHandler.Ps1SerialFound | backend/handler/metadata/moby_handler.py:211-215 | an indexed PS1 serial gives the term and the fallback's name |
| MobyHandler.Ps1LeadingSerialIgnored | backend/handler/metadata/moby_handler.py:212-215 | a PS1 name that starts with its serial is searched by its plain name |
| MobyHandler.Ps2SerialMissKeepsOplName | backend/handler/metadata/moby_handler.py:205-219 | on PS2 a serial missing from the index keeps the OPL name |
| MobyHandler.Ps2SerialOverridesOpl | backend/handler/metadata/moby_handler.py:205-219 | on PS2 an indexed serial title replaces the OPL name |
| MobyHandler.SwitchUpdateFindsApplication | backend/handler/metadata/moby_handler.py:240-253 | an update's product id finds its application's entry, which gives the term and the fallback |
| MobyHandler.ArcadeUsesMame | backend/handler/metadata/moby_handler.py:255-258 | on an arcade platform the MAME description gives the term and the fallback |
| MobyHandler.Reversed | backend/handler/metadata/moby_handler.py:265 | `s[::-1]`: element i is element len-1-i |
| MobyHandler.StripEach | backend/handler/metadata/moby_handler.py:272-273 | each piece stripped, same length |
| MobyHandler.SearcherSearches | backend/handler/metadata/moby_handler.py:266 | the loops' search runs `_search_rom` on the platform |
| MobyHandler.FirstHitIsFirst | backend/handler/metadata/moby_handler.py:265-268 | nothing iff every term misses; otherwise the result of the earliest hit, all before it missing |
| MobyHandler.WholeTermFirst | backend/handler/metadata/moby_handler.py:261-264 | a hit on the whole term is the result |
| MobyHandler.NoSeparatorsSearchedOnce | backend/handler/metadata/moby_handler.py:261-275 | a term without `:` or `/` is searched once |
| MobyHandler.NothingFoundAllMissed | backend/handler/metadata/moby_handler.py:261-275 | no result means the whole term and every piece tried missed |
| MobyHandler.FalsyPlatformFindsNothing | backend/handler/metadata/moby_handler.py:157-158 | with platform id 0 every search misses |
| MobyHandler.ColonPiecesFromTheRight | backend/handler/metadata/moby_handler.py:264-268 | when the whole term misses and some `:`-piece hits, the result is a hit on some `:`-piece |
| MobyHandler.SlashPiecesAfterColon | backend/handler/metadata/moby_handler.py:270-275 | the `/`-pieces decide only when the whole term and all `:`-pieces miss, then the first stripped hit |
| MobyHandler.SearchColonPieces | backend/handler/metadata/moby_handler.py:264-268 | the `for … break` loop yields the first hit among the reversed `:`-pieces |
| MobyHandler.SearchSlashPieces | backend/handler/metadata/moby_handler.py:271-275 | the `for … break` loop yields the first hit among the stripped `/`-pieces |
| MobyHandler.FindRomGame | backend/handler/metadata/moby_handler.py:260-275 | the search sequence ends with the game `FindGame` specifies |
| MobyHandler.GetRom | backend/handler/metadata/moby_handler.py:193-290 | no API or a falsy platform gives `moby_id` None only; otherwise the found game without falsy values, or the fallback when nothing is found |
| Base64Url.Encode | backend/models/collection.py:128 | 4 characters per started group of 3 bytes, all from the URL-safe alphabet or `=`, and no `=` when the length is a multiple of 3 |
| Base64Url.Decode | backend/models/collection.py:132 | text with a non-ASCII character is rejected |
| Base64Url.LetterDecodes | backend/models/collection.py:132 | every letter of the URL-safe alphabet decodes to its value |
| Base64Url.DecodeEncode | backend/models/collection.py:128-132 | `urlsafe_b64decode(urlsafe_b64encode(b)) == b` |
| Base64Url.TextAfterPaddingIgnored | backend/models/collection.py:132 | after complete padding, anything appended is ignored |
| Base64Url.OtherCharSkipped | backend/models/collection.py:132 | a character outside the alphabet, other than `=`, is skipped |
| Base64Url.SingleLetterRejected | backend/models/collection.py:132 | one letter left over is an error |
| Base64Url.MissingPaddingRejected | backend/models/collection.py:132 | two letters without padding are an error |
| Utf8.EncodeChar | backend/models/collection.py:128 | 1 to 4 bytes, one byte exactly for code points below 128 |
| Utf8.DecodeEncode | backend/models/collection.py:128-132 | `s.encode().decode() == s` |
| Utf8.EncodeAscii | backend/models/collection.py:128 | ASCII text is encoded as its code points |
| Utf8.StrayContinuationRejected | backend/models/collection.py:132 | a lone continuation byte is a decoding error |
| Utf8.OverlongRejected | backend/models/collection.py:132 | an overlong form is a decoding error |
| Utf8.SurrogateRejected | backend/models/collection.py:132 | an encoded surrogate is a decoding error |
| JsonText.DumpsNameTypeAscii | backend/models/collection.py:127 | `json.dumps` of the name/type object is ASCII |
| JsonText.EscapeTextParses | backend/models/collection.py:127-132 | any escaped text, including astral characters as surrogate pairs, is read back as the same text |
| JsonText.MemberParses | backend/models/collection.py:127-132 | a written member is read back as its key and value |
| JsonText.TwoMembersParse | backend/models/collection.py:127-132 | two members and `}` read back as the map with both members set |
| JsonText.LoadsDumps | backend/models/collection.py:127-132 | `json.loads(json.dumps({"name": n, "type": t}))` is the map with exactly those two members |
| JsonText.RepeatedNameKeepsLast | backend/models/collection.py:132 | a repeated name keeps its last value |
| CollectionModel.CoverUrlInjective | backend/models/collection.py:56-70 | under one resources path and stamp, different paths give different URLs |
| CollectionModel.RomIds | backend/models/collection.py:44-46 | one id per rom, in the roms' order |
| CollectionModel.RomIdsDistinct | backend/models/collection.py:29-46 | the ids of the set of roms do not repeat |
| CollectionModel.RomCount | backend/models/collection.py:48-50 | the number of roms, equal to the number of ids |
| CollectionModel.FsResourcesPath | backend/models/collection.py:52-54 | `collections/` followed by the decimal id |
| CollectionModel.FsResourcesPathId | backend/models/collection.py:52-54 | the id is read back from the path |
| CollectionModel.FsResourcesPathInjective | backend/models/collection.py:52-54 | collections with different ids have different paths |
| CollectionModel.PathCover | backend/models/collection.py:56-70 | None iff the stored path is missing or empty; otherwise its URL stamped with the update time |
| CollectionModel.PathCovers | backend/models/collection.py:72-86 | no more URLs than roms |
| CollectionModel.PathCoversFull | backend/models/collection.py:72-86 | as many URLs as roms exactly when every rom has a cover |
| CollectionModel.PathCoversMembers | backend/models/collection.py:72-86 | the URLs are exactly those of the roms' non-empty covers |
| CollectionModel.PathCoversAppend | backend/models/collection.py:72-86 | the lists keep the roms' order |
| CollectionModel.IsFavoriteIff | backend/models/collection.py:88-90 | favourite iff the name is `favourites` in any mix of ASCII cases |
| CollectionModel.AmericanSpellingIsNotFavourite | backend/models/collection.py:88-90 | a collection named `Favorites` is not the favourites collection |
| CollectionModel.VirtualId | backend/models/collection.py:124-128 | the id is URL-safe text |
| CollectionModel.FromId | backend/models/collection.py:130-133 | the stages in order, each with its own error: a base64 error, then text that is not UTF-8, then a JSON error, then a missing `name`, then a missing `type`; when all pass, the object's `name` and `type` members |
| CollectionModel.FromIdRoundTrip | backend/models/collection.py:124-133 | `from_id(id)` gives back the name and type the id was made from |
| CollectionModel.VirtualIdInjective | backend/models/collection.py:124-133 | two virtual collections share an id only if they share name and type |
| CollectionModel.EmptyIdRejected | backend/models/collection.py:130-133 | the empty id is an error |
| CollectionModel.VirtualRomCount | backend/models/collection.py:135-137 | the number of stored rom ids |
| CollectionModel.VirtualRomCountAgrees | backend/models/collection.py:135-137 | a virtual collection storing the ids of some roms counts as many as a collection of those roms |
| CollectionModel.VirtualPathCover | backend/models/collection.py:139-145 | always None |
| CollectionModel.VirtualPathCovers | backend/models/collection.py:147-159 | one URL per stored path, same length and order |
| CollectionModel.VirtualCoversAgree | backend/models/collection.py:72-159 | a virtual collection storing a collection's cover paths, with the same stamp, lists the same URLs |
| CollectionsDb.Apply | backend/handler/database/collections_handler.py:73-78 | an update keeps the id and the update time |
| CollectionsDb.ApplyNoChanges | backend/handler/database/collections_handler.py:73-78 | empty data changes nothing |
| CollectionsDb.ApplyIdempotent | backend/handler/database/collections_handler.py:73-78 | the same data applied twice is applied once |
| CollectionsDb.UpdateRow | backend/handler/database/collections_handler.py:73-78 | only the row with the id takes the data; every other row is unchanged |
| CollectionsDb.RemoveRowMembers | backend/handler/database/collections_handler.py:97-103 | the rows kept are exactly those with another id |
| CollectionsDb.RemoveRowIds | backend/handler/database/collections_handler.py:97-103 | the ids left are exactly the old ids other than the deleted one |
| CollectionsDb.RemoveRowUnique | backend/handler/database/collections_handler.py:97-103 | removing keeps the ids unique |
| CollectionsDb.ReplaceRomsOwn | backend/handler/database/collections_handler.py:80-93 | with a list, the collection's roms are exactly its distinct ids |
| CollectionsDb.ReplaceRomsEmpty | backend/handler/database/collections_handler.py:82-86 | with `[]` the collection has no roms |
| CollectionsDb.ReplaceRomsNone | backend/handler/database/collections_handler.py:80 | with None the pairs are unchanged |
| CollectionsDb.ReplaceRomsOthers | backend/handler/database/collections_handler.py:82-84 | other collections' pairs are unchanged |
| CollectionsDb.ReplaceRomsIdempotent | backend/handler/database/collections_handler.py:80-93 | replacing twice is replacing once |
| CollectionsDb.Dedup | backend/handler/database/collections_handler.py:91 | no repeats, and the same ids as the list |
| CollectionsDb.FilterTypeMembers | backend/handler/database/collections_handler.py:57 | the rows kept are exactly the rows of the type, or of any type for `all` |
| CollectionsDb.FilterAll | backend/handler/database/collections_handler.py:57 | `all` keeps every row |
| CollectionsDb.VirtualQuerySpec | backend/handler/database/collections_handler.py:51-63 | sorted by name, at most the limit, only rows of the type; without a limit, all of them |
| CollectionsDb.CollectionsTables.constructor | backend/models/collection.py:15-18 | tables with unique ids |
| CollectionsDb.CollectionsTables.FindRow | backend/handler/database/collections_handler.py:75 | the index of the row with the id, or the length when there is none |
| CollectionsDb.CollectionsTables.UpdateCollection | backend/handler/database/collections_handler.py:65-95 | rows become `UpdateRow`, pairs become `ReplaceRoms`, and the row returned has the id; a missing id fails with nothing changed, with an integrity error when there are rom ids to insert (the `collection_id` foreign key of backend/models/collection.py:99-101) and with no result found otherwise; the virtual view is untouched |
| CollectionsDb.CollectionsTables.DeleteCollection | backend/handler/database/collections_handler.py:97-103 | rows become `RemoveRow`, the collection's pairs go by the cascade, and ids stay unique |
| CollectionsDb.CollectionsTables.GetCollections | backend/handler/database/collections_handler.py:43-48 | every row once, sorted by name |
| CollectionsDb.CollectionsTables.GetVirtualCollections | backend/handler/database/collections_handler.py:51-63 | sorted by name, only rows of the type (any for `all`), at most the limit |
| Sorting.SortBySorted | backend/handler/database/collections_handler.py:45 | the sort orders by the key |
| Sorting.SortBy | backend/handler/database/collections_handler.py:45 | the sort is a permutation |
| Sorting.StrLeTrans | backend/handler/database/collections_handler.py:45 | code-point order is transitive |
| Sorting.StrLeTotal | backend/handler/database/collections_handler.py:45 | code-point order is total |
| Sorting.StrLeAntisymmetric | backend/handler/database/collections_handler.py:45 | code-point order is antisymmetric |
| Sorting.Take | backend/handler/database/collections_handler.py:58 | the first `limit` rows (all when there are fewer), all rows without a limit |
| ScanStatsModel.Bump | backend/endpoints/sockets/tests/test_scan.py:17-24 | one counter gets one more; every other counter is unchanged |
| ScanStatsModel.Plus | backend/endpoints/sockets/tests/test_scan.py:59-68 | each counter is the sum of the two |
| ScanStatsModel.PlusLaws | backend/endpoints/sockets/tests/test_scan.py:59-68 | merging is commutative and associative, with the zero stats as identity |
| ScanStatsModel.BumpIsPlusOne | backend/endpoints/sockets/tests/test_scan.py:17-68 | one increment is a merge with stats holding 1 in that counter |
| ScanStatsModel.ScanStats.constructor | backend/endpoints/sockets/tests/test_scan.py:7-15 | all eight counters are 0 |
| ScanStatsModel.ScanStats.WithCounts | backend/endpoints/sockets/tests/test_scan.py:37-57 | the counters given |
| ScanStatsModel.ScanStats.Increment | backend/endpoints/sockets/tests/test_scan.py:17-24 | the new counters are `Bump` of the old |
| ScanStatsModel.ScanStats.AddAssign | backend/endpoints/sockets/tests/test_scan.py:59-72 | field-wise sum with the other stats; a non-stats operand raises `NotImplementedError` with nothing changed |
| ScanStatsModel.IncrementScenario | backend/endpoints/sockets/tests/test_scan.py:6-33 | new stats are zero; the eight increments make every counter 1 |
| ScanStatsModel.MergeScenario | backend/endpoints/sockets/tests/test_scan.py:36-72 | the merge gives 11, 13, …, 25; a dict operand raises |

## Left out

- The tool process of `calculate_hash` is a parameter. Starting it, waiting, reading the pipes and decoding UTF-8 are not modelled. The debug log line is left out as well.
- The MobyGames HTTP layer is not modelled: `_request`, retries, the 429 wait and building the URL with `yarl`/`quote`. The search it performs is an uninterpreted function from term and platform to the listed games. `unidecode` is also uninterpreted.
- `_normalize_exact_match` is an uninterpreted function, because it depends on Unicode NFD decomposition and a regular-expression engine.
- `get_file_name_with_no_tags` belongs to the filesystem handler, which is not part of this model. It is an uninterpreted function.
- The Redis-backed indexes are lookups passed in as functions: PS2 OPL, PS1/PS2/PSP serials, Switch title ids and product ids, and MAME. `conditionally_set_cache` and the fixture loading are not modelled.
- `get_rom_by_id`, `get_matched_rom_by_id` and `get_matched_roms_by_name` are not modelled. They are not part of the core modelled here.
- `MOBY_API_ENABLED` depends on the configured API key. It is a boolean field of the services record.
- `moby_score` is copied as text. The game's value is taken to be a string already, so turning a float into a string is not modelled.
- `str.lower()` is modelled for ASCII letters only. `\d` in the file-name patterns matches ASCII digits only, and the case-insensitive letters of the Sony pattern are ASCII only.
- MetadataBase.MaskValue: the docstring of `_mask_sensitive_values` says three characters are kept at each end. The code keeps two, and the model follows the code.
- `genesis` (1) and `megadrive` (16) are different ids in the RetroAchievements table, and the model keeps them apart.
- CollectionModel.FromId: only JSON objects whose members all have string values are read. That is the only kind of text `VirtualCollection.id` writes.
  - A JSON document of any other shape is reported as `InvalidJson`. Python would either return other values or raise `TypeError`/`KeyError` later.
  - The error kinds are coarse: a Base64 error, a UTF-8 error, a JSON error or a missing key.
- JsonText.ParseUnicodeEscape: a `\u` escape of a lone surrogate is rejected (`LoneSurrogate`), because a Dafny `char` cannot hold a surrogate. CPython's `json.loads` keeps such an escape as a one-character string, in particular a high surrogate followed by a `\u` escape that is not a low surrogate. `CollectionModel.FromId` therefore rejects an id whose JSON text holds such an escape, which `from_id` accepts. `VirtualCollection.id` never writes one.
- MetadataBase.MameEntry: a MAME index entry whose `description` is JSON `null` is not modelled. The source would pass `None` to `get_file_name_with_no_tags`. A missing description falls back to the term, as in the source.
- JsonText: the writer follows `json.dumps` with `ensure_ascii=True`. The reader covers strings, escapes, whitespace, commas and braces. Numbers, arrays, nested objects, `true`, `false` and `null` are not read.
- Sorting: `ORDER BY name ASC` is code-point order. The database's collation is configuration and is not part of this model. The order of rows with equal names is not fixed by SQL. The model's sort puts them in one particular order, and its contracts promise nothing about that order.
- The `updated_at` column is kept by an update. `models/base.py`, which may set it on update, is not part of this model, so `CollectionsDb.Apply` leaves it unchanged.
- `FRONTEND_RESOURCES_PATH` comes from the configuration, which is not part of this model. It is a parameter.
- Sorting.Take: the limit is a natural number or absent. A negative `limit` is not modelled.
- `begin_session` is not part of this model. A failing `update_collection` is modelled as an update that changes nothing. This covers a failing `.one()` and an insert that breaks the `collection_id` foreign key, and it assumes the decorator rolls back.
  - Data keys other than the columns, and an `id` inside the data, are not modelled.
  - Foreign keys to `users` and `roms` are not checked.
- The cascade from `collections` to `collections_roms` (collection.py:99-101) is modelled in `DeleteCollection`. The cascades from `roms` and `users` are not modelled.
- `user__username` and the `user` relationship are not modelled.
  - The `roms` relationship is a set. Its order is taken as the order in which it is given.
  - `add_collection`, `get_collection`, `get_virtual_collection` and `get_collection_by_name` are not part of the core modelled here.
- `scan.py` is not part of this model. `ScanStats` is modelled from its tests: eight integer counters and the in-place `+=`. Other members of that class are not modelled.
