/**
 * The MobyGames platform table: the platform slugs used across the
 * application, each with its MobyGames platform id, display name and
 * MobyGames URL slug, the reverse map from id to slug, and `get_platform`.
 */
module MobyPlatforms {
  import opened Wrappers

  /** One `SLUG_TO_MOBY_PLATFORM` entry. */
  datatype Platform = Platform(slug: string, id: int, name: string, mobySlug: string)

  // The table, in source order, split in parts of eighteen entries joined as a balanced
  // tree of blocks, so that a fact about one entry only has to look at the
  // blocks on its way to the root.

  /** Entries 0-17 (counted from 0). */
  const Part00: seq<Platform> := [
    Platform("1292apvs", 253, "1292 Advanced Programmable Video System", "1292-advanced-programmable-video-system"),
    Platform("3do", 35, "3DO", "3do"),
    Platform("abc80", 318, "ABC 80", "abc-80"),
    Platform("apf", 213, "APF MP1000/Imagination Machine", "apf"),
    Platform("acornarchimedes", 117, "Acorn Archimedes", "acornarchimedes"),
    Platform("advision", 210, "Adventure Vision", "adventure-vision"),
    Platform("airconsole", 305, "AirConsole", "airconsole"),
    Platform("alice3290", 194, "Alice 32/90", "alice-3290"),
    Platform("altair680", 265, "Altair 680", "altair-680"),
    Platform("altair8800", 222, "Altair 8800", "altair-8800"),
    Platform("amazonalexa", 237, "Amazon Alexa", "amazonalexa"),
    Platform("amiga", 19, "Amiga", "amiga"),
    Platform("amigacd32", 56, "Amiga CD32", "amiga-cd32"),
    Platform("amstradcpc", 60, "Amstrad CPC", "amstradcpc"),
    Platform("amstradpcw", 136, "Amstrad PCW", "amstrad-pcw"),
    Platform("android", 91, "Android", "android"),
    Platform("antstream", 286, "Antstream", "antstream"),
    Platform("apple", 245, "Apple I", "apple-i")
  ]

  /** Entries 18-35 (counted from 0). */
  const Part01: seq<Platform> := [
    Platform("apple2", 31, "Apple II", "apple2"),
    Platform("apple2gs", 51, "Apple IIGS", "apple2gs"),
    Platform("arcade", 143, "Arcade", "arcade"),
    Platform("arcadia", 162, "Arcadia 2001", "arcadia-2001"),
    Platform("arduboy", 215, "Arduboy", "arduboy"),
    Platform("astral2000", 241, "Astral 2000", "astral-2000"),
    Platform("atari2600", 28, "Atari 2600", "atari-2600"),
    Platform("atari5200", 33, "Atari 5200", "atari-5200"),
    Platform("atari7800", 34, "Atari 7800", "atari-7800"),
    Platform("atari8bit", 39, "Atari 8-bit", "atari8bit"),
    Platform("atarist", 24, "Atari ST", "atari-st"),
    Platform("atarivcs", 319, "Atari VCS", "atari-vcs"),
    Platform("atom", 129, "Atom", "atom"),
    Platform("bbcmicro", 92, "BBC Micro", "bbc-micro"),
    Platform("brew", 63, "BREW", "brew"),
    Platform("astrocade", 160, "Bally Astrocade", "bally-astrocade"),
    Platform("beos", 165, "BeOS", "beos"),
    Platform("blackberry", 90, "BlackBerry", "blackberry")
  ]

  /** Entries 36-53 (counted from 0). */
  const Part02: seq<Platform> := [
    Platform("blacknut", 290, "Blacknut", "blacknut"),
    Platform("bluray", 168, "Blu-ray Player", "blu-ray-disc-player"),
    Platform("browser", 84, "Browser", "browser"),
    Platform("bubble", 231, "Bubble", "bubble"),
    Platform("cdi", 73, "CD-i", "cd-i"),
    Platform("cdtv", 83, "CDTV", "cdtv"),
    Platform("cosmac", 216, "COSMAC", "fred-cosmac"),
    Platform("camplynx", 154, "Camputers Lynx", "camputers-lynx"),
    Platform("cpm", 261, "CP/M", "cpm"),
    Platform("loopy", 124, "Casio Loopy", "casio-loopy"),
    Platform("pv1000", 125, "Casio PV-1000", "casio-pv-1000"),
    Platform("casiopc", 306, "Casio Programmable Calculator", "casio-programmable-calculator"),
    Platform("champion2711", 298, "Champion 2711", "champion-2711"),
    Platform("channelf", 76, "Channel F", "channel-f"),
    Platform("clickstart", 188, "ClickStart", "clickstart"),
    Platform("colecoadam", 156, "Coleco Adam", "colecoadam"),
    Platform("colecovision", 29, "ColecoVision", "colecovision"),
    Platform("colourgenie", 197, "Colour Genie", "colour-genie")
  ]

  /** Entries 54-71 (counted from 0). */
  const Part03: seq<Platform> := [
    Platform("c128", 61, "Commodore 128", "c128"),
    Platform("c16plus4", 115, "Commodore 16, Plus/4", "commodore-16-plus4"),
    Platform("cplus4", 115, "Commodore Plus/4", "c-plus-4"),
    Platform("c16", 115, "Commodore 16", "c16"),
    Platform("c64", 27, "Commodore 64", "c64"),
    Platform("pet", 77, "Commodore PET/CBM", "pet"),
    Platform("cpet", 77, "Commodore PET/CBM", "cpet"),
    Platform("compucolor", 243, "Compucolor I", "compucolor-i"),
    Platform("compucolor2", 198, "Compucolor II", "compucolor-ii"),
    Platform("compucorppc", 238, "Compucorp Programmable Calculator", "compucorp-programmable-calculator"),
    Platform("creativision", 212, "CreatiVision", "creativision"),
    Platform("cybervision", 301, "Cybervision", "cybervision"),
    Platform("dos", 2, "DOS", "dos"),
    Platform("dvd", 166, "DVD Player", "dvd-player"),
    Platform("dangeros", 285, "Danger OS", "danger-os"),
    Platform("dedicatedconsole", 204, "Dedicated console", "dedicated-console"),
    Platform("dedicatedhandheld", 205, "Dedicated handheld", "dedicated-handheld"),
    Platform("didj", 184, "Didj", "didj")
  ]

  /** Entries 72-89 (counted from 0). */
  const Part04: seq<Platform> := [
    Platform("doja", 72, "DoJa", "doja"),
    Platform("dragon32", 79, "Dragon 32/64", "dragon-3264"),
    Platform("dreamcast", 8, "Dreamcast", "dreamcast"),
    Platform("micromind", 269, "ECD Micromind", "ecd-micromind"),
    Platform("acornelectron", 93, "Electron", "electron"),
    Platform("enterprise", 161, "Enterprise", "enterprise"),
    Platform("ecv", 137, "Epoch Cassette Vision", "epoch-cassette-vision"),
    Platform("egpc", 139, "Epoch Game Pocket Computer", "epoch-game-pocket-computer"),
    Platform("scv", 138, "Epoch Super Cassette Vision", "epoch-super-cassette-vision"),
    Platform("evercade", 284, "Evercade", "evercade"),
    Platform("exen", 70, "ExEn", "exen"),
    Platform("exelvision", 195, "Exelvision", "exelvision"),
    Platform("exidysorcerer", 176, "Exidy Sorcerer", "exidy-sorcerer"),
    Platform("fmtowns", 102, "FM Towns", "fmtowns"),
    Platform("fm7", 126, "FM-7", "fm-7"),
    Platform("mobile", 315, "Feature phone", "mobile-custom"),
    Platform("fireos", 159, "Fire OS", "fire-os"),
    Platform("amazonfiretv", 159, "Fire TV", "amazonfiretv")
  ]

  /** Entries 90-107 (counted from 0). */
  const Part05: seq<Platform> := [
    Platform("freebox", 268, "Freebox", "freebox"),
    Platform("gameandwatch", 205, "Dedicated handheld", "g-and-w"),
    Platform("gcluster", 302, "G-cluster", "g-cluster"),
    Platform("gimini", 251, "GIMINI", "gimini"),
    Platform("gnex", 258, "GNEX", "gnex"),
    Platform("gp2x", 122, "GP2X", "gp2x"),
    Platform("gp2xwiz", 123, "GP2X Wiz", "gp2x-wiz"),
    Platform("gp32", 108, "GP32", "gp32"),
    Platform("gvm", 257, "GVM", "gvm"),
    Platform("galaksija", 236, "Galaksija", "galaksija"),
    Platform("gb", 10, "Game Boy", "gameboy"),
    Platform("gba", 12, "Game Boy Advance", "gameboy-advance"),
    Platform("gbc", 11, "Game Boy Color", "gameboy-color"),
    Platform("gamegear", 25, "Game Gear", "game-gear"),
    Platform("gamewave", 104, "Game Wave", "game-wave"),
    Platform("gamecom", 50, "Game.Com", "game-com"),
    Platform("ngc", 14, "GameCube", "gamecube"),
    Platform("gamestick", 155, "GameStick", "gamestick")
  ]

  /** Entries 108-125 (counted from 0). */
  const Part06: seq<Platform> := [
    Platform("megadrive", 16, "Genesis/Mega Drive", "genesis"),
    Platform("gizmondo", 55, "Gizmondo", "gizmondo"),
    Platform("gloud", 292, "Gloud", "gloud"),
    Platform("glulx", 172, "Glulx", "glulx"),
    Platform("hddvd", 167, "HD DVD Player", "hd-dvd-player"),
    Platform("hp9800", 219, "HP 9800", "hp-9800"),
    Platform("hppc", 234, "HP Programmable Calculator", "hp-programmable-calculator"),
    Platform("heathzenith", 262, "Heath/Zenith H8/H89", "heathzenith"),
    Platform("heathkith11", 248, "Heathkit H11", "heathkit-h11"),
    Platform("hitachis1", 274, "Hitachi S1", "hitachi-s1"),
    Platform("hugo", 170, "Hugo", "hugo"),
    Platform("hyperscan", 192, "HyperScan", "hyperscan"),
    Platform("ibm5100", 250, "IBM 5100", "ibm-5100"),
    Platform("idealcomputer", 252, "Ideal-Computer", "ideal-computer"),
    Platform("intel8008", 224, "Intel 8008", "intel-8008"),
    Platform("intel8080", 225, "Intel 8080", "intel-8080"),
    Platform("intel8086", 317, "Intel 8086 / 8088", "intel-8086"),
    Platform("intellivision", 30, "Intellivision", "intellivision")
  ]

  /** Entries 126-143 (counted from 0). */
  const Part07: seq<Platform> := [
    Platform("interactm1", 295, "Interact Model One", "interact-model-one"),
    Platform("intertonv2000", 221, "Interton Video 2000", "interton-video-2000"),
    Platform("j2me", 64, "J2ME", "j2me"),
    Platform("jaguar", 17, "Jaguar", "jaguar"),
    Platform("jolt", 247, "Jolt", "jolt"),
    Platform("jupiterace", 153, "Jupiter Ace", "jupiter-ace"),
    Platform("kim1", 226, "KIM-1", "kim-1"),
    Platform("kaios", 313, "KaiOS", "kaios"),
    Platform("kindle", 145, "Kindle Classic", "kindle"),
    Platform("laser200", 264, "Laser 200", "laser200"),
    Platform("laseractive", 163, "LaserActive", "laseractive"),
    Platform("leapster", 183, "Leapster", "leapster"),
    Platform("leapsterexplorer", 185, "LeapFrog Explorer", "leapfrog-explorer"),
    Platform("leaptv", 186, "LeapTV", "leaptv"),
    Platform("linux", 1, "Linux", "linux"),
    Platform("luna", 297, "Luna", "luna"),
    Platform("lynx", 18, "Lynx", "lynx"),
    Platform("mos6502", 240, "MOS Technology 6502", "mos-technology-6502")
  ]

  /** Entries 144-161 (counted from 0). */
  const Part08: seq<Platform> := [
    Platform("mre", 229, "MRE", "mre"),
    Platform("msx", 57, "MSX", "msx"),
    Platform("mac", 74, "Macintosh", "macintosh"),
    Platform("maemo", 157, "Maemo", "maemo"),
    Platform("mainframe", 208, "Mainframe", "mainframe"),
    Platform("matsushitapanasonicjr", 307, "Matsushita/Panasonic JR", "matsushitapanasonic-jr"),
    Platform("aquarius", 135, "Mattel Aquarius", "mattel-aquarius"),
    Platform("meego", 158, "MeeGo", "meego"),
    Platform("memotechmtx", 148, "Memotech MTX", "memotech-mtx"),
    Platform("meritum", 311, "Meritum", "meritum"),
    Platform("microbee", 200, "Microbee", "microbee"),
    Platform("microtan65", 232, "Microtan 65", "microtan-65"),
    Platform("microvision", 97, "Microvision", "microvision"),
    Platform("mophun", 71, "Mophun", "mophun"),
    Platform("motorola6800", 235, "Motorola 6800", "motorola-6800"),
    Platform("motorola68k", 275, "Motorola 68k", "motorola-68k"),
    Platform("ngage", 32, "N-Gage", "ngage"),
    Platform("ngage2", 89, "N-Gage (service)", "ngage2")
  ]

  /** Entries 162-179 (counted from 0). */
  const Part09: seq<Platform> := [
    Platform("nes", 22, "NES", "nes"),
    Platform("famicom", 22, "NES", "famicom"),
    Platform("nascom", 175, "Nascom", "nascom"),
    Platform("neogeoaes", 36, "Neo Geo", "neo-geo"),
    Platform("neogeomvs", 36, "Neo Geo", "neo-geo"),
    Platform("neogeocd", 54, "Neo Geo CD", "neo-geo-cd"),
    Platform("ngp", 52, "Neo Geo Pocket", "neo-geo-pocket"),
    Platform("ngpc", 53, "Neo Geo Pocket Color", "neo-geo-pocket-color"),
    Platform("neogeox", 279, "Neo Geo X", "neo-geo-x"),
    Platform("new3ds", 174, "New Nintendo 3DS", "new-nintendo-3ds"),
    Platform("newbrain", 177, "NewBrain", "newbrain"),
    Platform("newton", 207, "Newton", "newton"),
    Platform("3ds", 101, "Nintendo 3DS", "3ds"),
    Platform("n64", 9, "Nintendo 64", "n64"),
    Platform("nds", 44, "Nintendo DS", "nintendo-ds"),
    Platform("dsi", 87, "Nintendo DSi", "nintendo-dsi"),
    Platform("switch", 203, "Nintendo Switch", "switch"),
    Platform("northstar", 266, "North Star", "northstar")
  ]

  /** Entries 180-197 (counted from 0). */
  const Part10: seq<Platform> := [
    Platform("noval760", 244, "Noval 760", "noval-760"),
    Platform("nuon", 116, "Nuon", "nuon"),
    Platform("ooparts", 300, "OOParts", "ooparts"),
    Platform("os2", 146, "OS/2", "os2"),
    Platform("oculusgo", 218, "Oculus Go", "oculus-go"),
    Platform("oculusquest", 271, "Quest", "oculus-quest"),
    Platform("odyssey", 75, "Odyssey", "odyssey"),
    Platform("odyssey2", 78, "Odyssey 2", "odyssey-2"),
    Platform("ohiosci", 178, "Ohio Scientific", "ohio-scientific"),
    Platform("onlive", 282, "OnLive", "onlive"),
    Platform("orao", 270, "Orao", "orao"),
    Platform("oric", 111, "Oric", "oric"),
    Platform("ouya", 144, "Ouya", "ouya"),
    Platform("pcbooter", 4, "PC Booter", "pc-booter"),
    Platform("pc60", 149, "PC-6001", "pc-6001"),
    Platform("pc8000", 201, "PC-8000", "pc-8000"),
    Platform("pc88", 94, "PC-88", "pc88"),
    Platform("pc98", 95, "PC-98", "pc98")
  ]

  /** Entries 198-215 (counted from 0). */
  const Part11: seq<Platform> := [
    Platform("pcfx", 59, "PC-FX", "pc-fx"),
    Platform("psvita", 105, "PS Vita", "ps-vita"),
    Platform("psp", 46, "PSP", "psp"),
    Platform("palmos", 65, "Palm OS", "palmos"),
    Platform("pandora", 308, "Pandora", "pandora"),
    Platform("pebble", 304, "Pebble", "pebble"),
    Platform("vg5000", 133, "Philips VG 5000", "philips-vg-5000"),
    Platform("photocd", 272, "Photo CD", "photocd"),
    Platform("pippin", 112, "Pippin", "pippin"),
    Platform("psx", 6, "PlayStation", "playstation"),
    Platform("ps2", 7, "PlayStation 2", "ps2"),
    Platform("ps3", 81, "PlayStation 3", "ps3"),
    Platform("ps4", 141, "PlayStation 4", "playstation-4"),
    Platform("ps5", 288, "PlayStation 5", "playstation-5"),
    Platform("psnow", 294, "PlayStation Now", "playstation-now"),
    Platform("playdate", 303, "Playdate", "playdate"),
    Platform("playdia", 107, "Playdia", "playdia"),
    Platform("plexarcade", 291, "Plex Arcade", "plex-arcade")
  ]

  /** Entries 216-233 (counted from 0). */
  const Part12: seq<Platform> := [
    Platform("pokitto", 230, "Pokitto", "pokitto"),
    Platform("pokemini", 152, "Pok\U{00E9}mon Mini", "pokemon-mini"),
    Platform("poly88", 249, "Poly-88", "poly-88"),
    Platform("rcastudio2", 113, "RCA Studio II", "rca-studio-ii"),
    Platform("rm380z", 309, "Research Machines 380Z", "research-machines-380z"),
    Platform("roku", 196, "Roku", "roku"),
    Platform("samcoupe", 120, "SAM Coup\U{00E9}", "sam-coupe"),
    Platform("scmp", 255, "SC/MP", "scmp"),
    Platform("sd200", 267, "SD-200/270/290", "sd-200270290"),
    Platform("sega32x", 21, "SEGA 32X", "sega-32x"),
    Platform("segacd", 20, "SEGA CD", "sega-cd"),
    Platform("sms", 26, "SEGA Master System", "sega-master-system"),
    Platform("pico", 103, "SEGA Pico", "sega-pico"),
    Platform("saturn", 23, "SEGA Saturn", "sega-saturn"),
    Platform("sg1000", 114, "SG-1000", "sg-1000"),
    Platform("skvm", 259, "SK-VM", "sk-vm"),
    Platform("smc777", 273, "SMC-777", "smc-777"),
    Platform("snes", 15, "SNES", "snes")
  ]

  /** Entries 234-251 (counted from 0). */
  const Part13: seq<Platform> := [
    Platform("sfam", 15, "SNES", "sfam"),
    Platform("sri500", 242, "SRI-500/1000", "sri-5001000"),
    Platform("swtpc6800", 228, "SWTPC 6800", "swtpc-6800"),
    Platform("x1", 121, "Sharp X1", "sharp-x1"),
    Platform("x68000", 106, "Sharp X68000", "sharp-x68000"),
    Platform("zaurus", 202, "Sharp Zaurus", "sharp-zaurus"),
    Platform("signetics2650", 278, "Signetics 2650", "signetics-2650"),
    Platform("sinclairql", 131, "Sinclair QL", "sinclair-ql"),
    Platform("socrates", 190, "Socrates", "socrates"),
    Platform("sol20", 199, "Sol-20", "sol-20"),
    Platform("sordm5", 134, "Sord M5", "sord-m5"),
    Platform("spectravideo", 85, "Spectravideo", "spectravideo"),
    Platform("stadia", 281, "Stadia", "stadia"),
    Platform("superacan", 110, "Super A'can", "super-acan"),
    Platform("supervision8000", 296, "Super Vision 8000", "super-vision-8000"),
    Platform("supergrafx", 127, "SuperGrafx", "supergrafx"),
    Platform("supervision", 109, "Supervision", "supervision"),
    Platform("sureshothd", 287, "Sure Shot HD", "sure-shot-hd")
  ]

  /** Entries 252-269 (counted from 0). */
  const Part14: seq<Platform> := [
    Platform("symbian", 67, "Symbian", "symbian"),
    Platform("tads", 171, "TADS", "tads"),
    Platform("tipc", 239, "TI Programmable Calculator", "ti-programmable-calculator"),
    Platform("ti99", 47, "TI-99/4A", "ti-99"),
    Platform("tim", 246, "TIM", "tim"),
    Platform("trs80", 58, "TRS-80", "trs-80"),
    Platform("coco", 62, "TRS-80 Color Computer", "trs-80-coco"),
    Platform("trs80mc10", 193, "TRS-80 MC-10", "trs-80-mc-10"),
    Platform("trs80model100", 312, "TRS-80 Model 100", "trs-80-model-100"),
    Platform("x55", 283, "Taito X-55", "taito-x-55"),
    Platform("tatungeinstein", 150, "Tatung Einstein", "tatung-einstein"),
    Platform("tektronix4050", 223, "Tektronix 4050", "tektronix-4050"),
    Platform("telespiel", 220, "Tele-Spiel ES-2201", "tele-spiel"),
    Platform("telstar-arcade", 233, "Telstar Arcade", "telstar-arcade"),
    Platform("terminal", 209, "Terminal", "terminal"),
    Platform("thomsonmo", 147, "Thomson MO", "thomson-mo"),
    Platform("thomsonto", 130, "Thomson TO", "thomson-to"),
    Platform("tiki100", 263, "Tiki 100", "tiki-100")
  ]

  /** Entries 270-287 (counted from 0). */
  const Part15: seq<Platform> := [
    Platform("timex2068", 173, "Timex Sinclair 2068", "timex-sinclair-2068"),
    Platform("tizen", 206, "Tizen", "tizen"),
    Platform("tomahawk-f1", 256, "Tomahawk F1", "tomahawk-f1"),
    Platform("tutor", 151, "Tomy Tutor", "tomy-tutor"),
    Platform("triton", 310, "Triton", "triton"),
    Platform("pcenginecd", 45, "TurboGrafx CD", "turbografx-cd"),
    Platform("pcengine", 40, "TurboGrafx-16", "turbo-grafx"),
    Platform("vflash", 189, "V.Flash", "vflash"),
    Platform("vsmile", 42, "V.Smile", "vsmile"),
    Platform("c20", 43, "VIC-20", "vic-20"),
    Platform("vis", 164, "VIS", "vis"),
    Platform("vectrex", 37, "Vectrex", "vectrex"),
    Platform("versatile", 299, "Versatile", "versatile"),
    Platform("videobrain", 214, "VideoBrain", "videobrain"),
    Platform("videopacplus", 128, "Videopac+ G7400", "videopac-g7400"),
    Platform("virtualboy", 38, "Virtual Boy", "virtual-boy"),
    Platform("wipi", 260, "WIPI", "wipi"),
    Platform("wang2200", 217, "Wang 2200", "wang2200")
  ]

  /** Entries 288-305 (counted from 0). */
  const Part16: seq<Platform> := [
    Platform("wii", 82, "Wii", "wii"),
    Platform("wiiu", 132, "Wii U", "wii-u"),
    Platform("win", 3, "Windows", "windows"),
    Platform("win3x", 5, "Windows 3.x", "win3x"),
    Platform("windowsapps", 140, "Windows Apps", "windows-apps"),
    Platform("windowsmobile", 66, "Windows Mobile", "windowsmobile"),
    Platform("winphone", 98, "Windows Phone", "windows-phone"),
    Platform("wswan", 48, "WonderSwan", "wonderswan"),
    Platform("wswanc", 49, "WonderSwan Color", "wonderswan-color"),
    Platform("xavixport", 191, "XaviXPORT", "xavixport"),
    Platform("xbox", 13, "Xbox", "xbox"),
    Platform("xbox360", 69, "Xbox 360", "xbox360"),
    Platform("xboxcloudgaming", 293, "Xbox Cloud Gaming", "xboxcloudgaming"),
    Platform("xboxone", 142, "Xbox One", "xbox-one"),
    Platform("seriesxs", 289, "Xbox Series", "xbox-series"),
    Platform("xerox-alto", 254, "Xerox Alto", "xerox-alto"),
    Platform("zmachine", 169, "Z-machine", "z-machine"),
    Platform("zxs", 41, "ZX Spectrum", "zx-spectrum")
  ]

  /** Entries 306-323 (counted from 0). */
  const Part17: seq<Platform> := [
    Platform("zxsnext", 280, "ZX Spectrum Next", "zx-spectrum-next"),
    Platform("zx80", 118, "ZX80", "zx80"),
    Platform("zx81", 119, "ZX81", "zx81"),
    Platform("zeebo", 88, "Zeebo", "zeebo"),
    Platform("z80", 227, "Zilog Z80", "z80"),
    Platform("z8000", 276, "Zilog Z8000", "zilog-z8000"),
    Platform("zodiac", 68, "Zodiac", "zodiac"),
    Platform("zune", 211, "Zune", "zune"),
    Platform("bada", 99, "bada", "bada"),
    Platform("digiblast", 187, "digiBlast", "digiblast"),
    Platform("ipad", 96, "iPad", "ipad"),
    Platform("iphone", 86, "iPhone", "iphone"),
    Platform("ios", 86, "iOS", "ios"),
    Platform("ipod", 80, "iPod Classic", "ipod-classic"),
    Platform("iircade", 314, "iiRcade", "iircade"),
    Platform("tvos", 179, "tvOS", "tvos"),
    Platform("watchos", 180, "watchOS", "watchos"),
    Platform("webos", 100, "webOS", "webos")
  ]


  /** Parts 00 to 01. */
  const Block00to01: seq<Platform> := Part00 + Part01

  /** Parts 03 to 04. */
  const Block03to04: seq<Platform> := Part03 + Part04

  /** Parts 05 to 06. */
  const Block05to06: seq<Platform> := Part05 + Part06

  /** Parts 07 to 08. */
  const Block07to08: seq<Platform> := Part07 + Part08

  /** Parts 09 to 10. */
  const Block09to10: seq<Platform> := Part09 + Part10

  /** Parts 12 to 13. */
  const Block12to13: seq<Platform> := Part12 + Part13

  /** Parts 14 to 15. */
  const Block14to15: seq<Platform> := Part14 + Part15

  /** Parts 16 to 17. */
  const Block16to17: seq<Platform> := Part16 + Part17

  /** Parts 00 to 02. */
  const Block00to02: seq<Platform> := Block00to01 + Part02

  /** Parts 09 to 11. */
  const Block09to11: seq<Platform> := Block09to10 + Part11

  /** Parts 05 to 08. */
  const Block05to08: seq<Platform> := Block05to06 + Block07to08

  /** Parts 14 to 17. */
  const Block14to17: seq<Platform> := Block14to15 + Block16to17

  /** Parts 00 to 04. */
  const Block00to04: seq<Platform> := Block00to02 + Block03to04

  /** Parts 09 to 13. */
  const Block09to13: seq<Platform> := Block09to11 + Block12to13

  /** Parts 00 to 08. */
  const Block00to08: seq<Platform> := Block00to04 + Block05to08

  /** Parts 09 to 17. */
  const Block09to17: seq<Platform> := Block09to13 + Block14to17

  /** Parts 00 to 17. */
  const Block00to17: seq<Platform> := Block00to08 + Block09to17

  /** The entries of `SLUG_TO_MOBY_PLATFORM` in source order. */
  const Platforms: seq<Platform> := Block00to17
  /** The slugs of a run of entries. */
  function Slugs(s: seq<Platform>): set<string> {
    set i | 0 <= i < |s| :: s[i].slug
  }

  /** The MobyGames ids of a run of entries. */
  function Ids(s: seq<Platform>): set<int> {
    set i | 0 <= i < |s| :: s[i].id
  }

  /** Slug to entry, as a dict display builds it: a later entry with the same slug replaces an earlier one. */
  function SlugMap(s: seq<Platform>): map<string, Platform> {
    if s == [] then map[] else map[s[0].slug := s[0]] + SlugMap(s[1..])
  }

  /** `{v["id"]: k for k, v in table.items()}`: id to slug, a later entry with the same id replacing an earlier one. */
  function ReverseMap(s: seq<Platform>): map<int, string> {
    if s == [] then map[] else map[s[0].id := s[0].slug] + ReverseMap(s[1..])
  }

  /** Dropping the first entry of a run. */
  lemma SlugsIdsTail(s: seq<Platform>)
    requires s != []
    ensures Slugs(s) == {s[0].slug} + Slugs(s[1..])
    ensures Ids(s) == {s[0].id} + Ids(s[1..])
  {
    assert forall i | 1 <= i < |s| :: s[i] == s[1..][i - 1];
    assert forall i | 0 <= i < |s| - 1 :: s[1..][i] == s[i + 1];
  }

  /** The slug map has exactly the slugs of the run as keys. */
  lemma {:induction false} SlugMapKeys(s: seq<Platform>)
    ensures SlugMap(s).Keys == Slugs(s)
  {
    if s != [] {
      SlugMapKeys(s[1..]);
      SlugsIdsTail(s);
    }
  }

  /** The reverse map has exactly the ids of the run as keys. */
  lemma {:induction false} ReverseKeys(s: seq<Platform>)
    ensures ReverseMap(s).Keys == Ids(s)
  {
    if s != [] {
      ReverseKeys(s[1..]);
      SlugsIdsTail(s);
    }
  }

  /** Every slug maps to its last entry in the run. */
  lemma {:induction false} SlugMapLast(s: seq<Platform>, slug: string)
    requires slug in SlugMap(s)
    ensures exists i | 0 <= i < |s| ::
      s[i] == SlugMap(s)[slug] && s[i].slug == slug && forall j | i < j < |s| :: s[j].slug != slug
  {
    var t := s[1..];
    if slug in SlugMap(t) {
      SlugMapLast(t, slug);
      var i :| 0 <= i < |t| && t[i] == SlugMap(t)[slug] && t[i].slug == slug && forall j | i < j < |t| :: t[j].slug != slug;
      assert s[i + 1] == t[i];
      assert forall j | i + 1 < j < |s| :: s[j] == t[j - 1];
    } else {
      SlugMapKeys(t);
      assert forall j | 0 < j < |s| :: s[j] == t[j - 1];
    }
  }

  /** Every id maps to the slug of its last entry in the run. */
  lemma {:induction false} ReverseLast(s: seq<Platform>, id: int)
    requires id in ReverseMap(s)
    ensures exists i | 0 <= i < |s| ::
      s[i].id == id && s[i].slug == ReverseMap(s)[id] && forall j | i < j < |s| :: s[j].id != id
  {
    var t := s[1..];
    if id in ReverseMap(t) {
      ReverseLast(t, id);
      var i :| 0 <= i < |t| && t[i].id == id && t[i].slug == ReverseMap(t)[id] && forall j | i < j < |t| :: t[j].id != id;
      assert s[i + 1] == t[i];
      assert forall j | i + 1 < j < |s| :: s[j] == t[j - 1];
    } else {
      ReverseKeys(t);
      assert forall j | 0 < j < |s| :: s[j] == t[j - 1];
    }
  }

  /** An entry that no later entry shares its id with decides the reverse map's value for that id. */
  lemma ReverseLastWins(s: seq<Platform>, i: nat)
    requires i < |s| && forall j | i < j < |s| :: s[j].id != s[i].id
    ensures s[i].id in ReverseMap(s) && ReverseMap(s)[s[i].id] == s[i].slug
  {
    ReverseKeys(s);
    assert s[i].id in Ids(s);
    ReverseLast(s, s[i].id);
  }

  /** The reverse map of two runs is the first's overridden by the second's. */
  lemma {:induction false} ReverseConcat(a: seq<Platform>, b: seq<Platform>)
    ensures ReverseMap(a + b) == ReverseMap(a) + ReverseMap(b)
  {
    if a == [] {
      assert a + b == b;
    } else {
      assert (a + b)[0] == a[0] && (a + b)[1..] == a[1..] + b;
      ReverseConcat(a[1..], b);
      MapUnionAssoc(map[a[0].id := a[0].slug], ReverseMap(a[1..]), ReverseMap(b));
    }
  }

  lemma MapUnionAssoc<K, V>(x: map<K, V>, y: map<K, V>, z: map<K, V>)
    ensures (x + y) + z == x + (y + z)
  {
  }

  /** `SLUG_TO_MOBY_PLATFORM`. */
  const SlugTable: map<string, Platform> := SlugMap(Platforms)

  /** `MOBY_ID_TO_MOBY_PLATFORM`. */
  const MobyIdToSlug: map<int, string> := ReverseMap(Platforms)

  /** The reverse map's keys are exactly the ids in the table, and each maps to the slug of an entry with that id. */
  lemma ReverseMapSound()
    ensures MobyIdToSlug.Keys == Ids(Platforms)
    ensures forall id | id in MobyIdToSlug :: exists i | 0 <= i < |Platforms| ::
      Platforms[i].id == id && Platforms[i].slug == MobyIdToSlug[id]
  {
    ReverseKeys(Platforms);
    forall id | id in MobyIdToSlug
      ensures exists i | 0 <= i < |Platforms| :: Platforms[i].id == id && Platforms[i].slug == MobyIdToSlug[id]
    {
      ReverseLast(Platforms, id);
    }
  }

  /** What `get_platform` returns: the slug, and the id and name when the slug is in the table. */
  datatype MobyGamesPlatform = MobyGamesPlatform(slug: string, mobyId: Option<int>, name: Option<string>)

  /** A slug is a key of the slug map exactly when some entry carries it, and then maps to such an entry. */
  lemma SlugLookup(s: seq<Platform>, slug: string)
    ensures slug in SlugMap(s) <==> slug in Slugs(s)
    ensures slug in SlugMap(s) ==> exists i | 0 <= i < |s| :: s[i] == SlugMap(s)[slug] && s[i].slug == slug
  {
    SlugMapKeys(s);
    if slug in SlugMap(s) {
      SlugMapLast(s, slug);
    }
  }

  /** `MobyGamesHandler.get_platform`. */
  function GetPlatform(slug: string): (r: MobyGamesPlatform)
    ensures r.slug == slug
    ensures r.mobyId.Some? <==> slug in Slugs(Platforms)
    ensures r.mobyId.None? ==> r.name.None?
    ensures r.mobyId.Some? ==> exists i | 0 <= i < |Platforms| ::
      Platforms[i].slug == slug && r.mobyId == Some(Platforms[i].id) && r.name == Some(Platforms[i].name)
  {
    SlugLookup(Platforms, slug);
    if slug in SlugTable then
      MobyGamesPlatform(slug, Some(SlugTable[slug].id), Some(SlugTable[slug].name))
    else MobyGamesPlatform(slug, None, None)
  }

  /** An id that no entry of a run carries is not a key of its reverse map. */
  lemma IdAbsent(s: seq<Platform>, id: int)
    requires forall p | p in s :: p.id != id
    ensures id !in ReverseMap(s)
  {
    ReverseKeys(s);
    assert forall i | 0 <= i < |s| :: s[i] in s;
  }

  /** A later run holding an id decides its value. */
  lemma ReverseAppendPresent(a: seq<Platform>, b: seq<Platform>, id: int)
    requires id in ReverseMap(b)
    ensures id in ReverseMap(a + b) && ReverseMap(a + b)[id] == ReverseMap(b)[id]
  {
    ReverseConcat(a, b);
  }

  /** A later run lacking an id leaves its value as the earlier run has it. */
  lemma ReverseAppendAbsent(a: seq<Platform>, b: seq<Platform>, id: int)
    requires id !in ReverseMap(b)
    ensures id in ReverseMap(a + b) <==> id in ReverseMap(a)
    ensures id in ReverseMap(a) ==> ReverseMap(a + b)[id] == ReverseMap(a)[id]
  {
    ReverseConcat(a, b);
  }

  /** The ids of part 00. */
  lemma IdsOutside00(id: int)
    requires id !in {19, 35, 56, 60, 91, 117, 136, 194, 210, 213, 222, 237, 245, 253, 265, 286, 305, 318}
    ensures id !in ReverseMap(Part00)
  {
    IdAbsent(Part00, id);
  }

  /** The ids of part 01. */
  lemma IdsOutside01(id: int)
    requires id !in {24, 28, 31, 33, 34, 39, 51, 63, 90, 92, 129, 143, 160, 162, 165, 215, 241, 319}
    ensures id !in ReverseMap(Part01)
  {
    IdAbsent(Part01, id);
  }

  /** The ids of part 02. */
  lemma IdsOutside02(id: int)
    requires id !in {29, 73, 76, 83, 84, 124, 125, 154, 156, 168, 188, 197, 216, 231, 261, 290, 298, 306}
    ensures id !in ReverseMap(Part02)
  {
    IdAbsent(Part02, id);
  }

  /** The ids of part 03. */
  lemma IdsOutside03(id: int)
    requires id !in {2, 27, 61, 77, 115, 166, 184, 198, 204, 205, 212, 238, 243, 285, 301}
    ensures id !in ReverseMap(Part03)
  {
    IdAbsent(Part03, id);
  }

  /** The ids of part 04. */
  lemma IdsOutside04(id: int)
    requires id !in {8, 70, 72, 79, 93, 102, 126, 137, 138, 139, 159, 161, 176, 195, 269, 284, 315}
    ensures id !in ReverseMap(Part04)
  {
    IdAbsent(Part04, id);
  }

  /** The ids of part 05. */
  lemma IdsOutside05(id: int)
    requires id !in {10, 11, 12, 14, 25, 50, 104, 108, 122, 123, 155, 205, 236, 251, 257, 258, 268, 302}
    ensures id !in ReverseMap(Part05)
  {
    IdAbsent(Part05, id);
  }

  /** The ids of part 06. */
  lemma IdsOutside06(id: int)
    requires id !in {16, 30, 55, 167, 170, 172, 192, 219, 224, 225, 234, 248, 250, 252, 262, 274, 292, 317}
    ensures id !in ReverseMap(Part06)
  {
    IdAbsent(Part06, id);
  }

  /** The ids of part 07. */
  lemma IdsOutside07(id: int)
    requires id !in {1, 17, 18, 64, 145, 153, 163, 183, 185, 186, 221, 226, 240, 247, 264, 295, 297, 313}
    ensures id !in ReverseMap(Part07)
  {
    IdAbsent(Part07, id);
  }

  /** The ids of part 08. */
  lemma IdsOutside08(id: int)
    requires id !in {32, 57, 71, 74, 89, 97, 135, 148, 157, 158, 200, 208, 229, 232, 235, 275, 307, 311}
    ensures id !in ReverseMap(Part08)
  {
    IdAbsent(Part08, id);
  }

  /** The ids of part 09. */
  lemma IdsOutside09(id: int)
    requires id !in {9, 22, 36, 44, 52, 53, 54, 87, 101, 174, 175, 177, 203, 207, 266, 279}
    ensures id !in ReverseMap(Part09)
  {
    IdAbsent(Part09, id);
  }

  /** The ids of part 10. */
  lemma IdsOutside10(id: int)
    requires id !in {4, 75, 78, 94, 95, 111, 116, 144, 146, 149, 178, 201, 218, 244, 270, 271, 282, 300}
    ensures id !in ReverseMap(Part10)
  {
    IdAbsent(Part10, id);
  }

  /** The ids of part 11. */
  lemma IdsOutside11(id: int)
    requires id !in {6, 7, 46, 59, 65, 81, 105, 107, 112, 133, 141, 272, 288, 291, 294, 303, 304, 308}
    ensures id !in ReverseMap(Part11)
  {
    IdAbsent(Part11, id);
  }

  /** The ids of part 12. */
  lemma IdsOutside12(id: int)
    requires id !in {15, 20, 21, 23, 26, 103, 113, 114, 120, 152, 196, 230, 249, 255, 259, 267, 273, 309}
    ensures id !in ReverseMap(Part12)
  {
    IdAbsent(Part12, id);
  }

  /** The ids of part 13. */
  lemma IdsOutside13(id: int)
    requires id !in {15, 85, 106, 109, 110, 121, 127, 131, 134, 190, 199, 202, 228, 242, 278, 281, 287, 296}
    ensures id !in ReverseMap(Part13)
  {
    IdAbsent(Part13, id);
  }

  /** The ids of part 14. */
  lemma IdsOutside14(id: int)
    requires id !in {47, 58, 62, 67, 130, 147, 150, 171, 193, 209, 220, 223, 233, 239, 246, 263, 283, 312}
    ensures id !in ReverseMap(Part14)
  {
    IdAbsent(Part14, id);
  }

  /** The ids of part 15. */
  lemma IdsOutside15(id: int)
    requires id !in {37, 38, 40, 42, 43, 45, 128, 151, 164, 173, 189, 206, 214, 217, 256, 260, 299, 310}
    ensures id !in ReverseMap(Part15)
  {
    IdAbsent(Part15, id);
  }

  /** The ids of part 16. */
  lemma IdsOutside16(id: int)
    requires id !in {3, 5, 13, 41, 48, 49, 66, 69, 82, 98, 132, 140, 142, 169, 191, 254, 289, 293}
    ensures id !in ReverseMap(Part16)
  {
    IdAbsent(Part16, id);
  }

  /** The ids of part 17. */
  lemma IdsOutside17(id: int)
    requires id !in {68, 80, 86, 88, 96, 99, 100, 118, 119, 179, 180, 187, 211, 227, 276, 280, 314}
    ensures id !in ReverseMap(Part17)
  {
    IdAbsent(Part17, id);
  }

  /** The ids of parts 00 to 01. */
  lemma IdsOutside00to01(id: int)
    requires id !in {19, 35, 56, 60, 91, 117, 136, 194, 210, 213, 222, 237, 245, 253, 265, 286, 305, 318}
    requires id !in {24, 28, 31, 33, 34, 39, 51, 63, 90, 92, 129, 143, 160, 162, 165, 215, 241, 319}
    ensures id !in ReverseMap(Block00to01)
  {
    IdsOutside00(id);
    IdsOutside01(id);
    ReverseAppendAbsent(Part00, Part01, id);
  }

  /** The ids of parts 03 to 04. */
  lemma IdsOutside03to04(id: int)
    requires id !in {2, 27, 61, 77, 115, 166, 184, 198, 204, 205, 212, 238, 243, 285, 301}
    requires id !in {8, 70, 72, 79, 93, 102, 126, 137, 138, 139, 159, 161, 176, 195, 269, 284, 315}
    ensures id !in ReverseMap(Block03to04)
  {
    IdsOutside03(id);
    IdsOutside04(id);
    ReverseAppendAbsent(Part03, Part04, id);
  }

  /** The ids of parts 05 to 06. */
  lemma IdsOutside05to06(id: int)
    requires id !in {10, 11, 12, 14, 25, 50, 104, 108, 122, 123, 155, 205, 236, 251, 257, 258, 268, 302}
    requires id !in {16, 30, 55, 167, 170, 172, 192, 219, 224, 225, 234, 248, 250, 252, 262, 274, 292, 317}
    ensures id !in ReverseMap(Block05to06)
  {
    IdsOutside05(id);
    IdsOutside06(id);
    ReverseAppendAbsent(Part05, Part06, id);
  }

  /** The ids of parts 07 to 08. */
  lemma IdsOutside07to08(id: int)
    requires id !in {1, 17, 18, 64, 145, 153, 163, 183, 185, 186, 221, 226, 240, 247, 264, 295, 297, 313}
    requires id !in {32, 57, 71, 74, 89, 97, 135, 148, 157, 158, 200, 208, 229, 232, 235, 275, 307, 311}
    ensures id !in ReverseMap(Block07to08)
  {
    IdsOutside07(id);
    IdsOutside08(id);
    ReverseAppendAbsent(Part07, Part08, id);
  }

  /** The ids of parts 09 to 10. */
  lemma IdsOutside09to10(id: int)
    requires id !in {9, 22, 36, 44, 52, 53, 54, 87, 101, 174, 175, 177, 203, 207, 266, 279}
    requires id !in {4, 75, 78, 94, 95, 111, 116, 144, 146, 149, 178, 201, 218, 244, 270, 271, 282, 300}
    ensures id !in ReverseMap(Block09to10)
  {
    IdsOutside09(id);
    IdsOutside10(id);
    ReverseAppendAbsent(Part09, Part10, id);
  }

  /** The ids of parts 12 to 13. */
  lemma IdsOutside12to13(id: int)
    requires id !in {15, 20, 21, 23, 26, 103, 113, 114, 120, 152, 196, 230, 249, 255, 259, 267, 273, 309}
    requires id !in {15, 85, 106, 109, 110, 121, 127, 131, 134, 190, 199, 202, 228, 242, 278, 281, 287, 296}
    ensures id !in ReverseMap(Block12to13)
  {
    IdsOutside12(id);
    IdsOutside13(id);
    ReverseAppendAbsent(Part12, Part13, id);
  }

  /** The ids of parts 14 to 15. */
  lemma IdsOutside14to15(id: int)
    requires id !in {47, 58, 62, 67, 130, 147, 150, 171, 193, 209, 220, 223, 233, 239, 246, 263, 283, 312}
    requires id !in {37, 38, 40, 42, 43, 45, 128, 151, 164, 173, 189, 206, 214, 217, 256, 260, 299, 310}
    ensures id !in ReverseMap(Block14to15)
  {
    IdsOutside14(id);
    IdsOutside15(id);
    ReverseAppendAbsent(Part14, Part15, id);
  }

  /** The ids of parts 16 to 17. */
  lemma IdsOutside16to17(id: int)
    requires id !in {3, 5, 13, 41, 48, 49, 66, 69, 82, 98, 132, 140, 142, 169, 191, 254, 289, 293}
    requires id !in {68, 80, 86, 88, 96, 99, 100, 118, 119, 179, 180, 187, 211, 227, 276, 280, 314}
    ensures id !in ReverseMap(Block16to17)
  {
    IdsOutside16(id);
    IdsOutside17(id);
    ReverseAppendAbsent(Part16, Part17, id);
  }

  /** The ids of parts 00 to 02. */
  lemma IdsOutside00to02(id: int)
    requires id !in {19, 35, 56, 60, 91, 117, 136, 194, 210, 213, 222, 237, 245, 253, 265, 286, 305, 318}
    requires id !in {24, 28, 31, 33, 34, 39, 51, 63, 90, 92, 129, 143, 160, 162, 165, 215, 241, 319}
    requires id !in {29, 73, 76, 83, 84, 124, 125, 154, 156, 168, 188, 197, 216, 231, 261, 290, 298, 306}
    ensures id !in ReverseMap(Block00to02)
  {
    IdsOutside00to01(id);
    IdsOutside02(id);
    ReverseAppendAbsent(Block00to01, Part02, id);
  }

  /** The ids of parts 09 to 11. */
  lemma IdsOutside09to11(id: int)
    requires id !in {9, 22, 36, 44, 52, 53, 54, 87, 101, 174, 175, 177, 203, 207, 266, 279}
    requires id !in {4, 75, 78, 94, 95, 111, 116, 144, 146, 149, 178, 201, 218, 244, 270, 271, 282, 300}
    requires id !in {6, 7, 46, 59, 65, 81, 105, 107, 112, 133, 141, 272, 288, 291, 294, 303, 304, 308}
    ensures id !in ReverseMap(Block09to11)
  {
    IdsOutside09to10(id);
    IdsOutside11(id);
    ReverseAppendAbsent(Block09to10, Part11, id);
  }

  /** The ids of parts 05 to 08. */
  lemma IdsOutside05to08(id: int)
    requires id !in {10, 11, 12, 14, 25, 50, 104, 108, 122, 123, 155, 205, 236, 251, 257, 258, 268, 302}
    requires id !in {16, 30, 55, 167, 170, 172, 192, 219, 224, 225, 234, 248, 250, 252, 262, 274, 292, 317}
    requires id !in {1, 17, 18, 64, 145, 153, 163, 183, 185, 186, 221, 226, 240, 247, 264, 295, 297, 313}
    requires id !in {32, 57, 71, 74, 89, 97, 135, 148, 157, 158, 200, 208, 229, 232, 235, 275, 307, 311}
    ensures id !in ReverseMap(Block05to08)
  {
    IdsOutside05to06(id);
    IdsOutside07to08(id);
    ReverseAppendAbsent(Block05to06, Block07to08, id);
  }

  /** The ids of parts 14 to 17. */
  lemma IdsOutside14to17(id: int)
    requires id !in {47, 58, 62, 67, 130, 147, 150, 171, 193, 209, 220, 223, 233, 239, 246, 263, 283, 312}
    requires id !in {37, 38, 40, 42, 43, 45, 128, 151, 164, 173, 189, 206, 214, 217, 256, 260, 299, 310}
    requires id !in {3, 5, 13, 41, 48, 49, 66, 69, 82, 98, 132, 140, 142, 169, 191, 254, 289, 293}
    requires id !in {68, 80, 86, 88, 96, 99, 100, 118, 119, 179, 180, 187, 211, 227, 276, 280, 314}
    ensures id !in ReverseMap(Block14to17)
  {
    IdsOutside14to15(id);
    IdsOutside16to17(id);
    ReverseAppendAbsent(Block14to15, Block16to17, id);
  }

  /** The ids of parts 00 to 04. */
  lemma IdsOutside00to04(id: int)
    requires id !in {19, 35, 56, 60, 91, 117, 136, 194, 210, 213, 222, 237, 245, 253, 265, 286, 305, 318}
    requires id !in {24, 28, 31, 33, 34, 39, 51, 63, 90, 92, 129, 143, 160, 162, 165, 215, 241, 319}
    requires id !in {29, 73, 76, 83, 84, 124, 125, 154, 156, 168, 188, 197, 216, 231, 261, 290, 298, 306}
    requires id !in {2, 27, 61, 77, 115, 166, 184, 198, 204, 205, 212, 238, 243, 285, 301}
    requires id !in {8, 70, 72, 79, 93, 102, 126, 137, 138, 139, 159, 161, 176, 195, 269, 284, 315}
    ensures id !in ReverseMap(Block00to04)
  {
    IdsOutside00to02(id);
    IdsOutside03to04(id);
    ReverseAppendAbsent(Block00to02, Block03to04, id);
  }

  /** The ids of parts 09 to 13. */
  lemma IdsOutside09to13(id: int)
    requires id !in {9, 22, 36, 44, 52, 53, 54, 87, 101, 174, 175, 177, 203, 207, 266, 279}
    requires id !in {4, 75, 78, 94, 95, 111, 116, 144, 146, 149, 178, 201, 218, 244, 270, 271, 282, 300}
    requires id !in {6, 7, 46, 59, 65, 81, 105, 107, 112, 133, 141, 272, 288, 291, 294, 303, 304, 308}
    requires id !in {15, 20, 21, 23, 26, 103, 113, 114, 120, 152, 196, 230, 249, 255, 259, 267, 273, 309}
    requires id !in {15, 85, 106, 109, 110, 121, 127, 131, 134, 190, 199, 202, 228, 242, 278, 281, 287, 296}
    ensures id !in ReverseMap(Block09to13)
  {
    IdsOutside09to11(id);
    IdsOutside12to13(id);
    ReverseAppendAbsent(Block09to11, Block12to13, id);
  }

  /** The ids of parts 00 to 08. */
  lemma IdsOutside00to08(id: int)
    requires id !in {19, 35, 56, 60, 91, 117, 136, 194, 210, 213, 222, 237, 245, 253, 265, 286, 305, 318}
    requires id !in {24, 28, 31, 33, 34, 39, 51, 63, 90, 92, 129, 143, 160, 162, 165, 215, 241, 319}
    requires id !in {29, 73, 76, 83, 84, 124, 125, 154, 156, 168, 188, 197, 216, 231, 261, 290, 298, 306}
    requires id !in {2, 27, 61, 77, 115, 166, 184, 198, 204, 205, 212, 238, 243, 285, 301}
    requires id !in {8, 70, 72, 79, 93, 102, 126, 137, 138, 139, 159, 161, 176, 195, 269, 284, 315}
    requires id !in {10, 11, 12, 14, 25, 50, 104, 108, 122, 123, 155, 205, 236, 251, 257, 258, 268, 302}
    requires id !in {16, 30, 55, 167, 170, 172, 192, 219, 224, 225, 234, 248, 250, 252, 262, 274, 292, 317}
    requires id !in {1, 17, 18, 64, 145, 153, 163, 183, 185, 186, 221, 226, 240, 247, 264, 295, 297, 313}
    requires id !in {32, 57, 71, 74, 89, 97, 135, 148, 157, 158, 200, 208, 229, 232, 235, 275, 307, 311}
    ensures id !in ReverseMap(Block00to08)
  {
    IdsOutside00to04(id);
    IdsOutside05to08(id);
    ReverseAppendAbsent(Block00to04, Block05to08, id);
  }

  /** The ids of parts 09 to 17. */
  lemma IdsOutside09to17(id: int)
    requires id !in {9, 22, 36, 44, 52, 53, 54, 87, 101, 174, 175, 177, 203, 207, 266, 279}
    requires id !in {4, 75, 78, 94, 95, 111, 116, 144, 146, 149, 178, 201, 218, 244, 270, 271, 282, 300}
    requires id !in {6, 7, 46, 59, 65, 81, 105, 107, 112, 133, 141, 272, 288, 291, 294, 303, 304, 308}
    requires id !in {15, 20, 21, 23, 26, 103, 113, 114, 120, 152, 196, 230, 249, 255, 259, 267, 273, 309}
    requires id !in {15, 85, 106, 109, 110, 121, 127, 131, 134, 190, 199, 202, 228, 242, 278, 281, 287, 296}
    requires id !in {47, 58, 62, 67, 130, 147, 150, 171, 193, 209, 220, 223, 233, 239, 246, 263, 283, 312}
    requires id !in {37, 38, 40, 42, 43, 45, 128, 151, 164, 173, 189, 206, 214, 217, 256, 260, 299, 310}
    requires id !in {3, 5, 13, 41, 48, 49, 66, 69, 82, 98, 132, 140, 142, 169, 191, 254, 289, 293}
    requires id !in {68, 80, 86, 88, 96, 99, 100, 118, 119, 179, 180, 187, 211, 227, 276, 280, 314}
    ensures id !in ReverseMap(Block09to17)
  {
    IdsOutside09to13(id);
    IdsOutside14to17(id);
    ReverseAppendAbsent(Block09to13, Block14to17, id);
  }

  /** Within parts 03 to 04, id 115 maps to c16. */
  lemma ReverseId115In03to04()
    ensures 115 in ReverseMap(Block03to04) && ReverseMap(Block03to04)[115] == "c16"
  {
    ReverseLastWins(Part03, 3);
    IdsOutside04(115);
    ReverseAppendAbsent(Part03, Part04, 115);
  }

  /** Within parts 00 to 04, id 115 maps to c16. */
  lemma ReverseId115In00to04()
    ensures 115 in ReverseMap(Block00to04) && ReverseMap(Block00to04)[115] == "c16"
  {
    ReverseId115In03to04();
    ReverseAppendPresent(Block00to02, Block03to04, 115);
  }

  /** Within parts 00 to 08, id 115 maps to c16. */
  lemma ReverseId115In00to08()
    ensures 115 in ReverseMap(Block00to08) && ReverseMap(Block00to08)[115] == "c16"
  {
    ReverseId115In00to04();
    IdsOutside05to08(115);
    ReverseAppendAbsent(Block00to04, Block05to08, 115);
  }

  /** Id 115 is shared by c16plus4, cplus4 and c16; the last entry, c16, wins. */
  lemma ReverseId115()
    ensures 115 in MobyIdToSlug && MobyIdToSlug[115] == "c16"
  {
    ReverseId115In00to08();
    IdsOutside09to17(115);
    ReverseAppendAbsent(Block00to08, Block09to17, 115);
  }

  /** Within parts 09 to 10, id 22 maps to famicom. */
  lemma ReverseId22In09to10()
    ensures 22 in ReverseMap(Block09to10) && ReverseMap(Block09to10)[22] == "famicom"
  {
    ReverseLastWins(Part09, 1);
    IdsOutside10(22);
    ReverseAppendAbsent(Part09, Part10, 22);
  }

  /** Within parts 09 to 11, id 22 maps to famicom. */
  lemma ReverseId22In09to11()
    ensures 22 in ReverseMap(Block09to11) && ReverseMap(Block09to11)[22] == "famicom"
  {
    ReverseId22In09to10();
    IdsOutside11(22);
    ReverseAppendAbsent(Block09to10, Part11, 22);
  }

  /** Within parts 09 to 13, id 22 maps to famicom. */
  lemma ReverseId22In09to13()
    ensures 22 in ReverseMap(Block09to13) && ReverseMap(Block09to13)[22] == "famicom"
  {
    ReverseId22In09to11();
    IdsOutside12to13(22);
    ReverseAppendAbsent(Block09to11, Block12to13, 22);
  }

  /** Within parts 09 to 17, id 22 maps to famicom. */
  lemma ReverseId22In09to17()
    ensures 22 in ReverseMap(Block09to17) && ReverseMap(Block09to17)[22] == "famicom"
  {
    ReverseId22In09to13();
    IdsOutside14to17(22);
    ReverseAppendAbsent(Block09to13, Block14to17, 22);
  }

  /** Id 22 is shared by nes and famicom; the last entry, famicom, wins. */
  lemma ReverseId22()
    ensures 22 in MobyIdToSlug && MobyIdToSlug[22] == "famicom"
  {
    ReverseId22In09to17();
    ReverseAppendPresent(Block00to08, Block09to17, 22);
  }

  /** Within parts 12 to 13, id 15 maps to sfam. */
  lemma ReverseId15In12to13()
    ensures 15 in ReverseMap(Block12to13) && ReverseMap(Block12to13)[15] == "sfam"
  {
    ReverseLastWins(Part13, 0);
    ReverseAppendPresent(Part12, Part13, 15);
  }

  /** Within parts 09 to 13, id 15 maps to sfam. */
  lemma ReverseId15In09to13()
    ensures 15 in ReverseMap(Block09to13) && ReverseMap(Block09to13)[15] == "sfam"
  {
    ReverseId15In12to13();
    ReverseAppendPresent(Block09to11, Block12to13, 15);
  }

  /** Within parts 09 to 17, id 15 maps to sfam. */
  lemma ReverseId15In09to17()
    ensures 15 in ReverseMap(Block09to17) && ReverseMap(Block09to17)[15] == "sfam"
  {
    ReverseId15In09to13();
    IdsOutside14to17(15);
    ReverseAppendAbsent(Block09to13, Block14to17, 15);
  }

  /** Id 15 is shared by snes and sfam; the last entry, sfam, wins. */
  lemma ReverseId15()
    ensures 15 in MobyIdToSlug && MobyIdToSlug[15] == "sfam"
  {
    ReverseId15In09to17();
    ReverseAppendPresent(Block00to08, Block09to17, 15);
  }

  /** Within parts 09 to 10, id 36 maps to neogeomvs. */
  lemma ReverseId36In09to10()
    ensures 36 in ReverseMap(Block09to10) && ReverseMap(Block09to10)[36] == "neogeomvs"
  {
    ReverseLastWins(Part09, 4);
    IdsOutside10(36);
    ReverseAppendAbsent(Part09, Part10, 36);
  }

  /** Within parts 09 to 11, id 36 maps to neogeomvs. */
  lemma ReverseId36In09to11()
    ensures 36 in ReverseMap(Block09to11) && ReverseMap(Block09to11)[36] == "neogeomvs"
  {
    ReverseId36In09to10();
    IdsOutside11(36);
    ReverseAppendAbsent(Block09to10, Part11, 36);
  }

  /** Within parts 09 to 13, id 36 maps to neogeomvs. */
  lemma ReverseId36In09to13()
    ensures 36 in ReverseMap(Block09to13) && ReverseMap(Block09to13)[36] == "neogeomvs"
  {
    ReverseId36In09to11();
    IdsOutside12to13(36);
    ReverseAppendAbsent(Block09to11, Block12to13, 36);
  }

  /** Within parts 09 to 17, id 36 maps to neogeomvs. */
  lemma ReverseId36In09to17()
    ensures 36 in ReverseMap(Block09to17) && ReverseMap(Block09to17)[36] == "neogeomvs"
  {
    ReverseId36In09to13();
    IdsOutside14to17(36);
    ReverseAppendAbsent(Block09to13, Block14to17, 36);
  }

  /** Id 36 is shared by neogeoaes and neogeomvs; the last entry, neogeomvs, wins. */
  lemma ReverseId36()
    ensures 36 in MobyIdToSlug && MobyIdToSlug[36] == "neogeomvs"
  {
    ReverseId36In09to17();
    ReverseAppendPresent(Block00to08, Block09to17, 36);
  }

  /** Within parts 16 to 17, id 86 maps to ios. */
  lemma ReverseId86In16to17()
    ensures 86 in ReverseMap(Block16to17) && ReverseMap(Block16to17)[86] == "ios"
  {
    ReverseLastWins(Part17, 12);
    ReverseAppendPresent(Part16, Part17, 86);
  }

  /** Within parts 14 to 17, id 86 maps to ios. */
  lemma ReverseId86In14to17()
    ensures 86 in ReverseMap(Block14to17) && ReverseMap(Block14to17)[86] == "ios"
  {
    ReverseId86In16to17();
    ReverseAppendPresent(Block14to15, Block16to17, 86);
  }

  /** Within parts 09 to 17, id 86 maps to ios. */
  lemma ReverseId86In09to17()
    ensures 86 in ReverseMap(Block09to17) && ReverseMap(Block09to17)[86] == "ios"
  {
    ReverseId86In14to17();
    ReverseAppendPresent(Block09to13, Block14to17, 86);
  }

  /** Id 86 is shared by iphone and ios; the last entry, ios, wins. */
  lemma ReverseId86()
    ensures 86 in MobyIdToSlug && MobyIdToSlug[86] == "ios"
  {
    ReverseId86In09to17();
    ReverseAppendPresent(Block00to08, Block09to17, 86);
  }

}
