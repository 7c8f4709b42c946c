/**
  The title catalogue (src/games.rs): the supported game titles, their
  `Debug` names (which name the per-title config file and the registry
  entries), their `Display` names, the mapping from a display string back to
  a title, and the per-title catalogue data.
*/
module Games {
  import opened Wrappers

  /** The hardware category of a title (`GameType`). */
  datatype GameType = Shooting | Driving | Harley | Fighting | Mahjong | Abc

  /** The supported titles, in declaration order, and `Unknown`. */
  datatype GameTitle =
      AfterBurnerClimax | AfterBurnerClimaxSDX | AfterBurnerClimaxSE | GhostSquadEvolution
    | HarleyDavidson | Hummer | HummerSDLX | HummerExtreme
    | HummerExtremeMDX | InitialD4 | InitalD4Export | InitialD5Japan
    | InitalD5ExportVer2 | InitalD5ExportVer4 | LetsGoJungle | LetsGoJungleSpecial
    | Outrun2SPSDX | PrimevalHunt | Rambo | RamboChina
    | RTuned | Segaboot | Segaboot24 | Segaboot24WithSymbols
    | Segaboot26 | SegaRaceTV | TheHouseOfTheDead4 | TheHouseOfTheDead4Special
    | TheHouseOfTheDeadEX | TooSpicy | VirtuaFighter5 | VirtuaFighter5Export
    | VirtuaFighter5FinalShowdown | VirtuaFighter5R | VirtuaTennis3 | TaisenMahjong4
    | TaisenMahjong4Evolution | Unknown

  /** The title as `{:?}` prints it: the Rust variant name. */
  function DebugName(t: GameTitle): string {
    match t
    case AfterBurnerClimax => "After_Burner_Climax"
    case AfterBurnerClimaxSDX => "After_Burner_Climax_SDX"
    case AfterBurnerClimaxSE => "After_Burner_Climax_SE"
    case GhostSquadEvolution => "Ghost_Squad_Evolution"
    case HarleyDavidson => "Harley_Davidson"
    case Hummer => "Hummer"
    case HummerSDLX => "Hummer_SDLX"
    case HummerExtreme => "Hummer_Extreme"
    case HummerExtremeMDX => "Hummer_Extreme_MDX"
    case InitialD4 => "InitialD_4"
    case InitalD4Export => "InitalD_4_Export"
    case InitialD5Japan => "InitialD_5_Japan"
    case InitalD5ExportVer2 => "InitalD_5_Export_Ver_2"
    case InitalD5ExportVer4 => "InitalD_5_Export_Ver_4"
    case LetsGoJungle => "Lets_Go_Jungle"
    case LetsGoJungleSpecial => "Lets_Go_Jungle_Special"
    case Outrun2SPSDX => "Outrun_2_SP_SDX"
    case PrimevalHunt => "Primeval_Hunt"
    case Rambo => "Rambo"
    case RamboChina => "Rambo_China"
    case RTuned => "R_Tuned"
    case Segaboot => "Segaboot"
    case Segaboot24 => "Segaboot_2_4"
    case Segaboot24WithSymbols => "Segaboot_2_4_With_Symbols"
    case Segaboot26 => "Segaboot_2_6"
    case SegaRaceTV => "Sega_Race_TV"
    case TheHouseOfTheDead4 => "The_House_Of_The_Dead_4"
    case TheHouseOfTheDead4Special => "The_House_Of_The_Dead_4_Special"
    case TheHouseOfTheDeadEX => "The_House_Of_The_Dead_EX"
    case TooSpicy => "Too_Spicy"
    case VirtuaFighter5 => "Virtua_Fighter_5"
    case VirtuaFighter5Export => "Virtua_Fighter_5_Export"
    case VirtuaFighter5FinalShowdown => "Virtua_Fighter_5_Final_Showdown"
    case VirtuaFighter5R => "Virtua_Fighter_5_R"
    case VirtuaTennis3 => "Virtua_Tennis_3"
    case TaisenMahjong4 => "Taisen_Mahjong_4"
    case TaisenMahjong4Evolution => "Taisen_Mahjong_4_Evolution"
    case Unknown => "Unknown"
  }

  /** `s.replace("_", " ")`. */
  function Spaced(s: string): (r: string)
    ensures |r| == |s|
  {
    seq(|s|, i requires 0 <= i < |s| => if s[i] == '_' then ' ' else s[i])
  }

  /** `{}` of a title, title by title; `DisplayIsSpacedDebugName` proves each
      is the debug name with every `_` replaced by a space. */
  function Display(t: GameTitle): string {
    match t
    case AfterBurnerClimax => "After Burner Climax"
    case AfterBurnerClimaxSDX => "After Burner Climax SDX"
    case AfterBurnerClimaxSE => "After Burner Climax SE"
    case GhostSquadEvolution => "Ghost Squad Evolution"
    case HarleyDavidson => "Harley Davidson"
    case Hummer => "Hummer"
    case HummerSDLX => "Hummer SDLX"
    case HummerExtreme => "Hummer Extreme"
    case HummerExtremeMDX => "Hummer Extreme MDX"
    case InitialD4 => "InitialD 4"
    case InitalD4Export => "InitalD 4 Export"
    case InitialD5Japan => "InitialD 5 Japan"
    case InitalD5ExportVer2 => "InitalD 5 Export Ver 2"
    case InitalD5ExportVer4 => "InitalD 5 Export Ver 4"
    case LetsGoJungle => "Lets Go Jungle"
    case LetsGoJungleSpecial => "Lets Go Jungle Special"
    case Outrun2SPSDX => "Outrun 2 SP SDX"
    case PrimevalHunt => "Primeval Hunt"
    case Rambo => "Rambo"
    case RamboChina => "Rambo China"
    case RTuned => "R Tuned"
    case Segaboot => "Segaboot"
    case Segaboot24 => "Segaboot 2 4"
    case Segaboot24WithSymbols => "Segaboot 2 4 With Symbols"
    case Segaboot26 => "Segaboot 2 6"
    case SegaRaceTV => "Sega Race TV"
    case TheHouseOfTheDead4 => "The House Of The Dead 4"
    case TheHouseOfTheDead4Special => "The House Of The Dead 4 Special"
    case TheHouseOfTheDeadEX => "The House Of The Dead EX"
    case TooSpicy => "Too Spicy"
    case VirtuaFighter5 => "Virtua Fighter 5"
    case VirtuaFighter5Export => "Virtua Fighter 5 Export"
    case VirtuaFighter5FinalShowdown => "Virtua Fighter 5 Final Showdown"
    case VirtuaFighter5R => "Virtua Fighter 5 R"
    case VirtuaTennis3 => "Virtua Tennis 3"
    case TaisenMahjong4 => "Taisen Mahjong 4"
    case TaisenMahjong4Evolution => "Taisen Mahjong 4 Evolution"
    case Unknown => "Unknown"
  }

  /** `GameTitle::from(string)`: the listed spellings, and `Unknown` for any
      other string. */
  function FromString(s: string): GameTitle {
    match s
    case "After Burner Climax" => AfterBurnerClimax
    case "After Burner Climax SDX" => AfterBurnerClimaxSDX
    case "After Burner Climax SE" => AfterBurnerClimaxSE
    case "Ghost Squad Evolution" => GhostSquadEvolution
    case "Harley Davidson" => HarleyDavidson
    case "Hummer" => Hummer
    case "Hummer SDLX" => HummerSDLX
    case "Hummer Extreme" => HummerExtreme
    case "Hummer Extreme MDX" => HummerExtremeMDX
    case "InitialD 4" => InitialD4
    case "Initial D Arcade Stage 4" => InitialD4
    case "InitialD 4 Export" => InitalD4Export
    case "Initial D Arcade Stage 4 Export" => InitalD4Export
    case "InitialD 5 Japan" => InitialD5Japan
    case "Initial D Arcade Stage 5" => InitialD5Japan
    case "InitalD 5 Export Ver 2" => InitalD5ExportVer2
    case "InitalD 5 Export Ver 4" => InitalD5ExportVer4
    case "Segaboot 2 4" => Segaboot24
    case "Segaboot 2 4 With Symbols" => Segaboot24WithSymbols
    case "Segaboot 2 6" => Segaboot26
    case "Lets Go Jungle" => LetsGoJungle
    case "Let's Go Jungle! Lost on the Island of Spice!" => LetsGoJungle
    case "Lets Go Jungle Special" => LetsGoJungleSpecial
    case "Let's Go Jungle! Special!" => LetsGoJungleSpecial
    case "Outrun 2 SP SDX" => Outrun2SPSDX
    case "Primeval Hunt" => PrimevalHunt
    case "Rambo" => Rambo
    case "Rambo China" => RamboChina
    case "R Tuned" => RTuned
    case "Segaboot" => Segaboot
    case "Sega Race TV" => SegaRaceTV
    case "The House Of The Dead 4" => TheHouseOfTheDead4
    case "Too Spicy" => TooSpicy
    case "Unknown" => Unknown
    case "Virtua Fighter 5" => VirtuaFighter5
    case "Virtua Tennis 3" => VirtuaTennis3
    case "The House Of The Dead 4 Special" => TheHouseOfTheDead4Special
    case "The House Of The Dead EX" => TheHouseOfTheDeadEX
    case "Virtua Fighter 5 Export" => VirtuaFighter5Export
    case "Virtua Fighter 5 Final Showdown" => VirtuaFighter5FinalShowdown
    case "Virtua Fighter 5 R" => VirtuaFighter5R
    case "Taisen Mahjong 4" => TaisenMahjong4
    case "SEGA Network Taisen Mahjong MJ4" => TaisenMahjong4
    case "Taisen Mahjong 4 Evolution" => TaisenMahjong4Evolution
    case "SEGA Network Taisen Mahjong MJ4 Evolution" => TaisenMahjong4Evolution
    case _ => Unknown
  }

  /** The spellings `FromString` accepts for each title, listed title by title. */
  function Spellings(t: GameTitle): set<string> {
    match t
    case AfterBurnerClimax => {"After Burner Climax"}
    case AfterBurnerClimaxSDX => {"After Burner Climax SDX"}
    case AfterBurnerClimaxSE => {"After Burner Climax SE"}
    case GhostSquadEvolution => {"Ghost Squad Evolution"}
    case HarleyDavidson => {"Harley Davidson"}
    case Hummer => {"Hummer"}
    case HummerSDLX => {"Hummer SDLX"}
    case HummerExtreme => {"Hummer Extreme"}
    case HummerExtremeMDX => {"Hummer Extreme MDX"}
    case InitialD4 => {"InitialD 4", "Initial D Arcade Stage 4"}
    case InitalD4Export => {"InitialD 4 Export", "Initial D Arcade Stage 4 Export"}
    case InitialD5Japan => {"InitialD 5 Japan", "Initial D Arcade Stage 5"}
    case InitalD5ExportVer2 => {"InitalD 5 Export Ver 2"}
    case InitalD5ExportVer4 => {"InitalD 5 Export Ver 4"}
    case LetsGoJungle => {"Lets Go Jungle", "Let's Go Jungle! Lost on the Island of Spice!"}
    case LetsGoJungleSpecial => {"Lets Go Jungle Special", "Let's Go Jungle! Special!"}
    case Outrun2SPSDX => {"Outrun 2 SP SDX"}
    case PrimevalHunt => {"Primeval Hunt"}
    case Rambo => {"Rambo"}
    case RamboChina => {"Rambo China"}
    case RTuned => {"R Tuned"}
    case Segaboot => {"Segaboot"}
    case Segaboot24 => {"Segaboot 2 4"}
    case Segaboot24WithSymbols => {"Segaboot 2 4 With Symbols"}
    case Segaboot26 => {"Segaboot 2 6"}
    case SegaRaceTV => {"Sega Race TV"}
    case TheHouseOfTheDead4 => {"The House Of The Dead 4"}
    case TheHouseOfTheDead4Special => {"The House Of The Dead 4 Special"}
    case TheHouseOfTheDeadEX => {"The House Of The Dead EX"}
    case TooSpicy => {"Too Spicy"}
    case VirtuaFighter5 => {"Virtua Fighter 5"}
    case VirtuaFighter5Export => {"Virtua Fighter 5 Export"}
    case VirtuaFighter5FinalShowdown => {"Virtua Fighter 5 Final Showdown"}
    case VirtuaFighter5R => {"Virtua Fighter 5 R"}
    case VirtuaTennis3 => {"Virtua Tennis 3"}
    case TaisenMahjong4 => {"Taisen Mahjong 4", "SEGA Network Taisen Mahjong MJ4"}
    case TaisenMahjong4Evolution => {"Taisen Mahjong 4 Evolution", "SEGA Network Taisen Mahjong MJ4 Evolution"}
    case Unknown => {"Unknown"}
  }

  /** Position of a title in the declaration of `GameTitle`. */
  function Ordinal(t: GameTitle): (n: nat)
    ensures n < 38
  {
    match t
    case AfterBurnerClimax => 0
    case AfterBurnerClimaxSDX => 1
    case AfterBurnerClimaxSE => 2
    case GhostSquadEvolution => 3
    case HarleyDavidson => 4
    case Hummer => 5
    case HummerSDLX => 6
    case HummerExtreme => 7
    case HummerExtremeMDX => 8
    case InitialD4 => 9
    case InitalD4Export => 10
    case InitialD5Japan => 11
    case InitalD5ExportVer2 => 12
    case InitalD5ExportVer4 => 13
    case LetsGoJungle => 14
    case LetsGoJungleSpecial => 15
    case Outrun2SPSDX => 16
    case PrimevalHunt => 17
    case Rambo => 18
    case RamboChina => 19
    case RTuned => 20
    case Segaboot => 21
    case Segaboot24 => 22
    case Segaboot24WithSymbols => 23
    case Segaboot26 => 24
    case SegaRaceTV => 25
    case TheHouseOfTheDead4 => 26
    case TheHouseOfTheDead4Special => 27
    case TheHouseOfTheDeadEX => 28
    case TooSpicy => 29
    case VirtuaFighter5 => 30
    case VirtuaFighter5Export => 31
    case VirtuaFighter5FinalShowdown => 32
    case VirtuaFighter5R => 33
    case VirtuaTennis3 => 34
    case TaisenMahjong4 => 35
    case TaisenMahjong4Evolution => 36
    case Unknown => 37
  }

  /** The titles in batches of four, in declaration order: the title-by-title
      proofs below are split along these batches to keep each part small. */
  predicate InBatch(t: GameTitle, b: nat) {
    match b
    case 0 => t.AfterBurnerClimax? || t.AfterBurnerClimaxSDX? || t.AfterBurnerClimaxSE? || t.GhostSquadEvolution?
    case 1 => t.HarleyDavidson? || t.Hummer? || t.HummerSDLX? || t.HummerExtreme?
    case 2 => t.HummerExtremeMDX? || t.InitialD4? || t.InitalD4Export? || t.InitialD5Japan?
    case 3 => t.InitalD5ExportVer2? || t.InitalD5ExportVer4? || t.LetsGoJungle? || t.LetsGoJungleSpecial?
    case 4 => t.Outrun2SPSDX? || t.PrimevalHunt? || t.Rambo? || t.RamboChina?
    case 5 => t.RTuned? || t.Segaboot? || t.Segaboot24? || t.Segaboot24WithSymbols?
    case 6 => t.Segaboot26? || t.SegaRaceTV? || t.TheHouseOfTheDead4? || t.TheHouseOfTheDead4Special?
    case 7 => t.TheHouseOfTheDeadEX? || t.TooSpicy? || t.VirtuaFighter5? || t.VirtuaFighter5Export?
    case 8 => t.VirtuaFighter5FinalShowdown? || t.VirtuaFighter5R? || t.VirtuaTennis3? || t.TaisenMahjong4?
    case 9 => t.TaisenMahjong4Evolution? || t.Unknown?
    case _ => false
  }

  /** Every title except `Unknown`, in the order the front end lists them
      (`all_variants`). */
  const AllVariants: seq<GameTitle> := [
    AfterBurnerClimax, AfterBurnerClimaxSDX, AfterBurnerClimaxSE, GhostSquadEvolution,
    HarleyDavidson, Hummer, HummerSDLX, HummerExtreme,
    HummerExtremeMDX, InitialD4, InitalD4Export, InitialD5Japan,
    InitalD5ExportVer2, InitalD5ExportVer4, LetsGoJungle, LetsGoJungleSpecial,
    Outrun2SPSDX, PrimevalHunt, Rambo, RamboChina,
    RTuned, Segaboot, Segaboot24, Segaboot24WithSymbols,
    Segaboot26, SegaRaceTV, TheHouseOfTheDead4, TheHouseOfTheDead4Special,
    TheHouseOfTheDeadEX, TooSpicy, VirtuaFighter5, VirtuaFighter5Export,
    VirtuaFighter5FinalShowdown, VirtuaFighter5R, VirtuaTennis3, TaisenMahjong4,
    TaisenMahjong4Evolution
  ]

  /** The six catalogue fields of `GameData` (everything but the config). */
  datatype Entry = Entry(
    gameType: Option<GameType>,
    notWorkingOnAti: bool,
    title: string,
    id: string,
    dvp: string,
    status: bool)

  /** The catalogue fields of `GameData::default()`. */
  const DefaultEntry := Entry(None, false, "Unknown", "Unknown", "DVP-XXXX", false)

  /** The catalogue fields of `as_gamedata`: the default entry with the
      title's own values written over it. */
  function Catalogue(t: GameTitle): Entry {
    match t
    case AfterBurnerClimax =>
      DefaultEntry.(title := Display(t), dvp := "DVP-0009", notWorkingOnAti := true, id := "SBLR", gameType := Some(Abc), status := true)
    case AfterBurnerClimaxSDX =>
      DefaultEntry.(title := Display(t), dvp := "DVP-0018-SDX", id := "SBMN", notWorkingOnAti := true, gameType := Some(Abc), status := true)
    case AfterBurnerClimaxSE =>
      DefaultEntry.(title := Display(t), dvp := "DVP-0031", id := "SBLR", notWorkingOnAti := true, gameType := Some(Abc), status := true)
    case GhostSquadEvolution =>
      DefaultEntry.(title := Display(t), status := true, id := "SBNJ", dvp := "DVP-0029A", gameType := Some(Shooting))
    case HarleyDavidson =>
      DefaultEntry.(title := Display(t), gameType := Some(Harley), dvp := "DVP-5007", id := "SBRG", status := true)
    case Hummer =>
      DefaultEntry.(title := Display(t), id := "SBQN", dvp := "DVP-0057B", gameType := Some(Driving), status := true)
    case HummerSDLX =>
      DefaultEntry.(title := Display(t), id := "SBST", dvp := "DVP-0057", gameType := Some(Driving), status := true)
    case HummerExtreme =>
      DefaultEntry.(title := Display(t), id := "SBST", dvp := "DVP-0079", gameType := Some(Driving), status := true)
    case HummerExtremeMDX =>
      DefaultEntry.(title := Display(t), id := "SBST", dvp := "DVP-0083", gameType := Some(Driving), status := true)
    case InitialD4 =>
      DefaultEntry.(title := "Initial D Arcade Stage 4", id := "SBML", dvp := "DVP-0019", gameType := Some(Driving), status := true)
    case InitalD4Export =>
      DefaultEntry.(title := "Initial D Arcade Stage 4 Export", status := true, id := "SBNK", dvp := "DVP-0030", gameType := Some(Driving))
    case InitialD5Japan =>
      DefaultEntry.(title := "Initial D Arcade Stage 5", dvp := "DVP-0070", id := "SBQZ", status := true, gameType := Some(Driving))
    case InitalD5ExportVer2 =>
      DefaultEntry.(title := Display(t), status := true, dvp := "DVP-0075", notWorkingOnAti := true, id := "SBTS", gameType := Some(Driving))
    case InitalD5ExportVer4 =>
      DefaultEntry.(title := Display(t), status := true, dvp := "DVP-0084", id := "SBTS", gameType := Some(Driving))
    case LetsGoJungle =>
      DefaultEntry.(title := "Let's Go Jungle! Lost on the Island of Spice!", dvp := "DVP-0011", notWorkingOnAti := true, id := "SBLU", status := true, gameType := Some(Shooting))
    case LetsGoJungleSpecial =>
      DefaultEntry.(title := "Let's Go Jungle! Special!", dvp := "DVP-0036", notWorkingOnAti := true, id := "SBNR", status := true)
    case Outrun2SPSDX =>
      DefaultEntry.(title := Display(t), dvp := "DVP-0015", id := "SBMB", gameType := Some(Driving), status := true)
    case PrimevalHunt =>
      DefaultEntry.(title := Display(t), dvp := "DVP-0048", gameType := Some(Shooting), id := "SBPP", status := true)
    case Rambo | RamboChina =>
      DefaultEntry.(title := Display(t), dvp := "DVP-0069", id := "SBQL", gameType := Some(Shooting), status := true)
    case RTuned =>
      DefaultEntry.(title := Display(t), dvp := "DVP-0044", id := "SBQW", gameType := Some(Shooting), status := true)
    case Segaboot | Segaboot24 | Segaboot24WithSymbols | Segaboot26 =>
      DefaultEntry.(title := Display(t), status := true)
    case SegaRaceTV =>
      DefaultEntry.(title := Display(t), dvp := "DVP-0044", id := "SBPF", gameType := Some(Driving), status := true)
    case TheHouseOfTheDead4 =>
      DefaultEntry.(title := Display(t), id := "SBLC", gameType := Some(Shooting), status := true, dvp := "DVP-003B")
    case TheHouseOfTheDead4Special =>
      DefaultEntry.(title := Display(t), id := "SBLS", gameType := Some(Shooting), dvp := "DVP-0010", status := true)
    case TheHouseOfTheDeadEX =>
      DefaultEntry.(title := Display(t), id := "SBRC", gameType := Some(Shooting), dvp := "DVP-0063", status := true)
    case TooSpicy =>
      DefaultEntry.(title := Display(t), dvp := "DVP-0027", id := "SBMV", status := true, gameType := Some(Shooting))
    case VirtuaFighter5 =>
      DefaultEntry.(title := Display(t), dvp := "DVP-0008", id := "SBLM", gameType := Some(Fighting))
    case VirtuaFighter5Export =>
      DefaultEntry.(title := Display(t), dvp := "DVP-0043", id := "SBLM", status := true, gameType := Some(Fighting))
    case VirtuaFighter5FinalShowdown =>
      DefaultEntry.(title := Display(t), dvp := "DVP-SBUV", id := "SBUV", gameType := Some(Fighting), status := true)
    case VirtuaFighter5R =>
      DefaultEntry.(title := Display(t), id := "SBQU", gameType := Some(Fighting), status := true)
    case VirtuaTennis3 =>
      DefaultEntry.(title := Display(t), dvp := "DVP-0005", id := "SBKX", gameType := Some(Fighting), status := true)
    case TaisenMahjong4 =>
      DefaultEntry.(title := "SEGA Network Taisen Mahjong MJ4", dvp := "DVP-0049G", id := "SBPN", status := true, gameType := Some(Mahjong), notWorkingOnAti := false)
    case TaisenMahjong4Evolution =>
      DefaultEntry.(title := "SEGA Network Taisen Mahjong MJ4 Evolution", dvp := "DVP-0081", id := "SBTA", status := true, gameType := Some(Mahjong), notWorkingOnAti := false)
    case Unknown => DefaultEntry
  }

  /** The title declared at a given position; `Unknown` past the end. */
  function TitleAt(n: nat): GameTitle {
    match n
    case 0 => AfterBurnerClimax
    case 1 => AfterBurnerClimaxSDX
    case 2 => AfterBurnerClimaxSE
    case 3 => GhostSquadEvolution
    case 4 => HarleyDavidson
    case 5 => Hummer
    case 6 => HummerSDLX
    case 7 => HummerExtreme
    case 8 => HummerExtremeMDX
    case 9 => InitialD4
    case 10 => InitalD4Export
    case 11 => InitialD5Japan
    case 12 => InitalD5ExportVer2
    case 13 => InitalD5ExportVer4
    case 14 => LetsGoJungle
    case 15 => LetsGoJungleSpecial
    case 16 => Outrun2SPSDX
    case 17 => PrimevalHunt
    case 18 => Rambo
    case 19 => RamboChina
    case 20 => RTuned
    case 21 => Segaboot
    case 22 => Segaboot24
    case 23 => Segaboot24WithSymbols
    case 24 => Segaboot26
    case 25 => SegaRaceTV
    case 26 => TheHouseOfTheDead4
    case 27 => TheHouseOfTheDead4Special
    case 28 => TheHouseOfTheDeadEX
    case 29 => TooSpicy
    case 30 => VirtuaFighter5
    case 31 => VirtuaFighter5Export
    case 32 => VirtuaFighter5FinalShowdown
    case 33 => VirtuaFighter5R
    case 34 => VirtuaTennis3
    case 35 => TaisenMahjong4
    case 36 => TaisenMahjong4Evolution
    case _ => Unknown
  }

  lemma TitleAtOrdinalPart0(t: GameTitle)
    requires InBatch(t, 0)
    ensures TitleAt(Ordinal(t)) == t
  {
  }

  lemma TitleAtOrdinalPart1(t: GameTitle)
    requires InBatch(t, 1)
    ensures TitleAt(Ordinal(t)) == t
  {
  }

  lemma TitleAtOrdinalPart2(t: GameTitle)
    requires InBatch(t, 2)
    ensures TitleAt(Ordinal(t)) == t
  {
  }

  lemma TitleAtOrdinalPart3(t: GameTitle)
    requires InBatch(t, 3)
    ensures TitleAt(Ordinal(t)) == t
  {
  }

  lemma TitleAtOrdinalPart4(t: GameTitle)
    requires InBatch(t, 4)
    ensures TitleAt(Ordinal(t)) == t
  {
  }

  lemma TitleAtOrdinalPart5(t: GameTitle)
    requires InBatch(t, 5)
    ensures TitleAt(Ordinal(t)) == t
  {
  }

  lemma TitleAtOrdinalPart6(t: GameTitle)
    requires InBatch(t, 6)
    ensures TitleAt(Ordinal(t)) == t
  {
  }

  lemma TitleAtOrdinalPart7(t: GameTitle)
    requires InBatch(t, 7)
    ensures TitleAt(Ordinal(t)) == t
  {
  }

  lemma TitleAtOrdinalPart8(t: GameTitle)
    requires InBatch(t, 8)
    ensures TitleAt(Ordinal(t)) == t
  {
  }

  lemma TitleAtOrdinalPart9(t: GameTitle)
    requires InBatch(t, 9)
    ensures TitleAt(Ordinal(t)) == t
  {
  }

  lemma TitleAtOrdinal(t: GameTitle)
    ensures TitleAt(Ordinal(t)) == t
  {
    if InBatch(t, 0) {
      TitleAtOrdinalPart0(t);
    } else if InBatch(t, 1) {
      TitleAtOrdinalPart1(t);
    } else if InBatch(t, 2) {
      TitleAtOrdinalPart2(t);
    } else if InBatch(t, 3) {
      TitleAtOrdinalPart3(t);
    } else if InBatch(t, 4) {
      TitleAtOrdinalPart4(t);
    } else if InBatch(t, 5) {
      TitleAtOrdinalPart5(t);
    } else if InBatch(t, 6) {
      TitleAtOrdinalPart6(t);
    } else if InBatch(t, 7) {
      TitleAtOrdinalPart7(t);
    } else if InBatch(t, 8) {
      TitleAtOrdinalPart8(t);
    } else {
      TitleAtOrdinalPart9(t);
    }
  }

  lemma AllVariantsLength()
    ensures |AllVariants| == 37
  {
  }

  lemma AllVariantsInOrderA(i: nat)
    requires i < 10
    ensures Ordinal(AllVariants[i]) == i
  {
    AllVariantsLength();
  }

  lemma AllVariantsInOrderB(i: nat)
    requires 10 <= i < 20
    ensures Ordinal(AllVariants[i]) == i
  {
    AllVariantsLength();
  }

  lemma AllVariantsInOrderC(i: nat)
    requires 20 <= i < 28
    ensures Ordinal(AllVariants[i]) == i
  {
    AllVariantsLength();
  }

  lemma AllVariantsInOrderD(i: nat)
    requires 28 <= i < 33
    ensures Ordinal(AllVariants[i]) == i
  {
    AllVariantsLength();
  }

  lemma AllVariantsInOrderE(i: nat)
    requires 33 <= i < 37
    ensures Ordinal(AllVariants[i]) == i
  {
    AllVariantsLength();
  }

  lemma AllVariantsInOrder()
    ensures |AllVariants| == 37
    ensures forall i :: 0 <= i < |AllVariants| ==> Ordinal(AllVariants[i]) == i
  {
    AllVariantsLength();
    forall i | 0 <= i < |AllVariants|
      ensures Ordinal(AllVariants[i]) == i
    {
      if i < 10 {
        AllVariantsInOrderA(i);
      } else if i < 20 {
        AllVariantsInOrderB(i);
      } else if i < 28 {
        AllVariantsInOrderC(i);
      } else if i < 33 {
        AllVariantsInOrderD(i);
      } else {
        AllVariantsInOrderE(i);
      }
    }
  }

  /** `all_variants` lists every title but `Unknown`, each exactly once, in
      declaration order. */
  lemma AllVariantsExact()
    ensures |AllVariants| == 37
    ensures forall i :: 0 <= i < |AllVariants| ==> Ordinal(AllVariants[i]) == i
    ensures forall i, j :: 0 <= i < j < |AllVariants| ==> AllVariants[i] != AllVariants[j]
    ensures forall t: GameTitle :: t in AllVariants <==> t != Unknown
  {
    AllVariantsInOrder();
    forall t: GameTitle
      ensures t in AllVariants <==> t != Unknown
    {
      TitleAtOrdinal(t);
      if t != Unknown {
        assert Ordinal(t) < 37;
        TitleAtOrdinal(AllVariants[Ordinal(t)]);
        assert AllVariants[Ordinal(t)] == t;
      }
    }
  }

  // ---------------------------------------------------------------------
  // Telling the listed spellings apart.

  /** A fingerprint of a string: its length and its last two characters.
      The spellings `FromString` lists, and the display name of
      `InitalD_4_Export`, have pairwise different fingerprints; the proofs
      below use that to tell them apart. */
  function Fingerprint(s: string): (int, char, char) {
    if |s| < 2 then (|s|, ' ', ' ') else (|s|, s[|s| - 1], s[|s| - 2])
  }

  lemma SpellingFingerprintsA()
    ensures Fingerprint("After Burner Climax") == (19, 'x', 'a')
    ensures Fingerprint("After Burner Climax SDX") == (23, 'X', 'D')
    ensures Fingerprint("After Burner Climax SE") == (22, 'E', 'S')
    ensures Fingerprint("Ghost Squad Evolution") == (21, 'n', 'o')
    ensures Fingerprint("Harley Davidson") == (15, 'n', 'o')
    ensures Fingerprint("Hummer") == (6, 'r', 'e')
    ensures Fingerprint("Hummer SDLX") == (11, 'X', 'L')
    ensures Fingerprint("Hummer Extreme") == (14, 'e', 'm')
    ensures Fingerprint("Hummer Extreme MDX") == (18, 'X', 'D')
    ensures Fingerprint("InitialD 4") == (10, '4', ' ')
    ensures Fingerprint("Initial D Arcade Stage 4") == (24, '4', ' ')
    ensures Fingerprint("InitialD 4 Export") == (17, 't', 'r')
    ensures Fingerprint("Initial D Arcade Stage 4 Export") == (31, 't', 'r')
    ensures Fingerprint("InitialD 5 Japan") == (16, 'n', 'a')
    ensures Fingerprint("Initial D Arcade Stage 5") == (24, '5', ' ')
    ensures Fingerprint("InitalD 5 Export Ver 2") == (22, '2', ' ')
  {
  }

  lemma SpellingFingerprintsB()
    ensures Fingerprint("InitalD 5 Export Ver 4") == (22, '4', ' ')
    ensures Fingerprint("Segaboot 2 4") == (12, '4', ' ')
    ensures Fingerprint("Segaboot 2 4 With Symbols") == (25, 's', 'l')
    ensures Fingerprint("Segaboot 2 6") == (12, '6', ' ')
    ensures Fingerprint("Lets Go Jungle") == (14, 'e', 'l')
    ensures Fingerprint("Let's Go Jungle! Lost on the Island of Spice!") == (45, '!', 'e')
    ensures Fingerprint("Lets Go Jungle Special") == (22, 'l', 'a')
    ensures Fingerprint("Let's Go Jungle! Special!") == (25, '!', 'l')
    ensures Fingerprint("Outrun 2 SP SDX") == (15, 'X', 'D')
    ensures Fingerprint("Primeval Hunt") == (13, 't', 'n')
    ensures Fingerprint("Rambo") == (5, 'o', 'b')
    ensures Fingerprint("Rambo China") == (11, 'a', 'n')
    ensures Fingerprint("R Tuned") == (7, 'd', 'e')
    ensures Fingerprint("Segaboot") == (8, 't', 'o')
    ensures Fingerprint("Sega Race TV") == (12, 'V', 'T')
    ensures Fingerprint("The House Of The Dead 4") == (23, '4', ' ')
  {
  }

  lemma SpellingFingerprintsC()
    ensures Fingerprint("Too Spicy") == (9, 'y', 'c')
    ensures Fingerprint("Unknown") == (7, 'n', 'w')
    ensures Fingerprint("Virtua Fighter 5") == (16, '5', ' ')
    ensures Fingerprint("Virtua Tennis 3") == (15, '3', ' ')
    ensures Fingerprint("The House Of The Dead 4 Special") == (31, 'l', 'a')
    ensures Fingerprint("The House Of The Dead EX") == (24, 'X', 'E')
    ensures Fingerprint("Virtua Fighter 5 Export") == (23, 't', 'r')
    ensures Fingerprint("Virtua Fighter 5 Final Showdown") == (31, 'n', 'w')
    ensures Fingerprint("Virtua Fighter 5 R") == (18, 'R', ' ')
    ensures Fingerprint("Taisen Mahjong 4") == (16, '4', ' ')
    ensures Fingerprint("SEGA Network Taisen Mahjong MJ4") == (31, '4', 'J')
    ensures Fingerprint("Taisen Mahjong 4 Evolution") == (26, 'n', 'o')
    ensures Fingerprint("SEGA Network Taisen Mahjong MJ4 Evolution") == (41, 'n', 'o')
    ensures Fingerprint("InitalD 4 Export") == (16, 't', 'r')
  {
  }

  lemma SpellingFingerprints()
    ensures Fingerprint("After Burner Climax") == (19, 'x', 'a')
    ensures Fingerprint("After Burner Climax SDX") == (23, 'X', 'D')
    ensures Fingerprint("After Burner Climax SE") == (22, 'E', 'S')
    ensures Fingerprint("Ghost Squad Evolution") == (21, 'n', 'o')
    ensures Fingerprint("Harley Davidson") == (15, 'n', 'o')
    ensures Fingerprint("Hummer") == (6, 'r', 'e')
    ensures Fingerprint("Hummer SDLX") == (11, 'X', 'L')
    ensures Fingerprint("Hummer Extreme") == (14, 'e', 'm')
    ensures Fingerprint("Hummer Extreme MDX") == (18, 'X', 'D')
    ensures Fingerprint("InitialD 4") == (10, '4', ' ')
    ensures Fingerprint("Initial D Arcade Stage 4") == (24, '4', ' ')
    ensures Fingerprint("InitialD 4 Export") == (17, 't', 'r')
    ensures Fingerprint("Initial D Arcade Stage 4 Export") == (31, 't', 'r')
    ensures Fingerprint("InitialD 5 Japan") == (16, 'n', 'a')
    ensures Fingerprint("Initial D Arcade Stage 5") == (24, '5', ' ')
    ensures Fingerprint("InitalD 5 Export Ver 2") == (22, '2', ' ')
    ensures Fingerprint("InitalD 5 Export Ver 4") == (22, '4', ' ')
    ensures Fingerprint("Segaboot 2 4") == (12, '4', ' ')
    ensures Fingerprint("Segaboot 2 4 With Symbols") == (25, 's', 'l')
    ensures Fingerprint("Segaboot 2 6") == (12, '6', ' ')
    ensures Fingerprint("Lets Go Jungle") == (14, 'e', 'l')
    ensures Fingerprint("Let's Go Jungle! Lost on the Island of Spice!") == (45, '!', 'e')
    ensures Fingerprint("Lets Go Jungle Special") == (22, 'l', 'a')
    ensures Fingerprint("Let's Go Jungle! Special!") == (25, '!', 'l')
    ensures Fingerprint("Outrun 2 SP SDX") == (15, 'X', 'D')
    ensures Fingerprint("Primeval Hunt") == (13, 't', 'n')
    ensures Fingerprint("Rambo") == (5, 'o', 'b')
    ensures Fingerprint("Rambo China") == (11, 'a', 'n')
    ensures Fingerprint("R Tuned") == (7, 'd', 'e')
    ensures Fingerprint("Segaboot") == (8, 't', 'o')
    ensures Fingerprint("Sega Race TV") == (12, 'V', 'T')
    ensures Fingerprint("The House Of The Dead 4") == (23, '4', ' ')
    ensures Fingerprint("Too Spicy") == (9, 'y', 'c')
    ensures Fingerprint("Unknown") == (7, 'n', 'w')
    ensures Fingerprint("Virtua Fighter 5") == (16, '5', ' ')
    ensures Fingerprint("Virtua Tennis 3") == (15, '3', ' ')
    ensures Fingerprint("The House Of The Dead 4 Special") == (31, 'l', 'a')
    ensures Fingerprint("The House Of The Dead EX") == (24, 'X', 'E')
    ensures Fingerprint("Virtua Fighter 5 Export") == (23, 't', 'r')
    ensures Fingerprint("Virtua Fighter 5 Final Showdown") == (31, 'n', 'w')
    ensures Fingerprint("Virtua Fighter 5 R") == (18, 'R', ' ')
    ensures Fingerprint("Taisen Mahjong 4") == (16, '4', ' ')
    ensures Fingerprint("SEGA Network Taisen Mahjong MJ4") == (31, '4', 'J')
    ensures Fingerprint("Taisen Mahjong 4 Evolution") == (26, 'n', 'o')
    ensures Fingerprint("SEGA Network Taisen Mahjong MJ4 Evolution") == (41, 'n', 'o')
    ensures Fingerprint("InitalD 4 Export") == (16, 't', 'r')
  {
    SpellingFingerprintsA();
    SpellingFingerprintsB();
    SpellingFingerprintsC();
  }

  // ---------------------------------------------------------------------
  // `FromString` against the spelling table.

  lemma SpelledFromStringPart0(s: string, t: GameTitle)
    requires InBatch(t, 0)
    requires t != Unknown && s in Spellings(t)
    ensures FromString(s) == t
  {
    SpellingFingerprints();
  }

  lemma SpelledFromStringPart1(s: string, t: GameTitle)
    requires InBatch(t, 1)
    requires t != Unknown && s in Spellings(t)
    ensures FromString(s) == t
  {
    SpellingFingerprints();
  }

  lemma SpelledFromStringPart2(s: string, t: GameTitle)
    requires InBatch(t, 2)
    requires t != Unknown && s in Spellings(t)
    ensures FromString(s) == t
  {
    SpellingFingerprints();
  }

  lemma SpelledFromStringPart3(s: string, t: GameTitle)
    requires InBatch(t, 3)
    requires t != Unknown && s in Spellings(t)
    ensures FromString(s) == t
  {
    SpellingFingerprints();
  }

  lemma SpelledFromStringPart4(s: string, t: GameTitle)
    requires InBatch(t, 4)
    requires t != Unknown && s in Spellings(t)
    ensures FromString(s) == t
  {
    SpellingFingerprints();
  }

  lemma SpelledFromStringPart5(s: string, t: GameTitle)
    requires InBatch(t, 5)
    requires t != Unknown && s in Spellings(t)
    ensures FromString(s) == t
  {
    SpellingFingerprints();
  }

  lemma SpelledFromStringPart6(s: string, t: GameTitle)
    requires InBatch(t, 6)
    requires t != Unknown && s in Spellings(t)
    ensures FromString(s) == t
  {
    SpellingFingerprints();
  }

  lemma SpelledFromStringPart7(s: string, t: GameTitle)
    requires InBatch(t, 7)
    requires t != Unknown && s in Spellings(t)
    ensures FromString(s) == t
  {
    SpellingFingerprints();
  }

  lemma SpelledFromStringPart8(s: string, t: GameTitle)
    requires InBatch(t, 8)
    requires t != Unknown && s in Spellings(t)
    ensures FromString(s) == t
  {
    SpellingFingerprints();
  }

  lemma SpelledFromStringPart9(s: string, t: GameTitle)
    requires InBatch(t, 9)
    requires t != Unknown && s in Spellings(t)
    ensures FromString(s) == t
  {
    SpellingFingerprints();
  }

  /** Every spelling of a title is recognised as that title. */
  lemma SpelledFromString(s: string, t: GameTitle)
    requires t != Unknown && s in Spellings(t)
    ensures FromString(s) == t
  {
    if InBatch(t, 0) {
      SpelledFromStringPart0(s, t);
    } else if InBatch(t, 1) {
      SpelledFromStringPart1(s, t);
    } else if InBatch(t, 2) {
      SpelledFromStringPart2(s, t);
    } else if InBatch(t, 3) {
      SpelledFromStringPart3(s, t);
    } else if InBatch(t, 4) {
      SpelledFromStringPart4(s, t);
    } else if InBatch(t, 5) {
      SpelledFromStringPart5(s, t);
    } else if InBatch(t, 6) {
      SpelledFromStringPart6(s, t);
    } else if InBatch(t, 7) {
      SpelledFromStringPart7(s, t);
    } else if InBatch(t, 8) {
      SpelledFromStringPart8(s, t);
    } else {
      SpelledFromStringPart9(s, t);
    }
  }

  /** A string `FromString` recognises is a spelling of the title it gives. */
  lemma FromStringSpelled(s: string)
    requires FromString(s) != Unknown
    ensures s in Spellings(FromString(s))
  {
    SpellingFingerprints();
  }

  /** `FromString` gives a title exactly for that title's listed spellings. */
  lemma FromStringSpellings(s: string, t: GameTitle)
    requires t != Unknown
    ensures FromString(s) == t <==> s in Spellings(t)
  {
    if FromString(s) == t {
      FromStringSpelled(s);
    }
    if s in Spellings(t) {
      SpelledFromString(s, t);
    }
  }

  /** Any string that is no title's listed spelling maps to `Unknown`. */
  lemma FromStringUnlisted(s: string)
    requires forall t :: t != Unknown ==> s !in Spellings(t)
    ensures FromString(s) == Unknown
  {
    if FromString(s) != Unknown {
      FromStringSpelled(s);
    }
  }

  // ---------------------------------------------------------------------
  // The catalogue and the display names against `FromString`.

  lemma CatalogueTitleSpelledPart0(t: GameTitle)
    requires InBatch(t, 0)
    requires t != Unknown
    ensures Catalogue(t).title in Spellings(t) && Catalogue(t).title != "Unknown"
  {
  }

  lemma CatalogueTitleSpelledPart1(t: GameTitle)
    requires InBatch(t, 1)
    requires t != Unknown
    ensures Catalogue(t).title in Spellings(t) && Catalogue(t).title != "Unknown"
  {
  }

  lemma CatalogueTitleSpelledPart2(t: GameTitle)
    requires InBatch(t, 2)
    requires t != Unknown
    ensures Catalogue(t).title in Spellings(t) && Catalogue(t).title != "Unknown"
  {
  }

  lemma CatalogueTitleSpelledPart3(t: GameTitle)
    requires InBatch(t, 3)
    requires t != Unknown
    ensures Catalogue(t).title in Spellings(t) && Catalogue(t).title != "Unknown"
  {
  }

  lemma CatalogueTitleSpelledPart4(t: GameTitle)
    requires InBatch(t, 4)
    requires t != Unknown
    ensures Catalogue(t).title in Spellings(t) && Catalogue(t).title != "Unknown"
  {
  }

  lemma CatalogueTitleSpelledPart5(t: GameTitle)
    requires InBatch(t, 5)
    requires t != Unknown
    ensures Catalogue(t).title in Spellings(t) && Catalogue(t).title != "Unknown"
  {
  }

  lemma CatalogueTitleSpelledPart6(t: GameTitle)
    requires InBatch(t, 6)
    requires t != Unknown
    ensures Catalogue(t).title in Spellings(t) && Catalogue(t).title != "Unknown"
  {
  }

  lemma CatalogueTitleSpelledPart7(t: GameTitle)
    requires InBatch(t, 7)
    requires t != Unknown
    ensures Catalogue(t).title in Spellings(t) && Catalogue(t).title != "Unknown"
  {
  }

  lemma CatalogueTitleSpelledPart8(t: GameTitle)
    requires InBatch(t, 8)
    requires t != Unknown
    ensures Catalogue(t).title in Spellings(t) && Catalogue(t).title != "Unknown"
  {
  }

  lemma CatalogueTitleSpelledPart9(t: GameTitle)
    requires InBatch(t, 9)
    requires t != Unknown
    ensures Catalogue(t).title in Spellings(t) && Catalogue(t).title != "Unknown"
  {
  }

  /** The title `as_gamedata` stores is one of the title's spellings, and
      never the word "Unknown". */
  lemma CatalogueTitleSpelled(t: GameTitle)
    requires t != Unknown
    ensures Catalogue(t).title in Spellings(t)
    ensures Catalogue(t).title != "Unknown"
  {
    if InBatch(t, 0) {
      CatalogueTitleSpelledPart0(t);
    } else if InBatch(t, 1) {
      CatalogueTitleSpelledPart1(t);
    } else if InBatch(t, 2) {
      CatalogueTitleSpelledPart2(t);
    } else if InBatch(t, 3) {
      CatalogueTitleSpelledPart3(t);
    } else if InBatch(t, 4) {
      CatalogueTitleSpelledPart4(t);
    } else if InBatch(t, 5) {
      CatalogueTitleSpelledPart5(t);
    } else if InBatch(t, 6) {
      CatalogueTitleSpelledPart6(t);
    } else if InBatch(t, 7) {
      CatalogueTitleSpelledPart7(t);
    } else if InBatch(t, 8) {
      CatalogueTitleSpelledPart8(t);
    } else {
      CatalogueTitleSpelledPart9(t);
    }
  }

  /** Every listed title has a catalogue title other than "Unknown", and
      `FromString` maps it back to the title (the round trip the unit test
      `test_conversion` asserts). */
  lemma CatalogueRoundTrip(t: GameTitle)
    requires t in AllVariants
    ensures Catalogue(t).title != "Unknown"
    ensures FromString(Catalogue(t).title) == t
  {
    assert t != Unknown by { AllVariantsExact(); }
    CatalogueTitleSpelled(t);
    SpelledFromString(Catalogue(t).title, t);
  }

  lemma DisplaySpelledPart0(t: GameTitle)
    requires InBatch(t, 0)
    requires t != Unknown && t != InitalD4Export
    ensures Display(t) in Spellings(t)
  {
  }

  lemma DisplaySpelledPart1(t: GameTitle)
    requires InBatch(t, 1)
    requires t != Unknown && t != InitalD4Export
    ensures Display(t) in Spellings(t)
  {
  }

  lemma DisplaySpelledPart2(t: GameTitle)
    requires InBatch(t, 2)
    requires t != Unknown && t != InitalD4Export
    ensures Display(t) in Spellings(t)
  {
  }

  lemma DisplaySpelledPart3(t: GameTitle)
    requires InBatch(t, 3)
    requires t != Unknown && t != InitalD4Export
    ensures Display(t) in Spellings(t)
  {
  }

  lemma DisplaySpelledPart4(t: GameTitle)
    requires InBatch(t, 4)
    requires t != Unknown && t != InitalD4Export
    ensures Display(t) in Spellings(t)
  {
  }

  lemma DisplaySpelledPart5(t: GameTitle)
    requires InBatch(t, 5)
    requires t != Unknown && t != InitalD4Export
    ensures Display(t) in Spellings(t)
  {
  }

  lemma DisplaySpelledPart6(t: GameTitle)
    requires InBatch(t, 6)
    requires t != Unknown && t != InitalD4Export
    ensures Display(t) in Spellings(t)
  {
  }

  lemma DisplaySpelledPart7(t: GameTitle)
    requires InBatch(t, 7)
    requires t != Unknown && t != InitalD4Export
    ensures Display(t) in Spellings(t)
  {
  }

  lemma DisplaySpelledPart8(t: GameTitle)
    requires InBatch(t, 8)
    requires t != Unknown && t != InitalD4Export
    ensures Display(t) in Spellings(t)
  {
  }

  lemma DisplaySpelledPart9(t: GameTitle)
    requires InBatch(t, 9)
    requires t != Unknown && t != InitalD4Export
    ensures Display(t) in Spellings(t)
  {
  }

  /** Display names are listed spellings, except that of `InitalD_4_Export`. */
  lemma DisplaySpelled(t: GameTitle)
    requires t != Unknown && t != InitalD4Export
    ensures Display(t) in Spellings(t)
  {
    if InBatch(t, 0) {
      DisplaySpelledPart0(t);
    } else if InBatch(t, 1) {
      DisplaySpelledPart1(t);
    } else if InBatch(t, 2) {
      DisplaySpelledPart2(t);
    } else if InBatch(t, 3) {
      DisplaySpelledPart3(t);
    } else if InBatch(t, 4) {
      DisplaySpelledPart4(t);
    } else if InBatch(t, 5) {
      DisplaySpelledPart5(t);
    } else if InBatch(t, 6) {
      DisplaySpelledPart6(t);
    } else if InBatch(t, 7) {
      DisplaySpelledPart7(t);
    } else if InBatch(t, 8) {
      DisplaySpelledPart8(t);
    } else {
      DisplaySpelledPart9(t);
    }
  }

  /** "InitalD 4 Export" is no title's spelling. */
  lemma InitalD4ExportDisplayUnlisted()
    ensures forall t :: t != Unknown ==> Display(InitalD4Export) !in Spellings(t)
  {
    SpellingFingerprints();
  }

  /** The display name maps back to its title for every listed title but
      `InitalD_4_Export`, whose display name "InitalD 4 Export" is none of the
      spellings `FromString` accepts and so maps to `Unknown`. */
  lemma DisplayRoundTrip(t: GameTitle)
    requires t in AllVariants
    ensures FromString(Display(t)) == t <==> t != InitalD4Export
    ensures t == InitalD4Export ==> FromString(Display(t)) == Unknown
  {
    AllVariantsExact();
    if t == InitalD4Export {
      InitalD4ExportDisplayUnlisted();
      FromStringUnlisted(Display(t));
    } else {
      DisplaySpelled(t);
      SpelledFromString(Display(t), t);
    }
  }

  lemma DisplayIsSpacedDebugNamePart0(t: GameTitle)
    requires t.AfterBurnerClimax? || t.AfterBurnerClimaxSDX?
    ensures Display(t) == Spaced(DebugName(t))
  {
  }

  lemma DisplayIsSpacedDebugNamePart1(t: GameTitle)
    requires t.AfterBurnerClimaxSE? || t.GhostSquadEvolution?
    ensures Display(t) == Spaced(DebugName(t))
  {
  }

  lemma DisplayIsSpacedDebugNamePart2(t: GameTitle)
    requires t.HarleyDavidson? || t.Hummer?
    ensures Display(t) == Spaced(DebugName(t))
  {
  }

  lemma DisplayIsSpacedDebugNamePart3(t: GameTitle)
    requires t.HummerSDLX? || t.HummerExtreme?
    ensures Display(t) == Spaced(DebugName(t))
  {
  }

  lemma DisplayIsSpacedDebugNamePart4(t: GameTitle)
    requires t.HummerExtremeMDX? || t.InitialD4?
    ensures Display(t) == Spaced(DebugName(t))
  {
  }

  lemma DisplayIsSpacedDebugNamePart5(t: GameTitle)
    requires t.InitalD4Export? || t.InitialD5Japan?
    ensures Display(t) == Spaced(DebugName(t))
  {
  }

  lemma DisplayIsSpacedDebugNamePart6(t: GameTitle)
    requires t.InitalD5ExportVer2? || t.InitalD5ExportVer4?
    ensures Display(t) == Spaced(DebugName(t))
  {
  }

  lemma DisplayIsSpacedDebugNamePart7(t: GameTitle)
    requires t.LetsGoJungle? || t.LetsGoJungleSpecial?
    ensures Display(t) == Spaced(DebugName(t))
  {
  }

  lemma DisplayIsSpacedDebugNamePart8(t: GameTitle)
    requires t.Outrun2SPSDX? || t.PrimevalHunt?
    ensures Display(t) == Spaced(DebugName(t))
  {
  }

  lemma DisplayIsSpacedDebugNamePart9(t: GameTitle)
    requires t.Rambo? || t.RamboChina?
    ensures Display(t) == Spaced(DebugName(t))
  {
  }

  lemma DisplayIsSpacedDebugNamePart10(t: GameTitle)
    requires t.RTuned? || t.Segaboot?
    ensures Display(t) == Spaced(DebugName(t))
  {
  }

  lemma DisplayIsSpacedDebugNamePart11(t: GameTitle)
    requires t.Segaboot24? || t.Segaboot24WithSymbols?
    ensures Display(t) == Spaced(DebugName(t))
  {
  }

  lemma DisplayIsSpacedDebugNamePart12(t: GameTitle)
    requires t.Segaboot26? || t.SegaRaceTV?
    ensures Display(t) == Spaced(DebugName(t))
  {
  }

  lemma DisplayIsSpacedDebugNamePart13(t: GameTitle)
    requires t.TheHouseOfTheDead4? || t.TheHouseOfTheDead4Special?
    ensures Display(t) == Spaced(DebugName(t))
  {
  }

  lemma DisplayIsSpacedDebugNamePart14(t: GameTitle)
    requires t.TheHouseOfTheDeadEX? || t.TooSpicy?
    ensures Display(t) == Spaced(DebugName(t))
  {
  }

  lemma DisplayIsSpacedDebugNamePart15(t: GameTitle)
    requires t.VirtuaFighter5? || t.VirtuaFighter5Export?
    ensures Display(t) == Spaced(DebugName(t))
  {
  }

  lemma DisplayIsSpacedDebugNamePart16(t: GameTitle)
    requires t.VirtuaFighter5FinalShowdown? || t.VirtuaFighter5R?
    ensures Display(t) == Spaced(DebugName(t))
  {
  }

  lemma DisplayIsSpacedDebugNamePart17(t: GameTitle)
    requires t.VirtuaTennis3? || t.TaisenMahjong4?
    ensures Display(t) == Spaced(DebugName(t))
  {
  }

  lemma DisplayIsSpacedDebugNamePart18(t: GameTitle)
    requires t.TaisenMahjong4Evolution? || t.Unknown?
    ensures Display(t) == Spaced(DebugName(t))
  {
  }

  /** The title-by-title display names are the debug names with every `_`
      replaced by a space, as `Display for GameTitle` renders them. */
  lemma DisplayIsSpacedDebugName(t: GameTitle)
    ensures Display(t) == Spaced(DebugName(t))
  {
    if t.AfterBurnerClimax? || t.AfterBurnerClimaxSDX? {
      DisplayIsSpacedDebugNamePart0(t);
    } else if t.AfterBurnerClimaxSE? || t.GhostSquadEvolution? {
      DisplayIsSpacedDebugNamePart1(t);
    } else if t.HarleyDavidson? || t.Hummer? {
      DisplayIsSpacedDebugNamePart2(t);
    } else if t.HummerSDLX? || t.HummerExtreme? {
      DisplayIsSpacedDebugNamePart3(t);
    } else if t.HummerExtremeMDX? || t.InitialD4? {
      DisplayIsSpacedDebugNamePart4(t);
    } else if t.InitalD4Export? || t.InitialD5Japan? {
      DisplayIsSpacedDebugNamePart5(t);
    } else if t.InitalD5ExportVer2? || t.InitalD5ExportVer4? {
      DisplayIsSpacedDebugNamePart6(t);
    } else if t.LetsGoJungle? || t.LetsGoJungleSpecial? {
      DisplayIsSpacedDebugNamePart7(t);
    } else if t.Outrun2SPSDX? || t.PrimevalHunt? {
      DisplayIsSpacedDebugNamePart8(t);
    } else if t.Rambo? || t.RamboChina? {
      DisplayIsSpacedDebugNamePart9(t);
    } else if t.RTuned? || t.Segaboot? {
      DisplayIsSpacedDebugNamePart10(t);
    } else if t.Segaboot24? || t.Segaboot24WithSymbols? {
      DisplayIsSpacedDebugNamePart11(t);
    } else if t.Segaboot26? || t.SegaRaceTV? {
      DisplayIsSpacedDebugNamePart12(t);
    } else if t.TheHouseOfTheDead4? || t.TheHouseOfTheDead4Special? {
      DisplayIsSpacedDebugNamePart13(t);
    } else if t.TheHouseOfTheDeadEX? || t.TooSpicy? {
      DisplayIsSpacedDebugNamePart14(t);
    } else if t.VirtuaFighter5? || t.VirtuaFighter5Export? {
      DisplayIsSpacedDebugNamePart15(t);
    } else if t.VirtuaFighter5FinalShowdown? || t.VirtuaFighter5R? {
      DisplayIsSpacedDebugNamePart16(t);
    } else if t.VirtuaTennis3? || t.TaisenMahjong4? {
      DisplayIsSpacedDebugNamePart17(t);
    } else {
      DisplayIsSpacedDebugNamePart18(t);
    }
  }

  // ---------------------------------------------------------------------
  // Telling the debug names apart.

  /** A character of a Rust identifier. */
  predicate IsWordChar(c: char) {
    ('a' <= c <= 'z') || ('A' <= c <= 'Z') || ('0' <= c <= '9') || c == '_'
  }

  /** A non-empty identifier, as every debug name is. */
  predicate IsWord(s: string) {
    |s| > 0 && forall i :: 0 <= i < |s| ==> IsWordChar(s[i])
  }

  /** Recovers the position of a title from the fingerprint of its debug
      name; the debug names have pairwise different fingerprints. */
  function DebugOrdinal(s: string): nat {
    var f := Fingerprint(s);
    if f == (19, 'x', 'a') then 0
    else if f == (23, 'X', 'D') then 1
    else if f == (22, 'E', 'S') then 2
    else if f == (21, 'n', 'o') then 3
    else if f == (15, 'n', 'o') then 4
    else if f == (6, 'r', 'e') then 5
    else if f == (11, 'X', 'L') then 6
    else if f == (14, 'e', 'm') then 7
    else if f == (18, 'X', 'D') then 8
    else if f == (10, '4', '_') then 9
    else if f == (16, 't', 'r') then 10
    else if f == (16, 'n', 'a') then 11
    else if f == (22, '2', '_') then 12
    else if f == (22, '4', '_') then 13
    else if f == (14, 'e', 'l') then 14
    else if f == (22, 'l', 'a') then 15
    else if f == (15, 'X', 'D') then 16
    else if f == (13, 't', 'n') then 17
    else if f == (5, 'o', 'b') then 18
    else if f == (11, 'a', 'n') then 19
    else if f == (7, 'd', 'e') then 20
    else if f == (8, 't', 'o') then 21
    else if f == (12, '4', '_') then 22
    else if f == (25, 's', 'l') then 23
    else if f == (12, '6', '_') then 24
    else if f == (12, 'V', 'T') then 25
    else if f == (23, '4', '_') then 26
    else if f == (31, 'l', 'a') then 27
    else if f == (24, 'X', 'E') then 28
    else if f == (9, 'y', 'c') then 29
    else if f == (16, '5', '_') then 30
    else if f == (23, 't', 'r') then 31
    else if f == (31, 'n', 'w') then 32
    else if f == (18, 'R', '_') then 33
    else if f == (15, '3', '_') then 34
    else if f == (16, '4', '_') then 35
    else if f == (26, 'n', 'o') then 36
    else 37
  }

  // Each debug name, one literal per lemma.
  lemma DebugNameAfterBurnerClimax() ensures IsWord("After_Burner_Climax") && DebugOrdinal("After_Burner_Climax") == 0 {}
  lemma DebugNameAfterBurnerClimaxSDX() ensures IsWord("After_Burner_Climax_SDX") && DebugOrdinal("After_Burner_Climax_SDX") == 1 {}
  lemma DebugNameAfterBurnerClimaxSE() ensures IsWord("After_Burner_Climax_SE") && DebugOrdinal("After_Burner_Climax_SE") == 2 {}
  lemma DebugNameGhostSquadEvolution() ensures IsWord("Ghost_Squad_Evolution") && DebugOrdinal("Ghost_Squad_Evolution") == 3 {}
  lemma DebugNameHarleyDavidson() ensures IsWord("Harley_Davidson") && DebugOrdinal("Harley_Davidson") == 4 {}
  lemma DebugNameHummer() ensures IsWord("Hummer") && DebugOrdinal("Hummer") == 5 {}
  lemma DebugNameHummerSDLX() ensures IsWord("Hummer_SDLX") && DebugOrdinal("Hummer_SDLX") == 6 {}
  lemma DebugNameHummerExtreme() ensures IsWord("Hummer_Extreme") && DebugOrdinal("Hummer_Extreme") == 7 {}
  lemma DebugNameHummerExtremeMDX() ensures IsWord("Hummer_Extreme_MDX") && DebugOrdinal("Hummer_Extreme_MDX") == 8 {}
  lemma DebugNameInitialD4() ensures IsWord("InitialD_4") && DebugOrdinal("InitialD_4") == 9 {}
  lemma DebugNameInitalD4Export() ensures IsWord("InitalD_4_Export") && DebugOrdinal("InitalD_4_Export") == 10 {}
  lemma DebugNameInitialD5Japan() ensures IsWord("InitialD_5_Japan") && DebugOrdinal("InitialD_5_Japan") == 11 {}
  lemma DebugNameInitalD5ExportVer2() ensures IsWord("InitalD_5_Export_Ver_2") && DebugOrdinal("InitalD_5_Export_Ver_2") == 12 {}
  lemma DebugNameInitalD5ExportVer4() ensures IsWord("InitalD_5_Export_Ver_4") && DebugOrdinal("InitalD_5_Export_Ver_4") == 13 {}
  lemma DebugNameLetsGoJungle() ensures IsWord("Lets_Go_Jungle") && DebugOrdinal("Lets_Go_Jungle") == 14 {}
  lemma DebugNameLetsGoJungleSpecial() ensures IsWord("Lets_Go_Jungle_Special") && DebugOrdinal("Lets_Go_Jungle_Special") == 15 {}
  lemma DebugNameOutrun2SPSDX() ensures IsWord("Outrun_2_SP_SDX") && DebugOrdinal("Outrun_2_SP_SDX") == 16 {}
  lemma DebugNamePrimevalHunt() ensures IsWord("Primeval_Hunt") && DebugOrdinal("Primeval_Hunt") == 17 {}
  lemma DebugNameRambo() ensures IsWord("Rambo") && DebugOrdinal("Rambo") == 18 {}
  lemma DebugNameRamboChina() ensures IsWord("Rambo_China") && DebugOrdinal("Rambo_China") == 19 {}
  lemma DebugNameRTuned() ensures IsWord("R_Tuned") && DebugOrdinal("R_Tuned") == 20 {}
  lemma DebugNameSegaboot() ensures IsWord("Segaboot") && DebugOrdinal("Segaboot") == 21 {}
  lemma DebugNameSegaboot24() ensures IsWord("Segaboot_2_4") && DebugOrdinal("Segaboot_2_4") == 22 {}
  lemma DebugNameSegaboot24WithSymbols() ensures IsWord("Segaboot_2_4_With_Symbols") && DebugOrdinal("Segaboot_2_4_With_Symbols") == 23 {}
  lemma DebugNameSegaboot26() ensures IsWord("Segaboot_2_6") && DebugOrdinal("Segaboot_2_6") == 24 {}
  lemma DebugNameSegaRaceTV() ensures IsWord("Sega_Race_TV") && DebugOrdinal("Sega_Race_TV") == 25 {}
  lemma DebugNameTheHouseOfTheDead4() ensures IsWord("The_House_Of_The_Dead_4") && DebugOrdinal("The_House_Of_The_Dead_4") == 26 {}
  lemma DebugNameTheHouseOfTheDead4Special() ensures IsWord("The_House_Of_The_Dead_4_Special") && DebugOrdinal("The_House_Of_The_Dead_4_Special") == 27 {}
  lemma DebugNameTheHouseOfTheDeadEX() ensures IsWord("The_House_Of_The_Dead_EX") && DebugOrdinal("The_House_Of_The_Dead_EX") == 28 {}
  lemma DebugNameTooSpicy() ensures IsWord("Too_Spicy") && DebugOrdinal("Too_Spicy") == 29 {}
  lemma DebugNameVirtuaFighter5() ensures IsWord("Virtua_Fighter_5") && DebugOrdinal("Virtua_Fighter_5") == 30 {}
  lemma DebugNameVirtuaFighter5Export() ensures IsWord("Virtua_Fighter_5_Export") && DebugOrdinal("Virtua_Fighter_5_Export") == 31 {}
  lemma DebugNameVirtuaFighter5FinalShowdown() ensures IsWord("Virtua_Fighter_5_Final_Showdown") && DebugOrdinal("Virtua_Fighter_5_Final_Showdown") == 32 {}
  lemma DebugNameVirtuaFighter5R() ensures IsWord("Virtua_Fighter_5_R") && DebugOrdinal("Virtua_Fighter_5_R") == 33 {}
  lemma DebugNameVirtuaTennis3() ensures IsWord("Virtua_Tennis_3") && DebugOrdinal("Virtua_Tennis_3") == 34 {}
  lemma DebugNameTaisenMahjong4() ensures IsWord("Taisen_Mahjong_4") && DebugOrdinal("Taisen_Mahjong_4") == 35 {}
  lemma DebugNameTaisenMahjong4Evolution() ensures IsWord("Taisen_Mahjong_4_Evolution") && DebugOrdinal("Taisen_Mahjong_4_Evolution") == 36 {}
  lemma DebugNameUnknown() ensures IsWord("Unknown") && DebugOrdinal("Unknown") == 37 {}

  lemma DebugOrdinalNameA(t: GameTitle)
    requires Ordinal(t) < 19
    ensures DebugOrdinal(DebugName(t)) == Ordinal(t)
    ensures IsWord(DebugName(t))
  {
    match t
    case AfterBurnerClimax => DebugNameAfterBurnerClimax();
    case AfterBurnerClimaxSDX => DebugNameAfterBurnerClimaxSDX();
    case AfterBurnerClimaxSE => DebugNameAfterBurnerClimaxSE();
    case GhostSquadEvolution => DebugNameGhostSquadEvolution();
    case HarleyDavidson => DebugNameHarleyDavidson();
    case Hummer => DebugNameHummer();
    case HummerSDLX => DebugNameHummerSDLX();
    case HummerExtreme => DebugNameHummerExtreme();
    case HummerExtremeMDX => DebugNameHummerExtremeMDX();
    case InitialD4 => DebugNameInitialD4();
    case InitalD4Export => DebugNameInitalD4Export();
    case InitialD5Japan => DebugNameInitialD5Japan();
    case InitalD5ExportVer2 => DebugNameInitalD5ExportVer2();
    case InitalD5ExportVer4 => DebugNameInitalD5ExportVer4();
    case LetsGoJungle => DebugNameLetsGoJungle();
    case LetsGoJungleSpecial => DebugNameLetsGoJungleSpecial();
    case Outrun2SPSDX => DebugNameOutrun2SPSDX();
    case PrimevalHunt => DebugNamePrimevalHunt();
    case Rambo => DebugNameRambo();
    case _ =>
  }

  lemma DebugOrdinalNameB(t: GameTitle)
    requires 19 <= Ordinal(t)
    ensures DebugOrdinal(DebugName(t)) == Ordinal(t)
    ensures IsWord(DebugName(t))
  {
    match t
    case RamboChina => DebugNameRamboChina();
    case RTuned => DebugNameRTuned();
    case Segaboot => DebugNameSegaboot();
    case Segaboot24 => DebugNameSegaboot24();
    case Segaboot24WithSymbols => DebugNameSegaboot24WithSymbols();
    case Segaboot26 => DebugNameSegaboot26();
    case SegaRaceTV => DebugNameSegaRaceTV();
    case TheHouseOfTheDead4 => DebugNameTheHouseOfTheDead4();
    case TheHouseOfTheDead4Special => DebugNameTheHouseOfTheDead4Special();
    case TheHouseOfTheDeadEX => DebugNameTheHouseOfTheDeadEX();
    case TooSpicy => DebugNameTooSpicy();
    case VirtuaFighter5 => DebugNameVirtuaFighter5();
    case VirtuaFighter5Export => DebugNameVirtuaFighter5Export();
    case VirtuaFighter5FinalShowdown => DebugNameVirtuaFighter5FinalShowdown();
    case VirtuaFighter5R => DebugNameVirtuaFighter5R();
    case VirtuaTennis3 => DebugNameVirtuaTennis3();
    case TaisenMahjong4 => DebugNameTaisenMahjong4();
    case TaisenMahjong4Evolution => DebugNameTaisenMahjong4Evolution();
    case Unknown => DebugNameUnknown();
    case _ =>
  }

  /** Each debug name gives back its title's position, and is an
      identifier. */
  lemma DebugOrdinalName(t: GameTitle)
    ensures DebugOrdinal(DebugName(t)) == Ordinal(t)
    ensures IsWord(DebugName(t))
  {
    if Ordinal(t) < 19 {
      DebugOrdinalNameA(t);
    } else {
      DebugOrdinalNameB(t);
    }
  }

  /** Different titles have different debug names: the registry and the
      config file names tell the titles apart. */
  lemma DebugNameInjective(a: GameTitle, b: GameTitle)
    ensures DebugName(a) == DebugName(b) <==> a == b
  {
    DebugOrdinalName(a);
    DebugOrdinalName(b);
    TitleAtOrdinal(a);
    TitleAtOrdinal(b);
  }
}
