/**
  The loader configuration (`LindberghConfig` in src/config.rs): its value
  types and their codecs, the default configuration, the per-title
  configuration file the GUI writes and reads back, and the round trip
  between the two.

  A file is modelled as its sequence of lines. The writer emits two comment
  lines, one `KEY value` line per setting (with the keymap's `INPUT_MODE`
  line among them) and then the keymap's own lines. The reader first reads
  the keymap from the whole file and then scans the file once more for the
  settings.
*/
module Configs {
  import opened Wrappers
  import opened Text
  import opened ConfKeys
  import opened ConfLines
  import opened Games
  import opened SdlKeymaps
  import opened EvdevInputs
  import opened Keymaps

  // ---------------------------------------------------------------------
  // Value types and their codecs.

  /** `i32_to_bool`: 0 and 1 are the only numbers that name a flag. */
  function I32ToBool(v: int): (r: Option<bool>)
    ensures r.Some? <==> v == 0 || v == 1
    ensures r == Some(true) <==> v == 1
  {
    if v == 0 then Some(false) else if v == 1 then Some(true) else None
  }

  /** `b as i32`, as the writer prints a flag. */
  function BoolNumber(b: bool): nat {
    if b then 1 else 0
  }

  /** Printing a flag as a number and converting it back gives the flag. */
  lemma BoolNumberRoundTrip(b: bool)
    ensures I32ToBool(BoolNumber(b)) == Some(b)
    ensures forall v: int :: I32ToBool(v) == Some(b) ==> v == BoolNumber(b)
  {
  }

  /** `GameRegion`, written and read by its `Debug` name. */
  datatype GameRegion = JP | US | EX

  function RegionName(r: GameRegion): string {
    match r
    case JP => "JP"
    case US => "US"
    case EX => "EX"
  }

  /** The reader's `match r[1]` on the region names. */
  function RegionOf(s: string): Option<GameRegion> {
    match s
    case "JP" => Some(JP)
    case "US" => Some(US)
    case "EX" => Some(EX)
    case _ => None
  }

  /** The region names are decoded exactly: a region's name gives the
      region, and only a region's name is accepted. */
  lemma RegionRoundTrip(r: GameRegion, s: string)
    ensures RegionOf(RegionName(r)) == Some(r)
    ensures RegionOf(s) == Some(r) <==> s == RegionName(r)
  {
  }

  /** `GpuType`, written as its `as_i32` number. */
  datatype GpuType = AutoDetect | Nvidia | Amd | Ati | Intel | UnknownGpu

  function GpuNumber(g: GpuType): nat {
    match g
    case AutoDetect => 0
    case Nvidia => 1
    case Amd => 2
    case Ati => 3
    case Intel => 4
    case UnknownGpu => 5
  }

  /** The reader's `match` on the `GPU_VENDOR` number. */
  function GpuOf(n: U32): Option<GpuType> {
    if n == 0 then Some(AutoDetect)
    else if n == 1 then Some(Nvidia)
    else if n == 2 then Some(Amd)
    else if n == 3 then Some(Ati)
    else if n == 4 then Some(Intel)
    else if n == 5 then Some(UnknownGpu)
    else None
  }

  /** The GPU numbers are decoded exactly: 0 to 5, one vendor each. */
  lemma GpuRoundTrip(g: GpuType, n: U32)
    ensures GpuNumber(g) <= 5 && GpuOf(GpuNumber(g)) == Some(g)
    ensures GpuOf(n) == Some(g) <==> n == GpuNumber(g)
    ensures GpuOf(n).Some? <==> n <= 5
  {
  }

  /** `LindberghColor`, written and read by its `Debug` name. */
  datatype CabinetColour = Yellow | Red | Blue | Silver | RedEx

  function ColourName(c: CabinetColour): string {
    match c
    case Yellow => "YELLOW"
    case Red => "RED"
    case Blue => "BLUE"
    case Silver => "SILVER"
    case RedEx => "REDEX"
  }

  /** The reader's `match r[1]` on the colour names. */
  function ColourOf(s: string): Option<CabinetColour> {
    match s
    case "YELLOW" => Some(Yellow)
    case "RED" => Some(Red)
    case "BLUE" => Some(Blue)
    case "SILVER" => Some(Silver)
    case "REDEX" => Some(RedEx)
    case _ => None
  }

  lemma ColourRoundTrip(c: CabinetColour, s: string)
    ensures ColourOf(ColourName(c)) == Some(c)
    ensures ColourOf(s) == Some(c) <==> s == ColourName(c)
  {
  }

  /** `PrimevalHuntMode`, written as its `into_i32` number. */
  datatype HuntMode = NoTouchScreen | SideBySide | TouchScreenRight | TouchScreenBottom

  function HuntModeNumber(m: HuntMode): nat {
    match m
    case NoTouchScreen => 1
    case SideBySide => 2
    case TouchScreenRight => 3
    case TouchScreenBottom => 4
  }

  /** The reader's `match` on the `PRIMEVAL_HUNT_MODE` number: 0 is read as
      `NoTouchScreen` too. */
  function HuntModeOf(n: U32): Option<HuntMode> {
    if n == 0 || n == 1 then Some(NoTouchScreen)
    else if n == 2 then Some(SideBySide)
    else if n == 3 then Some(TouchScreenRight)
    else if n == 4 then Some(TouchScreenBottom)
    else None
  }

  /** Every mode reads back from its number; 0 is the one other number
      accepted, and it means `NoTouchScreen`. */
  lemma HuntModeRoundTrip(m: HuntMode, n: U32)
    ensures 1 <= HuntModeNumber(m) <= 4 && HuntModeOf(HuntModeNumber(m)) == Some(m)
    ensures HuntModeOf(n) == Some(m) <==> n == HuntModeNumber(m) || (n == 0 && m == NoTouchScreen)
    ensures HuntModeOf(n).Some? <==> n <= 4
  {
  }

  // ---------------------------------------------------------------------
  // The configuration.

  /** The value of one setting, of the setting's own kind. */
  datatype SettingValue =
    | Number(n: U32)
    | Flag(b: bool)
    | Path(p: string)
    | RegionIs(r: GameRegion)
    | GpuIs(g: GpuType)
    | HuntIs(m: HuntMode)
    | ColourIs(c: CabinetColour)

  /** How the reader treats a setting's value: the arms of its `match`
      fall into these groups. */
  datatype SettingKind =
    | SizeKind            // a `u32`, or `AUTO` to keep the current value
    | FlagKind            // 0 or 1
    | BoardFlagKind       // 0 or 1, or `AUTO` to keep the current value
    | RegionKind          // a region name
    | PathKind            // any word, taken as it is
    | GpuKind             // a `u32` from 0 to 5
    | PercentKind(white: bool)   // a `u32` from 0 to 100
    | CountKind           // a `u32`
    | HuntKind            // a `u32` from 0 to 4
    | ColourKind          // a colour name

  function KindOf(s: Setting): SettingKind {
    match s
    case Width | Height => SizeKind
    case EmulateRideboard | EmulateDriveboard | EmulateMotionboard => BoardFlagKind
    case Region => RegionKind
    case JvsPath | Serial1Path | Serial2Path | SramPath | EepromPath => PathKind
    case GpuVendor => GpuKind
    case WhiteBorderPercentage => PercentKind(true)
    case BlackBorderPercentage => PercentKind(false)
    case FpsTarget => CountKind
    case PrimevalHuntMode => HuntKind
    case LindberghColour => ColourKind
    case _ => FlagKind
  }

  /** The values a kind of setting holds: the type of the field its line
      assigns. */
  predicate KindFits(k: SettingKind, v: SettingValue) {
    match k
    case SizeKind | PercentKind(_) | CountKind => v.Number?
    case FlagKind | BoardFlagKind => v.Flag?
    case RegionKind => v.RegionIs?
    case PathKind => v.Path?
    case GpuKind => v.GpuIs?
    case HuntKind => v.HuntIs?
    case ColourKind => v.ColourIs?
  }

  predicate SettingFits(s: Setting, v: SettingValue) {
    KindFits(KindOf(s), v)
  }

  /** The number of settings the file carries. */
  const SettingCount: nat := 30

  /** The setting at each position of `SettingIndex`. */
  function SettingAt(i: nat): Setting
    requires i < SettingCount
  {
    match i
    case 0 => Width
    case 1 => Height
    case 2 => Fullscreen
    case 3 => NoSdl
    case 4 => Region
    case 5 => Freeplay
    case 6 => EmulateJvs
    case 7 => EmulateRideboard
    case 8 => EmulateDriveboard
    case 9 => EmulateMotionboard
    case 10 => JvsPath
    case 11 => Serial1Path
    case 12 => Serial2Path
    case 13 => SramPath
    case 14 => EepromPath
    case 15 => GpuVendor
    case 16 => DebugMsgs
    case 17 => BorderEnabled
    case 18 => WhiteBorderPercentage
    case 19 => BlackBorderPercentage
    case 20 => HummerFlickerFix
    case 21 => KeepAspectRatio
    case 22 => OutrunLensGlareEnabled
    case 23 => SkipOutrunCabinetCheck
    case 24 => FpsLimiterEnabled
    case 25 => FpsTarget
    case 26 => LgjRenderWithMesa
    case 27 => PrimevalHuntMode
    case 28 => LindberghColour
    case _ => Mj4EnabledAllTheTime
  }

  lemma SettingAtIndex0(i: nat)
    requires i < 10
    ensures SettingIndex(SettingAt(i)) == i
  {
  }

  lemma SettingAtIndex1(i: nat)
    requires 10 <= i < 20
    ensures SettingIndex(SettingAt(i)) == i
  {
  }

  lemma SettingAtIndex2(i: nat)
    requires 20 <= i < SettingCount
    ensures SettingIndex(SettingAt(i)) == i
  {
  }

  /** Each position holds the setting whose position it is. */
  lemma SettingAtIndex(i: nat)
    requires i < SettingCount
    ensures Slot(SettingAt(i)) == i
  {
    if i < 10 {
      SettingAtIndex0(i);
    } else if i < 20 {
      SettingAtIndex1(i);
    } else {
      SettingAtIndex2(i);
    }
  }

  /** Where a setting is held: a position no other setting shares. */
  function Slot(s: Setting): (i: nat)
    ensures i < SettingCount && SettingAt(i) == s
  {
    SettingIndex(s)
  }

  /** The defaults of `LindberghConfig::default()`, setting by setting. */
  function DefaultSetting(s: Setting): (v: SettingValue)
    ensures SettingFits(s, v)
  {
    match s
    case Width => Number(640)
    case Height => Number(480)
    case Fullscreen => Flag(false)
    case NoSdl => Flag(false)
    case Region => RegionIs(JP)
    case Freeplay => Flag(false)
    case EmulateJvs => Flag(true)
    case EmulateRideboard => Flag(true)
    case EmulateDriveboard => Flag(true)
    case EmulateMotionboard => Flag(true)
    case JvsPath => Path("/dev/ttyUSB0")
    case Serial1Path => Path("/dev/ttyS0")
    case Serial2Path => Path("/dev/ttyS1")
    case SramPath => Path("sram.bin")
    case EepromPath => Path("eeprom.bin")
    case GpuVendor => GpuIs(AutoDetect)
    case DebugMsgs => Flag(false)
    case BorderEnabled => Flag(false)
    case WhiteBorderPercentage => Number(2)
    case BlackBorderPercentage => Number(0)
    case HummerFlickerFix => Flag(false)
    case KeepAspectRatio => Flag(false)
    case OutrunLensGlareEnabled => Flag(false)
    case SkipOutrunCabinetCheck => Flag(false)
    case FpsLimiterEnabled => Flag(false)
    case FpsTarget => Number(60)
    case LgjRenderWithMesa => Flag(true)
    case PrimevalHuntMode => HuntIs(NoTouchScreen)
    case LindberghColour => ColourIs(Yellow)
    case Mj4EnabledAllTheTime => Flag(true)
  }

  /** The values of the settings, each at its setting's `Slot`: the fields
      of `LindberghConfig` that the file carries. */
  type Settings = vs: seq<SettingValue> | |vs| == SettingCount
    witness seq(SettingCount, i requires 0 <= i < SettingCount => DefaultSetting(SettingAt(i)))

  /** `LindberghConfig`: the game's executable path (kept in the registry,
      not in the file), the keymap, and the settings of the file. */
  datatype LindberghConfig = LindberghConfig(exePath: string, inputMethod: Keymap, settings: Settings)

  /** Every setting at its default value. */
  function DefaultSettings(): (vs: seq<SettingValue>)
    ensures |vs| == SettingCount
    ensures forall i | 0 <= i < SettingCount :: vs[i] == DefaultSetting(SettingAt(i))
  {
    seq(SettingCount, i requires 0 <= i < SettingCount => DefaultSetting(SettingAt(i)))
  }

  /** `LindberghConfig::default()`. */
  const DefaultConfig: LindberghConfig := LindberghConfig("", DefaultKeymap, DefaultSettings())

  /** The value of one setting. */
  function GetSetting(c: LindberghConfig, s: Setting): SettingValue {
    c.settings[Slot(s)]
  }

  /** Every setting holds a value of its kind, as the field types of
      `LindberghConfig` guarantee. */
  predicate WellKinded(c: LindberghConfig) {
    forall i | 0 <= i < SettingCount :: SettingFits(SettingAt(i), c.settings[i])
  }

  lemma WellKindedGet(c: LindberghConfig, s: Setting)
    requires WellKinded(c)
    ensures SettingFits(s, GetSetting(c, s))
  {
    assert SettingAt(Slot(s)) == s;
  }

  /** Assigns one setting and leaves everything else alone. */
  function PutSetting(c: LindberghConfig, s: Setting, v: SettingValue): (r: LindberghConfig)
    ensures GetSetting(r, s) == v
    ensures forall s' :: s' != s ==> GetSetting(r, s') == GetSetting(c, s')
    ensures r.exePath == c.exePath && r.inputMethod == c.inputMethod
    ensures WellKinded(c) && SettingFits(s, v) ==> WellKinded(r)
  {
    c.(settings := c.settings[Slot(s) := v])
  }

  /** Two configurations that agree on every setting, the executable path
      and the keymap are the same. */
  lemma ConfigExtensionality(a: LindberghConfig, b: LindberghConfig)
    requires forall s :: GetSetting(a, s) == GetSetting(b, s)
    requires a.exePath == b.exePath && a.inputMethod == b.inputMethod
    ensures a == b
  {
    forall i | 0 <= i < SettingCount ensures a.settings[i] == b.settings[i] {
      SettingAtIndex(i);
      assert GetSetting(a, SettingAt(i)) == GetSetting(b, SettingAt(i));
    }
  }

  /** The default configuration holds each setting's default. */
  lemma DefaultConfigSettings(s: Setting)
    ensures GetSetting(DefaultConfig, s) == DefaultSetting(s)
    ensures WellKinded(DefaultConfig)
  {
  }

  // ---------------------------------------------------------------------
  // Setting values on a line.

  /** `r[1].parse::<i32>()?`: a decimal `i32` argument, or the parse error. */
  function I32Arg(s: string): (r: Result<int, ReadError>)
    ensures r.Ok? <==> ParseI32(s).Some?
    ensures r.Ok? ==> r.value == ParseI32(s).value
    ensures r.Err? ==> r.error == InvalidNumber(s)
  {
    match ParseI32(s)
    case Some(n) => Ok(n)
    case None => Err(InvalidNumber(s))
  }

  /** `result_i32_to_bool(r[1].parse()?, line)`: a flag is the number 0 or 1;
      another number is rejected with the line number, and a token that is
      no `i32` with the parse error. */
  function FlagArg(v: string, line: nat): (r: Result<bool, ReadError>)
    ensures r.Ok? <==> ParseI32(v) == Some(0) || ParseI32(v) == Some(1)
    ensures r.Ok? ==> (r.value <==> ParseI32(v) == Some(1))
    ensures r.Err? ==> r.error == if ParseI32(v).None? then InvalidNumber(v) else InvalidBool(line)
  {
    var i :- I32Arg(v);
    match I32ToBool(i)
    case Some(b) => Ok(b)
    case None => Err(InvalidBool(line))
  }

  /** The settings whose line may say `AUTO` to keep the current value. */
  predicate AllowsAuto(s: Setting) {
    KindOf(s) == SizeKind || KindOf(s) == BoardFlagKind
  }

  /** The reader's arm for a kind of setting: the value the line assigns,
      `None` when the line leaves the setting alone (`AUTO`), or the error
      that stops the read. */
  function ParseKind(k: SettingKind, v: string, line: nat): (r: Result<Option<SettingValue>, ReadError>)
    ensures r.Ok? && r.value.Some? ==> KindFits(k, r.value.value)
  {
    match k
    case SizeKind =>
      if v == "AUTO" then Ok(None)
      else
        var n :- U32Arg(v);
        Ok(Some(Number(n)))
    case FlagKind =>
      var b :- FlagArg(v, line);
      Ok(Some(Flag(b)))
    case BoardFlagKind =>
      if v == "AUTO" then Ok(None)
      else
        var b :- FlagArg(v, line);
        Ok(Some(Flag(b)))
    case RegionKind =>
      (match RegionOf(v)
       case Some(r) => Ok(Some(RegionIs(r)))
       case None => Err(InvalidRegion(v)))
    case PathKind =>
      Ok(Some(Path(v)))
    case GpuKind =>
      var n :- U32Arg(v);
      (match GpuOf(n)
       case Some(g) => Ok(Some(GpuIs(g)))
       case None => Err(InvalidGpuVendor))
    case PercentKind(white) =>
      var p :- U32Arg(v);
      if p > 100 then Err(if white then WhiteBorderOutOfRange else BlackBorderOutOfRange)
      else Ok(Some(Number(p)))
    case CountKind =>
      var n :- U32Arg(v);
      Ok(Some(Number(n)))
    case HuntKind =>
      var n :- U32Arg(v);
      (match HuntModeOf(n)
       case Some(m) => Ok(Some(HuntIs(m)))
       case None => Err(InvalidPrimevalHuntMode))
    case ColourKind =>
      (match ColourOf(v)
       case Some(c) => Ok(Some(ColourIs(c)))
       case None => Err(InvalidColour))
  }

  /** The reader's arm for a setting (`LindberghConfig::read_from_lindbergh_conf`). */
  function ParseSetting(s: Setting, v: string, line: nat): (r: Result<Option<SettingValue>, ReadError>)
    ensures r.Ok? && r.value.Some? ==> SettingFits(s, r.value.value)
  {
    ParseKind(KindOf(s), v, line)
  }

  /** `AUTO` is a number to neither parser. */
  lemma AutoNotNumber()
    ensures ParseU32("AUTO").None? && ParseI32("AUTO").None?
  {
    assert !IsDigit("AUTO"[0]);
  }

  /** `AUTO` leaves a setting alone exactly for the window size and the
      three board flags; for every other setting it is a value (a path) or
      an error. */
  lemma AutoKeeps(s: Setting, line: nat)
    ensures ParseSetting(s, "AUTO", line) == Ok(None) <==> AllowsAuto(s)
    ensures !AllowsAuto(s) && KindOf(s) != PathKind ==> ParseSetting(s, "AUTO", line).Err?
  {
    AutoNotNumber();
  }

  /** A border percentage is a `u32` from 0 to 100; a larger number is its
      own error, and a token that is no `u32` the parse error. */
  lemma PercentBound(s: Setting, v: string, line: nat)
    requires KindOf(s).PercentKind?
    ensures ParseSetting(s, v, line).Ok? <==> ParseU32(v).Some? && ParseU32(v).value <= 100
    ensures ParseSetting(s, v, line).Ok? ==> ParseSetting(s, v, line).value == Some(Number(ParseU32(v).value))
    ensures ParseU32(v).None? ==> ParseSetting(s, v, line) == Err(InvalidNumber(v))
    ensures ParseU32(v).Some? && ParseU32(v).value > 100 ==>
      ParseSetting(s, v, line) == Err(if s == WhiteBorderPercentage then WhiteBorderOutOfRange else BlackBorderOutOfRange)
  {
  }

  /** A flag setting takes exactly the numbers 0 and 1; another `i32` is
      rejected with the 1-based line number, and a token that is no `i32`
      with the parse error. `AUTO` is accepted by the board flags only. */
  lemma FlagStrict(s: Setting, v: string, line: nat)
    requires KindOf(s) == FlagKind || (KindOf(s) == BoardFlagKind && v != "AUTO")
    ensures ParseSetting(s, v, line).Ok? <==> ParseI32(v) == Some(0) || ParseI32(v) == Some(1)
    ensures ParseSetting(s, v, line).Ok? ==> ParseSetting(s, v, line).value == Some(Flag(ParseI32(v) == Some(1)))
    ensures ParseI32(v).Some? && ParseI32(v).value !in {0, 1} ==> ParseSetting(s, v, line) == Err(InvalidBool(line))
    ensures ParseI32(v).None? ==> ParseSetting(s, v, line) == Err(InvalidNumber(v))
  {
  }

  /** The GPU vendor takes the numbers 0 to 5, the hunt mode 0 to 4, and
      the region and colour exactly the names the writer prints. */
  lemma EnumArms(s: Setting, v: string, line: nat)
    ensures KindOf(s) == GpuKind ==>
      (ParseSetting(s, v, line).Ok? <==> ParseU32(v).Some? && ParseU32(v).value <= 5)
    ensures KindOf(s) == HuntKind ==>
      (ParseSetting(s, v, line).Ok? <==> ParseU32(v).Some? && ParseU32(v).value <= 4)
    ensures KindOf(s) == RegionKind ==>
      (ParseSetting(s, v, line).Ok? <==> exists r :: v == RegionName(r))
    ensures KindOf(s) == ColourKind ==>
      (ParseSetting(s, v, line).Ok? <==> exists c :: v == ColourName(c))
  {
    if KindOf(s) == RegionKind {
      if ParseSetting(s, v, line).Ok? {
        RegionRoundTrip(RegionOf(v).value, v);
      } else {
        forall r ensures v != RegionName(r) {
          RegionRoundTrip(r, v);
        }
      }
    }
    if KindOf(s) == ColourKind {
      if ParseSetting(s, v, line).Ok? {
        ColourRoundTrip(ColourOf(v).value, v);
      } else {
        forall c ensures v != ColourName(c) {
          ColourRoundTrip(c, v);
        }
      }
    }
    if KindOf(s) == GpuKind && ParseU32(v).Some? {
      GpuRoundTrip(AutoDetect, ParseU32(v).value);
    }
    if KindOf(s) == HuntKind && ParseU32(v).Some? {
      HuntModeRoundTrip(NoTouchScreen, ParseU32(v).value);
    }
  }

  /** How the writer prints a setting's value (`{}` of the field, `as i32`
      of a flag, `as_i32` / `into_i32` of the GPU and hunt mode, the
      `Debug` name of the region and colour). */
  function ValueText(x: SettingValue): string {
    match x
    case Number(n) => ShowNat(n)
    case Flag(b) => ShowNat(BoolNumber(b))
    case Path(p) => p
    case RegionIs(r) => RegionName(r)
    case GpuIs(g) => ShowNat(GpuNumber(g))
    case HuntIs(m) => ShowNat(HuntModeNumber(m))
    case ColourIs(c) => ColourName(c)
  }

  /** A value its setting's arm reads back from its printed form: of the
      setting's kind, and a border percentage of at most 100. */
  predicate ValueReadable(s: Setting, x: SettingValue) {
    && SettingFits(s, x)
    && (KindOf(s).PercentKind? ==> x.n <= 100)
  }

  /** A value whose printed form is moreover one word: a path without
      whitespace that is not empty. */
  predicate ValueStorable(s: Setting, x: SettingValue) {
    ValueReadable(s, x) && (x.Path? ==> IsToken(x.p))
  }

  lemma NumberNotAuto(n: nat)
    ensures ShowNat(n) != "AUTO"
  {
    var t := ShowNat(n);
    assert IsDigit(t[0]);
    assert !IsDigit("AUTO"[0]);
  }

  /** A printed value is read back as that value by its setting's arm. */
  lemma ValueReadsBack(s: Setting, x: SettingValue, line: nat)
    requires ValueReadable(s, x)
    ensures ParseSetting(s, ValueText(x), line) == Ok(Some(x))
  {
    KindReadsBack(KindOf(s), x, line);
  }

  lemma KindReadsBack(k: SettingKind, x: SettingValue, line: nat)
    requires KindFits(k, x) && (k.PercentKind? ==> x.n <= 100)
    ensures ParseKind(k, ValueText(x), line) == Ok(Some(x))
  {
    match x
    case Number(n) =>
      ParseU32Show(n);
      NumberNotAuto(n);
    case Flag(b) =>
      ParseI32Show(BoolNumber(b));
      NumberNotAuto(BoolNumber(b));
    case Path(p) =>
    case RegionIs(r) => RegionRoundTrip(r, ValueText(x));
    case GpuIs(g) =>
      GpuRoundTrip(g, GpuNumber(g));
      ParseU32Show(GpuNumber(g));
    case HuntIs(m) =>
      HuntModeRoundTrip(m, HuntModeNumber(m));
      ParseU32Show(HuntModeNumber(m));
    case ColourIs(c) => ColourRoundTrip(c, ValueText(x));
  }

  /** Whatever a line assigns is read back in the same way once printed:
      reading is stable under writing. */
  lemma ParsedReadsBack(s: Setting, v: string, line: nat, line': nat)
    requires ParseSetting(s, v, line).Ok? && ParseSetting(s, v, line).value.Some?
    ensures ParseSetting(s, ValueText(ParseSetting(s, v, line).value.value), line')
         == ParseSetting(s, v, line)
  {
    var x := ParseSetting(s, v, line).value.value;
    ValueReadsBack(s, x, line');
  }

  /** Every printed value of a storable setting is one word. */
  lemma ValueTextToken(s: Setting, x: SettingValue)
    requires ValueStorable(s, x)
    ensures IsToken(ValueText(x))
  {
    match x
    case Number(n) => ShowNatIsToken(n);
    case Flag(b) => ShowNatIsToken(BoolNumber(b));
    case Path(p) =>
    case RegionIs(r) => PrintableToken(RegionName(r));
    case GpuIs(g) => ShowNatIsToken(GpuNumber(g));
    case HuntIs(m) => ShowNatIsToken(HuntModeNumber(m));
    case ColourIs(c) => PrintableToken(ColourName(c));
  }

  // ---------------------------------------------------------------------
  // Reading a configuration file.

  /** The settings reader's handling of one line: a setting's key assigns
      that setting (an `AUTO` size or board flag leaves it alone), a bad
      value stops the read, and every other key is passed over. */
  function ConfigStep(c: LindberghConfig, key: string, value: string, rest: seq<string>, line: nat): (r: Result<LindberghConfig, ReadError>)
    ensures SettingOf(key).None? ==> r == Ok(c)
    ensures r.Err? <==> SettingOf(key).Some? && ParseSetting(SettingOf(key).value, value, line).Err?
    ensures r.Ok? ==> r.value.exePath == c.exePath && r.value.inputMethod == c.inputMethod
    ensures r.Ok? && SettingOf(key).Some? ==>
      forall s :: s != SettingOf(key).value ==> GetSetting(r.value, s) == GetSetting(c, s)
    ensures r.Ok? && WellKinded(c) ==> WellKinded(r.value)
  {
    match SettingOf(key)
    case None => Ok(c)
    case Some(s) =>
      var v :- ParseSetting(s, value, line);
      match v
      case None => Ok(c)
      case Some(x) => Ok(PutSetting(c, s, x))
  }

  /** Reading settings keeps the executable path and the keymap, and keeps
      every setting of its kind. */
  lemma {:induction false} ScanKeepsKinds(c: LindberghConfig, lines: seq<string>, first: nat)
    ensures Scan(ConfigStep, c, lines, first).state.exePath == c.exePath
    ensures Scan(ConfigStep, c, lines, first).state.inputMethod == c.inputMethod
    ensures WellKinded(c) ==> WellKinded(Scan(ConfigStep, c, lines, first).state)
    decreases |lines|
  {
    if |lines| > 0 {
      match Classify(lines[0])
      case Skip => ScanKeepsKinds(c, lines[1..], first + 1);
      case Short =>
      case Entry(key, value, rest) =>
        match ConfigStep(c, key, value, rest, first)
        case Err(_) =>
        case Ok(c') => ScanKeepsKinds(c', lines[1..], first + 1);
    }
  }

  /** `LindberghConfig::read_from_lindbergh_conf`: the keymap is read from
      the whole file first, and an error there stops the read before any
      setting; then the settings are read line by line. The executable path
      is not in the file and is kept. */
  function ReadConfig(c: LindberghConfig, buf: seq<string>): (r: Outcome<LindberghConfig>)
    ensures r.state.exePath == c.exePath
    ensures r.state.inputMethod == ReadKeymap(c.inputMethod, buf).state
    ensures ReadKeymap(c.inputMethod, buf).error.Some? ==> r.error == ReadKeymap(c.inputMethod, buf).error && r.state.settings == c.settings
    ensures WellKinded(c) ==> WellKinded(r.state)
  {
    var k := ReadKeymap(c.inputMethod, buf);
    var c1 := c.(inputMethod := k.state);
    assert WellKinded(c) ==> WellKinded(c1);
    if k.error.Some? then Outcome(c1, k.error)
    else
      ScanKeepsKinds(c1, buf, 1);
      Scan(ConfigStep, c1, buf, 1)
  }

  /** A line with a key and no value stops the read, already in the keymap
      read: a blank path, written as `JVS_PATH `, cannot be read back. */
  lemma ShortLineStops(c: LindberghConfig, key: string)
    requires IsToken(key) && key != "#"
    ensures ReadConfig(c, [key]) == Outcome(c, Some(TooFewArguments(1)))
  {
    SplitWsToken(key);
  }

  // ---------------------------------------------------------------------
  // Writing a configuration file.

  /** A line of the settings part of the file: a setting, or the keymap's
      `INPUT_MODE`. */
  datatype ConfigItem = SettingItem(s: Setting) | ModeItem

  const ItemCount: nat := 31

  /** The order of the lines `write_to_lindbergh_conf` writes. */
  function ItemAt(i: nat): ConfigItem
    requires i < ItemCount
  {
    match i
    case 0 => SettingItem(Width)
    case 1 => SettingItem(Height)
    case 2 => SettingItem(Fullscreen)
    case 3 => ModeItem
    case 4 => SettingItem(NoSdl)
    case 5 => SettingItem(Region)
    case 6 => SettingItem(Freeplay)
    case 7 => SettingItem(EmulateJvs)
    case 8 => SettingItem(EmulateRideboard)
    case 9 => SettingItem(EmulateMotionboard)
    case 10 => SettingItem(EmulateDriveboard)
    case 11 => SettingItem(JvsPath)
    case 12 => SettingItem(Serial1Path)
    case 13 => SettingItem(Serial2Path)
    case 14 => SettingItem(SramPath)
    case 15 => SettingItem(EepromPath)
    case 16 => SettingItem(GpuVendor)
    case 17 => SettingItem(DebugMsgs)
    case 18 => SettingItem(BorderEnabled)
    case 19 => SettingItem(WhiteBorderPercentage)
    case 20 => SettingItem(BlackBorderPercentage)
    case 21 => SettingItem(HummerFlickerFix)
    case 22 => SettingItem(KeepAspectRatio)
    case 23 => SettingItem(OutrunLensGlareEnabled)
    case 24 => SettingItem(SkipOutrunCabinetCheck)
    case 25 => SettingItem(FpsLimiterEnabled)
    case 26 => SettingItem(FpsTarget)
    case 27 => SettingItem(LgjRenderWithMesa)
    case 28 => SettingItem(PrimevalHuntMode)
    case 29 => SettingItem(LindberghColour)
    case _ => SettingItem(Mj4EnabledAllTheTime)
  }

  const WriteOrder: seq<ConfigItem> := seq(ItemCount, i requires 0 <= i < ItemCount => ItemAt(i))

  function ItemKey(x: ConfigItem): string {
    match x
    case SettingItem(s) => SettingKey(s)
    case ModeItem => InputModeKey
  }

  /** The value printed on an item's line. */
  function ItemText(c: LindberghConfig, x: ConfigItem): string {
    match x
    case SettingItem(s) => ValueText(GetSetting(c, s))
    case ModeItem => ShowNat(ModeNumber(c.inputMethod))
  }

  /** Each item of the settings part is written as one argument; writing a
      setting cannot fail. */
  function ConfigRenderer(c: LindberghConfig): ConfigItem -> Result<seq<string>, WriteError> {
    x => Ok([ItemText(c, x)])
  }

  /** A comment line: `#` and the words of the comment, one space apart. */
  function CommentLine(words: seq<string>): string {
    Join(["#"] + words)
  }

  const GeneratedWords: seq<string> := ["This", "file", "is", "generated", "by", "lindbergh-loader-gui"]
  const WarningWords: seq<string> := ["Do", "not", "make", "any", "changes", "unless", "you", "know", "what", "you're", "doing"]

  /** The two comment lines every generated file starts with. */
  const Header: seq<string> := [CommentLine(GeneratedWords), CommentLine(WarningWords)]

  lemma GeneratedWordsTokens()
    ensures AllTokens(["#"] + GeneratedWords)
  {
    var ts := ["#"] + GeneratedWords;
    assert ts == ["#", "This", "file", "is", "generated", "by", "lindbergh-loader-gui"];
    assert IsToken("#") && IsToken("This") && IsToken("file") && IsToken("is") by {
      CommentWordsTokens("#", "This", "file", "is");
    }
    assert IsToken("generated") && IsToken("by") by {
      CommentWordsTokens("generated", "by", "by", "by");
    }
    assert IsToken("lindbergh-loader-gui");
  }

  lemma WarningWordsTokens()
    ensures AllTokens(["#"] + WarningWords)
  {
    var ts := ["#"] + WarningWords;
    assert ts == ["#", "Do", "not", "make", "any", "changes", "unless", "you", "know", "what", "you're", "doing"];
    assert IsToken("#") && IsToken("Do") && IsToken("not") && IsToken("make") by {
      CommentWordsTokens("#", "Do", "not", "make");
    }
    assert IsToken("any") && IsToken("changes") && IsToken("unless") && IsToken("you") by {
      CommentWordsTokens("any", "changes", "unless", "you");
    }
    assert IsToken("know") && IsToken("what") && IsToken("you're") && IsToken("doing") by {
      CommentWordsTokens("know", "what", "you're", "doing");
    }
  }

  /** Words of plain ASCII letters and punctuation are tokens. */
  lemma CommentWordsTokens(a: string, b: string, c: string, d: string)
    requires Printable(a) && Printable(b) && Printable(c) && Printable(d)
    ensures IsToken(a) && IsToken(b) && IsToken(c) && IsToken(d)
  {
  }

  /** A non-empty string of visible ASCII characters. */
  predicate Printable(s: string) {
    |s| > 0 && forall i :: 0 <= i < |s| ==> '!' <= s[i] <= '~'
  }

  lemma PrintableToken(s: string)
    requires Printable(s)
    ensures IsToken(s)
  {
  }

  /** The reader skips a comment line whatever it says, and the line is
      one line of the file. */
  lemma CommentSkipped(words: seq<string>)
    requires AllTokens(["#"] + words)
    ensures Classify(CommentLine(words)) == Skip
    ensures NoNewline(CommentLine(words))
  {
    SplitJoin(["#"] + words);
    JoinNoNewline(["#"] + words);
  }

  /** The lines written for the settings and `INPUT_MODE`, one per item;
      writing them cannot fail. */
  function SettingsLines(c: LindberghConfig): (ls: seq<string>)
    ensures |ls| == ItemCount
  {
    WriteEachSucceeds(ItemKey, ConfigRenderer(c), WriteOrder);
    WriteEach(ItemKey, ConfigRenderer(c), WriteOrder).lines
  }

  /** `LindberghConfig::write_to_lindbergh_conf`, as the lines of the
      truncated file: the header, the settings and `INPUT_MODE`, then the
      keymap's lines, stopping at the keymap's error if it has one. */
  function WriteConfig(c: LindberghConfig): (w: Written)
    ensures |w.lines| >= |Header| + ItemCount
    ensures w.lines[..|Header|] == Header
    ensures w.error == WriteKeymap(c.inputMethod).error
  {
    var keymap := WriteKeymap(c.inputMethod);
    Written(Header + SettingsLines(c) + keymap.lines, keymap.error)
  }

  // ---------------------------------------------------------------------
  // Reading back what was written.

  lemma ItemLine(c: LindberghConfig, j: nat)
    requires j < ItemCount
    ensures SettingsLines(c)[j] == KeyLine(ItemKey(ItemAt(j)), [ItemText(c, ItemAt(j))])
  {
    WriteEachSucceeds(ItemKey, ConfigRenderer(c), WriteOrder);
    WriteEachLine(ItemKey, ConfigRenderer(c), WriteOrder, j);
  }

  /** `INPUT_MODE` is the fourth item and the only one that is no setting. */
  lemma ModeItemOnce(i: nat)
    requires i < ItemCount
    ensures ItemAt(i) == ModeItem <==> i == 3
  {
  }

  /** Where the writer puts the setting at position `j` of `SettingAt`: the
      writer has `INPUT_MODE` fourth and the motion board before the drive
      board. */
  function WriterPosition(j: nat): nat
    requires j < SettingCount
  {
    if j < 3 then j
    else if j == 8 then 10
    else if j == 9 then 9
    else j + 1
  }

  lemma WriterPosition0(j: nat)
    requires j < 10
    ensures WriterPosition(j) < ItemCount && ItemAt(WriterPosition(j)) == SettingItem(SettingAt(j))
  {
  }

  lemma WriterPosition1(j: nat)
    requires 10 <= j < 20
    ensures WriterPosition(j) < ItemCount && ItemAt(WriterPosition(j)) == SettingItem(SettingAt(j))
  {
  }

  lemma WriterPosition2(j: nat)
    requires 20 <= j < SettingCount
    ensures WriterPosition(j) < ItemCount && ItemAt(WriterPosition(j)) == SettingItem(SettingAt(j))
  {
  }

  /** The writer writes a line for every setting. */
  lemma SettingWritten(s: Setting)
    ensures SettingItem(s) in WriteOrder
  {
    var j := Slot(s);
    if j < 10 {
      WriterPosition0(j);
    } else if j < 20 {
      WriterPosition1(j);
    } else {
      WriterPosition2(j);
    }
    assert WriteOrder[WriterPosition(j)] == SettingItem(s);
  }

  /** Every setting's value is storable. */
  predicate ConfigStorable(c: LindberghConfig) {
    forall i | 0 <= i < SettingCount :: ValueStorable(SettingAt(i), c.settings[i])
  }

  lemma StorableGet(c: LindberghConfig, s: Setting)
    requires ConfigStorable(c)
    ensures ValueStorable(s, GetSetting(c, s))
  {
    assert SettingAt(Slot(s)) == s;
  }

  /** A configuration whose file reads back: storable settings, a keymap
      that is written in full, and evdev input names that are words. */
  ghost predicate ConfigWritable(c: LindberghConfig) {
    ConfigStorable(c) && KeymapWritable(c.inputMethod) && KeymapWords(c.inputMethod)
  }

  /** Each item's line is `KEY value` with both one word. */
  lemma ItemWritten(c: LindberghConfig, x: ConfigItem)
    requires ConfigStorable(c)
    ensures Written1(ItemKey, ConfigRenderer(c), x)
  {
    match x
    case SettingItem(s) =>
      SettingKeyToken(s);
      StorableGet(c, s);
      ValueTextToken(s, GetSetting(c, s));
    case ModeItem =>
      InputModeKeyToken();
      ShowNatIsToken(ModeNumber(c.inputMethod));
  }

  /** A setting line is passed over by every keymap reader. */
  lemma SettingLineForeign(c: LindberghConfig, j: nat)
    requires ConfigStorable(c) && j < ItemCount && j != 3
    ensures KeymapForeign(SettingsLines(c)[j])
  {
    ItemLine(c, j);
    ModeItemOnce(j);
    var x := ItemAt(j);
    var s := x.s;
    ItemWritten(c, x);
    var args := [ItemText(c, x)];
    ClassifyKeyLine(SettingKey(s), args);
    SettingOfKey(s);
    SettingOfIgnoresInputMode();
    SdlSlotOfIgnoresSetting(s);
    EvdevSlotOfIgnoresSetting(s);
    SdlIgnoresForeign(SettingKey(s), args);
    EvdevIgnoresForeign(SettingKey(s), args);
  }

  /** The `INPUT_MODE` line is the mode line of the keymap. */
  lemma ModeLineWritten(c: LindberghConfig)
    ensures SettingsLines(c)[3] == ModeLine(ModeNumber(c.inputMethod))
  {
    ItemLine(c, 3);
  }

  /** The settings reader passes over the keymap's lines. */
  lemma SdlLinesIgnoredByConfig(m: SdlKeymap, j: nat)
    requires j < |WriteSdl(m).lines|
    ensures Ignores(ConfigStep, WriteSdl(m).lines[j])
  {
    SdlLineAt(m, j);
    SettingOfIgnoresSdl(SdlOrder[j]);
  }

  lemma EvdevLinesIgnoredByConfig(e: EvdevInput, j: nat)
    requires j < |WriteEvdev(e).lines| && EvdevWords(e)
    ensures Ignores(ConfigStep, WriteEvdev(e).lines[j])
  {
    WriteEachLine(EvdevKey, EvdevRenderer(e), EvdevOrder, j);
    var y := EvdevOrder[j];
    EvdevLineReadsBack(e, y, DefaultEvdev, 0);
    EvdevKeyToken(y);
    ClassifyKeyLine(EvdevKey(y), EvdevRenderer(e)(y).value);
    SettingOfIgnoresEvdev(y);
  }

  lemma BothLinesIgnoredByConfig(s: SdlKeymap, e: EvdevInput, j: nat)
    requires EvdevWords(e) && j < |WriteKeymap(Both(s, e)).lines|
    ensures Ignores(ConfigStep, WriteKeymap(Both(s, e)).lines[j])
  {
    var a := WriteSdl(s);
    if j < |a.lines| {
      SdlLinesIgnoredByConfig(s, j);
    } else {
      EvdevLinesIgnoredByConfig(e, j - |a.lines|);
    }
  }

  lemma KeymapLinesIgnoredByConfig(k: Keymap)
    requires KeymapWords(k)
    ensures forall j :: 0 <= j < |WriteKeymap(k).lines| ==> Ignores(ConfigStep, WriteKeymap(k).lines[j])
  {
    forall j | 0 <= j < |WriteKeymap(k).lines| ensures Ignores(ConfigStep, WriteKeymap(k).lines[j]) {
      match k
      case Sdl(s) => SdlLinesIgnoredByConfig(s, j);
      case Evdev(e) => EvdevLinesIgnoredByConfig(e, j);
      case Both(s, e) => BothLinesIgnoredByConfig(s, e, j);
    }
  }

  /** What reading an item's line does: a setting takes `c`'s value. */
  function CopyFrom(c: LindberghConfig): (LindberghConfig, ConfigItem) -> LindberghConfig {
    (t: LindberghConfig, x: ConfigItem) => if x.SettingItem? then PutSetting(t, x.s, GetSetting(c, x.s)) else t
  }

  /** Reading items copies the settings they name from `c`, and nothing else. */
  lemma {:induction false} FoldCopyGet(c: LindberghConfig, t: LindberghConfig, xs: seq<ConfigItem>, s: Setting)
    ensures Fold(CopyFrom(c), t, xs).exePath == t.exePath
    ensures Fold(CopyFrom(c), t, xs).inputMethod == t.inputMethod
    ensures GetSetting(Fold(CopyFrom(c), t, xs), s) == if SettingItem(s) in xs then GetSetting(c, s) else GetSetting(t, s)
    decreases |xs|
  {
    if |xs| > 0 {
      FoldCopyGet(c, CopyFrom(c)(t, xs[0]), xs[1..], s);
      assert SettingItem(s) in xs <==> xs[0] == SettingItem(s) || SettingItem(s) in xs[1..];
    }
  }

  /** The settings reader turns each written line into its item's copy. */
  lemma ItemStep(c: LindberghConfig, t: LindberghConfig, x: ConfigItem, n: nat)
    requires ConfigStorable(c)
    ensures ConfigStep(t, ItemKey(x), ItemText(c, x), [], n) == Ok(CopyFrom(c)(t, x))
  {
    match x
    case SettingItem(s) =>
      SettingOfKey(s);
      StorableGet(c, s);
      ValueReadsBack(s, GetSetting(c, s), n);
    case ModeItem =>
      SettingOfIgnoresInputMode();
  }

  /** Reading the settings part into `t` gives `t` with `c`'s settings. */
  lemma SettingsReadBack(c: LindberghConfig, t: LindberghConfig, first: nat)
    requires ConfigStorable(c)
    ensures Scan(ConfigStep, t, SettingsLines(c), first) == Outcome(t.(settings := c.settings), None)
  {
    var render := ConfigRenderer(c);
    WriteEachSucceeds(ItemKey, render, WriteOrder);
    forall i | 0 <= i < |WriteOrder| ensures Written1(ItemKey, render, WriteOrder[i]) {
      ItemWritten(c, WriteOrder[i]);
    }
    forall i, u: LindberghConfig, n: nat | 0 <= i < |WriteOrder| && render(WriteOrder[i]).Ok? && |render(WriteOrder[i]).value| > 0
      ensures ConfigStep(u, ItemKey(WriteOrder[i]), render(WriteOrder[i]).value[0], render(WriteOrder[i]).value[1..], n)
           == Ok(CopyFrom(c)(u, WriteOrder[i]))
    {
      ItemStep(c, u, WriteOrder[i], n);
    }
    ScanWriteEach(ConfigStep, ItemKey, render, CopyFrom(c), WriteOrder, t, first);
    var r := Fold(CopyFrom(c), t, WriteOrder);
    forall s ensures GetSetting(r, s) == GetSetting(t.(settings := c.settings), s) {
      FoldCopyGet(c, t, WriteOrder, s);
      SettingWritten(s);
    }
    FoldCopyGet(c, t, WriteOrder, Width);
    ConfigExtensionality(r, t.(settings := c.settings));
  }

  lemma HeaderSkipped(j: nat)
    requires j < |Header|
    ensures Classify(Header[j]) == Skip
  {
    if j == 0 {
      GeneratedWordsTokens();
      CommentSkipped(GeneratedWords);
    } else {
      WarningWordsTokens();
      CommentSkipped(WarningWords);
    }
  }

  /** Every line before the keymap's but `INPUT_MODE` is passed over by
      every keymap reader. */
  lemma SettingsPartForeign(c: LindberghConfig)
    requires ConfigStorable(c)
    ensures forall j :: 0 <= j < |Header + SettingsLines(c)| && j != |Header| + 3 ==>
      KeymapForeign((Header + SettingsLines(c))[j])
  {
    var pre := Header + SettingsLines(c);
    forall j | 0 <= j < |pre| && j != |Header| + 3 ensures KeymapForeign(pre[j]) {
      if j < |Header| {
        HeaderSkipped(j);
      } else {
        SettingLineForeign(c, j - |Header|);
      }
    }
  }

  /** The keymap reader, run over a written file, reads back the keymap. */
  lemma ConfigKeymapReadBack(k0: Keymap, c: LindberghConfig)
    requires ConfigWritable(c)
    ensures ReadKeymap(k0, WriteConfig(c).lines) == Outcome(KeymapReadBack(c.inputMethod), None)
  {
    var k := c.inputMethod;
    WriteKeymapSucceeds(k);
    var pre := Header + SettingsLines(c);
    SettingsPartForeign(c);
    ModeLineWritten(c);
    KeymapRoundTrip(k0, k, pre, |Header| + 3);
  }

  /** The settings reader reads the settings part and then passes over the
      keymap's lines. */
  lemma SettingsThenKeymap(t: LindberghConfig, c: LindberghConfig, first: nat)
    requires ConfigStorable(c) && KeymapWords(c.inputMethod)
    ensures Scan(ConfigStep, t, SettingsLines(c) + WriteKeymap(c.inputMethod).lines, first)
         == Outcome(t.(settings := c.settings), None)
  {
    var s, km := SettingsLines(c), WriteKeymap(c.inputMethod).lines;
    ScanAppend(ConfigStep, t, s, km, first);
    SettingsReadBack(c, t, first);
    KeymapLinesIgnoredByConfig(c.inputMethod);
    ScanIgnored(ConfigStep, t.(settings := c.settings), km, first + |s|);
  }

  lemma ConcatAssociates<T>(a: seq<T>, b: seq<T>, c: seq<T>)
    ensures (a + b) + c == a + (b + c)
  {
  }

  lemma WriteConfigLines(c: LindberghConfig)
    ensures WriteConfig(c).lines == Header + (SettingsLines(c) + WriteKeymap(c.inputMethod).lines)
  {
    ConcatAssociates(Header, SettingsLines(c), WriteKeymap(c.inputMethod).lines);
  }

  lemma HeaderNoNewline()
    ensures LinesFree(Header)
  {
    GeneratedWordsTokens();
    CommentSkipped(GeneratedWords);
    WarningWordsTokens();
    CommentSkipped(WarningWords);
  }

  /** Every line a writable configuration writes is one line of the file. */
  lemma WrittenNoNewline(c: LindberghConfig)
    requires ConfigWritable(c)
    ensures LinesFree(WriteConfig(c).lines)
  {
    HeaderNoNewline();
    forall i | 0 <= i < |WriteOrder| ensures Written1(ItemKey, ConfigRenderer(c), WriteOrder[i]) {
      ItemWritten(c, WriteOrder[i]);
    }
    WriteEachNoNewline(ItemKey, ConfigRenderer(c), WriteOrder);
    KeymapLinesNoNewline(c.inputMethod);
    WriteConfigLines(c);
    LinesFreeConcat(SettingsLines(c), WriteKeymap(c.inputMethod).lines);
    LinesFreeConcat(Header, SettingsLines(c) + WriteKeymap(c.inputMethod).lines);
  }

  /** Every reader passes over the header. */
  lemma HeaderIgnored<S(!new)>(step: Step<S>)
    ensures forall j :: 0 <= j < |Header| ==> Ignores(step, Header[j])
  {
    forall j | 0 <= j < |Header| ensures Ignores(step, Header[j]) {
      HeaderSkipped(j);
    }
  }

  /** The settings reader, run over a written file, reads back every
      setting and changes nothing else. */
  lemma ConfigSettingsReadBack(t: LindberghConfig, c: LindberghConfig)
    requires ConfigStorable(c) && KeymapWords(c.inputMethod)
    ensures Scan(ConfigStep, t, WriteConfig(c).lines, 1) == Outcome(t.(settings := c.settings), None)
  {
    WriteConfigLines(c);
    HeaderIgnored(ConfigStep);
    ScanIgnoredPrefix(ConfigStep, t, Header, SettingsLines(c) + WriteKeymap(c.inputMethod).lines, 1);
    SettingsThenKeymap(t, c, 1 + |Header|);
  }

  /** Reading back a written configuration file: the keymap as its reader
      reads it back, every setting as it was written, and the executable
      path of the configuration read into (it is kept outside the file). */
  lemma ConfigRoundTrip(c0: LindberghConfig, c: LindberghConfig)
    requires ConfigWritable(c)
    ensures WriteConfig(c).error.None?
    ensures ReadConfig(c0, WriteConfig(c).lines)
         == Outcome(LindberghConfig(c0.exePath, KeymapReadBack(c.inputMethod), c.settings), None)
  {
    WriteKeymapSucceeds(c.inputMethod);
    ConfigKeymapReadBack(c0.inputMethod, c);
    ConfigSettingsReadBack(c0.(inputMethod := KeymapReadBack(c.inputMethod)), c);
  }

  lemma DefaultPathWord(p: string)
    requires p in {"/dev/ttyUSB0", "/dev/ttyS0", "/dev/ttyS1", "sram.bin", "eeprom.bin"}
    ensures IsToken(p)
  {
  }

  /** Every default value is storable: the default paths are words and the
      default border percentages at most 100. */
  lemma DefaultStorable(s: Setting)
    ensures ValueStorable(s, DefaultSetting(s))
  {
    if KindOf(s) == PathKind {
      DefaultPathWord(DefaultSetting(s).p);
    }
  }

  lemma DefaultSdlReadBack()
    ensures Storable(DefaultSdl)
    ensures SdlReadBack(DefaultSdl, DefaultSdl) == DefaultSdl
  {
    DefaultSdlRoundTrip();
    WriteSdlSucceeds(DefaultSdl);
    SdlRoundTrip(DefaultSdl, DefaultSdl, 1);
  }

  lemma DefaultEvdevReadBack()
    ensures EvdevWritable(DefaultEvdev) && EvdevWords(DefaultEvdev)
    ensures EvdevReadBack(DefaultEvdev, DefaultEvdev) == DefaultEvdev
  {
    DefaultEvdevRoundTrip();
    DefaultEvdevWords();
    EvdevRoundTrip(DefaultEvdev, DefaultEvdev, 1);
  }

  /** The default keymap reads back as itself. */
  lemma DefaultKeymapReadBack()
    ensures KeymapWritable(DefaultKeymap) && KeymapWords(DefaultKeymap)
    ensures KeymapReadBack(DefaultKeymap) == DefaultKeymap
  {
    DefaultSdlReadBack();
    DefaultEvdevReadBack();
  }

  /** The file written for the default configuration reads back as the
      default configuration, whatever configuration it is read into (but
      for the executable path, which the file does not hold). */
  lemma DefaultConfigRoundTrip(c0: LindberghConfig)
    ensures WriteConfig(DefaultConfig).error.None?
    ensures ReadConfig(c0, WriteConfig(DefaultConfig).lines) == Outcome(DefaultConfig.(exePath := c0.exePath), None)
  {
    forall i | 0 <= i < SettingCount ensures ValueStorable(SettingAt(i), DefaultConfig.settings[i]) {
      DefaultStorable(SettingAt(i));
    }
    DefaultKeymapReadBack();
    ConfigRoundTrip(c0, DefaultConfig);
  }

  // ---------------------------------------------------------------------
  // The per-title file.

  /** A title's configuration file below the program's directory,
      `/config/{:?}.conf`. */
  function ConfigTail(t: GameTitle): (p: string)
    ensures |p| == |DebugName(t)| + 13 && p[8..|p| - 5] == DebugName(t)
  {
    var p := "/config/" + DebugName(t) + ".conf";
    assert p[8..|p| - 5] == DebugName(t);
    p
  }

  /** The file a title's configuration is kept in, `./config/{:?}.conf`. */
  function ConfigPath(t: GameTitle): (p: string)
    ensures |p| == |DebugName(t)| + 14 && p[9..|p| - 5] == DebugName(t)
    ensures p[1..] == ConfigTail(t)
  {
    var p := "." + ConfigTail(t);
    assert p[1..] == ConfigTail(t);
    assert p[9..|p| - 5] == ConfigTail(t)[8..|ConfigTail(t)| - 5];
    p
  }

  /** Each title has its own file. */
  lemma ConfigPathInjective(a: GameTitle, b: GameTitle)
    ensures ConfigPath(a) == ConfigPath(b) <==> a == b
  {
    var pa, pb := ConfigPath(a), ConfigPath(b);
    if pa == pb {
      assert DebugName(a) == pa[9..|pa| - 5] == DebugName(b);
    }
    DebugNameInjective(a, b);
  }
}
