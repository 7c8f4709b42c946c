/**
  The keys of the configuration file (src/config.rs) and the dispatch each
  reader performs on a line's first token. Each reader's `match r[0]` is
  modelled as a lookup from the key to the setting or slot it assigns
  (`SettingOf`, `SdlSlotOf`, `EvdevSlotOf`), tried in the order the source
  lists the arms, and a table from each setting or slot back to its key
  (`SettingKey`, `SdlKey`, `EvdevKey`) that the writers use.
*/
module ConfKeys {
  import opened Wrappers
  import opened Text

  /** The settings the config reader assigns, in the order of its arms. */
  datatype Setting =
      Width | Height | Fullscreen | NoSdl | Region
    | Freeplay | EmulateJvs | EmulateRideboard | EmulateDriveboard | EmulateMotionboard
    | JvsPath | Serial1Path | Serial2Path | SramPath | EepromPath
    | GpuVendor | DebugMsgs | BorderEnabled | WhiteBorderPercentage | BlackBorderPercentage
    | HummerFlickerFix | KeepAspectRatio | OutrunLensGlareEnabled | SkipOutrunCabinetCheck | FpsLimiterEnabled
    | FpsTarget | LgjRenderWithMesa | PrimevalHuntMode | LindberghColour | Mj4EnabledAllTheTime

  /** The key of a setting. */
  function SettingKey(k: Setting): string {
    match k
    case Width => "WIDTH"
    case Height => "HEIGHT"
    case Fullscreen => "FULLSCREEN"
    case NoSdl => "NO_SDL"
    case Region => "REGION"
    case Freeplay => "FREEPLAY"
    case EmulateJvs => "EMULATE_JVS"
    case EmulateRideboard => "EMULATE_RIDEBOARD"
    case EmulateDriveboard => "EMULATE_DRIVEBOARD"
    case EmulateMotionboard => "EMULATE_MOTIONBOARD"
    case JvsPath => "JVS_PATH"
    case Serial1Path => "SERIAL_1_PATH"
    case Serial2Path => "SERIAL_2_PATH"
    case SramPath => "SRAM_PATH"
    case EepromPath => "EEPROM_PATH"
    case GpuVendor => "GPU_VENDOR"
    case DebugMsgs => "DEBUG_MSGS"
    case BorderEnabled => "BORDER_ENABLED"
    case WhiteBorderPercentage => "WHITE_BORDER_PERCENTAGE"
    case BlackBorderPercentage => "BLACK_BORDER_PERCENTAGE"
    case HummerFlickerFix => "HUMMER_FLICKER_FIX"
    case KeepAspectRatio => "KEEP_ASPECT_RATIO"
    case OutrunLensGlareEnabled => "OUTRUN_LENS_GLARE_ENABLED"
    case SkipOutrunCabinetCheck => "SKIP_OUTRUN_CABINET_CHECK"
    case FpsLimiterEnabled => "FPS_LIMITER_ENABLED"
    case FpsTarget => "FPS_TARGET"
    case LgjRenderWithMesa => "LGJ_RENDER_WITH_MESA"
    case PrimevalHuntMode => "PRIMEVAL_HUNT_MODE"
    case LindberghColour => "LINDBERGH_COLOUR"
    case Mj4EnabledAllTheTime => "MJ4_ENABLED_ALL_THE_TIME"
  }

  /** The config reader's dispatch on a line's key. */
  function SettingOf(key: string): Option<Setting> {
    match key
    case "WIDTH" => Some(Width)
    case "HEIGHT" => Some(Height)
    case "FULLSCREEN" => Some(Fullscreen)
    case "NO_SDL" => Some(NoSdl)
    case "REGION" => Some(Region)
    case "FREEPLAY" => Some(Freeplay)
    case "EMULATE_JVS" => Some(EmulateJvs)
    case "EMULATE_RIDEBOARD" => Some(EmulateRideboard)
    case "EMULATE_DRIVEBOARD" => Some(EmulateDriveboard)
    case "EMULATE_MOTIONBOARD" => Some(EmulateMotionboard)
    case "JVS_PATH" => Some(JvsPath)
    case "SERIAL_1_PATH" => Some(Serial1Path)
    case "SERIAL_2_PATH" => Some(Serial2Path)
    case "SRAM_PATH" => Some(SramPath)
    case "EEPROM_PATH" => Some(EepromPath)
    case "GPU_VENDOR" => Some(GpuVendor)
    case "DEBUG_MSGS" => Some(DebugMsgs)
    case "BORDER_ENABLED" => Some(BorderEnabled)
    case "WHITE_BORDER_PERCENTAGE" => Some(WhiteBorderPercentage)
    case "BLACK_BORDER_PERCENTAGE" => Some(BlackBorderPercentage)
    case "HUMMER_FLICKER_FIX" => Some(HummerFlickerFix)
    case "KEEP_ASPECT_RATIO" => Some(KeepAspectRatio)
    case "OUTRUN_LENS_GLARE_ENABLED" => Some(OutrunLensGlareEnabled)
    case "SKIP_OUTRUN_CABINET_CHECK" => Some(SkipOutrunCabinetCheck)
    case "FPS_LIMITER_ENABLED" => Some(FpsLimiterEnabled)
    case "FPS_TARGET" => Some(FpsTarget)
    case "LGJ_RENDER_WITH_MESA" => Some(LgjRenderWithMesa)
    case "PRIMEVAL_HUNT_MODE" => Some(PrimevalHuntMode)
    case "LINDBERGH_COLOUR" => Some(LindberghColour)
    case "MJ4_ENABLED_ALL_THE_TIME" => Some(Mj4EnabledAllTheTime)
    case _ => None
  }

  /** The key the keymap reader looks for; the config reader has no arm for it. */
  const InputModeKey: string := "INPUT_MODE"

  /** The SDL keymap lines, in the order of the SDL reader's arms. */
  datatype SdlSlot =
      TestKey | StartKey | ServiceKey | CoinKey | UpKey | DownKey
    | LeftKey | RightKey | Button1Key | Button2Key | Button3Key | Button4Key

  function SdlKey(x: SdlSlot): string {
    match x
    case TestKey => "TEST_KEY"
    case StartKey => "PLAYER_1_START_KEY"
    case ServiceKey => "PLAYER_1_SERVICE_KEY"
    case CoinKey => "PLAYER_1_COIN_KEY"
    case UpKey => "PLAYER_1_UP_KEY"
    case DownKey => "PLAYER_1_DOWN_KEY"
    case LeftKey => "PLAYER_1_LEFT_KEY"
    case RightKey => "PLAYER_1_RIGHT_KEY"
    case Button1Key => "PLAYER_1_BUTTON_1_KEY"
    case Button2Key => "PLAYER_1_BUTTON_2_KEY"
    case Button3Key => "PLAYER_1_BUTTON_3_KEY"
    case Button4Key => "PLAYER_1_BUTTON_4_KEY"
  }

  /** The SDL reader's dispatch on a line's key. */
  function SdlSlotOf(key: string): Option<SdlSlot> {
    match key
    case "TEST_KEY" => Some(TestKey)
    case "PLAYER_1_START_KEY" => Some(StartKey)
    case "PLAYER_1_SERVICE_KEY" => Some(ServiceKey)
    case "PLAYER_1_COIN_KEY" => Some(CoinKey)
    case "PLAYER_1_UP_KEY" => Some(UpKey)
    case "PLAYER_1_DOWN_KEY" => Some(DownKey)
    case "PLAYER_1_LEFT_KEY" => Some(LeftKey)
    case "PLAYER_1_RIGHT_KEY" => Some(RightKey)
    case "PLAYER_1_BUTTON_1_KEY" => Some(Button1Key)
    case "PLAYER_1_BUTTON_2_KEY" => Some(Button2Key)
    case "PLAYER_1_BUTTON_3_KEY" => Some(Button3Key)
    case "PLAYER_1_BUTTON_4_KEY" => Some(Button4Key)
    case _ => None
  }

  /** A control of one player on an evdev device. */
  datatype Control =
      Start | Service | Up | Down | Left | Right
    | Button1 | Button2 | Button3 | Button4 | Button5 | Button6 | Button7 | Button8

  type AnalogueIndex = i: int | 0 <= i < 4
  type DeadzoneIndex = i: int | 0 <= i < 8

  /** The evdev lines: the shared test button, each player's controls, the
      four analogue axes and the eight analogue dead zones (indices from 0). */
  datatype EvdevSlot =
      TestButton
    | Player1(c: Control)
    | Player2(c: Control)
    | Analogue(a: AnalogueIndex)
    | Deadzone(d: DeadzoneIndex)

  function EvdevKey(x: EvdevSlot): string {
    match x
    case TestButton => "TEST_BUTTON"
    case Player1(c) =>
      (match c
       case Start => "PLAYER_1_BUTTON_START"
       case Service => "PLAYER_1_BUTTON_SERVICE"
       case Up => "PLAYER_1_BUTTON_UP"
       case Down => "PLAYER_1_BUTTON_DOWN"
       case Left => "PLAYER_1_BUTTON_LEFT"
       case Right => "PLAYER_1_BUTTON_RIGHT"
       case Button1 => "PLAYER_1_BUTTON_1"
       case Button2 => "PLAYER_1_BUTTON_2"
       case Button3 => "PLAYER_1_BUTTON_3"
       case Button4 => "PLAYER_1_BUTTON_4"
       case Button5 => "PLAYER_1_BUTTON_5"
       case Button6 => "PLAYER_1_BUTTON_6"
       case Button7 => "PLAYER_1_BUTTON_7"
       case Button8 => "PLAYER_1_BUTTON_8")
    case Player2(c) =>
      (match c
       case Start => "PLAYER_2_BUTTON_START"
       case Service => "PLAYER_2_BUTTON_SERVICE"
       case Up => "PLAYER_2_BUTTON_UP"
       case Down => "PLAYER_2_BUTTON_DOWN"
       case Left => "PLAYER_2_BUTTON_LEFT"
       case Right => "PLAYER_2_BUTTON_RIGHT"
       case Button1 => "PLAYER_2_BUTTON_1"
       case Button2 => "PLAYER_2_BUTTON_2"
       case Button3 => "PLAYER_2_BUTTON_3"
       case Button4 => "PLAYER_2_BUTTON_4"
       case Button5 => "PLAYER_2_BUTTON_5"
       case Button6 => "PLAYER_2_BUTTON_6"
       case Button7 => "PLAYER_2_BUTTON_7"
       case Button8 => "PLAYER_2_BUTTON_8")
    case Analogue(a) =>
      ["ANALOGUE_1", "ANALOGUE_2", "ANALOGUE_3", "ANALOGUE_4"][a]
    case Deadzone(d) =>
      ["ANALOGUE_DEADZONE_1", "ANALOGUE_DEADZONE_2", "ANALOGUE_DEADZONE_3", "ANALOGUE_DEADZONE_4",
       "ANALOGUE_DEADZONE_5", "ANALOGUE_DEADZONE_6", "ANALOGUE_DEADZONE_7", "ANALOGUE_DEADZONE_8"][d]
  }

  /** The evdev reader's dispatch on a line's key. */
  function EvdevSlotOf(key: string): Option<EvdevSlot> {
    match key
    case "TEST_BUTTON" => Some(TestButton)
    case "PLAYER_1_BUTTON_START" => Some(Player1(Start))
    case "PLAYER_1_BUTTON_SERVICE" => Some(Player1(Service))
    case "PLAYER_1_BUTTON_UP" => Some(Player1(Up))
    case "PLAYER_1_BUTTON_DOWN" => Some(Player1(Down))
    case "PLAYER_1_BUTTON_LEFT" => Some(Player1(Left))
    case "PLAYER_1_BUTTON_RIGHT" => Some(Player1(Right))
    case "PLAYER_1_BUTTON_1" => Some(Player1(Button1))
    case "PLAYER_1_BUTTON_2" => Some(Player1(Button2))
    case "PLAYER_1_BUTTON_3" => Some(Player1(Button3))
    case "PLAYER_1_BUTTON_4" => Some(Player1(Button4))
    case "PLAYER_1_BUTTON_5" => Some(Player1(Button5))
    case "PLAYER_1_BUTTON_6" => Some(Player1(Button6))
    case "PLAYER_1_BUTTON_7" => Some(Player1(Button7))
    case "PLAYER_1_BUTTON_8" => Some(Player1(Button8))
    case "PLAYER_2_BUTTON_START" => Some(Player2(Start))
    case "PLAYER_2_BUTTON_SERVICE" => Some(Player2(Service))
    case "PLAYER_2_BUTTON_UP" => Some(Player2(Up))
    case "PLAYER_2_BUTTON_DOWN" => Some(Player2(Down))
    case "PLAYER_2_BUTTON_LEFT" => Some(Player2(Left))
    case "PLAYER_2_BUTTON_RIGHT" => Some(Player2(Right))
    case "PLAYER_2_BUTTON_1" => Some(Player2(Button1))
    case "PLAYER_2_BUTTON_2" => Some(Player2(Button2))
    case "PLAYER_2_BUTTON_3" => Some(Player2(Button3))
    case "PLAYER_2_BUTTON_4" => Some(Player2(Button4))
    case "PLAYER_2_BUTTON_5" => Some(Player2(Button5))
    case "PLAYER_2_BUTTON_6" => Some(Player2(Button6))
    case "PLAYER_2_BUTTON_7" => Some(Player2(Button7))
    case "PLAYER_2_BUTTON_8" => Some(Player2(Button8))
    case "ANALOGUE_1" => Some(Analogue(0))
    case "ANALOGUE_2" => Some(Analogue(1))
    case "ANALOGUE_3" => Some(Analogue(2))
    case "ANALOGUE_4" => Some(Analogue(3))
    case "ANALOGUE_DEADZONE_1" => Some(Deadzone(0))
    case "ANALOGUE_DEADZONE_2" => Some(Deadzone(1))
    case "ANALOGUE_DEADZONE_3" => Some(Deadzone(2))
    case "ANALOGUE_DEADZONE_4" => Some(Deadzone(3))
    case "ANALOGUE_DEADZONE_5" => Some(Deadzone(4))
    case "ANALOGUE_DEADZONE_6" => Some(Deadzone(5))
    case "ANALOGUE_DEADZONE_7" => Some(Deadzone(6))
    case "ANALOGUE_DEADZONE_8" => Some(Deadzone(7))
    case _ => None
  }


  // ---------------------------------------------------------------------
  // Positions of the arms, used to split the proofs below into small parts.

  function SettingIndex(x: Setting): nat {
    match x
    case Width => 0
    case Height => 1
    case Fullscreen => 2
    case NoSdl => 3
    case Region => 4
    case Freeplay => 5
    case EmulateJvs => 6
    case EmulateRideboard => 7
    case EmulateDriveboard => 8
    case EmulateMotionboard => 9
    case JvsPath => 10
    case Serial1Path => 11
    case Serial2Path => 12
    case SramPath => 13
    case EepromPath => 14
    case GpuVendor => 15
    case DebugMsgs => 16
    case BorderEnabled => 17
    case WhiteBorderPercentage => 18
    case BlackBorderPercentage => 19
    case HummerFlickerFix => 20
    case KeepAspectRatio => 21
    case OutrunLensGlareEnabled => 22
    case SkipOutrunCabinetCheck => 23
    case FpsLimiterEnabled => 24
    case FpsTarget => 25
    case LgjRenderWithMesa => 26
    case PrimevalHuntMode => 27
    case LindberghColour => 28
    case Mj4EnabledAllTheTime => 29
  }

  function SdlIndex(x: SdlSlot): nat {
    match x
    case TestKey => 0
    case StartKey => 1
    case ServiceKey => 2
    case CoinKey => 3
    case UpKey => 4
    case DownKey => 5
    case LeftKey => 6
    case RightKey => 7
    case Button1Key => 8
    case Button2Key => 9
    case Button3Key => 10
    case Button4Key => 11
  }

  function EvdevIndex(y: EvdevSlot): nat {
    match y
    case TestButton => 0
    case Player1(c) => 1 + ControlIndex(c)
    case Player2(c) => 15 + ControlIndex(c)
    case Analogue(a) => 29 + a
    case Deadzone(d) => 33 + d
  }

  function ControlIndex(c: Control): nat {
    match c
    case Start => 0
    case Service => 1
    case Up => 2
    case Down => 3
    case Left => 4
    case Right => 5
    case Button1 => 6
    case Button2 => 7
    case Button3 => 8
    case Button4 => 9
    case Button5 => 10
    case Button6 => 11
    case Button7 => 12
    case Button8 => 13
  }

  // ---------------------------------------------------------------------
  // Each reader's dispatch on each key, one key per lemma: comparing string
  // literals is costly for the solver, and one literal per proof keeps every
  // proof small.

  // SettingOf on its own keys.
  lemma SettingOfWidth() ensures SettingOf("WIDTH") == Some(Width) {}
  lemma SettingOfHeight() ensures SettingOf("HEIGHT") == Some(Height) {}
  lemma SettingOfFullscreen() ensures SettingOf("FULLSCREEN") == Some(Fullscreen) {}
  lemma SettingOfNoSdl() ensures SettingOf("NO_SDL") == Some(NoSdl) {}
  lemma SettingOfRegion() ensures SettingOf("REGION") == Some(Region) {}
  lemma SettingOfFreeplay() ensures SettingOf("FREEPLAY") == Some(Freeplay) {}
  lemma SettingOfEmulateJvs() ensures SettingOf("EMULATE_JVS") == Some(EmulateJvs) {}
  lemma SettingOfEmulateRideboard() ensures SettingOf("EMULATE_RIDEBOARD") == Some(EmulateRideboard) {}
  lemma SettingOfEmulateDriveboard() ensures SettingOf("EMULATE_DRIVEBOARD") == Some(EmulateDriveboard) {}
  lemma SettingOfEmulateMotionboard() ensures SettingOf("EMULATE_MOTIONBOARD") == Some(EmulateMotionboard) {}
  lemma SettingOfJvsPath() ensures SettingOf("JVS_PATH") == Some(JvsPath) {}
  lemma SettingOfSerial1Path() ensures SettingOf("SERIAL_1_PATH") == Some(Serial1Path) {}
  lemma SettingOfSerial2Path() ensures SettingOf("SERIAL_2_PATH") == Some(Serial2Path) {}
  lemma SettingOfSramPath() ensures SettingOf("SRAM_PATH") == Some(SramPath) {}
  lemma SettingOfEepromPath() ensures SettingOf("EEPROM_PATH") == Some(EepromPath) {}
  lemma SettingOfGpuVendor() ensures SettingOf("GPU_VENDOR") == Some(GpuVendor) {}
  lemma SettingOfDebugMsgs() ensures SettingOf("DEBUG_MSGS") == Some(DebugMsgs) {}
  lemma SettingOfBorderEnabled() ensures SettingOf("BORDER_ENABLED") == Some(BorderEnabled) {}
  lemma SettingOfWhiteBorderPercentage() ensures SettingOf("WHITE_BORDER_PERCENTAGE") == Some(WhiteBorderPercentage) {}
  lemma SettingOfBlackBorderPercentage() ensures SettingOf("BLACK_BORDER_PERCENTAGE") == Some(BlackBorderPercentage) {}
  lemma SettingOfHummerFlickerFix() ensures SettingOf("HUMMER_FLICKER_FIX") == Some(HummerFlickerFix) {}
  lemma SettingOfKeepAspectRatio() ensures SettingOf("KEEP_ASPECT_RATIO") == Some(KeepAspectRatio) {}
  lemma SettingOfOutrunLensGlareEnabled() ensures SettingOf("OUTRUN_LENS_GLARE_ENABLED") == Some(OutrunLensGlareEnabled) {}
  lemma SettingOfSkipOutrunCabinetCheck() ensures SettingOf("SKIP_OUTRUN_CABINET_CHECK") == Some(SkipOutrunCabinetCheck) {}
  lemma SettingOfFpsLimiterEnabled() ensures SettingOf("FPS_LIMITER_ENABLED") == Some(FpsLimiterEnabled) {}
  lemma SettingOfFpsTarget() ensures SettingOf("FPS_TARGET") == Some(FpsTarget) {}
  lemma SettingOfLgjRenderWithMesa() ensures SettingOf("LGJ_RENDER_WITH_MESA") == Some(LgjRenderWithMesa) {}
  lemma SettingOfPrimevalHuntMode() ensures SettingOf("PRIMEVAL_HUNT_MODE") == Some(PrimevalHuntMode) {}
  lemma SettingOfLindberghColour() ensures SettingOf("LINDBERGH_COLOUR") == Some(LindberghColour) {}
  lemma SettingOfMj4EnabledAllTheTime() ensures SettingOf("MJ4_ENABLED_ALL_THE_TIME") == Some(Mj4EnabledAllTheTime) {}

  // SettingOf on the Sdl keys.
  lemma SettingOfIgnoresSdlTestKey() ensures SettingOf("TEST_KEY").None? {}
  lemma SettingOfIgnoresSdlStartKey() ensures SettingOf("PLAYER_1_START_KEY").None? {}
  lemma SettingOfIgnoresSdlServiceKey() ensures SettingOf("PLAYER_1_SERVICE_KEY").None? {}
  lemma SettingOfIgnoresSdlCoinKey() ensures SettingOf("PLAYER_1_COIN_KEY").None? {}
  lemma SettingOfIgnoresSdlUpKey() ensures SettingOf("PLAYER_1_UP_KEY").None? {}
  lemma SettingOfIgnoresSdlDownKey() ensures SettingOf("PLAYER_1_DOWN_KEY").None? {}
  lemma SettingOfIgnoresSdlLeftKey() ensures SettingOf("PLAYER_1_LEFT_KEY").None? {}
  lemma SettingOfIgnoresSdlRightKey() ensures SettingOf("PLAYER_1_RIGHT_KEY").None? {}
  lemma SettingOfIgnoresSdlButton1Key() ensures SettingOf("PLAYER_1_BUTTON_1_KEY").None? {}
  lemma SettingOfIgnoresSdlButton2Key() ensures SettingOf("PLAYER_1_BUTTON_2_KEY").None? {}
  lemma SettingOfIgnoresSdlButton3Key() ensures SettingOf("PLAYER_1_BUTTON_3_KEY").None? {}
  lemma SettingOfIgnoresSdlButton4Key() ensures SettingOf("PLAYER_1_BUTTON_4_KEY").None? {}

  // SettingOf on the Evdev keys.
  lemma SettingOfIgnoresEvdevTestButton() ensures SettingOf("TEST_BUTTON").None? {}
  lemma SettingOfIgnoresEvdevPlayer1Start() ensures SettingOf("PLAYER_1_BUTTON_START").None? {}
  lemma SettingOfIgnoresEvdevPlayer1Service() ensures SettingOf("PLAYER_1_BUTTON_SERVICE").None? {}
  lemma SettingOfIgnoresEvdevPlayer1Up() ensures SettingOf("PLAYER_1_BUTTON_UP").None? {}
  lemma SettingOfIgnoresEvdevPlayer1Down() ensures SettingOf("PLAYER_1_BUTTON_DOWN").None? {}
  lemma SettingOfIgnoresEvdevPlayer1Left() ensures SettingOf("PLAYER_1_BUTTON_LEFT").None? {}
  lemma SettingOfIgnoresEvdevPlayer1Right() ensures SettingOf("PLAYER_1_BUTTON_RIGHT").None? {}
  lemma SettingOfIgnoresEvdevPlayer1Button1() ensures SettingOf("PLAYER_1_BUTTON_1").None? {}
  lemma SettingOfIgnoresEvdevPlayer1Button2() ensures SettingOf("PLAYER_1_BUTTON_2").None? {}
  lemma SettingOfIgnoresEvdevPlayer1Button3() ensures SettingOf("PLAYER_1_BUTTON_3").None? {}
  lemma SettingOfIgnoresEvdevPlayer1Button4() ensures SettingOf("PLAYER_1_BUTTON_4").None? {}
  lemma SettingOfIgnoresEvdevPlayer1Button5() ensures SettingOf("PLAYER_1_BUTTON_5").None? {}
  lemma SettingOfIgnoresEvdevPlayer1Button6() ensures SettingOf("PLAYER_1_BUTTON_6").None? {}
  lemma SettingOfIgnoresEvdevPlayer1Button7() ensures SettingOf("PLAYER_1_BUTTON_7").None? {}
  lemma SettingOfIgnoresEvdevPlayer1Button8() ensures SettingOf("PLAYER_1_BUTTON_8").None? {}
  lemma SettingOfIgnoresEvdevPlayer2Start() ensures SettingOf("PLAYER_2_BUTTON_START").None? {}
  lemma SettingOfIgnoresEvdevPlayer2Service() ensures SettingOf("PLAYER_2_BUTTON_SERVICE").None? {}
  lemma SettingOfIgnoresEvdevPlayer2Up() ensures SettingOf("PLAYER_2_BUTTON_UP").None? {}
  lemma SettingOfIgnoresEvdevPlayer2Down() ensures SettingOf("PLAYER_2_BUTTON_DOWN").None? {}
  lemma SettingOfIgnoresEvdevPlayer2Left() ensures SettingOf("PLAYER_2_BUTTON_LEFT").None? {}
  lemma SettingOfIgnoresEvdevPlayer2Right() ensures SettingOf("PLAYER_2_BUTTON_RIGHT").None? {}
  lemma SettingOfIgnoresEvdevPlayer2Button1() ensures SettingOf("PLAYER_2_BUTTON_1").None? {}
  lemma SettingOfIgnoresEvdevPlayer2Button2() ensures SettingOf("PLAYER_2_BUTTON_2").None? {}
  lemma SettingOfIgnoresEvdevPlayer2Button3() ensures SettingOf("PLAYER_2_BUTTON_3").None? {}
  lemma SettingOfIgnoresEvdevPlayer2Button4() ensures SettingOf("PLAYER_2_BUTTON_4").None? {}
  lemma SettingOfIgnoresEvdevPlayer2Button5() ensures SettingOf("PLAYER_2_BUTTON_5").None? {}
  lemma SettingOfIgnoresEvdevPlayer2Button6() ensures SettingOf("PLAYER_2_BUTTON_6").None? {}
  lemma SettingOfIgnoresEvdevPlayer2Button7() ensures SettingOf("PLAYER_2_BUTTON_7").None? {}
  lemma SettingOfIgnoresEvdevPlayer2Button8() ensures SettingOf("PLAYER_2_BUTTON_8").None? {}
  lemma SettingOfIgnoresEvdevAnalogue1() ensures SettingOf("ANALOGUE_1").None? {}
  lemma SettingOfIgnoresEvdevAnalogue2() ensures SettingOf("ANALOGUE_2").None? {}
  lemma SettingOfIgnoresEvdevAnalogue3() ensures SettingOf("ANALOGUE_3").None? {}
  lemma SettingOfIgnoresEvdevAnalogue4() ensures SettingOf("ANALOGUE_4").None? {}
  lemma SettingOfIgnoresEvdevDeadzone1() ensures SettingOf("ANALOGUE_DEADZONE_1").None? {}
  lemma SettingOfIgnoresEvdevDeadzone2() ensures SettingOf("ANALOGUE_DEADZONE_2").None? {}
  lemma SettingOfIgnoresEvdevDeadzone3() ensures SettingOf("ANALOGUE_DEADZONE_3").None? {}
  lemma SettingOfIgnoresEvdevDeadzone4() ensures SettingOf("ANALOGUE_DEADZONE_4").None? {}
  lemma SettingOfIgnoresEvdevDeadzone5() ensures SettingOf("ANALOGUE_DEADZONE_5").None? {}
  lemma SettingOfIgnoresEvdevDeadzone6() ensures SettingOf("ANALOGUE_DEADZONE_6").None? {}
  lemma SettingOfIgnoresEvdevDeadzone7() ensures SettingOf("ANALOGUE_DEADZONE_7").None? {}
  lemma SettingOfIgnoresEvdevDeadzone8() ensures SettingOf("ANALOGUE_DEADZONE_8").None? {}

  lemma SettingOfIgnoresInputMode() ensures SettingOf("INPUT_MODE").None? {}

  // SdlSlotOf on its own keys.
  lemma SdlSlotOfTestKey() ensures SdlSlotOf("TEST_KEY") == Some(TestKey) {}
  lemma SdlSlotOfStartKey() ensures SdlSlotOf("PLAYER_1_START_KEY") == Some(StartKey) {}
  lemma SdlSlotOfServiceKey() ensures SdlSlotOf("PLAYER_1_SERVICE_KEY") == Some(ServiceKey) {}
  lemma SdlSlotOfCoinKey() ensures SdlSlotOf("PLAYER_1_COIN_KEY") == Some(CoinKey) {}
  lemma SdlSlotOfUpKey() ensures SdlSlotOf("PLAYER_1_UP_KEY") == Some(UpKey) {}
  lemma SdlSlotOfDownKey() ensures SdlSlotOf("PLAYER_1_DOWN_KEY") == Some(DownKey) {}
  lemma SdlSlotOfLeftKey() ensures SdlSlotOf("PLAYER_1_LEFT_KEY") == Some(LeftKey) {}
  lemma SdlSlotOfRightKey() ensures SdlSlotOf("PLAYER_1_RIGHT_KEY") == Some(RightKey) {}
  lemma SdlSlotOfButton1Key() ensures SdlSlotOf("PLAYER_1_BUTTON_1_KEY") == Some(Button1Key) {}
  lemma SdlSlotOfButton2Key() ensures SdlSlotOf("PLAYER_1_BUTTON_2_KEY") == Some(Button2Key) {}
  lemma SdlSlotOfButton3Key() ensures SdlSlotOf("PLAYER_1_BUTTON_3_KEY") == Some(Button3Key) {}
  lemma SdlSlotOfButton4Key() ensures SdlSlotOf("PLAYER_1_BUTTON_4_KEY") == Some(Button4Key) {}

  // SdlSlotOf on the Setting keys.
  lemma SdlSlotOfIgnoresSettingWidth() ensures SdlSlotOf("WIDTH").None? {}
  lemma SdlSlotOfIgnoresSettingHeight() ensures SdlSlotOf("HEIGHT").None? {}
  lemma SdlSlotOfIgnoresSettingFullscreen() ensures SdlSlotOf("FULLSCREEN").None? {}
  lemma SdlSlotOfIgnoresSettingNoSdl() ensures SdlSlotOf("NO_SDL").None? {}
  lemma SdlSlotOfIgnoresSettingRegion() ensures SdlSlotOf("REGION").None? {}
  lemma SdlSlotOfIgnoresSettingFreeplay() ensures SdlSlotOf("FREEPLAY").None? {}
  lemma SdlSlotOfIgnoresSettingEmulateJvs() ensures SdlSlotOf("EMULATE_JVS").None? {}
  lemma SdlSlotOfIgnoresSettingEmulateRideboard() ensures SdlSlotOf("EMULATE_RIDEBOARD").None? {}
  lemma SdlSlotOfIgnoresSettingEmulateDriveboard() ensures SdlSlotOf("EMULATE_DRIVEBOARD").None? {}
  lemma SdlSlotOfIgnoresSettingEmulateMotionboard() ensures SdlSlotOf("EMULATE_MOTIONBOARD").None? {}
  lemma SdlSlotOfIgnoresSettingJvsPath() ensures SdlSlotOf("JVS_PATH").None? {}
  lemma SdlSlotOfIgnoresSettingSerial1Path() ensures SdlSlotOf("SERIAL_1_PATH").None? {}
  lemma SdlSlotOfIgnoresSettingSerial2Path() ensures SdlSlotOf("SERIAL_2_PATH").None? {}
  lemma SdlSlotOfIgnoresSettingSramPath() ensures SdlSlotOf("SRAM_PATH").None? {}
  lemma SdlSlotOfIgnoresSettingEepromPath() ensures SdlSlotOf("EEPROM_PATH").None? {}
  lemma SdlSlotOfIgnoresSettingGpuVendor() ensures SdlSlotOf("GPU_VENDOR").None? {}
  lemma SdlSlotOfIgnoresSettingDebugMsgs() ensures SdlSlotOf("DEBUG_MSGS").None? {}
  lemma SdlSlotOfIgnoresSettingBorderEnabled() ensures SdlSlotOf("BORDER_ENABLED").None? {}
  lemma SdlSlotOfIgnoresSettingWhiteBorderPercentage() ensures SdlSlotOf("WHITE_BORDER_PERCENTAGE").None? {}
  lemma SdlSlotOfIgnoresSettingBlackBorderPercentage() ensures SdlSlotOf("BLACK_BORDER_PERCENTAGE").None? {}
  lemma SdlSlotOfIgnoresSettingHummerFlickerFix() ensures SdlSlotOf("HUMMER_FLICKER_FIX").None? {}
  lemma SdlSlotOfIgnoresSettingKeepAspectRatio() ensures SdlSlotOf("KEEP_ASPECT_RATIO").None? {}
  lemma SdlSlotOfIgnoresSettingOutrunLensGlareEnabled() ensures SdlSlotOf("OUTRUN_LENS_GLARE_ENABLED").None? {}
  lemma SdlSlotOfIgnoresSettingSkipOutrunCabinetCheck() ensures SdlSlotOf("SKIP_OUTRUN_CABINET_CHECK").None? {}
  lemma SdlSlotOfIgnoresSettingFpsLimiterEnabled() ensures SdlSlotOf("FPS_LIMITER_ENABLED").None? {}
  lemma SdlSlotOfIgnoresSettingFpsTarget() ensures SdlSlotOf("FPS_TARGET").None? {}
  lemma SdlSlotOfIgnoresSettingLgjRenderWithMesa() ensures SdlSlotOf("LGJ_RENDER_WITH_MESA").None? {}
  lemma SdlSlotOfIgnoresSettingPrimevalHuntMode() ensures SdlSlotOf("PRIMEVAL_HUNT_MODE").None? {}
  lemma SdlSlotOfIgnoresSettingLindberghColour() ensures SdlSlotOf("LINDBERGH_COLOUR").None? {}
  lemma SdlSlotOfIgnoresSettingMj4EnabledAllTheTime() ensures SdlSlotOf("MJ4_ENABLED_ALL_THE_TIME").None? {}

  // SdlSlotOf on the Evdev keys.
  lemma SdlSlotOfIgnoresEvdevTestButton() ensures SdlSlotOf("TEST_BUTTON").None? {}
  lemma SdlSlotOfIgnoresEvdevPlayer1Start() ensures SdlSlotOf("PLAYER_1_BUTTON_START").None? {}
  lemma SdlSlotOfIgnoresEvdevPlayer1Service() ensures SdlSlotOf("PLAYER_1_BUTTON_SERVICE").None? {}
  lemma SdlSlotOfIgnoresEvdevPlayer1Up() ensures SdlSlotOf("PLAYER_1_BUTTON_UP").None? {}
  lemma SdlSlotOfIgnoresEvdevPlayer1Down() ensures SdlSlotOf("PLAYER_1_BUTTON_DOWN").None? {}
  lemma SdlSlotOfIgnoresEvdevPlayer1Left() ensures SdlSlotOf("PLAYER_1_BUTTON_LEFT").None? {}
  lemma SdlSlotOfIgnoresEvdevPlayer1Right() ensures SdlSlotOf("PLAYER_1_BUTTON_RIGHT").None? {}
  lemma SdlSlotOfIgnoresEvdevPlayer1Button1() ensures SdlSlotOf("PLAYER_1_BUTTON_1").None? {}
  lemma SdlSlotOfIgnoresEvdevPlayer1Button2() ensures SdlSlotOf("PLAYER_1_BUTTON_2").None? {}
  lemma SdlSlotOfIgnoresEvdevPlayer1Button3() ensures SdlSlotOf("PLAYER_1_BUTTON_3").None? {}
  lemma SdlSlotOfIgnoresEvdevPlayer1Button4() ensures SdlSlotOf("PLAYER_1_BUTTON_4").None? {}
  lemma SdlSlotOfIgnoresEvdevPlayer1Button5() ensures SdlSlotOf("PLAYER_1_BUTTON_5").None? {}
  lemma SdlSlotOfIgnoresEvdevPlayer1Button6() ensures SdlSlotOf("PLAYER_1_BUTTON_6").None? {}
  lemma SdlSlotOfIgnoresEvdevPlayer1Button7() ensures SdlSlotOf("PLAYER_1_BUTTON_7").None? {}
  lemma SdlSlotOfIgnoresEvdevPlayer1Button8() ensures SdlSlotOf("PLAYER_1_BUTTON_8").None? {}
  lemma SdlSlotOfIgnoresEvdevPlayer2Start() ensures SdlSlotOf("PLAYER_2_BUTTON_START").None? {}
  lemma SdlSlotOfIgnoresEvdevPlayer2Service() ensures SdlSlotOf("PLAYER_2_BUTTON_SERVICE").None? {}
  lemma SdlSlotOfIgnoresEvdevPlayer2Up() ensures SdlSlotOf("PLAYER_2_BUTTON_UP").None? {}
  lemma SdlSlotOfIgnoresEvdevPlayer2Down() ensures SdlSlotOf("PLAYER_2_BUTTON_DOWN").None? {}
  lemma SdlSlotOfIgnoresEvdevPlayer2Left() ensures SdlSlotOf("PLAYER_2_BUTTON_LEFT").None? {}
  lemma SdlSlotOfIgnoresEvdevPlayer2Right() ensures SdlSlotOf("PLAYER_2_BUTTON_RIGHT").None? {}
  lemma SdlSlotOfIgnoresEvdevPlayer2Button1() ensures SdlSlotOf("PLAYER_2_BUTTON_1").None? {}
  lemma SdlSlotOfIgnoresEvdevPlayer2Button2() ensures SdlSlotOf("PLAYER_2_BUTTON_2").None? {}
  lemma SdlSlotOfIgnoresEvdevPlayer2Button3() ensures SdlSlotOf("PLAYER_2_BUTTON_3").None? {}
  lemma SdlSlotOfIgnoresEvdevPlayer2Button4() ensures SdlSlotOf("PLAYER_2_BUTTON_4").None? {}
  lemma SdlSlotOfIgnoresEvdevPlayer2Button5() ensures SdlSlotOf("PLAYER_2_BUTTON_5").None? {}
  lemma SdlSlotOfIgnoresEvdevPlayer2Button6() ensures SdlSlotOf("PLAYER_2_BUTTON_6").None? {}
  lemma SdlSlotOfIgnoresEvdevPlayer2Button7() ensures SdlSlotOf("PLAYER_2_BUTTON_7").None? {}
  lemma SdlSlotOfIgnoresEvdevPlayer2Button8() ensures SdlSlotOf("PLAYER_2_BUTTON_8").None? {}
  lemma SdlSlotOfIgnoresEvdevAnalogue1() ensures SdlSlotOf("ANALOGUE_1").None? {}
  lemma SdlSlotOfIgnoresEvdevAnalogue2() ensures SdlSlotOf("ANALOGUE_2").None? {}
  lemma SdlSlotOfIgnoresEvdevAnalogue3() ensures SdlSlotOf("ANALOGUE_3").None? {}
  lemma SdlSlotOfIgnoresEvdevAnalogue4() ensures SdlSlotOf("ANALOGUE_4").None? {}
  lemma SdlSlotOfIgnoresEvdevDeadzone1() ensures SdlSlotOf("ANALOGUE_DEADZONE_1").None? {}
  lemma SdlSlotOfIgnoresEvdevDeadzone2() ensures SdlSlotOf("ANALOGUE_DEADZONE_2").None? {}
  lemma SdlSlotOfIgnoresEvdevDeadzone3() ensures SdlSlotOf("ANALOGUE_DEADZONE_3").None? {}
  lemma SdlSlotOfIgnoresEvdevDeadzone4() ensures SdlSlotOf("ANALOGUE_DEADZONE_4").None? {}
  lemma SdlSlotOfIgnoresEvdevDeadzone5() ensures SdlSlotOf("ANALOGUE_DEADZONE_5").None? {}
  lemma SdlSlotOfIgnoresEvdevDeadzone6() ensures SdlSlotOf("ANALOGUE_DEADZONE_6").None? {}
  lemma SdlSlotOfIgnoresEvdevDeadzone7() ensures SdlSlotOf("ANALOGUE_DEADZONE_7").None? {}
  lemma SdlSlotOfIgnoresEvdevDeadzone8() ensures SdlSlotOf("ANALOGUE_DEADZONE_8").None? {}

  lemma SdlSlotOfIgnoresInputMode() ensures SdlSlotOf("INPUT_MODE").None? {}

  // EvdevSlotOf on its own keys.
  lemma EvdevSlotOfTestButton() ensures EvdevSlotOf("TEST_BUTTON") == Some(TestButton) {}
  lemma EvdevSlotOfPlayer1Start() ensures EvdevSlotOf("PLAYER_1_BUTTON_START") == Some(Player1(Start)) {}
  lemma EvdevSlotOfPlayer1Service() ensures EvdevSlotOf("PLAYER_1_BUTTON_SERVICE") == Some(Player1(Service)) {}
  lemma EvdevSlotOfPlayer1Up() ensures EvdevSlotOf("PLAYER_1_BUTTON_UP") == Some(Player1(Up)) {}
  lemma EvdevSlotOfPlayer1Down() ensures EvdevSlotOf("PLAYER_1_BUTTON_DOWN") == Some(Player1(Down)) {}
  lemma EvdevSlotOfPlayer1Left() ensures EvdevSlotOf("PLAYER_1_BUTTON_LEFT") == Some(Player1(Left)) {}
  lemma EvdevSlotOfPlayer1Right() ensures EvdevSlotOf("PLAYER_1_BUTTON_RIGHT") == Some(Player1(Right)) {}
  lemma EvdevSlotOfPlayer1Button1() ensures EvdevSlotOf("PLAYER_1_BUTTON_1") == Some(Player1(Button1)) {}
  lemma EvdevSlotOfPlayer1Button2() ensures EvdevSlotOf("PLAYER_1_BUTTON_2") == Some(Player1(Button2)) {}
  lemma EvdevSlotOfPlayer1Button3() ensures EvdevSlotOf("PLAYER_1_BUTTON_3") == Some(Player1(Button3)) {}
  lemma EvdevSlotOfPlayer1Button4() ensures EvdevSlotOf("PLAYER_1_BUTTON_4") == Some(Player1(Button4)) {}
  lemma EvdevSlotOfPlayer1Button5() ensures EvdevSlotOf("PLAYER_1_BUTTON_5") == Some(Player1(Button5)) {}
  lemma EvdevSlotOfPlayer1Button6() ensures EvdevSlotOf("PLAYER_1_BUTTON_6") == Some(Player1(Button6)) {}
  lemma EvdevSlotOfPlayer1Button7() ensures EvdevSlotOf("PLAYER_1_BUTTON_7") == Some(Player1(Button7)) {}
  lemma EvdevSlotOfPlayer1Button8() ensures EvdevSlotOf("PLAYER_1_BUTTON_8") == Some(Player1(Button8)) {}
  lemma EvdevSlotOfPlayer2Start() ensures EvdevSlotOf("PLAYER_2_BUTTON_START") == Some(Player2(Start)) {}
  lemma EvdevSlotOfPlayer2Service() ensures EvdevSlotOf("PLAYER_2_BUTTON_SERVICE") == Some(Player2(Service)) {}
  lemma EvdevSlotOfPlayer2Up() ensures EvdevSlotOf("PLAYER_2_BUTTON_UP") == Some(Player2(Up)) {}
  lemma EvdevSlotOfPlayer2Down() ensures EvdevSlotOf("PLAYER_2_BUTTON_DOWN") == Some(Player2(Down)) {}
  lemma EvdevSlotOfPlayer2Left() ensures EvdevSlotOf("PLAYER_2_BUTTON_LEFT") == Some(Player2(Left)) {}
  lemma EvdevSlotOfPlayer2Right() ensures EvdevSlotOf("PLAYER_2_BUTTON_RIGHT") == Some(Player2(Right)) {}
  lemma EvdevSlotOfPlayer2Button1() ensures EvdevSlotOf("PLAYER_2_BUTTON_1") == Some(Player2(Button1)) {}
  lemma EvdevSlotOfPlayer2Button2() ensures EvdevSlotOf("PLAYER_2_BUTTON_2") == Some(Player2(Button2)) {}
  lemma EvdevSlotOfPlayer2Button3() ensures EvdevSlotOf("PLAYER_2_BUTTON_3") == Some(Player2(Button3)) {}
  lemma EvdevSlotOfPlayer2Button4() ensures EvdevSlotOf("PLAYER_2_BUTTON_4") == Some(Player2(Button4)) {}
  lemma EvdevSlotOfPlayer2Button5() ensures EvdevSlotOf("PLAYER_2_BUTTON_5") == Some(Player2(Button5)) {}
  lemma EvdevSlotOfPlayer2Button6() ensures EvdevSlotOf("PLAYER_2_BUTTON_6") == Some(Player2(Button6)) {}
  lemma EvdevSlotOfPlayer2Button7() ensures EvdevSlotOf("PLAYER_2_BUTTON_7") == Some(Player2(Button7)) {}
  lemma EvdevSlotOfPlayer2Button8() ensures EvdevSlotOf("PLAYER_2_BUTTON_8") == Some(Player2(Button8)) {}
  lemma EvdevSlotOfAnalogue1() ensures EvdevSlotOf("ANALOGUE_1") == Some(Analogue(0)) {}
  lemma EvdevSlotOfAnalogue2() ensures EvdevSlotOf("ANALOGUE_2") == Some(Analogue(1)) {}
  lemma EvdevSlotOfAnalogue3() ensures EvdevSlotOf("ANALOGUE_3") == Some(Analogue(2)) {}
  lemma EvdevSlotOfAnalogue4() ensures EvdevSlotOf("ANALOGUE_4") == Some(Analogue(3)) {}
  lemma EvdevSlotOfDeadzone1() ensures EvdevSlotOf("ANALOGUE_DEADZONE_1") == Some(Deadzone(0)) {}
  lemma EvdevSlotOfDeadzone2() ensures EvdevSlotOf("ANALOGUE_DEADZONE_2") == Some(Deadzone(1)) {}
  lemma EvdevSlotOfDeadzone3() ensures EvdevSlotOf("ANALOGUE_DEADZONE_3") == Some(Deadzone(2)) {}
  lemma EvdevSlotOfDeadzone4() ensures EvdevSlotOf("ANALOGUE_DEADZONE_4") == Some(Deadzone(3)) {}
  lemma EvdevSlotOfDeadzone5() ensures EvdevSlotOf("ANALOGUE_DEADZONE_5") == Some(Deadzone(4)) {}
  lemma EvdevSlotOfDeadzone6() ensures EvdevSlotOf("ANALOGUE_DEADZONE_6") == Some(Deadzone(5)) {}
  lemma EvdevSlotOfDeadzone7() ensures EvdevSlotOf("ANALOGUE_DEADZONE_7") == Some(Deadzone(6)) {}
  lemma EvdevSlotOfDeadzone8() ensures EvdevSlotOf("ANALOGUE_DEADZONE_8") == Some(Deadzone(7)) {}

  // EvdevSlotOf on the Setting keys.
  lemma EvdevSlotOfIgnoresSettingWidth() ensures EvdevSlotOf("WIDTH").None? {}
  lemma EvdevSlotOfIgnoresSettingHeight() ensures EvdevSlotOf("HEIGHT").None? {}
  lemma EvdevSlotOfIgnoresSettingFullscreen() ensures EvdevSlotOf("FULLSCREEN").None? {}
  lemma EvdevSlotOfIgnoresSettingNoSdl() ensures EvdevSlotOf("NO_SDL").None? {}
  lemma EvdevSlotOfIgnoresSettingRegion() ensures EvdevSlotOf("REGION").None? {}
  lemma EvdevSlotOfIgnoresSettingFreeplay() ensures EvdevSlotOf("FREEPLAY").None? {}
  lemma EvdevSlotOfIgnoresSettingEmulateJvs() ensures EvdevSlotOf("EMULATE_JVS").None? {}
  lemma EvdevSlotOfIgnoresSettingEmulateRideboard() ensures EvdevSlotOf("EMULATE_RIDEBOARD").None? {}
  lemma EvdevSlotOfIgnoresSettingEmulateDriveboard() ensures EvdevSlotOf("EMULATE_DRIVEBOARD").None? {}
  lemma EvdevSlotOfIgnoresSettingEmulateMotionboard() ensures EvdevSlotOf("EMULATE_MOTIONBOARD").None? {}
  lemma EvdevSlotOfIgnoresSettingJvsPath() ensures EvdevSlotOf("JVS_PATH").None? {}
  lemma EvdevSlotOfIgnoresSettingSerial1Path() ensures EvdevSlotOf("SERIAL_1_PATH").None? {}
  lemma EvdevSlotOfIgnoresSettingSerial2Path() ensures EvdevSlotOf("SERIAL_2_PATH").None? {}
  lemma EvdevSlotOfIgnoresSettingSramPath() ensures EvdevSlotOf("SRAM_PATH").None? {}
  lemma EvdevSlotOfIgnoresSettingEepromPath() ensures EvdevSlotOf("EEPROM_PATH").None? {}
  lemma EvdevSlotOfIgnoresSettingGpuVendor() ensures EvdevSlotOf("GPU_VENDOR").None? {}
  lemma EvdevSlotOfIgnoresSettingDebugMsgs() ensures EvdevSlotOf("DEBUG_MSGS").None? {}
  lemma EvdevSlotOfIgnoresSettingBorderEnabled() ensures EvdevSlotOf("BORDER_ENABLED").None? {}
  lemma EvdevSlotOfIgnoresSettingWhiteBorderPercentage() ensures EvdevSlotOf("WHITE_BORDER_PERCENTAGE").None? {}
  lemma EvdevSlotOfIgnoresSettingBlackBorderPercentage() ensures EvdevSlotOf("BLACK_BORDER_PERCENTAGE").None? {}
  lemma EvdevSlotOfIgnoresSettingHummerFlickerFix() ensures EvdevSlotOf("HUMMER_FLICKER_FIX").None? {}
  lemma EvdevSlotOfIgnoresSettingKeepAspectRatio() ensures EvdevSlotOf("KEEP_ASPECT_RATIO").None? {}
  lemma EvdevSlotOfIgnoresSettingOutrunLensGlareEnabled() ensures EvdevSlotOf("OUTRUN_LENS_GLARE_ENABLED").None? {}
  lemma EvdevSlotOfIgnoresSettingSkipOutrunCabinetCheck() ensures EvdevSlotOf("SKIP_OUTRUN_CABINET_CHECK").None? {}
  lemma EvdevSlotOfIgnoresSettingFpsLimiterEnabled() ensures EvdevSlotOf("FPS_LIMITER_ENABLED").None? {}
  lemma EvdevSlotOfIgnoresSettingFpsTarget() ensures EvdevSlotOf("FPS_TARGET").None? {}
  lemma EvdevSlotOfIgnoresSettingLgjRenderWithMesa() ensures EvdevSlotOf("LGJ_RENDER_WITH_MESA").None? {}
  lemma EvdevSlotOfIgnoresSettingPrimevalHuntMode() ensures EvdevSlotOf("PRIMEVAL_HUNT_MODE").None? {}
  lemma EvdevSlotOfIgnoresSettingLindberghColour() ensures EvdevSlotOf("LINDBERGH_COLOUR").None? {}
  lemma EvdevSlotOfIgnoresSettingMj4EnabledAllTheTime() ensures EvdevSlotOf("MJ4_ENABLED_ALL_THE_TIME").None? {}

  // EvdevSlotOf on the Sdl keys.
  lemma EvdevSlotOfIgnoresSdlTestKey() ensures EvdevSlotOf("TEST_KEY").None? {}
  lemma EvdevSlotOfIgnoresSdlStartKey() ensures EvdevSlotOf("PLAYER_1_START_KEY").None? {}
  lemma EvdevSlotOfIgnoresSdlServiceKey() ensures EvdevSlotOf("PLAYER_1_SERVICE_KEY").None? {}
  lemma EvdevSlotOfIgnoresSdlCoinKey() ensures EvdevSlotOf("PLAYER_1_COIN_KEY").None? {}
  lemma EvdevSlotOfIgnoresSdlUpKey() ensures EvdevSlotOf("PLAYER_1_UP_KEY").None? {}
  lemma EvdevSlotOfIgnoresSdlDownKey() ensures EvdevSlotOf("PLAYER_1_DOWN_KEY").None? {}
  lemma EvdevSlotOfIgnoresSdlLeftKey() ensures EvdevSlotOf("PLAYER_1_LEFT_KEY").None? {}
  lemma EvdevSlotOfIgnoresSdlRightKey() ensures EvdevSlotOf("PLAYER_1_RIGHT_KEY").None? {}
  lemma EvdevSlotOfIgnoresSdlButton1Key() ensures EvdevSlotOf("PLAYER_1_BUTTON_1_KEY").None? {}
  lemma EvdevSlotOfIgnoresSdlButton2Key() ensures EvdevSlotOf("PLAYER_1_BUTTON_2_KEY").None? {}
  lemma EvdevSlotOfIgnoresSdlButton3Key() ensures EvdevSlotOf("PLAYER_1_BUTTON_3_KEY").None? {}
  lemma EvdevSlotOfIgnoresSdlButton4Key() ensures EvdevSlotOf("PLAYER_1_BUTTON_4_KEY").None? {}

  lemma EvdevSlotOfIgnoresInputMode() ensures EvdevSlotOf("INPUT_MODE").None? {}

  // Every key is a single token other than `#`.
  lemma SettingKeyTokenWidth() ensures IsToken("WIDTH") && "WIDTH" != "#" {}
  lemma SettingKeyTokenHeight() ensures IsToken("HEIGHT") && "HEIGHT" != "#" {}
  lemma SettingKeyTokenFullscreen() ensures IsToken("FULLSCREEN") && "FULLSCREEN" != "#" {}
  lemma SettingKeyTokenNoSdl() ensures IsToken("NO_SDL") && "NO_SDL" != "#" {}
  lemma SettingKeyTokenRegion() ensures IsToken("REGION") && "REGION" != "#" {}
  lemma SettingKeyTokenFreeplay() ensures IsToken("FREEPLAY") && "FREEPLAY" != "#" {}
  lemma SettingKeyTokenEmulateJvs() ensures IsToken("EMULATE_JVS") && "EMULATE_JVS" != "#" {}
  lemma SettingKeyTokenEmulateRideboard() ensures IsToken("EMULATE_RIDEBOARD") && "EMULATE_RIDEBOARD" != "#" {}
  lemma SettingKeyTokenEmulateDriveboard() ensures IsToken("EMULATE_DRIVEBOARD") && "EMULATE_DRIVEBOARD" != "#" {}
  lemma SettingKeyTokenEmulateMotionboard() ensures IsToken("EMULATE_MOTIONBOARD") && "EMULATE_MOTIONBOARD" != "#" {}
  lemma SettingKeyTokenJvsPath() ensures IsToken("JVS_PATH") && "JVS_PATH" != "#" {}
  lemma SettingKeyTokenSerial1Path() ensures IsToken("SERIAL_1_PATH") && "SERIAL_1_PATH" != "#" {}
  lemma SettingKeyTokenSerial2Path() ensures IsToken("SERIAL_2_PATH") && "SERIAL_2_PATH" != "#" {}
  lemma SettingKeyTokenSramPath() ensures IsToken("SRAM_PATH") && "SRAM_PATH" != "#" {}
  lemma SettingKeyTokenEepromPath() ensures IsToken("EEPROM_PATH") && "EEPROM_PATH" != "#" {}
  lemma SettingKeyTokenGpuVendor() ensures IsToken("GPU_VENDOR") && "GPU_VENDOR" != "#" {}
  lemma SettingKeyTokenDebugMsgs() ensures IsToken("DEBUG_MSGS") && "DEBUG_MSGS" != "#" {}
  lemma SettingKeyTokenBorderEnabled() ensures IsToken("BORDER_ENABLED") && "BORDER_ENABLED" != "#" {}
  lemma SettingKeyTokenWhiteBorderPercentage() ensures IsToken("WHITE_BORDER_PERCENTAGE") && "WHITE_BORDER_PERCENTAGE" != "#" {}
  lemma SettingKeyTokenBlackBorderPercentage() ensures IsToken("BLACK_BORDER_PERCENTAGE") && "BLACK_BORDER_PERCENTAGE" != "#" {}
  lemma SettingKeyTokenHummerFlickerFix() ensures IsToken("HUMMER_FLICKER_FIX") && "HUMMER_FLICKER_FIX" != "#" {}
  lemma SettingKeyTokenKeepAspectRatio() ensures IsToken("KEEP_ASPECT_RATIO") && "KEEP_ASPECT_RATIO" != "#" {}
  lemma SettingKeyTokenOutrunLensGlareEnabled() ensures IsToken("OUTRUN_LENS_GLARE_ENABLED") && "OUTRUN_LENS_GLARE_ENABLED" != "#" {}
  lemma SettingKeyTokenSkipOutrunCabinetCheck() ensures IsToken("SKIP_OUTRUN_CABINET_CHECK") && "SKIP_OUTRUN_CABINET_CHECK" != "#" {}
  lemma SettingKeyTokenFpsLimiterEnabled() ensures IsToken("FPS_LIMITER_ENABLED") && "FPS_LIMITER_ENABLED" != "#" {}
  lemma SettingKeyTokenFpsTarget() ensures IsToken("FPS_TARGET") && "FPS_TARGET" != "#" {}
  lemma SettingKeyTokenLgjRenderWithMesa() ensures IsToken("LGJ_RENDER_WITH_MESA") && "LGJ_RENDER_WITH_MESA" != "#" {}
  lemma SettingKeyTokenPrimevalHuntMode() ensures IsToken("PRIMEVAL_HUNT_MODE") && "PRIMEVAL_HUNT_MODE" != "#" {}
  lemma SettingKeyTokenLindberghColour() ensures IsToken("LINDBERGH_COLOUR") && "LINDBERGH_COLOUR" != "#" {}
  lemma SettingKeyTokenMj4EnabledAllTheTime() ensures IsToken("MJ4_ENABLED_ALL_THE_TIME") && "MJ4_ENABLED_ALL_THE_TIME" != "#" {}
  lemma SdlKeyTokenTestKey() ensures IsToken("TEST_KEY") && "TEST_KEY" != "#" {}
  lemma SdlKeyTokenStartKey() ensures IsToken("PLAYER_1_START_KEY") && "PLAYER_1_START_KEY" != "#" {}
  lemma SdlKeyTokenServiceKey() ensures IsToken("PLAYER_1_SERVICE_KEY") && "PLAYER_1_SERVICE_KEY" != "#" {}
  lemma SdlKeyTokenCoinKey() ensures IsToken("PLAYER_1_COIN_KEY") && "PLAYER_1_COIN_KEY" != "#" {}
  lemma SdlKeyTokenUpKey() ensures IsToken("PLAYER_1_UP_KEY") && "PLAYER_1_UP_KEY" != "#" {}
  lemma SdlKeyTokenDownKey() ensures IsToken("PLAYER_1_DOWN_KEY") && "PLAYER_1_DOWN_KEY" != "#" {}
  lemma SdlKeyTokenLeftKey() ensures IsToken("PLAYER_1_LEFT_KEY") && "PLAYER_1_LEFT_KEY" != "#" {}
  lemma SdlKeyTokenRightKey() ensures IsToken("PLAYER_1_RIGHT_KEY") && "PLAYER_1_RIGHT_KEY" != "#" {}
  lemma SdlKeyTokenButton1Key() ensures IsToken("PLAYER_1_BUTTON_1_KEY") && "PLAYER_1_BUTTON_1_KEY" != "#" {}
  lemma SdlKeyTokenButton2Key() ensures IsToken("PLAYER_1_BUTTON_2_KEY") && "PLAYER_1_BUTTON_2_KEY" != "#" {}
  lemma SdlKeyTokenButton3Key() ensures IsToken("PLAYER_1_BUTTON_3_KEY") && "PLAYER_1_BUTTON_3_KEY" != "#" {}
  lemma SdlKeyTokenButton4Key() ensures IsToken("PLAYER_1_BUTTON_4_KEY") && "PLAYER_1_BUTTON_4_KEY" != "#" {}
  lemma EvdevKeyTokenTestButton() ensures IsToken("TEST_BUTTON") && "TEST_BUTTON" != "#" {}
  lemma EvdevKeyTokenPlayer1Start() ensures IsToken("PLAYER_1_BUTTON_START") && "PLAYER_1_BUTTON_START" != "#" {}
  lemma EvdevKeyTokenPlayer1Service() ensures IsToken("PLAYER_1_BUTTON_SERVICE") && "PLAYER_1_BUTTON_SERVICE" != "#" {}
  lemma EvdevKeyTokenPlayer1Up() ensures IsToken("PLAYER_1_BUTTON_UP") && "PLAYER_1_BUTTON_UP" != "#" {}
  lemma EvdevKeyTokenPlayer1Down() ensures IsToken("PLAYER_1_BUTTON_DOWN") && "PLAYER_1_BUTTON_DOWN" != "#" {}
  lemma EvdevKeyTokenPlayer1Left() ensures IsToken("PLAYER_1_BUTTON_LEFT") && "PLAYER_1_BUTTON_LEFT" != "#" {}
  lemma EvdevKeyTokenPlayer1Right() ensures IsToken("PLAYER_1_BUTTON_RIGHT") && "PLAYER_1_BUTTON_RIGHT" != "#" {}
  lemma EvdevKeyTokenPlayer1Button1() ensures IsToken("PLAYER_1_BUTTON_1") && "PLAYER_1_BUTTON_1" != "#" {}
  lemma EvdevKeyTokenPlayer1Button2() ensures IsToken("PLAYER_1_BUTTON_2") && "PLAYER_1_BUTTON_2" != "#" {}
  lemma EvdevKeyTokenPlayer1Button3() ensures IsToken("PLAYER_1_BUTTON_3") && "PLAYER_1_BUTTON_3" != "#" {}
  lemma EvdevKeyTokenPlayer1Button4() ensures IsToken("PLAYER_1_BUTTON_4") && "PLAYER_1_BUTTON_4" != "#" {}
  lemma EvdevKeyTokenPlayer1Button5() ensures IsToken("PLAYER_1_BUTTON_5") && "PLAYER_1_BUTTON_5" != "#" {}
  lemma EvdevKeyTokenPlayer1Button6() ensures IsToken("PLAYER_1_BUTTON_6") && "PLAYER_1_BUTTON_6" != "#" {}
  lemma EvdevKeyTokenPlayer1Button7() ensures IsToken("PLAYER_1_BUTTON_7") && "PLAYER_1_BUTTON_7" != "#" {}
  lemma EvdevKeyTokenPlayer1Button8() ensures IsToken("PLAYER_1_BUTTON_8") && "PLAYER_1_BUTTON_8" != "#" {}
  lemma EvdevKeyTokenPlayer2Start() ensures IsToken("PLAYER_2_BUTTON_START") && "PLAYER_2_BUTTON_START" != "#" {}
  lemma EvdevKeyTokenPlayer2Service() ensures IsToken("PLAYER_2_BUTTON_SERVICE") && "PLAYER_2_BUTTON_SERVICE" != "#" {}
  lemma EvdevKeyTokenPlayer2Up() ensures IsToken("PLAYER_2_BUTTON_UP") && "PLAYER_2_BUTTON_UP" != "#" {}
  lemma EvdevKeyTokenPlayer2Down() ensures IsToken("PLAYER_2_BUTTON_DOWN") && "PLAYER_2_BUTTON_DOWN" != "#" {}
  lemma EvdevKeyTokenPlayer2Left() ensures IsToken("PLAYER_2_BUTTON_LEFT") && "PLAYER_2_BUTTON_LEFT" != "#" {}
  lemma EvdevKeyTokenPlayer2Right() ensures IsToken("PLAYER_2_BUTTON_RIGHT") && "PLAYER_2_BUTTON_RIGHT" != "#" {}
  lemma EvdevKeyTokenPlayer2Button1() ensures IsToken("PLAYER_2_BUTTON_1") && "PLAYER_2_BUTTON_1" != "#" {}
  lemma EvdevKeyTokenPlayer2Button2() ensures IsToken("PLAYER_2_BUTTON_2") && "PLAYER_2_BUTTON_2" != "#" {}
  lemma EvdevKeyTokenPlayer2Button3() ensures IsToken("PLAYER_2_BUTTON_3") && "PLAYER_2_BUTTON_3" != "#" {}
  lemma EvdevKeyTokenPlayer2Button4() ensures IsToken("PLAYER_2_BUTTON_4") && "PLAYER_2_BUTTON_4" != "#" {}
  lemma EvdevKeyTokenPlayer2Button5() ensures IsToken("PLAYER_2_BUTTON_5") && "PLAYER_2_BUTTON_5" != "#" {}
  lemma EvdevKeyTokenPlayer2Button6() ensures IsToken("PLAYER_2_BUTTON_6") && "PLAYER_2_BUTTON_6" != "#" {}
  lemma EvdevKeyTokenPlayer2Button7() ensures IsToken("PLAYER_2_BUTTON_7") && "PLAYER_2_BUTTON_7" != "#" {}
  lemma EvdevKeyTokenPlayer2Button8() ensures IsToken("PLAYER_2_BUTTON_8") && "PLAYER_2_BUTTON_8" != "#" {}
  lemma EvdevKeyTokenAnalogue1() ensures IsToken("ANALOGUE_1") && "ANALOGUE_1" != "#" {}
  lemma EvdevKeyTokenAnalogue2() ensures IsToken("ANALOGUE_2") && "ANALOGUE_2" != "#" {}
  lemma EvdevKeyTokenAnalogue3() ensures IsToken("ANALOGUE_3") && "ANALOGUE_3" != "#" {}
  lemma EvdevKeyTokenAnalogue4() ensures IsToken("ANALOGUE_4") && "ANALOGUE_4" != "#" {}
  lemma EvdevKeyTokenDeadzone1() ensures IsToken("ANALOGUE_DEADZONE_1") && "ANALOGUE_DEADZONE_1" != "#" {}
  lemma EvdevKeyTokenDeadzone2() ensures IsToken("ANALOGUE_DEADZONE_2") && "ANALOGUE_DEADZONE_2" != "#" {}
  lemma EvdevKeyTokenDeadzone3() ensures IsToken("ANALOGUE_DEADZONE_3") && "ANALOGUE_DEADZONE_3" != "#" {}
  lemma EvdevKeyTokenDeadzone4() ensures IsToken("ANALOGUE_DEADZONE_4") && "ANALOGUE_DEADZONE_4" != "#" {}
  lemma EvdevKeyTokenDeadzone5() ensures IsToken("ANALOGUE_DEADZONE_5") && "ANALOGUE_DEADZONE_5" != "#" {}
  lemma EvdevKeyTokenDeadzone6() ensures IsToken("ANALOGUE_DEADZONE_6") && "ANALOGUE_DEADZONE_6" != "#" {}
  lemma EvdevKeyTokenDeadzone7() ensures IsToken("ANALOGUE_DEADZONE_7") && "ANALOGUE_DEADZONE_7" != "#" {}
  lemma EvdevKeyTokenDeadzone8() ensures IsToken("ANALOGUE_DEADZONE_8") && "ANALOGUE_DEADZONE_8" != "#" {}
  lemma InputModeKeyToken() ensures IsToken("INPUT_MODE") && "INPUT_MODE" != "#" {}

  // ---------------------------------------------------------------------
  // The same facts over every setting and slot.

  /** Each config key selects its own setting. */
  lemma SettingOfKey(k: Setting)
    ensures SettingOf(SettingKey(k)) == Some(k)
  {
    match k
    case Width => SettingOfWidth();
    case Height => SettingOfHeight();
    case Fullscreen => SettingOfFullscreen();
    case NoSdl => SettingOfNoSdl();
    case Region => SettingOfRegion();
    case Freeplay => SettingOfFreeplay();
    case EmulateJvs => SettingOfEmulateJvs();
    case EmulateRideboard => SettingOfEmulateRideboard();
    case EmulateDriveboard => SettingOfEmulateDriveboard();
    case EmulateMotionboard => SettingOfEmulateMotionboard();
    case JvsPath => SettingOfJvsPath();
    case Serial1Path => SettingOfSerial1Path();
    case Serial2Path => SettingOfSerial2Path();
    case SramPath => SettingOfSramPath();
    case EepromPath => SettingOfEepromPath();
    case GpuVendor => SettingOfGpuVendor();
    case DebugMsgs => SettingOfDebugMsgs();
    case BorderEnabled => SettingOfBorderEnabled();
    case WhiteBorderPercentage => SettingOfWhiteBorderPercentage();
    case BlackBorderPercentage => SettingOfBlackBorderPercentage();
    case HummerFlickerFix => SettingOfHummerFlickerFix();
    case KeepAspectRatio => SettingOfKeepAspectRatio();
    case OutrunLensGlareEnabled => SettingOfOutrunLensGlareEnabled();
    case SkipOutrunCabinetCheck => SettingOfSkipOutrunCabinetCheck();
    case FpsLimiterEnabled => SettingOfFpsLimiterEnabled();
    case FpsTarget => SettingOfFpsTarget();
    case LgjRenderWithMesa => SettingOfLgjRenderWithMesa();
    case PrimevalHuntMode => SettingOfPrimevalHuntMode();
    case LindberghColour => SettingOfLindberghColour();
    case Mj4EnabledAllTheTime => SettingOfMj4EnabledAllTheTime();
  }

  /** Every config key is a single token other than `#`. */
  lemma SettingKeyToken(k: Setting)
    ensures IsToken(SettingKey(k)) && SettingKey(k) != "#"
  {
    match k
    case Width => SettingKeyTokenWidth();
    case Height => SettingKeyTokenHeight();
    case Fullscreen => SettingKeyTokenFullscreen();
    case NoSdl => SettingKeyTokenNoSdl();
    case Region => SettingKeyTokenRegion();
    case Freeplay => SettingKeyTokenFreeplay();
    case EmulateJvs => SettingKeyTokenEmulateJvs();
    case EmulateRideboard => SettingKeyTokenEmulateRideboard();
    case EmulateDriveboard => SettingKeyTokenEmulateDriveboard();
    case EmulateMotionboard => SettingKeyTokenEmulateMotionboard();
    case JvsPath => SettingKeyTokenJvsPath();
    case Serial1Path => SettingKeyTokenSerial1Path();
    case Serial2Path => SettingKeyTokenSerial2Path();
    case SramPath => SettingKeyTokenSramPath();
    case EepromPath => SettingKeyTokenEepromPath();
    case GpuVendor => SettingKeyTokenGpuVendor();
    case DebugMsgs => SettingKeyTokenDebugMsgs();
    case BorderEnabled => SettingKeyTokenBorderEnabled();
    case WhiteBorderPercentage => SettingKeyTokenWhiteBorderPercentage();
    case BlackBorderPercentage => SettingKeyTokenBlackBorderPercentage();
    case HummerFlickerFix => SettingKeyTokenHummerFlickerFix();
    case KeepAspectRatio => SettingKeyTokenKeepAspectRatio();
    case OutrunLensGlareEnabled => SettingKeyTokenOutrunLensGlareEnabled();
    case SkipOutrunCabinetCheck => SettingKeyTokenSkipOutrunCabinetCheck();
    case FpsLimiterEnabled => SettingKeyTokenFpsLimiterEnabled();
    case FpsTarget => SettingKeyTokenFpsTarget();
    case LgjRenderWithMesa => SettingKeyTokenLgjRenderWithMesa();
    case PrimevalHuntMode => SettingKeyTokenPrimevalHuntMode();
    case LindberghColour => SettingKeyTokenLindberghColour();
    case Mj4EnabledAllTheTime => SettingKeyTokenMj4EnabledAllTheTime();
  }

  /** The config reader passes over the SDL keys. */
  lemma SettingOfIgnoresSdl(x: SdlSlot)
    ensures SettingOf(SdlKey(x)).None?
  {
    match x
    case TestKey => SettingOfIgnoresSdlTestKey();
    case StartKey => SettingOfIgnoresSdlStartKey();
    case ServiceKey => SettingOfIgnoresSdlServiceKey();
    case CoinKey => SettingOfIgnoresSdlCoinKey();
    case UpKey => SettingOfIgnoresSdlUpKey();
    case DownKey => SettingOfIgnoresSdlDownKey();
    case LeftKey => SettingOfIgnoresSdlLeftKey();
    case RightKey => SettingOfIgnoresSdlRightKey();
    case Button1Key => SettingOfIgnoresSdlButton1Key();
    case Button2Key => SettingOfIgnoresSdlButton2Key();
    case Button3Key => SettingOfIgnoresSdlButton3Key();
    case Button4Key => SettingOfIgnoresSdlButton4Key();
  }

  /** The config reader passes over the evdev keys. */
  lemma SettingOfIgnoresEvdevPlayer1(c: Control)
    ensures SettingOf(EvdevKey(Player1(c))).None?
  {
    match c
    case Start => SettingOfIgnoresEvdevPlayer1Start();
    case Service => SettingOfIgnoresEvdevPlayer1Service();
    case Up => SettingOfIgnoresEvdevPlayer1Up();
    case Down => SettingOfIgnoresEvdevPlayer1Down();
    case Left => SettingOfIgnoresEvdevPlayer1Left();
    case Right => SettingOfIgnoresEvdevPlayer1Right();
    case Button1 => SettingOfIgnoresEvdevPlayer1Button1();
    case Button2 => SettingOfIgnoresEvdevPlayer1Button2();
    case Button3 => SettingOfIgnoresEvdevPlayer1Button3();
    case Button4 => SettingOfIgnoresEvdevPlayer1Button4();
    case Button5 => SettingOfIgnoresEvdevPlayer1Button5();
    case Button6 => SettingOfIgnoresEvdevPlayer1Button6();
    case Button7 => SettingOfIgnoresEvdevPlayer1Button7();
    case Button8 => SettingOfIgnoresEvdevPlayer1Button8();
  }

  lemma SettingOfIgnoresEvdevPlayer2(c: Control)
    ensures SettingOf(EvdevKey(Player2(c))).None?
  {
    match c
    case Start => SettingOfIgnoresEvdevPlayer2Start();
    case Service => SettingOfIgnoresEvdevPlayer2Service();
    case Up => SettingOfIgnoresEvdevPlayer2Up();
    case Down => SettingOfIgnoresEvdevPlayer2Down();
    case Left => SettingOfIgnoresEvdevPlayer2Left();
    case Right => SettingOfIgnoresEvdevPlayer2Right();
    case Button1 => SettingOfIgnoresEvdevPlayer2Button1();
    case Button2 => SettingOfIgnoresEvdevPlayer2Button2();
    case Button3 => SettingOfIgnoresEvdevPlayer2Button3();
    case Button4 => SettingOfIgnoresEvdevPlayer2Button4();
    case Button5 => SettingOfIgnoresEvdevPlayer2Button5();
    case Button6 => SettingOfIgnoresEvdevPlayer2Button6();
    case Button7 => SettingOfIgnoresEvdevPlayer2Button7();
    case Button8 => SettingOfIgnoresEvdevPlayer2Button8();
  }

  lemma SettingOfIgnoresEvdevAnalogue(a: AnalogueIndex)
    ensures SettingOf(EvdevKey(Analogue(a))).None?
  {
    if a == 0 {
      SettingOfIgnoresEvdevAnalogue1();
    } else if a == 1 {
      SettingOfIgnoresEvdevAnalogue2();
    } else if a == 2 {
      SettingOfIgnoresEvdevAnalogue3();
    } else {
      SettingOfIgnoresEvdevAnalogue4();
    }
  }

  lemma SettingOfIgnoresEvdevDeadzone(d: DeadzoneIndex)
    ensures SettingOf(EvdevKey(Deadzone(d))).None?
  {
    if d == 0 {
      SettingOfIgnoresEvdevDeadzone1();
    } else if d == 1 {
      SettingOfIgnoresEvdevDeadzone2();
    } else if d == 2 {
      SettingOfIgnoresEvdevDeadzone3();
    } else if d == 3 {
      SettingOfIgnoresEvdevDeadzone4();
    } else if d == 4 {
      SettingOfIgnoresEvdevDeadzone5();
    } else if d == 5 {
      SettingOfIgnoresEvdevDeadzone6();
    } else if d == 6 {
      SettingOfIgnoresEvdevDeadzone7();
    } else {
      SettingOfIgnoresEvdevDeadzone8();
    }
  }

  lemma SettingOfIgnoresEvdev(y: EvdevSlot)
    ensures SettingOf(EvdevKey(y)).None?
  {
    match y
    case TestButton => SettingOfIgnoresEvdevTestButton();
    case Player1(c) => SettingOfIgnoresEvdevPlayer1(c);
    case Player2(c) => SettingOfIgnoresEvdevPlayer2(c);
    case Analogue(a) => SettingOfIgnoresEvdevAnalogue(a);
    case Deadzone(d) => SettingOfIgnoresEvdevDeadzone(d);
  }

  /** Each SDL key selects its own slot. */
  lemma SdlSlotOfKey(x: SdlSlot)
    ensures SdlSlotOf(SdlKey(x)) == Some(x)
  {
    match x
    case TestKey => SdlSlotOfTestKey();
    case StartKey => SdlSlotOfStartKey();
    case ServiceKey => SdlSlotOfServiceKey();
    case CoinKey => SdlSlotOfCoinKey();
    case UpKey => SdlSlotOfUpKey();
    case DownKey => SdlSlotOfDownKey();
    case LeftKey => SdlSlotOfLeftKey();
    case RightKey => SdlSlotOfRightKey();
    case Button1Key => SdlSlotOfButton1Key();
    case Button2Key => SdlSlotOfButton2Key();
    case Button3Key => SdlSlotOfButton3Key();
    case Button4Key => SdlSlotOfButton4Key();
  }

  /** Every SDL key is a single token other than `#`. */
  lemma SdlKeyToken(x: SdlSlot)
    ensures IsToken(SdlKey(x)) && SdlKey(x) != "#"
  {
    match x
    case TestKey => SdlKeyTokenTestKey();
    case StartKey => SdlKeyTokenStartKey();
    case ServiceKey => SdlKeyTokenServiceKey();
    case CoinKey => SdlKeyTokenCoinKey();
    case UpKey => SdlKeyTokenUpKey();
    case DownKey => SdlKeyTokenDownKey();
    case LeftKey => SdlKeyTokenLeftKey();
    case RightKey => SdlKeyTokenRightKey();
    case Button1Key => SdlKeyTokenButton1Key();
    case Button2Key => SdlKeyTokenButton2Key();
    case Button3Key => SdlKeyTokenButton3Key();
    case Button4Key => SdlKeyTokenButton4Key();
  }

  /** The SDL reader passes over the config keys. */
  lemma SdlSlotOfIgnoresSetting(k: Setting)
    ensures SdlSlotOf(SettingKey(k)).None?
  {
    match k
    case Width => SdlSlotOfIgnoresSettingWidth();
    case Height => SdlSlotOfIgnoresSettingHeight();
    case Fullscreen => SdlSlotOfIgnoresSettingFullscreen();
    case NoSdl => SdlSlotOfIgnoresSettingNoSdl();
    case Region => SdlSlotOfIgnoresSettingRegion();
    case Freeplay => SdlSlotOfIgnoresSettingFreeplay();
    case EmulateJvs => SdlSlotOfIgnoresSettingEmulateJvs();
    case EmulateRideboard => SdlSlotOfIgnoresSettingEmulateRideboard();
    case EmulateDriveboard => SdlSlotOfIgnoresSettingEmulateDriveboard();
    case EmulateMotionboard => SdlSlotOfIgnoresSettingEmulateMotionboard();
    case JvsPath => SdlSlotOfIgnoresSettingJvsPath();
    case Serial1Path => SdlSlotOfIgnoresSettingSerial1Path();
    case Serial2Path => SdlSlotOfIgnoresSettingSerial2Path();
    case SramPath => SdlSlotOfIgnoresSettingSramPath();
    case EepromPath => SdlSlotOfIgnoresSettingEepromPath();
    case GpuVendor => SdlSlotOfIgnoresSettingGpuVendor();
    case DebugMsgs => SdlSlotOfIgnoresSettingDebugMsgs();
    case BorderEnabled => SdlSlotOfIgnoresSettingBorderEnabled();
    case WhiteBorderPercentage => SdlSlotOfIgnoresSettingWhiteBorderPercentage();
    case BlackBorderPercentage => SdlSlotOfIgnoresSettingBlackBorderPercentage();
    case HummerFlickerFix => SdlSlotOfIgnoresSettingHummerFlickerFix();
    case KeepAspectRatio => SdlSlotOfIgnoresSettingKeepAspectRatio();
    case OutrunLensGlareEnabled => SdlSlotOfIgnoresSettingOutrunLensGlareEnabled();
    case SkipOutrunCabinetCheck => SdlSlotOfIgnoresSettingSkipOutrunCabinetCheck();
    case FpsLimiterEnabled => SdlSlotOfIgnoresSettingFpsLimiterEnabled();
    case FpsTarget => SdlSlotOfIgnoresSettingFpsTarget();
    case LgjRenderWithMesa => SdlSlotOfIgnoresSettingLgjRenderWithMesa();
    case PrimevalHuntMode => SdlSlotOfIgnoresSettingPrimevalHuntMode();
    case LindberghColour => SdlSlotOfIgnoresSettingLindberghColour();
    case Mj4EnabledAllTheTime => SdlSlotOfIgnoresSettingMj4EnabledAllTheTime();
  }

  /** The SDL reader passes over the evdev keys. */
  lemma SdlSlotOfIgnoresEvdevPlayer1(c: Control)
    ensures SdlSlotOf(EvdevKey(Player1(c))).None?
  {
    match c
    case Start => SdlSlotOfIgnoresEvdevPlayer1Start();
    case Service => SdlSlotOfIgnoresEvdevPlayer1Service();
    case Up => SdlSlotOfIgnoresEvdevPlayer1Up();
    case Down => SdlSlotOfIgnoresEvdevPlayer1Down();
    case Left => SdlSlotOfIgnoresEvdevPlayer1Left();
    case Right => SdlSlotOfIgnoresEvdevPlayer1Right();
    case Button1 => SdlSlotOfIgnoresEvdevPlayer1Button1();
    case Button2 => SdlSlotOfIgnoresEvdevPlayer1Button2();
    case Button3 => SdlSlotOfIgnoresEvdevPlayer1Button3();
    case Button4 => SdlSlotOfIgnoresEvdevPlayer1Button4();
    case Button5 => SdlSlotOfIgnoresEvdevPlayer1Button5();
    case Button6 => SdlSlotOfIgnoresEvdevPlayer1Button6();
    case Button7 => SdlSlotOfIgnoresEvdevPlayer1Button7();
    case Button8 => SdlSlotOfIgnoresEvdevPlayer1Button8();
  }

  lemma SdlSlotOfIgnoresEvdevPlayer2(c: Control)
    ensures SdlSlotOf(EvdevKey(Player2(c))).None?
  {
    match c
    case Start => SdlSlotOfIgnoresEvdevPlayer2Start();
    case Service => SdlSlotOfIgnoresEvdevPlayer2Service();
    case Up => SdlSlotOfIgnoresEvdevPlayer2Up();
    case Down => SdlSlotOfIgnoresEvdevPlayer2Down();
    case Left => SdlSlotOfIgnoresEvdevPlayer2Left();
    case Right => SdlSlotOfIgnoresEvdevPlayer2Right();
    case Button1 => SdlSlotOfIgnoresEvdevPlayer2Button1();
    case Button2 => SdlSlotOfIgnoresEvdevPlayer2Button2();
    case Button3 => SdlSlotOfIgnoresEvdevPlayer2Button3();
    case Button4 => SdlSlotOfIgnoresEvdevPlayer2Button4();
    case Button5 => SdlSlotOfIgnoresEvdevPlayer2Button5();
    case Button6 => SdlSlotOfIgnoresEvdevPlayer2Button6();
    case Button7 => SdlSlotOfIgnoresEvdevPlayer2Button7();
    case Button8 => SdlSlotOfIgnoresEvdevPlayer2Button8();
  }

  lemma SdlSlotOfIgnoresEvdevAnalogue(a: AnalogueIndex)
    ensures SdlSlotOf(EvdevKey(Analogue(a))).None?
  {
    if a == 0 {
      SdlSlotOfIgnoresEvdevAnalogue1();
    } else if a == 1 {
      SdlSlotOfIgnoresEvdevAnalogue2();
    } else if a == 2 {
      SdlSlotOfIgnoresEvdevAnalogue3();
    } else {
      SdlSlotOfIgnoresEvdevAnalogue4();
    }
  }

  lemma SdlSlotOfIgnoresEvdevDeadzone(d: DeadzoneIndex)
    ensures SdlSlotOf(EvdevKey(Deadzone(d))).None?
  {
    if d == 0 {
      SdlSlotOfIgnoresEvdevDeadzone1();
    } else if d == 1 {
      SdlSlotOfIgnoresEvdevDeadzone2();
    } else if d == 2 {
      SdlSlotOfIgnoresEvdevDeadzone3();
    } else if d == 3 {
      SdlSlotOfIgnoresEvdevDeadzone4();
    } else if d == 4 {
      SdlSlotOfIgnoresEvdevDeadzone5();
    } else if d == 5 {
      SdlSlotOfIgnoresEvdevDeadzone6();
    } else if d == 6 {
      SdlSlotOfIgnoresEvdevDeadzone7();
    } else {
      SdlSlotOfIgnoresEvdevDeadzone8();
    }
  }

  lemma SdlSlotOfIgnoresEvdev(y: EvdevSlot)
    ensures SdlSlotOf(EvdevKey(y)).None?
  {
    match y
    case TestButton => SdlSlotOfIgnoresEvdevTestButton();
    case Player1(c) => SdlSlotOfIgnoresEvdevPlayer1(c);
    case Player2(c) => SdlSlotOfIgnoresEvdevPlayer2(c);
    case Analogue(a) => SdlSlotOfIgnoresEvdevAnalogue(a);
    case Deadzone(d) => SdlSlotOfIgnoresEvdevDeadzone(d);
  }

  /** Each evdev key selects its own slot. */
  lemma EvdevSlotOfKeyPlayer1(c: Control)
    ensures EvdevSlotOf(EvdevKey(Player1(c))) == Some(Player1(c))
  {
    match c
    case Start => EvdevSlotOfPlayer1Start();
    case Service => EvdevSlotOfPlayer1Service();
    case Up => EvdevSlotOfPlayer1Up();
    case Down => EvdevSlotOfPlayer1Down();
    case Left => EvdevSlotOfPlayer1Left();
    case Right => EvdevSlotOfPlayer1Right();
    case Button1 => EvdevSlotOfPlayer1Button1();
    case Button2 => EvdevSlotOfPlayer1Button2();
    case Button3 => EvdevSlotOfPlayer1Button3();
    case Button4 => EvdevSlotOfPlayer1Button4();
    case Button5 => EvdevSlotOfPlayer1Button5();
    case Button6 => EvdevSlotOfPlayer1Button6();
    case Button7 => EvdevSlotOfPlayer1Button7();
    case Button8 => EvdevSlotOfPlayer1Button8();
  }

  lemma EvdevSlotOfKeyPlayer2(c: Control)
    ensures EvdevSlotOf(EvdevKey(Player2(c))) == Some(Player2(c))
  {
    match c
    case Start => EvdevSlotOfPlayer2Start();
    case Service => EvdevSlotOfPlayer2Service();
    case Up => EvdevSlotOfPlayer2Up();
    case Down => EvdevSlotOfPlayer2Down();
    case Left => EvdevSlotOfPlayer2Left();
    case Right => EvdevSlotOfPlayer2Right();
    case Button1 => EvdevSlotOfPlayer2Button1();
    case Button2 => EvdevSlotOfPlayer2Button2();
    case Button3 => EvdevSlotOfPlayer2Button3();
    case Button4 => EvdevSlotOfPlayer2Button4();
    case Button5 => EvdevSlotOfPlayer2Button5();
    case Button6 => EvdevSlotOfPlayer2Button6();
    case Button7 => EvdevSlotOfPlayer2Button7();
    case Button8 => EvdevSlotOfPlayer2Button8();
  }

  lemma EvdevSlotOfKeyAnalogue(a: AnalogueIndex)
    ensures EvdevSlotOf(EvdevKey(Analogue(a))) == Some(Analogue(a))
  {
    if a == 0 {
      EvdevSlotOfAnalogue1();
    } else if a == 1 {
      EvdevSlotOfAnalogue2();
    } else if a == 2 {
      EvdevSlotOfAnalogue3();
    } else {
      EvdevSlotOfAnalogue4();
    }
  }

  lemma EvdevSlotOfKeyDeadzone(d: DeadzoneIndex)
    ensures EvdevSlotOf(EvdevKey(Deadzone(d))) == Some(Deadzone(d))
  {
    if d == 0 {
      EvdevSlotOfDeadzone1();
    } else if d == 1 {
      EvdevSlotOfDeadzone2();
    } else if d == 2 {
      EvdevSlotOfDeadzone3();
    } else if d == 3 {
      EvdevSlotOfDeadzone4();
    } else if d == 4 {
      EvdevSlotOfDeadzone5();
    } else if d == 5 {
      EvdevSlotOfDeadzone6();
    } else if d == 6 {
      EvdevSlotOfDeadzone7();
    } else {
      EvdevSlotOfDeadzone8();
    }
  }

  lemma EvdevSlotOfKey(y: EvdevSlot)
    ensures EvdevSlotOf(EvdevKey(y)) == Some(y)
  {
    match y
    case TestButton => EvdevSlotOfTestButton();
    case Player1(c) => EvdevSlotOfKeyPlayer1(c);
    case Player2(c) => EvdevSlotOfKeyPlayer2(c);
    case Analogue(a) => EvdevSlotOfKeyAnalogue(a);
    case Deadzone(d) => EvdevSlotOfKeyDeadzone(d);
  }

  /** Every evdev key is a single token other than `#`. */
  lemma EvdevKeyTokenPlayer1(c: Control)
    ensures IsToken(EvdevKey(Player1(c))) && EvdevKey(Player1(c)) != "#"
  {
    match c
    case Start => EvdevKeyTokenPlayer1Start();
    case Service => EvdevKeyTokenPlayer1Service();
    case Up => EvdevKeyTokenPlayer1Up();
    case Down => EvdevKeyTokenPlayer1Down();
    case Left => EvdevKeyTokenPlayer1Left();
    case Right => EvdevKeyTokenPlayer1Right();
    case Button1 => EvdevKeyTokenPlayer1Button1();
    case Button2 => EvdevKeyTokenPlayer1Button2();
    case Button3 => EvdevKeyTokenPlayer1Button3();
    case Button4 => EvdevKeyTokenPlayer1Button4();
    case Button5 => EvdevKeyTokenPlayer1Button5();
    case Button6 => EvdevKeyTokenPlayer1Button6();
    case Button7 => EvdevKeyTokenPlayer1Button7();
    case Button8 => EvdevKeyTokenPlayer1Button8();
  }

  lemma EvdevKeyTokenPlayer2(c: Control)
    ensures IsToken(EvdevKey(Player2(c))) && EvdevKey(Player2(c)) != "#"
  {
    match c
    case Start => EvdevKeyTokenPlayer2Start();
    case Service => EvdevKeyTokenPlayer2Service();
    case Up => EvdevKeyTokenPlayer2Up();
    case Down => EvdevKeyTokenPlayer2Down();
    case Left => EvdevKeyTokenPlayer2Left();
    case Right => EvdevKeyTokenPlayer2Right();
    case Button1 => EvdevKeyTokenPlayer2Button1();
    case Button2 => EvdevKeyTokenPlayer2Button2();
    case Button3 => EvdevKeyTokenPlayer2Button3();
    case Button4 => EvdevKeyTokenPlayer2Button4();
    case Button5 => EvdevKeyTokenPlayer2Button5();
    case Button6 => EvdevKeyTokenPlayer2Button6();
    case Button7 => EvdevKeyTokenPlayer2Button7();
    case Button8 => EvdevKeyTokenPlayer2Button8();
  }

  lemma EvdevKeyTokenAnalogue(a: AnalogueIndex)
    ensures IsToken(EvdevKey(Analogue(a))) && EvdevKey(Analogue(a)) != "#"
  {
    if a == 0 {
      EvdevKeyTokenAnalogue1();
    } else if a == 1 {
      EvdevKeyTokenAnalogue2();
    } else if a == 2 {
      EvdevKeyTokenAnalogue3();
    } else {
      EvdevKeyTokenAnalogue4();
    }
  }

  lemma EvdevKeyTokenDeadzone(d: DeadzoneIndex)
    ensures IsToken(EvdevKey(Deadzone(d))) && EvdevKey(Deadzone(d)) != "#"
  {
    if d == 0 {
      EvdevKeyTokenDeadzone1();
    } else if d == 1 {
      EvdevKeyTokenDeadzone2();
    } else if d == 2 {
      EvdevKeyTokenDeadzone3();
    } else if d == 3 {
      EvdevKeyTokenDeadzone4();
    } else if d == 4 {
      EvdevKeyTokenDeadzone5();
    } else if d == 5 {
      EvdevKeyTokenDeadzone6();
    } else if d == 6 {
      EvdevKeyTokenDeadzone7();
    } else {
      EvdevKeyTokenDeadzone8();
    }
  }

  lemma EvdevKeyToken(y: EvdevSlot)
    ensures IsToken(EvdevKey(y)) && EvdevKey(y) != "#"
  {
    match y
    case TestButton => EvdevKeyTokenTestButton();
    case Player1(c) => EvdevKeyTokenPlayer1(c);
    case Player2(c) => EvdevKeyTokenPlayer2(c);
    case Analogue(a) => EvdevKeyTokenAnalogue(a);
    case Deadzone(d) => EvdevKeyTokenDeadzone(d);
  }

  /** The evdev reader passes over the config keys. */
  lemma EvdevSlotOfIgnoresSetting(k: Setting)
    ensures EvdevSlotOf(SettingKey(k)).None?
  {
    match k
    case Width => EvdevSlotOfIgnoresSettingWidth();
    case Height => EvdevSlotOfIgnoresSettingHeight();
    case Fullscreen => EvdevSlotOfIgnoresSettingFullscreen();
    case NoSdl => EvdevSlotOfIgnoresSettingNoSdl();
    case Region => EvdevSlotOfIgnoresSettingRegion();
    case Freeplay => EvdevSlotOfIgnoresSettingFreeplay();
    case EmulateJvs => EvdevSlotOfIgnoresSettingEmulateJvs();
    case EmulateRideboard => EvdevSlotOfIgnoresSettingEmulateRideboard();
    case EmulateDriveboard => EvdevSlotOfIgnoresSettingEmulateDriveboard();
    case EmulateMotionboard => EvdevSlotOfIgnoresSettingEmulateMotionboard();
    case JvsPath => EvdevSlotOfIgnoresSettingJvsPath();
    case Serial1Path => EvdevSlotOfIgnoresSettingSerial1Path();
    case Serial2Path => EvdevSlotOfIgnoresSettingSerial2Path();
    case SramPath => EvdevSlotOfIgnoresSettingSramPath();
    case EepromPath => EvdevSlotOfIgnoresSettingEepromPath();
    case GpuVendor => EvdevSlotOfIgnoresSettingGpuVendor();
    case DebugMsgs => EvdevSlotOfIgnoresSettingDebugMsgs();
    case BorderEnabled => EvdevSlotOfIgnoresSettingBorderEnabled();
    case WhiteBorderPercentage => EvdevSlotOfIgnoresSettingWhiteBorderPercentage();
    case BlackBorderPercentage => EvdevSlotOfIgnoresSettingBlackBorderPercentage();
    case HummerFlickerFix => EvdevSlotOfIgnoresSettingHummerFlickerFix();
    case KeepAspectRatio => EvdevSlotOfIgnoresSettingKeepAspectRatio();
    case OutrunLensGlareEnabled => EvdevSlotOfIgnoresSettingOutrunLensGlareEnabled();
    case SkipOutrunCabinetCheck => EvdevSlotOfIgnoresSettingSkipOutrunCabinetCheck();
    case FpsLimiterEnabled => EvdevSlotOfIgnoresSettingFpsLimiterEnabled();
    case FpsTarget => EvdevSlotOfIgnoresSettingFpsTarget();
    case LgjRenderWithMesa => EvdevSlotOfIgnoresSettingLgjRenderWithMesa();
    case PrimevalHuntMode => EvdevSlotOfIgnoresSettingPrimevalHuntMode();
    case LindberghColour => EvdevSlotOfIgnoresSettingLindberghColour();
    case Mj4EnabledAllTheTime => EvdevSlotOfIgnoresSettingMj4EnabledAllTheTime();
  }

  /** The evdev reader passes over the SDL keys. */
  lemma EvdevSlotOfIgnoresSdl(x: SdlSlot)
    ensures EvdevSlotOf(SdlKey(x)).None?
  {
    match x
    case TestKey => EvdevSlotOfIgnoresSdlTestKey();
    case StartKey => EvdevSlotOfIgnoresSdlStartKey();
    case ServiceKey => EvdevSlotOfIgnoresSdlServiceKey();
    case CoinKey => EvdevSlotOfIgnoresSdlCoinKey();
    case UpKey => EvdevSlotOfIgnoresSdlUpKey();
    case DownKey => EvdevSlotOfIgnoresSdlDownKey();
    case LeftKey => EvdevSlotOfIgnoresSdlLeftKey();
    case RightKey => EvdevSlotOfIgnoresSdlRightKey();
    case Button1Key => EvdevSlotOfIgnoresSdlButton1Key();
    case Button2Key => EvdevSlotOfIgnoresSdlButton2Key();
    case Button3Key => EvdevSlotOfIgnoresSdlButton3Key();
    case Button4Key => EvdevSlotOfIgnoresSdlButton4Key();
  }

  lemma SettingOfOnlyKey0(key: string, v: Setting)
    requires 0 <= SettingIndex(v) < 2 && SettingOf(key) == Some(v)
    ensures key == SettingKey(v)
  {
  }

  lemma SettingOfOnlyKey1(key: string, v: Setting)
    requires 2 <= SettingIndex(v) < 4 && SettingOf(key) == Some(v)
    ensures key == SettingKey(v)
  {
  }

  lemma SettingOfOnlyKey2(key: string, v: Setting)
    requires 4 <= SettingIndex(v) < 6 && SettingOf(key) == Some(v)
    ensures key == SettingKey(v)
  {
  }

  lemma SettingOfOnlyKey3(key: string, v: Setting)
    requires 6 <= SettingIndex(v) < 8 && SettingOf(key) == Some(v)
    ensures key == SettingKey(v)
  {
  }

  lemma SettingOfOnlyKey4(key: string, v: Setting)
    requires 8 <= SettingIndex(v) < 10 && SettingOf(key) == Some(v)
    ensures key == SettingKey(v)
  {
  }

  lemma SettingOfOnlyKey5(key: string, v: Setting)
    requires 10 <= SettingIndex(v) < 12 && SettingOf(key) == Some(v)
    ensures key == SettingKey(v)
  {
  }

  lemma SettingOfOnlyKey6(key: string, v: Setting)
    requires 12 <= SettingIndex(v) < 14 && SettingOf(key) == Some(v)
    ensures key == SettingKey(v)
  {
  }

  lemma SettingOfOnlyKey7(key: string, v: Setting)
    requires 14 <= SettingIndex(v) < 16 && SettingOf(key) == Some(v)
    ensures key == SettingKey(v)
  {
  }

  lemma SettingOfOnlyKey8(key: string, v: Setting)
    requires 16 <= SettingIndex(v) < 18 && SettingOf(key) == Some(v)
    ensures key == SettingKey(v)
  {
  }

  lemma SettingOfOnlyKey9(key: string, v: Setting)
    requires 18 <= SettingIndex(v) < 20 && SettingOf(key) == Some(v)
    ensures key == SettingKey(v)
  {
  }

  lemma SettingOfOnlyKey10(key: string, v: Setting)
    requires 20 <= SettingIndex(v) < 22 && SettingOf(key) == Some(v)
    ensures key == SettingKey(v)
  {
  }

  lemma SettingOfOnlyKey11(key: string, v: Setting)
    requires 22 <= SettingIndex(v) < 24 && SettingOf(key) == Some(v)
    ensures key == SettingKey(v)
  {
  }

  lemma SettingOfOnlyKey12(key: string, v: Setting)
    requires 24 <= SettingIndex(v) < 26 && SettingOf(key) == Some(v)
    ensures key == SettingKey(v)
  {
  }

  lemma SettingOfOnlyKey13(key: string, v: Setting)
    requires 26 <= SettingIndex(v) < 28 && SettingOf(key) == Some(v)
    ensures key == SettingKey(v)
  {
  }

  lemma SettingOfOnlyKey14(key: string, v: Setting)
    requires 28 <= SettingIndex(v) < 30 && SettingOf(key) == Some(v)
    ensures key == SettingKey(v)
  {
  }

  /** `SettingOf` selects `v` exactly on the key of `v`. */
  lemma SettingOfExact(key: string, v: Setting)
    ensures SettingOf(key) == Some(v) <==> key == SettingKey(v)
  {
    SettingOfKey(v);
    if SettingOf(key) == Some(v) {
      var i := SettingIndex(v);
      if i < 2 {
        SettingOfOnlyKey0(key, v);
      } else if i < 4 {
        SettingOfOnlyKey1(key, v);
      } else if i < 6 {
        SettingOfOnlyKey2(key, v);
      } else if i < 8 {
        SettingOfOnlyKey3(key, v);
      } else if i < 10 {
        SettingOfOnlyKey4(key, v);
      } else if i < 12 {
        SettingOfOnlyKey5(key, v);
      } else if i < 14 {
        SettingOfOnlyKey6(key, v);
      } else if i < 16 {
        SettingOfOnlyKey7(key, v);
      } else if i < 18 {
        SettingOfOnlyKey8(key, v);
      } else if i < 20 {
        SettingOfOnlyKey9(key, v);
      } else if i < 22 {
        SettingOfOnlyKey10(key, v);
      } else if i < 24 {
        SettingOfOnlyKey11(key, v);
      } else if i < 26 {
        SettingOfOnlyKey12(key, v);
      } else if i < 28 {
        SettingOfOnlyKey13(key, v);
      } else {
        SettingOfOnlyKey14(key, v);
      }
    }
  }

  lemma SdlSlotOfOnlyKey0(key: string, v: SdlSlot)
    requires 0 <= SdlIndex(v) < 4 && SdlSlotOf(key) == Some(v)
    ensures key == SdlKey(v)
  {
  }

  lemma SdlSlotOfOnlyKey1(key: string, v: SdlSlot)
    requires 4 <= SdlIndex(v) < 8 && SdlSlotOf(key) == Some(v)
    ensures key == SdlKey(v)
  {
  }

  lemma SdlSlotOfOnlyKey2(key: string, v: SdlSlot)
    requires 8 <= SdlIndex(v) < 12 && SdlSlotOf(key) == Some(v)
    ensures key == SdlKey(v)
  {
  }

  /** `SdlSlotOf` selects `v` exactly on the key of `v`. */
  lemma SdlSlotOfExact(key: string, v: SdlSlot)
    ensures SdlSlotOf(key) == Some(v) <==> key == SdlKey(v)
  {
    SdlSlotOfKey(v);
    if SdlSlotOf(key) == Some(v) {
      var i := SdlIndex(v);
      if i < 4 {
        SdlSlotOfOnlyKey0(key, v);
      } else if i < 8 {
        SdlSlotOfOnlyKey1(key, v);
      } else {
        SdlSlotOfOnlyKey2(key, v);
      }
    }
  }

  lemma EvdevSlotOfOnlyKey0(key: string, v: EvdevSlot)
    requires 0 <= EvdevIndex(v) < 2 && EvdevSlotOf(key) == Some(v)
    ensures key == EvdevKey(v)
  {
  }

  lemma EvdevSlotOfOnlyKey1(key: string, v: EvdevSlot)
    requires 2 <= EvdevIndex(v) < 4 && EvdevSlotOf(key) == Some(v)
    ensures key == EvdevKey(v)
  {
  }

  lemma EvdevSlotOfOnlyKey2(key: string, v: EvdevSlot)
    requires 4 <= EvdevIndex(v) < 6 && EvdevSlotOf(key) == Some(v)
    ensures key == EvdevKey(v)
  {
  }

  lemma EvdevSlotOfOnlyKey3(key: string, v: EvdevSlot)
    requires 6 <= EvdevIndex(v) < 8 && EvdevSlotOf(key) == Some(v)
    ensures key == EvdevKey(v)
  {
  }

  lemma EvdevSlotOfOnlyKey4(key: string, v: EvdevSlot)
    requires 8 <= EvdevIndex(v) < 10 && EvdevSlotOf(key) == Some(v)
    ensures key == EvdevKey(v)
  {
  }

  lemma EvdevSlotOfOnlyKey5(key: string, v: EvdevSlot)
    requires 10 <= EvdevIndex(v) < 12 && EvdevSlotOf(key) == Some(v)
    ensures key == EvdevKey(v)
  {
  }

  lemma EvdevSlotOfOnlyKey6(key: string, v: EvdevSlot)
    requires 12 <= EvdevIndex(v) < 14 && EvdevSlotOf(key) == Some(v)
    ensures key == EvdevKey(v)
  {
  }

  lemma EvdevSlotOfOnlyKey7(key: string, v: EvdevSlot)
    requires 14 <= EvdevIndex(v) < 16 && EvdevSlotOf(key) == Some(v)
    ensures key == EvdevKey(v)
  {
  }

  lemma EvdevSlotOfOnlyKey8(key: string, v: EvdevSlot)
    requires 16 <= EvdevIndex(v) < 18 && EvdevSlotOf(key) == Some(v)
    ensures key == EvdevKey(v)
  {
  }

  lemma EvdevSlotOfOnlyKey9(key: string, v: EvdevSlot)
    requires 18 <= EvdevIndex(v) < 20 && EvdevSlotOf(key) == Some(v)
    ensures key == EvdevKey(v)
  {
  }

  lemma EvdevSlotOfOnlyKey10(key: string, v: EvdevSlot)
    requires 20 <= EvdevIndex(v) < 22 && EvdevSlotOf(key) == Some(v)
    ensures key == EvdevKey(v)
  {
  }

  lemma EvdevSlotOfOnlyKey11(key: string, v: EvdevSlot)
    requires 22 <= EvdevIndex(v) < 24 && EvdevSlotOf(key) == Some(v)
    ensures key == EvdevKey(v)
  {
  }

  lemma EvdevSlotOfOnlyKey12(key: string, v: EvdevSlot)
    requires 24 <= EvdevIndex(v) < 26 && EvdevSlotOf(key) == Some(v)
    ensures key == EvdevKey(v)
  {
  }

  lemma EvdevSlotOfOnlyKey13(key: string, v: EvdevSlot)
    requires 26 <= EvdevIndex(v) < 28 && EvdevSlotOf(key) == Some(v)
    ensures key == EvdevKey(v)
  {
  }

  lemma EvdevSlotOfOnlyKey14(key: string, v: EvdevSlot)
    requires 28 <= EvdevIndex(v) < 30 && EvdevSlotOf(key) == Some(v)
    ensures key == EvdevKey(v)
  {
  }

  lemma EvdevSlotOfOnlyKey15(key: string, v: EvdevSlot)
    requires 30 <= EvdevIndex(v) < 32 && EvdevSlotOf(key) == Some(v)
    ensures key == EvdevKey(v)
  {
  }

  lemma EvdevSlotOfOnlyKey16(key: string, v: EvdevSlot)
    requires EvdevIndex(v) == 32 && EvdevSlotOf(key) == Some(v)
    ensures key == EvdevKey(v)
  {
  }

  lemma EvdevSlotOfOnlyKey17(key: string, v: EvdevSlot)
    requires EvdevIndex(v) == 33 && EvdevSlotOf(key) == Some(v)
    ensures key == EvdevKey(v)
  {
  }

  lemma EvdevSlotOfOnlyKey18(key: string, v: EvdevSlot)
    requires EvdevIndex(v) == 34 && EvdevSlotOf(key) == Some(v)
    ensures key == EvdevKey(v)
  {
  }

  lemma EvdevSlotOfOnlyKey19(key: string, v: EvdevSlot)
    requires EvdevIndex(v) == 35 && EvdevSlotOf(key) == Some(v)
    ensures key == EvdevKey(v)
  {
  }

  lemma EvdevSlotOfOnlyKey20(key: string, v: EvdevSlot)
    requires EvdevIndex(v) == 36 && EvdevSlotOf(key) == Some(v)
    ensures key == EvdevKey(v)
  {
  }

  lemma EvdevSlotOfOnlyKey21(key: string, v: EvdevSlot)
    requires EvdevIndex(v) == 37 && EvdevSlotOf(key) == Some(v)
    ensures key == EvdevKey(v)
  {
  }

  lemma EvdevSlotOfOnlyKey22(key: string, v: EvdevSlot)
    requires EvdevIndex(v) == 38 && EvdevSlotOf(key) == Some(v)
    ensures key == EvdevKey(v)
  {
  }

  lemma EvdevSlotOfOnlyKey23(key: string, v: EvdevSlot)
    requires EvdevIndex(v) == 39 && EvdevSlotOf(key) == Some(v)
    ensures key == EvdevKey(v)
  {
  }

  lemma EvdevSlotOfOnlyKey24(key: string, v: EvdevSlot)
    requires EvdevIndex(v) == 40 && EvdevSlotOf(key) == Some(v)
    ensures key == EvdevKey(v)
  {
  }

  /** `EvdevSlotOf` selects `v` exactly on the key of `v`. */
  lemma EvdevSlotOfExact(key: string, v: EvdevSlot)
    ensures EvdevSlotOf(key) == Some(v) <==> key == EvdevKey(v)
  {
    EvdevSlotOfKey(v);
    if EvdevSlotOf(key) == Some(v) {
      var i := EvdevIndex(v);
      if i < 2 {
        EvdevSlotOfOnlyKey0(key, v);
      } else if i < 4 {
        EvdevSlotOfOnlyKey1(key, v);
      } else if i < 6 {
        EvdevSlotOfOnlyKey2(key, v);
      } else if i < 8 {
        EvdevSlotOfOnlyKey3(key, v);
      } else if i < 10 {
        EvdevSlotOfOnlyKey4(key, v);
      } else if i < 12 {
        EvdevSlotOfOnlyKey5(key, v);
      } else if i < 14 {
        EvdevSlotOfOnlyKey6(key, v);
      } else if i < 16 {
        EvdevSlotOfOnlyKey7(key, v);
      } else if i < 18 {
        EvdevSlotOfOnlyKey8(key, v);
      } else if i < 20 {
        EvdevSlotOfOnlyKey9(key, v);
      } else if i < 22 {
        EvdevSlotOfOnlyKey10(key, v);
      } else if i < 24 {
        EvdevSlotOfOnlyKey11(key, v);
      } else if i < 26 {
        EvdevSlotOfOnlyKey12(key, v);
      } else if i < 28 {
        EvdevSlotOfOnlyKey13(key, v);
      } else if i < 30 {
        EvdevSlotOfOnlyKey14(key, v);
      } else if i < 32 {
        EvdevSlotOfOnlyKey15(key, v);
      } else if i == 32 {
        EvdevSlotOfOnlyKey16(key, v);
      } else if i == 33 {
        EvdevSlotOfOnlyKey17(key, v);
      } else if i == 34 {
        EvdevSlotOfOnlyKey18(key, v);
      } else if i == 35 {
        EvdevSlotOfOnlyKey19(key, v);
      } else if i == 36 {
        EvdevSlotOfOnlyKey20(key, v);
      } else if i == 37 {
        EvdevSlotOfOnlyKey21(key, v);
      } else if i == 38 {
        EvdevSlotOfOnlyKey22(key, v);
      } else if i == 39 {
        EvdevSlotOfOnlyKey23(key, v);
      } else {
        EvdevSlotOfOnlyKey24(key, v);
      }
    }
  }

}
