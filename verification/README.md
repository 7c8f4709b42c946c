# lindbergh-loader-gui, modelled in Dafny

This project models the core of lindbergh-loader-gui. The program is a desktop front end that sets up and launches Sega Lindbergh arcade games through lindbergh-loader. Its core has four parts:

- **Configuration file.** Each title has its own configuration file, `./config/<Title>.conf`, holding `KEY value` lines. The model covers:
  - the setting values and the enum codecs (region, GPU vendor, cabinet colour, Primeval Hunt mode, 0/1 flags);
  - the SDL keymap and the evdev input table, and the keymap that chooses between them;
  - the writer and the reader of the file, and the defaults.
- **Executable-path registry.** The file `./config/exe_paths.conf` records, per title, the path of the game's executable. The model covers:
  - `add_exe_path`, `remove_exe_path`, `get_path` and `get_list`;
  - the load by title, which looks up the executable path and then reads the title's configuration file;
  - the save by title, which registers the path and writes the configuration file.
- **Title catalogue.** This is `GameTitle`, its `Debug` and `Display` names, the conversion from a display string, the catalogue data (`GameData`), and the keycode table of the front end.
- **Settings form and launcher.** The form's validator `SharedState::assign_conf` is modelled. So is the runner:
  - staging the loader's shared libraries next to the game, and removing them again;
  - the poll of the running game;
  - the launch description: program, argument, library search path, preload and configuration path.

In `run_game`, the test-mode binaries of `get_test` are keyed by names that start with `./`. The name `run_game` looks up comes from `Path::file_name`, which never starts that way, so the redirect to a test-mode binary never happens. The model keeps this behaviour, and `Runner.FileNameHasNoTest` states it.

Files and the file system are values in the model. A file's text is a `string`, and the readers work on its lines. The configuration directory is a `map<string, string>` from path to text. The game directory is a `set<string>` of the paths present. Every reader and writer is a pure function that returns its result together with the error that stopped it. When a step fails, the result keeps whatever the steps before it did, as the source's `&mut self` readers and streaming writers do.

Modules follow the source:

| module | models |
|---|---|
| `Text` | whitespace splitting as Rust's `split_whitespace`, `split_once`, and `u32`/`i32` parsing as Rust's `str::parse` |
| `KeyCodes` | the keycode table `egui_key_to_keycode` and `egui_keycode_to_key` |
| `Games` | `GameTitle`: its `Debug` and `Display` names, `From<String>`, `all_variants`, and `as_gamedata`'s table |
| `GameLibrary` | `GameData`, its equality, `assign_title` and `as_gamedata` |
| `ConfKeys` | the key of every setting and keymap slot, and each reader's dispatch on a line's key |
| `ConfLines` | the line discipline that all readers and writers share |
| `KeyBindings` | the fields of `_Keymap` |
| `SdlKeymaps` | `SdlKeymap`: its reader, writer and default |
| `EvdevInputs` | `_EvdevInput`: its reader, writer and default |
| `Keymaps` | `Keymap`: mode switching, its reader and writer |
| `Configs` | `LindberghConfig`: settings, enum codecs, defaults, the writer and the reader |
| `ExePaths` | the `executable_path` module |
| `ExeFindings` | the registry writers as written, against the corrected ones |
| `TitleFiles` | loading and saving a configuration by title |
| `Form` | `SharedState::assign_conf` |
| `Runner` | src/runner.rs |

## Model

| member | source | states |
|---|---|---|
| Text.SplitJoin | src/config.rs:856 | splitting a line of tokens joined by spaces gives back exactly those tokens, so every written line reads back as the tokens written |
| Text.SplitOnceWs | src/config.rs:1122-1125 | the split fails exactly when the line has no whitespace; otherwise the line is the name, one whitespace character and the rest, and the name has no whitespace |
| Text.ParseShowNat | src/config.rs:785 | a number written in decimal parses back to itself |
| Text.ParseU32Show | src/config.rs:992 | every `u32` the writer prints reads back as that `u32` |
| Text.ParseI32 | src/config.rs:1036 | an `i32` parse succeeds only within the 32-bit signed range |
| KeyCodes.DecodeThenEncode | src/ui.rs:1367-1551 | every keycode the reader accepts is written back as the same keycode |
| KeyCodes.EncodeThenDecode | src/ui.rs:1367-1551 | a key the writer can encode reads back as its canonical key; it reads back as itself exactly when it is not one of the four shifted aliases |
| KeyCodes.DecodeDomain | src/ui.rs:1462-1551 | the reader accepts exactly the codes listed in its table |
| KeyCodes.EncodeCollisions | src/ui.rs:1367-1461 | two different keys share a code only when they are the same key up to the shifted symbols and one of them is shifted |
| KeyCodes.AliasesShareCodes | src/ui.rs:1367-1461 | `:` and `;`, `+` and `=`, `\|` and `\`, and `?` and `/` write the same codes 47, 21, 51 and 61 |
| KeyCodes.DigitCodes | src/ui.rs:1367-1461 | the digit keys have codes 10..18 and 19, and each reads back as its digit |
| KeyCodes.FunctionKeyCodes | src/ui.rs:1367-1461 | F1..F10 have codes 67..76, F11 has 95, F12 has 96, and F13 and above have none |
| KeyCodes.EncodeUndefined | src/ui.rs:1367-1461 | the writer has no code exactly for F13 and above and for keys the table does not list |
| Games.AllVariantsExact | src/games.rs:484-524 | `all_variants` lists every title except `Unknown`, each once, in declaration order |
| Games.FromStringSpellings | src/games.rs:156-205 | a string converts to a title other than `Unknown` exactly when it is one of that title's spellings |
| Games.FromStringUnlisted | src/games.rs:156-205 | every other string converts to `Unknown` |
| Games.CatalogueRoundTrip | src/games.rs:532-553 | every listed title's catalogue name is not "Unknown" and converts back to the title |
| Games.DisplayIsSpacedDebugName | src/games.rs:526-530 | a title's display name is its debug name with `_` replaced by a space |
| Games.DisplayRoundTrip | src/games.rs:156-205 | the display name converts back to its title for every listed title except `InitalD_4_Export`, whose display name converts to `Unknown` |
| Games.DebugOrdinalName | src/games.rs:66-145 | debug names determine their titles, and each is one word |
| Games.DebugNameInjective | src/games.rs:66-145 | different titles have different debug names, so different registry keys and configuration files |
| GameLibrary.SameGameIgnoresConfig | src/games.rs:24-33 | two records are equal as games exactly when they agree apart from their configuration |
| GameLibrary.AssignTitleProperties | src/games.rs:48-57 | assigning a title is idempotent, the last assignment wins, and the title converts back from the record |
| GameLibrary.AsGameDataInjective | src/games.rs:208-482 | two listed titles give equal game records exactly when they are the same title |
| GameLibrary.AsGameData | src/games.rs:208-482 | a title's record is the default record exactly when the title is `Unknown`: every listed title overrides the default catalogue title with one of its own |
| GameLibrary.TitleOf | src/games.rs:532-536 | a record converts to the title its stored title names; `GameLibrary.AssignTitleProperties` and `Games.CatalogueRoundTrip` state that this inverts `as_gamedata` for every listed title |
| ConfKeys.SettingOfExact | src/config.rs:863-1038 | the config reader assigns a setting on exactly that setting's key |
| ConfKeys.SdlSlotOfExact | src/config.rs:382-420 | the SDL reader assigns a slot on exactly that slot's key |
| ConfKeys.EvdevSlotOfExact | src/config.rs:123-284 | the evdev reader assigns a slot on exactly that slot's key |
| ConfKeys.SettingOfIgnoresSdl | src/config.rs:1038 | the config reader passes over the SDL keys |
| ConfKeys.SdlSlotOfIgnoresSetting | src/config.rs:419 | the SDL reader passes over the config keys |
| ConfKeys.EvdevSlotOfIgnoresSetting | src/config.rs:123-284 | the evdev reader passes over the config keys |
| ConfLines.ClassifyKeyLine | src/config.rs:855-862 | a line written as a key and its arguments is read as an entry with that key, the first argument as its value and the other arguments after it |
| ConfLines.ClassifyAgrees | src/config.rs:856-857 | on every line with a token, the line test as written agrees with the corrected one |
| ConfLines.ScanAppend | src/config.rs:853-1041 | reading two blocks of lines is reading the first and, unless it failed, going on with the second from the state it left |
| ConfLines.ScanStopsAtShortLine | src/config.rs:860-862 | the first short line stops a read with its line number and the state before it |
| ConfLines.WriteEachSucceeds | src/config.rs:424-491 | a writer finishes exactly when every item renders |
| ConfLines.ScanWriteEach | src/config.rs:424-491 | reading a writer's lines assigns, item by item, what each line says |
| KeyBindings.SetEachGet | src/config.rs:92-115 | setting a list of fields changes exactly those fields |
| KeyBindings.Extensionality | src/config.rs:92-115 | two keymaps that agree on every field are equal |
| SdlKeymaps.KeyOfCode | src/config.rs:370-373 | a keycode text is accepted exactly when it parses as a `u32` in the keycode table, and the key it gives encodes back to that number |
| SdlKeymaps.WriteSdlSucceeds | src/config.rs:424-491 | the SDL writer finishes exactly when the test and coin keys are set and every key has a code; a missing test key fails first, then a missing coin key |
| SdlKeymaps.SdlRoundTrip | src/config.rs:369-491 | the SDL writer needs the test and coin keys; reading what it wrote sets every written slot to its key's canonical form and keeps buttons 5..8 as they were |
| SdlKeymaps.SdlRoundTripExact | src/config.rs:369-491 | the read gives back exactly the written keymap when no key is a shifted alias and buttons 5..8 agree, and only then |
| SdlKeymaps.DefaultSdlRoundTrip | src/config.rs:631-652 | the default SDL keymap is written and read back unchanged |
| SdlKeymaps.SdlBadKeycode | src/config.rs:370-373 | an SDL line whose keycode is not a number or not in the table stops the read with that error and the keymap read so far |
| SdlKeymaps.ReadSdl | src/config.rs:369-423 | the SDL reader; `SdlKeymaps.SdlRoundTrip`, `SdlKeymaps.SdlRoundTripExact` and `SdlKeymaps.SdlBadKeycode` state what it reads back and where it stops |
| SdlKeymaps.WriteSdl | src/config.rs:424-491 | the SDL writer; `SdlKeymaps.WriteSdlSucceeds` states when it finishes and `SdlKeymaps.SdlRoundTrip` what its lines read back as |
| EvdevInputs.EvdevPut | src/config.rs:116-121 | storing one evdev slot changes that slot only |
| EvdevInputs.WriteEvdevSucceeds | src/config.rs:285-366 | the evdev writer finishes exactly when the test button and every slot it writes is set; a missing test button fails with nothing written |
| EvdevInputs.EvdevRoundTrip | src/config.rs:123-366 | reading what the evdev writer wrote sets every written slot to the written value |
| EvdevInputs.EvdevRoundTripExact | src/config.rs:123-366 | the read gives back exactly the written table when the test button is set and the slots the writer skips agree |
| EvdevInputs.DefaultEvdevRoundTrip | src/config.rs:653-699 | the default evdev table is written and read back unchanged |
| EvdevInputs.EvdevShortDeadzone | src/config.rs:123-284 | a deadzone line with fewer than three numbers stops the read with that line's number |
| EvdevInputs.EvdevBadDeadzone | src/config.rs:123-284 | a deadzone line with a bad number stops the read with the first bad number |
| EvdevInputs.ReadEvdev | src/config.rs:123-284 | the evdev reader; `EvdevInputs.EvdevRoundTrip`, `EvdevInputs.EvdevShortDeadzone` and `EvdevInputs.EvdevBadDeadzone` state what it reads back and where it stops |
| EvdevInputs.WriteEvdev | src/config.rs:285-366 | the evdev writer; `EvdevInputs.WriteEvdevSucceeds` states when it finishes and `EvdevInputs.EvdevRoundTripExact` what its lines read back as |
| Keymaps.GettersMatchHas | src/config.rs:520-577 | the getters succeed exactly when the `has_` tests hold, and every keymap has SDL or evdev input |
| Keymaps.IntoKeepsParts | src/config.rs:548-568 | switching modes keeps the parts the target mode shares with the source and fills the rest with defaults |
| Keymaps.IntoIdempotent | src/config.rs:548-568 | switching to a mode twice is switching once, and a keymap already in that mode is unchanged |
| Keymaps.ModeReadKind | src/config.rs:512-518 | reading a mode's own number gives a keymap of that mode; 3 and above are refused |
| Keymaps.ReadKeymapMode | src/config.rs:589-624 | with a single `INPUT_MODE` line, the keymap read is the one its number selects, read from the whole file |
| Keymaps.WriteKeymapSucceeds | src/config.rs:578-588 | the keymap writer finishes exactly when each part it writes is writable |
| Keymaps.KeymapRoundTrip | src/config.rs:578-624 | reading a written keymap after its mode line gives the read-back keymap of the same mode |
| Keymaps.ReadKeymap | src/config.rs:589-624 | the keymap reader; `Keymaps.ReadKeymapMode` and `Keymaps.KeymapRoundTrip` state which keymap it selects and reads |
| Keymaps.WriteKeymap | src/config.rs:578-588 | the keymap writer; `Keymaps.WriteKeymapSucceeds` states when it finishes and `Keymaps.KeymapRoundTrip` what it reads back as |
| Configs.BoolNumberRoundTrip | src/config.rs:14-21 | `i32_to_bool` reads a flag written as a number back as that flag, and no other number reads as it |
| Configs.RegionRoundTrip | src/config.rs:23-33 | a region's name reads back as the region, and only that name does |
| Configs.GpuRoundTrip | src/config.rs:35-59 | a GPU vendor's number reads back as the vendor; exactly the numbers 0..5 are accepted |
| Configs.ColourRoundTrip | src/config.rs:61-72 | a colour's name reads back as the colour, and only that name does |
| Configs.HuntModeRoundTrip | src/config.rs:74-90 | a Primeval Hunt mode's number reads back as the mode; 0 also means no touch screen, and exactly 0..4 are accepted |
| Configs.PutSetting | src/config.rs:700-734 | storing one setting changes that setting only |
| Configs.DefaultConfigSettings | src/config.rs:735-771 | the default configuration holds every setting's default, each of the right kind |
| Configs.AutoKeeps | src/config.rs:864-913 | `AUTO` leaves a setting unchanged exactly for the settings that allow it, and is an error for the other non-path settings |
| Configs.PercentBound | src/config.rs:958-975 | a border percentage is accepted exactly when it parses as a `u32` of at most 100 |
| Configs.FlagStrict | src/config.rs:848-855 | a flag is accepted exactly when its text parses as 0 or 1; any other number fails naming the line |
| Configs.EnumArms | src/config.rs:882-1034 | each enum setting accepts exactly the texts of its variants |
| Configs.ParsedReadsBack | src/config.rs:785-843 | a value the reader accepted, written back, reads as the same value |
| Configs.ConfigStep | src/config.rs:863-1038 | one line changes at most the setting its key names; a non-setting key changes nothing |
| Configs.ReadConfig | src/config.rs:847-1042 | the reader keeps the executable path, reads the keymap from the whole file first, leaves the settings as they were when the keymap fails, and keeps every setting of its kind |
| Configs.ShortLineStops | src/config.rs:860-862 | a line with a single token stops the read with line 1 |
| Configs.WriteConfig | src/config.rs:773-846 | the file starts with the two comment lines and has at least one line per setting after them; the writer fails exactly when, and with the error that, the keymap writer does |
| Configs.ConfigRoundTrip | src/config.rs:773-1042 | reading a written configuration gives back its settings and its read-back keymap, and keeps the reader's executable path |
| Configs.DefaultConfigRoundTrip | src/config.rs:735-1042 | the default configuration is written and read back unchanged |
| Configs.ConfigPathInjective | src/config.rs:774 | different titles have different configuration files |
| ExePaths.LinesUnlines | src/config.rs:1096-1102 | the lines a writer writes are the lines the next read sees |
| ExePaths.PathFromFound | src/config.rs:1119-1131 | a found path comes from the first line that names the title, and no line before it names it |
| ExePaths.PathFromNotFound | src/config.rs:1119-1131 | the lookup reports a missing title exactly when no line names it |
| ExePaths.PathFromInvalid | src/config.rs:1121-1125 | any other lookup error names the first line without whitespace |
| ExePaths.GetPath | src/config.rs:1119-1131 | a path is found only when some line names the title, and the title is reported unfound only when no line names it |
| ExePaths.AddThenGet | src/config.rs:1083-1131 | after the corrected add, the title's lookup gives the new path and every other title's lookup is unchanged |
| ExePaths.RemoveThenGet | src/config.rs:1106-1131 | after the corrected remove, the title is not found and every other title's lookup is unchanged |
| ExePaths.ListFromMembers | src/config.rs:1132-1152 | the listed titles are exactly the known titles that some line names |
| ExePaths.GetListMembers | src/config.rs:1132-1152 | a title's record is in the game library exactly when a registry line names the title |
| ExePaths.AddThenList | src/config.rs:1083-1152 | after the corrected add, the title is in the game library |
| ExePaths.RemoveThenList | src/config.rs:1106-1152 | after the corrected remove, the title is not in the game library |
| ExePaths.GetList | src/config.rs:1132-1152 | the list succeeds exactly when the scan of the registry's lines does, and holds the `as_gamedata` record of each title the scan finds, in order |
| ExePaths.AddExePathAsWritten | src/config.rs:1083-1105 | the file is opened without truncation, so the registry is never shorter after the add; `ExeFindings.AddClobbersPrefixed`, `ExeFindings.AddForgetsUnlisted` and `ExeFindings.AddLeavesTail` state how it goes wrong |
| ExePaths.RemoveExePathAsWritten | src/config.rs:1106-1118 | the lines left are exactly the old lines that do not contain the title's debug name, so no line names the title afterwards |
| ExeFindings.AddClobbersPrefixed | src/config.rs:1096-1098 | adding a title as written replaces the entry of every title whose name starts with it, which the corrected add keeps |
| ExeFindings.AddClobbersOtherTitle | src/config.rs:1096-1098 | adding `Hummer` as written loses `Hummer_Extreme`'s path |
| ExeFindings.AddForgetsUnlisted | src/config.rs:1095-1103 | adding a title to any registry that has entries but no line containing the title's debug name leaves the registry unchanged as written, so the title stays unfound; the corrected add finds it |
| ExeFindings.AddForgetsNewTitle | src/config.rs:1095-1103 | adding `Hummer_Extreme` to a registry holding only `Rambo` records nothing |
| ExeFindings.AddLeavesTail | src/config.rs:1085-1087 | replacing a path with a shorter one leaves the old text's tail as a line of its own, which breaks every other lookup |
| ExeFindings.AddLeavesStaleTail | src/config.rs:1085-1087 | shortening `Rambo`'s path from `/abcd` to `/a` leaves a line `cd` and makes `Hummer`'s lookup fail on line 2 |
| ExeFindings.RemoveDropsPrefixed | src/config.rs:1112-1116 | removing a title as written drops the entry of every title whose name starts with it |
| ExeFindings.RemoveDropsOtherTitle | src/config.rs:1112-1116 | removing `Hummer` as written loses `Hummer_Extreme`'s path |
| TitleFiles.ConfigPathNotRegistry | src/config.rs:1072 | no title's configuration file is the registry |
| TitleFiles.ExePathAgrees | src/config.rs:1056-1071 | on a registry whose every line splits, the load finds the same path as `get_path`, and finds none when `get_path` fails |
| TitleFiles.ReadByTitle | src/config.rs:1051-1075 | a missing registry stops the load with the configuration untouched; a successful load read the title's file; a registry error keeps the configuration |
| TitleFiles.SaveByTitle | src/config.rs:773-846 | the save creates the title's file, registers the path and writes the configuration, and touches no other file; a missing registry leaves the new file empty |
| TitleFiles.SaveThenLoad | src/config.rs:773-1075 | loading a title right after saving it gives the saved path, settings and read-back keymap, with no error |
| TitleFiles.SaveKeepsOthers | src/config.rs:773-1075 | saving one title leaves every other title's load as it was |
| TitleFiles.RemoveThenLoad | src/config.rs:1051-1118 | after a title is removed from the registry, loading it keeps the executable path it started from |
| Form.AssignConf | src/ui.rs:56-77 | an empty executable path is refused untouched; the size changes only when both texts are filled, the frame target only with the limiter on; success means a nonzero cursor; a later bad number keeps the earlier values parsed |
| Form.AssignConfAccepts | src/ui.rs:56-77 | the validator accepts exactly a form with an executable path whose every read text parses and whose cursor has no zero dimension, and then stores the values the texts stand for |
| Form.AssignConfIdempotent | src/ui.rs:56-77 | validating an accepted form again changes nothing |
| Runner.GetTest | src/runner.rs:18-27 | every executable with a test-mode twin is named with a leading `./` |
| Runner.FileNameHasNoTest | src/runner.rs:67-75 | a file name taken from a path never has a test-mode twin, so the test-mode redirect never applies |
| Runner.CopyFiles | src/runner.rs:28-38 | staging succeeds exactly when every library is available; a failure names a library that is missing; nothing is removed |
| Runner.CopyFilesAdds | src/runner.rs:28-38 | successful staging adds exactly the seven libraries to the executable's directory |
| Runner.DeleteFiles | src/runner.rs:39-48 | cleanup succeeds only when the seven libraries, `eeprom.bin` and `sram.bin` were all present; a failure names a file that is not there afterwards; nothing is added |
| Runner.CleanupSucceeds | src/runner.rs:39-48 | cleanup succeeds exactly when all nine files are present |
| Runner.CleanupTwiceFails | src/runner.rs:39-48 | cleaning up a second time fails on the first library |
| Runner.StageThenCleanup | src/runner.rs:28-48 | staging then cleaning up leaves the directory as before, minus `eeprom.bin` and `sram.bin` |
| Runner.MonitorGame | src/runner.rs:49-62 | a running game changes nothing; an exit is reported, with its status, exactly when the output was read and cleanup succeeded |
| Runner.MonitorExitOnce | src/runner.rs:49-62 | reporting the same exit twice fails the second time, in cleanup |
| Runner.EntriesAppend | src/runner.rs:79-83 | joining two search paths with `:` joins their entries |
| Runner.LibraryPathEntries | src/runner.rs:79-83 | the game's library search path is the inherited entries followed by `.`, `lib` and `../lib` |
| Runner.DescribeEnvironment | src/runner.rs:76-99 | the launch runs the file from its directory, preloads a staged library, and reads the configuration file the save writes, under the working directory |
| Runner.RunGame | src/runner.rs:63-105 | a launch attempt only ever adds files |
| Runner.RunGameSucceeds | src/runner.rs:63-99 | a launch fails exactly when a library is missing, the path has no file name or the working directory is unknown |
| Runner.RunGameLaunch | src/runner.rs:63-105 | a launch that can succeed stages the libraries next to the executable and runs that executable, with `-t` exactly in test mode |
| Runner.RunGameLeavesStaging | src/runner.rs:63-75 | once staging succeeded, the libraries stay in place whatever the launch does |

## Left out

- File I/O is not modelled. Files are values: a read or open that fails, other than for a missing file, does not happen, and neither does a failing `writeln!`.
- Lines as written: `str::lines` also strips a `\r` before each `\n`; the model splits at `\n` only.
- Concurrency: the front end runs the game monitor from its event loop. The model polls once per call and does not model the one-second sleep.
- The launcher's environment is passed in:
  - the inherited `LD_LIBRARY_PATH`, the current directory and the child's poll are parameters;
  - spawning the process and reading its pipes are not modelled; the launch is a description of the process to start.
- Runner paths:
  - a path is split at its last `/`;
  - trailing separators, `.` components and `PathBuf::pop` on a bare file name are not modelled;
  - `./dynlibs` is the set of libraries available to copy, kept apart from the game directory;
  - a copy fails only when the source library is missing.
- `Text.ParseI32`: `i32` parsing is modelled on decimal digits with an optional sign. The other numeric types the source parses are `u32`.
- `ReadError`: an integer parse error carries the text that failed rather than the line, as the code does.
- Form: `LindberghConfig` in src/config.rs has no cursor fields, although src/ui.rs assigns `custom_cursor_width` and `custom_cursor_height`. The form model keeps them as `u32` in a record of its own. The sixth form text is not read by the validator and is not modelled.
- `TitleFiles.SaveByTitle`:
  - a failing `add_exe_path` stops the save after the configuration file was emptied, and the model keeps that;
  - the registry is written by the corrected `add_exe_path` (see Findings);
  - `TitleFiles.SaveThenLoad` assumes an executable path without a newline, since a newline would split the registry entry.
- `TitleFiles.ReadByTitle` reads the title's configuration through `read_from_lindbergh_conf`. A missing configuration file is reported as `ConfigMissing` rather than as an I/O error.
- `SdlKeymaps.ReadSdl`: reads lines with the corrected line test, which skips a blank or whitespace-only line. The source indexes the first token before checking that there is one (src/config.rs:376) and panics on such a line (see Findings).
- `EvdevInputs.ReadEvdev`: reads lines with the corrected line test, as `SdlKeymaps.ReadSdl` does; the source panics on a blank line (src/config.rs:126).
- `Keymaps.ReadKeymap`: reads lines with the corrected line test, as `SdlKeymaps.ReadSdl` does; the source panics on a blank line (src/config.rs:592).
- `Configs.ReadConfig`: reads lines with the corrected line test, as `SdlKeymaps.ReadSdl` does; the source panics on a blank line (src/config.rs:857).
- `TitleFiles.ReadByTitle`: reads the title's file with `Configs.ReadConfig`, so a blank line in it is skipped where the source panics.
- Blank registry lines: `get_path` does not skip blank or comment lines, so a blank line makes it fail while the load by title and `get_list` skip it. The model keeps this difference.
- The GUI (egui windows, widgets, modal dialogs, file pickers) and src/main.rs are not part of this model.

## Findings

| source | as written | input that shows it | evidently intended | confidence | as-written member | corrected member |
|---|---|---|---|---|---|---|
| src/config.rs:1097 | `add_exe_path` replaces every line that contains the title's debug name anywhere | a registry holding `Hummer_Extreme /h`, then adding `Hummer`: `Hummer_Extreme`'s path is lost | replace only the line whose name is the title | high (not executed) | ExeFindings.AddClobbersOtherTitle | ExePaths.AddThenGet |
| src/config.rs:1095-1103 | when the registry has entries but none for the title, nothing is appended | a registry holding only `Rambo /r`, then adding `Hummer_Extreme`: the title is still not found | append the title's entry | high (not executed) | ExeFindings.AddForgetsNewTitle | ExePaths.AddThenList |
| src/config.rs:1085-1087 | the registry is opened for writing without truncation, so a shorter text leaves the old tail in place | `Rambo /abcd` rewritten with path `/a` leaves a line `cd`, and every later lookup fails on line 2 | truncate the file before writing | high (not executed) | ExeFindings.AddLeavesStaleTail | ExePaths.AddThenGet |
| src/config.rs:1113 | `remove_exe_path` drops every line that contains the title's debug name anywhere | removing `Hummer` from a registry holding `Hummer_Extreme /h` loses that entry | drop only the line whose name is the title | high (not executed) | ExeFindings.RemoveDropsOtherTitle | ExePaths.RemoveThenGet |
| src/config.rs:856-857 | the reader indexes the first token before checking that the line has any, so a blank line panics | a configuration file containing an empty line | skip blank lines | high (not executed) | ConfLines.BlankLinePanics | ConfLines.ClassifyAgrees |
