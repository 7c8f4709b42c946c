/**
  Saving and loading a title's configuration (`write_to_lindbergh_conf`
  and `read_from_lindbergh_conf_by_title` in src/config.rs). The files of
  the `./config` directory are a map from path to text; a save first
  empties the title's file, then records the executable path in the
  registry, then writes the file. A load looks the path up in the
  registry and reads the title's file over the configuration it is given.
*/
module TitleFiles {
  import opened Wrappers
  import opened Text
  import opened Games
  import opened ConfLines
  import opened Keymaps
  import opened Configs
  import opened ExePaths

  /** The registry of executable paths. */
  const RegistryPath: string := "./config/exe_paths.conf"

  /** The files the program reads and writes, by path. */
  type Files = map<string, string>

  /** No title's file is the registry: no debug name is `exe_paths`. */
  lemma ConfigPathNotRegistry(t: GameTitle)
    ensures ConfigPath(t) != RegistryPath
  {
    var p := ConfigPath(t);
    assert DebugOrdinal("exe_paths") == 37 && TitleAt(37) == Unknown;
    DebugOrdinalName(t);
    TitleAtOrdinal(t);
    assert RegistryPath[9..|RegistryPath| - 5] == "exe_paths";
  }

  // ---------------------------------------------------------------------
  // The registry as the load reads it.

  /** The registry scan of the by-title load from line `n` on: comment and
      blank lines are skipped, a line without whitespace stops the load,
      and the first line naming the title gives the executable path; a
      registry without such a line leaves the path as it was. */
  function ExePathFrom(ls: seq<string>, key: string, n: nat): (r: Result<Option<string>, ExeError>)
    ensures r.Err? ==> exists i :: 0 <= i < |ls| && r.error == TooFewArgumentsAt(n + i) && NoWs(ls[i])
    decreases |ls|
  {
    if |ls| == 0 then Ok(None)
    else if StartsWith(ls[0], "#") || IsBlank(ls[0]) then
      var r := ExePathFrom(ls[1..], key, n + 1);
      assert r.Err? ==> exists i :: 1 <= i < |ls| && r.error == TooFewArgumentsAt(n + i) && NoWs(ls[i]) by {
        if r.Err? {
          var i :| 0 <= i < |ls[1..]| && r.error == TooFewArgumentsAt(n + 1 + i) && NoWs(ls[1..][i]);
          assert ls[i + 1] == ls[1..][i];
        }
      }
      r
    else
      match SplitOnceWs(ls[0])
      case None => Err(TooFewArgumentsAt(n))
      case Some((name, path)) =>
        if name == key then Ok(Some(path))
        else
          var r := ExePathFrom(ls[1..], key, n + 1);
          assert r.Err? ==> exists i :: 1 <= i < |ls| && r.error == TooFewArgumentsAt(n + i) && NoWs(ls[i]) by {
            if r.Err? {
              var i :| 0 <= i < |ls[1..]| && r.error == TooFewArgumentsAt(n + 1 + i) && NoWs(ls[1..][i]);
              assert ls[i + 1] == ls[1..][i];
            }
          }
          r
  }

  /** A comment or blank line that splits names another title. */
  lemma SkippedView(l: string, key: string)
    requires StartsWith(l, "#") || IsBlank(l)
    requires SplitOnceWs(l).Some? && |key| > 0 && key[0] != '#'
    ensures ViewOf(l, key) == OtherName
  {
    if StartsWith(l, "#") {
      assert !StartsWith(key, "#") by {
        assert key[..1][0] == key[0];
      }
      CommentView(l, key);
    }
  }

  /** On a registry whose every line splits, the load's scan finds the path
      `get_path` finds, and finds none where `get_path` reports the title
      missing. */
  lemma {:induction false} ExePathAgrees(ls: seq<string>, key: string, n: nat)
    requires EveryLineSplits(ls) && |key| > 0 && key[0] != '#'
    ensures PathFrom(ls, key, n).Ok? ==> ExePathFrom(ls, key, n) == Ok(Some(PathFrom(ls, key, n).value))
    ensures PathFrom(ls, key, n).Err? ==> ExePathFrom(ls, key, n) == Ok(None)
    decreases |ls|
  {
    if |ls| > 0 {
      assert EveryLineSplits(ls[1..]) by {
        assert forall i :: 0 <= i < |ls[1..]| ==> ls[1..][i] == ls[i + 1];
      }
      ExePathAgrees(ls[1..], key, n + 1);
      assert SplitOnceWs(ls[0]).Some?;
      if StartsWith(ls[0], "#") || IsBlank(ls[0]) {
        SkippedView(ls[0], key);
      }
    }
  }

  // ---------------------------------------------------------------------
  // Loading.

  /** Why a load stopped. */
  datatype LoadError =
    | RegistryMissing
    | RegistryError(cause: ExeError)
    | ConfigMissing
    | ConfigError(reason: ReadError)

  /** The configuration after a load, and the error that stopped it. */
  datatype Loaded = Loaded(config: LindberghConfig, error: Option<LoadError>)

  /** `read_from_lindbergh_conf_by_title`: the executable path is looked up
      in the registry, then the title's file is read over the
      configuration. */
  function ReadByTitle(c: LindberghConfig, t: GameTitle, fs: Files): (r: Loaded)
    ensures RegistryPath !in fs ==> r == Loaded(c, Some(RegistryMissing))
    ensures r.error.None? ==> ConfigPath(t) in fs
    ensures r.config.inputMethod == c.inputMethod || ConfigPath(t) in fs
    ensures r.error.Some? && r.error.value.RegistryError? ==> r.config == c
  {
    if RegistryPath !in fs then Loaded(c, Some(RegistryMissing))
    else
      match ExePathFrom(Lines(fs[RegistryPath]), DebugName(t), 1)
      case Err(e) => Loaded(c, Some(RegistryError(e)))
      case Ok(found) =>
        var c1 := if found.Some? then c.(exePath := found.value) else c;
        if ConfigPath(t) !in fs then Loaded(c1, Some(ConfigMissing))
        else
          var o := ReadConfig(c1, Lines(fs[ConfigPath(t)]));
          Loaded(o.state, if o.error.Some? then Some(ConfigError(o.error.value)) else None)
  }

  /** A load depends on the registry's answer for the title and on the
      title's file alone. */
  lemma LoadReadsTwoFiles(c: LindberghConfig, t: GameTitle, fs: Files, gs: Files)
    requires RegistryPath in fs && RegistryPath in gs
    requires ExePathFrom(Lines(fs[RegistryPath]), DebugName(t), 1) == ExePathFrom(Lines(gs[RegistryPath]), DebugName(t), 1)
    requires ConfigPath(t) in fs <==> ConfigPath(t) in gs
    requires ConfigPath(t) in fs ==> fs[ConfigPath(t)] == gs[ConfigPath(t)]
    ensures ReadByTitle(c, t, fs) == ReadByTitle(c, t, gs)
  {
  }

  // ---------------------------------------------------------------------
  // Saving.

  /** Why a save stopped. */
  datatype SaveError =
    | NoRegistry
    | KeymapNotWritten(reason: WriteError)

  /** The files after a save, and the error that stopped it. */
  datatype Saved = Saved(files: Files, error: Option<SaveError>)

  /** `write_to_lindbergh_conf`: the title's file is created if missing and
      emptied, the executable path goes into the registry, and the file is
      written: header, settings and keymap. A missing registry stops the
      save with the title's file already empty. */
  function SaveByTitle(c: LindberghConfig, t: GameTitle, fs: Files): (r: Saved)
    ensures RegistryPath !in fs ==> r == Saved(fs[ConfigPath(t) := ""], Some(NoRegistry))
    ensures RegistryPath in fs ==> r.files.Keys == fs.Keys + {ConfigPath(t)}
    ensures RegistryPath in fs ==> r.files[RegistryPath] == AddExePath(fs[RegistryPath], t, c.exePath)
    ensures RegistryPath in fs ==> r.files[ConfigPath(t)] == Unlines(WriteConfig(c).lines)
    ensures RegistryPath in fs ==> r.error == if WriteConfig(c).error.Some? then Some(KeymapNotWritten(WriteConfig(c).error.value)) else None
    ensures forall p :: p in fs && p != RegistryPath && p != ConfigPath(t) ==> p in r.files && r.files[p] == fs[p]
  {
    ConfigPathNotRegistry(t);
    var emptied := fs[ConfigPath(t) := ""];
    if RegistryPath !in fs then Saved(emptied, Some(NoRegistry))
    else
      var listed := emptied[RegistryPath := AddExePath(fs[RegistryPath], t, c.exePath)];
      var w := WriteConfig(c);
      Saved(listed[ConfigPath(t) := Unlines(w.lines)],
            if w.error.Some? then Some(KeymapNotWritten(w.error.value)) else None)
  }

  /** The registry a save leaves, when it had one. */
  lemma SavedRegistry(c: LindberghConfig, t: GameTitle, fs: Files)
    requires RegistryPath in fs && EveryLineSplits(Lines(fs[RegistryPath])) && NoNewline(c.exePath)
    ensures var saved := SaveByTitle(c, t, fs).files;
            RegistryPath in saved && EveryLineSplits(Lines(saved[RegistryPath]))
            && ExePathFrom(Lines(saved[RegistryPath]), DebugName(t), 1) == Ok(Some(c.exePath))
  {
    var reg := fs[RegistryPath];
    AddThenGet(reg, t, c.exePath, t);
    DebugNameWord(t);
    ExePathAgrees(Lines(AddExePath(reg, t, c.exePath)), DebugName(t), 1);
  }

  /** Saving a writable configuration and loading it back gives the saved
      executable path, the keymap as it reads back, and the saved
      settings, whatever configuration the load starts from. */
  lemma SaveThenLoad(c0: LindberghConfig, c: LindberghConfig, t: GameTitle, fs: Files)
    requires ConfigWritable(c) && NoNewline(c.exePath)
    requires RegistryPath in fs && EveryLineSplits(Lines(fs[RegistryPath]))
    ensures SaveByTitle(c, t, fs).error.None?
    ensures ReadByTitle(c0, t, SaveByTitle(c, t, fs).files)
         == Loaded(LindberghConfig(c.exePath, KeymapReadBack(c.inputMethod), c.settings), None)
  {
    var saved := SaveByTitle(c, t, fs).files;
    SavedRegistry(c, t, fs);
    WrittenNoNewline(c);
    LinesUnlines(WriteConfig(c).lines);
    ConfigRoundTrip(c0.(exePath := c.exePath), c);
  }

  /** The registry a save leaves gives every other title the path it had. */
  lemma SavedRegistryOther(c: LindberghConfig, t: GameTitle, u: GameTitle, fs: Files)
    requires RegistryPath in fs && EveryLineSplits(Lines(fs[RegistryPath])) && NoNewline(c.exePath) && u != t
    ensures var saved := SaveByTitle(c, t, fs).files;
            RegistryPath in saved
            && ExePathFrom(Lines(saved[RegistryPath]), DebugName(u), 1) == ExePathFrom(Lines(fs[RegistryPath]), DebugName(u), 1)
  {
    var reg := fs[RegistryPath];
    AddThenGet(reg, t, c.exePath, u);
    DebugNameWord(u);
    ExePathAgrees(Lines(reg), DebugName(u), 1);
    ExePathAgrees(Lines(AddExePath(reg, t, c.exePath)), DebugName(u), 1);
  }

  /** Saving one title leaves every other title's load as it was. */
  lemma SaveKeepsOthers(c0: LindberghConfig, c: LindberghConfig, t: GameTitle, u: GameTitle, fs: Files)
    requires NoNewline(c.exePath) && u != t
    requires RegistryPath in fs && EveryLineSplits(Lines(fs[RegistryPath]))
    ensures ReadByTitle(c0, u, SaveByTitle(c, t, fs).files) == ReadByTitle(c0, u, fs)
  {
    var saved := SaveByTitle(c, t, fs).files;
    SavedRegistryOther(c, t, u, fs);
    SavedConfigOther(c, t, u, fs);
    LoadReadsTwoFiles(c0, u, fs, saved);
  }

  /** A save leaves every other title's configuration file as it was. */
  lemma SavedConfigOther(c: LindberghConfig, t: GameTitle, u: GameTitle, fs: Files)
    requires RegistryPath in fs && u != t
    ensures var saved := SaveByTitle(c, t, fs).files;
            && (ConfigPath(u) in saved <==> ConfigPath(u) in fs)
            && (ConfigPath(u) in fs ==> saved[ConfigPath(u)] == fs[ConfigPath(u)])
  {
    ConfigPathNotRegistry(u);
    ConfigPathInjective(t, u);
  }

  /** Once the corrected `remove_exe_path` has dropped a title, loading it
      keeps the executable path the load starts from. */
  lemma RemoveThenLoad(c0: LindberghConfig, t: GameTitle, fs: Files)
    requires RegistryPath in fs && EveryLineSplits(Lines(fs[RegistryPath]))
    ensures ReadByTitle(c0, t, fs[RegistryPath := RemoveExePath(fs[RegistryPath], t)]).config.exePath == c0.exePath
  {
    var reg := RemoveExePath(fs[RegistryPath], t);
    RemoveThenGet(fs[RegistryPath], t, t);
    DebugNameWord(t);
    ExePathAgrees(Lines(reg), DebugName(t), 1);
    ConfigPathNotRegistry(t);
  }
}
