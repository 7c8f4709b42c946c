/**
  Launching a game (src/runner.rs): the loader's libraries are staged next
  to the executable, the process is described by its program, argument,
  environment and working directory, and once it has exited the staged
  libraries and the game's `eeprom.bin` and `sram.bin` are removed. The
  file system is a set of paths; the libraries shipped in `./dynlibs` are a
  set of names of their own.
*/
module Runner {
  import opened Wrappers
  import opened Text
  import opened Games
  import opened Configs

  /** `SO_LIST`: the libraries staged next to the executable, in order. */
  const SoList: seq<string> := [
    "libkswapapi.so",
    "libposixtime.so",
    "libposixtime.so.1",
    "libposixtime.so.2.4",
    "libsegaapi.so",
    "lindbergh.so",
    "libCg.so"
  ]

  /** What cleanup removes: the staged libraries, then the game's save
      files by their fixed names. */
  const CleanupList: seq<string> := SoList + ["eeprom.bin", "sram.bin"]

  /** The library `LD_PRELOAD` names. */
  const Preload: string := "lindbergh.so"

  // ---------------------------------------------------------------------
  // Paths.

  /** Position of the last `/`. */
  function LastSlash(s: string): (r: Option<nat>)
    ensures r.Some? ==> r.value < |s| && s[r.value] == '/'
    ensures r.Some? ==> forall i :: r.value < i < |s| ==> s[i] != '/'
    ensures r.None? ==> forall i :: 0 <= i < |s| ==> s[i] != '/'
    decreases |s|
  {
    if |s| == 0 then None
    else if s[|s| - 1] == '/' then Some(|s| - 1)
    else LastSlash(s[..|s| - 1])
  }

  /** `Path::file_name`: the part after the last `/`, if it names a file. */
  function FileName(p: string): (r: Option<string>)
    ensures r.Some? ==> r.value != "" && forall i :: 0 <= i < |r.value| ==> r.value[i] != '/'
  {
    var name := match LastSlash(p) case Some(i) => p[i + 1..] case None => p;
    if name == "" || name == ".." then None else Some(name)
  }

  /** `PathBuf::pop`, displayed: the part before the last `/`, empty for a
      bare file name. */
  function Dir(p: string): string {
    match LastSlash(p)
    case Some(i) => p[..i]
    case None => ""
  }

  /** Where a library is staged, and what cleanup removes, next to the
      executable: `format!("{}/{}", dir, name)`. */
  function Beside(dir: string, name: string): string {
    dir + "/" + name
  }

  lemma BesideInjective(dir: string, a: string, b: string)
    ensures Beside(dir, a) == Beside(dir, b) <==> a == b
  {
    if Beside(dir, a) == Beside(dir, b) {
      assert a == Beside(dir, a)[|dir| + 1..];
    }
  }

  /** The paths of a list of names next to the executable. */
  function BesideAll(dir: string, names: seq<string>): (r: set<string>)
    ensures forall n :: n in names ==> Beside(dir, n) in r
    decreases |names|
  {
    if |names| == 0 then {} else {Beside(dir, names[0])} + BesideAll(dir, names[1..])
  }

  lemma {:induction false} BesideAllMembers(dir: string, names: seq<string>, p: string)
    ensures p in BesideAll(dir, names) <==> exists n :: n in names && p == Beside(dir, n)
    decreases |names|
  {
    if |names| > 0 {
      BesideAllMembers(dir, names[1..], p);
      if p != Beside(dir, names[0]) && p in BesideAll(dir, names) {
        var n :| n in names[1..] && p == Beside(dir, n);
        assert n in names;
      }
      if exists n :: n in names && p == Beside(dir, n) {
        var n :| n in names && p == Beside(dir, n);
        if n != names[0] {
          assert n in names[1..];
        }
      }
    }
  }

  lemma BesideAllPrefix(dir: string, names: seq<string>, k: nat)
    requires k < |names|
    ensures BesideAll(dir, names[..k + 1]) == BesideAll(dir, names[..k]) + {Beside(dir, names[k])}
  {
    forall p ensures p in BesideAll(dir, names[..k + 1]) <==> p in BesideAll(dir, names[..k]) + {Beside(dir, names[k])} {
      BesideAllMembers(dir, names[..k + 1], p);
      BesideAllMembers(dir, names[..k], p);
      assert names[..k + 1] == names[..k] + [names[k]];
    }
  }

  // ---------------------------------------------------------------------
  // Staging and cleanup.

  /** The files after a staging or cleanup, and the position in its list
      where it stopped, if it did. */
  datatype Step = Step(files: set<string>, failedAt: Option<nat>)

  /** How far a step got: the failed position, or the whole list. */
  function Reached(r: Step, names: seq<string>): nat {
    if r.failedAt.Some? && r.failedAt.value <= |names| then r.failedAt.value else |names|
  }

  /** Copies each library in turn, stopping at the first one missing from
      `./dynlibs`; earlier copies stay. */
  function CopyEach(libs: set<string>, fs: set<string>, dir: string, names: seq<string>): (r: Step)
    ensures r.failedAt.None? <==> forall j :: 0 <= j < |names| ==> names[j] in libs
    ensures r.failedAt.Some? ==> r.failedAt.value < |names| && names[r.failedAt.value] !in libs
                                 && forall j :: 0 <= j < r.failedAt.value ==> names[j] in libs
    ensures r.files == fs + BesideAll(dir, names[..Reached(r, names)])
    decreases |names|
  {
    if |names| == 0 then Step(fs, None)
    else if names[0] !in libs then
      assert names[..0] == [];
      Step(fs, Some(0))
    else
      var rest := CopyEach(libs, fs + {Beside(dir, names[0])}, dir, names[1..]);
      var k := Reached(rest, names[1..]);
      assert names[..k + 1] == [names[0]] + names[1..][..k];
      assert BesideAll(dir, names[..k + 1]) == {Beside(dir, names[0])} + BesideAll(dir, names[1..][..k]);
      assert forall j :: 1 <= j < |names| ==> names[j] == names[1..][j - 1];
      Step(rest.files, if rest.failedAt.Some? then Some(rest.failedAt.value + 1) else None)
  }

  /** Removes each file in turn, stopping at the first one missing. */
  function DeleteEach(fs: set<string>, dir: string, names: seq<string>): (r: Step)
    ensures r.failedAt.None? ==> BesideAll(dir, names) <= fs
    ensures r.failedAt.Some? ==> r.failedAt.value < |names|
                                 && Beside(dir, names[r.failedAt.value]) !in r.files
                                 && BesideAll(dir, names[..r.failedAt.value]) <= fs
    ensures r.files == fs - BesideAll(dir, names[..Reached(r, names)])
    decreases |names|
  {
    if |names| == 0 then Step(fs, None)
    else if Beside(dir, names[0]) !in fs then
      assert names[..0] == [];
      Step(fs, Some(0))
    else
      var rest := DeleteEach(fs - {Beside(dir, names[0])}, dir, names[1..]);
      var k := Reached(rest, names[1..]);
      assert names[..k + 1] == [names[0]] + names[1..][..k];
      assert BesideAll(dir, names[..k + 1]) == {Beside(dir, names[0])} + BesideAll(dir, names[1..][..k]);
      assert names[1..] == names[1..][..|names[1..]|];
      Step(rest.files, if rest.failedAt.Some? then Some(rest.failedAt.value + 1) else None)
  }

  /** Every library of the list is in `./dynlibs`. */
  predicate Available(libs: set<string>) {
    forall j :: 0 <= j < |SoList| ==> SoList[j] in libs
  }

  /** `copy_files`: the seven libraries are copied from `./dynlibs` next to
      the executable, in list order, stopping at the first one missing. */
  function CopyFiles(libs: set<string>, fs: set<string>, exe: string): (r: Step)
    ensures r.failedAt.None? <==> Available(libs)
    ensures r.failedAt.Some? ==> r.failedAt.value < |SoList| && SoList[r.failedAt.value] !in libs
    ensures fs <= r.files
  {
    CopyEach(libs, fs, Dir(exe), SoList)
  }

  /** `delete_files`: the seven libraries, then `eeprom.bin` and `sram.bin`,
      are removed from beside the executable, stopping at the first one
      missing. */
  function DeleteFiles(fs: set<string>, exe: string): (r: Step)
    ensures r.failedAt.None? ==> BesideAll(Dir(exe), CleanupList) <= fs
    ensures r.failedAt.Some? ==> r.failedAt.value < |CleanupList| && Beside(Dir(exe), CleanupList[r.failedAt.value]) !in r.files
    ensures r.files <= fs
  {
    DeleteEach(fs, Dir(exe), CleanupList)
  }

  /** A successful staging adds exactly the seven libraries beside the
      executable. */
  lemma CopyFilesAdds(libs: set<string>, fs: set<string>, exe: string)
    requires Available(libs)
    ensures CopyFiles(libs, fs, exe).files == fs + BesideAll(Dir(exe), SoList)
  {
    assert SoList[..|SoList|] == SoList;
  }

  /** A successful cleanup removes exactly its nine files. */
  lemma DeleteFilesRemoves(fs: set<string>, exe: string)
    requires DeleteFiles(fs, exe).failedAt.None?
    ensures DeleteFiles(fs, exe).files == fs - BesideAll(Dir(exe), CleanupList)
  {
    assert CleanupList[..|CleanupList|] == CleanupList;
  }

  /** Cleanup is not idempotent: once it has succeeded, a second run fails
      at the first library. */
  lemma CleanupTwiceFails(fs: set<string>, exe: string)
    requires DeleteFiles(fs, exe).failedAt.None?
    ensures DeleteFiles(DeleteFiles(fs, exe).files, exe).failedAt == Some(0)
  {
    DeleteFilesRemoves(fs, exe);
    assert CleanupList[0] in CleanupList;
  }

  /** No name is listed twice. */
  predicate Distinct(names: seq<string>) {
    forall i, j :: 0 <= i < j < |names| ==> names[i] != names[j]
  }

  lemma CleanupListDistinct()
    ensures Distinct(CleanupList)
  {
  }

  /** Cleanup of files that are all present, named once each, succeeds. */
  lemma {:induction false} DeleteEachPresent(fs: set<string>, dir: string, names: seq<string>)
    requires BesideAll(dir, names) <= fs && Distinct(names)
    ensures DeleteEach(fs, dir, names).failedAt.None?
    decreases |names|
  {
    if |names| > 0 {
      var rest := fs - {Beside(dir, names[0])};
      forall p | p in BesideAll(dir, names[1..]) ensures p in rest {
        BesideAllMembers(dir, names[1..], p);
        var n :| n in names[1..] && p == Beside(dir, n);
        var j :| 0 <= j < |names[1..]| && names[1..][j] == n;
        assert names[j + 1] == n;
        BesideInjective(dir, n, names[0]);
      }
      assert Distinct(names[1..]) by {
        forall i, j | 0 <= i < j < |names[1..]| ensures names[1..][i] != names[1..][j] {
          assert names[1..][i] == names[i + 1] && names[1..][j] == names[j + 1];
        }
      }
      DeleteEachPresent(rest, dir, names[1..]);
    }
  }

  lemma {:induction false} BesideAllConcat(dir: string, a: seq<string>, b: seq<string>)
    ensures BesideAll(dir, a + b) == BesideAll(dir, a) + BesideAll(dir, b)
    decreases |a|
  {
    if |a| > 0 {
      assert (a + b)[1..] == a[1..] + b;
      BesideAllConcat(dir, a[1..], b);
    } else {
      assert a + b == b;
    }
  }

  /** Cleanup removes the staged libraries and the two save files. */
  lemma CleanupFiles(dir: string)
    ensures BesideAll(dir, CleanupList)
         == BesideAll(dir, SoList) + {Beside(dir, "eeprom.bin"), Beside(dir, "sram.bin")}
  {
    var saves := ["eeprom.bin", "sram.bin"];
    BesideAllConcat(dir, SoList, saves);
    assert saves[1..][1..] == [];
    assert BesideAll(dir, saves) == {Beside(dir, "eeprom.bin")} + ({Beside(dir, "sram.bin")} + {});
  }

  /** Cleanup succeeds exactly when all nine files are present. */
  lemma CleanupSucceeds(fs: set<string>, exe: string)
    ensures DeleteFiles(fs, exe).failedAt.None? <==> BesideAll(Dir(exe), CleanupList) <= fs
  {
    if BesideAll(Dir(exe), CleanupList) <= fs {
      CleanupListDistinct();
      DeleteEachPresent(fs, Dir(exe), CleanupList);
    }
  }

  /** Cleanup of a directory holding the staged libraries and both save
      files succeeds and removes exactly those. */
  lemma CleanupAfterStaging(staged: set<string>, fs: set<string>, exe: string)
    requires staged == fs + BesideAll(Dir(exe), SoList)
    requires Beside(Dir(exe), "eeprom.bin") in fs && Beside(Dir(exe), "sram.bin") in fs
    ensures DeleteFiles(staged, exe) == Step(fs - BesideAll(Dir(exe), CleanupList), None)
  {
    var dir := Dir(exe);
    CleanupFiles(dir);
    RemoveWhatWasAdded(fs, BesideAll(dir, SoList), Beside(dir, "eeprom.bin"), Beside(dir, "sram.bin"));
    CleanupSucceeds(staged, exe);
    DeleteFilesRemoves(staged, exe);
  }

  /** Adding a set of files and then removing it together with two files
      already present removes just those from the original. */
  lemma RemoveWhatWasAdded(fs: set<string>, added: set<string>, e: string, s: string)
    requires e in fs && s in fs
    ensures added + {e, s} <= fs + added
    ensures (fs + added) - (added + {e, s}) == fs - (added + {e, s})
  {
  }

  /** Staging and then cleaning up leaves the directory as it was, except
      for the nine files cleanup removes; cleanup succeeds when the game
      left its `eeprom.bin` and `sram.bin`. */
  lemma StageThenCleanup(libs: set<string>, fs: set<string>, exe: string)
    requires Available(libs)
    requires Beside(Dir(exe), "eeprom.bin") in fs && Beside(Dir(exe), "sram.bin") in fs
    ensures DeleteFiles(CopyFiles(libs, fs, exe).files, exe) == Step(fs - BesideAll(Dir(exe), CleanupList), None)
  {
    CopyFilesAdds(libs, fs, exe);
    CleanupAfterStaging(CopyFiles(libs, fs, exe).files, fs, exe);
  }

  // ---------------------------------------------------------------------
  // Watching the game.

  /** What `try_wait` reported. */
  datatype Poll = Running | Exited(status: int) | PollFailed

  datatype MonitorError = PollError | PipeError | CleanupFailed(at: nat)

  /** The files after a look at the game, and what the look reported. */
  datatype Monitored = Monitored(files: set<string>, result: Result<Option<int>, MonitorError>)

  /** `monitor_game`: while the game runs nothing happens; once it has
      exited, its output is read and the files beside it are cleaned up,
      and only then is the exit status reported. `pipesRead` says whether
      both output pipes could be read. */
  function MonitorGame(fs: set<string>, exe: string, poll: Poll, pipesRead: bool): (r: Monitored)
    ensures poll == Running ==> r == Monitored(fs, Ok(None))
    ensures r.result.Ok? && r.result.value.Some? <==>
              poll.Exited? && pipesRead && DeleteFiles(fs, exe).failedAt.None?
    ensures r.result.Ok? && r.result.value.Some? ==>
              r.result.value.value == poll.status && r.files == fs - BesideAll(Dir(exe), CleanupList)
    ensures r.files <= fs
  {
    match poll
    case Running => Monitored(fs, Ok(None))
    case PollFailed => Monitored(fs, Err(PollError))
    case Exited(status) =>
      if !pipesRead then Monitored(fs, Err(PipeError))
      else
        var d := DeleteFiles(fs, exe);
        if d.failedAt.Some? then Monitored(d.files, Err(CleanupFailed(d.failedAt.value)))
        else
          DeleteFilesRemoves(fs, exe);
          Monitored(d.files, Ok(Some(status)))
  }

  /** After the exit has been reported once, reporting it again fails in
      the cleanup. */
  lemma MonitorExitOnce(fs: set<string>, exe: string, status: int)
    requires MonitorGame(fs, exe, Exited(status), true).result == Ok(Some(status))
    ensures MonitorGame(MonitorGame(fs, exe, Exited(status), true).files, exe, Exited(status), true).result
         == Err(CleanupFailed(0))
  {
    CleanupTwiceFails(fs, exe);
  }

  // ---------------------------------------------------------------------
  // The launch.

  /** `get_test`: the test-mode binary of the five games that have one. */
  function GetTest(name: string): (r: Option<string>)
    ensures r.Some? ==> |name| > 2 && name[..2] == "./"
  {
    if name == "./hod4M.elf" then Some("./hod4testM.elf")
    else if name == "./hodexRI.elf" then Some("./hodextestR.elf")
    else if name == "./Jennifer" then Some("../JenTest/JenTest")
    else if name == "./apacheM.elf" then Some("./apacheTestM.elf")
    else if name == "./vt3_Lindbergh" then Some("./vt3_testmode")
    else None
  }

  /** A file name has no `/`, and every name `get_test` knows has one: the
      test-mode redirect never applies to a file name. */
  lemma FileNameHasNoTest(p: string)
    requires FileName(p).Some?
    ensures GetTest(FileName(p).value).None?
  {
    var f := FileName(p).value;
    if |f| > 2 {
      assert f[..2][1] == f[1];
    }
  }

  /** The library search path: the inherited one, then `.`, `lib` and
      `../lib`. */
  function LibraryPath(inherited: string): string {
    if inherited != "" then inherited + ":" + LoaderPath else LoaderPath
  }

  /** The loader's own part of the library search path. */
  const LoaderPath: string := ".:lib:../lib"

  /** The pieces of a text cut at each `:`; there is one more piece than
      there are colons. */
  function Pieces(s: string): (r: seq<string>)
    ensures |r| > 0
    decreases |s|
  {
    if |s| == 0 then [""]
    else
      var rest := Pieces(s[1..]);
      if s[0] == ':' then [""] + rest else [[s[0]] + rest[0]] + rest[1..]
  }

  /** The entries of a `:`-separated search path; an empty path has
      none. */
  function Entries(s: string): seq<string> {
    if |s| == 0 then [] else Pieces(s)
  }

  /** Joining two texts with a `:` joins their pieces. */
  lemma {:induction false} PiecesAppend(a: string, b: string)
    ensures Pieces(a + ":" + b) == Pieces(a) + Pieces(b)
    decreases |a|
  {
    var s := a + ":" + b;
    if |a| == 0 {
      assert s[1..] == b;
    } else {
      assert s[1..] == a[1..] + ":" + b;
      PiecesAppend(a[1..], b);
    }
  }

  /** A search path followed by more entries keeps its own entries first. */
  lemma EntriesAppend(a: string, b: string)
    requires a != "" && b != ""
    ensures Entries(a + ":" + b) == Entries(a) + Entries(b)
  {
    PiecesAppend(a, b);
  }

  /** A non-empty entry without `:` is a search path of its own. */
  lemma {:induction false} PiecesSingle(x: string)
    requires forall j :: 0 <= j < |x| ==> x[j] != ':'
    ensures Pieces(x) == [x]
    decreases |x|
  {
    if |x| > 0 {
      PiecesSingle(x[1..]);
      assert [x[0]] + x[1..] == x;
    }
  }

  /** Three entries without `:`, joined by `:`, are the path's three
      pieces. */
  lemma PiecesThree(x: string, y: string, z: string)
    requires forall j :: 0 <= j < |x| ==> x[j] != ':'
    requires forall j :: 0 <= j < |y| ==> y[j] != ':'
    requires forall j :: 0 <= j < |z| ==> z[j] != ':'
    ensures Pieces(x + ":" + y + ":" + z) == [x, y, z]
  {
    PiecesSingle(x);
    PiecesSingle(y);
    PiecesSingle(z);
    PiecesAppend(y, z);
    assert x + ":" + y + ":" + z == x + ":" + (y + ":" + z);
    PiecesAppend(x, y + ":" + z);
  }

  lemma LoaderPathEntries()
    ensures Entries(LoaderPath) == [".", "lib", "../lib"]
  {
    assert LoaderPath == "." + ":" + "lib" + ":" + "../lib";
    PiecesThree(".", "lib", "../lib");
  }

  /** The library search path keeps the inherited entries, in order, ahead
      of the loader's three. */
  lemma LibraryPathEntries(inherited: string)
    ensures Entries(LibraryPath(inherited)) == Entries(inherited) + [".", "lib", "../lib"]
  {
    LoaderPathEntries();
    if inherited != "" {
      EntriesAppend(inherited, LoaderPath);
    }
  }

  /** The argument the game gets: `-t` in test mode without a test-mode
      binary, the empty string otherwise. */
  function TestArg(testMode: bool, fname: string): string {
    if testMode && GetTest(fname).None? then "-t" else ""
  }

  /** How the game process is started. */
  datatype Launch = Launch(
    program: string,
    arg: string,
    libraryPath: string,
    preload: string,
    configPath: string,
    workDir: string)

  datatype RunError = StagingFailed(library: string) | NoFileName | NoWorkingDir

  /** The files after a launch attempt, and the launch or the error. */
  datatype Run = Run(files: set<string>, result: Result<Launch, RunError>)

  /** `run_game`: the libraries are staged first; then the file name is
      taken, and in test mode a game with a test-mode binary is launched
      through that binary, not in test mode; otherwise the process is
      described. `inherited` is `LD_LIBRARY_PATH`, empty when unset, and
      `cwd` the working directory, if it can be found. */
  function RunGame(libs: set<string>, fs: set<string>, exe: string, testMode: bool, t: GameTitle,
                   inherited: string, cwd: Option<string>): (r: Run)
    ensures fs <= r.files
    decreases if testMode then 1 else 0
  {
    var staged := CopyFiles(libs, fs, exe);
    if staged.failedAt.Some? then Run(staged.files, Err(StagingFailed(SoList[staged.failedAt.value])))
    else
      match FileName(exe)
      case None => Run(staged.files, Err(NoFileName))
      case Some(fname) =>
        if testMode && GetTest(fname).Some? then
          RunGame(libs, staged.files, GetTest(fname).value, false, t, inherited, cwd)
        else
          match cwd
          case None => Run(staged.files, Err(NoWorkingDir))
          case Some(d) => Run(staged.files, Ok(Describe(exe, fname, testMode, t, inherited, d)))
  }

  /** The process `run_game` spawns for the executable `exe` named `fname`:
      it runs from the executable's directory, and its configuration file
      is found under the working directory `cwd`. */
  function Describe(exe: string, fname: string, testMode: bool, t: GameTitle, inherited: string, cwd: string): Launch {
    Launch(
      Dir(exe) + "/" + fname,
      TestArg(testMode, fname),
      LibraryPath(inherited),
      Preload,
      cwd + ConfigTail(t),
      Dir(exe))
  }

  /** What the described process gets: the library search path keeps the
      inherited entries ahead of the loader's, the preloaded library is one
      of the staged ones, and the configuration file is the one the save
      writes, under the working directory. */
  lemma DescribeEnvironment(exe: string, fname: string, testMode: bool, t: GameTitle, inherited: string, cwd: string)
    ensures var l := Describe(exe, fname, testMode, t, inherited, cwd);
            && l.program == Beside(l.workDir, fname)
            && Entries(l.libraryPath) == Entries(inherited) + [".", "lib", "../lib"]
            && l.preload in SoList
            && l.configPath == cwd + ConfigPath(t)[1..]
  {
    var l := Describe(exe, fname, testMode, t, inherited, cwd);
    assert Entries(l.libraryPath) == Entries(inherited) + [".", "lib", "../lib"] by {
      LibraryPathEntries(inherited);
    }
    assert l.preload in SoList by {
      assert Preload == SoList[5];
    }
  }

  /** The launch, when there is one: the executable itself runs from its
      own directory with the loader's libraries staged there, preloading
      one of them, reading the configuration file the save writes, and
      with `-t` exactly in test mode. */
  lemma RunGameLaunch(libs: set<string>, fs: set<string>, exe: string, testMode: bool, t: GameTitle,
                      inherited: string, cwd: Option<string>)
    requires Available(libs) && FileName(exe).Some? && cwd.Some?
    ensures RunGame(libs, fs, exe, testMode, t, inherited, cwd)
         == Run(fs + BesideAll(Dir(exe), SoList), Ok(Describe(exe, FileName(exe).value, testMode, t, inherited, cwd.value)))
    ensures RunGame(libs, fs, exe, testMode, t, inherited, cwd).result.value.arg == if testMode then "-t" else ""
  {
    FileNameHasNoTest(exe);
    CopyFilesAdds(libs, fs, exe);
  }

  /** A launch fails exactly when a library is missing from `./dynlibs`,
      the path has no file name, or the working directory is unknown. */
  lemma RunGameSucceeds(libs: set<string>, fs: set<string>, exe: string, testMode: bool, t: GameTitle,
                        inherited: string, cwd: Option<string>)
    ensures RunGame(libs, fs, exe, testMode, t, inherited, cwd).result.Ok?
        <==> Available(libs) && FileName(exe).Some? && cwd.Some?
  {
    if FileName(exe).Some? {
      FileNameHasNoTest(exe);
    }
  }

  /** Staging is not undone: a launch that fails after staging leaves the
      staged libraries in place. */
  lemma RunGameLeavesStaging(libs: set<string>, fs: set<string>, exe: string, testMode: bool, t: GameTitle,
                             inherited: string, cwd: Option<string>)
    requires Available(libs)
    ensures RunGame(libs, fs, exe, testMode, t, inherited, cwd).files == fs + BesideAll(Dir(exe), SoList)
  {
    CopyFilesAdds(libs, fs, exe);
    if FileName(exe).Some? {
      FileNameHasNoTest(exe);
    }
  }
}
