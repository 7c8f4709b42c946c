/**
  The executable-path registry `./config/exe_paths.conf` (the module
  `executable_path` and `read_from_lindbergh_conf_by_title` in
  src/config.rs), and saving and loading a title's configuration through
  it. A registry line holds a title's debug name and the path of its
  executable, split at the first whitespace character.
*/
module ExePaths {
  import opened Wrappers
  import opened Text
  import opened Games
  import opened ConfLines
  import opened Keymaps
  import opened Configs
  import opened GameLibrary

  // ---------------------------------------------------------------------
  // File text.

  /** The text `writeln!` produces for each line in turn. */
  function Unlines(ls: seq<string>): string
    decreases |ls|
  {
    if |ls| == 0 then [] else ls[0] + "\n" + Unlines(ls[1..])
  }

  /** Position of the first line feed. */
  function NewlineAt(s: string): (r: Option<nat>)
    ensures r.None? ==> NoNewline(s)
    ensures r.Some? ==> r.value < |s| && s[r.value] == '\n' && NoNewline(s[..r.value])
    decreases |s|
  {
    if |s| == 0 then None
    else if s[0] == '\n' then Some(0)
    else
      match NewlineAt(s[1..])
      case None =>
        assert forall i :: 1 <= i < |s| ==> s[i] == s[1..][i - 1];
        None
      case Some(i) =>
        assert s[..i + 1] == [s[0]] + s[1..][..i];
        Some(i + 1)
  }

  /** `str::lines`: the text cut at each line feed; a final line feed ends
      the last line rather than starting an empty one. */
  function Lines(s: string): (ls: seq<string>)
    ensures LinesFree(ls)
    decreases |s|
  {
    if |s| == 0 then []
    else
      match NewlineAt(s)
      case None => [s]
      case Some(i) =>
        var rest := Lines(s[i + 1..]);
        LinesFreeConcat([s[..i]], rest);
        [s[..i]] + rest
  }

  lemma {:induction false} NewlineAfter(a: string, b: string)
    requires NoNewline(a)
    ensures NewlineAt(a + "\n" + b) == Some(|a|)
    decreases |a|
  {
    var s := a + "\n" + b;
    if |a| == 0 {
      assert s[0] == '\n';
    } else {
      assert s[0] == a[0];
      assert s[1..] == a[1..] + "\n" + b;
      NewlineAfter(a[1..], b);
    }
  }

  /** Reading back lines written one after the other gives those lines. */
  lemma {:induction false} LinesUnlines(ls: seq<string>)
    requires LinesFree(ls)
    ensures Lines(Unlines(ls)) == ls
    decreases |ls|
  {
    if |ls| > 0 {
      var s := Unlines(ls);
      var rest := Unlines(ls[1..]);
      assert s == ls[0] + "\n" + rest;
      NewlineAfter(ls[0], rest);
      assert s[..|ls[0]|] == ls[0];
      assert s[|ls[0]| + 1..] == rest;
      assert forall j :: 0 <= j < |ls[1..]| ==> ls[1..][j] == ls[j + 1];
      LinesUnlines(ls[1..]);
    }
  }

  lemma {:induction false} UnlinesConcat(a: seq<string>, b: seq<string>)
    ensures Unlines(a + b) == Unlines(a) + Unlines(b)
    decreases |a|
  {
    if |a| > 0 {
      assert (a + b)[1..] == a[1..] + b;
      UnlinesConcat(a[1..], b);
    } else {
      assert a + b == b;
    }
  }

  /** The text of a file written from its start without being truncated:
      the written text, then whatever the old text had past its end. */
  function Overwrite(prior: string, written: string): (r: string)
    ensures |r| == if |written| < |prior| then |prior| else |written|
    ensures r[..|written|] == written
    ensures forall i :: |written| <= i < |r| ==> r[i] == prior[i]
  {
    if |written| < |prior| then written + prior[|written|..] else written
  }

  // ---------------------------------------------------------------------
  // Registry lines.

  /** Why a registry lookup failed: the loader's line without whitespace,
      the lookup's line without whitespace, or no line naming the title. */
  datatype ExeError =
    | TooFewArgumentsAt(line: nat)
    | InvalidArgumentAt(line: nat)
    | PathNotFound

  /** `format!("{:?} {}", title, path)`: the line recording a title's
      executable. */
  function EntryLine(t: GameTitle, p: string): string {
    DebugName(t) + " " + p
  }

  /** A line whose first word has no whitespace splits after that word. */
  lemma SplitAtSpace(a: string, b: string)
    requires NoWs(a)
    ensures SplitOnceWs(a + " " + b) == Some((a, b))
  {
    var s := a + " " + b;
    assert IsWs(s[|a|]);
    var r := SplitOnceWs(s);
    var n := |r.value.0|;
    assert r.value.0 == s[..n] == a;
    assert r.value.1 == s[n + 1..] == b;
  }

  lemma WordToken(d: string)
    requires IsWord(d)
    ensures IsToken(d) && d[0] != '#' && NoNewline(d)
  {
    forall i | 0 <= i < |d| ensures !IsWs(d[i]) && d[i] != '\n' {
      assert IsWordChar(d[i]);
    }
  }

  /** Debug names are single words that do not start a comment. */
  lemma DebugNameWord(t: GameTitle)
    ensures IsToken(DebugName(t)) && DebugName(t)[0] != '#'
    ensures NoNewline(DebugName(t))
  {
    DebugOrdinalName(t);
    WordToken(DebugName(t));
  }

  /** An entry line splits into the title's debug name and the path, and is
      neither a comment nor blank. */
  lemma EntryLineSplits(t: GameTitle, p: string)
    ensures SplitOnceWs(EntryLine(t, p)) == Some((DebugName(t), p))
    ensures !StartsWith(EntryLine(t, p), "#") && !IsBlank(EntryLine(t, p))
    ensures NoNewline(p) ==> NoNewline(EntryLine(t, p))
  {
    DebugNameWord(t);
    SplitAtSpace(DebugName(t), p);
    var s := EntryLine(t, p);
    assert s[0] == DebugName(t)[0];
    if NoNewline(p) {
      forall i | 0 <= i < |s| ensures s[i] != '\n' {
        if i < |DebugName(t)| {
          assert s[i] == DebugName(t)[i];
        } else if i > |DebugName(t)| {
          assert s[i] == p[i - |DebugName(t)| - 1];
        }
      }
    }
  }

  /** What a registry line says about one title as the lookups read it: it
      has no whitespace to split at, it names another title, or it names
      this title and gives its path. */
  datatype LineView = Malformed | OtherName | PathOf(path: string)

  function ViewOf(line: string, key: string): LineView {
    match SplitOnceWs(line)
    case None => Malformed
    case Some((name, path)) => if name == key then PathOf(path) else OtherName
  }

  /** Every line has whitespace to split at, as every line the registry
      writers produce does. */
  predicate EveryLineSplits(ls: seq<string>) {
    forall i :: 0 <= i < |ls| ==> SplitOnceWs(ls[i]).Some?
  }

  /** Some line names the title whose debug name is `key`. */
  predicate Listed(ls: seq<string>, key: string)
    decreases |ls|
  {
    |ls| > 0 && (ViewOf(ls[0], key).PathOf? || Listed(ls[1..], key))
  }

  /** On a registry whose every line splits, a key no line names is
      another title's on every line. */
  lemma {:induction false} NotListed(ls: seq<string>, key: string)
    requires EveryLineSplits(ls) && !Listed(ls, key)
    ensures forall i :: 0 <= i < |ls| ==> ViewOf(ls[i], key) == OtherName
    decreases |ls|
  {
    if |ls| > 0 {
      assert forall i :: 1 <= i < |ls| ==> ls[i] == ls[1..][i - 1];
      NotListed(ls[1..], key);
    }
  }

  lemma EntryView(t: GameTitle, p: string, u: GameTitle)
    ensures ViewOf(EntryLine(t, p), DebugName(u)) == if u == t then PathOf(p) else OtherName
  {
    EntryLineSplits(t, p);
    DebugNameInjective(t, u);
  }

  /** A line starting with `#` that splits names no title. */
  lemma CommentView(l: string, key: string)
    requires StartsWith(l, "#") && SplitOnceWs(l).Some? && !StartsWith(key, "#")
    ensures ViewOf(l, key) == OtherName
  {
    var name := SplitOnceWs(l).value.0;
    assert l[0] == '#';
    assert !IsWs(l[0]);
    assert |name| > 0 && name[0] == '#';
  }

  lemma CommentLineSplits(words: seq<string>)
    requires |words| > 0
    ensures SplitOnceWs(CommentLine(words)).Some?
    ensures StartsWith(CommentLine(words), "#")
  {
    assert CommentLine(words) == "#" + " " + Join(words);
    assert NoWs("#") by {
      assert !IsWs("#"[0]);
    }
    SplitAtSpace("#", Join(words));
  }

  /** The header lines split after their `#`. */
  lemma HeaderLinesSplit()
    ensures EveryLineSplits(Header)
    ensures forall i :: 0 <= i < |Header| ==> StartsWith(Header[i], "#")
  {
    CommentLineSplits(GeneratedWords);
    CommentLineSplits(WarningWords);
  }

  // ---------------------------------------------------------------------
  // `get_path`.

  /** `get_path` from line `n` on: each line is split at its first
      whitespace character, comments included, and the first line naming
      the title gives its path. */
  function PathFrom(ls: seq<string>, key: string, n: nat): Result<string, ExeError>
    decreases |ls|
  {
    if |ls| == 0 then Err(PathNotFound)
    else
      match ViewOf(ls[0], key)
      case Malformed => Err(InvalidArgumentAt(n))
      case PathOf(p) => Ok(p)
      case OtherName => PathFrom(ls[1..], key, n + 1)
  }

  /** The path the registry text gives the first line named `key`. */
  function PathIn(reg: string, key: string): Result<string, ExeError> {
    PathFrom(Lines(reg), key, 1)
  }

  /** `get_path`: the path the registry gives the title. A path is found
      only when some line names the title, and "Unable to find path" only
      when none does. */
  function GetPath(reg: string, t: GameTitle): (r: Result<string, ExeError>)
    ensures r.Ok? ==> Listed(Lines(reg), DebugName(t))
    ensures r == Err(PathNotFound) ==> !Listed(Lines(reg), DebugName(t))
  {
    PathFromListed(Lines(reg), DebugName(t), 1);
    PathIn(reg, DebugName(t))
  }

  /** `get_path` gives the path of the first line naming the title, every
      line before it naming another title. */
  lemma {:induction false} PathFromFound(ls: seq<string>, key: string, n: nat)
    requires PathFrom(ls, key, n).Ok?
    ensures exists i :: 0 <= i < |ls| && ViewOf(ls[i], key) == PathOf(PathFrom(ls, key, n).value)
                        && forall k :: 0 <= k < i ==> ViewOf(ls[k], key) == OtherName
    decreases |ls|
  {
    if ViewOf(ls[0], key) == OtherName {
      var r := PathFrom(ls, key, n);
      PathFromFound(ls[1..], key, n + 1);
      var i :| 0 <= i < |ls[1..]| && ViewOf(ls[1..][i], key) == PathOf(r.value)
               && forall k :: 0 <= k < i ==> ViewOf(ls[1..][k], key) == OtherName;
      assert ViewOf(ls[i + 1], key) == PathOf(r.value);
      forall k | 0 <= k < i + 1 ensures ViewOf(ls[k], key) == OtherName {
        if k > 0 {
          assert ls[k] == ls[1..][k - 1];
        }
      }
    }
  }

  /** `get_path` finds nothing exactly when every line names another
      title. */
  lemma {:induction false} PathFromNotFound(ls: seq<string>, key: string, n: nat)
    ensures PathFrom(ls, key, n) == Err(PathNotFound) <==> forall i :: 0 <= i < |ls| ==> ViewOf(ls[i], key) == OtherName
    decreases |ls|
  {
    if |ls| > 0 && ViewOf(ls[0], key) == OtherName {
      PathFromNotFound(ls[1..], key, n + 1);
      assert forall i :: 1 <= i < |ls| ==> ls[i] == ls[1..][i - 1];
    }
  }

  /** Any other outcome of `get_path` is an error at a line without
      whitespace, so a registry whose every line splits gives none. */
  lemma {:induction false} PathFromInvalid(ls: seq<string>, key: string, n: nat)
    requires PathFrom(ls, key, n).Err? && PathFrom(ls, key, n) != Err(PathNotFound)
    ensures exists i :: 0 <= i < |ls| && PathFrom(ls, key, n) == Err(InvalidArgumentAt(n + i)) && ViewOf(ls[i], key) == Malformed
    decreases |ls|
  {
    var r := PathFrom(ls, key, n);
    if ViewOf(ls[0], key) == OtherName {
      assert r == PathFrom(ls[1..], key, n + 1);
      PathFromInvalid(ls[1..], key, n + 1);
      var i :| 0 <= i < |ls[1..]| && r == Err(InvalidArgumentAt(n + 1 + i)) && ViewOf(ls[1..][i], key) == Malformed;
      assert ls[1..][i] == ls[i + 1];
    } else {
      assert r == Err(InvalidArgumentAt(n + 0));
    }
  }

  /** On a registry whose every line splits, `get_path` gives a path or
      "not found". */
  lemma PathFromSplitting(ls: seq<string>, key: string, n: nat)
    requires EveryLineSplits(ls)
    ensures PathFrom(ls, key, n).Ok? || PathFrom(ls, key, n) == Err(PathNotFound)
  {
    if PathFrom(ls, key, n).Err? && PathFrom(ls, key, n) != Err(PathNotFound) {
      PathFromInvalid(ls, key, n);
    }
  }

  /** Path lookups across two registries one after the other. */
  lemma {:induction false} PathFromAppend(a: seq<string>, b: seq<string>, key: string, n: nat)
    ensures PathFrom(a + b, key, n)
         == if PathFrom(a, key, n) == Err(PathNotFound) then PathFrom(b, key, n + |a|) else PathFrom(a, key, n)
    decreases |a|
  {
    if |a| == 0 {
      assert a + b == b;
    } else if ViewOf(a[0], key) == OtherName {
      assert (a + b)[1..] == a[1..] + b;
      PathFromAppend(a[1..], b, key, n + 1);
    } else {
      assert (a + b)[0] == a[0];
    }
  }

  /** A registry of comment lines names no title. */
  lemma CommentsNameNothing(ls: seq<string>, key: string, n: nat)
    requires EveryLineSplits(ls) && forall i :: 0 <= i < |ls| ==> StartsWith(ls[i], "#")
    requires !StartsWith(key, "#")
    ensures PathFrom(ls, key, n) == Err(PathNotFound)
  {
    forall i | 0 <= i < |ls| ensures ViewOf(ls[i], key) == OtherName {
      CommentView(ls[i], key);
    }
    PathFromNotFound(ls, key, n);
  }

  // ---------------------------------------------------------------------
  // `add_exe_path` and `remove_exe_path`.

  /** Whether the registry has a line that is not a comment; `add_exe_path`
      starts the file afresh when it has none. */
  predicate HasEntries(ls: seq<string>)
    decreases |ls|
  {
    |ls| > 0 && (!StartsWith(ls[0], "#") || HasEntries(ls[1..]))
  }

  lemma {:induction false} NoEntries(ls: seq<string>)
    requires !HasEntries(ls)
    ensures forall i :: 0 <= i < |ls| ==> StartsWith(ls[i], "#")
    decreases |ls|
  {
    if |ls| > 0 {
      NoEntries(ls[1..]);
      assert forall i :: 1 <= i < |ls| ==> ls[i] == ls[1..][i - 1];
    }
  }

  /** Every line naming `key` replaced by `entry`. */
  function ReplaceNaming(ls: seq<string>, key: string, entry: string): (r: seq<string>)
    ensures |r| == |ls|
    ensures forall i :: 0 <= i < |ls| ==> r[i] == ls[i] || r[i] == entry
    decreases |ls|
  {
    if |ls| == 0 then []
    else [if ViewOf(ls[0], key).PathOf? then entry else ls[0]] + ReplaceNaming(ls[1..], key, entry)
  }

  /** The lines `add_exe_path` evidently means to write: the header and the
      entry when the registry has no entries yet; otherwise the registry
      with the lines naming `key` replaced by the entry, or with the entry
      added when no line names it. */
  function AddEntry(ls: seq<string>, key: string, entry: string): seq<string> {
    if !HasEntries(ls) then Header + [entry]
    else if Listed(ls, key) then ReplaceNaming(ls, key, entry)
    else ls + [entry]
  }

  /** The registry text rewritten with `entry` added under `key`, the file
      truncated before the lines are written. */
  function AddToRegistry(reg: string, key: string, entry: string): string {
    Unlines(AddEntry(Lines(reg), key, entry))
  }

  /** `add_exe_path`, corrected. */
  function AddExePath(reg: string, t: GameTitle, p: string): string {
    AddToRegistry(reg, DebugName(t), EntryLine(t, p))
  }

  /** Every line that contains the title's debug name anywhere replaced by
      the title's new entry line, as `add_exe_path` is written. */
  function ReplaceContaining(ls: seq<string>, t: GameTitle, p: string): (r: seq<string>)
    ensures |r| == |ls|
    ensures forall i :: 0 <= i < |ls| ==> r[i] == ReplacedLine(ls[i], t, p)
    decreases |ls|
  {
    if |ls| == 0 then []
    else
      var rest := ReplaceContaining(ls[1..], t, p);
      var r := [ReplacedLine(ls[0], t, p)] + rest;
      assert forall i :: 1 <= i < |ls| ==> r[i] == rest[i - 1] && ls[i] == ls[1..][i - 1];
      r
  }

  /** One line as the writer above leaves it: replaced by the title's entry
      line when it contains the title's debug name anywhere. */
  function ReplacedLine(l: string, t: GameTitle, p: string): string {
    if Contains(l, DebugName(t)) then EntryLine(t, p) else l
  }

  /** `add_exe_path` as written: a registry with entries is written back
      line by line with every line containing the debug name replaced and
      nothing appended, into the file opened without truncation, so the
      registry never gets shorter. */
  function AddExePathAsWritten(reg: string, t: GameTitle, p: string): (r: string)
    ensures |r| >= |reg|
  {
    var ls := Lines(reg);
    var written := if !HasEntries(ls) then Header + [EntryLine(t, p)] else ReplaceContaining(ls, t, p);
    Overwrite(reg, Unlines(written))
  }

  /** The registry without the lines naming the title. */
  function DropNaming(ls: seq<string>, key: string): (r: seq<string>)
    ensures forall l :: l in r <==> l in ls && !ViewOf(l, key).PathOf?
    decreases |ls|
  {
    if |ls| == 0 then []
    else if ViewOf(ls[0], key).PathOf? then DropNaming(ls[1..], key)
    else [ls[0]] + DropNaming(ls[1..], key)
  }

  /** The registry without the lines containing `key` anywhere. */
  function DropContaining(ls: seq<string>, key: string): (r: seq<string>)
    ensures forall l :: l in r <==> l in ls && !Contains(l, key)
    decreases |ls|
  {
    if |ls| == 0 then []
    else if Contains(ls[0], key) then DropContaining(ls[1..], key)
    else [ls[0]] + DropContaining(ls[1..], key)
  }

  /** The registry text rewritten without the lines named `key`. */
  function RemoveFromRegistry(reg: string, key: string): string {
    Unlines(DropNaming(Lines(reg), key))
  }

  /** `remove_exe_path`, corrected: the lines naming the title dropped. */
  function RemoveExePath(reg: string, t: GameTitle): string {
    RemoveFromRegistry(reg, DebugName(t))
  }

  /** `remove_exe_path` as written: every line containing the debug name
      anywhere dropped, and the others kept, so no line names the title
      afterwards. */
  function RemoveExePathAsWritten(reg: string, t: GameTitle): (r: string)
    ensures forall l :: l in Lines(r) <==> l in Lines(reg) && !Contains(l, DebugName(t))
    ensures !Listed(Lines(r), DebugName(t))
  {
    var d := DropContaining(Lines(reg), DebugName(t));
    DropContainingFree(Lines(reg), DebugName(t));
    LinesUnlines(d);
    UncontainedNotListed(d, DebugName(t));
    Unlines(d)
  }

  lemma DropContainingFree(ls: seq<string>, key: string)
    requires LinesFree(ls)
    ensures LinesFree(DropContaining(ls, key))
  {
    var d := DropContaining(ls, key);
    forall j | 0 <= j < |d|
      ensures NoNewline(d[j])
    {
      assert d[j] in ls;
      var i :| 0 <= i < |ls| && ls[i] == d[j];
    }
  }

  /** A line naming `key` starts with it, so it contains it. */
  lemma NamedContains(line: string, key: string)
    ensures ViewOf(line, key).PathOf? ==> Contains(line, key)
  {
    if ViewOf(line, key).PathOf? {
      var sp := SplitOnceWs(line).value;
      assert sp.0 == key;
      assert line[..|key|] == key;
    }
  }

  /** Lines that do not contain `key` do not name it. */
  lemma {:induction false} UncontainedNotListed(ls: seq<string>, key: string)
    requires forall l :: l in ls ==> !Contains(l, key)
    ensures !Listed(ls, key)
    decreases |ls|
  {
    if |ls| > 0 {
      assert ls[0] in ls;
      NamedContains(ls[0], key);
      assert forall l :: l in ls[1..] ==> l in ls;
      UncontainedNotListed(ls[1..], key);
    }
  }

  // ---------------------------------------------------------------------
  // What the corrected writers do to the lookups.

  /** Replacing the lines naming `key` by a line naming it with path `p`
      makes its lookup give `p` when some line named it, and leaves the
      lookup of every other key alone. */
  lemma {:induction false} ReplaceView(ls: seq<string>, key: string, entry: string, p: string, other: string, n: nat)
    requires EveryLineSplits(ls) && SplitOnceWs(entry) == Some((key, p))
    ensures PathFrom(ReplaceNaming(ls, key, entry), other, n)
         == if other == key && Listed(ls, key) then Ok(p) else PathFrom(ls, other, n)
    decreases |ls|
  {
    if |ls| > 0 {
      var r := ReplaceNaming(ls, key, entry);
      assert r[1..] == ReplaceNaming(ls[1..], key, entry);
      assert EveryLineSplits(ls[1..]) by {
        assert forall i :: 1 <= i < |ls| ==> ls[i] == ls[1..][i - 1];
      }
      ReplaceView(ls[1..], key, entry, p, other, n + 1);
      if ViewOf(ls[0], key).PathOf? {
        assert r[0] == entry;
      } else {
        assert r[0] == ls[0];
      }
    }
  }

  /** Dropping the lines naming `key` makes its lookup find nothing and
      leaves the lookup of every other key alone. */
  lemma {:induction false} DropView(ls: seq<string>, key: string, other: string, n: nat, m: nat)
    requires EveryLineSplits(ls)
    ensures PathFrom(DropNaming(ls, key), other, m)
         == if other == key then Err(PathNotFound) else PathFrom(ls, other, n)
    decreases |ls|
  {
    if |ls| > 0 {
      assert forall i :: 1 <= i < |ls| ==> ls[i] == ls[1..][i - 1];
      if ViewOf(ls[0], key).PathOf? {
        DropView(ls[1..], key, other, n + 1, m);
      } else {
        DropView(ls[1..], key, other, n + 1, m + 1);
      }
    }
  }

  /** Adding a line naming a key no line names makes its lookup give the
      line's path and leaves the lookup of every other key alone. */
  lemma AppendView(ls: seq<string>, key: string, entry: string, p: string, other: string, n: nat)
    requires EveryLineSplits(ls) && !Listed(ls, key) && SplitOnceWs(entry) == Some((key, p))
    ensures PathFrom(ls + [entry], other, n) == if other == key then Ok(p) else PathFrom(ls, other, n)
  {
    PathFromAppend(ls, [entry], other, n);
    PathFromSplitting(ls, other, n);
    if other == key {
      NotListed(ls, key);
      PathFromNotFound(ls, key, n);
    }
  }

  /** A registry without entries gives no path; the header and one entry
      give that entry's path. */
  lemma FreshView(ls: seq<string>, key: string, entry: string, p: string, other: string)
    requires EveryLineSplits(ls) && !HasEntries(ls) && SplitOnceWs(entry) == Some((key, p))
    requires !StartsWith(other, "#")
    ensures PathFrom(ls, other, 1) == Err(PathNotFound)
    ensures PathFrom(Header + [entry], other, 1) == if other == key then Ok(p) else Err(PathNotFound)
  {
    HeaderLinesSplit();
    NoEntries(ls);
    CommentsNameNothing(Header, other, 1);
    CommentsNameNothing(ls, other, 1);
    PathFromAppend(Header, [entry], other, 1);
  }

  /** The corrected `add_exe_path` on the lookups: the added key gives the
      entry's path, every other key what it gave before. */
  lemma AddEntryView(ls: seq<string>, key: string, entry: string, p: string, other: string)
    requires EveryLineSplits(ls) && SplitOnceWs(entry) == Some((key, p)) && !StartsWith(other, "#")
    ensures PathFrom(AddEntry(ls, key, entry), other, 1) == if other == key then Ok(p) else PathFrom(ls, other, 1)
  {
    if !HasEntries(ls) {
      FreshView(ls, key, entry, p, other);
    } else if Listed(ls, key) {
      ReplaceView(ls, key, entry, p, other, 1);
    } else {
      AppendView(ls, key, entry, p, other, 1);
    }
  }

  lemma AddEntryShape(ls: seq<string>, key: string, entry: string)
    requires LinesFree(ls) && EveryLineSplits(ls) && NoNewline(entry) && SplitOnceWs(entry).Some?
    ensures LinesFree(AddEntry(ls, key, entry)) && EveryLineSplits(AddEntry(ls, key, entry))
  {
    if !HasEntries(ls) {
      HeaderNoNewline();
      HeaderLinesSplit();
      LinesFreeConcat(Header, [entry]);
      SplittingConcat(Header, [entry]);
    } else if !Listed(ls, key) {
      LinesFreeConcat(ls, [entry]);
      SplittingConcat(ls, [entry]);
    }
  }

  lemma SplittingConcat(a: seq<string>, b: seq<string>)
    requires EveryLineSplits(a) && EveryLineSplits(b)
    ensures EveryLineSplits(a + b)
  {
    forall i | 0 <= i < |a + b| ensures SplitOnceWs((a + b)[i]).Some? {
      if i >= |a| {
        assert (a + b)[i] == b[i - |a|];
      }
    }
  }

  /** The registry text rewritten with an added entry reads back as the
      registry with that entry in place of the key's lines. */
  lemma AddKeyThenGet(reg: string, key: string, entry: string, p: string, other: string)
    requires EveryLineSplits(Lines(reg)) && NoNewline(entry) && SplitOnceWs(entry) == Some((key, p))
    requires !StartsWith(other, "#")
    ensures PathIn(AddToRegistry(reg, key, entry), other) == if other == key then Ok(p) else PathIn(reg, other)
    ensures EveryLineSplits(Lines(AddToRegistry(reg, key, entry)))
  {
    var ls := Lines(reg);
    AddEntryShape(ls, key, entry);
    LinesUnlines(AddEntry(ls, key, entry));
    AddEntryView(ls, key, entry, p, other);
  }

  /** `AddKeyThenGet` for a title's entry, read under another title's name. */
  lemma AddTitleView(reg: string, t: GameTitle, p: string, u: GameTitle)
    requires EveryLineSplits(Lines(reg)) && NoNewline(p)
    ensures PathIn(AddToRegistry(reg, DebugName(t), EntryLine(t, p)), DebugName(u))
      == if DebugName(u) == DebugName(t) then Ok(p) else PathIn(reg, DebugName(u))
    ensures EveryLineSplits(Lines(AddToRegistry(reg, DebugName(t), EntryLine(t, p))))
  {
    var d, e, entry := DebugName(t), DebugName(u), EntryLine(t, p);
    assert NoNewline(entry) && SplitOnceWs(entry) == Some((d, p)) by {
      EntryLineSplits(t, p);
    }
    assert !StartsWith(e, "#") by {
      DebugNameWord(u);
      assert e[..1][0] == e[0];
    }
    AddKeyThenGet(reg, d, entry, p, e);
  }

  /** After the corrected `add_exe_path`, `get_path` gives the new path for
      the title and what it gave before for every other title, and every
      line of the registry still splits. */
  lemma AddThenGet(reg: string, t: GameTitle, p: string, u: GameTitle)
    requires EveryLineSplits(Lines(reg)) && NoNewline(p)
    ensures GetPath(AddExePath(reg, t, p), t) == Ok(p)
    ensures u != t ==> GetPath(AddExePath(reg, t, p), u) == GetPath(reg, u)
    ensures EveryLineSplits(Lines(AddExePath(reg, t, p)))
  {
    AddTitleView(reg, t, p, t);
    AddTitleView(reg, t, p, u);
    DebugNameInjective(t, u);
  }

  /** The registry text rewritten without a key's lines reads back as
      naming nothing under that key and everything else as before. */
  lemma RemoveKeyThenGet(reg: string, key: string, other: string)
    requires EveryLineSplits(Lines(reg))
    ensures PathIn(RemoveFromRegistry(reg, key), other) == if other == key then Err(PathNotFound) else PathIn(reg, other)
    ensures EveryLineSplits(Lines(RemoveFromRegistry(reg, key)))
  {
    var ls := Lines(reg);
    var r := DropNaming(ls, key);
    forall i | 0 <= i < |r| ensures NoNewline(r[i]) && SplitOnceWs(r[i]).Some? {
      assert r[i] in r;
      var j :| 0 <= j < |ls| && ls[j] == r[i];
    }
    LinesUnlines(r);
    DropView(ls, key, other, 1, 1);
  }

  /** After the corrected `remove_exe_path`, `get_path` finds nothing for
      the title and what it found before for every other title. */
  lemma RemoveThenGet(reg: string, t: GameTitle, u: GameTitle)
    requires EveryLineSplits(Lines(reg))
    ensures GetPath(RemoveExePath(reg, t), t) == Err(PathNotFound)
    ensures u != t ==> GetPath(RemoveExePath(reg, t), u) == GetPath(reg, u)
    ensures EveryLineSplits(Lines(RemoveExePath(reg, t)))
  {
    RemoveKeyThenGet(reg, DebugName(t), DebugName(t));
    RemoveKeyThenGet(reg, DebugName(t), DebugName(u));
    DebugNameInjective(t, u);
  }

  // ---------------------------------------------------------------------
  // `get_list`.

  /** `get_path` finds a path exactly when some line names the key, and
      "not found" only when none does. */
  lemma {:induction false} PathFromListed(ls: seq<string>, key: string, n: nat)
    ensures PathFrom(ls, key, n).Ok? ==> Listed(ls, key)
    ensures PathFrom(ls, key, n) == Err(PathNotFound) ==> !Listed(ls, key)
    decreases |ls|
  {
    if |ls| > 0 {
      PathFromListed(ls[1..], key, n + 1);
    }
  }

  /** The first of `ts` whose debug name is `name`: the inner loop of
      `get_list`, which stops at the first match. */
  function FirstNamed(ts: seq<GameTitle>, name: string): (r: Option<GameTitle>)
    ensures r.Some? ==> r.value in ts && DebugName(r.value) == name
    ensures r.None? ==> forall i :: 0 <= i < |ts| ==> DebugName(ts[i]) != name
    decreases |ts|
  {
    if |ts| == 0 then None
    else if DebugName(ts[0]) == name then Some(ts[0])
    else
      var r := FirstNamed(ts[1..], name);
      assert forall i :: 1 <= i < |ts| ==> ts[i] == ts[1..][i - 1];
      r
  }

  /** `titles` lists every title but `Unknown`, as `all_variants` does. */
  predicate KnownTitles(titles: seq<GameTitle>) {
    forall u :: u in titles <==> u != Unknown
  }

  /** Searching a list of every title but `Unknown` finds a title by name
      exactly when that is the title's debug name. */
  lemma FirstNamedExact(titles: seq<GameTitle>, name: string, t: GameTitle)
    requires KnownTitles(titles)
    ensures FirstNamed(titles, name) == Some(t) <==> t != Unknown && DebugName(t) == name
  {
    var r := FirstNamed(titles, name);
    if r.Some? {
      assert r.value != Unknown;
      DebugNameInjective(r.value, t);
    } else if t != Unknown {
      assert t in titles;
    }
  }

  /** The titles `get_list` finds in the registry lines `ls`, numbered from
      `n`, searching `titles` for each line's first word: comment and blank
      lines are skipped, a line without whitespace stops the list with an
      error, and a line's first word adds the first title of `titles` with
      that debug name, if any. */
  function ListFrom(ls: seq<string>, n: nat, titles: seq<GameTitle>): Result<seq<GameTitle>, ExeError>
    decreases |ls|
  {
    if |ls| == 0 then Ok([])
    else if StartsWith(ls[0], "#") || IsBlank(ls[0]) then ListFrom(ls[1..], n + 1, titles)
    else
      match SplitOnceWs(ls[0])
      case None => Err(InvalidArgumentAt(n))
      case Some((name, _)) =>
        match ListFrom(ls[1..], n + 1, titles)
        case Err(e) => Err(e)
        case Ok(rest) =>
          match FirstNamed(titles, name)
          case None => Ok(rest)
          case Some(t) => Ok([t] + rest)
  }

  /** `get_list`: the game data of every title the registry lists, in the
      order of its lines. */
  function GetList(reg: string): (r: Result<seq<GameData>, ExeError>)
    ensures r.Ok? <==> ListFrom(Lines(reg), 1, AllVariants).Ok?
    ensures r.Ok? ==> |r.value| == |ListFrom(Lines(reg), 1, AllVariants).value|
    ensures r.Ok? ==> forall i :: 0 <= i < |r.value| ==> r.value[i] == AsGameData(ListFrom(Lines(reg), 1, AllVariants).value[i])
  {
    match ListFrom(Lines(reg), 1, AllVariants)
    case Err(e) => Err(e)
    case Ok(ts) => Ok(seq(|ts|, i requires 0 <= i < |ts| => AsGameData(ts[i])))
  }

  /** A comment or blank line gives no path for a title. */
  lemma SkippedLineNamesNothing(l: string, t: GameTitle)
    requires StartsWith(l, "#") || IsBlank(l)
    ensures !ViewOf(l, DebugName(t)).PathOf?
  {
    DebugNameWord(t);
    var d := DebugName(t);
    match SplitOnceWs(l)
    case None =>
    case Some((name, _)) =>
      if StartsWith(l, "#") {
        assert d[..1][0] == d[0];
        CommentView(l, d);
      } else {
        assert IsWs(l[0]);
        assert |name| == 0;
      }
  }

  /** On a registry whose every entry splits, `get_list` succeeds. */
  lemma {:induction false} ListFromSplitting(ls: seq<string>, n: nat, titles: seq<GameTitle>)
    requires EveryLineSplits(ls)
    ensures ListFrom(ls, n, titles).Ok?
    decreases |ls|
  {
    if |ls| > 0 {
      assert forall i :: 1 <= i < |ls| ==> ls[i] == ls[1..][i - 1];
      ListFromSplitting(ls[1..], n + 1, titles);
    }
  }

  /** A skipped line adds nothing to the list and names no title. */
  lemma ListStepSkipped(ls: seq<string>, n: nat, titles: seq<GameTitle>, t: GameTitle)
    requires |ls| > 0 && (StartsWith(ls[0], "#") || IsBlank(ls[0]))
    ensures ListFrom(ls, n, titles) == ListFrom(ls[1..], n + 1, titles)
    ensures Listed(ls, DebugName(t)) == Listed(ls[1..], DebugName(t))
  {
    SkippedLineNamesNothing(ls[0], t);
  }

  /** An entry line adds the title it names, if any, before the titles of
      the lines after it. */
  lemma ListStepEntry(ls: seq<string>, n: nat, titles: seq<GameTitle>, t: GameTitle)
    requires KnownTitles(titles)
    requires |ls| > 0 && !(StartsWith(ls[0], "#") || IsBlank(ls[0])) && ListFrom(ls, n, titles).Ok?
    ensures ListFrom(ls[1..], n + 1, titles).Ok?
    ensures t in ListFrom(ls, n, titles).value
        <==> (t != Unknown && ViewOf(ls[0], DebugName(t)).PathOf?) || t in ListFrom(ls[1..], n + 1, titles).value
  {
    ListStepValue(ls, n, titles);
    var name := SplitOnceWs(ls[0]).value.0;
    assert ViewOf(ls[0], DebugName(t)).PathOf? <==> name == DebugName(t);
    FirstNamedExact(titles, name, t);
  }

  /** An entry line adds the first title its first word names, if any, to
      the titles of the lines after it. */
  lemma ListStepValue(ls: seq<string>, n: nat, titles: seq<GameTitle>)
    requires |ls| > 0 && !(StartsWith(ls[0], "#") || IsBlank(ls[0])) && ListFrom(ls, n, titles).Ok?
    ensures SplitOnceWs(ls[0]).Some? && ListFrom(ls[1..], n + 1, titles).Ok?
    ensures ListFrom(ls, n, titles).value
        == if FirstNamed(titles, SplitOnceWs(ls[0]).value.0).Some?
           then [FirstNamed(titles, SplitOnceWs(ls[0]).value.0).value] + ListFrom(ls[1..], n + 1, titles).value
           else ListFrom(ls[1..], n + 1, titles).value
  {
  }

  /** `get_list` lists a title exactly when it is not `Unknown` and some
      line names it. */
  lemma {:induction false} ListFromMembers(ls: seq<string>, n: nat, titles: seq<GameTitle>, t: GameTitle)
    requires KnownTitles(titles) && ListFrom(ls, n, titles).Ok?
    ensures t in ListFrom(ls, n, titles).value <==> t != Unknown && Listed(ls, DebugName(t))
    decreases |ls|
  {
    if |ls| > 0 {
      if StartsWith(ls[0], "#") || IsBlank(ls[0]) {
        ListStepSkipped(ls, n, titles, t);
      } else {
        ListStepEntry(ls, n, titles, t);
      }
      ListFromMembers(ls[1..], n + 1, titles, t);
    }
  }

  /** `get_list` succeeds on a registry whose every line splits, and lists
      only titles other than `Unknown`. */
  lemma GetListKnown(reg: string)
    requires EveryLineSplits(Lines(reg))
    ensures GetList(reg).Ok?
    ensures forall x :: x in ListFrom(Lines(reg), 1, AllVariants).value ==> x in AllVariants
  {
    var ls := Lines(reg);
    AllVariantsExact();
    ListFromSplitting(ls, 1, AllVariants);
    forall x | x in ListFrom(ls, 1, AllVariants).value ensures x in AllVariants {
      ListFromMembers(ls, 1, AllVariants, x);
    }
  }

  /** On a registry whose every line splits, `get_list` lists the game data
      of a title other than `Unknown` exactly when some line names it. */
  lemma GetListMembers(reg: string, t: GameTitle)
    requires EveryLineSplits(Lines(reg)) && t != Unknown
    ensures GetList(reg).Ok?
    ensures AsGameData(t) in GetList(reg).value <==> Listed(Lines(reg), DebugName(t))
  {
    var ls := Lines(reg);
    GetListKnown(reg);
    var ts := ListFrom(ls, 1, AllVariants).value;
    var gs := GetList(reg).value;
    assert t in ts <==> Listed(ls, DebugName(t)) by {
      AllVariantsExact();
      ListFromMembers(ls, 1, AllVariants, t);
    }
    assert t in AllVariants by {
      AllVariantsExact();
    }
    AsGameDataMembers(ts, gs, t);
  }

  /** After the corrected `add_exe_path` of a listed title, `get_list`
      succeeds and includes the title's game data. */
  lemma AddThenList(reg: string, t: GameTitle, p: string)
    requires EveryLineSplits(Lines(reg)) && NoNewline(p) && t != Unknown
    ensures GetList(AddExePath(reg, t, p)).Ok?
    ensures AsGameData(t) in GetList(AddExePath(reg, t, p)).value
  {
    AddThenGet(reg, t, p, t);
    PathFromListed(Lines(AddExePath(reg, t, p)), DebugName(t), 1);
    GetListMembers(AddExePath(reg, t, p), t);
  }

  /** After the corrected `remove_exe_path`, `get_list` succeeds and no
      longer includes the title's game data. */
  lemma RemoveThenList(reg: string, t: GameTitle)
    requires EveryLineSplits(Lines(reg)) && t != Unknown
    ensures GetList(RemoveExePath(reg, t)).Ok?
    ensures AsGameData(t) !in GetList(RemoveExePath(reg, t)).value
  {
    RemoveThenGet(reg, t, t);
    PathFromListed(Lines(RemoveExePath(reg, t)), DebugName(t), 1);
    GetListMembers(RemoveExePath(reg, t), t);
  }
}
