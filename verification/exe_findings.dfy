/**
  Registries on which `add_exe_path` and `remove_exe_path` as written in
  src/config.rs lose or corrupt entries, next to what the corrected
  writers of `ExePaths` give on the same registry. Each failure is stated
  for every registry that shows it, then for a concrete one.
*/
module ExeFindings {
  import opened Wrappers
  import opened Text
  import opened Games
  import opened ExePaths

  /** A registry holding one entry reads back as that entry. */
  lemma OneEntry(t: GameTitle, p: string)
    requires NoNewline(p)
    ensures Lines(Unlines([EntryLine(t, p)])) == [EntryLine(t, p)]
    ensures EveryLineSplits(Lines(Unlines([EntryLine(t, p)]))) && HasEntries([EntryLine(t, p)])
  {
    EntryLineSplits(t, p);
    LinesUnlines([EntryLine(t, p)]);
  }

  /** A registry holding one entry gives its path under its own name and
      nothing under any other. */
  lemma OneEntryPath(t: GameTitle, p: string, key: string)
    requires NoNewline(p)
    ensures PathIn(Unlines([EntryLine(t, p)]), key) == if key == DebugName(t) then Ok(p) else Err(PathNotFound)
  {
    var e := EntryLine(t, p);
    OneEntry(t, p);
    EntryLineSplits(t, p);
    assert ViewOf(e, key) == if key == DebugName(t) then PathOf(p) else OtherName;
    assert PathFrom([], key, 2) == Err(PathNotFound);
    assert [e][1..] == [];
    assert PathIn(Unlines([e]), key) == PathFrom([e], key, 1);
  }

  /** A string shorter than a pattern does not contain it. */
  lemma {:induction false} ShortNotContains(s: string, sub: string)
    requires |s| < |sub|
    ensures !Contains(s, sub)
    decreases |s|
  {
    if |s| > 0 {
      ShortNotContains(s[1..], sub);
    }
  }

  /** An entry contains every prefix of its title's debug name. */
  lemma EntryContainsPrefix(u: GameTitle, p: string, d: string)
    requires StartsWith(DebugName(u), d)
    ensures Contains(EntryLine(u, p), d)
  {
    var e := EntryLine(u, p);
    assert e[..|d|] == DebugName(u)[..|d|];
  }

  /** `add_exe_path` as written on a registry of one entry rewrites that
      entry when it contains the added title's debug name and otherwise
      writes it back, over the prior text. */
  lemma AddAsWrittenOne(u: GameTitle, p: string, t: GameTitle, q: string)
    requires NoNewline(p)
    ensures AddExePathAsWritten(Unlines([EntryLine(u, p)]), t, q)
         == Overwrite(Unlines([EntryLine(u, p)]),
                      Unlines([if Contains(EntryLine(u, p), DebugName(t)) then EntryLine(t, q) else EntryLine(u, p)]))
  {
    OneEntry(u, p);
    var r := ReplaceContaining([EntryLine(u, p)], t, q);
    assert r == [r[0]];
  }

  // ---------------------------------------------------------------------
  // Substring match in `add_exe_path`.

  /** Adding a title whose debug name is a prefix of the listed title's:
      as written, the listed entry is replaced and its path lost; the
      corrected writer keeps it. */
  lemma AddClobbersPrefixed(u: GameTitle, p: string, t: GameTitle, q: string)
    requires NoNewline(p) && NoNewline(q) && u != t
    requires StartsWith(DebugName(u), DebugName(t)) && |EntryLine(u, p)| <= |EntryLine(t, q)|
    ensures GetPath(Unlines([EntryLine(u, p)]), u) == Ok(p)
    ensures GetPath(AddExePathAsWritten(Unlines([EntryLine(u, p)]), t, q), u) == Err(PathNotFound)
    ensures GetPath(AddExePath(Unlines([EntryLine(u, p)]), t, q), u) == Ok(p)
  {
    OneEntryPath(u, p, DebugName(u));
    ClobberReplacesLine(u, p, t, q);
    ClobberedLineMisses(u, t, q);
    ClobberKeepsOther(u, p, t, q);
  }

  /** The unfixed add overwrites the one line whose name contains `t`'s. */
  lemma ClobberReplacesLine(u: GameTitle, p: string, t: GameTitle, q: string)
    requires NoNewline(p) && NoNewline(q)
    requires StartsWith(DebugName(u), DebugName(t)) && |EntryLine(u, p)| <= |EntryLine(t, q)|
    ensures AddExePathAsWritten(Unlines([EntryLine(u, p)]), t, q) == Unlines([EntryLine(t, q)])
  {
    EntryContainsPrefix(u, p, DebugName(t));
    AddAsWrittenOne(u, p, t, q);
  }

  /** A registry holding only `t`'s line has no path for another title. */
  lemma ClobberedLineMisses(u: GameTitle, t: GameTitle, q: string)
    requires NoNewline(q) && u != t
    ensures GetPath(Unlines([EntryLine(t, q)]), u) == Err(PathNotFound)
  {
    DebugNameInjective(t, u);
    OneEntryPath(t, q, DebugName(u));
  }

  /** The corrected add leaves another title's path alone. */
  lemma ClobberKeepsOther(u: GameTitle, p: string, t: GameTitle, q: string)
    requires NoNewline(p) && NoNewline(q) && u != t
    ensures GetPath(AddExePath(Unlines([EntryLine(u, p)]), t, q), u) == Ok(p)
  {
    OneEntryPath(u, p, DebugName(u));
    OneEntry(u, p);
    AddThenGet(Unlines([EntryLine(u, p)]), t, q, u);
  }

  /** "Hummer" is a prefix of "Hummer_Extreme". */
  lemma HummerPrefix()
    ensures StartsWith(DebugName(HummerExtreme), DebugName(Hummer))
    ensures |DebugName(HummerExtreme)| == 14 && |DebugName(Hummer)| == 6
  {
    assert DebugName(HummerExtreme)[..6] == DebugName(Hummer);
  }

  /** The registry recording only Hummer Extreme's executable. */
  function ExtremeRegistry(): string {
    Unlines([EntryLine(HummerExtreme, "/h")])
  }

  /** Adding Hummer to the registry listing only Hummer Extreme. */
  lemma AddClobbersOtherTitle()
    ensures GetPath(ExtremeRegistry(), HummerExtreme) == Ok("/h")
    ensures GetPath(AddExePathAsWritten(ExtremeRegistry(), Hummer, "/opt/hummer"), HummerExtreme) == Err(PathNotFound)
    ensures GetPath(AddExePath(ExtremeRegistry(), Hummer, "/opt/hummer"), HummerExtreme) == Ok("/h")
  {
    HummerPrefix();
    assert NoNewline("/h") && NoNewline("/opt/hummer");
    AddClobbersPrefixed(HummerExtreme, "/h", Hummer, "/opt/hummer");
  }

  // ---------------------------------------------------------------------
  // No append in `add_exe_path`.

  /** Adding a title to a registry that has entries but no line containing
      the title's debug name: as written, nothing is replaced and nothing
      appended, so the registry is written back unchanged and the title
      stays unfound; the corrected writer lists it. */
  lemma AddForgetsUnlisted(ls: seq<string>, t: GameTitle, q: string)
    requires LinesFree(ls) && HasEntries(ls)
    requires forall i :: 0 <= i < |ls| ==> !Contains(ls[i], DebugName(t))
    ensures AddExePathAsWritten(Unlines(ls), t, q) == Unlines(ls)
    ensures !GetPath(AddExePathAsWritten(Unlines(ls), t, q), t).Ok?
    ensures EveryLineSplits(ls) ==> GetPath(AddExePathAsWritten(Unlines(ls), t, q), t) == Err(PathNotFound)
    ensures EveryLineSplits(ls) && NoNewline(q) ==> GetPath(AddExePath(Unlines(ls), t, q), t) == Ok(q)
  {
    AddUnlistedUnchanged(ls, t, q);
    UnlistedUnfound(ls, t);
    if EveryLineSplits(ls) && NoNewline(q) {
      LinesUnlines(ls);
      AddThenGet(Unlines(ls), t, q, t);
    }
  }

  /** With no line containing the debug name, the unfixed add writes back
      the registry it read. */
  lemma AddUnlistedUnchanged(ls: seq<string>, t: GameTitle, q: string)
    requires LinesFree(ls) && HasEntries(ls)
    requires forall i :: 0 <= i < |ls| ==> !Contains(ls[i], DebugName(t))
    ensures AddExePathAsWritten(Unlines(ls), t, q) == Unlines(ls)
  {
    ReplaceNothing(ls, t, q);
    AddAsWrittenEntries(ls, t, q);
    OverwriteSame(Unlines(ls));
  }

  /** On a registry with entries, the unfixed add writes the replaced lines
      over the old text. */
  lemma AddAsWrittenEntries(ls: seq<string>, t: GameTitle, q: string)
    requires LinesFree(ls) && HasEntries(ls)
    ensures AddExePathAsWritten(Unlines(ls), t, q) == Overwrite(Unlines(ls), Unlines(ReplaceContaining(ls, t, q)))
  {
    LinesUnlines(ls);
  }

  /** Replacing the lines that contain the debug name changes nothing when
      none does. */
  lemma ReplaceNothing(ls: seq<string>, t: GameTitle, q: string)
    requires forall i :: 0 <= i < |ls| ==> !Contains(ls[i], DebugName(t))
    ensures ReplaceContaining(ls, t, q) == ls
  {
    var w := ReplaceContaining(ls, t, q);
    forall i | 0 <= i < |ls|
      ensures w[i] == ls[i]
    {
      assert w[i] == ReplacedLine(ls[i], t, q);
    }
  }

  /** Writing a file's own text over it from the start leaves it as it was. */
  lemma OverwriteSame(s: string)
    ensures Overwrite(s, s) == s
  {
    var r := Overwrite(s, s);
    assert r == r[..|s|];
  }

  /** With no line containing the debug name, `get_path` finds no path, and
      on a registry whose every line splits it reports the title unfound. */
  lemma UnlistedUnfound(ls: seq<string>, t: GameTitle)
    requires LinesFree(ls)
    requires forall i :: 0 <= i < |ls| ==> !Contains(ls[i], DebugName(t))
    ensures !GetPath(Unlines(ls), t).Ok?
    ensures EveryLineSplits(ls) ==> GetPath(Unlines(ls), t) == Err(PathNotFound)
  {
    LinesUnlines(ls);
    forall l | l in ls
      ensures !Contains(l, DebugName(t))
    {
      var i :| 0 <= i < |ls| && ls[i] == l;
    }
    UncontainedNotListed(ls, DebugName(t));
    if EveryLineSplits(ls) {
      NotListed(ls, DebugName(t));
      PathFromNotFound(ls, DebugName(t), 1);
    }
  }

  /** The registry recording only Rambo's executable. */
  function RamboRegistry(p: string): string {
    Unlines([EntryLine(Rambo, p)])
  }

  /** Adding Hummer Extreme to the registry listing only Rambo. */
  lemma AddForgetsNewTitle()
    ensures AddExePathAsWritten(RamboRegistry("/r"), HummerExtreme, "/h") == RamboRegistry("/r")
    ensures GetPath(AddExePathAsWritten(RamboRegistry("/r"), HummerExtreme, "/h"), HummerExtreme) == Err(PathNotFound)
    ensures GetPath(AddExePath(RamboRegistry("/r"), HummerExtreme, "/h"), HummerExtreme) == Ok("/h")
  {
    assert |DebugName(Rambo)| == 5 && |DebugName(HummerExtreme)| == 14;
    assert NoNewline("/r") && NoNewline("/h");
    var e := EntryLine(Rambo, "/r");
    ShortNotContains(e, DebugName(HummerExtreme));
    OneEntry(Rambo, "/r");
    assert LinesFree([e]);
    AddForgetsUnlisted([e], HummerExtreme, "/h");
  }

  // ---------------------------------------------------------------------
  // No truncation in `add_exe_path`.

  /** Re-adding a title with a path shorter than its prior one by a character
      and a word `tail`: as written, the file is not truncated and `tail`
      survives as a line of its own, on which `get_path` fails for every
      other title; the corrected writer leaves their lookups as they
      were. */
  lemma AddLeavesTail(t: GameTitle, q: string, c: char, tail: string, u: GameTitle)
    requires NoNewline(q) && c != '\n' && IsToken(tail) && u != t
    ensures GetPath(Unlines([EntryLine(t, q + [c] + tail)]), u) == Err(PathNotFound)
    ensures Lines(AddExePathAsWritten(Unlines([EntryLine(t, q + [c] + tail)]), t, q)) == [EntryLine(t, q), tail]
    ensures GetPath(AddExePathAsWritten(Unlines([EntryLine(t, q + [c] + tail)]), t, q), u) == Err(InvalidArgumentAt(2))
    ensures GetPath(AddExePath(Unlines([EntryLine(t, q + [c] + tail)]), t, q), u) == Err(PathNotFound)
  {
    var prior := q + [c] + tail;
    var e2 := EntryLine(t, q);
    var reg := Unlines([EntryLine(t, prior)]);
    StaleText(t, q, c, tail);
    EntryLineSplits(t, q);
    LinesUnlines([e2, tail]);
    TailLookup(t, q, tail, u);
    OneEntry(t, prior);
    OneEntryPath(t, prior, DebugName(u));
    AddThenGet(reg, t, q, u);
  }

  /** The text `add_exe_path` leaves when it writes a shorter entry over a
      registry of one entry. */
  lemma StaleText(t: GameTitle, q: string, c: char, tail: string)
    requires NoNewline(q) && c != '\n' && IsToken(tail)
    ensures NoNewline(q + [c] + tail) && NoNewline(tail)
    ensures AddExePathAsWritten(Unlines([EntryLine(t, q + [c] + tail)]), t, q) == Unlines([EntryLine(t, q), tail])
  {
    var prior := q + [c] + tail;
    var e1, e2 := EntryLine(t, prior), EntryLine(t, q);
    PriorNoNewline(q, c, tail);
    assert AddExePathAsWritten(Unlines([e1]), t, q) == Overwrite(Unlines([e1]), Unlines([e2])) by {
      EntryContainsPrefix(t, prior, DebugName(t));
      AddAsWrittenOne(t, prior, t, q);
    }
    assert e1 == e2 + [c] + tail;
    OverwriteTail(e2, c, tail);
  }

  lemma PriorNoNewline(q: string, c: char, tail: string)
    requires NoNewline(q) && c != '\n' && IsToken(tail)
    ensures NoNewline(q + [c] + tail) && NoNewline(tail)
  {
    var prior := q + [c] + tail;
    forall i | 0 <= i < |tail| ensures tail[i] != '\n' {
      assert !IsWs(tail[i]);
    }
    forall i | 0 <= i < |prior| ensures prior[i] != '\n' {
      if i < |q| {
        assert prior[i] == q[i];
      } else if i > |q| {
        assert prior[i] == tail[i - |q| - 1];
      }
    }
  }

  /** A line written over a longer one, without truncating, leaves the
      longer line's end as a line of its own. */
  lemma OverwriteTail(e: string, c: char, tail: string)
    ensures Overwrite(Unlines([e + [c] + tail]), Unlines([e])) == Unlines([e, tail])
  {
    var reg := Unlines([e + [c] + tail]);
    var written := Unlines([e]);
    assert [e + [c] + tail][1..] == [] && [e][1..] == [];
    assert Unlines([]) == [];
    assert reg == (e + [c] + tail) + "\n" + [];
    assert reg == e + [c] + tail + "\n";
    assert written == e + "\n";
    assert reg[|written|..] == tail + "\n";
    assert [e, tail][1..] == [tail];
    assert [tail][1..] == [];
    assert Unlines([e, tail]) == e + "\n" + (tail + "\n");
  }

  /** An entry for `t` followed by a line without whitespace: `get_path`
      for any other title fails on the second line. */
  lemma TailLookup(t: GameTitle, q: string, tail: string, u: GameTitle)
    requires IsToken(tail) && u != t
    ensures PathFrom([EntryLine(t, q), tail], DebugName(u), 1) == Err(InvalidArgumentAt(2))
  {
    EntryLineSplits(t, q);
    DebugNameInjective(t, u);
    assert [EntryLine(t, q), tail][1..] == [tail];
    assert ViewOf(EntryLine(t, q), DebugName(u)) == OtherName;
    assert ViewOf(tail, DebugName(u)) == Malformed;
  }

  /** Re-adding Rambo with "/a" over its prior path "/abcd". */
  lemma AddLeavesStaleTail()
    ensures GetPath(RamboRegistry("/abcd"), Hummer) == Err(PathNotFound)
    ensures Lines(AddExePathAsWritten(RamboRegistry("/abcd"), Rambo, "/a")) == [EntryLine(Rambo, "/a"), "cd"]
    ensures GetPath(AddExePathAsWritten(RamboRegistry("/abcd"), Rambo, "/a"), Hummer) == Err(InvalidArgumentAt(2))
    ensures GetPath(AddExePath(RamboRegistry("/abcd"), Rambo, "/a"), Hummer) == Err(PathNotFound)
  {
    assert "/a" + ['b'] + "cd" == "/abcd";
    assert NoNewline("/a") && IsToken("cd");
    AddLeavesTail(Rambo, "/a", 'b', "cd", Hummer);
  }

  // ---------------------------------------------------------------------
  // Substring match in `remove_exe_path`.

  /** Removing a title whose debug name is a prefix of the listed title's:
      as written, the listed entry is dropped; the corrected writer keeps
      it. */
  lemma RemoveDropsPrefixed(u: GameTitle, p: string, t: GameTitle)
    requires NoNewline(p) && u != t && StartsWith(DebugName(u), DebugName(t))
    ensures GetPath(Unlines([EntryLine(u, p)]), u) == Ok(p)
    ensures GetPath(RemoveExePathAsWritten(Unlines([EntryLine(u, p)]), t), u) == Err(PathNotFound)
    ensures GetPath(RemoveExePath(Unlines([EntryLine(u, p)]), t), u) == Ok(p)
  {
    var reg := Unlines([EntryLine(u, p)]);
    OneEntry(u, p);
    OneEntryPath(u, p, DebugName(u));
    EntryContainsPrefix(u, p, DebugName(t));
    assert [EntryLine(u, p)][1..] == [];
    assert DropContaining([EntryLine(u, p)], DebugName(t)) == [];
    RemoveThenGet(reg, t, u);
  }

  /** Removing Hummer from the registry listing only Hummer Extreme. */
  lemma RemoveDropsOtherTitle()
    ensures GetPath(RemoveExePathAsWritten(ExtremeRegistry(), Hummer), HummerExtreme) == Err(PathNotFound)
    ensures GetPath(RemoveExePath(ExtremeRegistry(), Hummer), HummerExtreme) == Ok("/h")
  {
    HummerPrefix();
    assert NoNewline("/h");
    RemoveDropsPrefixed(HummerExtreme, "/h", Hummer);
  }
}
