/**
  The input configuration of a game (`Keymap` in src/config.rs): SDL/X11
  keyboard input, evdev input, or both. The file records which with an
  `INPUT_MODE` line (0 both, 1 SDL/X11, 2 evdev); reading that line reads the
  chosen keymaps from the whole file, starting from their defaults.
*/
module Keymaps {
  import opened Wrappers
  import opened Text
  import opened KeyCodes
  import opened ConfKeys
  import opened ConfLines
  import opened KeyBindings
  import opened SdlKeymaps
  import opened EvdevInputs

  datatype Keymap =
    | Sdl(sdl: SdlKeymap)
    | Evdev(evdev: EvdevInput)
    | Both(sdl: SdlKeymap, evdev: EvdevInput)

  /** `Keymap::default()`: both, each at its default. */
  const DefaultKeymap: Keymap := Both(DefaultSdl, DefaultEvdev)

  /** The `Debug` name the user interface shows. */
  function KeymapName(k: Keymap): (r: string)
    ensures r in {"SDL/X11", "Evdev", "Both"}
  {
    match k
    case Sdl(_) => "SDL/X11"
    case Evdev(_) => "Evdev"
    case Both(_, _) => "Both"
  }

  /** `Keymap::as_i32`: the value of the `INPUT_MODE` line. */
  function ModeNumber(k: Keymap): (n: U32)
    ensures n < 3
  {
    match k
    case Sdl(_) => 1
    case Evdev(_) => 2
    case Both(_, _) => 0
  }

  /** `get_sdlkeymap` / `get_sdlkeymap_mut`. */
  function GetSdl(k: Keymap): Option<SdlKeymap> {
    if k.Evdev? then None else Some(k.sdl)
  }

  /** `get_evdev` / `get_evdev_mut`. */
  function GetEvdev(k: Keymap): Option<EvdevInput> {
    if k.Sdl? then None else Some(k.evdev)
  }

  /** `into_both`: the missing part comes in at its default. */
  function IntoBoth(k: Keymap): Keymap {
    match k
    case Sdl(s) => Both(s, DefaultEvdev)
    case Evdev(e) => Both(DefaultSdl, e)
    case Both(_, _) => k
  }

  /** `into_sdl`: an evdev-only keymap is replaced by the default SDL one. */
  function IntoSdl(k: Keymap): Keymap {
    match k
    case Sdl(_) => k
    case Evdev(_) => Sdl(DefaultSdl)
    case Both(s, _) => Sdl(s)
  }

  /** `into_evdev`: an SDL-only keymap is replaced by the default evdev one. */
  function IntoEvdev(k: Keymap): Keymap {
    match k
    case Sdl(_) => Evdev(DefaultEvdev)
    case Evdev(_) => k
    case Both(_, e) => Evdev(e)
  }

  predicate HasBoth(k: Keymap) {
    k.Both?
  }

  predicate HasSdl(k: Keymap) {
    k.Sdl? || HasBoth(k)
  }

  predicate HasEvdev(k: Keymap) {
    k.Evdev? || HasBoth(k)
  }

  // ---------------------------------------------------------------------
  // Properties of the accessors and conversions.

  /** The getters answer exactly for the parts the keymap has, and a keymap
      always has at least one part. */
  lemma GettersMatchHas(k: Keymap)
    ensures GetSdl(k).Some? <==> HasSdl(k)
    ensures GetEvdev(k).Some? <==> HasEvdev(k)
    ensures HasBoth(k) <==> HasSdl(k) && HasEvdev(k)
    ensures HasSdl(k) || HasEvdev(k)
  {
  }

  /** The conversions keep the parts that the target has and bring in
      defaults for the others. */
  lemma IntoKeepsParts(k: Keymap)
    ensures HasBoth(IntoBoth(k))
    ensures GetSdl(IntoBoth(k)) == Some(if HasSdl(k) then k.sdl else DefaultSdl)
    ensures GetEvdev(IntoBoth(k)) == Some(if HasEvdev(k) then k.evdev else DefaultEvdev)
    ensures HasSdl(IntoSdl(k)) && !HasEvdev(IntoSdl(k))
    ensures GetSdl(IntoSdl(k)) == Some(if HasSdl(k) then k.sdl else DefaultSdl)
    ensures HasEvdev(IntoEvdev(k)) && !HasSdl(IntoEvdev(k))
    ensures GetEvdev(IntoEvdev(k)) == Some(if HasEvdev(k) then k.evdev else DefaultEvdev)
  {
  }

  /** Each conversion is idempotent, leaves a keymap already of its kind
      alone, and passing through `into_both` first changes nothing. */
  lemma IntoIdempotent(k: Keymap)
    ensures IntoBoth(IntoBoth(k)) == IntoBoth(k)
    ensures IntoSdl(IntoSdl(k)) == IntoSdl(k)
    ensures IntoEvdev(IntoEvdev(k)) == IntoEvdev(k)
    ensures HasBoth(k) ==> IntoBoth(k) == k
    ensures k.Sdl? ==> IntoSdl(k) == k
    ensures k.Evdev? ==> IntoEvdev(k) == k
    ensures IntoSdl(IntoBoth(k)) == IntoSdl(k)
    ensures IntoEvdev(IntoBoth(k)) == IntoEvdev(k)
  {
  }

  // ---------------------------------------------------------------------
  // Reading.

  /** Makes the outcome of a nested read a result, as `?` does. */
  function OutcomeResult<S>(o: Outcome<S>): (r: Result<S, ReadError>)
    ensures r.Ok? <==> o.error.None?
    ensures r.Ok? ==> r.value == o.state
    ensures r.Err? ==> r.error == o.error.value
  {
    if o.error.Some? then Err(o.error.value) else Ok(o.state)
  }

  /** What an `INPUT_MODE` line selects: the keymaps it names, each read from
      the whole file starting at its default, or an invalid mode. */
  function ModeRead(mode: U32, buf: seq<string>): Result<Keymap, ReadError> {
    if mode == 0 then
      var s :- OutcomeResult(ReadSdl(DefaultSdl, buf));
      var e :- OutcomeResult(ReadEvdev(DefaultEvdev, buf));
      Ok(Both(s, e))
    else if mode == 1 then
      var s :- OutcomeResult(ReadSdl(DefaultSdl, buf));
      Ok(Sdl(s))
    else if mode == 2 then
      var e :- OutcomeResult(ReadEvdev(DefaultEvdev, buf));
      Ok(Evdev(e))
    else Err(InvalidInputMode)
  }

  /** The keymap reader's handling of one line of `buf`
      (`Keymap::read_from_lindbergh_conf`). */
  function KeymapStep(buf: seq<string>): Step<Keymap> {
    (k: Keymap, key: string, value: string, rest: seq<string>, line: nat) =>
      if key != InputModeKey then Ok(k)
      else
        var mode :- U32Arg(value);
        ModeRead(mode, buf)
  }

  /** Reads the keymap of a configuration file into `k`. */
  function ReadKeymap(k: Keymap, buf: seq<string>): Outcome<Keymap> {
    Scan(KeymapStep(buf), k, buf, 1)
  }

  /** The mode number selects the keymap's own kind. */
  lemma ModeReadKind(k: Keymap, buf: seq<string>)
    ensures ModeRead(ModeNumber(k), buf).Ok? ==>
      (ModeRead(ModeNumber(k), buf).value.Sdl? <==> k.Sdl?) &&
      (ModeRead(ModeNumber(k), buf).value.Evdev? <==> k.Evdev?) &&
      (ModeRead(ModeNumber(k), buf).value.Both? <==> k.Both?)
    ensures forall n: U32 :: n >= 3 ==> ModeRead(n, buf) == Err(InvalidInputMode)
  {
  }

  /** The `INPUT_MODE` line for a mode number. */
  function ModeLine(n: U32): string {
    KeyLine(InputModeKey, [ShowNat(n)])
  }

  /** Any line but an `INPUT_MODE` line that is not a comment has at least
      two tokens. */
  predicate NotModeLine(line: string) {
    Classify(line).Skip? || (Classify(line).Entry? && Classify(line).key != InputModeKey)
  }

  lemma NotModeLineIgnored(buf: seq<string>, line: string)
    requires NotModeLine(line)
    ensures Ignores(KeymapStep(buf), line)
  {
  }

  /** With a single `INPUT_MODE` line in the file, the keymap read is what
      that line selects, and a failed selection leaves the keymap alone. */
  lemma ReadKeymapMode(k0: Keymap, buf: seq<string>, i: nat, n: U32)
    requires i < |buf| && buf[i] == ModeLine(n)
    requires forall j :: 0 <= j < |buf| && j != i ==> NotModeLine(buf[j])
    ensures ReadKeymap(k0, buf) ==
      match ModeRead(n, buf)
      case Ok(k) => Outcome(k, None)
      case Err(e) => Outcome(k0, Some(e))
  {
    var step := KeymapStep(buf);
    var before, after := buf[..i], buf[i + 1..];
    assert buf == before + ([buf[i]] + after);
    forall j | 0 <= j < |before| ensures Ignores(step, before[j]) {
      NotModeLineIgnored(buf, buf[j]);
    }
    forall j | 0 <= j < |after| ensures Ignores(step, after[j]) {
      assert after[j] == buf[i + 1 + j];
      NotModeLineIgnored(buf, buf[i + 1 + j]);
    }
    ScanAppend(step, k0, before, [buf[i]] + after, 1);
    ScanIgnored(step, k0, before, 1);
    InputModeKeyToken();
    ShowNatIsToken(n);
    ClassifyKeyLine(InputModeKey, [ShowNat(n)]);
    ParseU32Show(n);
    ScanAppend(step, k0, [buf[i]], after, 1 + |before|);
    match ModeRead(n, buf)
    case Ok(k) => ScanIgnored(step, k, after, 2 + |before|);
    case Err(_) =>
  }

  // ---------------------------------------------------------------------
  // Writing.

  /** `Keymap::write_to_lindbergh_conf`: SDL/X11 lines, then evdev lines. */
  function WriteKeymap(k: Keymap): Written {
    match k
    case Sdl(s) => WriteSdl(s)
    case Evdev(e) => WriteEvdev(e)
    case Both(s, e) =>
      var a := WriteSdl(s);
      if a.error.Some? then a
      else
        var b := WriteEvdev(e);
        Written(a.lines + b.lines, b.error)
  }

  /** Every part the keymap has is writable. */
  predicate KeymapWritable(k: Keymap) {
    && (HasSdl(k) ==> Storable(k.sdl))
    && (HasEvdev(k) ==> EvdevWritable(k.evdev))
  }

  lemma WriteKeymapSucceeds(k: Keymap)
    ensures WriteKeymap(k).error.None? <==> KeymapWritable(k)
  {
    if HasSdl(k) { WriteSdlSucceeds(k.sdl); }
    if HasEvdev(k) { WriteEvdevSucceeds(k.evdev); }
  }

  /** The lines of a keymap part are passed over by the other part's reader
      and by the keymap reader. */
  lemma SdlLinesForeign(m: SdlKeymap, j: nat)
    requires j < |WriteSdl(m).lines|
    ensures Ignores(EvdevStep, WriteSdl(m).lines[j])
    ensures NotModeLine(WriteSdl(m).lines[j])
  {
    SdlLineAt(m, j);
    var x := SdlOrder[j];
    EvdevSlotOfIgnoresSdl(x);
    SdlSlotOfKey(x);
    SdlSlotOfIgnoresInputMode();
  }

  lemma EvdevLinesForeign(e: EvdevInput, j: nat)
    requires j < |WriteEvdev(e).lines| && EvdevWords(e)
    ensures Ignores(SdlStep, WriteEvdev(e).lines[j])
    ensures NotModeLine(WriteEvdev(e).lines[j])
  {
    WriteEachLine(EvdevKey, EvdevRenderer(e), EvdevOrder, j);
    var y := EvdevOrder[j];
    EvdevLineReadsBack(e, y, DefaultEvdev, 0);
    var args := EvdevRenderer(e)(y).value;
    EvdevKeyToken(y);
    ClassifyKeyLine(EvdevKey(y), args);
    SdlSlotOfIgnoresEvdev(y);
    SdlIgnoresForeign(EvdevKey(y), args);
    EvdevSlotOfKey(y);
    EvdevSlotOfIgnoresInputMode();
  }

  // ---------------------------------------------------------------------
  // Reading back what was written.

  /** A line every keymap reader passes over. */
  ghost predicate KeymapForeign(line: string) {
    NotModeLine(line) && Ignores(SdlStep, line) && Ignores(EvdevStep, line)
  }

  /** Every input name of the evdev part is one word. */
  ghost predicate KeymapWords(k: Keymap) {
    HasEvdev(k) ==> EvdevWords(k.evdev)
  }

  lemma SdlLinesNoNewline(m: SdlKeymap)
    requires Storable(m)
    ensures LinesFree(WriteSdl(m).lines)
  {
    SdlLinesWellFormed(m);
    WriteEachNoNewline(SdlKey, SdlRenderer(m), SdlOrder);
  }

  lemma EvdevLinesNoNewline(e: EvdevInput)
    requires EvdevWritable(e) && EvdevWords(e)
    ensures LinesFree(WriteEvdev(e).lines)
  {
    EvdevLinesWellFormed(e);
    WriteEachNoNewline(EvdevKey, EvdevRenderer(e), EvdevOrder);
  }

  /** Every line a writable keymap writes is one line of the file. */
  lemma KeymapLinesNoNewline(k: Keymap)
    requires KeymapWritable(k) && KeymapWords(k)
    ensures LinesFree(WriteKeymap(k).lines)
  {
    match k
    case Sdl(s) => SdlLinesNoNewline(s);
    case Evdev(e) => EvdevLinesNoNewline(e);
    case Both(s, e) =>
      SdlLinesNoNewline(s);
      EvdevLinesNoNewline(e);
      WriteSdlSucceeds(s);
      LinesFreeConcat(WriteSdl(s).lines, WriteEvdev(e).lines);
  }

  /** What reading back a written keymap gives: each part as its reader
      reads it back into the part's default. */
  function KeymapReadBack(k: Keymap): Keymap
    requires KeymapWritable(k)
  {
    match k
    case Sdl(s) => Sdl(SdlReadBack(DefaultSdl, s))
    case Evdev(e) => Evdev(EvdevReadBack(DefaultEvdev, e))
    case Both(s, e) => Both(SdlReadBack(DefaultSdl, s), EvdevReadBack(DefaultEvdev, e))
  }

  lemma ModeLineForeign(n: U32)
    ensures Ignores(SdlStep, ModeLine(n)) && Ignores(EvdevStep, ModeLine(n))
  {
    InputModeKeyToken();
    ShowNatIsToken(n);
    SdlSlotOfIgnoresInputMode();
    EvdevSlotOfIgnoresInputMode();
    SdlIgnoresForeign(InputModeKey, [ShowNat(n)]);
    EvdevIgnoresForeign(InputModeKey, [ShowNat(n)]);
  }

  lemma KeymapLinesNotMode(k: Keymap, j: nat)
    requires KeymapWritable(k) && KeymapWords(k)
    requires j < |WriteKeymap(k).lines|
    ensures NotModeLine(WriteKeymap(k).lines[j])
  {
    match k
    case Sdl(s) => SdlLinesForeign(s, j);
    case Evdev(e) => EvdevLinesForeign(e, j);
    case Both(s, e) =>
      var a := WriteSdl(s).lines;
      if j < |a| {
        SdlLinesForeign(s, j);
      } else {
        EvdevLinesForeign(e, j - |a|);
      }
  }

  /** The SDL reader passes over every evdev line. */
  lemma EvdevLinesPassedBySdl(e: EvdevInput, s0: SdlKeymap, first: nat)
    requires EvdevWords(e)
    ensures Scan(SdlStep, s0, WriteEvdev(e).lines, first) == Outcome(s0, None)
  {
    var b := WriteEvdev(e).lines;
    forall j | 0 <= j < |b| ensures Ignores(SdlStep, b[j]) {
      EvdevLinesForeign(e, j);
    }
    ScanIgnored(SdlStep, s0, b, first);
  }

  /** The evdev reader passes over every SDL line. */
  lemma SdlLinesPassedByEvdev(s: SdlKeymap, e0: EvdevInput, first: nat)
    ensures Scan(EvdevStep, e0, WriteSdl(s).lines, first) == Outcome(e0, None)
  {
    var a := WriteSdl(s).lines;
    forall j | 0 <= j < |a| ensures Ignores(EvdevStep, a[j]) {
      SdlLinesForeign(s, j);
    }
    ScanIgnored(EvdevStep, e0, a, first);
  }

  /** In a file of both parts' lines, the SDL reader reads its own part and
      passes over the evdev part. */
  lemma SdlReadsBothLines(s: SdlKeymap, e: EvdevInput, first: nat)
    requires Storable(s) && EvdevWords(e)
    ensures Scan(SdlStep, DefaultSdl, WriteSdl(s).lines + WriteEvdev(e).lines, first)
         == Outcome(SdlReadBack(DefaultSdl, s), None)
  {
    var a, b := WriteSdl(s).lines, WriteEvdev(e).lines;
    var r := SdlReadBack(DefaultSdl, s);
    assert Scan(SdlStep, DefaultSdl, a, first) == Outcome(r, None) by {
      SdlRoundTrip(DefaultSdl, s, first);
    }
    assert Scan(SdlStep, r, b, first + |a|) == Outcome(r, None) by {
      EvdevLinesPassedBySdl(e, r, first + |a|);
    }
    ScanAppend(SdlStep, DefaultSdl, a, b, first);
  }

  /** In a file of both parts' lines, the evdev reader passes over the SDL
      part and reads its own. */
  lemma EvdevReadsBothLines(s: SdlKeymap, e: EvdevInput, first: nat)
    requires WriteEvdev(e).error.None? && EvdevWords(e)
    ensures Scan(EvdevStep, DefaultEvdev, WriteSdl(s).lines + WriteEvdev(e).lines, first)
         == Outcome(EvdevReadBack(DefaultEvdev, e), None)
  {
    var a, b := WriteSdl(s).lines, WriteEvdev(e).lines;
    assert Scan(EvdevStep, DefaultEvdev, a, first) == Outcome(DefaultEvdev, None) by {
      SdlLinesPassedByEvdev(s, DefaultEvdev, first);
    }
    assert Scan(EvdevStep, DefaultEvdev, a + b, first) == Scan(EvdevStep, DefaultEvdev, b, first + |a|) by {
      ScanAppend(EvdevStep, DefaultEvdev, a, b, first);
    }
    EvdevRoundTrip(DefaultEvdev, e, first + |a|);
  }

  /** The SDL reader, run over a file that ends with the keymap's lines,
      reads back the SDL part. */
  lemma SdlPartReadBack(k: Keymap, pre: seq<string>)
    requires WriteKeymap(k).error.None? && KeymapWords(k) && HasSdl(k)
    requires forall j :: 0 <= j < |pre| ==> Ignores(SdlStep, pre[j])
    ensures k.sdl.test.Some? && k.sdl.coin.Some?
    ensures ReadSdl(DefaultSdl, pre + WriteKeymap(k).lines) == Outcome(SdlReadBack(DefaultSdl, k.sdl), None)
  {
    assert WriteSdl(k.sdl).error.None?;
    WriteSdlSucceeds(k.sdl);
    var lines := WriteKeymap(k).lines;
    assert Scan(SdlStep, DefaultSdl, lines, 1 + |pre|) == Outcome(SdlReadBack(DefaultSdl, k.sdl), None) by {
      if k.Sdl? {
        SdlRoundTrip(DefaultSdl, k.sdl, 1 + |pre|);
      } else {
        SdlReadsBothLines(k.sdl, k.evdev, 1 + |pre|);
      }
    }
    ScanIgnoredPrefix(SdlStep, DefaultSdl, pre, lines, 1);
  }

  /** The evdev reader, run over a file that ends with the keymap's lines,
      reads back the evdev part. */
  lemma EvdevPartReadBack(k: Keymap, pre: seq<string>)
    requires WriteKeymap(k).error.None? && KeymapWords(k) && HasEvdev(k)
    requires forall j :: 0 <= j < |pre| ==> Ignores(EvdevStep, pre[j])
    ensures ReadEvdev(DefaultEvdev, pre + WriteKeymap(k).lines) == Outcome(EvdevReadBack(DefaultEvdev, k.evdev), None)
  {
    assert WriteEvdev(k.evdev).error.None?;
    var lines := WriteKeymap(k).lines;
    assert Scan(EvdevStep, DefaultEvdev, lines, 1 + |pre|) == Outcome(EvdevReadBack(DefaultEvdev, k.evdev), None) by {
      if k.Evdev? {
        EvdevRoundTrip(DefaultEvdev, k.evdev, 1 + |pre|);
      } else {
        EvdevReadsBothLines(k.sdl, k.evdev, 1 + |pre|);
      }
    }
    ScanIgnoredPrefix(EvdevStep, DefaultEvdev, pre, lines, 1);
  }

  lemma KeymapLinesNotModeAll(k: Keymap, pre: seq<string>, i: nat)
    requires i < |pre|
    requires forall j :: 0 <= j < |pre| && j != i ==> KeymapForeign(pre[j])
    requires KeymapWritable(k) && KeymapWords(k)
    ensures forall j :: 0 <= j < |pre + WriteKeymap(k).lines| && j != i ==> NotModeLine((pre + WriteKeymap(k).lines)[j])
  {
    var buf := pre + WriteKeymap(k).lines;
    forall j | 0 <= j < |buf| && j != i ensures NotModeLine(buf[j]) {
      if j >= |pre| {
        KeymapLinesNotMode(k, j - |pre|);
      }
    }
  }

  /** A file holding the keymap's `INPUT_MODE` line among lines no keymap
      reader looks at, followed by the keymap's lines, reads back as the
      keymap: each part as its reader reads it back into the part's
      default, whatever keymap it is read into. */
  lemma KeymapRoundTrip(k0: Keymap, k: Keymap, pre: seq<string>, i: nat)
    requires i < |pre| && pre[i] == ModeLine(ModeNumber(k))
    requires forall j :: 0 <= j < |pre| && j != i ==> KeymapForeign(pre[j])
    requires KeymapWritable(k) && KeymapWords(k)
    ensures ReadKeymap(k0, pre + WriteKeymap(k).lines) == Outcome(KeymapReadBack(k), None)
  {
    WriteKeymapSucceeds(k);
    var buf := pre + WriteKeymap(k).lines;
    KeymapLinesNotModeAll(k, pre, i);
    ReadKeymapMode(k0, buf, i, ModeNumber(k));
    ModeLineForeign(ModeNumber(k));
    forall j | 0 <= j < |pre| ensures Ignores(SdlStep, pre[j]) && Ignores(EvdevStep, pre[j]) {
    }
    if HasSdl(k) {
      SdlPartReadBack(k, pre);
    }
    if HasEvdev(k) {
      EvdevPartReadBack(k, pre);
    }
  }
}
