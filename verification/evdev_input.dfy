/**
  The evdev input configuration (`_EvdevInput` in src/config.rs): two
  players' controls bound to evdev input names, four analogue axis names and
  eight analogue deadzones of three numbers each.
*/
module EvdevInputs {
  import opened Wrappers
  import opened Text
  import opened ConfKeys
  import opened ConfLines
  import opened KeyBindings

  type EvdevKeymap = Bindings<string>

  /** `(u32, u32, u32)`: the three numbers of an analogue deadzone. */
  type Deadzone = (U32, U32, U32)

  /** `[String; 4]` and `[(u32, u32, u32); 8]`. */
  type Analogues = s: seq<string> | |s| == 4 witness ["", "", "", ""]
  type Deadzones = s: seq<Deadzone> | |s| == 8
    witness [(0, 0, 0), (0, 0, 0), (0, 0, 0), (0, 0, 0), (0, 0, 0), (0, 0, 0), (0, 0, 0), (0, 0, 0)]

  datatype EvdevInput = EvdevInput(
    player1: EvdevKeymap, player2: EvdevKeymap,
    analogues: Analogues, deadzones: Deadzones)

  const KeyboardKey: string := "AT_TRANSLATED_SET_2_KEYBOARD_KEY_"

  /** `EvdevKeymap::default()`: keyboard keys through the AT keyboard
      device; test and start on key 1, service on S, no coin, the arrows,
      buttons Q W R T and Y U I O. */
  const DefaultEvdevKeymap: EvdevKeymap := Bindings(
    Some(KeyboardKey + "1"), KeyboardKey + "S", KeyboardKey + "1", None,
    KeyboardKey + "UP", KeyboardKey + "DOWN", KeyboardKey + "LEFT", KeyboardKey + "RIGHT",
    KeyboardKey + "Q", KeyboardKey + "W", KeyboardKey + "R", KeyboardKey + "T",
    Some(KeyboardKey + "Y"), Some(KeyboardKey + "U"), Some(KeyboardKey + "I"), Some(KeyboardKey + "O"))

  const TouchpadAxis: string := "SYNPS_2_SYNAPTICS_TOUCHPAD_ABS_"

  /** `_EvdevInput::default()`: both players on the default keymap, the
      touchpad's X, Y, Z and RZ axes, all deadzones zero. */
  const DefaultEvdev: EvdevInput := EvdevInput(
    DefaultEvdevKeymap, DefaultEvdevKeymap,
    [TouchpadAxis + "X", TouchpadAxis + "Y", TouchpadAxis + "Z", TouchpadAxis + "RZ"],
    [(0, 0, 0), (0, 0, 0), (0, 0, 0), (0, 0, 0), (0, 0, 0), (0, 0, 0), (0, 0, 0), (0, 0, 0)])

  // ---------------------------------------------------------------------
  // The slots as fields of the configuration.

  /** What a line carries: an input name, or a deadzone. */
  datatype EvdevValue = Name(name: string) | Zone(zone: Deadzone)

  /** What a slot currently holds. Player 1's test control stands for the
      `TEST_BUTTON` line; player 2's test control and both coin controls
      have no line. */
  function EvdevGet(e: EvdevInput, y: EvdevSlot): Option<EvdevValue> {
    match y
    case TestButton => if e.player1.test.Some? then Some(Name(e.player1.test.value)) else None
    case Player1(c) =>
      var v := Get(e.player1, ControlField(c));
      if v.Some? then Some(Name(v.value)) else None
    case Player2(c) =>
      var v := Get(e.player2, ControlField(c));
      if v.Some? then Some(Name(v.value)) else None
    case Analogue(a) => Some(Name(e.analogues[a]))
    case Deadzone(d) => Some(Zone(e.deadzones[d]))
  }

  /** The parts of the configuration no line assigns. */
  function Unread(e: EvdevInput): (Option<string>, Option<string>, Option<string>) {
    (e.player1.coin, e.player2.test, e.player2.coin)
  }

  /** Whether a value is of the kind a slot holds. */
  predicate Fits(y: EvdevSlot, v: EvdevValue) {
    if y.Deadzone? then v.Zone? else v.Name?
  }

  /** The reader's assignment of a value to a slot. */
  function EvdevPut(e: EvdevInput, y: EvdevSlot, v: EvdevValue): (r: EvdevInput)
    requires Fits(y, v)
    ensures EvdevGet(r, y) == Some(v)
    ensures forall z :: z != y ==> EvdevGet(r, z) == EvdevGet(e, z)
    ensures Unread(r) == Unread(e)
  {
    match y
    case TestButton => e.(player1 := Set(e.player1, TestField, v.name))
    case Player1(c) => e.(player1 := Set(e.player1, ControlField(c), v.name))
    case Player2(c) => e.(player2 := Set(e.player2, ControlField(c), v.name))
    case Analogue(a) => e.(analogues := e.analogues[a := v.name])
    case Deadzone(d) => e.(deadzones := e.deadzones[d := v.zone])
  }

  /** Two configurations that agree on every slot and on the unread parts
      are the same. */
  lemma EvdevExtensionality(a: EvdevInput, b: EvdevInput)
    requires forall y :: EvdevGet(a, y) == EvdevGet(b, y)
    requires Unread(a) == Unread(b)
    ensures a == b
  {
    forall f ensures Get(a.player1, f) == Get(b.player1, f) {
      match f
      case TestField => assert EvdevGet(a, TestButton) == EvdevGet(b, TestButton);
      case CoinField =>
      case ControlField(c) => assert EvdevGet(a, Player1(c)) == EvdevGet(b, Player1(c));
    }
    forall f ensures Get(a.player2, f) == Get(b.player2, f) {
      match f
      case TestField =>
      case CoinField =>
      case ControlField(c) => assert EvdevGet(a, Player2(c)) == EvdevGet(b, Player2(c));
    }
    Extensionality(a.player1, b.player1);
    Extensionality(a.player2, b.player2);
    forall i | 0 <= i < 4 ensures a.analogues[i] == b.analogues[i] {
      assert EvdevGet(a, Analogue(i)) == EvdevGet(b, Analogue(i));
    }
    forall i | 0 <= i < 8 ensures a.deadzones[i] == b.deadzones[i] {
      assert EvdevGet(a, Deadzone(i)) == EvdevGet(b, Deadzone(i));
    }
  }

  // ---------------------------------------------------------------------
  // Reading.

  /** The evdev reader's handling of one line
      (`_EvdevInput::read_from_lindbergh_conf`): a deadzone line needs three
      numbers, every other slot takes its value as it stands. */
  function EvdevStep(e: EvdevInput, key: string, value: string, rest: seq<string>, line: nat): Result<EvdevInput, ReadError> {
    match EvdevSlotOf(key)
    case None => Ok(e)
    case Some(y) =>
      if y.Deadzone? then
        if |rest| < 2 then Err(TooFewArguments(line))
        else
          var a :- U32Arg(value);
          var b :- U32Arg(rest[0]);
          var c :- U32Arg(rest[1]);
          Ok(EvdevPut(e, y, Zone((a, b, c))))
      else Ok(EvdevPut(e, y, Name(value)))
  }

  /** Reads evdev input from the lines of a configuration file into `e`. */
  function ReadEvdev(e: EvdevInput, lines: seq<string>): Outcome<EvdevInput> {
    Scan(EvdevStep, e, lines, 1)
  }

  // ---------------------------------------------------------------------
  // Writing.

  function ControlAt(i: nat): (c: Control)
    requires i < 14
    ensures ControlIndex(c) == i
  {
    [Start, Service, Up, Down, Left, Right, Button1, Button2,
     Button3, Button4, Button5, Button6, Button7, Button8][i]
  }

  /** The slot written at position `i`: the test button, player 1's
      controls, player 2's controls, the analogues, the deadzones. */
  function EvdevAt(i: nat): (y: EvdevSlot)
    requires i < 41
    ensures EvdevIndex(y) == i
  {
    if i == 0 then TestButton
    else if i < 15 then Player1(ControlAt(i - 1))
    else if i < 29 then Player2(ControlAt(i - 15))
    else if i < 33 then Analogue(i - 29)
    else Deadzone(i - 33)
  }

  /** The order the evdev writer emits its lines in. */
  const EvdevOrder: seq<EvdevSlot> := seq(41, i requires 0 <= i < 41 => EvdevAt(i))

  lemma ControlAtIndex(c: Control)
    ensures ControlIndex(c) < 14 && ControlAt(ControlIndex(c)) == c
  {
  }

  /** Every slot is written, at its index. */
  lemma EvdevOrderIndex(y: EvdevSlot)
    ensures EvdevIndex(y) < |EvdevOrder| && EvdevOrder[EvdevIndex(y)] == y
  {
    match y
    case Player1(c) => ControlAtIndex(c);
    case Player2(c) => ControlAtIndex(c);
    case _ =>
  }

  /** The test input the writer emits: player 1's, or else player 2's. */
  function WrittenTest(e: EvdevInput): Option<string> {
    if e.player1.test.Some? then e.player1.test else e.player2.test
  }

  /** A line's arguments: the input name, or the three deadzone numbers. */
  function EvdevRender(e: EvdevInput, y: EvdevSlot): Result<seq<string>, WriteError> {
    match y
    case TestButton =>
      if WrittenTest(e).Some? then Ok([WrittenTest(e).value]) else Err(NoEvdevTestKey)
    case Deadzone(d) =>
      var z := e.deadzones[d];
      Ok([ShowNat(z.0), ShowNat(z.1), ShowNat(z.2)])
    case _ =>
      match EvdevGet(e, y)
      case Some(v) => Ok([v.name])
      case None => Err(MissingButton)
  }

  function EvdevRenderer(e: EvdevInput): EvdevSlot -> Result<seq<string>, WriteError> {
    y => EvdevRender(e, y)
  }

  /** `_EvdevInput::write_to_lindbergh_conf`: nothing is written unless a
      test input is bound; buttons 5 to 8 are unwrapped, so an unbound one
      stops the writer (a panic in the source). */
  function WriteEvdev(e: EvdevInput): Written {
    if e.player1.test.None? && e.player2.test.None? then Written([], Some(NoEvdevTestKey))
    else WriteEach(EvdevKey, EvdevRenderer(e), EvdevOrder)
  }

  // ---------------------------------------------------------------------
  // Writing succeeds exactly for a writable configuration.

  /** A test input is bound for some player, and both players' buttons 5
      to 8 are bound. */
  predicate EvdevWritable(e: EvdevInput) {
    && WrittenTest(e).Some?
    && e.player1.button5.Some? && e.player1.button6.Some? && e.player1.button7.Some? && e.player1.button8.Some?
    && e.player2.button5.Some? && e.player2.button6.Some? && e.player2.button7.Some? && e.player2.button8.Some?
  }

  lemma EvdevRenderAll(e: EvdevInput)
    requires WrittenTest(e).Some?
    ensures WriteEvdev(e).error.None? <==> forall i :: 0 <= i < |EvdevOrder| ==> EvdevRenderer(e)(EvdevOrder[i]).Ok?
  {
    WriteEachSucceeds(EvdevKey, EvdevRenderer(e), EvdevOrder);
  }

  lemma EvdevWritableRenders(e: EvdevInput, y: EvdevSlot)
    requires EvdevWritable(e)
    ensures EvdevRenderer(e)(y).Ok?
  {
  }

  lemma EvdevRendersWritable(e: EvdevInput)
    requires WrittenTest(e).Some?
    requires forall i :: 0 <= i < |EvdevOrder| ==> EvdevRenderer(e)(EvdevOrder[i]).Ok?
    ensures EvdevWritable(e)
  {
    forall c | c in {Button5, Button6, Button7, Button8}
      ensures Get(e.player1, ControlField(c)).Some? && Get(e.player2, ControlField(c)).Some?
    {
      EvdevOrderIndex(Player1(c));
      EvdevOrderIndex(Player2(c));
    }
    assert Get(e.player1, ControlField(Button5)).Some?;
    assert Get(e.player1, ControlField(Button6)).Some?;
    assert Get(e.player1, ControlField(Button7)).Some?;
    assert Get(e.player1, ControlField(Button8)).Some?;
    assert Get(e.player2, ControlField(Button5)).Some?;
    assert Get(e.player2, ControlField(Button6)).Some?;
    assert Get(e.player2, ControlField(Button7)).Some?;
    assert Get(e.player2, ControlField(Button8)).Some?;
  }

  /** The writer reports no error exactly when the configuration is
      writable; without any test input it writes nothing. */
  lemma WriteEvdevSucceeds(e: EvdevInput)
    ensures WriteEvdev(e).error.None? <==> EvdevWritable(e)
    ensures WrittenTest(e).None? ==> WriteEvdev(e) == Written([], Some(NoEvdevTestKey))
  {
    if WrittenTest(e).Some? {
      EvdevRenderAll(e);
      if WriteEvdev(e).error.None? {
        EvdevRendersWritable(e);
      }
      if EvdevWritable(e) {
        forall i | 0 <= i < |EvdevOrder| ensures EvdevRenderer(e)(EvdevOrder[i]).Ok? {
          EvdevWritableRenders(e, EvdevOrder[i]);
        }
      }
    }
  }

  // ---------------------------------------------------------------------
  // Reading back what was written.

  /** The value the line of a slot carries. */
  function EvdevTarget(e: EvdevInput, y: EvdevSlot): (v: EvdevValue)
    ensures Fits(y, v)
  {
    match y
    case TestButton => Name(if WrittenTest(e).Some? then WrittenTest(e).value else "")
    case Deadzone(d) => Zone(e.deadzones[d])
    case _ => Name(if EvdevGet(e, y).Some? then EvdevGet(e, y).value.name else "")
  }

  /** The reader's effect on the line written for a slot. */
  function EvdevAssign(e: EvdevInput): (EvdevInput, EvdevSlot) -> EvdevInput {
    (t, y) => EvdevPut(t, y, EvdevTarget(e, y))
  }

  /** Every input name the writer emits is one whitespace-free word, so it
      reads back as the line's value. */
  ghost predicate EvdevWords(e: EvdevInput) {
    forall y :: EvdevTarget(e, y).Name? ==> IsToken(EvdevTarget(e, y).name)
  }

  /** The line written for a slot reads back as the slot's value. */
  lemma EvdevLineReadsBack(e: EvdevInput, y: EvdevSlot, t: EvdevInput, n: nat)
    requires EvdevRender(e, y).Ok? && EvdevWords(e)
    ensures |EvdevRender(e, y).value| > 0 && AllTokens(EvdevRender(e, y).value)
    ensures EvdevStep(t, EvdevKey(y), EvdevRender(e, y).value[0], EvdevRender(e, y).value[1..], n)
         == Ok(EvdevAssign(e)(t, y))
  {
    EvdevSlotOfKey(y);
    if !y.Deadzone? {
      assert IsToken(EvdevTarget(e, y).name);
    } else {
      var z := e.deadzones[y.d];
      ShowNatIsToken(z.0);
      ShowNatIsToken(z.1);
      ShowNatIsToken(z.2);
      ParseU32Show(z.0);
      ParseU32Show(z.1);
      ParseU32Show(z.2);
    }
  }

  /** After reading the lines of `xs`, a listed slot holds its written value
      and every other slot, and the unread parts, what they held before. */
  lemma {:induction false} EvdevFoldGet(s: EvdevInput, e: EvdevInput, xs: seq<EvdevSlot>, y: EvdevSlot)
    ensures EvdevGet(Fold(EvdevAssign(e), s, xs), y) == if y in xs then Some(EvdevTarget(e, y)) else EvdevGet(s, y)
    ensures Unread(Fold(EvdevAssign(e), s, xs)) == Unread(s)
    decreases |xs|
  {
    if |xs| > 0 {
      EvdevFoldGet(EvdevAssign(e)(s, xs[0]), e, xs[1..], y);
      assert y in xs <==> y == xs[0] || y in xs[1..];
    }
  }

  /** What reading the written lines into `s` gives: every slot holds what
      was written, player 1's test input becomes the one written, and player
      2's test input and both coin inputs keep what they held in `s`. */
  function EvdevReadBack(s: EvdevInput, e: EvdevInput): EvdevInput {
    e.(player1 := e.player1.(test := WrittenTest(e), coin := s.player1.coin),
       player2 := e.player2.(test := s.player2.test, coin := s.player2.coin))
  }

  lemma EvdevReadBackGet(s: EvdevInput, e: EvdevInput, y: EvdevSlot)
    requires EvdevWritable(e)
    ensures EvdevGet(EvdevReadBack(s, e), y) == Some(EvdevTarget(e, y))
    ensures Unread(EvdevReadBack(s, e)) == Unread(s)
  {
  }

  lemma EvdevFoldReadBack(s: EvdevInput, e: EvdevInput)
    requires EvdevWritable(e)
    ensures Fold(EvdevAssign(e), s, EvdevOrder) == EvdevReadBack(s, e)
  {
    var a := Fold(EvdevAssign(e), s, EvdevOrder);
    var b := EvdevReadBack(s, e);
    forall y ensures EvdevGet(a, y) == EvdevGet(b, y) {
      EvdevOrderIndex(y);
      EvdevFoldGet(s, e, EvdevOrder, y);
      EvdevReadBackGet(s, e, y);
    }
    EvdevFoldGet(s, e, EvdevOrder, TestButton);
    EvdevReadBackGet(s, e, TestButton);
    EvdevExtensionality(a, b);
  }

  lemma EvdevLinesWellFormed(e: EvdevInput)
    requires EvdevWritable(e) && EvdevWords(e)
    ensures forall i :: 0 <= i < |EvdevOrder| ==> Written1(EvdevKey, EvdevRenderer(e), EvdevOrder[i])
  {
    forall i | 0 <= i < |EvdevOrder|
      ensures Written1(EvdevKey, EvdevRenderer(e), EvdevOrder[i])
    {
      EvdevKeyToken(EvdevOrder[i]);
      EvdevWritableRenders(e, EvdevOrder[i]);
      EvdevLineReadsBack(e, EvdevOrder[i], DefaultEvdev, 0);
    }
  }

  lemma EvdevLinesReadBack(e: EvdevInput)
    requires EvdevWords(e)
    ensures forall i, t: EvdevInput, n: nat ::
      0 <= i < |EvdevOrder| && EvdevRenderer(e)(EvdevOrder[i]).Ok? && |EvdevRenderer(e)(EvdevOrder[i]).value| > 0 ==>
      EvdevStep(t, EvdevKey(EvdevOrder[i]), EvdevRenderer(e)(EvdevOrder[i]).value[0], EvdevRenderer(e)(EvdevOrder[i]).value[1..], n)
        == Ok(EvdevAssign(e)(t, EvdevOrder[i]))
  {
    forall i, t: EvdevInput, n: nat | 0 <= i < |EvdevOrder| && EvdevRenderer(e)(EvdevOrder[i]).Ok? && |EvdevRenderer(e)(EvdevOrder[i]).value| > 0
      ensures EvdevStep(t, EvdevKey(EvdevOrder[i]), EvdevRenderer(e)(EvdevOrder[i]).value[0], EvdevRenderer(e)(EvdevOrder[i]).value[1..], n)
           == Ok(EvdevAssign(e)(t, EvdevOrder[i]))
    {
      EvdevLineReadsBack(e, EvdevOrder[i], t, n);
    }
  }

  /** Reading the written lines back restores every slot, whatever the
      configuration read into held before. */
  lemma EvdevRoundTrip(s: EvdevInput, e: EvdevInput, first: nat)
    requires WriteEvdev(e).error.None? && EvdevWords(e)
    ensures EvdevWritable(e)
    ensures Scan(EvdevStep, s, WriteEvdev(e).lines, first) == Outcome(EvdevReadBack(s, e), None)
  {
    WriteEvdevSucceeds(e);
    EvdevLinesWellFormed(e);
    EvdevLinesReadBack(e);
    ScanWriteEach(EvdevStep, EvdevKey, EvdevRenderer(e), EvdevAssign(e), EvdevOrder, s, first);
    EvdevFoldReadBack(s, e);
  }

  /** The configuration read back is the one written exactly when player 1
      has a test input and the unread parts already held its values. */
  lemma EvdevRoundTripExact(s: EvdevInput, e: EvdevInput)
    requires WriteEvdev(e).error.None? && EvdevWords(e)
    ensures ReadEvdev(s, WriteEvdev(e).lines).state == e <==>
      e.player1.test.Some? && Unread(s) == Unread(e)
  {
    EvdevRoundTrip(s, e, 1);
    var r := EvdevReadBack(s, e);
    if r == e {
      assert r.player1.test == e.player1.test;
      assert Unread(r) == Unread(e);
    }
  }

  // ---------------------------------------------------------------------
  // The default configuration.

  lemma KeyboardInputWord(k: string)
    requires IsToken(k)
    ensures IsToken(KeyboardKey + k)
  {
    assert IsToken(KeyboardKey);
    TokenConcat(KeyboardKey, k);
  }

  lemma TouchpadAxisWord(k: string)
    requires IsToken(k)
    ensures IsToken(TouchpadAxis + k)
  {
    assert IsToken(TouchpadAxis);
    TokenConcat(TouchpadAxis, k);
  }

  lemma DefaultKeymapWords(f: Field)
    requires Get(DefaultEvdevKeymap, f).Some?
    ensures IsToken(Get(DefaultEvdevKeymap, f).value)
  {
    match f
    case TestField => KeyboardInputWord("1");
    case CoinField =>
    case ControlField(c) =>
      match c
      case Start => KeyboardInputWord("1");
      case Service => KeyboardInputWord("S");
      case Up => KeyboardInputWord("UP");
      case Down => KeyboardInputWord("DOWN");
      case Left => KeyboardInputWord("LEFT");
      case Right => KeyboardInputWord("RIGHT");
      case Button1 => KeyboardInputWord("Q");
      case Button2 => KeyboardInputWord("W");
      case Button3 => KeyboardInputWord("R");
      case Button4 => KeyboardInputWord("T");
      case Button5 => KeyboardInputWord("Y");
      case Button6 => KeyboardInputWord("U");
      case Button7 => KeyboardInputWord("I");
      case Button8 => KeyboardInputWord("O");
  }

  lemma DefaultAnalogueWords(a: AnalogueIndex)
    ensures IsToken(DefaultEvdev.analogues[a])
  {
    if a == 0 { TouchpadAxisWord("X"); }
    else if a == 1 { TouchpadAxisWord("Y"); }
    else if a == 2 { TouchpadAxisWord("Z"); }
    else { TouchpadAxisWord("RZ"); }
  }

  lemma DefaultEvdevWords()
    ensures EvdevWords(DefaultEvdev)
  {
    forall y ensures EvdevTarget(DefaultEvdev, y).Name? ==> IsToken(EvdevTarget(DefaultEvdev, y).name) {
      match y
      case TestButton => DefaultKeymapWords(TestField);
      case Player1(c) => DefaultKeymapWords(ControlField(c));
      case Player2(c) => DefaultKeymapWords(ControlField(c));
      case Analogue(a) => DefaultAnalogueWords(a);
      case Deadzone(d) =>
    }
  }

  /** The default configuration is writable and survives writing and
      reading back. */
  lemma DefaultEvdevRoundTrip()
    ensures WriteEvdev(DefaultEvdev).error.None?
    ensures ReadEvdev(DefaultEvdev, WriteEvdev(DefaultEvdev).lines) == Outcome(DefaultEvdev, None)
  {
    assert EvdevWritable(DefaultEvdev);
    WriteEvdevSucceeds(DefaultEvdev);
    DefaultEvdevWords();
    EvdevRoundTrip(DefaultEvdev, DefaultEvdev, 1);
    EvdevRoundTripExact(DefaultEvdev, DefaultEvdev);
  }

  // ---------------------------------------------------------------------
  // Lines of other sections and malformed lines.

  /** A well-formed line whose key is not an evdev key leaves the
      configuration alone. */
  lemma EvdevIgnoresForeign(key: string, args: seq<string>)
    requires IsToken(key) && key != "#" && |args| > 0 && AllTokens(args)
    requires EvdevSlotOf(key).None?
    ensures Ignores(EvdevStep, KeyLine(key, args))
  {
    ClassifyKeyLine(key, args);
  }

  /** A deadzone line with fewer than three numbers stops the reader with
      its line number, keeping what the lines before it assigned. */
  lemma EvdevShortDeadzone(s: EvdevInput, before: seq<string>, d: DeadzoneIndex, args: seq<string>, after: seq<string>)
    requires forall i :: 0 <= i < |before| ==> Ignores(EvdevStep, before[i])
    requires 0 < |args| < 3 && AllTokens(args)
    ensures ReadEvdev(s, before + [KeyLine(EvdevKey(Deadzone(d)), args)] + after)
         == Outcome(s, Some(TooFewArguments(|before| + 1)))
  {
    var line := KeyLine(EvdevKey(Deadzone(d)), args);
    EvdevKeyToken(Deadzone(d));
    ClassifyKeyLine(EvdevKey(Deadzone(d)), args);
    EvdevSlotOfKey(Deadzone(d));
    ScanIgnored(EvdevStep, s, before, 1);
    ScanAppend(EvdevStep, s, before, [line] + after, 1);
    assert before + [line] + after == before + ([line] + after);
  }

  /** A deadzone line whose numbers do not all parse stops the reader with
      the first bad number, keeping what the lines before it assigned. */
  lemma EvdevBadDeadzone(s: EvdevInput, before: seq<string>, d: DeadzoneIndex, args: seq<string>, after: seq<string>)
    requires forall i :: 0 <= i < |before| ==> Ignores(EvdevStep, before[i])
    requires |args| >= 3 && AllTokens(args)
    requires exists j :: 0 <= j < 3 && ParseU32(args[j]).None?
    ensures ReadEvdev(s, before + [KeyLine(EvdevKey(Deadzone(d)), args)] + after)
         == Outcome(s, Some(InvalidNumber(FirstBadNumber(args[..3]))))
  {
    var key := EvdevKey(Deadzone(d));
    var line := KeyLine(key, args);
    var err := InvalidNumber(FirstBadNumber(args[..3]));
    DeadzoneStepBad(s, d, args, |before| + 1);
    assert Scan(EvdevStep, s, [line] + after, |before| + 1) == Outcome(s, Some(err)) by {
      EvdevKeyToken(Deadzone(d));
      ClassifyKeyLine(key, args);
      assert ([line] + after)[0] == line;
    }
    assert before + [line] + after == before + ([line] + after);
    ScanIgnoredPrefix(EvdevStep, s, before, [line] + after, 1);
  }

  /** The deadzone step stops at the first of the three numbers that does
      not parse. */
  lemma DeadzoneStepBad(s: EvdevInput, d: DeadzoneIndex, args: seq<string>, n: nat)
    requires |args| >= 3
    requires exists j :: 0 <= j < 3 && ParseU32(args[j]).None?
    ensures EvdevStep(s, EvdevKey(Deadzone(d)), args[0], args[1..], n) == Err(InvalidNumber(FirstBadNumber(args[..3])))
  {
    EvdevSlotOfKey(Deadzone(d));
    var ts := args[..3];
    assert ts[0] == args[0] && ts[1..][0] == args[1] && ts[1..][1..][0] == args[2];
    assert args[1..][0] == args[1] && args[1..][1] == args[2];
    if ParseU32(args[0]).None? {
      assert FirstBadNumber(ts) == args[0];
    } else if ParseU32(args[1]).None? {
      assert FirstBadNumber(ts) == FirstBadNumber(ts[1..]) == args[1];
    } else {
      assert FirstBadNumber(ts) == FirstBadNumber(ts[1..]) == FirstBadNumber(ts[1..][1..]) == args[2];
    }
  }

  /** The first of some numbers that does not parse as a `u32`. */
  function FirstBadNumber(ts: seq<string>): (t: string)
    requires exists j :: 0 <= j < |ts| && ParseU32(ts[j]).None?
    ensures t in ts && ParseU32(t).None?
  {
    if ParseU32(ts[0]).None? then ts[0]
    else
      assert exists j :: 0 <= j < |ts[1..]| && ParseU32(ts[1..][j]).None? by {
        var j :| 0 <= j < |ts| && ParseU32(ts[j]).None?;
        assert ts[1..][j - 1] == ts[j];
      }
      FirstBadNumber(ts[1..])
  }
}
