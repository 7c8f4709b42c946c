/**
  The SDL/X11 keymap (`SdlKeymap` in src/config.rs): one player's controls
  bound to keyboard keys, stored in the configuration file as X11 keycodes.
  Only the test, start, service, coin, four directions and buttons 1 to 4
  are written and read; buttons 5 to 8 are never stored.
*/
module SdlKeymaps {
  import opened Wrappers
  import opened Text
  import opened KeyCodes
  import opened ConfKeys
  import opened ConfLines
  import opened KeyBindings

  type SdlKeymap = Bindings<Key>

  /** `SdlKeymap::default()`: test T, service S, start 1, coin 5, the arrow
      keys, buttons Q W E R, buttons 5 to 8 unbound. */
  const DefaultSdl: SdlKeymap := Bindings(
    Some(Letter('T')), Letter('S'), Digit(1), Some(Digit(5)),
    Named(ArrowUp), Named(ArrowDown), Named(ArrowLeft), Named(ArrowRight),
    Letter('Q'), Letter('W'), Letter('E'), Letter('R'),
    None, None, None, None)

  /** The field an SDL line assigns. */
  function SdlField(x: SdlSlot): Field {
    match x
    case TestKey => TestField
    case StartKey => ControlField(Start)
    case ServiceKey => ControlField(Service)
    case CoinKey => CoinField
    case UpKey => ControlField(Up)
    case DownKey => ControlField(Down)
    case LeftKey => ControlField(Left)
    case RightKey => ControlField(Right)
    case Button1Key => ControlField(Button1)
    case Button2Key => ControlField(Button2)
    case Button3Key => ControlField(Button3)
    case Button4Key => ControlField(Button4)
  }

  /** `result_keycode_to_key`: a keycode in decimal, decoded through the
      keycode table. */
  function KeyOfCode(s: string): (r: Result<Key, ReadError>)
    ensures r.Ok? <==> ParseU32(s).Some? && Decode(ParseU32(s).value).Some?
    ensures r.Ok? ==> Encode(r.value) == ParseU32(s)
  {
    match ParseU32(s)
    case None => Err(InvalidNumber(s))
    case Some(code) =>
      DecodeThenEncode(code);
      match Decode(code)
      case None => Err(UndefinedKeycode(code))
      case Some(k) => Ok(k)
  }

  /** The SDL reader's handling of one line (`SdlKeymap::read_from_lindbergh_conf`). */
  function SdlStep(m: SdlKeymap, key: string, value: string, rest: seq<string>, line: nat): Result<SdlKeymap, ReadError> {
    match SdlSlotOf(key)
    case None => Ok(m)
    case Some(x) =>
      var k :- KeyOfCode(value);
      Ok(Set(m, SdlField(x), k))
  }

  /** Reads an SDL keymap from the lines of a configuration file into `m`. */
  function ReadSdl(m: SdlKeymap, lines: seq<string>): Outcome<SdlKeymap> {
    Scan(SdlStep, m, lines, 1)
  }

  /** The order the SDL writer emits its lines in. */
  const SdlOrder: seq<SdlSlot> := [
    TestKey, StartKey, ServiceKey, CoinKey, UpKey, DownKey, LeftKey, RightKey,
    Button1Key, Button2Key, Button3Key, Button4Key]

  /** The keycode of the key bound to a slot, as the line's argument. */
  function SdlRender(m: SdlKeymap, x: SdlSlot): Result<seq<string>, WriteError> {
    match Get(m, SdlField(x))
    case None => Err(if x == TestKey then NoSdlTestKey else NoSdlCoinKey)
    case Some(k) =>
      match Encode(k)
      case None => Err(NoKeycode)
      case Some(code) => Ok([ShowNat(code)])
  }

  /** `SdlKeymap::write_to_lindbergh_conf`: the test and coin keys must be
      bound before anything is written; then each slot is written in order
      and a key without a keycode stops the writer. */
  function WriteSdl(m: SdlKeymap): Written {
    if m.test.None? then Written([], Some(NoSdlTestKey))
    else if m.coin.None? then Written([], Some(NoSdlCoinKey))
    else WriteEach(SdlKey, SdlRenderer(m), SdlOrder)
  }

  function SdlRenderer(m: SdlKeymap): SdlSlot -> Result<seq<string>, WriteError> {
    x => SdlRender(m, x)
  }

  // ---------------------------------------------------------------------
  // Writing succeeds exactly for a storable keymap.

  /** The test and coin keys are bound, and every slot the writer stores is
      bound to a key that has a keycode. */
  predicate Storable(m: SdlKeymap) {
    && m.test.Some? && m.coin.Some?
    && forall x: SdlSlot :: Encode(Get(m, SdlField(x)).value).Some?
  }

  /** Where a slot sits in the writer's order. */
  function SdlPosition(x: SdlSlot): (i: nat)
    ensures i < |SdlOrder| && SdlOrder[i] == x
  {
    match x
    case TestKey => 0
    case StartKey => 1
    case ServiceKey => 2
    case CoinKey => 3
    case UpKey => 4
    case DownKey => 5
    case LeftKey => 6
    case RightKey => 7
    case Button1Key => 8
    case Button2Key => 9
    case Button3Key => 10
    case Button4Key => 11
  }

  lemma SdlRenderAll(m: SdlKeymap)
    requires m.test.Some? && m.coin.Some?
    ensures WriteSdl(m).error.None? <==> forall i :: 0 <= i < |SdlOrder| ==> SdlRenderer(m)(SdlOrder[i]).Ok?
  {
    WriteEachSucceeds(SdlKey, SdlRenderer(m), SdlOrder);
  }

  lemma SdlRenderOk(m: SdlKeymap, x: SdlSlot)
    ensures SdlRenderer(m)(x).Ok? <==> Get(m, SdlField(x)).Some? && Encode(Get(m, SdlField(x)).value).Some?
  {
  }

  lemma SdlAllRenderStorable(m: SdlKeymap)
    requires forall i :: 0 <= i < |SdlOrder| ==> SdlRenderer(m)(SdlOrder[i]).Ok?
    ensures Storable(m)
  {
    forall x: SdlSlot
      ensures Get(m, SdlField(x)).Some? && Encode(Get(m, SdlField(x)).value).Some?
    {
      SdlRenderOk(m, SdlOrder[SdlPosition(x)]);
    }
    SdlRenderOk(m, SdlOrder[SdlPosition(TestKey)]);
    SdlRenderOk(m, SdlOrder[SdlPosition(CoinKey)]);
  }

  lemma SdlStorableAllRender(m: SdlKeymap)
    requires Storable(m)
    ensures forall i :: 0 <= i < |SdlOrder| ==> SdlRenderer(m)(SdlOrder[i]).Ok?
  {
    forall i | 0 <= i < |SdlOrder| ensures SdlRenderer(m)(SdlOrder[i]).Ok? {
      SdlRenderOk(m, SdlOrder[i]);
    }
  }

  /** The writer reports no error exactly when the keymap is storable; a
      missing test key is reported first, then a missing coin key. */
  lemma WriteSdlSucceeds(m: SdlKeymap)
    ensures WriteSdl(m).error.None? <==> Storable(m)
    ensures m.test.None? ==> WriteSdl(m) == Written([], Some(NoSdlTestKey))
    ensures m.test.Some? && m.coin.None? ==> WriteSdl(m) == Written([], Some(NoSdlCoinKey))
  {
    if m.test.Some? && m.coin.Some? {
      SdlRenderAll(m);
      if WriteSdl(m).error.None? {
        SdlAllRenderStorable(m);
      }
      if Storable(m) {
        SdlStorableAllRender(m);
      }
    } else if m.test.None? {
      assert !(Get(m, SdlField(TestKey)).Some?);
    } else {
      assert !(Get(m, SdlField(CoinKey)).Some?);
    }
  }

  // ---------------------------------------------------------------------
  // Reading back what was written.

  /** What reading the written lines into `s` gives: each stored slot holds
      the key its keycode decodes to, which is the key itself except for the
      four shifted symbols; buttons 5 to 8 keep the value they had in `s`. */
  function SdlReadBack(s: SdlKeymap, m: SdlKeymap): SdlKeymap
    requires m.test.Some? && m.coin.Some?
  {
    s.(test := Some(Canonical(m.test.value)), start := Canonical(m.start),
       service := Canonical(m.service), coin := Some(Canonical(m.coin.value)),
       up := Canonical(m.up), down := Canonical(m.down),
       left := Canonical(m.left), right := Canonical(m.right),
       button1 := Canonical(m.button1), button2 := Canonical(m.button2),
       button3 := Canonical(m.button3), button4 := Canonical(m.button4))
  }

  /** The key a field reads back as: the decoding of its keycode. */
  function SdlTarget(m: SdlKeymap): Field -> Key {
    g => match Get(m, g) case Some(k) => Canonical(k) case None => Other
  }

  /** The line written for a slot reads back as the decoded key. */
  lemma SdlLineReadsBack(m: SdlKeymap, x: SdlSlot, t: SdlKeymap, n: nat)
    requires SdlRender(m, x).Ok?
    ensures |SdlRender(m, x).value| == 1 && IsToken(SdlRender(m, x).value[0])
    ensures SdlStep(t, SdlKey(x), SdlRender(m, x).value[0], [], n) == Ok(SetVia(SdlField, SdlTarget(m))(t, x))
  {
    var k := Get(m, SdlField(x)).value;
    var code := Encode(k).value;
    ShowNatIsToken(code);
    ParseU32Show(code);
    EncodeThenDecode(k);
    SdlSlotOfKey(x);
  }

  /** A line the SDL writer wrote is the entry of one slot, whose value is
      a single token. */
  lemma SdlLineAt(m: SdlKeymap, j: nat)
    requires j < |WriteSdl(m).lines|
    ensures j < |SdlOrder| && SdlRender(m, SdlOrder[j]).Ok? && |SdlRender(m, SdlOrder[j]).value| == 1
    ensures Classify(WriteSdl(m).lines[j]) == Entry(SdlKey(SdlOrder[j]), SdlRender(m, SdlOrder[j]).value[0], [])
  {
    WriteEachLine(SdlKey, SdlRenderer(m), SdlOrder, j);
    var x := SdlOrder[j];
    var args := SdlRender(m, x).value;
    assert |args| == 1 && IsToken(args[0]) by {
      ShowNatIsToken(Encode(Get(m, SdlField(x)).value).value);
    }
    SdlKeyToken(x);
    ClassifyKeyLine(SdlKey(x), args);
  }

  /** The fields the SDL writer stores, in its order. */
  const SdlFields: seq<Field> := FieldsOf(SdlField, SdlOrder)

  /** Buttons 5 to 8, which the SDL writer leaves out. */
  predicate Unstored(g: Field) {
    g.ControlField? && g.c in {Button5, Button6, Button7, Button8}
  }

  lemma SdlFieldStored(x: SdlSlot)
    ensures !Unstored(SdlField(x))
  {
  }

  /** Where the line of a stored field sits in the writer's order. */
  function SdlSlotFor(g: Field): (x: SdlSlot)
    requires !Unstored(g)
    ensures SdlField(x) == g
  {
    match g
    case TestField => TestKey
    case CoinField => CoinKey
    case ControlField(c) =>
      match c
      case Start => StartKey
      case Service => ServiceKey
      case Up => UpKey
      case Down => DownKey
      case Left => LeftKey
      case Right => RightKey
      case Button1 => Button1Key
      case Button2 => Button2Key
      case Button3 => Button3Key
      case Button4 => Button4Key
  }

  /** The SDL writer stores every field but buttons 5 to 8. */
  lemma SdlFieldsStored(g: Field)
    ensures g in SdlFields <==> !Unstored(g)
  {
    if g in SdlFields {
      SdlFieldsOnlyStored(g);
    } else if !Unstored(g) {
      SdlFieldsAllStored(g);
    }
  }

  lemma SdlFieldsOnlyStored(g: Field)
    requires g in SdlFields
    ensures !Unstored(g)
  {
    var i :| 0 <= i < |SdlFields| && SdlFields[i] == g;
    var x := SdlOrder[i];
    assert g == SdlField(x);
    SdlFieldStored(x);
  }

  lemma SdlFieldsAllStored(g: Field)
    requires !Unstored(g)
    ensures g in SdlFields
  {
    var x := SdlSlotFor(g);
    assert SdlFields[SdlPosition(x)] == g;
  }

  lemma SdlReadBackGet(s: SdlKeymap, m: SdlKeymap, g: Field)
    requires m.test.Some? && m.coin.Some?
    ensures Get(SdlReadBack(s, m), g) == if Unstored(g) then Get(s, g) else Some(SdlTarget(m)(g))
  {
  }

  lemma SdlSetEachReadBack(s: SdlKeymap, m: SdlKeymap)
    requires m.test.Some? && m.coin.Some?
    ensures SetEach(s, SdlFields, SdlTarget(m)) == SdlReadBack(s, m)
  {
    var a := SetEach(s, SdlFields, SdlTarget(m));
    var b := SdlReadBack(s, m);
    forall g ensures Get(a, g) == Get(b, g) {
      SetEachGet(s, SdlFields, SdlTarget(m), g);
      SdlFieldsStored(g);
      SdlReadBackGet(s, m, g);
    }
    Extensionality(a, b);
  }

  lemma SdlLinesWellFormed(m: SdlKeymap)
    requires Storable(m)
    ensures forall i :: 0 <= i < |SdlOrder| ==> Written1(SdlKey, SdlRenderer(m), SdlOrder[i])
  {
    forall i | 0 <= i < |SdlOrder|
      ensures Written1(SdlKey, SdlRenderer(m), SdlOrder[i])
    {
      SdlKeyToken(SdlOrder[i]);
      SdlRenderOk(m, SdlOrder[i]);
      SdlLineReadsBack(m, SdlOrder[i], DefaultSdl, 0);
    }
  }

  lemma SdlLinesReadBack(m: SdlKeymap)
    ensures forall i, t: SdlKeymap, n: nat ::
      0 <= i < |SdlOrder| && SdlRenderer(m)(SdlOrder[i]).Ok? && |SdlRenderer(m)(SdlOrder[i]).value| > 0 ==>
      SdlStep(t, SdlKey(SdlOrder[i]), SdlRenderer(m)(SdlOrder[i]).value[0], SdlRenderer(m)(SdlOrder[i]).value[1..], n)
        == Ok(SetVia(SdlField, SdlTarget(m))(t, SdlOrder[i]))
  {
    forall i, t: SdlKeymap, n: nat | 0 <= i < |SdlOrder| && SdlRenderer(m)(SdlOrder[i]).Ok? && |SdlRenderer(m)(SdlOrder[i]).value| > 0
      ensures SdlStep(t, SdlKey(SdlOrder[i]), SdlRenderer(m)(SdlOrder[i]).value[0], SdlRenderer(m)(SdlOrder[i]).value[1..], n)
           == Ok(SetVia(SdlField, SdlTarget(m))(t, SdlOrder[i]))
    {
      SdlLineReadsBack(m, SdlOrder[i], t, n);
    }
  }

  /** Reading the written lines back gives every stored control's key, up to
      the four shifted symbols, and leaves buttons 5 to 8 as they were. */
  lemma SdlRoundTrip(s: SdlKeymap, m: SdlKeymap, first: nat)
    requires Storable(m)
    ensures Scan(SdlStep, s, WriteSdl(m).lines, first) == Outcome(SdlReadBack(s, m), None)
  {
    WriteSdlSucceeds(m);
    SdlLinesWellFormed(m);
    SdlLinesReadBack(m);
    ScanWriteEach(SdlStep, SdlKey, SdlRenderer(m), SetVia(SdlField, SdlTarget(m)), SdlOrder, s, first);
    FoldSetEach(SdlField, SdlTarget(m), s, SdlOrder);
    SdlSetEachReadBack(s, m);
  }

  /** No stored key is one of the four shifted symbols. */
  predicate StoredVerbatim(m: SdlKeymap) {
    forall x: SdlSlot :: Get(m, SdlField(x)).Some? ==> Get(m, SdlField(x)).value !in Aliases
  }

  lemma CanonicalFixed(k: Key)
    ensures Canonical(k) == k <==> k !in Aliases
  {
  }

  lemma SdlReadBackVerbatim(s: SdlKeymap, m: SdlKeymap)
    requires m.test.Some? && m.coin.Some? && SdlReadBack(s, m) == m
    ensures StoredVerbatim(m)
  {
    forall x: SdlSlot | Get(m, SdlField(x)).Some? ensures Get(m, SdlField(x)).value !in Aliases {
      SdlReadBackGet(s, m, SdlField(x));
      SdlFieldStored(x);
      CanonicalFixed(Get(m, SdlField(x)).value);
    }
  }

  lemma SdlReadBackUnchanged(s: SdlKeymap, m: SdlKeymap)
    requires m.test.Some? && m.coin.Some? && StoredVerbatim(m)
    requires s.button5 == m.button5 && s.button6 == m.button6
    requires s.button7 == m.button7 && s.button8 == m.button8
    ensures SdlReadBack(s, m) == m
  {
    var r := SdlReadBack(s, m);
    forall g ensures Get(r, g) == Get(m, g) {
      SdlReadBackGet(s, m, g);
      if !Unstored(g) {
        var x := SdlSlotFor(g);
        assert Get(m, SdlField(x)).Some?;
        CanonicalFixed(Get(m, g).value);
      }
    }
    Extensionality(r, m);
  }

  /** The keymap read back is the keymap written exactly when no stored key
      is a shifted symbol and the unstored buttons 5 to 8 already held the
      keymap's values. */
  lemma SdlRoundTripExact(s: SdlKeymap, m: SdlKeymap)
    requires Storable(m)
    ensures ReadSdl(s, WriteSdl(m).lines).state == m <==>
      StoredVerbatim(m) && s.button5 == m.button5 && s.button6 == m.button6
      && s.button7 == m.button7 && s.button8 == m.button8
  {
    WriteSdlSucceeds(m);
    SdlRoundTrip(s, m, 1);
    if SdlReadBack(s, m) == m {
      SdlReadBackVerbatim(s, m);
    }
    if StoredVerbatim(m) && s.button5 == m.button5 && s.button6 == m.button6
      && s.button7 == m.button7 && s.button8 == m.button8 {
      SdlReadBackUnchanged(s, m);
    }
  }

  /** Written from a default keymap (buttons 5 to 8 unbound), a keymap with
      those buttons unbound and no shifted symbol reads back unchanged. */
  lemma SdlDefaultRoundTrip(m: SdlKeymap)
    requires Storable(m) && StoredVerbatim(m)
    requires m.button5.None? && m.button6.None? && m.button7.None? && m.button8.None?
    ensures ReadSdl(DefaultSdl, WriteSdl(m).lines) == Outcome(m, None)
  {
    WriteSdlSucceeds(m);
    SdlRoundTrip(DefaultSdl, m, 1);
    SdlRoundTripExact(DefaultSdl, m);
  }

  lemma DefaultSdlStorable(x: SdlSlot)
    ensures Get(DefaultSdl, SdlField(x)).Some? && Encode(Get(DefaultSdl, SdlField(x)).value).Some?
    ensures Get(DefaultSdl, SdlField(x)).value !in Aliases
  {
    if x.TestKey? || x.StartKey? || x.ServiceKey? || x.CoinKey? || x.UpKey? || x.DownKey? {
      DefaultSdlStorableFront(x);
    } else {
      DefaultSdlStorableBack(x);
    }
  }

  lemma DefaultSdlStorableFront(x: SdlSlot)
    requires x.TestKey? || x.StartKey? || x.ServiceKey? || x.CoinKey? || x.UpKey? || x.DownKey?
    ensures Get(DefaultSdl, SdlField(x)).Some? && Encode(Get(DefaultSdl, SdlField(x)).value).Some?
    ensures Get(DefaultSdl, SdlField(x)).value !in Aliases
  {
    match x
    case TestKey =>
    case StartKey =>
    case ServiceKey =>
    case CoinKey =>
    case UpKey =>
    case DownKey =>
  }

  lemma DefaultSdlStorableBack(x: SdlSlot)
    requires !(x.TestKey? || x.StartKey? || x.ServiceKey? || x.CoinKey? || x.UpKey? || x.DownKey?)
    ensures Get(DefaultSdl, SdlField(x)).Some? && Encode(Get(DefaultSdl, SdlField(x)).value).Some?
    ensures Get(DefaultSdl, SdlField(x)).value !in Aliases
  {
    match x
    case LeftKey =>
    case RightKey =>
    case Button1Key =>
    case Button2Key =>
    case Button3Key =>
    case Button4Key =>
  }

  lemma DefaultSdlStorableAll()
    ensures Storable(DefaultSdl) && StoredVerbatim(DefaultSdl)
  {
    forall x: SdlSlot
      ensures Get(DefaultSdl, SdlField(x)).Some? && Encode(Get(DefaultSdl, SdlField(x)).value).Some?
      ensures Get(DefaultSdl, SdlField(x)).value !in Aliases
    {
      DefaultSdlStorable(x);
    }
  }

  /** The default keymap is storable and survives writing and reading back. */
  lemma DefaultSdlRoundTrip()
    ensures WriteSdl(DefaultSdl).error.None?
    ensures ReadSdl(DefaultSdl, WriteSdl(DefaultSdl).lines) == Outcome(DefaultSdl, None)
  {
    DefaultSdlStorableAll();
    WriteSdlSucceeds(DefaultSdl);
    SdlDefaultRoundTrip(DefaultSdl);
  }

  // ---------------------------------------------------------------------
  // Lines of other sections and bad keycodes.

  /** A well-formed line whose key is not an SDL key leaves the SDL keymap alone. */
  lemma SdlIgnoresForeign(key: string, args: seq<string>)
    requires IsToken(key) && key != "#" && |args| > 0 && AllTokens(args)
    requires SdlSlotOf(key).None?
    ensures Ignores(SdlStep, KeyLine(key, args))
  {
    ClassifyKeyLine(key, args);
  }

  /** An SDL line whose keycode is not a number, or not in the keycode
      table, stops the reader with that error and the keymap read so far. */
  lemma SdlBadKeycode(s: SdlKeymap, before: seq<string>, x: SdlSlot, v: string, after: seq<string>)
    requires forall i :: 0 <= i < |before| ==> Ignores(SdlStep, before[i])
    requires IsToken(v) && KeyOfCode(v).Err?
    ensures ReadSdl(s, before + [KeyLine(SdlKey(x), [v])] + after) == Outcome(s, Some(KeyOfCode(v).error))
  {
    var line := KeyLine(SdlKey(x), [v]);
    SdlKeyToken(x);
    ClassifyKeyLine(SdlKey(x), [v]);
    SdlSlotOfKey(x);
    ScanIgnored(SdlStep, s, before, 1);
    ScanAppend(SdlStep, s, before, [line] + after, 1);
    assert before + [line] + after == before + ([line] + after);
  }
}
