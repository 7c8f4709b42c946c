/**
  One player's controls (`_Keymap<T>` in src/config.rs), generic in what a
  control is bound to: a keyboard key for SDL/X11 input, an evdev input name
  for evdev input. The test and coin controls and buttons 5 to 8 may be
  unbound.
*/
module KeyBindings {
  import opened Wrappers
  import opened ConfKeys
  import opened ConfLines

  datatype Bindings<T> = Bindings(
    test: Option<T>, service: T, start: T, coin: Option<T>,
    up: T, down: T, left: T, right: T,
    button1: T, button2: T, button3: T, button4: T,
    button5: Option<T>, button6: Option<T>, button7: Option<T>, button8: Option<T>)

  /** A field of `Bindings`: the test control, the coin control, or one of
      the controls every evdev player has. */
  datatype Field = TestField | CoinField | ControlField(c: Control)

  /** What a field is bound to, if anything. */
  function Get<T>(b: Bindings<T>, f: Field): Option<T> {
    match f
    case TestField => b.test
    case CoinField => b.coin
    case ControlField(c) =>
      match c
      case Start => Some(b.start)
      case Service => Some(b.service)
      case Up => Some(b.up)
      case Down => Some(b.down)
      case Left => Some(b.left)
      case Right => Some(b.right)
      case Button1 => Some(b.button1)
      case Button2 => Some(b.button2)
      case Button3 => Some(b.button3)
      case Button4 => Some(b.button4)
      case Button5 => b.button5
      case Button6 => b.button6
      case Button7 => b.button7
      case Button8 => b.button8
  }

  /** Binds one field (an optional field becomes `Some`) and leaves every
      other field alone. */
  function Set<T>(b: Bindings<T>, f: Field, v: T): (r: Bindings<T>)
    ensures Get(r, f) == Some(v)
    ensures forall g :: g != f ==> Get(r, g) == Get(b, g)
  {
    match f
    case TestField => b.(test := Some(v))
    case CoinField => b.(coin := Some(v))
    case ControlField(c) =>
      match c
      case Start => b.(start := v)
      case Service => b.(service := v)
      case Up => b.(up := v)
      case Down => b.(down := v)
      case Left => b.(left := v)
      case Right => b.(right := v)
      case Button1 => b.(button1 := v)
      case Button2 => b.(button2 := v)
      case Button3 => b.(button3 := v)
      case Button4 => b.(button4 := v)
      case Button5 => b.(button5 := Some(v))
      case Button6 => b.(button6 := Some(v))
      case Button7 => b.(button7 := Some(v))
      case Button8 => b.(button8 := Some(v))
  }

  /** Two bindings that agree on every field are the same. */
  lemma Extensionality<T>(a: Bindings<T>, b: Bindings<T>)
    requires forall f :: Get(a, f) == Get(b, f)
    ensures a == b
  {
    assert Get(a, TestField) == Get(b, TestField);
    assert Get(a, CoinField) == Get(b, CoinField);
    assert Get(a, ControlField(Start)) == Get(b, ControlField(Start));
    assert Get(a, ControlField(Service)) == Get(b, ControlField(Service));
    assert Get(a, ControlField(Up)) == Get(b, ControlField(Up));
    assert Get(a, ControlField(Down)) == Get(b, ControlField(Down));
    assert Get(a, ControlField(Left)) == Get(b, ControlField(Left));
    assert Get(a, ControlField(Right)) == Get(b, ControlField(Right));
    assert Get(a, ControlField(Button1)) == Get(b, ControlField(Button1));
    assert Get(a, ControlField(Button2)) == Get(b, ControlField(Button2));
    assert Get(a, ControlField(Button3)) == Get(b, ControlField(Button3));
    assert Get(a, ControlField(Button4)) == Get(b, ControlField(Button4));
    assert Get(a, ControlField(Button5)) == Get(b, ControlField(Button5));
    assert Get(a, ControlField(Button6)) == Get(b, ControlField(Button6));
    assert Get(a, ControlField(Button7)) == Get(b, ControlField(Button7));
    assert Get(a, ControlField(Button8)) == Get(b, ControlField(Button8));
  }

  /** Binding fields one after the other, each to the value `target` gives
      for it. */
  function SetEach<T>(b: Bindings<T>, fs: seq<Field>, target: Field -> T): Bindings<T>
    decreases |fs|
  {
    if |fs| == 0 then b else SetEach(Set(b, fs[0], target(fs[0])), fs[1..], target)
  }

  /** After `SetEach`, a listed field holds its target and any other field
      what it held before. */
  lemma {:induction false} SetEachGet<T>(b: Bindings<T>, fs: seq<Field>, target: Field -> T, g: Field)
    ensures Get(SetEach(b, fs, target), g) == if g in fs then Some(target(g)) else Get(b, g)
    decreases |fs|
  {
    if |fs| > 0 {
      SetEachGet(Set(b, fs[0], target(fs[0])), fs[1..], target, g);
      assert g in fs <==> g == fs[0] || g in fs[1..];
    }
  }

  /** The fields `f` names for the items `xs`, in order. */
  function FieldsOf<X>(f: X -> Field, xs: seq<X>): (fs: seq<Field>)
    ensures |fs| == |xs| && forall i :: 0 <= i < |xs| ==> fs[i] == f(xs[i])
    decreases |xs|
  {
    if |xs| == 0 then [] else [f(xs[0])] + FieldsOf(f, xs[1..])
  }

  /** A reader's effect for an item that binds field `f(x)` to its target. */
  function SetVia<T, X>(f: X -> Field, target: Field -> T): (Bindings<T>, X) -> Bindings<T> {
    (b, x) => Set(b, f(x), target(f(x)))
  }

  /** Reading items that each bind one field is binding those fields. */
  lemma {:induction false} FoldSetEach<T, X>(f: X -> Field, target: Field -> T, b: Bindings<T>, xs: seq<X>)
    ensures Fold(SetVia(f, target), b, xs) == SetEach(b, FieldsOf(f, xs), target)
    decreases |xs|
  {
    if |xs| > 0 {
      FoldSetEach(f, target, Set(b, f(xs[0]), target(f(xs[0]))), xs[1..]);
      assert FieldsOf(f, xs)[1..] == FieldsOf(f, xs[1..]);
    }
  }
}
