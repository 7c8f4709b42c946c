/**
  The settings form's validator `SharedState::assign_conf` (src/ui.rs). The
  form keeps five text boxes; the validator copies the numbers typed there
  into the configuration being edited, one field after the other, and
  stops at the first text that does not parse. Only the fields the
  validator touches are modelled, in a record of their own.
*/
module Form {
  import opened Wrappers
  import opened Text

  /** The form's text boxes the validator reads (`shared_text[0..5]`). */
  datatype FormText = FormText(
    width: string,
    height: string,
    fpsTarget: string,
    cursorWidth: string,
    cursorHeight: string)

  /** The configuration fields the validator reads or writes. */
  datatype FormConfig = FormConfig(
    exePath: string,
    windowSize: (U32, U32),
    fpsLimiter: bool,
    fpsTarget: U32,
    cursorWidth: U32,
    cursorHeight: U32)

  /** The text box whose number did not parse. */
  datatype Field = Width | Height | FpsTarget | CursorWidth | CursorHeight

  datatype AssignError =
    | UnspecifiedPath
    | BadNumber(field: Field)
    | ZeroCursor

  /** The configuration as the validator leaves it, and why it stopped. */
  datatype Assigned = Assigned(config: FormConfig, error: Option<AssignError>)

  function TextOf(f: FormText, x: Field): string {
    match x
    case Width => f.width
    case Height => f.height
    case FpsTarget => f.fpsTarget
    case CursorWidth => f.cursorWidth
    case CursorHeight => f.cursorHeight
  }

  /** Both texts of a pair are filled in. */
  predicate Filled(a: string, b: string) {
    a != "" && b != ""
  }

  // ---------------------------------------------------------------------
  // The validator, one step per `if` of the source.

  /** The window size is replaced only when both texts are filled in, and
      both are parsed before it is. */
  function AssignSize(f: FormText, c: FormConfig): (r: Result<FormConfig, AssignError>)
    ensures r.Ok? ==> r.value == c.(windowSize := r.value.windowSize)
    ensures r.Ok? && r.value.windowSize != c.windowSize ==> Filled(f.width, f.height)
    ensures r.Err? <==> Filled(f.width, f.height) && (ParseU32(f.width).None? || ParseU32(f.height).None?)
  {
    if Filled(f.width, f.height) then
      match ParseU32(f.width)
      case None => Err(BadNumber(Width))
      case Some(w) =>
        match ParseU32(f.height)
        case None => Err(BadNumber(Height))
        case Some(h) => Ok(c.(windowSize := (w, h)))
    else Ok(c)
  }

  /** The frame-rate target is parsed only while the limiter is on. */
  function AssignFps(f: FormText, c: FormConfig): (r: Result<FormConfig, AssignError>)
    ensures r.Ok? ==> r.value == c.(fpsTarget := r.value.fpsTarget)
    ensures r.Ok? && r.value.fpsTarget != c.fpsTarget ==> c.fpsLimiter
    ensures r.Err? <==> c.fpsLimiter && ParseU32(f.fpsTarget).None?
  {
    if c.fpsLimiter then
      match ParseU32(f.fpsTarget)
      case None => Err(BadNumber(FpsTarget))
      case Some(n) => Ok(c.(fpsTarget := n))
    else Ok(c)
  }

  /** The cursor size: the width is stored before the height is parsed, so
      a bad height leaves the new width in place. */
  function AssignCursor(f: FormText, c: FormConfig): (r: Assigned)
    ensures r.error.None? ==> r.config.cursorWidth != 0 && r.config.cursorHeight != 0
    ensures r.config.exePath == c.exePath && r.config.windowSize == c.windowSize
    ensures r.config.fpsLimiter == c.fpsLimiter && r.config.fpsTarget == c.fpsTarget
    ensures !Filled(f.cursorWidth, f.cursorHeight) ==> r.config == c
  {
    if Filled(f.cursorWidth, f.cursorHeight) then
      match ParseU32(f.cursorWidth)
      case None => Assigned(c, Some(BadNumber(CursorWidth)))
      case Some(w) =>
        var c1 := c.(cursorWidth := w);
        match ParseU32(f.cursorHeight)
        case None => Assigned(c1, Some(BadNumber(CursorHeight)))
        case Some(h) => CheckCursor(c1.(cursorHeight := h))
    else CheckCursor(c)
  }

  /** A zero cursor dimension is refused after everything was assigned. */
  function CheckCursor(c: FormConfig): (r: Assigned)
    ensures r.config == c
    ensures r.error.None? <==> c.cursorWidth != 0 && c.cursorHeight != 0
  {
    if c.cursorHeight == 0 || c.cursorWidth == 0 then Assigned(c, Some(ZeroCursor))
    else Assigned(c, None)
  }

  /** `SharedState::assign_conf`: an empty executable path is refused before
      anything is assigned; then the window size, the frame-rate target and
      the cursor size are assigned in turn, each stopping the validator at
      a text that does not parse; a zero cursor dimension is refused last.
      The executable path and the limiter switch are never changed. */
  function AssignConf(f: FormText, c: FormConfig): (r: Assigned)
    ensures c.exePath == "" ==> r == Assigned(c, Some(UnspecifiedPath))
    ensures r.config.exePath == c.exePath && r.config.fpsLimiter == c.fpsLimiter
    ensures r.config.windowSize != c.windowSize ==> Filled(f.width, f.height)
    ensures r.config.fpsTarget != c.fpsTarget ==> c.fpsLimiter
    ensures r.error.None? ==> r.config.cursorWidth != 0 && r.config.cursorHeight != 0
    ensures r.error == Some(BadNumber(FpsTarget)) && Filled(f.width, f.height) ==>
              ParseU32(f.width) == Some(r.config.windowSize.0) && ParseU32(f.height) == Some(r.config.windowSize.1)
    ensures r.error == Some(BadNumber(CursorHeight)) ==> ParseU32(f.cursorWidth) == Some(r.config.cursorWidth)
  {
    if c.exePath == "" then Assigned(c, Some(UnspecifiedPath))
    else
      match AssignSize(f, c)
      case Err(e) => Assigned(c, Some(e))
      case Ok(c1) =>
        match AssignFps(f, c1)
        case Err(e) => Assigned(c1, Some(e))
        case Ok(c2) => AssignCursor(f, c2)
  }

  // ---------------------------------------------------------------------
  // What the validator accepts, and what it stores.

  /** The text of a field parses to a number. */
  predicate Parses(f: FormText, x: Field) {
    ParseU32(TextOf(f, x)).Some?
  }

  /** The value a text box stands for: its number when the pair it belongs
      to is filled in, the current value otherwise. */
  function Intended(f: FormText, c: FormConfig): FormConfig
    requires Filled(f.width, f.height) ==> Parses(f, Width) && Parses(f, Height)
    requires c.fpsLimiter ==> Parses(f, FpsTarget)
    requires Filled(f.cursorWidth, f.cursorHeight) ==> Parses(f, CursorWidth) && Parses(f, CursorHeight)
  {
    FormConfig(
      c.exePath,
      if Filled(f.width, f.height) then (ParseU32(f.width).value, ParseU32(f.height).value) else c.windowSize,
      c.fpsLimiter,
      if c.fpsLimiter then ParseU32(f.fpsTarget).value else c.fpsTarget,
      if Filled(f.cursorWidth, f.cursorHeight) then ParseU32(f.cursorWidth).value else c.cursorWidth,
      if Filled(f.cursorWidth, f.cursorHeight) then ParseU32(f.cursorHeight).value else c.cursorHeight)
  }

  /** Every text the validator reads parses. */
  predicate Readable(f: FormText, c: FormConfig) {
    && (Filled(f.width, f.height) ==> Parses(f, Width) && Parses(f, Height))
    && (c.fpsLimiter ==> Parses(f, FpsTarget))
    && (Filled(f.cursorWidth, f.cursorHeight) ==> Parses(f, CursorWidth) && Parses(f, CursorHeight))
  }

  /** The validator accepts exactly a form with an executable path whose
      every read text parses and whose resulting cursor size has no zero
      dimension, and then stores the values the texts stand for. */
  lemma AssignConfAccepts(f: FormText, c: FormConfig)
    ensures AssignConf(f, c).error.None? <==>
              c.exePath != "" && Readable(f, c)
              && Intended(f, c).cursorWidth != 0 && Intended(f, c).cursorHeight != 0
    ensures AssignConf(f, c).error.None? ==> AssignConf(f, c).config == Intended(f, c)
  {
    if c.exePath != "" && AssignSize(f, c).Ok? {
      var c1 := AssignSize(f, c).value;
      assert c1.fpsLimiter == c.fpsLimiter;
    }
  }

  /** Accepting a form again changes nothing: the stored values are the
      ones the texts already stand for. */
  lemma AssignConfIdempotent(f: FormText, c: FormConfig)
    requires AssignConf(f, c).error.None?
    ensures AssignConf(f, AssignConf(f, c).config) == AssignConf(f, c)
  {
    AssignConfAccepts(f, c);
    var d := AssignConf(f, c).config;
    AssignConfAccepts(f, d);
    assert Readable(f, d);
    assert Intended(f, d) == d;
  }
}
