/**
  The line discipline of the configuration file (src/config.rs).

  Reading: every reader splits each line on whitespace. A line whose first
  token is `#` is a comment. A line with fewer than two tokens stops the read
  with an error naming that line (counted from 1). Any other line is a
  key, a value and possibly further arguments, handed to the reader's own
  dispatch, which either updates the value being read or stops the read with
  an error. The value keeps whatever the lines before an error assigned, as
  the source's `&mut self` readers do.

  Writing: every writer emits one `KEY value ...` line per item, in a fixed
  order, straight into the file; when an item cannot be written the writer
  stops with an error and the lines before it stay in the file.
*/
module ConfLines {
  import opened Wrappers
  import opened Text

  /** The errors the readers report: one per `anyhow!` error of the source,
      carrying the line number or token its message names, and
      `InvalidNumber` for the integer-parse error that `parse()?` passes on
      without a line number. */
  datatype ReadError =
    | TooFewArguments(line: nat)
    | InvalidNumber(token: string)
    | UndefinedKeycode(code: U32)
    | InvalidBool(line: nat)
    | InvalidRegion(token: string)
    | InvalidGpuVendor
    | InvalidInputMode
    | WhiteBorderOutOfRange
    | BlackBorderOutOfRange
    | InvalidPrimevalHuntMode
    | InvalidColour

  /** What a reader does with one line: skip it, reject it as too short, or
      dispatch on its key with its value and any further arguments. */
  datatype LineKind = Skip | Short | Entry(key: string, value: string, rest: seq<string>)

  /** The line test exactly as the readers write it: the first token is
      compared with `#` before the token list is checked for emptiness, so a
      line without any token indexes an empty vector and panics (`None`). */
  function ClassifyAsWritten(line: string): (r: Option<LineKind>)
    ensures r.None? <==> SplitWs(line) == []
  {
    var toks := SplitWs(line);
    if |toks| == 0 then None
    else if toks[0] == "#" then Some(Skip)
    else if |toks| < 2 then Some(Short)
    else Some(Entry(toks[0], toks[1], toks[2..]))
  }

  /** The line test with the emptiness check first, as the `|| r.is_empty()`
      in the source evidently intends: a blank line is skipped. */
  function Classify(line: string): (r: LineKind)
    ensures r.Entry? <==> |SplitWs(line)| >= 2 && SplitWs(line)[0] != "#"
    ensures r.Entry? ==> SplitWs(line) == [r.key, r.value] + r.rest
    ensures r.Short? <==> |SplitWs(line)| == 1 && SplitWs(line)[0] != "#"
  {
    var toks := SplitWs(line);
    if |toks| == 0 || toks[0] == "#" then Skip
    else if |toks| < 2 then Short
    else
      assert toks == [toks[0], toks[1]] + toks[2..];
      Entry(toks[0], toks[1], toks[2..])
  }

  /** The two line tests differ exactly on the lines without tokens, where
      the written one panics and the corrected one skips. */
  lemma ClassifyAgrees(line: string)
    ensures SplitWs(line) != [] ==> ClassifyAsWritten(line) == Some(Classify(line))
    ensures SplitWs(line) == [] ==> ClassifyAsWritten(line).None? && Classify(line).Skip?
  {
  }

  /** An empty line: every reader as written panics on it. */
  lemma BlankLinePanics()
    ensures ClassifyAsWritten("").None?
    ensures Classify("") == Skip
  {
    assert SplitWs("") == [];
  }

  /** The line a writer emits for a key and its arguments: `KEY a1 a2 ...`. */
  function KeyLine(key: string, args: seq<string>): string
    requires |args| > 0
  {
    Join([key] + args)
  }

  /** A written line is read back as its key and its arguments. */
  lemma {:induction false} ClassifyKeyLine(key: string, args: seq<string>)
    requires IsToken(key) && key != "#"
    requires |args| > 0 && AllTokens(args)
    ensures Classify(KeyLine(key, args)) == Entry(key, args[0], args[1..])
  {
    var ts := [key] + args;
    assert ts == [key, args[0]] + args[1..];
    SplitJoin(ts);
  }

  /** `r[i].parse::<u32>()?`: a decimal `u32` argument, or the parse error. */
  function U32Arg(s: string): (r: Result<U32, ReadError>)
    ensures r.Ok? <==> ParseU32(s).Some?
    ensures r.Ok? ==> r.value == ParseU32(s).value
    ensures r.Err? ==> r.error == InvalidNumber(s)
  {
    match ParseU32(s)
    case Some(n) => Ok(n)
    case None => Err(InvalidNumber(s))
  }

  // ---------------------------------------------------------------------
  // Reading a whole file.

  /** The value a read leaves behind and the error that stopped it, if any. */
  datatype Outcome<S> = Outcome(state: S, error: Option<ReadError>)

  /** A reader's dispatch: the value so far, the key, its value, the further
      arguments and the line number give the updated value or an error. */
  type Step<!S> = (S, string, string, seq<string>, nat) -> Result<S, ReadError>

  /** Reads `lines`, numbered from `first`, into `s` with `step`. */
  function Scan<S>(step: Step<S>, s: S, lines: seq<string>, first: nat): Outcome<S>
    decreases |lines|
  {
    if |lines| == 0 then Outcome(s, None)
    else
      match Classify(lines[0])
      case Skip => Scan(step, s, lines[1..], first + 1)
      case Short => Outcome(s, Some(TooFewArguments(first)))
      case Entry(key, value, rest) =>
        match step(s, key, value, rest, first)
        case Err(e) => Outcome(s, Some(e))
        case Ok(s') => Scan(step, s', lines[1..], first + 1)
  }

  /** A line the reader passes over whatever the value: a comment, or a key
      its dispatch leaves alone. */
  ghost predicate Ignores<S(!new)>(step: Step<S>, line: string) {
    match Classify(line)
    case Skip => true
    case Short => false
    case Entry(key, value, rest) => forall s: S, n: nat :: step(s, key, value, rest, n) == Ok(s)
  }

  /** Reading two pieces of a file one after the other is reading the whole:
      the second piece starts where the first stopped, unless the first
      stopped with an error. */
  lemma {:induction false} ScanAppend<S>(step: Step<S>, s: S, a: seq<string>, b: seq<string>, first: nat)
    ensures Scan(step, s, a + b, first) ==
      (var ra := Scan(step, s, a, first);
       if ra.error.Some? then ra else Scan(step, ra.state, b, first + |a|))
    decreases |a|
  {
    if |a| > 0 {
      assert (a + b)[0] == a[0];
      assert (a + b)[1..] == a[1..] + b;
      match Classify(a[0])
      case Skip =>
        ScanAppend(step, s, a[1..], b, first + 1);
      case Short =>
      case Entry(key, value, rest) =>
        match step(s, key, value, rest, first)
        case Err(e) =>
        case Ok(s') =>
          ScanAppend(step, s', a[1..], b, first + 1);
    } else {
      assert a + b == b;
    }
  }

  /** Lines the reader passes over leave the value as it was and raise no
      error. */
  lemma {:induction false} ScanIgnored<S(!new)>(step: Step<S>, s: S, lines: seq<string>, first: nat)
    requires forall i :: 0 <= i < |lines| ==> Ignores(step, lines[i])
    ensures Scan(step, s, lines, first) == Outcome(s, None)
    decreases |lines|
  {
    if |lines| > 0 {
      assert Ignores(step, lines[0]);
      var kind := Classify(lines[0]);
      if kind.Entry? {
        assert step(s, kind.key, kind.value, kind.rest, first) == Ok(s);
      }
      ScanIgnored(step, s, lines[1..], first + 1);
    }
  }

  /** Lines a reader passes over at the start of a file change nothing but
      the numbering of the lines after them. */
  lemma ScanIgnoredPrefix<S(!new)>(step: Step<S>, s: S, pre: seq<string>, lines: seq<string>, first: nat)
    requires forall i :: 0 <= i < |pre| ==> Ignores(step, pre[i])
    ensures Scan(step, s, pre + lines, first) == Scan(step, s, lines, first + |pre|)
  {
    ScanAppend(step, s, pre, lines, first);
    ScanIgnored(step, s, pre, first);
  }

  /** A line with a single token stops the read there, naming its 1-based
      line number, when every line before it was passed over. */
  lemma {:induction false} ScanStopsAtShortLine<S(!new)>(step: Step<S>, s: S, lines: seq<string>, i: nat)
    requires i < |lines| && Classify(lines[i]).Short?
    requires forall j :: 0 <= j < i ==> Ignores(step, lines[j])
    ensures Scan(step, s, lines, 1) == Outcome(s, Some(TooFewArguments(i + 1)))
  {
    assert lines == lines[..i] + lines[i..];
    ScanIgnored(step, s, lines[..i], 1);
    ScanAppend(step, s, lines[..i], lines[i..], 1);
  }

  // ---------------------------------------------------------------------
  // Writing.

  /** The errors the writers report. `MissingButton` stands for the panic of
      `unwrap()` on an evdev button 5..8 that is not set. */
  datatype WriteError =
    | NoSdlTestKey
    | NoSdlCoinKey
    | NoKeycode
    | NoEvdevTestKey
    | MissingButton

  /** The lines a writer put into the file and the error that stopped it. */
  datatype Written = Written(lines: seq<string>, error: Option<WriteError>)

  /** Writing the items `xs` in order, each as `KEY args`: `render` gives an
      item's arguments or the error that stops the writer at that item. */
  function WriteEach<X>(key: X -> string, render: X -> Result<seq<string>, WriteError>, xs: seq<X>): (w: Written)
    ensures |w.lines| <= |xs|
    ensures w.error.None? ==> |w.lines| == |xs|
  {
    if |xs| == 0 then Written([], None)
    else
      match render(xs[0])
      case Err(e) => Written([], Some(e))
      case Ok(args) =>
        var tail := WriteEach(key, render, xs[1..]);
        Written([LineOf(key, render, xs[0])] + tail.lines, tail.error)
  }

  /** The line written for an item: `KEY args`. */
  function LineOf<X>(key: X -> string, render: X -> Result<seq<string>, WriteError>, x: X): string
    requires render(x).Ok?
  {
    var args := render(x).value;
    if |args| > 0 then KeyLine(key(x), args) else key(x)
  }

  /** The writer's lines are the lines of the items, in order. */
  lemma {:induction false} WriteEachLine<X>(key: X -> string, render: X -> Result<seq<string>, WriteError>, xs: seq<X>, j: nat)
    requires j < |WriteEach(key, render, xs).lines|
    ensures j < |xs| && render(xs[j]).Ok?
    ensures WriteEach(key, render, xs).lines[j] == LineOf(key, render, xs[j])
    decreases |xs|
  {
    if j > 0 {
      WriteEachLine(key, render, xs[1..], j - 1);
    }
  }

  /** A reader that passes over the line of every item passes over
      everything the writer wrote. */
  lemma WriteEachIgnored<S(!new), X>(step: Step<S>, key: X -> string, render: X -> Result<seq<string>, WriteError>, xs: seq<X>)
    requires forall i :: 0 <= i < |xs| && render(xs[i]).Ok? ==> Ignores(step, LineOf(key, render, xs[i]))
    ensures forall j :: 0 <= j < |WriteEach(key, render, xs).lines| ==> Ignores(step, WriteEach(key, render, xs).lines[j])
  {
    forall j | 0 <= j < |WriteEach(key, render, xs).lines|
      ensures Ignores(step, WriteEach(key, render, xs).lines[j])
    {
      WriteEachLine(key, render, xs, j);
    }
  }

  /** The writer gets through every item exactly when each item renders. */
  lemma {:induction false} WriteEachSucceeds<X>(key: X -> string, render: X -> Result<seq<string>, WriteError>, xs: seq<X>)
    ensures WriteEach(key, render, xs).error.None? <==> forall i :: 0 <= i < |xs| ==> render(xs[i]).Ok?
    decreases |xs|
  {
    if |xs| > 0 {
      WriteEachSucceeds(key, render, xs[1..]);
      assert forall i :: 1 <= i < |xs| ==> xs[i] == xs[1..][i - 1];
    }
  }

  /** Applying `assign` for each item in order. */
  function Fold<S, X>(assign: (S, X) -> S, s: S, xs: seq<X>): S
    decreases |xs|
  {
    if |xs| == 0 then s else Fold(assign, assign(s, xs[0]), xs[1..])
  }

  /** Reading back what a writer wrote: when every item was written and the
      reader turns the line of each item into `assign` of that item, the
      read applies `assign` for each item in the order written. */
  lemma {:induction false} ScanWriteEach<S, X>(step: Step<S>, key: X -> string,
                                               render: X -> Result<seq<string>, WriteError>,
                                               assign: (S, X) -> S, xs: seq<X>, s: S, first: nat)
    requires WriteEach(key, render, xs).error.None?
    requires forall i :: 0 <= i < |xs| ==> Written1(key, render, xs[i])
    requires forall i, t: S, n: nat :: 0 <= i < |xs| && render(xs[i]).Ok? && |render(xs[i]).value| > 0 ==>
               step(t, key(xs[i]), render(xs[i]).value[0], render(xs[i]).value[1..], n) == Ok(assign(t, xs[i]))
    ensures Scan(step, s, WriteEach(key, render, xs).lines, first) == Outcome(Fold(assign, s, xs), None)
    decreases |xs|
  {
    if |xs| > 0 {
      var x := xs[0];
      assert Written1(key, render, x);
      var args := render(x).value;
      ClassifyKeyLine(key(x), args);
      assert step(s, key(x), args[0], args[1..], first) == Ok(assign(s, x));
      forall i, t: S, n: nat | 0 <= i < |xs[1..]| && render(xs[1..][i]).Ok? && |render(xs[1..][i]).value| > 0
        ensures step(t, key(xs[1..][i]), render(xs[1..][i]).value[0], render(xs[1..][i]).value[1..], n)
             == Ok(assign(t, xs[1..][i]))
      {
        assert xs[1..][i] == xs[i + 1];
      }
      ScanWriteEach(step, key, render, assign, xs[1..], assign(s, x), first + 1);
    }
  }

  /** Lines of items that read back are each one line of the file. */
  lemma WriteEachNoNewline<X>(key: X -> string, render: X -> Result<seq<string>, WriteError>, xs: seq<X>)
    requires forall i :: 0 <= i < |xs| ==> Written1(key, render, xs[i])
    ensures LinesFree(WriteEach(key, render, xs).lines)
  {
    forall j | 0 <= j < |WriteEach(key, render, xs).lines|
      ensures NoNewline(WriteEach(key, render, xs).lines[j])
    {
      WriteEachLine(key, render, xs, j);
      JoinNoNewline([key(xs[j])] + render(xs[j]).value);
    }
  }

  /** An item whose line reads back as a key and its arguments. */
  predicate Written1<X>(key: X -> string, render: X -> Result<seq<string>, WriteError>, x: X) {
    && IsToken(key(x)) && key(x) != "#"
    && render(x).Ok? && |render(x).value| > 0 && AllTokens(render(x).value)
  }
}
