/**
  Text primitives the codecs are built on: whitespace tokenisation as Rust's
  `str::split_whitespace` performs it, the joining of tokens the writers use
  (`writeln!(f, "KEY {}", v)`), and decimal integers as `u32::from_str` /
  `i32::from_str` parse them and `Display` prints them.
*/
module Text {
  import opened Wrappers

  /** Unsigned 32-bit integers (`u32`). */
  const U32_LIMIT: int := 0x1_0000_0000
  type U32 = n: int | 0 <= n < U32_LIMIT

  /** The Unicode White_Space property, as `char::is_whitespace` tests it. */
  predicate IsWs(c: char) {
    || c == ' '
    || ('\t' <= c <= '\r')
    || c == '\U{85}'
    || c == '\U{A0}'
    || c == '\U{1680}'
    || ('\U{2000}' <= c <= '\U{200A}')
    || c == '\U{2028}'
    || c == '\U{2029}'
    || c == '\U{202F}'
    || c == '\U{205F}'
    || c == '\U{3000}'
  }

  predicate NoWs(s: string) {
    forall i :: 0 <= i < |s| ==> !IsWs(s[i])
  }

  /** A string that survives tokenisation as exactly one token. */
  predicate IsToken(s: string) {
    |s| > 0 && NoWs(s)
  }

  /** Length of the longest whitespace-free prefix of `s`. */
  function WordLen(s: string): (n: nat)
    ensures n <= |s|
    ensures NoWs(s[..n])
    ensures n < |s| ==> IsWs(s[n])
  {
    if |s| == 0 || IsWs(s[0]) then 0
    else
      var n := 1 + WordLen(s[1..]);
      assert s[..n] == [s[0]] + s[1..][..n - 1];
      n
  }

  /** The maximal whitespace-free runs of `s`, in order: `split_whitespace`. */
  function SplitWs(s: string): (r: seq<string>)
    ensures forall i :: 0 <= i < |r| ==> IsToken(r[i])
    decreases |s|
  {
    if |s| == 0 then []
    else if IsWs(s[0]) then SplitWs(s[1..])
    else
      var n := WordLen(s);
      [s[..n]] + SplitWs(s[n..])
  }

  /** Tokens separated by single spaces, as the writers format a line. */
  function Join(ts: seq<string>): string
    requires |ts| > 0
  {
    if |ts| == 1 then ts[0] else ts[0] + " " + Join(ts[1..])
  }

  predicate AllTokens(ts: seq<string>) {
    forall i :: 0 <= i < |ts| ==> IsToken(ts[i])
  }

  /** A string that fits on one line of a file. */
  predicate NoNewline(s: string) {
    forall i :: 0 <= i < |s| ==> s[i] != '\n'
  }

  /** Lines none of which holds a line break. */
  predicate LinesFree(ls: seq<string>) {
    forall j :: 0 <= j < |ls| ==> NoNewline(ls[j])
  }

  lemma LinesFreeConcat(a: seq<string>, b: seq<string>)
    requires LinesFree(a) && LinesFree(b)
    ensures LinesFree(a + b)
  {
    forall j | 0 <= j < |a + b| ensures NoNewline((a + b)[j]) {
      if j >= |a| {
        assert (a + b)[j] == b[j - |a|];
      }
    }
  }

  /** Tokens joined by spaces stay on one line. */
  lemma {:induction false} JoinNoNewline(ts: seq<string>)
    requires |ts| > 0 && AllTokens(ts)
    ensures NoNewline(Join(ts))
    decreases |ts|
  {
    if |ts| > 1 {
      JoinNoNewline(ts[1..]);
      var r := Join(ts[1..]);
      assert Join(ts) == ts[0] + " " + r;
      forall i | 0 <= i < |Join(ts)| ensures Join(ts)[i] != '\n' {
        if i < |ts[0]| {
          assert Join(ts)[i] == ts[0][i];
        } else if i > |ts[0]| {
          assert Join(ts)[i] == r[i - |ts[0]| - 1];
        }
      }
    }
  }

  lemma {:induction false} WordLenPrefix(t: string, r: string)
    requires NoWs(t)
    ensures WordLen(t + r) == |t| + WordLen(r)
    decreases |t|
  {
    if |t| > 0 {
      assert (t + r)[0] == t[0];
      assert (t + r)[1..] == t[1..] + r;
      WordLenPrefix(t[1..], r);
    } else {
      assert t + r == r;
    }
  }

  lemma TokenConcat(a: string, b: string)
    requires IsToken(a) && NoWs(b)
    ensures IsToken(a + b)
  {
    forall i | 0 <= i < |a + b| ensures !IsWs((a + b)[i]) {
      if i < |a| { assert (a + b)[i] == a[i]; } else { assert (a + b)[i] == b[i - |a|]; }
    }
  }

  lemma SplitWsLeadingSpace(r: string)
    ensures SplitWs(" " + r) == SplitWs(r)
  {
    assert (" " + r)[1..] == r;
  }

  /** A token followed by a space and more text splits off as its first token. */
  lemma SplitWsCons(t: string, r: string)
    requires IsToken(t)
    ensures SplitWs(t + " " + r) == [t] + SplitWs(r)
  {
    var s := t + " " + r;
    assert s == t + (" " + r);
    WordLenPrefix(t, " " + r);
    assert WordLen(" " + r) == 0;
    assert s[..|t|] == t;
    assert s[|t|..] == " " + r;
    SplitWsLeadingSpace(r);
  }

  lemma SplitWsToken(t: string)
    requires IsToken(t)
    ensures SplitWs(t) == [t]
  {
    WordLenPrefix(t, "");
    assert t + "" == t;
    assert t[|t|..] == "";
  }

  /** Tokenising a written line gives back the tokens it was written from. */
  lemma {:induction false} SplitJoin(ts: seq<string>)
    requires |ts| > 0 && AllTokens(ts)
    ensures SplitWs(Join(ts)) == ts
    decreases |ts|
  {
    if |ts| == 1 {
      SplitWsToken(ts[0]);
    } else {
      SplitWsCons(ts[0], Join(ts[1..]));
      SplitJoin(ts[1..]);
    }
  }

  // ---------------------------------------------------------------------
  // String predicates used by the executable-path registry.

  predicate StartsWith(s: string, p: string) {
    |p| <= |s| && s[..|p|] == p
  }

  /** `str::contains` with a string pattern. */
  predicate Contains(s: string, sub: string)
    decreases |s|
  {
    StartsWith(s, sub) || (|s| > 0 && Contains(s[1..], sub))
  }

  /** `s.trim().is_empty()`. */
  predicate IsBlank(s: string) {
    forall i :: 0 <= i < |s| ==> IsWs(s[i])
  }

  /** Index of the first whitespace character of `s`, if any. */
  function FirstWs(s: string): (r: Option<nat>)
    ensures r.Some? ==> r.value < |s| && IsWs(s[r.value]) && NoWs(s[..r.value])
    ensures r.None? ==> NoWs(s)
  {
    var n := WordLen(s);
    if n < |s| then Some(n) else (assert s[..n] == s; None)
  }

  /** `s.split_once(char::is_whitespace)`: the text before the first whitespace
      character and the text after it (that one character removed). */
  function SplitOnceWs(s: string): (r: Option<(string, string)>)
    ensures r.None? <==> NoWs(s)
    ensures r.Some? ==> |r.value.0| < |s| && s == r.value.0 + [s[|r.value.0|]] + r.value.1
    ensures r.Some? ==> NoWs(r.value.0) && IsWs(s[|r.value.0|])
  {
    match FirstWs(s)
    case None => None
    case Some(i) =>
      assert s == s[..i] + [s[i]] + s[i + 1..];
      Some((s[..i], s[i + 1..]))
  }

  // ---------------------------------------------------------------------
  // Decimal integers.

  predicate IsDigit(c: char) { '0' <= c <= '9' }

  predicate AllDigits(s: string) {
    forall i :: 0 <= i < |s| ==> IsDigit(s[i])
  }

  function DigitValue(c: char): nat
    requires IsDigit(c)
  {
    (c as int) - ('0' as int)
  }

  function DigitChar(d: nat): (c: char)
    requires d < 10
    ensures IsDigit(c) && DigitValue(c) == d
  {
    ('0' as int + d) as char
  }

  /** Value of a string of decimal digits, most significant first. */
  function DigitsValue(s: string): nat
    requires AllDigits(s)
  {
    if |s| == 0 then 0 else 10 * DigitsValue(s[..|s| - 1]) + DigitValue(s[|s| - 1])
  }

  /** Decimal rendering of a natural number, as `Display` prints integers. */
  function ShowNat(n: nat): (s: string)
    ensures |s| > 0 && AllDigits(s)
  {
    if n < 10 then [DigitChar(n)] else ShowNat(n / 10) + [DigitChar(n % 10)]
  }

  /** A non-empty string of decimal digits and its value; anything else fails. */
  function ParseNat(s: string): (r: Option<nat>)
    ensures r.Some? <==> |s| > 0 && AllDigits(s)
  {
    if |s| > 0 && AllDigits(s) then Some(DigitsValue(s)) else None
  }

  lemma {:induction false} ParseShowNat(n: nat)
    ensures ParseNat(ShowNat(n)) == Some(n)
    decreases n
  {
    var s := ShowNat(n);
    if n >= 10 {
      assert s[..|s| - 1] == ShowNat(n / 10);
      assert s[|s| - 1] == DigitChar(n % 10);
      ParseShowNat(n / 10);
      assert DigitsValue(s) == 10 * (n / 10) + n % 10;
    } else {
      assert s[..0] == [];
      assert DigitsValue(s) == DigitValue(s[0]);
    }
  }

  lemma ShowNatIsToken(n: nat)
    ensures IsToken(ShowNat(n))
  {
    var s := ShowNat(n);
    forall i | 0 <= i < |s| ensures !IsWs(s[i]) {
      assert IsDigit(s[i]);
    }
  }

  /** `u32::from_str`: an optional `+`, then at least one decimal digit, and
      a value below 2^32. A `-` sign is not accepted for an unsigned type. */
  function ParseU32(s: string): (r: Option<U32>)
    ensures r.Some? ==> |s| > 0 && s[0] != '-'
  {
    var digits := if |s| > 0 && s[0] == '+' then s[1..] else s;
    match ParseNat(digits)
    case Some(n) => if n < U32_LIMIT then Some(n) else None
    case None => None
  }

  /** `i32::from_str`: an optional sign, then at least one decimal digit, and
      a value in -2^31 .. 2^31-1. */
  function ParseI32(s: string): (r: Option<int>)
    ensures r.Some? ==> -0x8000_0000 <= r.value < 0x8000_0000
  {
    if |s| > 0 && s[0] == '-' then
      match ParseNat(s[1..])
      case Some(n) => if n <= 0x8000_0000 then Some(0 - n) else None
      case None => None
    else
      var digits := if |s| > 0 && s[0] == '+' then s[1..] else s;
      match ParseNat(digits)
      case Some(n) => if n < 0x8000_0000 then Some(n) else None
      case None => None
  }

  lemma ParseU32Show(n: U32)
    ensures ParseU32(ShowNat(n)) == Some(n)
  {
    ParseShowNat(n);
  }

  lemma ParseI32Show(n: nat)
    requires n < 0x8000_0000
    ensures ParseI32(ShowNat(n)) == Some(n)
  {
    ParseShowNat(n);
  }
}
