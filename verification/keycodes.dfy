/**
  The keycode table of the front end (src/ui.rs, `egui_key_to_keycode` and
  `egui_keycode_to_key`): a partial map between keyboard keys and X11
  keycodes, in both directions. F13..F35 are deliberately not mapped, and the
  map from keys to codes is not injective: four shifted symbols share the code
  of their unshifted key.
*/
module KeyCodes {
  import opened Wrappers
  import opened Text

  type DigitNum = d: int | 0 <= d < 10
  type LetterChar = c: char | 'A' <= c <= 'Z' witness 'A'
  type FunctionNum = n: int | 1 <= n <= 35 witness 1

  /** The keys of the toolkit named by a word rather than a digit, a letter or
      an F-number, as far as the two tables mention them. */
  datatype NamedKey =
      Minus | Equals | Plus | Backspace | Tab | Semicolon | Colon | Quote
    | Backtick | Backslash | Pipe | Comma | Period | Slash | Questionmark | Space
    | Home | ArrowUp | PageUp | ArrowLeft | ArrowRight | End | ArrowDown | PageDown
    | Insert | Delete | Escape | Enter | OpenBracket | CloseBracket | Copy | Paste
    | Cut

  /** A keyboard key: the digit keys `Num0`..`Num9`, the letter keys `A`..`Z`,
      the function keys `F1`..`F35`, the named keys, and `Other` for every
      remaining key of the toolkit (none of which either table mentions). */
  datatype Key =
    | Digit(d: DigitNum)
    | Letter(c: LetterChar)
    | Function(n: FunctionNum)
    | Named(key: NamedKey)
    | Other

  /** The toolkit's name of a named key: a word of at least two letters that
      starts with neither a digit nor `F`. */
  function NamedKeyName(k: NamedKey): (s: string)
    ensures |s| > 1 && !IsNumeric(s[0]) && s[0] != 'F'
  {
    match k
    case Minus => "Minus"
    case Equals => "Equals"
    case Plus => "Plus"
    case Backspace => "Backspace"
    case Tab => "Tab"
    case Semicolon => "Semicolon"
    case Colon => "Colon"
    case Quote => "Quote"
    case Backtick => "Backtick"
    case Backslash => "Backslash"
    case Pipe => "Pipe"
    case Comma => "Comma"
    case Period => "Period"
    case Slash => "Slash"
    case Questionmark => "Questionmark"
    case Space => "Space"
    case Home => "Home"
    case ArrowUp => "Up"
    case PageUp => "PageUp"
    case ArrowLeft => "Left"
    case ArrowRight => "Right"
    case End => "End"
    case ArrowDown => "Down"
    case PageDown => "PageDown"
    case Insert => "Insert"
    case Delete => "Delete"
    case Escape => "Escape"
    case Enter => "Enter"
    case OpenBracket => "OpenBracket"
    case CloseBracket => "CloseBracket"
    case Copy => "Copy"
    case Paste => "Paste"
    case Cut => "Cut"
  }

  /** The key's name as the toolkit spells it: the digit or the letter itself,
      `F` followed by the number for function keys, a word otherwise. */
  function Name(k: Key): (s: string)
    ensures |s| > 0
  {
    match k
    case Digit(d) => [DigitChar(d)]
    case Letter(c) => [c]
    case Function(n) => "F" + ShowNat(n)
    case Named(key) => NamedKeyName(key)
    case Other => "Other"
  }

  predicate IsNumeric(c: char) { '0' <= c <= '9' }

  predicate IsAlphabetic(c: char) { 'A' <= c <= 'Z' || 'a' <= c <= 'z' }

  /** Codes of the single-letter keys, by their letter. */
  function LetterCode(c: char): Option<U32> {
    match c
    case 'Q' => Some(24)
    case 'W' => Some(25)
    case 'E' => Some(26)
    case 'R' => Some(27)
    case 'T' => Some(28)
    case 'Y' => Some(29)
    case 'U' => Some(30)
    case 'I' => Some(31)
    case 'O' => Some(32)
    case 'P' => Some(33)
    case 'A' => Some(38)
    case 'S' => Some(39)
    case 'D' => Some(40)
    case 'F' => Some(41)
    case 'G' => Some(42)
    case 'H' => Some(43)
    case 'J' => Some(44)
    case 'K' => Some(45)
    case 'L' => Some(46)
    case 'Z' => Some(52)
    case 'X' => Some(53)
    case 'C' => Some(54)
    case 'V' => Some(55)
    case 'B' => Some(56)
    case 'N' => Some(57)
    case 'M' => Some(58)
    case _ => None
  }

  /** Codes of the function keys by number: F1..F12 only. */
  function FunctionCode(n: FunctionNum): Option<U32> {
    match n
    case 1 => Some(67)
    case 2 => Some(68)
    case 3 => Some(69)
    case 4 => Some(70)
    case 5 => Some(71)
    case 6 => Some(72)
    case 7 => Some(73)
    case 8 => Some(74)
    case 9 => Some(75)
    case 10 => Some(76)
    case 11 => Some(95)
    case 12 => Some(96)
    case _ => None
  }

  /** Codes of the named keys. */
  function NamedCode(key: NamedKey): Option<U32> {
    match key
    case Minus => Some(20)
    case Equals => Some(21)
    case Backspace => Some(22)
    case Tab => Some(23)
    case Semicolon => Some(47)
    case Quote => Some(48)
    case Backtick => Some(49)
    case Backslash => Some(51)
    case Comma => Some(59)
    case Period => Some(60)
    case Slash => Some(61)
    case Space => Some(65)
    case Home => Some(110)
    case ArrowUp => Some(111)
    case PageUp => Some(112)
    case ArrowLeft => Some(113)
    case ArrowRight => Some(114)
    case End => Some(115)
    case ArrowDown => Some(116)
    case PageDown => Some(117)
    case Insert => Some(118)
    case Delete => Some(119)
    case Escape => Some(9)
    case Enter => Some(36)
    case Colon => Some(47)
    case Plus => Some(21)
    case OpenBracket => Some(34)
    case CloseBracket => Some(35)
    case Pipe => Some(51)
    case Questionmark => Some(61)
    case Copy => Some(141)
    case Paste => Some(144)
    case Cut => Some(145)
  }

  /** The table consulted for a key whose name starts with `F` and is longer
      than one letter: only function keys reach it. */
  function FunctionKeyCode(k: Key): Option<U32> {
    match k
    case Function(n) => FunctionCode(n)
    case _ => None
  }

  /** The table consulted for every other key: only named keys and `Other` reach it. */
  function NamedKeyCode(k: Key): Option<U32> {
    match k
    case Named(key) => NamedCode(key)
    case _ => None
  }

  /** Key to keycode (`egui_key_to_keycode`). The name's first character picks
      the branch: a digit gives 19 for `0` and the character code minus 39
      otherwise; a one-letter name goes through the letter table; a longer name
      starting with `F` through the function-key table; everything else
      through the table of named keys. */
  function Encode(k: Key): Option<U32> {
    var name := Name(k);
    var zero := name[0];
    if IsNumeric(zero) then
      if zero == '0' then Some(19) else Some((zero as int) - 39)
    else if IsAlphabetic(zero) && |name| == 1 then LetterCode(zero)
    else if zero == 'F' && |name| > 1 then FunctionKeyCode(k)
    else NamedKeyCode(k)
  }

  /** Keycode to key (`egui_keycode_to_key`). */
  function Decode(code: U32): Option<Key> {
    match code
    case 19 => Some(Digit(0))
    case 10 => Some(Digit(1))
    case 11 => Some(Digit(2))
    case 12 => Some(Digit(3))
    case 13 => Some(Digit(4))
    case 14 => Some(Digit(5))
    case 15 => Some(Digit(6))
    case 16 => Some(Digit(7))
    case 17 => Some(Digit(8))
    case 18 => Some(Digit(9))
    case 20 => Some(Named(Minus))
    case 21 => Some(Named(Equals))
    case 24 => Some(Letter('Q'))
    case 25 => Some(Letter('W'))
    case 26 => Some(Letter('E'))
    case 27 => Some(Letter('R'))
    case 28 => Some(Letter('T'))
    case 29 => Some(Letter('Y'))
    case 30 => Some(Letter('U'))
    case 31 => Some(Letter('I'))
    case 32 => Some(Letter('O'))
    case 33 => Some(Letter('P'))
    case 38 => Some(Letter('A'))
    case 39 => Some(Letter('S'))
    case 40 => Some(Letter('D'))
    case 41 => Some(Letter('F'))
    case 42 => Some(Letter('G'))
    case 43 => Some(Letter('H'))
    case 44 => Some(Letter('J'))
    case 45 => Some(Letter('K'))
    case 46 => Some(Letter('L'))
    case 52 => Some(Letter('Z'))
    case 53 => Some(Letter('X'))
    case 54 => Some(Letter('C'))
    case 55 => Some(Letter('V'))
    case 56 => Some(Letter('B'))
    case 57 => Some(Letter('N'))
    case 58 => Some(Letter('M'))
    case 67 => Some(Function(1))
    case 68 => Some(Function(2))
    case 69 => Some(Function(3))
    case 70 => Some(Function(4))
    case 71 => Some(Function(5))
    case 72 => Some(Function(6))
    case 73 => Some(Function(7))
    case 74 => Some(Function(8))
    case 75 => Some(Function(9))
    case 76 => Some(Function(10))
    case 95 => Some(Function(11))
    case 96 => Some(Function(12))
    case 34 => Some(Named(OpenBracket))
    case 35 => Some(Named(CloseBracket))
    case 47 => Some(Named(Semicolon))
    case 48 => Some(Named(Quote))
    case 49 => Some(Named(Backtick))
    case 51 => Some(Named(Backslash))
    case 59 => Some(Named(Comma))
    case 60 => Some(Named(Period))
    case 61 => Some(Named(Slash))
    case 65 => Some(Named(Space))
    case 9 => Some(Named(Escape))
    case 22 => Some(Named(Backspace))
    case 23 => Some(Named(Tab))
    case 36 => Some(Named(Enter))
    case 110 => Some(Named(Home))
    case 111 => Some(Named(ArrowUp))
    case 112 => Some(Named(PageUp))
    case 113 => Some(Named(ArrowLeft))
    case 114 => Some(Named(ArrowRight))
    case 115 => Some(Named(End))
    case 116 => Some(Named(ArrowDown))
    case 117 => Some(Named(PageDown))
    case 118 => Some(Named(Insert))
    case 119 => Some(Named(Delete))
    case 141 => Some(Named(Copy))
    case 144 => Some(Named(Paste))
    case 145 => Some(Named(Cut))
    case _ => None
  }

  /** The codes `Decode` knows: 9..36, 38..49, 51..61, 65, 67..76, 95, 96,
      110..119, 141, 144 and 145. */
  predicate Decodable(code: int) {
    || 9 <= code <= 36
    || 38 <= code <= 49
    || 51 <= code <= 61
    || code == 65
    || 67 <= code <= 76
    || code == 95
    || code == 96
    || 110 <= code <= 119
    || code == 141
    || code == 144
    || code == 145
  }

  /** The four shifted symbols that share their unshifted key's code. */
  const Aliases: set<Key> := {Named(Colon), Named(Plus), Named(Pipe), Named(Questionmark)}

  /** The key a code decodes to after encoding `k`: `k` itself except for the
      four aliases, which come back as their unshifted partner. */
  function Canonical(k: Key): Key {
    match k
    case Named(Colon) => Named(Semicolon)
    case Named(Plus) => Named(Equals)
    case Named(Pipe) => Named(Backslash)
    case Named(Questionmark) => Named(Slash)
    case _ => k
  }

  /** The code of every key by kind of key: the table `Encode` reaches
      through the first character of the key's name. */
  function CodeTable(k: Key): Option<U32> {
    match k
    case Digit(d) => if d == 0 then Some(19) else Some(d + 9)
    case Letter(c) => LetterCode(c)
    case Function(n) => FunctionCode(n)
    case Named(key) => NamedCode(key)
    case Other => None
  }

  /** The name-driven dispatch of `Encode` sends every kind of key to its table. */
  lemma EncodeIsTable(k: Key)
    ensures Encode(k) == CodeTable(k)
  {
    match k
    case Digit(d) =>
      assert Name(k)[0] == DigitChar(d);
    case Letter(c) =>
    case Function(n) =>
      assert Name(k)[0] == 'F' && |Name(k)| > 1;
    case Named(key) =>
    case Other =>
  }

  /** `Decode` inverts `CodeTable` on the codes below 40. */
  lemma DecodeInvertsTableLow(code: U32)
    requires code < 40
    ensures Decode(code).Some? ==> CodeTable(Decode(code).value) == Some(code)
  {
  }

  /** `Decode` inverts `CodeTable` on the codes 40..99. */
  lemma DecodeInvertsTableMid(code: U32)
    requires 40 <= code < 100
    ensures Decode(code).Some? ==> CodeTable(Decode(code).value) == Some(code)
  {
  }

  /** `Decode` inverts `CodeTable` on the codes from 100 on. */
  lemma DecodeInvertsTableHigh(code: U32)
    requires 100 <= code
    ensures Decode(code).Some? ==> CodeTable(Decode(code).value) == Some(code)
  {
  }

  /** Decoding never guesses: every decoded key encodes back to its code. */
  lemma DecodeThenEncode(code: U32)
    ensures Decode(code).Some? ==> Encode(Decode(code).value) == Some(code)
  {
    if code < 40 {
      DecodeInvertsTableLow(code);
    } else if code < 100 {
      DecodeInvertsTableMid(code);
    } else {
      DecodeInvertsTableHigh(code);
    }
    if Decode(code).Some? {
      EncodeIsTable(Decode(code).value);
    }
  }

  /** `Decode` is defined exactly on its listed codes. */
  lemma DecodeDomain(code: U32)
    ensures Decode(code).Some? <==> Decodable(code)
  {
  }

  /** `EncodeThenDecode` on the named keys. */
  lemma EncodeThenDecodeNamed(key: NamedKey)
    requires Encode(Named(key)).Some?
    ensures Decode(Encode(Named(key)).value) == Some(Canonical(Named(key)))
  {
    EncodeIsTable(Named(key));
    NamedCodeDecodes(key);
  }

  /** Every named key has a code, and the code decodes to the key's
      canonical form. */
  lemma NamedCodeDecodes(key: NamedKey)
    ensures NamedCode(key).Some? && Decode(NamedCode(key).value) == Some(Canonical(Named(key)))
  {
    if key.Minus? || key.Equals? || key.Plus? || key.Backspace? || key.Tab? || key.Semicolon? || key.Colon? || key.Quote? || key.Backtick? || key.Backslash? || key.Pipe? || key.Comma? || key.Period? || key.Slash? || key.Questionmark? || key.Space? {
      NamedCodeDecodesLow(key);
    } else if key.Home? || key.ArrowUp? || key.PageUp? || key.ArrowLeft? || key.ArrowRight? || key.End? || key.ArrowDown? || key.PageDown? {
      NamedCodeDecodesNavigation(key);
    } else {
      NamedCodeDecodesRest(key);
    }
  }

  lemma NamedCodeDecodesLow(key: NamedKey)
    requires key.Minus? || key.Equals? || key.Plus? || key.Backspace? || key.Tab? || key.Semicolon? || key.Colon? || key.Quote? || key.Backtick? || key.Backslash? || key.Pipe? || key.Comma? || key.Period? || key.Slash? || key.Questionmark? || key.Space?
    ensures NamedCode(key).Some? && Decode(NamedCode(key).value) == Some(Canonical(Named(key)))
  {
  }

  lemma NamedCodeDecodesNavigation(key: NamedKey)
    requires key.Home? || key.ArrowUp? || key.PageUp? || key.ArrowLeft? || key.ArrowRight? || key.End? || key.ArrowDown? || key.PageDown?
    ensures NamedCode(key).Some? && Decode(NamedCode(key).value) == Some(Canonical(Named(key)))
  {
  }

  lemma NamedCodeDecodesRest(key: NamedKey)
    requires key.Insert? || key.Delete? || key.Escape? || key.Enter? || key.OpenBracket? || key.CloseBracket? || key.Copy? || key.Paste? || key.Cut?
    ensures NamedCode(key).Some? && Decode(NamedCode(key).value) == Some(Canonical(Named(key)))
  {
  }

  /** `EncodeThenDecode` on the letter keys. */
  lemma EncodeThenDecodeLetter(c: LetterChar)
    requires Encode(Letter(c)).Some?
    ensures Decode(Encode(Letter(c)).value) == Some(Letter(c))
  {
    EncodeIsTable(Letter(c));
  }

  /** Encoding then decoding gives the key back, except for the four aliases,
      which come back as their unshifted partner. */
  lemma EncodeThenDecode(k: Key)
    requires Encode(k).Some?
    ensures Decode(Encode(k).value) == Some(Canonical(k))
    ensures Decode(Encode(k).value) == Some(k) <==> k !in Aliases
  {
    EncodeIsTable(k);
    match k
    case Named(key) => EncodeThenDecodeNamed(key);
    case Letter(c) => EncodeThenDecodeLetter(c);
    case _ =>
  }

  /** Encoding is not injective: each alias shares its partner's code. */
  lemma AliasesShareCodes()
    ensures Encode(Named(Colon)) == Encode(Named(Semicolon)) == Some(47)
    ensures Encode(Named(Plus)) == Encode(Named(Equals)) == Some(21)
    ensures Encode(Named(Pipe)) == Encode(Named(Backslash)) == Some(51)
    ensures Encode(Named(Questionmark)) == Encode(Named(Slash)) == Some(61)
  {
    EncodeIsTable(Named(Colon));
    EncodeIsTable(Named(Semicolon));
    EncodeIsTable(Named(Plus));
    EncodeIsTable(Named(Equals));
    EncodeIsTable(Named(Pipe));
    EncodeIsTable(Named(Backslash));
    EncodeIsTable(Named(Questionmark));
    EncodeIsTable(Named(Slash));
  }

  /** Two different keys share a code only when they are the same key up
      to the shifted symbols, and one of them is shifted. */
  lemma EncodeCollisions(k1: Key, k2: Key)
    ensures k1 != k2 && Encode(k1).Some? && Encode(k1) == Encode(k2) ==>
              Canonical(k1) == Canonical(k2) && (k1 in Aliases || k2 in Aliases)
  {
    if Encode(k1).Some? && Encode(k1) == Encode(k2) {
      EncodeThenDecode(k1);
      EncodeThenDecode(k2);
    }
  }

  /** `Num0` is 19 and `Num d` is d + 9, matching the decoder on 10..19. */
  lemma DigitCodes(d: DigitNum)
    ensures Encode(Digit(d)) == Some(if d == 0 then 19 else d + 9)
    ensures Decode(if d == 0 then 19 else d + 9) == Some(Digit(d))
  {
    EncodeIsTable(Digit(d));
  }

  /** F1..F10 are 67..76, F11 and F12 are 95 and 96, F13..F35 are unmapped. */
  lemma FunctionKeyCodes(n: FunctionNum)
    ensures n <= 10 ==> Encode(Function(n)) == Some(66 + n)
    ensures n == 11 ==> Encode(Function(n)) == Some(95)
    ensures n == 12 ==> Encode(Function(n)) == Some(96)
    ensures n >= 13 ==> Encode(Function(n)).None?
  {
    EncodeIsTable(Function(n));
  }

  /** The keys without a code are exactly F13..F35 and the keys outside both tables. */
  lemma EncodeUndefined(k: Key)
    ensures Encode(k).None? <==> k == Other || (k.Function? && k.n >= 13)
  {
    EncodeIsTable(k);
  }
}
