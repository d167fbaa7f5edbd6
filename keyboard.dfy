/** Scancode translation of kernel.c: set-1 make codes of a PS/2 keyboard to
    8-bit characters, with the release bit tested separately. */
module Keyboard {
  import opened CTypes

  type Scancode = bv8

  const ESC: Scancode := 0x01
  const BACKSPACE: Scancode := 0x0E
  const ENTER: Scancode := 0x1C

  /** `is_release`: the high bit marks a key release. */
  function IsRelease(sc: Scancode): (r: bool)
    ensures r <==> sc as int >= 0x80
  {
    sc & 0x80 != 0
  }

  /** `scancode_to_ascii`: the static key table; 0 for every code it does not list. */
  function ToAscii(sc: Scancode): (r: Char8)
    ensures r == '\0' || InAlphabet(r)
  {
    match sc
    case 0x0C => '-'
    case 0x0D => '+'
    case 0x02 => '1' case 0x03 => '2' case 0x04 => '3'
    case 0x05 => '4' case 0x06 => '5' case 0x07 => '6'
    case 0x08 => '7' case 0x09 => '8' case 0x0A => '9'
    case 0x0B => '0' case 0x10 => 'q' case 0x11 => 'w'
    case 0x12 => 'e' case 0x13 => 'r' case 0x14 => 't'
    case 0x15 => 'y' case 0x16 => 'u' case 0x17 => 'i'
    case 0x18 => 'o' case 0x19 => 'p' case 0x1E => 'a'
    case 0x1F => 's' case 0x20 => 'd' case 0x21 => 'f'
    case 0x22 => 'g' case 0x23 => 'h' case 0x24 => 'j'
    case 0x25 => 'k' case 0x26 => 'l' case 0x2C => 'z'
    case 0x2D => 'x' case 0x2E => 'c' case 0x2F => 'v'
    case 0x30 => 'b' case 0x31 => 'n' case 0x32 => 'm'
    case 0x39 => ' '
    case 0x35 => '/' case 0x4A => '-' case 0x4C => '+'
    case 0x37 => '*'
    case _ => '\0'
  }

  /** The characters the table can produce. */
  predicate InAlphabet(c: Char8) {
    ('a' <= c <= 'z') || ('0' <= c <= '9') || c == ' ' || c == '+' || c == '-' || c == '*' || c == '/'
  }

  /** A reference inverse of the table: the main-block key of each character of the alphabet. */
  function KeyOf(c: Char8): Option<Scancode> {
    match c
    case '1' => Some(0x02) case '2' => Some(0x03) case '3' => Some(0x04)
    case '4' => Some(0x05) case '5' => Some(0x06) case '6' => Some(0x07)
    case '7' => Some(0x08) case '8' => Some(0x09) case '9' => Some(0x0A)
    case '0' => Some(0x0B)
    case 'q' => Some(0x10) case 'w' => Some(0x11) case 'e' => Some(0x12)
    case 'r' => Some(0x13) case 't' => Some(0x14) case 'y' => Some(0x15)
    case 'u' => Some(0x16) case 'i' => Some(0x17) case 'o' => Some(0x18)
    case 'p' => Some(0x19) case 'a' => Some(0x1E) case 's' => Some(0x1F)
    case 'd' => Some(0x20) case 'f' => Some(0x21) case 'g' => Some(0x22)
    case 'h' => Some(0x23) case 'j' => Some(0x24) case 'k' => Some(0x25)
    case 'l' => Some(0x26) case 'z' => Some(0x2C) case 'x' => Some(0x2D)
    case 'c' => Some(0x2E) case 'v' => Some(0x2F) case 'b' => Some(0x30)
    case 'n' => Some(0x31) case 'm' => Some(0x32)
    case ' ' => Some(0x39)
    case '-' => Some(0x0C) case '+' => Some(0x0D)
    case '*' => Some(0x37) case '/' => Some(0x35)
    case _ => None
  }

  /** Every code yields 0 or a character of the alphabet, never an upper-case letter;
      the special keys Esc, Backspace and Enter and all release codes yield 0. */
  lemma ToAsciiRange(sc: Scancode)
    ensures ToAscii(sc) == '\0' || InAlphabet(ToAscii(sc))
    ensures !('A' <= ToAscii(sc) <= 'Z')
    ensures sc == ESC || sc == BACKSPACE || sc == ENTER || IsRelease(sc) ==> ToAscii(sc) == '\0'
  {
  }

  /** The dual and keypad mappings of the operator keys. */
  lemma OperatorKeys()
    ensures ToAscii(0x0C) == '-' && ToAscii(0x4A) == '-'
    ensures ToAscii(0x0D) == '+' && ToAscii(0x4C) == '+'
    ensures ToAscii(0x37) == '*' && ToAscii(0x35) == '/'
  {
  }

  /** Every character of the alphabet has a key, and `KeyOf` is a right inverse of the table. */
  lemma KeyOfInverts(c: Char8)
    ensures InAlphabet(c) <==> KeyOf(c).Some?
    ensures KeyOf(c).Some? ==> ToAscii(KeyOf(c).value) == c
  {
    if 'a' <= c <= 'z' {
      LetterKeys(c);
    } else if '0' <= c <= '9' {
      DigitKeys(c);
    }
  }

  lemma LetterKeys(c: Char8)
    requires 'a' <= c <= 'z'
    ensures KeyOf(c).Some? && ToAscii(KeyOf(c).value) == c
  {
    if c <= 'f' {
      LetterKeysAtoF(c);
    } else if c <= 'm' {
      LetterKeysGtoM(c);
    } else if c <= 's' {
      LetterKeysNtoS(c);
    } else {
      LetterKeysTtoZ(c);
    }
  }

  lemma LetterKeysAtoF(c: Char8)
    requires 'a' <= c <= 'f'
    ensures KeyOf(c).Some? && ToAscii(KeyOf(c).value) == c
  {
    var n := c as int;
    assert n == 97 || n == 98 || n == 99 || n == 100 || n == 101 || n == 102;
  }

  lemma LetterKeysGtoM(c: Char8)
    requires 'g' <= c <= 'm'
    ensures KeyOf(c).Some? && ToAscii(KeyOf(c).value) == c
  {
    var n := c as int;
    assert n == 103 || n == 104 || n == 105 || n == 106 || n == 107 || n == 108 || n == 109;
  }

  lemma LetterKeysNtoS(c: Char8)
    requires 'n' <= c <= 's'
    ensures KeyOf(c).Some? && ToAscii(KeyOf(c).value) == c
  {
    var n := c as int;
    assert n == 110 || n == 111 || n == 112 || n == 113 || n == 114 || n == 115;
  }

  lemma LetterKeysTtoZ(c: Char8)
    requires 't' <= c <= 'z'
    ensures KeyOf(c).Some? && ToAscii(KeyOf(c).value) == c
  {
    var n := c as int;
    assert n == 116 || n == 117 || n == 118 || n == 119 || n == 120 || n == 121 || n == 122;
  }

  lemma DigitKeys(c: Char8)
    requires '0' <= c <= '9'
    ensures KeyOf(c).Some? && ToAscii(KeyOf(c).value) == c
  {
    var n := c as int;
    assert n == 48 || n == 49 || n == 50 || n == 51 || n == 52 || n == 53 || n == 54
      || n == 55 || n == 56 || n == 57;
  }
}
