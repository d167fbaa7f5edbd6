/** The text editor of kernel.c (`run_editor`): a buffer of at most 1023 characters
    that grows by one character per key, shrinks by one with Backspace, and echoes
    every change on the terminal.

    `Step` specifies one key; the class `Editor` holds `buf` and `len` and its method
    `Handle` is proved to compute it. */
module TextEditor {
  import opened CTypes
  import opened Vga
  import opened Keyboard
  import opened Session

  /** `buf[1024]`, filled while `len < sizeof(buf)-1`. */
  const CAPACITY: nat := 1023

  const TITLE: seq<Char8> := "Mini Text Editor (ESC to menu)"

  /** What `run_editor` prints before its first key: the title and an empty line. */
  const BANNER: seq<Char8> := Ln(TITLE) + Ln([])

  /** One pass of the body of `run_editor`'s loop on the scancode `sc`. */
  function Step(text: seq<Char8>, s: Screen, sc: Scancode): (r: Stepped)
    requires |text| <= CAPACITY && Inv(s)
    ensures |r.line| <= CAPACITY && Inv(r.screen)
  {
    if IsRelease(sc) then Stepped(text, s, Continue)
    else if sc == ESC then Stepped(text, s, ReturnToMenu)
    else if sc == BACKSPACE then
      if |text| > 0 then Stepped(text[..|text| - 1], Erase(s), Continue) else Stepped(text, s, Continue)
    else if sc == ENTER then
      if |text| < CAPACITY then Stepped(text + ['\n'], PutChar(s, '\n'), Continue) else Stepped(text, s, Continue)
    else
      var c := ToAscii(sc);
      if c != '\0' && |text| < CAPACITY then Stepped(text + [c], PutChar(s, c), Continue)
      else Stepped(text, s, Continue)
  }

  /** The character a key enters into the text: a newline for Enter, else its table entry. */
  function Typed(sc: Scancode): Char8 {
    if sc == ENTER then '\n' else ToAscii(sc)
  }

  /** A key that enters a character: a press that is neither Esc nor Backspace and that
      Enter or the table maps. */
  predicate Enters(sc: Scancode) {
    !IsRelease(sc) && sc != ESC && sc != BACKSPACE && Typed(sc) != '\0'
  }

  // ---------------------------------------------------------------------------
  // Properties of one step

  /** Esc leaves the editor and changes nothing; a release code changes nothing; an
      unmapped key changes nothing; Backspace removes exactly the last character and
      erases one cell, or does nothing on an empty buffer. */
  lemma StepEffects(text: seq<Char8>, s: Screen, sc: Scancode)
    requires |text| <= CAPACITY && Inv(s)
    ensures var r := Step(text, s, sc);
      (r.signal == ReturnToMenu <==> sc == ESC) &&
      (IsRelease(sc) || sc == ESC ==> r.line == text && r.screen == s) &&
      (sc == BACKSPACE && text != [] ==> r.line + [text[|text| - 1]] == text && r.screen == Erase(s)) &&
      (sc == BACKSPACE && text == [] ==> r.line == [] && r.screen == s) &&
      (sc != ESC && sc != BACKSPACE && !Enters(sc) ==> r.line == text && r.screen == s)
  {
    ToAsciiRange(sc);
    if sc == BACKSPACE && text != [] {
      assert text[..|text| - 1] + [text[|text| - 1]] == text;
    }
  }

  /** A key that enters a character appends it and echoes it with `printChar` while the
      buffer has room, and is ignored once it holds 1023 characters. */
  lemma EnterAppends(text: seq<Char8>, s: Screen, sc: Scancode)
    requires |text| <= CAPACITY && Inv(s) && Enters(sc)
    ensures var r := Step(text, s, sc);
      r.signal == Continue &&
      (|text| < CAPACITY ==> r.line == text + [Typed(sc)] && r.screen == PutChar(s, Typed(sc))) &&
      (|text| == CAPACITY ==> r.line == text && r.screen == s)
  {
    ToAsciiRange(sc);
  }

  /** The text a sequence of keys enters. */
  function TypedText(keys: seq<Scancode>): (t: seq<Char8>)
    ensures |t| == |keys|
  {
    if keys == [] then [] else [Typed(keys[0])] + TypedText(keys[1..])
  }

  /** The editor run on a sequence of keys, one step each, until a step leaves it. */
  function Run(text: seq<Char8>, s: Screen, keys: seq<Scancode>): (r: Stepped)
    requires |text| <= CAPACITY && Inv(s)
    ensures |r.line| <= CAPACITY && Inv(r.screen)
    decreases |keys|
  {
    if keys == [] then Stepped(text, s, Continue)
    else
      var r := Step(text, s, keys[0]);
      if r.signal == ReturnToMenu then r else Run(r.line, r.screen, keys[1..])
  }

  /** Every key of `keys` enters a character. */
  predicate AllEnter(keys: seq<Scancode>) {
    keys == [] || (Enters(keys[0]) && AllEnter(keys[1..]))
  }

  /** The first of several keys that enter characters, typed with room to spare. */
  lemma RunEnters(text: seq<Char8>, s: Screen, keys: seq<Scancode>)
    requires Inv(s) && |text| < CAPACITY && keys != [] && Enters(keys[0])
    ensures Run(text, s, keys) == Run(text + [Typed(keys[0])], PutChar(s, Typed(keys[0])), keys[1..])
  {
    EnterAppends(text, s, keys[0]);
  }

  lemma TypedTextCons(keys: seq<Scancode>)
    requires keys != []
    ensures TypedText(keys) == [Typed(keys[0])] + TypedText(keys[1..])
  {
  }

  lemma EchoCons(text: seq<Char8>, s: Screen, c: Char8, rest: seq<Char8>)
    requires Inv(s)
    ensures text + [c] + rest == text + ([c] + rest)
    ensures PutString(PutChar(s, c), rest) == PutString(s, [c] + rest)
  {
    PutStringCons(s, [c] + rest);
    assert ([c] + rest)[1..] == rest;
  }

  /** Typing keys that enter characters while there is room for all of them appends
      exactly their characters to the text and prints exactly those characters:
      the buffer and the screen stay in step. */
  lemma {:induction false} TypingEchoes(text: seq<Char8>, s: Screen, keys: seq<Scancode>)
    requires Inv(s) && |text| + |keys| <= CAPACITY && AllEnter(keys)
    ensures Run(text, s, keys) == Stepped(text + TypedText(keys), PutString(s, TypedText(keys)), Continue)
    decreases |keys|
  {
    if keys != [] {
      var c := Typed(keys[0]);
      RunEnters(text, s, keys);
      TypingEchoes(text + [c], PutChar(s, c), keys[1..]);
      TypedTextCons(keys);
      EchoCons(text, s, c, TypedText(keys[1..]));
    }
  }

  /** A full buffer ignores every key but Esc and Backspace. */
  lemma FullIgnores(text: seq<Char8>, s: Screen, sc: Scancode)
    requires |text| == CAPACITY && Inv(s) && sc != ESC && sc != BACKSPACE
    ensures Step(text, s, sc) == Stepped(text, s, Continue)
  {
  }

  // ---------------------------------------------------------------------------
  // The editor as kernel.c runs it: `buf` and `len` updated in place.

  class Editor {
    /** `char buf[1024]` */
    const buf: array<Char8>
    /** `int len` */
    var len: nat

    ghost predicate Valid()
      reads this
    {
      buf.Length == CAPACITY + 1 && len <= CAPACITY
    }

    /** The text typed so far. */
    ghost function Text(): seq<Char8>
      requires Valid()
      reads this, buf
    {
      buf[..len]
    }

    /** The start of `run_editor`: clear the screen and print the title and an empty line. */
    constructor Start(term: Terminal)
      requires term.cells.Length == SIZE
      modifies term, term.cells
      ensures Valid() && Text() == [] && fresh(buf)
      ensures term.Valid() && term.State() == PutString(Cleared(), BANNER)
    {
      term.ClearScreen();
      ghost var s0 := term.State();
      term.PrintLine(TITLE);
      term.PrintLine([]);
      PutStringAppend(s0, Ln(TITLE), Ln([]));
      buf := new Char8[CAPACITY + 1];
      len := 0;
    }

    /** `buf[len++]=c; printChar(c);` when there is room. */
    method Append(term: Terminal, c: Char8)
      requires Valid() && term.Valid()
      modifies this, buf, term, term.cells
      ensures Valid() && term.Valid()
      ensures old(len) < CAPACITY ==> Text() == old(Text()) + [c] && term.State() == PutChar(old(term.State()), c)
      ensures old(len) == CAPACITY ==> Text() == old(Text()) && term.State() == old(term.State())
    {
      if len < CAPACITY {
        buf[len] := c;
        len := len + 1;
        term.PrintChar(c);
      }
    }

    /** One pass of the body of `run_editor`'s loop on the scancode `sc`. */
    method Handle(term: Terminal, sc: Scancode) returns (signal: Signal)
      requires Valid() && term.Valid()
      modifies this, buf, term, term.cells
      ensures Valid() && term.Valid()
      ensures Stepped(Text(), term.State(), signal) == Step(old(Text()), old(term.State()), sc)
    {
      signal := Continue;
      if IsRelease(sc) {
        return;
      }
      if sc == ESC {
        return ReturnToMenu;
      }
      if sc == BACKSPACE {
        if len > 0 {
          len := len - 1;
          term.Backspace();
        }
        return;
      }
      if sc == ENTER {
        Append(term, '\n');
        return;
      }
      var c := ToAscii(sc);
      if c != '\0' {
        Append(term, c);
      }
    }
  }
}
