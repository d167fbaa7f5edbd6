/** The main menu of kernel.c (`show_menu` and the dispatch loop of `KERNEL_MAIN`):
    Esc halts, `c` opens the calculator, `e` opens the text editor, and every other
    key is ignored. */
module Menu {
  import opened CTypes
  import opened Vga
  import opened Keyboard

  datatype Action = Halt | OpenCalculator | OpenEditor | Ignore

  /** The body of `KERNEL_MAIN`'s loop on the scancode `sc`, as the choice it makes.
      The tests for `'C'` and `'E'` are kept as written. */
  function Dispatch(sc: Scancode): (r: Action)
    ensures r == Halt <==> sc == ESC
    ensures IsRelease(sc) ==> r == Ignore
  {
    if IsRelease(sc) then Ignore
    else if sc == ESC then Halt
    else
      var ch := ToAscii(sc);
      if ch == 'c' || ch == 'C' then OpenCalculator
      else if ch == 'e' || ch == 'E' then OpenEditor
      else Ignore
  }

  /** Each action has exactly one key: Esc halts, the C key (0x2E) opens the calculator,
      the E key (0x12) opens the editor, and releases and all other codes are ignored. */
  lemma DispatchKeys(sc: Scancode)
    ensures Dispatch(sc) == Halt <==> sc == ESC
    ensures Dispatch(sc) == OpenCalculator <==> sc == 0x2E
    ensures Dispatch(sc) == OpenEditor <==> sc == 0x12
    ensures IsRelease(sc) ==> Dispatch(sc) == Ignore
  {
  }

  /** The upper-case tests never fire: the table yields no upper-case letter, so the
      dispatch is the same with only the lower-case tests. */
  lemma UpperCaseDead(sc: Scancode)
    ensures ToAscii(sc) != 'C' && ToAscii(sc) != 'E'
    ensures !IsRelease(sc) && sc != ESC ==>
      Dispatch(sc) == if ToAscii(sc) == 'c' then OpenCalculator else if ToAscii(sc) == 'e' then OpenEditor else Ignore
  {
    ToAsciiRange(sc);
  }

  const WELCOME: seq<Char8> := "Welcome to MiniOS"
  const MENU_HEADING: seq<Char8> := "Menu:"
  const CALCULATOR_ITEM: seq<Char8> := "  [C] Calculator"
  const EDITOR_ITEM: seq<Char8> := "  [E] Text Editor"
  const HALT_ITEM: seq<Char8> := "  [Esc] Halt"
  const PRESS_KEY: seq<Char8> := "Press a key..."

  /** The lines `show_menu` prints, each followed by a newline. */
  const MENU: seq<Char8> :=
    Ln(WELCOME) + Ln([]) + Ln(MENU_HEADING) + Ln(CALCULATOR_ITEM) + Ln(EDITOR_ITEM) +
    Ln(HALT_ITEM) + Ln([]) + Ln(PRESS_KEY)

  /** `show_menu`: clear the screen and print the menu. */
  method ShowMenu(term: Terminal)
    requires term.cells.Length == SIZE
    modifies term, term.cells
    ensures term.Valid() && term.State() == PutString(Cleared(), MENU)
  {
    term.ClearScreen();
    ghost var s0 := term.State();
    term.PrintLine(WELCOME);
    ghost var out := Ln(WELCOME);
    term.PrintLine([]);
    PutStringAppend(s0, out, Ln([]));
    out := out + Ln([]);
    term.PrintLine(MENU_HEADING);
    PutStringAppend(s0, out, Ln(MENU_HEADING));
    out := out + Ln(MENU_HEADING);
    term.PrintLine(CALCULATOR_ITEM);
    PutStringAppend(s0, out, Ln(CALCULATOR_ITEM));
    out := out + Ln(CALCULATOR_ITEM);
    term.PrintLine(EDITOR_ITEM);
    PutStringAppend(s0, out, Ln(EDITOR_ITEM));
    out := out + Ln(EDITOR_ITEM);
    term.PrintLine(HALT_ITEM);
    PutStringAppend(s0, out, Ln(HALT_ITEM));
    out := out + Ln(HALT_ITEM);
    term.PrintLine([]);
    PutStringAppend(s0, out, Ln([]));
    out := out + Ln([]);
    term.PrintLine(PRESS_KEY);
    PutStringAppend(s0, out, Ln(PRESS_KEY));
    out := out + Ln(PRESS_KEY);
    assert out == MENU;
  }

  /** The start of `KERNEL_MAIN`: the cursor at the top left, then the menu. */
  method Boot() returns (term: Terminal)
    ensures term.Valid() && term.State() == PutString(Cleared(), MENU)
  {
    term := new Terminal();
    ShowMenu(term);
  }
}
