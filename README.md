# MiniOS kernel terminal, calculator and editor in Dafny

This project models `kernel.c` of a small freestanding x86 kernel and proves properties of
the model. The kernel has five parts:

- a VGA text terminal: an 80x25 grid of 16-bit cells with a linear cursor `VGA_INDEX` and
  a row counter `Y_INDEX`;
- a translation from PS/2 set-1 scancodes to characters;
- two decimal helpers, `to_int` and `itoa10`;
- two applications that handle one key at a time: a one-line calculator and a text editor;
- a menu that starts one of the applications.

Modules, one per file:

| file | module | what it holds |
|---|---|---|
| `ctypes.dfy` | `CTypes` | 8-bit `char`, 32-bit `int` with two's-complement wrap, C's truncating `/`, C strings |
| `vga.dfy` | `Vga` | the `Screen` specification and the `Terminal` class over a 2000-cell array |
| `keyboard.dfy` | `Keyboard` | `is_release`, the `scancode_to_ascii` table and its inverse |
| `numbers.dfy` | `Numbers` | `to_int` and `itoa10` as loops, proved against `ParseInt` and `Decimal` |
| `session.dfy` | `Session` | the result of one application step: the buffer, the screen and whether to return to the menu |
| `calculator.dfy` | `Calc` | the scanner, parser and evaluator as functions; the `Calculator` class over `buf[64]` |
| `editor.dfy` | `TextEditor` | the editor step as a function; the `Editor` class over `buf[1024]` |
| `menu.dfy` | `Menu` | `show_menu`, the start of `KERNEL_MAIN`, and the key dispatch |

The same pattern is used throughout:

- Code that changes state in place is a class. The terminal's cells and each application's
  `buf` are arrays, and the cursor counters and `len` are fields.
- Every method is proved to leave a state equal to a pure function of the old state, for
  example `term.State() == PutChar(old(term.State()), c)`.
- The properties are lemmas about those functions. They include the exact shift of a
  scroll, the parser's grammar in both directions, the `to_int`/`itoa10` round trip, and
  that the editor's buffer and screen stay in step.

Some quirks of the source are modelled as written and stated as lemmas:

- A space between operand A and the operator is a parse error, while spaces after the
  operator are skipped (`Calc.SpaceBeforeOperator`, `Calc.SpaceAfterOperator`).
- Anything after B's digits is ignored (`Calc.TrailingIgnored`).
- `backspace` moves the cursor back linearly and keeps `Y_INDEX`. Erasing at column 0
  therefore leaves the cursor on the row above. The next character then writes the last
  cell of that row and jumps to the row after the cursor row
  (`Vga.EraseAtColumnZeroThenPut`).
- `itoa10(INT_MIN)` writes only `"-"`, because `v=-v` gives back INT_MIN and the digit loop
  never runs (`Numbers.DecimalEdgeCases`).
- The menu's tests for `'C'` and `'E'` can never succeed (`Menu.UpperCaseDead`).

## Model

| member | source | states |
|---|---|---|
| Vga.VgaEntry | kernel.c:11-13 | the low byte of a cell is the character, the high byte is `WHITE_COLOR` = 15 |
| Vga.ClearedIsBlank | kernel.c:32-38 | after a clear every one of the 2000 cells is `' ' \| (15<<8)` = 0x0F20, and `VGA_INDEX` = `Y_INDEX` = 0 |
| Vga.Scroll | kernel.c:15-30 | `scrollIfNeeded` always leaves the row on the grid and the index at column 0 of that row; when the row is already on the grid no cell changes and the row stays |
| Vga.ShiftUpAt | kernel.c:18-26 | cell k of the shifted grid is cell k+80 of the old one, and is blank on the last row |
| Vga.ShiftUpRows | kernel.c:15-30 | after a scroll, row y-1 is old row y for y in 1..24, and row 24 is all blanks |
| Vga.ScrollPins | kernel.c:15-30 | `scrollIfNeeded` moves no cell when `Y_INDEX < 25`; otherwise it shifts the grid and pins the row at 24; always `VGA_INDEX == Y_INDEX*80` on exit |
| Vga.PutChar | kernel.c:40-51 | `printChar` keeps the cursor bound `VGA_INDEX < (Y_INDEX+1)*80` with `Y_INDEX < 25`, so the next write is in bounds |
| Vga.NewlineMovesDown | kernel.c:41-45 | `'\n'` writes no cell and goes to column 0 of the next row, scrolling once on the last row |
| Vga.PrintableWritesOneCell | kernel.c:46-50 | any other character writes exactly cell `VGA_INDEX` and advances it; at a multiple of 80 the cursor goes to the next row, scrolling on the last |
| Vga.PutCharKeepsAligned | kernel.c:40-51 | a cursor on its own row stays on it; a character that does not end the row advances the column by one |
| Vga.Erase | kernel.c:62-67 | `backspace` keeps the same cursor bound |
| Vga.EraseOneCell | kernel.c:62-67 | `backspace` at index 0 does nothing; otherwise it blanks exactly cell `VGA_INDEX-1`, decrements the index, keeps `Y_INDEX`, and changes no other cell |
| Vga.EraseUndoesPutChar | kernel.c:40-67 | backspace after a character that did not end a row restores the cursor and leaves that cell blank |
| Vga.EraseAtColumnZeroThenPut | kernel.c:46-50 | after a backspace at column 0, the next character writes the last cell of the previous row and moves the cursor to the row after the cursor row |
| Vga.PutStringAppend | kernel.c:53-55 | printing a concatenation is printing one part and then the other |
| Vga.PutStringInRow | kernel.c:53-55 | text without newlines that fits in the cursor row goes to consecutive cells from the index, and no other cell changes |
| Vga.Terminal.constructor | kernel.c:6-8 | a terminal whose grid has 2000 cells, with both counters at 0 |
| Vga.Terminal.MoveRowUp | kernel.c:19-21 | the inner loop of the shift copies row y over row y-1 and leaves every other cell |
| Vga.Terminal.BlankLastRow | kernel.c:24-26 | the last loop of the shift blanks row 24 and leaves every other cell |
| Vga.Terminal.ScrollIfNeeded | kernel.c:15-30 | the array and the counters become `Scroll` of the old screen |
| Vga.Terminal.ClearScreen | kernel.c:32-38 | the array and the counters become the cleared screen |
| Vga.Terminal.PrintChar | kernel.c:40-51 | the array and the counters become `PutChar` of the old screen, and the cursor bound `VGA_INDEX < (Y_INDEX+1)*80 <= 2000` is kept, so every write is in bounds |
| Vga.Terminal.PrintString | kernel.c:53-55 | the terminal becomes `PutString` of the old screen and the text |
| Vga.Terminal.PrintLine | kernel.c:57-60 | the terminal prints the text and then a newline |
| Vga.Terminal.Backspace | kernel.c:62-67 | the terminal becomes `Erase` of the old screen, keeping the cursor bound |
| Keyboard.IsRelease | kernel.c:130 | `is_release(sc)` holds iff `sc >= 0x80` |
| Keyboard.ToAscii | kernel.c:132-153 | every result is 0 or a character of the alphabet: a lower-case letter, a digit, a space or one of `+ - * /` |
| Keyboard.ToAsciiRange | kernel.c:132-153 | every result is 0 or a lower-case letter, digit, space or one of `+ - * /`, never an upper-case letter; Esc, Backspace, Enter and every release code give 0 |
| Keyboard.OperatorKeys | kernel.c:134-150 | 0x0C and 0x4A give `'-'`, 0x0D and 0x4C give `'+'`, 0x37 gives `'*'`, and 0x35 gives `'/'` |
| Keyboard.KeyOfInverts | kernel.c:132-153 | `KeyOf` is defined exactly on that alphabet, and the main-block key it gives each character maps back to that character |
| Numbers.ParseInt | kernel.c:156-166 | `to_int` accepts exactly the numerals: an optional `-` and at least one digit |
| Numbers.ToInt | kernel.c:156-166 | `to_int` succeeds iff the string is an optional `-` followed by one or more digits, stores the value truncated to 32 bits, and otherwise leaves `*out` unchanged |
| Numbers.ParseIntRejects | kernel.c:158-161 | `to_int` fails on `""`, on `"-"`, and on any string with a non-digit other than a leading minus |
| Numbers.ParseIntExamples | kernel.c:156-166 | `"12"` gives 12, `"-7"` gives -7, `"007"` gives 7 and `"-0"` gives 0; `"1-2"` and `"--1"` fail |
| Numbers.Decimal | kernel.c:168-176 | `itoa10` writes a non-empty string that starts with `-` exactly for negative values, with only digits after the first character, and only digits for values that are not negative |
| Numbers.CollectDigits | kernel.c:172 | the first loop of `itoa10` stores the decimal digits of v, least significant first, in at most 16 cells |
| Numbers.Itoa10 | kernel.c:168-176 | `itoa10` writes `Decimal(v)`: `"0"` for 0, otherwise a sign for negatives followed by the digits of `-v` |
| Numbers.DecimalEdgeCases | kernel.c:170-172 | `itoa10(0)` is `"0"`; `itoa10(INT_MIN)` is `"-"`, which `to_int` rejects |
| Numbers.DigitsValueOfDigits | kernel.c:172-174 | the digits of a positive number form a numeral with that value |
| Numbers.RoundTrip | kernel.c:156-176 | `to_int(itoa10(v))` succeeds with v for every `int` other than INT_MIN |
| CTypes.TruncDiv | kernel.c:226 | C's `a/b` truncates toward zero: the remainder is smaller than `b` in magnitude and has the sign of `a` |
| CTypes.TruncDivFits | kernel.c:226 | the quotient of two `int`s fits an `int`, except INT_MIN / -1 |
| CTypes.CStringUpTo | kernel.c:211-214 | the C string at `i` is the array up to the first NUL |
| Calc.Scan | kernel.c:194-209 | the scanner's positions are in order: A ends at or before B's start, and B ends within the line |
| Calc.Parse | kernel.c:210-218 | an accepted line always has one of `+ - * /` as its operator |
| Calc.Evaluate | kernel.c:221-226 | the arithmetic reports the division error exactly for `/` with divisor 0, and never a parse error |
| Calc.SkipSpacesStops | kernel.c:195 | `while(buf[i]==' ') i++` passes only spaces and stops at a non-space |
| Calc.SkipDigitsStops | kernel.c:199 | the digit loop passes only digits and stops at a non-digit |
| Calc.OperandShape | kernel.c:195-200 | an operand scan skips spaces; when it counts digits, the span is an optional minus and the digits |
| Calc.ScanOperandOver | kernel.c:195-200 | spaces followed by a numeral are scanned as exactly that numeral |
| Calc.ParseAt | kernel.c:193-220 | every line of the shape `spaces numeral op spaces numeral non-digit...` parses to its two numerals and its operator |
| Calc.ScanAt | kernel.c:195-209 | on such a line the scanner finds exactly those positions, and the operator is the character right after A's digits |
| Calc.ParseDecomposes | kernel.c:193-220 | every accepted line has that shape at the positions the scanner found, and the parse is built from those pieces |
| Calc.ParseAccepts | kernel.c:193-220 | a line parses iff it has that shape somewhere |
| Calc.ParsedLayout | kernel.c:199-218 | an accepted line has digits in both A and B, and a real operator right after A |
| Calc.OperatorFollowsA | kernel.c:201-203 | when the character after A's digits is not an operator (a space, a letter, or the end of the line), the line is a parse error |
| Calc.NoDigitsRejected | kernel.c:199-218 | a line without digits is a parse error |
| Calc.NumeralParses | kernel.c:213-214 | `to_int` never fails on an operand with digits, so `okA` is just `digitsA > 0` |
| Calc.EvaluateMeaning | kernel.c:222-226 | `+ - *` are exact when the result fits an `int`; division by 0 is an error and nothing else is; every other quotient except INT_MIN / -1 truncates toward zero, the remainder smaller than the divisor and of the dividend's sign |
| Calc.DivideOverflow | kernel.c:226-229 | `-2147483648/-1` yields INT_MIN, printed as `= -`, where the processor would fault instead |
| Calc.CalculateSum | kernel.c:223 | `12+34` gives 46 |
| Calc.CalculateDifference | kernel.c:224 | `3-10` gives -7 |
| Calc.CalculateQuotient | kernel.c:226 | `-7/2` gives -3 |
| Calc.CalculateDivByZero | kernel.c:226-228 | `7/0` gives `Error: div by 0` |
| Calc.SpaceBeforeOperator | kernel.c:200-203 | `5 +3` gives `Error: parse` |
| Calc.SpaceAfterOperator | kernel.c:204 | `5+ 3` gives 8 |
| Calc.TrailingIgnored | kernel.c:208-214 | `12+34x` gives 46 |
| Calc.NotAnOperator | kernel.c:218 | `12x34` gives `Error: parse` |
| Calc.NoOperator | kernel.c:202-218 | `12` gives `Error: parse` |
| Calc.Step | kernel.c:188-235 | one calculator key keeps the buffer within 63 characters and the cursor bound |
| Calc.StepEffects | kernel.c:188-235 | the buffer never exceeds 63 characters; only Esc returns to the menu; release codes and Esc change nothing; Enter empties the buffer and prints the response; Backspace removes the last character and erases one cell, or does nothing on an empty line; unmapped keys change nothing |
| Calc.TypingAppends | kernel.c:233-234 | a mapped key is appended and echoed while `len < 63`; a full line ignores it |
| Calc.OperatorBeforeB | kernel.c:201-209 | on a line without NULs the operator is NUL iff A ends the line; otherwise A ends before B starts |
| Calc.TerminatedOperands | kernel.c:210-212 | writing a NUL at `endA` and at `endB` makes both operands C strings and leaves their characters unchanged |
| Calc.RestoredBuffer | kernel.c:216 | putting back `savedA` and `savedB` restores the buffer exactly, even when `endA == endB` |
| Calc.ConvertedOutcome | kernel.c:213-229 | the flags and values from the conversions decide exactly the outcome that `Calculate` specifies |
| Calc.Calculator.Start | kernel.c:180-186 | the screen is cleared, the banner and prompt are printed, and the line is empty |
| Calc.Calculator.SkipSpacesFrom | kernel.c:195 | the space loop over `buf` stops where `SkipSpaces` does |
| Calc.Calculator.SkipDigitsFrom | kernel.c:199 | the digit loop over `buf` stops where `SkipDigits` does and counts the digits it passes |
| Calc.Calculator.SkipMinusAt | kernel.c:198 | the optional minus over `buf` is `SkipMinus` |
| Calc.Calculator.ScanOperandFrom | kernel.c:195-200 | the scan of one operand over `buf` is `ScanOperand` of the line |
| Calc.Calculator.ScanLine | kernel.c:194-209 | the scan of the terminated buffer is `Scan` of the line |
| Calc.Calculator.Terminate | kernel.c:211-212 | NULs are written at both ends; `savedB` is read after the first write, so it is NUL when the ends coincide |
| Calc.Calculator.Restore | kernel.c:216 | the saved characters are written back at both ends |
| Calc.Calculator.ReadOperand | kernel.c:213-214 | `to_int` on the C string at `start` succeeds exactly when `ParseInt` of the operand does, with its value, and otherwise leaves `v` at `prior` |
| Calc.Calculator.ConvertOperands | kernel.c:210-216 | `okA` holds iff A has digits and converts, and likewise `okB`; the values are those of the operands; the buffer is unchanged afterwards |
| Calc.Calculator.Arithmetic | kernel.c:222-226 | `r` and `err` are what `Evaluate` gives for the expression |
| Calc.Calculator.PrintValue | kernel.c:229 | prints `"= "`, then the decimal text of `r` and a newline |
| Calc.Calculator.PrintResult | kernel.c:227-229 | prints an empty line, then either the division error or the value |
| Calc.Calculator.PrintParseError | kernel.c:219-220 | prints an empty line and `Error: parse` |
| Calc.Calculator.Submit | kernel.c:193-231 | Enter prints `Response(line)`: an empty line, the message for `Calculate(line)`, an empty line and the prompt; then `len` is 0 |
| Calc.Calculator.Append | kernel.c:234 | a mapped key is stored at `buf[len]` and echoed with `printChar` while `len < 63`, and changes nothing on a full line |
| Calc.Calculator.Handle | kernel.c:188-235 | one key leaves the buffer, the terminal and the signal exactly as `Calc.Step` specifies |
| TextEditor.Step | kernel.c:88-111 | one editor key keeps the buffer within 1023 characters and the cursor bound |
| TextEditor.StepEffects | kernel.c:88-111 | only Esc leaves; Esc and release codes change nothing; Backspace with `len>0` removes exactly the last character and echoes `backspace()`, and with `len==0` does nothing; unmapped codes change neither buffer nor screen |
| TextEditor.EnterAppends | kernel.c:98-110 | Enter appends `'\n'` and a mapped key appends its character, each echoed with `printChar`, only while `len < 1023` |
| TextEditor.FullIgnores | kernel.c:98-110 | with 1023 characters every key but Esc and Backspace is ignored, so `len <= 1023` always holds |
| TextEditor.TypingEchoes | kernel.c:98-110 | typing keys with room for all of them appends exactly their characters and prints exactly those characters |
| TextEditor.Editor.Start | kernel.c:78-83 | the screen is cleared, the title and an empty line are printed, and the buffer is empty |
| TextEditor.Editor.Append | kernel.c:99-110 | while `len < 1023` the character is stored at `len`, `len` grows by one and the character is echoed; otherwise nothing changes |
| TextEditor.Editor.Handle | kernel.c:88-111 | one key leaves the buffer, the terminal and the signal exactly as `TextEditor.Step` specifies |
| Menu.Dispatch | kernel.c:257-272 | the loop halts exactly on Esc, and ignores every release code |
| Menu.DispatchKeys | kernel.c:260-272 | Esc halts; the C key (0x2E) opens the calculator and only it; the E key (0x12) opens the editor and only it; releases are ignored |
| Menu.UpperCaseDead | kernel.c:264-271 | the table never yields `'C'` or `'E'`, so the dispatch is the same with only the lower-case tests |
| Menu.ShowMenu | kernel.c:239-249 | the screen is cleared and the eight menu lines are printed |
| Menu.Boot | kernel.c:252-255 | the kernel starts with the counters at 0 and shows the menu |

## Left out

- `inb` and `read_scancode_nonblock` (kernel.c:116-128) are raw port I/O. Each step takes
  the scancode as a parameter.
- The polling `for(;;)` loops of `KERNEL_MAIN`, `run_calculator` and `run_editor` are not
  modelled. One key is one call of `Handle`. `TextEditor.Run` folds the editor step over a
  sequence of keys only to state `TypingEchoes`.
- The fixed address `VGA_ADDRESS` (kernel.h:4) is not modelled: the terminal's cells are a
  plain array. The contents of VGA memory before the first `clearScreen` are arbitrary.
- `calc.c` is a hosted stdio program over `double` and is not part of this model.
  `BUFSIZE` (kernel.h:14) is unused.
- Signed overflow in `a+b`, `a-b` and `a*b`, `v=-v` at INT_MIN, and INT_MIN / -1 are
  undefined in C. They are not excluded by preconditions, because the calculator accepts
  any line typed at it. Instead they get the two's-complement wrap-around of the generated
  x86 code. `Calc.EvaluateMeaning` states that the results are exact whenever no overflow
  happens.
- `Calc.Evaluate`: for INT_MIN / -1 (the typed line `-2147483648/-1`), the x86 `idiv` instruction
  raises a divide-error fault and the kernel never prints anything. The model does not
  model that fault. It wraps the quotient 2^31 to INT_MIN, so the line prints `= -`;
  `Calc.DivideOverflow` states this.
- to_int's `long` accumulator is kept exact and truncated once to 32 bits. That gives the
  same low 32 bits as a wrapping `long` of either width, 32 or 64 bits, would.
- `Numbers.Itoa10` returns the text instead of writing it into the caller's `res[32]`. A C
  string before its NUL is modelled as a `seq`. At Enter, the calculator does write and
  restore the NULs in `buf` in place.
- The uninitialised `a` and `b` of kernel.c:213 start as a `prior` value, 0. They are only
  read after a successful conversion.
- `Keyboard.KeyOfInverts` does not state that the table is injective. The same character
  has two keys (`'-'`, `'+'`).
