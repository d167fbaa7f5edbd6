/** The calculator of kernel.c (`run_calculator`): a line buffer of at most 63
    characters, edited with Backspace and evaluated with Enter as `<int><op><int>`.

    The functions are the specification of one step; the class `Calculator` holds
    `buf` and `len` and its methods are proved to compute them. */
module Calc {
  import opened CTypes
  import opened Vga
  import opened Keyboard
  import opened Numbers
  import opened Session

  /** `buf[64]`: 63 characters and room for the terminator written at Enter. */
  const CAPACITY: nat := 63

  /** The character the scanner reads at `i`: the line, then its terminating NUL. */
  function At(s: seq<Char8>, i: nat): Char8 {
    if i < |s| then s[i] else '\0'
  }

  predicate AllSpaces(t: seq<Char8>) {
    forall k :: 0 <= k < |t| ==> t[k] == ' '
  }

  /** `while(buf[i]==' ') i++`: the end of the run of spaces from `i`. */
  function SkipSpaces(s: seq<Char8>, i: nat): (j: nat)
    requires i <= |s|
    ensures i <= j <= |s|
    decreases |s| - i
  {
    if i < |s| && s[i] == ' ' then SkipSpaces(s, i + 1) else i
  }

  /** `while(buf[i]>='0' && buf[i]<='9') i++`: the end of the run of digits from `i`. */
  function SkipDigits(s: seq<Char8>, i: nat): (j: nat)
    requires i <= |s|
    ensures i <= j <= |s|
    decreases |s| - i
  {
    if i < |s| && IsDigit(s[i]) then SkipDigits(s, i + 1) else i
  }

  /** `if(buf[i]=='-') i++`. */
  function SkipMinus(s: seq<Char8>, i: nat): (j: nat)
    requires i <= |s|
    ensures j == i || (j == i + 1 && i < |s| && s[i] == '-')
    ensures j <= |s|
  {
    if At(s, i) == '-' then i + 1 else i
  }

  /** Where the scanner finds an operand: its `start` after the spaces (at its optional
      minus sign), the number of its `digits`, and its `end` after the digits. */
  datatype Span = Span(start: nat, digits: nat, end: nat)

  /** The scanner on one operand from `i`: skip spaces, an optional `-`, then the digits. */
  function ScanOperand(s: seq<Char8>, i: nat): (r: Span)
    requires i <= |s|
    ensures i <= r.start <= r.end <= |s| && r.digits <= r.end - r.start
  {
    var start := SkipSpaces(s, i);
    var sign := SkipMinus(s, start);
    var end := SkipDigits(s, sign);
    Span(start, end - sign, end)
  }

  /** The positions the scanner finds in a line: operand A, the character right after
      A's digits taken as the operator, and operand B after the operator. */
  datatype Layout = Layout(a: Span, op: Char8, b: Span)

  function Scan(s: seq<Char8>): (l: Layout)
    ensures l.a.end <= l.b.start <= l.b.end <= |s|
  {
    var a := ScanOperand(s, 0);
    var op := At(s, a.end);
    var b := ScanOperand(s, if op != '\0' then a.end + 1 else a.end);
    Layout(a, op, b)
  }

  predicate IsOperator(c: Char8) {
    c == '+' || c == '-' || c == '*' || c == '/'
  }

  datatype Expr = Expr(a: Int32, op: Char8, b: Int32)

  /** The parse of the Enter branch: `okA`, `okB` and the operator test. */
  function Parse(s: seq<Char8>): (r: Option<Expr>)
    ensures r.Some? ==> IsOperator(r.value.op)
  {
    ParseLayout(s, Scan(s))
  }

  /** The conversions and the operator test on the positions the scanner found. */
  function ParseLayout(s: seq<Char8>, l: Layout): (r: Option<Expr>)
    requires l.a.start <= l.a.end <= |s| && l.b.start <= l.b.end <= |s|
    ensures r.Some? ==> IsOperator(r.value.op)
  {
    var a := ParseInt(s[l.a.start..l.a.end]);
    var b := ParseInt(s[l.b.start..l.b.end]);
    if l.a.digits == 0 || a.None? || l.b.digits == 0 || b.None? || !IsOperator(l.op) then None
    else Some(Expr(a.value, l.op, b.value))
  }

  datatype Outcome = ParseError | DivByZero | Value(r: Int32)

  /** The arithmetic of the Enter branch on C `int`s. */
  function Evaluate(e: Expr): (r: Outcome)
    requires IsOperator(e.op)
    ensures r == DivByZero <==> e.op == '/' && e.b == 0
    ensures r != ParseError
  {
    match e.op
    case '+' => Value(Wrap32(e.a + e.b))
    case '-' => Value(Wrap32(e.a - e.b))
    case '*' => Value(Wrap32(e.a * e.b))
    case '/' => if e.b == 0 then DivByZero else Value(Wrap32(TruncDiv(e.a, e.b)))
  }

  function Calculate(s: seq<Char8>): Outcome {
    match Parse(s)
    case None => ParseError
    case Some(e) => Evaluate(e)
  }

  // The texts the calculator prints.
  const TITLE: seq<Char8> := "Calculator (ESC to menu)"
  const FORMAT: seq<Char8> := "Format: <int><op><int> Example: 12+34"
  const OPERATORS: seq<Char8> := "Ops: + - * /"
  const PROMPT: seq<Char8> := "> "
  const PARSE_ERROR: seq<Char8> := "Error: parse"
  const DIV_ERROR: seq<Char8> := "Error: div by 0"
  const EQUALS: seq<Char8> := "= "

  function Message(o: Outcome): seq<Char8> {
    match o
    case ParseError => PARSE_ERROR
    case DivByZero => DIV_ERROR
    case Value(r) => EQUALS + Decimal(r)
  }

  /** All that Enter prints: an empty line, the message, an empty line and the prompt. */
  function Response(s: seq<Char8>): seq<Char8> {
    Ln([]) + Ln(Message(Calculate(s))) + Ln([]) + PROMPT
  }

  /** What `run_calculator` prints before its first key. */
  const BANNER: seq<Char8> := Ln(TITLE) + Ln(FORMAT) + Ln(OPERATORS) + Ln([]) + PROMPT

  /** One pass of the body of `run_calculator`'s loop on the scancode `sc`. */
  function Step(line: seq<Char8>, s: Screen, sc: Scancode): (r: Stepped)
    requires |line| <= CAPACITY && Inv(s)
    ensures |r.line| <= CAPACITY && Inv(r.screen)
  {
    if IsRelease(sc) then Stepped(line, s, Continue)
    else if sc == ESC then Stepped(line, s, ReturnToMenu)
    else if sc == BACKSPACE then
      if |line| > 0 then Stepped(line[..|line| - 1], Erase(s), Continue) else Stepped(line, s, Continue)
    else if sc == ENTER then Stepped([], PutString(s, Response(line)), Continue)
    else
      var c := ToAscii(sc);
      if c != '\0' && |line| < CAPACITY then Stepped(line + [c], PutChar(s, c), Continue)
      else Stepped(line, s, Continue)
  }

  // ---------------------------------------------------------------------------
  // Properties of the parser

  /** `SkipSpaces` stops at the first character that is not a space. */
  lemma {:induction false} SkipSpacesStops(s: seq<Char8>, i: nat)
    requires i <= |s|
    ensures var j := SkipSpaces(s, i); AllSpaces(s[i..j]) && At(s, j) != ' '
    decreases |s| - i
  {
    if i < |s| && s[i] == ' ' {
      SkipSpacesStops(s, i + 1);
      var j := SkipSpaces(s, i);
      assert s[i..j] == [s[i]] + s[i + 1..j];
    }
  }

  /** `SkipDigits` stops at the first character that is not a digit. */
  lemma {:induction false} SkipDigitsStops(s: seq<Char8>, i: nat)
    requires i <= |s|
    ensures var j := SkipDigits(s, i); AllDigits(s[i..j]) && !IsDigit(At(s, j))
    decreases |s| - i
  {
    if i < |s| && IsDigit(s[i]) {
      SkipDigitsStops(s, i + 1);
      var j := SkipDigits(s, i);
      assert s[i..j] == [s[i]] + s[i + 1..j];
    }
  }

  lemma {:induction false} SkipSpacesOver(s: seq<Char8>, i: nat, j: nat)
    requires i <= j <= |s| && AllSpaces(s[i..j]) && At(s, j) != ' '
    ensures SkipSpaces(s, i) == j
    decreases j - i
  {
    if i < j {
      assert s[i..j][0] == s[i];
      assert s[i + 1..j] == s[i..j][1..];
      SkipSpacesOver(s, i + 1, j);
    }
  }

  lemma {:induction false} SkipDigitsOver(s: seq<Char8>, i: nat, j: nat)
    requires i <= j <= |s| && AllDigits(s[i..j]) && !IsDigit(At(s, j))
    ensures SkipDigits(s, i) == j
    decreases j - i
  {
    if i < j {
      assert s[i..j][0] == s[i];
      assert s[i + 1..j] == s[i..j][1..];
      SkipDigitsOver(s, i + 1, j);
    }
  }

  /** A numeral always reads back, so `okA` is just `digitsA > 0`. */
  lemma NumeralParses(t: seq<Char8>)
    requires Numeral(t)
    ensures ParseInt(t).Some?
  {
  }

  /** What the scanner finds from `i`: spaces, then (when it counts digits) a numeral,
      then a character that is not a digit. */
  lemma OperandShape(s: seq<Char8>, i: nat)
    requires i <= |s|
    ensures var r := ScanOperand(s, i);
      AllSpaces(s[i..r.start]) && !IsDigit(At(s, r.end)) &&
      (r.digits > 0 ==> Numeral(s[r.start..r.end]) && IsDigit(s[r.end - 1]))
  {
    var r := ScanOperand(s, i);
    var sign := SkipMinus(s, r.start);
    SkipSpacesStops(s, i);
    SkipDigitsStops(s, sign);
    if r.digits > 0 {
      assert s[sign..r.end][r.end - 1 - sign] == s[r.end - 1];
      NumeralShape(s, r.start, sign, r.end);
    }
  }

  lemma NumeralShape(s: seq<Char8>, start: nat, sign: nat, end: nat)
    requires start <= sign < end <= |s| && AllDigits(s[sign..end])
    requires sign == start || (sign == start + 1 && s[start] == '-')
    ensures Numeral(s[start..end])
  {
    var t := s[start..end];
    if sign == start + 1 {
      assert t[1..] == s[sign..end];
    } else {
      assert t == s[sign..end];
      assert IsDigit(t[0]);
    }
  }

  lemma SignedOperandAt(s: seq<Char8>, start: nat, end: nat)
    requires start <= end <= |s| && Numeral(s[start..end]) && !IsDigit(At(s, end))
    requires s[start] == '-'
    ensures SkipMinus(s, start) == start + 1 && SkipDigits(s, start + 1) == end
  {
    assert s[start + 1..end] == s[start..end][1..];
    SkipDigitsOver(s, start + 1, end);
  }

  lemma UnsignedOperandAt(s: seq<Char8>, start: nat, end: nat)
    requires start <= end <= |s| && Numeral(s[start..end]) && !IsDigit(At(s, end))
    requires s[start] != '-'
    ensures SkipMinus(s, start) == start && SkipDigits(s, start) == end
  {
    SkipDigitsOver(s, start, end);
  }

  /** Where spaces lie from `i` to `start` and a numeral from `start` to `end`, the
      scanner finds exactly that numeral. */
  lemma ScanOperandOver(s: seq<Char8>, i: nat, start: nat, end: nat)
    requires i <= start <= end <= |s| && AllSpaces(s[i..start]) && Numeral(s[start..end])
    requires !IsDigit(At(s, end))
    ensures var r := ScanOperand(s, i); r.start == start && r.end == end && r.digits > 0
  {
    assert s[start..end][0] == s[start];
    SkipSpacesOver(s, i, start);
    if s[start] == '-' {
      SignedOperandAt(s, start, end);
    } else {
      UnsignedOperandAt(s, start, end);
    }
  }

  /** The grammar the scanner accepts, with its positions `p1` to `p4` in the line: spaces
      up to `p1`, a numeral up to `p2`, the operator right at `p2`, spaces up to `p3`, a
      numeral up to `p4`, and then anything but a digit. Spaces before the operator are not
      allowed, and what follows B's digits is ignored. */
  predicate ShapeAt(s: seq<Char8>, p1: nat, p2: nat, p3: nat, p4: nat) {
    p1 <= p2 && p2 + 1 <= p3 <= p4 <= |s| &&
    AllSpaces(s[0..p1]) && Numeral(s[p1..p2]) && IsOperator(s[p2]) &&
    AllSpaces(s[p2 + 1..p3]) && Numeral(s[p3..p4]) && !IsDigit(At(s, p4))
  }

  /** Every line of that shape parses, to its two numerals and its operator. */
  lemma ParseAt(s: seq<Char8>, p1: nat, p2: nat, p3: nat, p4: nat)
    requires ShapeAt(s, p1, p2, p3, p4)
    ensures ParseInt(s[p1..p2]).Some? && ParseInt(s[p3..p4]).Some?
    ensures Parse(s) == Some(Expr(ParseInt(s[p1..p2]).value, s[p2], ParseInt(s[p3..p4]).value))
  {
    ScanAt(s, p1, p2, p3, p4);
  }

  /** On a line of that shape the scanner finds exactly those numerals and that operator. */
  lemma ScanAt(s: seq<Char8>, p1: nat, p2: nat, p3: nat, p4: nat)
    requires ShapeAt(s, p1, p2, p3, p4)
    ensures var l := Scan(s);
      l.a.start == p1 && l.a.end == p2 && l.a.digits > 0 && l.op == s[p2] &&
      l.b.start == p3 && l.b.end == p4 && l.b.digits > 0
  {
    ScanOperandOver(s, 0, p1, p2);
    ScanOperandOver(s, p2 + 1, p3, p4);
    ScanFrom(s, ScanOperand(s, 0), ScanOperand(s, p2 + 1));
  }

  /** The scanner's layout, from the operands it finds. */
  lemma ScanFrom(s: seq<Char8>, sa: Span, sb: Span)
    requires sa.end < |s| && sa == ScanOperand(s, 0) && s[sa.end] != '\0'
    requires sb == ScanOperand(s, sa.end + 1)
    ensures Scan(s) == Layout(sa, s[sa.end], sb)
  {
  }

  /** Conversely every accepted line has that shape, at the positions the scanner found,
      and the parse is made of the pieces at those positions. */
  lemma ParseDecomposes(s: seq<Char8>)
    requires Parse(s).Some?
    ensures var l := Scan(s);
      ShapeAt(s, l.a.start, l.a.end, l.b.start, l.b.end) &&
      Parse(s).value == Expr(ParseInt(s[l.a.start..l.a.end]).value, s[l.a.end], ParseInt(s[l.b.start..l.b.end]).value)
  {
    ParsedLayout(s);
    var l := Scan(s);
    OperandsShape(s, l.a, l.b);
  }

  /** The parse succeeds exactly on the lines of that shape. */
  lemma ParseAccepts(s: seq<Char8>)
    ensures Parse(s).Some? <==> exists p1, p2, p3, p4 :: ShapeAt(s, p1, p2, p3, p4)
  {
    if Parse(s).Some? {
      ParseDecomposes(s);
      var l := Scan(s);
      assert ShapeAt(s, l.a.start, l.a.end, l.b.start, l.b.end);
    }
    if exists p1, p2, p3, p4 :: ShapeAt(s, p1, p2, p3, p4) {
      var p1, p2, p3, p4 :| ShapeAt(s, p1, p2, p3, p4);
      ParseAt(s, p1, p2, p3, p4);
    }
  }

  /** What an accepted line tells of the scanner's positions. */
  lemma ParsedLayout(s: seq<Char8>)
    requires Parse(s).Some?
    ensures var l := Scan(s);
      l.a.digits > 0 && l.b.digits > 0 && l.a.end < |s| && l.op == s[l.a.end] &&
      l.b == ScanOperand(s, l.a.end + 1)
  {
    var l := Scan(s);
    assert Parse(s) == ParseLayout(s, l);
    LayoutAccepted(s, l);
    assert l.op == At(s, l.a.end) != '\0';
  }

  lemma LayoutAccepted(s: seq<Char8>, l: Layout)
    requires l.a.start <= l.a.end <= |s| && l.b.start <= l.b.end <= |s|
    requires ParseLayout(s, l).Some?
    ensures l.a.digits > 0 && l.b.digits > 0 && IsOperator(l.op)
  {
  }

  lemma OperandsShape(s: seq<Char8>, sa: Span, sb: Span)
    requires sa == ScanOperand(s, 0) && sa.end < |s| && sb == ScanOperand(s, sa.end + 1)
    requires sa.digits > 0 && sb.digits > 0
    ensures AllSpaces(s[0..sa.start]) && Numeral(s[sa.start..sa.end])
    ensures AllSpaces(s[sa.end + 1..sb.start]) && Numeral(s[sb.start..sb.end]) && !IsDigit(At(s, sb.end))
  {
    OperandShape(s, 0);
    OperandShape(s, sa.end + 1);
  }

  /** The character right after A's digits is the operator: anything else there (a space,
      or the end of the line) is a parse error, whatever follows. */
  lemma OperatorFollowsA(s: seq<Char8>, p1: nat, p2: nat)
    requires p1 <= p2 <= |s| && AllSpaces(s[0..p1]) && Numeral(s[p1..p2])
    requires !IsDigit(At(s, p2)) && !IsOperator(At(s, p2))
    ensures Parse(s) == None
  {
    ScanOperandOver(s, 0, p1, p2);
  }

  /** A line without any digit is a parse error. */
  lemma NoDigitsRejected(s: seq<Char8>)
    requires forall k :: 0 <= k < |s| ==> !IsDigit(s[k])
    ensures Parse(s) == None
  {
    OperandShape(s, 0);
  }

  // ---------------------------------------------------------------------------
  // Properties of the arithmetic

  /** `+ - *` are exact whenever the result fits an `int`; `/` fails exactly on a zero
      divisor and otherwise truncates toward zero, the remainder taking the sign of `a`. */
  lemma EvaluateMeaning(e: Expr)
    requires IsOperator(e.op)
    ensures e.op == '+' && INT_MIN <= e.a + e.b <= INT_MAX ==> Evaluate(e) == Value(e.a + e.b)
    ensures e.op == '-' && INT_MIN <= e.a - e.b <= INT_MAX ==> Evaluate(e) == Value(e.a - e.b)
    ensures e.op == '*' && INT_MIN <= e.a * e.b <= INT_MAX ==> Evaluate(e) == Value(e.a * e.b)
    ensures e.op == '/' ==> (Evaluate(e) == DivByZero <==> e.b == 0)
    ensures e.op == '/' && e.b != 0 && !(e.a == INT_MIN && e.b == -1) ==>
      Evaluate(e).Value? &&
      var q := Evaluate(e).r;
      Abs(e.a - q * e.b) < Abs(e.b) && (e.a - q * e.b == 0 || (e.a - q * e.b < 0 <==> e.a < 0))
  {
    if e.op == '/' && e.b != 0 && !(e.a == INT_MIN && e.b == -1) {
      TruncDivFits(e.a, e.b);
    }
  }

  /** INT_MIN / -1, where the processor raises a divide error: the model wraps the
      quotient 2^31 back to INT_MIN, which `itoa10` prints as a bare sign. */
  lemma DivideOverflow()
    ensures Evaluate(Expr(INT_MIN, '/', -1)) == Value(INT_MIN)
    ensures Message(Value(INT_MIN)) == EQUALS + "-"
  {
    assert TruncDiv(INT_MIN, -1) == -INT_MIN;
  }

  /** The worked example of the banner: `12+34` is 46. */
  lemma CalculateSum(s: seq<Char8>)
    requires s == "12+34"
    ensures Calculate(s) == Value(46)
  {
    assert s[0..2] == "12" && s[3..5] == "34";
    assert AllDigits("12") && DigitsValue("12") == 12 by { assert "12"[..1] == "1"; }
    assert AllDigits("34") && DigitsValue("34") == 34 by { assert "34"[..1] == "3"; }
    ParseAt(s, 0, 2, 3, 5);
    assert Parse(s) == Some(Expr(12, '+', 34));
  }

  /** `3-10`: a difference below zero. */
  lemma CalculateDifference(s: seq<Char8>)
    requires s == "3-10"
    ensures Calculate(s) == Value(-7)
  {
    assert s[0..1] == "3" && s[2..4] == "10";
    assert AllDigits("10") && DigitsValue("10") == 10 by { assert "10"[..1] == "1"; }
    ParseAt(s, 0, 1, 2, 4);
    assert ParseInt("3") == Some(3) && ParseInt("10") == Some(10);
    assert Parse(s) == Some(Expr(3, '-', 10));
  }

  /** `-7/2`: a negative operand, and division truncating toward zero. */
  lemma CalculateQuotient(s: seq<Char8>)
    requires s == "-7/2"
    ensures Calculate(s) == Value(-3)
  {
    assert s[0..2] == "-7" && s[3..4] == "2";
    assert "-7"[1..] == "7";
    ParseAt(s, 0, 2, 3, 4);
    assert ParseInt("-7") == Some(-7) && ParseInt("2") == Some(2);
    assert Parse(s) == Some(Expr(-7, '/', 2));
  }

  /** `7/0`: the division by zero is reported, not performed. */
  lemma CalculateDivByZero(s: seq<Char8>)
    requires s == "7/0"
    ensures Calculate(s) == DivByZero
  {
    assert s[0..1] == "7" && s[2..3] == "0";
    assert ShapeAt(s, 0, 1, 2, 3);
    ParseAt(s, 0, 1, 2, 3);
    assert ParseInt("7") == Some(7) && ParseInt("0") == Some(0);
    assert Parse(s) == Some(Expr(7, '/', 0));
  }

  /** `5 +3`: a space before the operator is a parse error. */
  lemma SpaceBeforeOperator(s: seq<Char8>)
    requires s == "5 +3"
    ensures Calculate(s) == ParseError
  {
    assert s[0..1] == "5";
    OperatorFollowsA(s, 0, 1);
  }

  /** `5+ 3`: spaces after the operator are skipped. */
  lemma SpaceAfterOperator(s: seq<Char8>)
    requires s == "5+ 3"
    ensures Calculate(s) == Value(8)
  {
    assert s[0..1] == "5" && s[2..3] == " " && s[3..4] == "3";
    assert ShapeAt(s, 0, 1, 3, 4);
    ParseAt(s, 0, 1, 3, 4);
    assert ParseInt("5") == Some(5) && ParseInt("3") == Some(3);
    assert Parse(s) == Some(Expr(5, '+', 3));
  }

  /** `12+34x`: what follows B's digits is ignored. */
  lemma TrailingIgnored(s: seq<Char8>)
    requires s == "12+34x"
    ensures Calculate(s) == Value(46)
  {
    assert s[0..2] == "12" && s[3..5] == "34";
    assert AllDigits("12") && DigitsValue("12") == 12 by { assert "12"[..1] == "1"; }
    assert AllDigits("34") && DigitsValue("34") == 34 by { assert "34"[..1] == "3"; }
    ParseAt(s, 0, 2, 3, 5);
    assert Parse(s) == Some(Expr(12, '+', 34));
  }

  /** `12x34`: a character that is not an operator after A is a parse error. */
  lemma NotAnOperator(s: seq<Char8>)
    requires s == "12x34"
    ensures Calculate(s) == ParseError
  {
    assert s[0..2] == "12";
    OperatorFollowsA(s, 0, 2);
  }

  /** `12`: a lone number is a parse error. */
  lemma NoOperator(s: seq<Char8>)
    requires s == "12"
    ensures Calculate(s) == ParseError
  {
    assert s[0..2] == "12";
    OperatorFollowsA(s, 0, 2);
  }

  // ---------------------------------------------------------------------------
  // Properties of a step

  /** The buffer never holds more than 63 characters; Enter empties it and prints the
      response; Esc leaves everything as it is; a release code changes nothing. */
  lemma StepEffects(line: seq<Char8>, s: Screen, sc: Scancode)
    requires |line| <= CAPACITY && Inv(s)
    ensures var r := Step(line, s, sc);
      |r.line| <= CAPACITY &&
      (r.signal == ReturnToMenu <==> sc == ESC) &&
      (IsRelease(sc) || sc == ESC ==> r.line == line && r.screen == s) &&
      (sc == ENTER ==> r.line == [] && r.screen == PutString(s, Response(line))) &&
      (sc == BACKSPACE ==> r.line == (if line == [] then [] else line[..|line| - 1]) &&
                           r.screen == (if line == [] then s else Erase(s))) &&
      (sc != ESC && sc != BACKSPACE && sc != ENTER && ToAscii(sc) == '\0' ==> r.line == line && r.screen == s)
  {
    ToAsciiRange(sc);
  }

  /** A typed key is appended and echoed while there is room; a full buffer ignores it. */
  lemma TypingAppends(line: seq<Char8>, s: Screen, sc: Scancode)
    requires |line| <= CAPACITY && Inv(s)
    requires sc != ESC && sc != BACKSPACE && sc != ENTER && ToAscii(sc) != '\0'
    ensures var r := Step(line, s, sc);
      (|line| < CAPACITY ==> r.line == line + [ToAscii(sc)] && r.screen == PutChar(s, ToAscii(sc))) &&
      (|line| == CAPACITY ==> r.line == line && r.screen == s)
  {
    ToAsciiRange(sc);
  }

  /** On a line without NULs the operator is NUL exactly when A ends the line, and B has
      digits only after an operator, which then lies before B. */
  lemma OperatorBeforeB(s: seq<Char8>)
    requires '\0' !in s
    ensures var l := Scan(s);
      (l.op == '\0' <==> l.a.end == |s|) &&
      (l.op != '\0' ==> l.a.end < l.b.start) && (l.op == '\0' ==> l.b.start == l.b.end == |s|)
  {
    var l := Scan(s);
    if l.a.end < |s| {
      assert s[l.a.end] in s;
    }
  }

  /** `t[start..end]` is a C string: a NUL at `end` and none before it. */
  predicate Delimited(t: seq<Char8>, start: nat, end: nat) {
    start <= end < |t| && t[end] == '\0' && forall k :: start <= k < end ==> t[k] != '\0'
  }

  /** Writing a NUL at the end of each operand of a NUL-terminated line makes both
      operands C strings and leaves their characters as they were. */
  lemma TerminatedOperands(before: seq<Char8>, n: nat, l: Layout)
    requires n < |before| && before[n] == '\0' && '\0' !in before[..n] && l == Scan(before[..n])
    ensures var t := before[l.a.end := '\0'][l.b.end := '\0'];
      Delimited(t, l.a.start, l.a.end) && t[l.a.start..l.a.end] == before[..n][l.a.start..l.a.end] &&
      Delimited(t, l.b.start, l.b.end) && t[l.b.start..l.b.end] == before[..n][l.b.start..l.b.end]
  {
    var line := before[..n];
    OperatorBeforeB(line);
    var t := before[l.a.end := '\0'][l.b.end := '\0'];
    forall k | 0 <= k < n && k != l.a.end && k != l.b.end
      ensures t[k] == line[k] && t[k] != '\0'
    {
      assert line[k] in line;
    }
    assert t[l.a.start..l.a.end] == line[l.a.start..l.a.end];
    assert t[l.b.start..l.b.end] == line[l.b.start..l.b.end];
  }

  /** Putting back the two saved characters restores the buffer; when both ends coincide
      the second saved character is the NUL that was already there. */
  lemma RestoredBuffer(before: seq<Char8>, endA: nat, endB: nat, savedA: Char8, savedB: Char8)
    requires endA <= endB < |before| && savedA == before[endA]
    requires savedB == if endB == endA then '\0' else before[endB]
    requires endA == endB ==> before[endB] == '\0'
    ensures before[endA := '\0'][endB := '\0'][endA := savedA][endB := savedB] == before
  {
  }

  /** The flags and values the conversions produce decide the outcome `Calculate` specifies. */
  lemma ConvertedOutcome(line: seq<Char8>, l: Layout, okA: bool, a: Int32, okB: bool, b: Int32)
    requires l == Scan(line)
    requires okA <==> l.a.digits > 0 && ParseInt(line[l.a.start..l.a.end]).Some?
    requires okA ==> a == ParseInt(line[l.a.start..l.a.end]).value
    requires okB <==> l.b.digits > 0 && ParseInt(line[l.b.start..l.b.end]).Some?
    requires okB ==> b == ParseInt(line[l.b.start..l.b.end]).value
    ensures Calculate(line) == if okA && okB && IsOperator(l.op) then Evaluate(Expr(a, l.op, b)) else ParseError
  {
  }

  // ---------------------------------------------------------------------------
  // The calculator as kernel.c runs it: `buf` and `len` updated in place.

  class Calculator {
    /** `char buf[64]` */
    const buf: array<Char8>
    /** `int len` */
    var len: nat

    ghost predicate Valid()
      reads this, buf
    {
      buf.Length == CAPACITY + 1 && len <= CAPACITY &&
      forall k :: 0 <= k < len ==> buf[k] != '\0'
    }

    /** The characters typed so far. */
    ghost function Line(): seq<Char8>
      requires Valid()
      reads this, buf
    {
      buf[..len]
    }

    /** The start of `run_calculator`: clear the screen, print the banner and the prompt. */
    constructor Start(term: Terminal)
      requires term.cells.Length == SIZE
      modifies term, term.cells
      ensures Valid() && Line() == [] && fresh(buf)
      ensures term.Valid() && term.State() == PutString(Cleared(), BANNER)
    {
      term.ClearScreen();
      ghost var s0 := term.State();
      term.PrintLine(TITLE);
      ghost var out := Ln(TITLE);
      term.PrintLine(FORMAT);
      PutStringAppend(s0, out, Ln(FORMAT));
      out := out + Ln(FORMAT);
      term.PrintLine(OPERATORS);
      PutStringAppend(s0, out, Ln(OPERATORS));
      out := out + Ln(OPERATORS);
      term.PrintLine([]);
      PutStringAppend(s0, out, Ln([]));
      out := out + Ln([]);
      buf := new Char8[CAPACITY + 1];
      len := 0;
      term.PrintString(PROMPT);
      PutStringAppend(s0, out, PROMPT);
      out := out + PROMPT;
      assert out == BANNER;
      new;
    }

    /** `while(buf[i]==' ') i++` */
    method SkipSpacesFrom(i: nat) returns (j: nat)
      requires Valid() && buf[len] == '\0' && i <= len
      ensures j == SkipSpaces(Line(), i)
    {
      j := i;
      while buf[j] == ' '
        invariant i <= j <= len
        invariant SkipSpaces(Line(), j) == SkipSpaces(Line(), i)
        decreases len - j
      {
        j := j + 1;
      }
    }

    /** `while(buf[i]>='0' && buf[i]<='9'){ i++; digits++; }` */
    method SkipDigitsFrom(i: nat) returns (j: nat, digits: nat)
      requires Valid() && buf[len] == '\0' && i <= len
      ensures j == SkipDigits(Line(), i) && digits == j - i
    {
      j, digits := i, 0;
      while '0' <= buf[j] <= '9'
        invariant i <= j <= len && digits == j - i
        invariant SkipDigits(Line(), j) == SkipDigits(Line(), i)
        decreases len - j
      {
        j, digits := j + 1, digits + 1;
      }
    }

    /** `if(buf[i]=='-') i++` */
    method SkipMinusAt(i: nat) returns (j: nat)
      requires Valid() && buf[len] == '\0' && i <= len
      ensures j == SkipMinus(Line(), i)
    {
      j := if buf[i] == '-' then i + 1 else i;
    }

    /** The scan of one operand from `i`. */
    method ScanOperandFrom(i: nat) returns (start: nat, digits: nat, end: nat)
      requires Valid() && buf[len] == '\0' && i <= len
      ensures Span(start, digits, end) == ScanOperand(Line(), i)
    {
      start := SkipSpacesFrom(i);
      var sign := SkipMinusAt(start);
      end, digits := SkipDigitsFrom(sign);
    }

    /** The scanner of the Enter branch, on the line terminated at `len`. */
    method ScanLine() returns (l: Layout)
      requires Valid() && buf[len] == '\0'
      ensures l == Scan(Line())
    {
      var startA, digitsA, endA := ScanOperandFrom(0);
      var op := buf[endA];
      var i := if op != '\0' then endA + 1 else endA;
      var startB, digitsB, endB := ScanOperandFrom(i);
      l := Layout(Span(startA, digitsA, endA), op, Span(startB, digitsB, endB));
    }

    /** `char savedA=buf[endA]; buf[endA]='\0'; char savedB=buf[endB]; buf[endB]='\0';` */
    method Terminate(endA: nat, endB: nat) returns (savedA: Char8, savedB: Char8)
      requires buf.Length == CAPACITY + 1 && endA <= endB < buf.Length
      modifies buf
      ensures buf[..] == old(buf[..])[endA := '\0'][endB := '\0']
      ensures savedA == old(buf[endA]) && savedB == if endB == endA then '\0' else old(buf[endB])
    {
      savedA := buf[endA];
      buf[endA] := '\0';
      savedB := buf[endB];
      buf[endB] := '\0';
    }

    /** `buf[endA]=savedA; buf[endB]=savedB;` */
    method Restore(endA: nat, savedA: Char8, endB: nat, savedB: Char8)
      requires buf.Length == CAPACITY + 1 && endA <= endB < buf.Length
      modifies buf
      ensures buf[..] == old(buf[..])[endA := savedA][endB := savedB]
    {
      buf[endA] := savedA;
      buf[endB] := savedB;
    }

    /** `to_int(&buf[start], &v)` on an operand whose end has been overwritten by a NUL. */
    method ReadOperand(start: nat, end: nat, prior: Int32) returns (ok: bool, v: Int32)
      requires Delimited(buf[..], start, end)
      ensures ok <==> ParseInt(buf[..][start..end]).Some?
      ensures ok ==> v == ParseInt(buf[..][start..end]).value
      ensures !ok ==> v == prior
    {
      CStringUpTo(buf[..], start, end);
      ok, v := ToInt(CString(buf[..], start), prior);
    }

    /** The conversions of the Enter branch: the operands are made C strings by writing
        a NUL after each, read with `to_int` when they have digits, and the two
        overwritten characters restored. `a` and `b` start as `prior`. */
    method ConvertOperands(l: Layout, prior: Int32) returns (okA: bool, a: Int32, okB: bool, b: Int32)
      requires Valid() && buf[len] == '\0' && l == Scan(Line())
      modifies buf
      ensures buf[..] == old(buf[..])
      ensures okA <==> l.a.digits > 0 && ParseInt(old(Line())[l.a.start..l.a.end]).Some?
      ensures okA ==> a == ParseInt(old(Line())[l.a.start..l.a.end]).value
      ensures okB <==> l.b.digits > 0 && ParseInt(old(Line())[l.b.start..l.b.end]).Some?
      ensures okB ==> b == ParseInt(old(Line())[l.b.start..l.b.end]).value
    {
      ghost var before := buf[..];
      assert '\0' !in before[..len] && before[..len] == Line() by {
        forall k | 0 <= k < len ensures before[..len][k] != '\0' {
        }
      }
      TerminatedOperands(before, len, l);
      OperatorBeforeB(before[..len]);
      var savedA, savedB := Terminate(l.a.end, l.b.end);
      okA, a, okB, b := false, prior, false, prior;
      if l.a.digits > 0 {
        okA, a := ReadOperand(l.a.start, l.a.end, prior);
      }
      if l.b.digits > 0 {
        okB, b := ReadOperand(l.b.start, l.b.end, prior);
      }
      RestoredBuffer(before, l.a.end, l.b.end, savedA, savedB);
      Restore(l.a.end, savedA, l.b.end, savedB);
    }

    /** The arithmetic of the Enter branch: `r` and `err` as the `if(op==...)` chain sets them. */
    method Arithmetic(a: Int32, op: Char8, b: Int32) returns (r: Int32, err: bool)
      requires IsOperator(op)
      ensures Evaluate(Expr(a, op, b)) == if err then DivByZero else Value(r)
    {
      r, err := 0, false;
      if op == '+' {
        r := Wrap32(a + b);
      } else if op == '-' {
        r := Wrap32(a - b);
      } else if op == '*' {
        r := Wrap32(a * b);
      } else if op == '/' {
        if b == 0 {
          err := true;
        } else {
          r := Wrap32(TruncDiv(a, b));
        }
      }
    }

    /** `itoa10(r,res); printString("= "); printLine(res);` */
    static method PrintValue(term: Terminal, r: Int32)
      requires term.Valid()
      modifies term, term.cells
      ensures term.Valid() && term.State() == PutString(old(term.State()), Ln(Message(Value(r))))
    {
      ghost var s0 := term.State();
      var res := Itoa10(r);
      term.PrintString(EQUALS);
      term.PrintLine(res);
      PutStringAppend(s0, EQUALS, Ln(res));
      LnAfter(EQUALS, res);
      assert Message(Value(r)) == EQUALS + res;
    }

    /** `printLine(""); if(err) printLine("Error: div by 0"); else ...` */
    static method PrintResult(term: Terminal, r: Int32, err: bool)
      requires term.Valid()
      modifies term, term.cells
      ensures term.Valid()
      ensures term.State() == PutString(old(term.State()), Ln([]) + Ln(Message(if err then DivByZero else Value(r))))
    {
      ghost var s0 := term.State();
      term.PrintLine([]);
      ghost var message := Message(if err then DivByZero else Value(r));
      if err {
        term.PrintLine(DIV_ERROR);
      } else {
        PrintValue(term, r);
      }
      PutStringAppend(s0, Ln([]), Ln(message));
    }

    /** `printLine(""); printLine("Error: parse");` */
    static method PrintParseError(term: Terminal)
      requires term.Valid()
      modifies term, term.cells
      ensures term.Valid()
      ensures term.State() == PutString(old(term.State()), Ln([]) + Ln(Message(ParseError)))
    {
      ghost var s0 := term.State();
      term.PrintLine([]);
      term.PrintLine(PARSE_ERROR);
      PutStringAppend(s0, Ln([]), Ln(PARSE_ERROR));
    }

    /** The Enter branch: terminate the line, scan and convert it, print the outcome,
        an empty line and the prompt, and empty the buffer. */
    method Submit(term: Terminal)
      requires Valid() && term.Valid()
      modifies this, buf, term, term.cells
      ensures Valid() && Line() == []
      ensures term.Valid() && term.State() == PutString(old(term.State()), Response(old(Line())))
    {
      ghost var line := Line();
      ghost var s0 := term.State();
      buf[len] := '\0';
      assert Line() == line;
      var l := ScanLine();
      var okA, a, okB, b := ConvertOperands(l, 0);
      var op := l.op;
      ghost var o := Calculate(line);
      ConvertedOutcome(line, l, okA, a, okB, b);
      if !okA || !okB || !IsOperator(op) {
        PrintParseError(term);
      } else {
        var r, err := Arithmetic(a, op, b);
        PrintResult(term, r, err);
      }
      ghost var out := Ln([]) + Ln(Message(o));
      term.PrintLine([]);
      PutStringAppend(s0, out, Ln([]));
      out := out + Ln([]);
      term.PrintString(PROMPT);
      PutStringAppend(s0, out, PROMPT);
      len := 0;
    }

    /** `buf[len++]=c; printChar(c);` for a mapped key while there is room. */
    method Append(term: Terminal, c: Char8)
      requires Valid() && term.Valid() && c != '\0'
      modifies this, buf, term, term.cells
      ensures Valid() && term.Valid()
      ensures old(len) < CAPACITY ==> Line() == old(Line()) + [c] && term.State() == PutChar(old(term.State()), c)
      ensures old(len) == CAPACITY ==> Line() == old(Line()) && term.State() == old(term.State())
    {
      if len < CAPACITY {
        buf[len] := c;
        len := len + 1;
        term.PrintChar(c);
      }
    }

    /** One pass of the body of `run_calculator`'s loop on the scancode `sc`. */
    method Handle(term: Terminal, sc: Scancode) returns (signal: Signal)
      requires Valid() && term.Valid()
      modifies this, buf, term, term.cells
      ensures Valid() && term.Valid()
      ensures Stepped(Line(), term.State(), signal) == Step(old(Line()), old(term.State()), sc)
    {
      signal := Continue;
      if IsRelease(sc) {
        return;
      }
      if sc == ESC {
        return ReturnToMenu;
      }
      if sc == BACKSPACE {
        if len > 0 {
          len := len - 1;
          term.Backspace();
        }
        return;
      }
      if sc == ENTER {
        Submit(term);
        return;
      }
      var c := ToAscii(sc);
      if c != '\0' {
        Append(term, c);
      }
    }
  }
}
