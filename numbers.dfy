/** The decimal string helpers of kernel.c: `to_int` reads an optionally signed
    digit string, `itoa10` formats an `int`. A C string is modelled by its
    characters before the terminating NUL. */
module Numbers {
  import opened CTypes

  predicate IsDigit(c: Char8) {
    '0' <= c <= '9'
  }

  function DigitValue(c: Char8): nat
    requires IsDigit(c)
  {
    c as int - '0' as int
  }

  function DigitChar(d: nat): (c: Char8)
    requires d < 10
    ensures IsDigit(c) && DigitValue(c) == d
  {
    (d + '0' as int) as char
  }

  predicate AllDigits(t: seq<Char8>) {
    forall k :: 0 <= k < |t| ==> IsDigit(t[k])
  }

  /** The value of a digit string accumulated left to right, as `val = val*10 + digit`. */
  function DigitsValue(t: seq<Char8>): nat
    requires AllDigits(t)
  {
    if t == [] then 0 else DigitsValue(t[..|t| - 1]) * 10 + DigitValue(t[|t| - 1])
  }

  lemma DigitsValueSnoc(t: seq<Char8>, c: Char8)
    requires AllDigits(t) && IsDigit(c)
    ensures AllDigits(t + [c]) && DigitsValue(t + [c]) == DigitsValue(t) * 10 + DigitValue(c)
  {
    assert (t + [c])[..|t|] == t;
  }

  /** A numeral as `to_int` reads it: an optional minus sign and at least one digit. */
  predicate Numeral(t: seq<Char8>) {
    if |t| > 0 && t[0] == '-' then |t| > 1 && AllDigits(t[1..]) else |t| > 0 && AllDigits(t)
  }

  /** What `to_int` reports: `None` for failure (return 0, `*out` untouched), or the
      value it stores in `*out`. `val` is a `long`; the model keeps it exact and applies
      the final `(int)` cast as a 32-bit truncation. */
  function ParseInt(s: seq<Char8>): (r: Option<Int32>)
    ensures r.Some? <==> Numeral(s)
  {
    var negative := |s| > 0 && s[0] == '-';
    var digits := if negative then s[1..] else s;
    if digits == [] || !AllDigits(digits) then None
    else Some(Wrap32(if negative then -(DigitsValue(digits) as int) else DigitsValue(digits)))
  }

  /** `to_int(s, out)`: `prior` is the value `*out` holds before the call. */
  method ToInt(s: seq<Char8>, prior: Int32) returns (ok: bool, out: Int32)
    requires '\0' !in s
    ensures ok <==> ParseInt(s).Some?
    ensures ok ==> out == ParseInt(s).value
    ensures !ok ==> out == prior
  {
    var sign, i := 1, 0;
    var val: int := 0;
    if |s| > 0 && s[0] == '-' {
      sign, i := -1, 1;
    }
    var start := i;
    if i == |s| {
      return false, prior;
    }
    while i < |s|
      invariant start <= i <= |s|
      invariant AllDigits(s[start..i]) && val == DigitsValue(s[start..i])
    {
      if !IsDigit(s[i]) {
        assert !AllDigits(s[start..]) by { assert s[start..][i - start] == s[i]; }
        return false, prior;
      }
      assert s[start..i + 1] == s[start..i] + [s[i]];
      DigitsValueSnoc(s[start..i], s[i]);
      val := val * 10 + DigitValue(s[i]);
      i := i + 1;
    }
    assert s[start..i] == s[start..];
    return true, Wrap32(sign * val);
  }

  /** The decimal digits of a number, least significant first, as `itoa10`'s loop
      `while(v>0)` collects them in `tmp`; none for a number that is not positive. */
  function LowDigits(n: int): (t: seq<Char8>)
    ensures AllDigits(t)
    decreases n
  {
    if n <= 0 then [] else [DigitChar(n % 10)] + LowDigits(n / 10)
  }

  function Reverse(t: seq<Char8>): (r: seq<Char8>)
    ensures |r| == |t|
  {
    if t == [] then [] else Reverse(t[1..]) + [t[0]]
  }

  /** The decimal digits of a positive number, most significant first. */
  function Digits(n: int): seq<Char8> {
    Reverse(LowDigits(n))
  }

  /** What `itoa10` writes before the terminating NUL. `v = -v` on INT_MIN wraps back
      to INT_MIN, so the digit loop does not run and only the sign is written. */
  function Decimal(v: Int32): (r: seq<Char8>)
    ensures |r| > 0 && (r[0] == '-' <==> v < 0) && AllDigits(r[1..])
    ensures v >= 0 ==> AllDigits(r)
  {
    if v == 0 then "0"
    else
      var sign: seq<Char8> := if v < 0 then "-" else "";
      var n := if v < 0 then Neg32(v) else v;
      if n > 0 then DigitsValueOfDigits(n); sign + Digits(n) else sign + Digits(n)
  }

  function Pow10(k: nat): nat {
    if k == 0 then 1 else 10 * Pow10(k - 1)
  }

  lemma {:induction false} LowDigitsShort(n: int, k: nat)
    requires n < Pow10(k)
    ensures |LowDigits(n)| <= k
  {
    if n > 0 {
      LowDigitsShort(n / 10, k - 1);
    }
  }

  /** The digits of a positive number are a well-formed numeral with that value. */
  lemma {:induction false} DigitsValueOfDigits(n: nat)
    requires n > 0
    ensures |Digits(n)| > 0 && AllDigits(Digits(n)) && DigitsValue(Digits(n)) == n
    decreases n
  {
    var low := LowDigits(n);
    assert low[1..] == LowDigits(n / 10);
    var t := Digits(n);
    assert t == Digits(n / 10) + [DigitChar(n % 10)];
    assert t[..|t| - 1] == Digits(n / 10);
    if n >= 10 {
      DigitsValueOfDigits(n / 10);
    } else {
      assert Digits(n / 10) == [];
    }
  }

  lemma LowDigitsPeel(collected: seq<Char8>, m: int)
    requires m > 0
    ensures collected + LowDigits(m) == (collected + [DigitChar(m % 10)]) + LowDigits(m / 10)
  {
  }

  lemma ReversePeel(prefix: seq<Char8>, t: seq<Char8>, n: nat)
    requires n < |t|
    ensures prefix + Reverse(t[n..]) == (prefix + Reverse(t[n + 1..])) + [t[n]]
  {
    assert t[n..][1..] == t[n + 1..];
  }

  /** The first loop of `itoa10`: the digits of `m`, least significant first, into `tmp`. */
  method CollectDigits(tmp: array<Char8>, m: int) returns (n: nat)
    requires tmp.Length == 16 && m <= -INT_MIN
    modifies tmp
    ensures n <= 16 && tmp[..n] == LowDigits(m)
  {
    assert |LowDigits(m)| <= 10 by {
      assert Pow10(10) == 10000000000;
      LowDigitsShort(m, 10);
    }
    n := 0;
    var rest := m;
    while rest > 0 && n < 16
      invariant n <= 16
      invariant LowDigits(m) == tmp[..n] + LowDigits(rest)
    {
      ghost var collected := tmp[..n];
      LowDigitsPeel(collected, rest);
      tmp[n] := DigitChar(rest % 10);
      assert tmp[..n + 1] == collected + [DigitChar(rest % 10)];
      n := n + 1;
      rest := rest / 10;
    }
    assert tmp[..n] + LowDigits(rest) == LowDigits(m);
  }

  /** `itoa10(v, buf)`: the text is returned rather than written into the caller's buffer. */
  method Itoa10(v: Int32) returns (text: seq<Char8>)
    ensures text == Decimal(v)
  {
    if v == 0 {
      return "0";
    }
    var neg := false;
    var m: int := v;
    if v < 0 {
      neg := true;
      m := Neg32(v);
    }
    var tmp := new Char8[16];
    var n := CollectDigits(tmp, m);
    ghost var low := tmp[..n];
    text := if neg then "-" else "";
    ghost var prefix := text;
    while n > 0
      invariant n <= |low|
      invariant text == prefix + Reverse(low[n..])
      modifies {}
    {
      n := n - 1;
      ReversePeel(prefix, low, n);
      text := text + [tmp[n]];
    }
    assert low[0..] == low;
    assert text == prefix + Digits(m);
  }

  // ---------------------------------------------------------------------------
  // Properties

  /** `to_int` fails on the empty string, on a lone minus sign, and on any string with a
      character other than a digit anywhere but in a leading minus sign. */
  lemma ParseIntRejects(s: seq<Char8>, k: nat)
    ensures ParseInt("") == None && ParseInt("-") == None
    ensures k < |s| && !IsDigit(s[k]) && !(k == 0 && s[k] == '-') ==> ParseInt(s) == None
  {
    if k < |s| && !IsDigit(s[k]) && !(k == 0 && s[k] == '-') {
      if |s| > 0 && s[0] == '-' {
        assert s[1..][k - 1] == s[k];
      }
    }
  }

  /** `itoa10(0)` is "0"; `itoa10` of INT_MIN is the bare sign. */
  lemma DecimalEdgeCases()
    ensures Decimal(0) == "0"
    ensures Decimal(INT_MIN) == "-" && ParseInt(Decimal(INT_MIN)) == None
  {
  }

  /** The digits of a positive `int` read back as that number. */
  lemma ParseDigits(n: nat)
    requires 0 < n <= INT_MAX
    ensures ParseInt(Digits(n)) == Some(n)
  {
    DigitsValueOfDigits(n);
    var t := Digits(n);
    assert IsDigit(t[0]);
  }

  /** A minus sign and the digits of `n` read back as `-n`, INT_MIN included. */
  lemma ParseNegatedDigits(n: nat)
    requires 0 < n <= -INT_MIN
    ensures ParseInt("-" + Digits(n)) == Some(-(n as int))
  {
    DigitsValueOfDigits(n);
    assert ("-" + Digits(n))[1..] == Digits(n);
  }

  /** The round trip: `to_int(itoa10(v))` succeeds and yields `v` for every `int` but INT_MIN. */
  lemma RoundTrip(v: Int32)
    requires v != INT_MIN
    ensures ParseInt(Decimal(v)) == Some(v)
  {
    if v < 0 {
      assert Decimal(v) == "-" + Digits(-v);
      ParseNegatedDigits(-v);
    } else if v > 0 {
      assert Decimal(v) == Digits(v);
      ParseDigits(v);
    } else {
      assert "0"[..0] == [];
    }
  }

  /** A leading minus negates, leading zeros are accepted, and a minus anywhere else fails. */
  lemma ParseIntExamples()
    ensures ParseInt("12") == Some(12) && ParseInt("-7") == Some(-7)
    ensures ParseInt("007") == Some(7) && ParseInt("-0") == Some(0)
    ensures ParseInt("1-2") == None && ParseInt("--1") == None
  {
    assert AllDigits("12") && DigitsValue("12") == 12 by {
      assert "12"[..1] == "1";
    }
    assert "-7"[1..] == "7";
    assert "007"[..2] == "00" && "00"[..1] == "0";
    assert "-0"[1..] == "0";
    ParseIntRejects("1-2", 1);
    ParseIntRejects("--1", 1);
  }
}
